# proxy-fe request handler, modelled in Dafny

proxy-fe is an Express server that sits between a browser front end and a
private API. The front end sends every API call as a POST to a path under
`/api/v1/`. The body of that POST names the real action: a `method` field
(`GET`, `PUT` or `POST`), `params` for a GET and `body` for the payload.
The router in `server/server.js` does the rest:

- a middleware strips the first `/api/v1/` from `req.originalUrl`;
- the `post("*")` handler points the global axios defaults at the private
  API (`APP_API_URL`);
- it stores the caller's token (the `your-token` header) as the default
  "Api-Token" header;
- it replays the tunnelled call upstream;
- it relays any uploaded files as a multipart request, then deletes their
  temporary copies;
- it answers the caller from the upstream's `{status: "success" | "error", ...}`
  envelope.

The model has seven modules:

- `Wrappers` holds the `Option` type.
- `Js` holds JavaScript values and the few language operations the handler
  uses: truthiness, property reads, template-literal conversion, and
  sloppy-mode `data.error = true`.
- `UrlRewrite` is the `/api/v1/` middleware. `String.replace` with a string
  pattern removes only the first occurrence.
- `Envelope` maps an upstream reply to the caller's answer. It covers the
  axios `.then`/`.catch` pair shared by GET, PUT and POST, and the relay's
  callback.
- `Upload` covers the upload bookkeeping:
  - the `files` dictionary, where the last file wins per field name and a
    "__proto__" field name sets the prototype instead of a key;
  - its key order;
  - the multipart form `{...req.body, ...files}`;
  - the paths that are unlinked.
- `Router` says which upstream calls one request issues, in order, with
  which URL, payload and token.
- `Proxy` is the handler as a `Server` class over the state that persists
  between requests:
  - the axios defaults `baseURL` and "Api-Token";
  - the set of temporary upload files on disk.

  Its `Handle` method is proved against `Router.Dispatch` and against the
  completion functions.

The upstream and `JSON.parse` are parameters:

- `axios: Call -> AxiosResult` says how each axios call settles;
- `relay: Call -> RelayResult` gives the relay's `err` and `rawBody`;
- `parse: string -> Option<Value>` is `JSON.parse`, absent when it throws.

Some behaviours of the code may be unexpected; the model follows the code:

- The rewritten `req.originalUrl` is never used: every upstream call goes
  to `APP_API_URL` itself, plus `?params` for a GET. `Router.OriginalUrlUnused`
  proves this.
- The token is not per request. It is written into the process-wide axios
  defaults, and only when it is truthy. A later request without a token
  still sends the earlier one (`Proxy.TokenSurvivesIntoNextRequest`).
- The three method tests are independent `if`s, and only GET returns:
  - a PUT or POST that carries files issues its axios call and then the
    relay;
  - a GET that carries files never relays them, so they are never deleted.
- An axios rejection without `error.response` (a network error) throws
  inside `.catch`, so the caller is never answered.
- A GET whose `params` is an object with its own "toString" key makes the
  template literal throw before any call is issued.
- An upload under the field name "__proto__" never becomes a key of the
  `files` dictionary, so it is neither relayed nor deleted.
- A relay whose transport failed has no body, so `JSON.parse(undefined)`
  throws. The caller gets `false` with status 200, not the 400 the `err`
  branch intends.

## Model

| member | source | states |
|---|---|---|
| Js.WithErrorFlag | server/server.js:107-111 | `errData.error = true` on an object adds or overwrites the key "error" with `true` and keeps every other key; on any other value it leaves the sent value unchanged |
| Js.Digits | server/server.js:94 | the decimal numeral of a number is canonical: non-empty, made of digits, without a leading zero (except for 0 itself), and reads back as that number |
| Js.ToJsString | server/server.js:94 | `${v}` keeps a string as it is and never throws on a primitive; on a plain object it throws exactly when the object has an own "toString" key |
| UrlRewrite.IndexOfFrom | server/server.js:39 | the search behind `replace` finds the first index where "/api/v1/" occurs, or reports that there is none |
| UrlRewrite.RewriteWithoutPrefix | server/server.js:39 | a URL that does not contain "/api/v1/" is left unchanged |
| UrlRewrite.RewriteRemovesFirstOccurrence | server/server.js:39 | exactly the first occurrence is cut out, wherever it stands; the text around it (including later occurrences) is kept, and the URL is 8 characters shorter |
| UrlRewrite.RewriteLeadingPrefix | server/server.js:38-41 | a URL that starts with "/api/v1/" loses exactly that leading copy |
| UrlRewrite.RewriteKeepsLaterOccurrence | server/server.js:39 | "/api/v1/users/api/v1/" becomes "users/api/v1/": only one occurrence is removed |
| UrlRewrite.RewriteInnerOccurrence | server/server.js:39 | "/x/api/v1/users" becomes "/xusers": the pattern is removed even when it is not a prefix |
| Envelope.OnResolved | server/server.js:98-105 | a success envelope is answered 200 with its `data` field only; an error envelope is answered 400 with the whole envelope; any other body is never answered; an answer is only ever sent for an object |
| Envelope.OnRejected | server/server.js:106-114 | no `error.response` means the handler throws. Otherwise the status is the upstream's, or 400 when it is null/undefined. Falsy data, and truthy data that is not an object, is sent unchanged. Object data gains `error: true`, and every other key keeps its value |
| Envelope.OnSettled | server/server.js:96-114 | an axios call's handlers throw exactly when it failed without an upstream response. A rejection with a response is always answered. A resolution is answered 200 or 400, or not at all |
| Envelope.OnRelayed | server/server.js:178-204 | an unparseable (or absent) body is answered 200 `false` before `err` is checked; a transport error with a parsed body is answered 400 `false`; otherwise the parsed body is answered as a resolved axios call; the callback never throws |
| Envelope.SuccessEnvelopeAnswered | server/server.js:99-101 | every `{status: "success", data, ...}` is answered 200 with exactly `data`, whatever other keys it has |
| Envelope.ErrorEnvelopeAnswered | server/server.js:102-104 | every `{status: "error", ...}` is answered 400 with the envelope itself, unmodified |
| Envelope.AnsweredOnlyEnvelopes | server/server.js:98-105 | conversely, a resolved JSON body that is answered at all is a success or an error envelope, answered as its kind says |
| Envelope.RelayFailureWithoutBodyAnswersOk | server/server.js:185-197 | a failed relay without a body is answered `false` with status 200 |
| Envelope.RelayAgreesWithAxios | server/server.js:199-204 | a relay that did not fail and whose body parses is answered exactly as a resolved axios call with that body |
| Upload.StreamMap | server/server.js:160-164 | the `files` dictionary has one key per uploaded field name other than "__proto__" (whose assignment sets the prototype), and every value is the path of an uploaded file |
| Upload.FieldOrderEnumerates | server/server.js:179 | `Object.keys(files)` lists every key of the dictionary exactly once |
| Upload.CollectStreams | server/server.js:160-164 | the forEach loop builds exactly the dictionary and its key order |
| Upload.UnlinkOrderEnumerates | server/server.js:179-183 | the callback issues one unlink per key of the dictionary, and the unlinked paths are exactly the dictionary's values |
| Upload.StreamMapEntry | server/server.js:161-164 | each entry holds the path of the last uploaded file with that field name |
| Upload.StreamMapLastWins | server/server.js:161-164 | a file that is the last of its field name, other than "__proto__", is the one the dictionary keeps |
| Upload.ShadowedFileNotStreamed | server/server.js:161-183 | a file followed by another of the same field name is neither relayed nor unlinked |
| Upload.DistinctFieldsAllStreamed | server/server.js:161-183 | when all field names differ, every uploaded file not named "__proto__" is relayed and unlinked |
| Upload.ProtoFieldNotStreamed | server/server.js:161-183 | a file uploaded under the field name "__proto__" is neither relayed nor unlinked |
| Upload.FormData | server/server.js:168-171 | the multipart form holds every body field and every stream; a stream replaces a body field with the same name |
| Router.Rewritten | server/server.js:38-41 | the middleware rewrites only `req.originalUrl` and leaves body, files and token unchanged |
| Router.Dispatch | server/server.js:90-207 | one request issues at most two calls. A GET issues at most one call, a GET, and none exactly when the `params` conversion throws. A relay is issued iff the method is not GET and there are files. Every call targets the base URL (a GET may add a query). Every axios call carries the "Api-Token" default |
| Router.GetIssuesOneCall | server/server.js:92-115 | a GET issues a single GET to the base URL plus `?params` unless the conversion of `params` throws, in which case it issues nothing; either way the upload branch is never reached |
| Router.AbortNeedsObjectParams | server/server.js:92-94 | only a GET can throw before its calls, and only with an object or array as `params` |
| Router.GetTargetWithParams | server/server.js:93-95 | a string `params` is appended after "?" only when it is non-empty |
| Router.GetTargetExample | server/server.js:93-95 | params "a=1" on "https://api.test/v1" gives "https://api.test/v1?a=1" |
| Router.GetTargetNumberParams | server/server.js:93-95 | numeric params are appended as numerals (7 gives "?7", -12 gives "?-12"); 0 is falsy and appends nothing |
| Router.GetTargetObjectParams | server/server.js:93-95 | `{}` gives "?[object Object]", and an object with its own "toString" key makes the conversion throw |
| Router.GetTargetArrayParams | server/server.js:93-95 | `[1, null, "b"]` gives "?1,,b", and an array holding an object with its own "toString" key throws |
| Router.PutThenRelay | server/server.js:117-119 | a PUT issues the PUT with the JSON text of the payload, then the relay iff there are files |
| Router.PostThenRelay | server/server.js:138-140 | a POST issues the POST with the payload unchanged, then the relay iff there are files |
| Router.UnmatchedMethod | server/server.js:159-177 | with any other method only the relay can be issued, and without files nothing is issued (the caller is never answered) |
| Router.OriginalUrlUnused | server/server.js:76-77 | the calls issued do not depend on `req.originalUrl`, rewritten or not |
| Router.RelayForm | server/server.js:166-177 | the relay forwards every body field (the tunnelling fields included) plus one stream per field name other than "__proto__", with the request's own token |
| Proxy.Server.constructor | server/server.js:20 | the model starts with no axios defaults and tracks no temporary files (files left by earlier runs are outside it) |
| Proxy.Server.Handle | server/server.js:67-208 | after one request, `baseURL` is `APP_API_URL`. "Api-Token" is replaced only by a truthy token. The request path is read back from `baseURL`. The calls are exactly `Dispatch` under the new defaults, and each call has its completion. The handler throws before any call exactly when `Aborts` says so. The files left on disk are the old ones plus the uploads, minus those the relay unlinks |
| Proxy.Server.SetDefaults | server/server.js:76-80 | `baseURL` is overwritten on every request; "Api-Token" is overwritten only by a truthy token |
| Proxy.Server.ForwardBody | server/server.js:117-157 | a non-GET request issues the PUT (JSON text) and/or the POST (payload), both with the default token, each completed by the shared handlers |
| Proxy.Server.RelayFiles | server/server.js:159-207 | the relay sends the body fields and streams with the request's own token, unlinks exactly the dictionary's paths in key order, then answers as `OnRelayed` says |
| Proxy.Server.UnlinkStreams | server/server.js:179-183 | the unlink loop removes from disk exactly the paths it visits, one per key |
| Proxy.CompletionIsVerbIndependent | server/server.js:96-157 | an axios call's answer depends only on how the upstream settled, not on its verb, and it unlinks nothing |
| Proxy.GetLeaksEveryUpload | server/server.js:92-115 | every file uploaded with a GET stays on disk |
| Proxy.RelayWithDistinctFieldsLeaksOnlyProto | server/server.js:159-183 | a relay whose files all have different field names deletes all of them except one named "__proto__"; without such a file nothing stays on disk |
| Proxy.RelayLeaksProtoUpload | server/server.js:161-183 | a relayed file uploaded under the field name "__proto__" stays on disk |
| Proxy.RelayLeaksShadowedUpload | server/server.js:161-183 | a relayed file shadowed by a later file with the same field name stays on disk |
| Proxy.TokenSurvivesIntoNextRequest | server/server.js:76-80 | after a request with a token, every axios call of a request without one still sends the earlier token; a GET that does not throw issues exactly one call |
| Proxy.RelayUsesOwnToken | server/server.js:80 | in that situation a PUT with files sends the earlier token on the PUT but no token on the relay |
| Proxy.RepeatedGet | server/server.js:76-115 | the same GET handled twice in a row against the same upstream, from any prior server state, is answered the same way both times |

## Left out

- The network, Express, axios, `request` and multer internals are not
  modelled. The upstream's behaviour is the `axios`/`relay` parameters, and
  multer's storage is one step that adds the uploaded paths to the set of
  temporary files.
- `JSON.parse` is the `parse` parameter. `JSON.stringify` is modelled only
  up to the value it serialises (`Router.Payload`).
- `path.join(__dirname, "..", file.path)` is treated as naming the same
  file as `file.path`.
- The asynchronous order of completions is not modelled. A PUT or POST
  with files can answer twice, when both completions send. The second
  `res.send` then throws "headers already sent". In the relay's callback
  that is an uncaught exception, and it ends the process. In an axios `.then` it lands in `.catch`, which then
  throws for want of `error.response`. `Handle` returns each call's
  completion and leaves their interleaving open.
- `Envelope.OnResolved`, `Envelope.OnRejected` and `Envelope.OnRelayed`:
  `Send` records the status set and the argument passed to `send`, not what
  Express writes. Express 4 takes a single numeric argument to `res.send`
  as a status code. So a success envelope whose `data` is a number, or
  truthy numeric error data, sets that number as the status and sends its
  status text. A number that is not a valid HTTP status makes `send`
  throw:
  - in `.then` the throw falls into `.catch`, which throws in turn and
    answers nothing;
  - in the relay callback it is uncaught and ends the process.

  The model answers `Send(200, Num(n))` (or the upstream status with
  `Num(n)`) in these cases. `Envelope.SuccessEnvelopeAnswered` is stated
  for that recorded argument.
- `Outcome.Throws`: the model records that the caller is never answered.
  It does not model that the unhandled rejection ends the process on
  Node.js 15 and later, which loses the axios defaults. A `Server` that
  handles further requests (`Proxy.TokenSurvivesIntoNextRequest`,
  `Proxy.RepeatedGet`) presumes the process survived.
- `Router.Aborts`: Express's default error handler answers a synchronous
  throw with status 500 and an HTML page. The model records only that the
  handler threw and issued nothing.
- An unlink error is rethrown inside the `fs.unlink` callback. That crashes
  the process and is not modelled: every unlink is taken to succeed.
- `console.error` logging is left out.
- `process.env.APP_API_URL` is taken to be a string. An unset variable
  (`undefined`, which becomes "undefined" inside the template literal) is
  not modelled.
- `req.body` is modelled as a plain object. body-parser's JSON parser also
  accepts a top-level array. Without files, such a body reads no `method`,
  so it issues nothing, exactly as an object without those keys does.
- Numbers are integers. Floating point, NaN and `-0` are left out.
- Object key order (of the body, of the form, of the JSON answer) is not
  modelled. Objects are maps.
- `Upload.FieldOrder` keeps insertion order. JavaScript lists
  integer-like keys first, in ascending order, and that ordering is not
  modelled. The set of unlinked paths does not depend on it.
- Headers and the `Content-Type` that axios or `request` add, and the
  multipart boundary, are not modelled.
- `Upload.StreamMap`: a field name is a plain key, except "__proto__". After
  a "__proto__" upload the dictionary's prototype is a read stream, so a
  later field name that matches an accessor of the stream's prototype chain
  (such as "destroyed") would run that accessor instead. That is not
  modelled.
- `Proxy.Server.tempFiles` is a ghost set. Files on disk are observed only
  through it.
