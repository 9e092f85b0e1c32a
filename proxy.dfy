/**
 * The `post("*")` handler as a method on the process-wide state it touches:
 * the axios defaults (`baseURL` and the common "Api-Token" header), which
 * persist from one request to the next, and the temporary upload files on
 * disk, which multer creates and the relay's callback unlinks.
 */
module Proxy {
  import opened Wrappers
  import opened Js
  import opened Envelope
  import opened Upload
  import opened Router

  /**
   * What the completion handler of one call does: it first unlinks the paths
   * in `unlinks` (only the relay's callback unlinks anything), then answers
   * the caller as `reply` says.
   */
  datatype Completion = Completion(unlinks: seq<string>, reply: Outcome)

  /** The completion of `call`, given how the upstream answers axios calls and relays and how JSON is parsed. */
  function Complete(call: Call, files: seq<UploadedFile>, axios: Call -> AxiosResult,
                    relay: Call -> RelayResult, parse: string -> Option<Value>): Completion
  {
    if call.RelayCall? then Completion(UnlinkOrder(files), OnRelayed(relay(call), parse))
    else Completion([], OnSettled(axios(call)))
  }

  /** The completions of `calls`, one per call, in the same order. */
  function CompleteAll(calls: seq<Call>, files: seq<UploadedFile>, axios: Call -> AxiosResult,
                       relay: Call -> RelayResult, parse: string -> Option<Value>): (r: seq<Completion>)
    ensures |r| == |calls|
    ensures forall i :: 0 <= i < |calls| ==> r[i] == Complete(calls[i], files, axios, relay, parse)
  {
    if |calls| == 0 then []
    else CompleteAll(calls[..|calls| - 1], files, axios, relay, parse) + [Complete(calls[|calls| - 1], files, axios, relay, parse)]
  }

  lemma CompleteAllAppend(calls: seq<Call>, call: Call, files: seq<UploadedFile>, axios: Call -> AxiosResult,
                          relay: Call -> RelayResult, parse: string -> Option<Value>)
    ensures CompleteAll(calls + [call], files, axios, relay, parse)
         == CompleteAll(calls, files, axios, relay, parse) + [Complete(call, files, axios, relay, parse)]
  {
    assert (calls + [call])[..|calls|] == calls;
  }

  /** The temporary paths one request's relay callback unlinks: none unless the relay runs. */
  function Unlinked(req: Request): set<string>
  {
    if MethodOf(req) != Str("GET") && |req.files| > 0 then StreamMap(req.files).Values else {}
  }

  /** The uploaded files of one request that are still on disk once it has been handled. */
  function Leaked(req: Request): set<string>
  {
    PathsOf(req.files) - Unlinked(req)
  }

  class Server {
    /** `axios.defaults.baseURL`. */
    var baseURL: Option<string>
    /** `axios.defaults.headers.common["Api-Token"]`. */
    var apiToken: Option<string>
    /** The temporary upload files present on disk. */
    ghost var tempFiles: set<string>

    constructor ()
      ensures baseURL == None && apiToken == None && tempFiles == {}
    {
      baseURL, apiToken := None, None;
      tempFiles := {};
    }

    /**
     * One request through the handler: `apiUrl` is `process.env.APP_API_URL`;
     * `axios`, `relay` and `parse` stand for the upstream and for `JSON.parse`.
     * Returns the calls issued, in order, what each call's completion does,
     * and whether the handler threw before issuing any call (Express's default
     * error handler then answers 500).
     */
    method Handle(req: Request, apiUrl: string, axios: Call -> AxiosResult,
                  relay: Call -> RelayResult, parse: string -> Option<Value>)
      returns (calls: seq<Call>, completions: seq<Completion>, aborted: bool)
      modifies this
      ensures baseURL == Some(apiUrl)
      ensures apiToken == if TokenSet(req.token) then req.token else old(apiToken)
      ensures calls == Dispatch(req, apiUrl, apiToken)
      ensures completions == CompleteAll(calls, req.files, axios, relay, parse)
      ensures tempFiles == (old(tempFiles) + PathsOf(req.files)) - Unlinked(req)
      ensures aborted == Aborts(req)
    {
      aborted := false;
      // multer's `documentUploader.any()` has stored every file part before the handler runs
      tempFiles := tempFiles + PathsOf(req.files);
      SetDefaults(apiUrl, req.token);
      var reqPath := baseURL.value;
      var token := req.token;
      var params, verb := ParamsOf(req), MethodOf(req);

      if verb == Str("GET") {
        if Truthy(params) {
          var text := ToJsString(params);
          if text.None? {
            // the template literal throws: no call is issued
            calls, completions, aborted := [], [], true;
            return;
          }
          reqPath := reqPath + "?" + text.value;
        }
        var call := GetCall(reqPath, apiToken);
        calls := [call];
        completions := [Completion([], OnSettled(axios(call)))];
        return;
      }

      calls, completions := ForwardBody(req, reqPath, apiToken, axios, relay, parse);
      if |req.files| > 0 {
        var call, completion := RelayFiles(req, reqPath, token, relay, parse);
        CompleteAllAppend(calls, call, req.files, axios, relay, parse);
        calls := calls + [call];
        completions := completions + [completion];
      }
    }

    /** `baseURL` is overwritten on every request, "Api-Token" only by a truthy token. */
    method SetDefaults(apiUrl: string, token: Option<string>)
      modifies this`baseURL, this`apiToken
      ensures baseURL == Some(apiUrl)
      ensures apiToken == if TokenSet(token) then token else old(apiToken)
    {
      baseURL := Some(apiUrl);
      if TokenSet(token) {
        apiToken := token;
      }
    }

    /**
     * The PUT and POST branches of a request that is not a GET: the PUT sends
     * the JSON text of the payload, the POST the payload itself, both with the
     * "Api-Token" default.
     */
    method ForwardBody(req: Request, url: string, header: Option<string>, axios: Call -> AxiosResult,
                       relay: Call -> RelayResult, parse: string -> Option<Value>)
      returns (calls: seq<Call>, completions: seq<Completion>)
      ensures calls == AxiosCalls(req, url, header)
      ensures completions == CompleteAll(calls, req.files, axios, relay, parse)
    {
      var payload, verb := PayloadOf(req), MethodOf(req);
      calls, completions := [], [];
      if verb == Str("PUT") {
        var call := PutCall(url, Stringify(payload), header);
        CompleteAllAppend(calls, call, req.files, axios, relay, parse);
        calls := calls + [call];
        completions := completions + [Completion([], OnSettled(axios(call)))];
      }
      if verb == Str("POST") {
        var call := PostCall(url, payload, header);
        CompleteAllAppend(calls, call, req.files, axios, relay, parse);
        calls := calls + [call];
        completions := completions + [Completion([], OnSettled(axios(call)))];
      }
    }

    /**
     * The upload branch: one stream per field name, the multipart call with
     * the body fields and those streams, and the callback, which unlinks the
     * streams' paths before it answers.
     */
    method RelayFiles(req: Request, url: string, token: Option<string>,
                      relay: Call -> RelayResult, parse: string -> Option<Value>)
      returns (call: Call, completion: Completion)
      modifies this`tempFiles
      ensures call == RelayCall(url, FormData(req.body, StreamMap(req.files)), token)
      ensures completion == Completion(UnlinkOrder(req.files), OnRelayed(relay(call), parse))
      ensures tempFiles == old(tempFiles) - StreamMap(req.files).Values
    {
      var order, streams := CollectStreams(req.files);
      FieldOrderEnumerates(req.files);
      call := RelayCall(url, FormData(req.body, streams), token);
      var result := relay(call);
      var unlinked := UnlinkStreams(order, streams);
      assert unlinked == UnlinkOrder(req.files);
      UnlinkOrderEnumerates(req.files);
      completion := Completion(unlinked, OnRelayed(result, parse));
    }

    /** The relay callback's cleanup: `fs.unlink(files[key].path)` for each key of the dictionary, in key order. */
    method UnlinkStreams(order: seq<string>, streams: map<string, string>) returns (unlinked: seq<string>)
      requires forall i :: 0 <= i < |order| ==> order[i] in streams
      modifies this`tempFiles
      ensures unlinked == Lookup(order, streams)
      ensures tempFiles == old(tempFiles) - Elements(unlinked)
    {
      unlinked := [];
      for n := 0 to |order|
        invariant unlinked == Lookup(order[..n], streams)
        invariant tempFiles == old(tempFiles) - Elements(unlinked)
      {
        assert order[..n + 1][..n] == order[..n];
        var path := streams[order[n]];
        tempFiles := tempFiles - {path};
        unlinked := unlinked + [path];
      }
      assert order[..|order|] == order;
    }
  }

  /** The answer to an axios call depends only on how the upstream settled it, never on its verb. */
  lemma CompletionIsVerbIndependent(c1: Call, c2: Call, files: seq<UploadedFile>, axios: Call -> AxiosResult,
                                    relay: Call -> RelayResult, parse: string -> Option<Value>)
    requires !c1.RelayCall? && !c2.RelayCall? && axios(c1) == axios(c2)
    ensures Complete(c1, files, axios, relay, parse) == Complete(c2, files, axios, relay, parse)
    ensures Complete(c1, files, axios, relay, parse).unlinks == []
  {
  }

  /** A tunnelled GET returns before the upload branch: every file it carried stays on disk. */
  lemma GetLeaksEveryUpload(req: Request)
    requires MethodOf(req) == Str("GET")
    ensures Leaked(req) == PathsOf(req.files)
  {
  }

  /**
   * A relay whose files all have different field names unlinks every one of
   * them, except a file uploaded under the field name "__proto__".
   */
  lemma RelayWithDistinctFieldsLeaksOnlyProto(req: Request)
    requires MethodOf(req) != Str("GET")
    requires DistinctFieldNames(req.files)
    ensures Leaked(req) <= ProtoPaths(req.files)
    ensures ProtoPaths(req.files) == {} ==> Leaked(req) == {}
  {
    DistinctFieldsAllStreamed(req.files);
    forall p | p in Leaked(req) ensures p in ProtoPaths(req.files) {
      var i :| 0 <= i < |req.files| && req.files[i].path == p;
      assert req.files[i].fieldName == ProtoKey;
    }
  }

  /** A relayed file uploaded under the field name "__proto__" is never unlinked. */
  lemma RelayLeaksProtoUpload(req: Request, i: nat)
    requires MethodOf(req) != Str("GET")
    requires DistinctPaths(req.files)
    requires i < |req.files| && req.files[i].fieldName == ProtoKey
    ensures req.files[i].path in Leaked(req)
  {
    ProtoFieldNotStreamed(req.files, i);
  }

  /** A relayed file followed by another of the same field name is never unlinked. */
  lemma RelayLeaksShadowedUpload(req: Request, i: nat, j: nat)
    requires MethodOf(req) != Str("GET")
    requires DistinctPaths(req.files)
    requires i < j < |req.files| && req.files[i].fieldName == req.files[j].fieldName
    ensures req.files[i].path in Leaked(req)
  {
    ShadowedFileNotStreamed(req.files, i, j);
  }

  /**
   * The axios defaults outlive a request: after a request with a truthy token,
   * every axios call of a request without one still carries the earlier
   * token, and a GET that does not throw issues exactly one such call. This
   * presumes the first request did not end the process (see `Outcome.Throws`).
   */
  method TokenSurvivesIntoNextRequest(t: string, first: Request, second: Request, apiUrl: string,
                                      axios: Call -> AxiosResult, relay: Call -> RelayResult,
                                      parse: string -> Option<Value>)
    returns (calls: seq<Call>)
    requires first.token == Some(t) && t != ""
    requires !TokenSet(second.token)
    ensures forall i :: 0 <= i < |calls| && !calls[i].RelayCall? ==> calls[i].apiToken == Some(t)
    ensures MethodOf(second) == Str("GET") && !Aborts(second) ==> |calls| == 1
  {
    var server := new Server();
    var calls1, done1, aborted1 := server.Handle(first, apiUrl, axios, relay, parse);
    var done2, aborted2;
    calls, done2, aborted2 := server.Handle(second, apiUrl, axios, relay, parse);
  }

  /**
   * In the same situation a PUT with files sends the earlier token on the PUT,
   * while its relay sends only the request's own (absent) token.
   */
  method RelayUsesOwnToken(t: string, first: Request, second: Request, apiUrl: string,
                           axios: Call -> AxiosResult, relay: Call -> RelayResult,
                           parse: string -> Option<Value>)
    returns (putHeader: Option<string>, relayHeader: Option<string>)
    requires first.token == Some(t) && t != ""
    requires second.token == None && MethodOf(second) == Str("PUT") && |second.files| > 0
    ensures putHeader == Some(t) && relayHeader == None
  {
    var server := new Server();
    var calls1, done1, aborted1 := server.Handle(first, apiUrl, axios, relay, parse);
    var calls2, done2, aborted2 := server.Handle(second, apiUrl, axios, relay, parse);
    PutThenRelay(second, apiUrl, server.apiToken);
    putHeader, relayHeader := calls2[0].apiToken, calls2[1].apiToken;
  }

  /**
   * The same tunnelled GET handled twice in a row, whatever earlier requests
   * left in the axios defaults, issues the same call and is answered the same
   * way both times.
   */
  method RepeatedGet(server: Server, req: Request, apiUrl: string, axios: Call -> AxiosResult,
                     relay: Call -> RelayResult, parse: string -> Option<Value>)
    returns (first: seq<Completion>, second: seq<Completion>)
    requires MethodOf(req) == Str("GET")
    modifies server
    ensures first == second
  {
    var calls1, calls2, aborted1, aborted2;
    calls1, first, aborted1 := server.Handle(req, apiUrl, axios, relay, parse);
    calls2, second, aborted2 := server.Handle(req, apiUrl, axios, relay, parse);
  }
}
