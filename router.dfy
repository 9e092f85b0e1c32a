/**
 * The request as the `post("*")` handler sees it, and the upstream calls it
 * issues: the tunnelled `method` field of the body selects a GET, PUT or POST
 * through axios, and a request carrying files is relayed as multipart through
 * `request`. The three method tests are independent `if`s; only GET returns.
 */
module Router {
  import opened Wrappers
  import opened Js
  import opened Upload
  import opened UrlRewrite

  /**
   * An incoming request: `req.originalUrl`, the parsed body object, the files
   * multer stored (`req.files`, empty when absent) and `req.userToken`, the
   * value of the header "your-token" (absent when the header is).
   */
  datatype Request = Request(
    originalUrl: string,
    body: map<string, Value>,
    files: seq<UploadedFile>,
    token: Option<string>)

  /** `JSON.stringify(payload)`: the JSON text of the payload, or undefined for an undefined payload. */
  datatype Payload = JsonText(value: Value) | NoBody

  /** An upstream call, with the value of its "Api-Token" header (absent when the header is not sent). */
  datatype Call =
    | GetCall(url: string, apiToken: Option<string>)
    | PutCall(url: string, text: Payload, apiToken: Option<string>)
    | PostCall(url: string, data: Value, apiToken: Option<string>)
    | RelayCall(url: string, form: map<string, FormPart>, apiToken: Option<string>)

  /** The router middleware: `req.originalUrl` loses its first "/api/v1/". */
  function Rewritten(req: Request): (r: Request)
    ensures r.originalUrl == RewriteUrl(req.originalUrl)
    ensures r.body == req.body && r.files == req.files && r.token == req.token
  {
    req.(originalUrl := RewriteUrl(req.originalUrl))
  }

  /** `if (token)`: a header value is truthy when present and not empty. */
  predicate TokenSet(token: Option<string>)
  {
    token.Some? && token.value != ""
  }

  /** The fields destructured from `req.body`: `method`, `params` and `body` (the payload). */
  function MethodOf(req: Request): Value { Get(Obj(req.body), "method") }
  function ParamsOf(req: Request): Value { Get(Obj(req.body), "params") }
  function PayloadOf(req: Request): Value { Get(Obj(req.body), "body") }

  function Stringify(v: Value): Payload
  {
    if v == Undefined then NoBody else JsonText(v)
  }

  /**
   * `reqPath` after the GET branch: the base URL, with "?" and `String(params)`
   * appended when `params` is truthy; absent when that conversion throws.
   */
  function GetTarget(base: string, params: Value): Option<string>
  {
    if !Truthy(params) then Some(base)
    else
      match ToJsString(params)
      case None => None
      case Some(text) => Some(base + "?" + text)
  }

  /**
   * The handler throws synchronously, before issuing any call: a GET whose
   * truthy `params` cannot be converted to a string. Express's default error
   * handler then answers the caller with status 500.
   */
  predicate Aborts(req: Request)
  {
    MethodOf(req) == Str("GET") && Truthy(ParamsOf(req)) && ToJsString(ParamsOf(req)).None?
  }

  /** The relay's multipart call: the body fields and the file streams, to the base URL, with the request's own token. */
  function Relay(req: Request, base: string): Call
  {
    RelayCall(base, FormData(req.body, StreamMap(req.files)), req.token)
  }

  /**
   * The calls one request issues, in order, given the base URL and the
   * "Api-Token" default axios holds at that moment.
   */
  function Dispatch(req: Request, base: string, defaultToken: Option<string>): (calls: seq<Call>)
    ensures |calls| <= 2
    ensures MethodOf(req) == Str("GET") ==> |calls| <= 1 && forall i :: 0 <= i < |calls| ==> calls[i].GetCall?
    ensures MethodOf(req) == Str("GET") ==> (|calls| == 0 <==> Aborts(req))
    ensures (exists i :: 0 <= i < |calls| && calls[i].RelayCall?) <==> MethodOf(req) != Str("GET") && |req.files| > 0
    ensures forall i :: 0 <= i < |calls| && !calls[i].GetCall? ==> calls[i].url == base
    ensures forall i :: 0 <= i < |calls| ==> |base| <= |calls[i].url| && calls[i].url[..|base|] == base
    ensures forall i :: 0 <= i < |calls| && !calls[i].RelayCall? ==> calls[i].apiToken == defaultToken
  {
    if MethodOf(req) == Str("GET") then
      match GetTarget(base, ParamsOf(req))
      case None => []
      case Some(target) => [GetCall(target, defaultToken)]
    else
      var calls := AxiosCalls(req, base, defaultToken) + RelayCalls(req, base);
      assert |req.files| > 0 ==> calls[|calls| - 1].RelayCall?;
      calls
  }

  /** The PUT and POST branches, for a request that is not a GET. */
  function AxiosCalls(req: Request, base: string, defaultToken: Option<string>): seq<Call>
  {
    (if MethodOf(req) == Str("PUT") then [PutCall(base, Stringify(PayloadOf(req)), defaultToken)] else [])
    + (if MethodOf(req) == Str("POST") then [PostCall(base, PayloadOf(req), defaultToken)] else [])
  }

  /** The upload branch, for a request that is not a GET. */
  function RelayCalls(req: Request, base: string): seq<Call>
  {
    if |req.files| > 0 then [Relay(req, base)] else []
  }

  /**
   * A tunnelled GET issues one GET and returns, or throws before issuing it:
   * uploaded files on the same request are never relayed.
   */
  lemma GetIssuesOneCall(req: Request, base: string, defaultToken: Option<string>)
    requires MethodOf(req) == Str("GET")
    ensures GetTarget(base, ParamsOf(req)).Some? <==> !Aborts(req)
    ensures !Aborts(req) ==> Dispatch(req, base, defaultToken) == [GetCall(GetTarget(base, ParamsOf(req)).value, defaultToken)]
    ensures Aborts(req) ==> Dispatch(req, base, defaultToken) == []
  {
  }

  /**
   * Only a GET can throw before its calls (the other branches never convert
   * `params`), and only with an object or array as `params`.
   */
  lemma AbortNeedsObjectParams(req: Request)
    requires Aborts(req)
    ensures MethodOf(req) == Str("GET") && (ParamsOf(req).Obj? || ParamsOf(req).Arr?)
  {
  }

  /** The GET target is the base URL, with "?params" appended only when `params` is a non-empty string (or other truthy value). */
  lemma GetTargetWithParams(base: string, params: string)
    ensures GetTarget(base, Str(params)) == Some(if params == "" then base else base + "?" + params)
  {
  }

  /** A concrete GET target: params "a=1" on base "https://api.test/v1" goes to "https://api.test/v1?a=1". */
  lemma GetTargetExample()
    ensures GetTarget("https://api.test/v1", Str("a=1")) == Some("https://api.test/v1?a=1")
  {
    GetTargetWithParams("https://api.test/v1", "a=1");
    assert "https://api.test/v1" + "?" + "a=1" == "https://api.test/v1?a=1";
  }

  /** Numeric params are appended as their decimal numerals; 0 is falsy and appends nothing. */
  lemma GetTargetNumberParams(base: string)
    ensures GetTarget(base, Num(7)) == Some(base + "?7")
    ensures GetTarget(base, Num(-12)) == Some(base + "?-12")
    ensures GetTarget(base, Num(0)) == Some(base)
  {
    assert ToJsString(Num(7)) == Some("7");
    assert base + "?" + "7" == base + "?7";
    assert Digits(12) == "1" + "2" == "12";
    assert "-" + "12" == "-12";
    assert ToJsString(Num(-12)) == Some("-12");
    assert base + "?" + "-12" == base + "?-12";
  }

  /**
   * Object params print as "[object Object]", and an object with an own
   * "toString" key makes the conversion throw.
   */
  lemma GetTargetObjectParams(base: string)
    ensures GetTarget(base, Obj(map[])) == Some(base + "?[object Object]")
    ensures GetTarget(base, Obj(map["toString" := Num(1)])) == None
  {
    assert base + "?" + "[object Object]" == base + "?[object Object]";
  }

  /**
   * Array params are joined with ",", null elements printing as ""; an element
   * whose conversion throws makes the whole conversion throw.
   */
  lemma GetTargetArrayParams(base: string)
    ensures GetTarget(base, Arr([Num(1), Null, Str("b")])) == Some(base + "?1,,b")
    ensures GetTarget(base, Arr([Obj(map["toString" := Str("x")])])) == None
  {
    var items := [Num(1), Null, Str("b")];
    assert items[1..][1..] == items[2..];
    assert JoinElements(items[2..], Arr(items)) == Some("b");
    assert "" + "," + "b" == ",b";
    assert JoinElements(items[1..], Arr(items)) == Some(",b");
    assert ToJsString(items[0]) == Some("1");
    assert JoinElements(items, Arr(items)) == Some("1" + "," + ",b");
    assert "1" + "," + ",b" == "1,,b";
    assert base + "?" + "1,,b" == base + "?1,,b";
  }

  /**
   * A tunnelled PUT issues the PUT with the JSON text of the payload, then the
   * relay when files were uploaded.
   */
  lemma PutThenRelay(req: Request, base: string, defaultToken: Option<string>)
    requires MethodOf(req) == Str("PUT")
    ensures var calls := Dispatch(req, base, defaultToken);
      calls[0] == PutCall(base, Stringify(PayloadOf(req)), defaultToken)
      && |calls| == (if |req.files| > 0 then 2 else 1)
      && (|req.files| > 0 ==> calls[1] == Relay(req, base))
  {
  }

  /**
   * A tunnelled POST issues the POST with the payload unchanged, then the
   * relay when files were uploaded.
   */
  lemma PostThenRelay(req: Request, base: string, defaultToken: Option<string>)
    requires MethodOf(req) == Str("POST")
    ensures var calls := Dispatch(req, base, defaultToken);
      calls[0] == PostCall(base, PayloadOf(req), defaultToken)
      && |calls| == (if |req.files| > 0 then 2 else 1)
      && (|req.files| > 0 ==> calls[1] == Relay(req, base))
  {
  }

  /** Without a recognised method, only the relay can happen; without files nothing is issued at all. */
  lemma UnmatchedMethod(req: Request, base: string, defaultToken: Option<string>)
    requires MethodOf(req) !in {Str("GET"), Str("PUT"), Str("POST")}
    ensures Dispatch(req, base, defaultToken) == if |req.files| > 0 then [Relay(req, base)] else []
  {
  }

  /** The rewritten `req.originalUrl` never reaches any upstream call: the targets do not depend on it. */
  lemma OriginalUrlUnused(req: Request, url: string, base: string, defaultToken: Option<string>)
    ensures Dispatch(req.(originalUrl := url), base, defaultToken) == Dispatch(req, base, defaultToken)
    ensures Dispatch(Rewritten(req), base, defaultToken) == Dispatch(req, base, defaultToken)
  {
  }

  /** The relay forwards every body field, the tunnelling fields included, and one stream per field name. */
  lemma RelayForm(req: Request, base: string)
    ensures Relay(req, base).form.Keys == req.body.Keys + (FieldNames(req.files) - {ProtoKey})
    ensures Relay(req, base).apiToken == req.token
  {
  }
}
