/**
 * How an upstream reply becomes the answer to the original caller: the
 * resolution handler shared (as three copies) by the GET, PUT and POST
 * branches, their rejection handler, and the callback of the upload relay.
 */
module Envelope {
  import opened Wrappers
  import opened Js

  /** What a completion handler does with the caller's response. */
  datatype Outcome =
    | Send(status: int, body: Value)  // `res.status(status).send(body)`, a bare `res.send(body)` with status 200;
                                      // the status and the argument passed to `send`, not what Express writes
    | Silent                          // no branch sends anything: the caller is never answered
    | Throws                          // a TypeError escapes `.catch`: the caller is never answered, and the
                                      // unhandled rejection ends the process on Node.js 15 and later

  /** `error.response` of a rejected axios call: the upstream status (absent when null or undefined) and its data. */
  datatype Response = Response(status: Option<int>, data: Value)

  /** How an axios call settles: resolved with `response.data`, or rejected with or without a response. */
  datatype AxiosResult =
    | Resolved(data: Value)
    | Rejected(response: Option<Response>)

  /** The arguments of the `request.post` callback: whether `err` is set, and `rawBody` (absent when undefined). */
  datatype RelayResult = RelayResult(failed: bool, rawBody: Option<string>)

  /** The upstream's success envelope `{status: "success", data, ...}`. */
  predicate IsSuccess(data: Value)
  {
    Truthy(data) && Get(data, "status") == Str("success")
  }

  /** The upstream's error envelope `{status: "error", ...}`. */
  predicate IsError(data: Value)
  {
    Truthy(data) && Get(data, "status") == Str("error")
  }

  /**
   * The resolution handler: a success envelope is answered 200 with its `data`
   * field alone, an error envelope 400 with the whole envelope, and any other
   * body (no status, another status, not an object) is never answered.
   */
  function OnResolved(data: Value): (o: Outcome)
    ensures IsSuccess(data) ==> o == Send(200, Get(data, "data"))
    ensures IsError(data) ==> o == Send(400, data)
    ensures !IsSuccess(data) && !IsError(data) ==> o == Silent
    ensures o.Send? ==> data.Obj? && o.status in {200, 400}
  {
    if Truthy(data) && Get(data, "status") == Str("success") then Send(200, Get(data, "data"))
    else if Truthy(data) && Get(data, "status") == Str("error") then Send(400, data)
    else Silent
  }

  /**
   * The rejection handler. With an upstream response the answer carries that
   * response's status, or 400 when it has none; truthy data is sent with
   * `error: true` added, falsy data is sent as it is. Without a response,
   * reading `error.response.status` throws and nothing is sent.
   */
  function OnRejected(response: Option<Response>): (o: Outcome)
    ensures response.None? <==> o == Throws
    ensures response.Some? && response.value.status.Some? ==> o.Send? && o.status == response.value.status.value
    ensures response.Some? && response.value.status.None? ==> o.Send? && o.status == 400
    ensures response.Some? && !Truthy(response.value.data) ==> o.Send? && o.body == response.value.data
    ensures response.Some? && response.value.data.Obj? ==>
      o.Send? && o.body.Obj? && o.body.fields.Keys == response.value.data.fields.Keys + {"error"}
      && o.body.fields["error"] == Bool(true)
    ensures response.Some? && response.value.data.Obj? ==>
      forall k :: k in response.value.data.fields && k != "error" ==> o.body.fields[k] == response.value.data.fields[k]
    ensures response.Some? && Truthy(response.value.data) && !response.value.data.Obj? ==> o.body == response.value.data
  {
    match response
    case None => Throws
    case Some(Response(status, data)) =>
      var errData := if Truthy(data) then WithErrorFlag(data) else data;
      Send(if status.Some? then status.value else 400, errData)
  }

  /**
   * The `.then(...).catch(...)` pair of an axios call, identical for GET, PUT
   * and POST: it throws exactly when the call failed without an upstream
   * response; a rejection with a response is always answered, and a
   * resolution is answered 200 or 400 or not at all.
   */
  function OnSettled(r: AxiosResult): (o: Outcome)
    ensures o.Throws? <==> r.Rejected? && r.response.None?
    ensures r.Rejected? && r.response.Some? ==> o.Send?
    ensures r.Resolved? && o.Send? ==> o.status in {200, 400}
    ensures o.Silent? ==> r.Resolved?
  {
    match r
    case Resolved(data) => OnResolved(data)
    case Rejected(response) => OnRejected(response)
  }

  /** `JSON.parse(rawBody)`, absent when it throws; `JSON.parse(undefined)` always throws. */
  function ParseBody(rawBody: Option<string>, parse: string -> Option<Value>): Option<Value>
  {
    match rawBody
    case None => None
    case Some(text) => parse(text)
  }

  /**
   * The upload relay's callback, after the temporary files are unlinked: a body
   * that does not parse is answered `false` with the default status 200 before
   * `err` is looked at; otherwise a transport error is answered 400 `false`;
   * otherwise the parsed body is answered exactly as the resolution handler
   * answers a resolved call.
   */
  function OnRelayed(r: RelayResult, parse: string -> Option<Value>): (o: Outcome)
    ensures ParseBody(r.rawBody, parse).None? ==> o == Send(200, Bool(false))
    ensures ParseBody(r.rawBody, parse).Some? && r.failed ==> o == Send(400, Bool(false))
    ensures ParseBody(r.rawBody, parse).Some? && !r.failed ==> o == OnResolved(ParseBody(r.rawBody, parse).value)
    ensures !o.Throws?
  {
    match ParseBody(r.rawBody, parse)
    case None => Send(200, Bool(false))
    case Some(body) => if r.failed then Send(400, Bool(false)) else OnResolved(body)
  }

  /**
   * The upstream's success envelope built from its payload and any further
   * keys; an undefined payload is no key at all, as in JSON.
   */
  function SuccessEnvelope(data: Value, rest: map<string, Value>): Value
  {
    var m := rest["status" := Str("success")];
    Obj(if data == Undefined then m - {"data"} else m["data" := data])
  }

  /** The upstream's error envelope built from its other keys. */
  function ErrorEnvelope(rest: map<string, Value>): Value
  {
    Obj(rest["status" := Str("error")])
  }

  /** Every success envelope is answered 200 with exactly its payload, whatever else it carries. */
  lemma SuccessEnvelopeAnswered(data: Value, rest: map<string, Value>)
    ensures OnResolved(SuccessEnvelope(data, rest)) == Send(200, data)
  {
  }

  /** Every error envelope is answered 400 with the envelope itself, unmodified. */
  lemma ErrorEnvelopeAnswered(rest: map<string, Value>)
    ensures OnResolved(ErrorEnvelope(rest)) == Send(400, ErrorEnvelope(rest))
  {
  }

  /**
   * The converse: a resolved body that is answered at all is an envelope of
   * one of the two kinds, and the answer is the one the envelope's kind gives.
   * The body is parsed JSON, so none of its keys holds undefined.
   */
  lemma AnsweredOnlyEnvelopes(data: Value)
    requires data.Obj? ==> forall k :: k in data.fields ==> data.fields[k] != Undefined
    requires OnResolved(data).Send?
    ensures (exists d, rest :: data == SuccessEnvelope(d, rest) && OnResolved(data) == Send(200, d))
         || (exists rest :: data == ErrorEnvelope(rest) && OnResolved(data) == Send(400, data))
  {
    var m := data.fields;
    if m["status"] == Str("success") {
      var d := Get(data, "data");
      assert m["status" := Str("success")] == m;
      if d == Undefined {
        assert m - {"data"} == m;
      } else {
        assert m["data" := d] == m;
      }
      assert data == SuccessEnvelope(d, m);
    } else {
      assert m["status" := Str("error")] == m;
      assert data == ErrorEnvelope(m);
    }
  }

  /**
   * A relay whose transport failed carries no body, and `JSON.parse(undefined)`
   * throws: the caller is answered `false` with status 200, never 400.
   */
  lemma RelayFailureWithoutBodyAnswersOk(parse: string -> Option<Value>)
    ensures OnRelayed(RelayResult(true, None), parse) == Send(200, Bool(false))
  {
  }

  /** A relay that did not fail and whose body parses is answered like a resolved axios call. */
  lemma RelayAgreesWithAxios(text: string, parse: string -> Option<Value>)
    requires parse(text).Some?
    ensures OnRelayed(RelayResult(false, Some(text)), parse) == OnSettled(Resolved(parse(text).value))
  {
  }
}
