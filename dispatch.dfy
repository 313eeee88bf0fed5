/**
 * The status switch every endpoint of the client repeats once `doRequest`
 * has returned a response: a success status whose body is the payload,
 * validation statuses whose body is a typed error, 401 as InvalidToken,
 * and everything else an "unrecognized response" carrying status and
 * body. The endpoints differ only in the parameters gathered in `Policy`.
 */
module Dispatch {
  import opened Wire
  import Decimal
  import Session
  import ClientConfig

  datatype Policy = Policy(
    /** The word after "melhor envio: " in the endpoint's errors. */
    scope: string,
    /** The status of a successful answer. */
    success: int,
    /** The statuses whose body is decoded as a typed validation error. */
    validation: set<int>,
    /** Whether a body that fails to decode yields the decoder's own error (else an unrecognized response). */
    rawDecodeErrors: bool,
    /** Whether the switch has a case for 401. */
    handlesUnauthorized: bool)

  /** The error for a response body that did not decode. */
  function DecodeFailure(p: Policy, resp: Response, why: string): (e: Error)
    ensures p.rawDecodeErrors ==> e == Json(why)
    ensures !p.rawDecodeErrors ==> e == Unrecognized(p.scope, resp.status, resp.body)
  {
    if p.rawDecodeErrors then Json(why) else Unrecognized(p.scope, resp.status, resp.body)
  }

  /**
   * The switch on the status of `resp`, in the order the endpoints test the
   * cases; `decode` reads the success payload, `detail` the validation error.
   */
  function Respond<R>(p: Policy, resp: Response, decode: string -> Decoded<R>,
                      detail: string -> Decoded<ValidationDetail>): (r: Result<R>)
    // the payload comes back exactly when the success status carries a decodable body
    ensures r.Ok? <==> resp.status == p.success && decode(resp.body).Decoded?
    ensures r.Ok? ==> r.value == decode(resp.body).value
    ensures resp.status == p.success && decode(resp.body).Malformed? ==>
              r == Err(DecodeFailure(p, resp, decode(resp.body).reason))
    // a typed error comes back exactly for a validation status with a decodable body
    ensures r.Err? && r.error.Validation? <==>
              resp.status != p.success && resp.status in p.validation && detail(resp.body).Decoded?
    ensures r.Err? && r.error.Validation? ==> r.error == Validation(p.scope, detail(resp.body).value)
    ensures resp.status != p.success && resp.status in p.validation && detail(resp.body).Malformed? ==>
              r == Err(DecodeFailure(p, resp, detail(resp.body).reason))
    // InvalidToken comes back exactly for a 401 the switch handles
    ensures r == Err(InvalidToken) <==>
              p.handlesUnauthorized && resp.status == StatusUnauthorized
              && resp.status != p.success && resp.status !in p.validation
    // every other status is an unrecognized response
    ensures resp.status != p.success && resp.status !in p.validation
            && !(p.handlesUnauthorized && resp.status == StatusUnauthorized) ==>
              r == Err(Unrecognized(p.scope, resp.status, resp.body))
  {
    if resp.status == p.success then
      match decode(resp.body)
      case Decoded(v) => Ok(v)
      case Malformed(why) => Err(DecodeFailure(p, resp, why))
    else if resp.status in p.validation then
      match detail(resp.body)
      case Decoded(d) => Err(Validation(p.scope, d))
      case Malformed(why) => Err(DecodeFailure(p, resp, why))
    else if p.handlesUnauthorized && resp.status == StatusUnauthorized then
      Err(InvalidToken)
    else
      Err(Unrecognized(p.scope, resp.status, resp.body))
  }

  /** An endpoint's outcome: the error of `doRequest` unchanged, or the switch on its response. */
  function Handle<R>(p: Policy, o: Result<Response>, decode: string -> Decoded<R>,
                     detail: string -> Decoded<ValidationDetail>): (r: Result<R>)
    ensures o.Err? ==> r == Err(o.error)
    ensures o.Ok? ==> r == Respond(p, o.value, decode, detail)
  {
    match o
    case Err(e) => Err(e)
    case Ok(resp) => Respond(p, resp, decode, detail)
  }

  /**
   * Through `doRequest`, an endpoint's own 401 case is dead: `doRequest`
   * never hands back a 401, so InvalidToken reaches the caller only when
   * `doRequest` itself returned it.
   */
  lemma UnauthorizedCaseUnreachable<R>(p: Policy, initialized: bool, cfg: ClientConfig.Config, req: Sent, now: int,
                                       server: Server, k: nat, json: string -> Decoded<AuthResponse>,
                                       decode: string -> Decoded<R>, detail: string -> Decoded<ValidationDetail>)
    ensures var o := Session.Pipeline(initialized, cfg, req, now, server, k, json).result;
            && (o.Ok? ==> Respond(p, o.value, decode, detail) != Err(InvalidToken))
            && (Handle(p, o, decode, detail) == Err(InvalidToken) ==> o == Err(InvalidToken))
  {
    Session.PipelineGuarantees(initialized, cfg, req, now, server, k, json);
  }

  /** The text of an unrecognized response: `"melhor envio: <scope>: unrecognized response: <status> <body>"`. */
  function UnrecognizedText(scope: string, status: int, body: string): (s: string)
    ensures "melhor envio: " + scope + ": unrecognized response: " <= s
    ensures |s| >= |body| + 1 && s[|s| - |body| - 1..] == " " + body
  {
    "melhor envio: " + scope + ": unrecognized response: " + Decimal.Format(status) + " " + body
  }

  /** The status can be read back from the text: distinct statuses give distinct texts. */
  lemma UnrecognizedTextKeepsStatus(scope: string, status1: int, status2: int, body: string)
    requires UnrecognizedText(scope, status1, body) == UnrecognizedText(scope, status2, body)
    ensures status1 == status2
  {
    var prefix := "melhor envio: " + scope + ": unrecognized response: ";
    var f1, f2 := Decimal.Format(status1), Decimal.Format(status2);
    var t := UnrecognizedText(scope, status1, body);
    assert t == prefix + f1 + " " + body == prefix + f2 + " " + body;
    assert |f1| == |f2|;
    assert f1 == t[|prefix|..|prefix| + |f1|] == f2;
    Decimal.FormatInjective(status1, status2);
  }

  /** `Error()` of the validation errors that print their field messages after the message. */
  function DetailedText(scope: string, d: ValidationDetail, render: FieldMessages -> string): (s: string)
    ensures "melhor envio: " + scope + ": " + d.message + ": " <= s
    ensures |s| >= |render(d.errors)| && s[|s| - |render(d.errors)|..] == render(d.errors)
    ensures s[|"melhor envio: " + scope + ": " + d.message + ": "|..] == render(d.errors)
  {
    "melhor envio: " + scope + ": " + d.message + ": " + render(d.errors)
  }
}
