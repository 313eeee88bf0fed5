/**
 * cotacao.go: asking for freight quotes (`CotarFrete`) and the text of the
 * typed error the quote endpoint answers with (`CotacaoError`).
 */
module Cotacao {
  import opened Wire
  import opened Dispatch
  import opened Http
  import opened Session

  const CalculatePath := "/api/v2/me/shipment/calculate"
  const Scope := "cotacao"

  /** 200 is success, 422 a typed error, and a body that fails to decode gives the decoder's own error. */
  const QuotePolicy := Policy(Scope, StatusOK, {StatusUnprocessableEntity}, true, true)


  /** The status switch of `CotarFrete`. */
  function QuoteResponse<R>(resp: Response, decode: string -> Decoded<R>,
                            detail: string -> Decoded<ValidationDetail>): (r: Result<R>)
    ensures r.Ok? <==> resp.status == StatusOK && decode(resp.body).Decoded?
    ensures r.Ok? ==> r.value == decode(resp.body).value
    ensures r.Err? && r.error.Validation? <==> resp.status == StatusUnprocessableEntity && detail(resp.body).Decoded?
    ensures r.Err? && r.error.Validation? ==> r.error == Validation(Scope, detail(resp.body).value)
    // an undecodable body is reported as the decoder's error, never as an unrecognized response
    ensures resp.status == StatusOK && decode(resp.body).Malformed? ==> r == Err(Json(decode(resp.body).reason))
    ensures resp.status == StatusUnprocessableEntity && detail(resp.body).Malformed? ==>
              r == Err(Json(detail(resp.body).reason))
    ensures r == Err(InvalidToken) <==> resp.status == StatusUnauthorized
    ensures r.Err? && r.error.Unrecognized? <==>
              resp.status != StatusOK && resp.status != StatusUnprocessableEntity && resp.status != StatusUnauthorized
    ensures r.Err? && r.error.Unrecognized? ==> r.error == Unrecognized(Scope, resp.status, resp.body)
  {
    Respond(QuotePolicy, resp, decode, detail)
  }

  /** `CotarFrete`: POST the encoded quote request through `doRequest`. */
  method CotarFrete<R>(c: Client, payload: string, now: int, t: Transport, auth: string -> Decoded<AuthResponse>,
                       decode: string -> Decoded<R>, detail: string -> Decoded<ValidationDetail>)
    returns (r: Result<R>)
    modifies c, t
    ensures var o := Pipeline(old(c.initialized), old(c.config), Sent("POST", old(c.config.apiUrl) + CalculatePath, map[], Encoded(payload)),
                              now, t.server, |old(t.sent)|, auth);
            && r == Handle(QuotePolicy, o.result, decode, detail)
            && c.config == old(c.config).(credentials := o.credentials)
            && c.initialized == old(c.initialized)
            && c.notified == old(c.notified) + o.notified
            && t.sent == old(t.sent) + o.sent
  {
    var req := new HttpRequest("POST", c.config.apiUrl + CalculatePath, Encoded(payload));
    var x := c.DoRequest(req, now, t, auth);
    match x
    case Err(e) =>
      return Err(e);
    case Ok(resp) =>
      return QuoteResponse(resp, decode, detail);
  }
}
