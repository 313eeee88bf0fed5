/**
 * generate.go: generating the labels of paid orders (`Generate`) and the
 * text of the typed error the endpoint answers with (`GenerateError`).
 */
module Generate {
  import opened Wire
  import opened Dispatch
  import opened Http
  import opened Session

  const GeneratePath := "/api/v2/me/shipment/generate"
  const Scope := "generate"

  /** 200 is success, 422 a typed error, and a body that fails to decode gives the decoder's own error. */
  const GeneratePolicy := Policy(Scope, StatusOK, {StatusUnprocessableEntity}, true, true)


  /** The status switch of `Generate`; the payload of a 200 maps each order id to its outcome. */
  function GenerateResponse<R>(resp: Response, decode: string -> Decoded<map<string, R>>,
                               detail: string -> Decoded<ValidationDetail>): (r: Result<map<string, R>>)
    ensures r.Ok? <==> resp.status == StatusOK && decode(resp.body).Decoded?
    ensures r.Ok? ==> r.value == decode(resp.body).value
    ensures r.Err? && r.error.Validation? <==> resp.status == StatusUnprocessableEntity && detail(resp.body).Decoded?
    ensures r.Err? && r.error.Validation? ==> r.error == Validation(Scope, detail(resp.body).value)
    // an undecodable body is reported as the decoder's error, never as an unrecognized response
    ensures resp.status == StatusOK && decode(resp.body).Malformed? ==> r == Err(Json(decode(resp.body).reason))
    ensures resp.status == StatusUnprocessableEntity && detail(resp.body).Malformed? ==>
              r == Err(Json(detail(resp.body).reason))
    ensures r == Err(InvalidToken) <==> resp.status == StatusUnauthorized
    ensures r.Err? && r.error.Unrecognized? <==>
              resp.status != StatusOK && resp.status != StatusUnprocessableEntity && resp.status != StatusUnauthorized
    ensures r.Err? && r.error.Unrecognized? ==> r.error == Unrecognized(Scope, resp.status, resp.body)
  {
    Respond(GeneratePolicy, resp, decode, detail)
  }

  /** `Generate`: POST the encoded list of orders through `doRequest`. */
  method Generate<R>(c: Client, payload: string, now: int, t: Transport, auth: string -> Decoded<AuthResponse>,
                     decode: string -> Decoded<map<string, R>>, detail: string -> Decoded<ValidationDetail>)
    returns (r: Result<map<string, R>>)
    modifies c, t
    ensures var o := Pipeline(old(c.initialized), old(c.config), Sent("POST", old(c.config.apiUrl) + GeneratePath, map[], Encoded(payload)),
                              now, t.server, |old(t.sent)|, auth);
            && r == Handle(GeneratePolicy, o.result, decode, detail)
            && c.config == old(c.config).(credentials := o.credentials)
            && c.initialized == old(c.initialized)
            && c.notified == old(c.notified) + o.notified
            && t.sent == old(t.sent) + o.sent
  {
    var req := new HttpRequest("POST", c.config.apiUrl + GeneratePath, Encoded(payload));
    var x := c.DoRequest(req, now, t, auth);
    match x
    case Err(e) =>
      return Err(e);
    case Ok(resp) =>
      return GenerateResponse(resp, decode, detail);
  }
}
