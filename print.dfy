/**
 * print.go: obtaining the printable labels of generated orders (`Print`),
 * the visibility modes a label link can have, and the text of the typed
 * error the endpoint answers with (`PrintError`).
 */
module Print {
  import opened Wire
  import opened Dispatch
  import opened Http
  import opened Session

  const PrintPath := "/api/v2/me/shipment/print"
  const Scope := "print"

  /** The `mode` of a print request. */
  datatype Mode = Private | Public

  /** The wire form of a mode. */
  function ModeName(m: Mode): string {
    match m
    case Private => "private"
    case Public => "public"
  }

  /** Reads a mode back from its wire form. */
  function ParseMode(s: string): (m: Option<Mode>)
    ensures m.Some? ==> ModeName(m.value) == s
  {
    if s == "private" then Some(Private)
    else if s == "public" then Some(Public)
    else None
  }

  /** Every mode is read back from its wire form, so the two modes have distinct names. */
  lemma ParseModeName(m: Mode)
    ensures ParseMode(ModeName(m)) == Some(m)
  {
  }

  /** 200 is success, 422 and 400 typed errors, and an undecodable body an unrecognized response. */
  const PrintPolicy := Policy(Scope, StatusOK, {StatusUnprocessableEntity, StatusBadRequest}, false, true)

  /** `PrintError.Error()`: the scope and the message; unlike the other endpoints' errors, no field messages. */
  function ErrorText(d: ValidationDetail): (s: string)
    ensures "melhor envio: print: " <= s && s[|"melhor envio: print: "|..] == d.message
  {
    "melhor envio: " + Scope + ": " + d.message
  }

  /** The text depends on the message alone. */
  lemma ErrorTextIgnoresFieldMessages(d: ValidationDetail, errors: FieldMessages)
    ensures ErrorText(d.(errors := errors)) == ErrorText(d)
  {
  }

  /** The status switch of `Print`. */
  function PrintResponse<R>(resp: Response, decode: string -> Decoded<R>,
                            detail: string -> Decoded<ValidationDetail>): (r: Result<R>)
    ensures r.Ok? <==> resp.status == StatusOK && decode(resp.body).Decoded?
    ensures r.Ok? ==> r.value == decode(resp.body).value
    ensures r.Err? && r.error.Validation? <==>
              (resp.status == StatusUnprocessableEntity || resp.status == StatusBadRequest) && detail(resp.body).Decoded?
    ensures r.Err? && r.error.Validation? ==> r.error == Validation(Scope, detail(resp.body).value)
    ensures r == Err(InvalidToken) <==> resp.status == StatusUnauthorized
    // every other outcome, an undecodable 200, 400 or 422 included, is an unrecognized response
    ensures r.Err? && !r.error.Validation? && r.error != InvalidToken ==>
              r.error == Unrecognized(Scope, resp.status, resp.body)
  {
    Respond(PrintPolicy, resp, decode, detail)
  }

  /** `Print`: POST the encoded print request through `doRequest`. */
  method Print<R>(c: Client, payload: string, now: int, t: Transport, auth: string -> Decoded<AuthResponse>,
                  decode: string -> Decoded<R>, detail: string -> Decoded<ValidationDetail>)
    returns (r: Result<R>)
    modifies c, t
    ensures var o := Pipeline(old(c.initialized), old(c.config), Sent("POST", old(c.config.apiUrl) + PrintPath, map[], Encoded(payload)),
                              now, t.server, |old(t.sent)|, auth);
            && r == Handle(PrintPolicy, o.result, decode, detail)
            && c.config == old(c.config).(credentials := o.credentials)
            && c.initialized == old(c.initialized)
            && c.notified == old(c.notified) + o.notified
            && t.sent == old(t.sent) + o.sent
  {
    var req := new HttpRequest("POST", c.config.apiUrl + PrintPath, Encoded(payload));
    var x := c.DoRequest(req, now, t, auth);
    match x
    case Err(e) =>
      return Err(e);
    case Ok(resp) =>
      return PrintResponse(resp, decode, detail);
  }
}
