/**
 * checkout.go: paying for the orders in the cart (`Checkout`) and the text
 * of the typed error the checkout endpoint answers with (`CheckoutError`).
 */
module Checkout {
  import opened Wire
  import opened Dispatch
  import opened Http
  import opened Session

  const CheckoutPath := "/api/v2/me/shipment/checkout"
  const Scope := "checkout"

  /** 200 is success, 422 a typed error, and an undecodable body an unrecognized response. */
  const CheckoutPolicy := Policy(Scope, StatusOK, {StatusUnprocessableEntity}, false, true)


  /** The status switch of `Checkout`. */
  function CheckoutResponse<R>(resp: Response, decode: string -> Decoded<R>,
                               detail: string -> Decoded<ValidationDetail>): (r: Result<R>)
    ensures r.Ok? <==> resp.status == StatusOK && decode(resp.body).Decoded?
    ensures r.Ok? ==> r.value == decode(resp.body).value
    ensures r.Err? && r.error.Validation? <==> resp.status == StatusUnprocessableEntity && detail(resp.body).Decoded?
    ensures r.Err? && r.error.Validation? ==> r.error == Validation(Scope, detail(resp.body).value)
    ensures r == Err(InvalidToken) <==> resp.status == StatusUnauthorized
    // every other outcome, an undecodable 200 or 422 included, is an unrecognized response
    ensures r.Err? && !r.error.Validation? && r.error != InvalidToken ==>
              r.error == Unrecognized(Scope, resp.status, resp.body)
  {
    Respond(CheckoutPolicy, resp, decode, detail)
  }

  /** `Checkout`: POST the encoded list of orders through `doRequest`. */
  method Checkout<R>(c: Client, payload: string, now: int, t: Transport, auth: string -> Decoded<AuthResponse>,
                     decode: string -> Decoded<R>, detail: string -> Decoded<ValidationDetail>)
    returns (r: Result<R>)
    modifies c, t
    ensures var o := Pipeline(old(c.initialized), old(c.config), Sent("POST", old(c.config.apiUrl) + CheckoutPath, map[], Encoded(payload)),
                              now, t.server, |old(t.sent)|, auth);
            && r == Handle(CheckoutPolicy, o.result, decode, detail)
            && c.config == old(c.config).(credentials := o.credentials)
            && c.initialized == old(c.initialized)
            && c.notified == old(c.notified) + o.notified
            && t.sent == old(t.sent) + o.sent
  {
    var req := new HttpRequest("POST", c.config.apiUrl + CheckoutPath, Encoded(payload));
    var x := c.DoRequest(req, now, t, auth);
    match x
    case Err(e) =>
      return Err(e);
    case Ok(resp) =>
      return CheckoutResponse(resp, decode, detail);
  }
}
