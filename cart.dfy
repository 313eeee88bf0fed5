/**
 * cart.go: putting a shipment into the account's cart (`AddToCart`) and
 * taking an order out of it again (`RemoveFromCart`), and the text of the
 * typed error the cart endpoints answer with (`CartError`).
 */
module Cart {
  import opened Wire
  import opened Dispatch
  import opened Http
  import opened Session

  const CartPath := "/api/v2/me/cart"
  const Scope := "cart"

  /** `AddToCart`: 201 is success, 422 a typed error, and an undecodable body an unrecognized response. */
  const AddPolicy := Policy(Scope, StatusCreated, {StatusUnprocessableEntity}, false, true)

  /** `RemoveFromCart`: 204 is success, 422 and 400 typed errors, and an undecodable body an unrecognized response. */
  const RemovePolicy := Policy(Scope, StatusNoContent, {StatusUnprocessableEntity, StatusBadRequest}, false, true)


  /** The status switch of `AddToCart`. */
  function AddResponse<R>(resp: Response, decode: string -> Decoded<R>,
                          detail: string -> Decoded<ValidationDetail>): (r: Result<R>)
    ensures r.Ok? <==> resp.status == StatusCreated && decode(resp.body).Decoded?
    ensures r.Ok? ==> r.value == decode(resp.body).value
    ensures r.Err? && r.error.Validation? <==> resp.status == StatusUnprocessableEntity && detail(resp.body).Decoded?
    ensures r.Err? && r.error.Validation? ==> r.error == Validation(Scope, detail(resp.body).value)
    ensures r == Err(InvalidToken) <==> resp.status == StatusUnauthorized
    // every other outcome, an undecodable 201 or 422 included, is an unrecognized response
    ensures r.Err? && !r.error.Validation? && r.error != InvalidToken ==>
              r.error == Unrecognized(Scope, resp.status, resp.body)
  {
    Respond(AddPolicy, resp, decode, detail)
  }

  /** The status switch of `RemoveFromCart`; the body of a 204 is not read. */
  function RemoveResponse(resp: Response, detail: string -> Decoded<ValidationDetail>): (r: Result<()>)
    ensures r.Ok? <==> resp.status == StatusNoContent
    ensures r.Err? && r.error.Validation? <==>
              (resp.status == StatusUnprocessableEntity || resp.status == StatusBadRequest) && detail(resp.body).Decoded?
    ensures r.Err? && r.error.Validation? ==> r.error == Validation(Scope, detail(resp.body).value)
    ensures r == Err(InvalidToken) <==> resp.status == StatusUnauthorized
    ensures r.Err? && !r.error.Validation? && r.error != InvalidToken ==>
              r.error == Unrecognized(Scope, resp.status, resp.body)
  {
    Respond(RemovePolicy, resp, _ => Decoded(()), detail)
  }

  /** `AddToCart`: POST the encoded `payload` to the cart through `doRequest`. */
  method AddToCart<R>(c: Client, payload: string, now: int, t: Transport, auth: string -> Decoded<AuthResponse>,
                      decode: string -> Decoded<R>, detail: string -> Decoded<ValidationDetail>)
    returns (r: Result<R>)
    modifies c, t
    ensures var o := Pipeline(old(c.initialized), old(c.config), Sent("POST", old(c.config.apiUrl) + CartPath, map[], Encoded(payload)),
                              now, t.server, |old(t.sent)|, auth);
            && r == Handle(AddPolicy, o.result, decode, detail)
            && c.config == old(c.config).(credentials := o.credentials)
            && c.initialized == old(c.initialized)
            && c.notified == old(c.notified) + o.notified
            && t.sent == old(t.sent) + o.sent
  {
    var req := new HttpRequest("POST", c.config.apiUrl + CartPath, Encoded(payload));
    var x := c.DoRequest(req, now, t, auth);
    match x
    case Err(e) =>
      return Err(e);
    case Ok(resp) =>
      return AddResponse(resp, decode, detail);
  }

  /** `RemoveFromCart`: DELETE the order `orderId` through `doRequest`. */
  method RemoveFromCart(c: Client, orderId: string, now: int, t: Transport, auth: string -> Decoded<AuthResponse>,
                        detail: string -> Decoded<ValidationDetail>)
    returns (r: Result<()>)
    modifies c, t
    ensures var o := Pipeline(old(c.initialized), old(c.config), Sent("DELETE", old(c.config.apiUrl) + CartPath + "/" + orderId, map[], Empty),
                              now, t.server, |old(t.sent)|, auth);
            && r == Handle(RemovePolicy, o.result, _ => Decoded(()), detail)
            && c.config == old(c.config).(credentials := o.credentials)
            && c.initialized == old(c.initialized)
            && c.notified == old(c.notified) + o.notified
            && t.sent == old(t.sent) + o.sent
  {
    var req := new HttpRequest("DELETE", c.config.apiUrl + CartPath + "/" + orderId, Empty);
    var x := c.DoRequest(req, now, t, auth);
    match x
    case Err(e) =>
      return Err(e);
    case Ok(resp) =>
      return RemoveResponse(resp, detail);
  }
}
