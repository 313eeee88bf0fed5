/**
 * companies.go: looking up one shipping service by its numeric id
 * (`GetServiceInfo`), and the enumerations a service description uses.
 */
module Companies {
  import opened Wire
  import opened Dispatch
  import opened Http
  import opened Session
  import Decimal

  const ServicesPath := "/api/v2/me/shipment/services/"
  const Scope := "service"

  /** The geographic reach of a service. */
  datatype Range = Interstate

  /** The delivery speed of a service. */
  datatype ServiceType = Normal | Express | Economic

  /** Whether a service can be contracted. */
  datatype Status = Available

  function RangeName(r: Range): string {
    "interstate"
  }

  function TypeName(t: ServiceType): string {
    match t
    case Normal => "normal"
    case Express => "express"
    case Economic => "economic"
  }

  function StatusName(s: Status): string {
    "available"
  }

  /** Reads a service type back from its wire form. */
  function ParseType(s: string): (t: Option<ServiceType>)
    ensures t.Some? ==> TypeName(t.value) == s
  {
    if s == "normal" then Some(Normal)
    else if s == "express" then Some(Express)
    else if s == "economic" then Some(Economic)
    else None
  }

  /** Every service type is read back from its wire form, so the three have distinct names. */
  lemma ParseTypeName(t: ServiceType)
    ensures ParseType(TypeName(t)) == Some(t)
  {
  }

  /** The URL of a service: the services path followed by the canonical base-10 rendering of the id, which reads back as the id. */
  function ServiceUrl(apiUrl: string, serviceId: int32): (u: string)
    ensures apiUrl + ServicesPath <= u
    ensures u[|apiUrl + ServicesPath|..] == Decimal.Format(serviceId as int)
    ensures Decimal.Parse(u[|apiUrl + ServicesPath|..]) == Some(serviceId as int)
  {
    var digits := Decimal.Format(serviceId as int);
    Decimal.ParseFormat(serviceId as int);
    assert (apiUrl + ServicesPath + digits)[|apiUrl + ServicesPath|..] == digits;
    apiUrl + ServicesPath + digits
  }

  /** Distinct services have distinct URLs. */
  lemma ServiceUrlInjective(apiUrl: string, id1: int32, id2: int32)
    requires ServiceUrl(apiUrl, id1) == ServiceUrl(apiUrl, id2)
    ensures id1 == id2
  {
    var n := |apiUrl + ServicesPath|;
    assert Decimal.Parse(ServiceUrl(apiUrl, id1)[n..]) == Some(id1 as int);
    assert Decimal.Parse(ServiceUrl(apiUrl, id2)[n..]) == Some(id2 as int);
  }

  /** 200 is success, a body that fails to decode gives the decoder's error, and there is no case for 401. */
  const ServicePolicy := Policy(Scope, StatusOK, {}, true, false)

  /** The status switch of `GetServiceInfo`: everything but a 200, a 401 included, is an unrecognized response. */
  function ServiceResponse<R>(resp: Response, decode: string -> Decoded<R>): (r: Result<R>)
    ensures r.Ok? <==> resp.status == StatusOK && decode(resp.body).Decoded?
    ensures r.Ok? ==> r.value == decode(resp.body).value
    ensures resp.status == StatusOK && decode(resp.body).Malformed? ==> r == Err(Json(decode(resp.body).reason))
    ensures resp.status != StatusOK ==> r == Err(Unrecognized(Scope, resp.status, resp.body))
    ensures r != Err(InvalidToken)
  {
    Respond(ServicePolicy, resp, decode, _ => Malformed(""))
  }

  /** `GetServiceInfo`: GET the service `serviceId` through `doRequest`. */
  method GetServiceInfo<R>(c: Client, serviceId: int32, now: int, t: Transport, auth: string -> Decoded<AuthResponse>,
                           decode: string -> Decoded<R>)
    returns (r: Result<R>)
    modifies c, t
    ensures var o := Pipeline(old(c.initialized), old(c.config), Sent("GET", ServiceUrl(old(c.config.apiUrl), serviceId), map[], Empty),
                              now, t.server, |old(t.sent)|, auth);
            && r == Handle(ServicePolicy, o.result, decode, _ => Malformed(""))
            && c.config == old(c.config).(credentials := o.credentials)
            && c.initialized == old(c.initialized)
            && c.notified == old(c.notified) + o.notified
            && t.sent == old(t.sent) + o.sent
  {
    var req := new HttpRequest("GET", ServiceUrl(c.config.apiUrl, serviceId), Empty);
    var x := c.DoRequest(req, now, t, auth);
    match x
    case Err(e) =>
      return Err(e);
    case Ok(resp) =>
      return ServiceResponse(resp, decode);
  }
}
