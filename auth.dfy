/**
 * The token exchange of auth.go, as functions of the client's state: the
 * authorization-code grant (section 4.1.3 of RFC 6749) and the refresh
 * grant (section 6 of RFC 6749), both posted to `{ApiUrl}/oauth/token`,
 * and what the client makes of the token endpoint's answer.
 */
module Auth {
  import opened Wire
  import opened ClientConfig

  const TokenPath := "/oauth/token"
  /** Scope word of the token endpoint's unrecognized-response errors. */
  const AuthScope := "auth"

  datatype GrantKind = AuthorizationCode | Refresh

  /** The credential a grant spends: the pending code, or the refresh token. */
  function Spends(kind: GrantKind, c: Credentials): string {
    match kind
    case AuthorizationCode => c.code
    case Refresh => c.refreshToken
  }

  /** The grant built from the current configuration. */
  function GrantRequest(kind: GrantKind, cfg: Config): (g: AuthRequest)
    ensures g.grantType == (if kind == AuthorizationCode then "authorization_code" else "refresh_token")
    ensures g.clientId == cfg.credentials.clientId && g.clientSecret == cfg.credentials.clientSecret
    ensures kind == AuthorizationCode ==>
              g.code == cfg.credentials.code && g.redirectUri == cfg.redirectUri && g.refreshToken == ""
    ensures kind == Refresh ==> g.refreshToken == cfg.credentials.refreshToken && g.code == "" && g.redirectUri == ""
  {
    match kind
    case AuthorizationCode =>
      AuthRequest("authorization_code", cfg.credentials.clientId, cfg.credentials.clientSecret,
                  cfg.redirectUri, cfg.credentials.code, "")
    case Refresh =>
      AuthRequest("refresh_token", cfg.credentials.clientId, cfg.credentials.clientSecret,
                  "", "", cfg.credentials.refreshToken)
  }

  /** The grant kind a token endpoint reads from `grant_type`. */
  function KindOf(grantType: string): (k: Option<GrantKind>)
    ensures k.Some? <==> grantType == "authorization_code" || grantType == "refresh_token"
  {
    if grantType == "authorization_code" then Some(AuthorizationCode)
    else if grantType == "refresh_token" then Some(Refresh)
    else None
  }

  /** The credential a grant presents, as the token endpoint reads it. */
  function Presented(g: AuthRequest): string {
    if KindOf(g.grantType) == Some(AuthorizationCode) then g.code else g.refreshToken
  }

  /** A grant names its own kind and presents exactly the credential that kind spends. */
  lemma GrantPresentsSpent(kind: GrantKind, cfg: Config)
    ensures KindOf(GrantRequest(kind, cfg).grantType) == Some(kind)
    ensures Presented(GrantRequest(kind, cfg)) == Spends(kind, cfg.credentials)
  {
  }

  /** The POST that carries a grant: default headers only, no bearer token. */
  function TokenRequest(kind: GrantKind, cfg: Config): (s: Sent)
    ensures s.verb == "POST" && s.url == cfg.apiUrl + TokenPath
    ensures s.body == GrantBody(GrantRequest(kind, cfg))
    ensures s.header == DefaultHeaders(map[], cfg) && Authorization !in s.header
  {
    Sent("POST", cfg.apiUrl + TokenPath, DefaultHeaders(map[], cfg), GrantBody(GrantRequest(kind, cfg)))
  }

  /** What parsing one answer of the token endpoint does: the error, the credentials after, the callback's calls. */
  datatype Update = Update(err: Option<Error>, credentials: Credentials, notified: seq<Credentials>)

  /** The credentials a successful grant leaves: new tokens, a new expiry, no pending code. */
  function Granted(c: Credentials, a: AuthResponse, now: int): Credentials {
    c.(accessToken := a.accessToken, refreshToken := a.refreshToken,
       expiresAt := now + a.expiresIn as int, code := "")
  }

  /** `parseAuthResponse` for an answer received at time `now`. */
  function AfterAuthResponse(cfg: Config, now: int, resp: Response, json: string -> Decoded<AuthResponse>): (u: Update)
    ensures u.err.None? ==> resp.status == StatusOK && json(resp.body).Decoded?
    ensures resp.status != StatusOK || json(resp.body).Malformed? ==>
              u.credentials == cfg.credentials && u.notified == [] && u.err.Some?
    ensures resp.status == StatusOK && json(resp.body).Malformed? ==> u.err == Some(Json(json(resp.body).reason))
    ensures resp.status == StatusUnauthorized ==> u.err == Some(InvalidToken)
    ensures resp.status != StatusOK && resp.status != StatusUnauthorized ==>
              u.err == Some(Unrecognized(AuthScope, resp.status, resp.body))
    ensures resp.status == StatusOK && json(resp.body).Decoded? ==>
              var a := json(resp.body).value;
              && u.credentials.accessToken == a.accessToken
              && u.credentials.refreshToken == a.refreshToken
              && u.credentials.expiresAt == now + a.expiresIn as int
              && u.credentials.code == ""
              && u.credentials.clientId == cfg.credentials.clientId
              && u.credentials.clientSecret == cfg.credentials.clientSecret
              && match cfg.onCredentialsChanged
                 case None => u.err == None && u.notified == []
                 case Some(notify) => u.err == notify(u.credentials) && u.notified == [u.credentials]
  {
    if resp.status == StatusOK then
      match json(resp.body)
      case Malformed(why) => Update(Some(Json(why)), cfg.credentials, [])
      case Decoded(a) =>
        var c := Granted(cfg.credentials, a, now);
        match cfg.onCredentialsChanged
        case None => Update(None, c, [])
        case Some(notify) => Update(notify(c), c, [c])
    else if resp.status == StatusUnauthorized then
      Update(Some(InvalidToken), cfg.credentials, [])
    else
      Update(Some(Unrecognized(AuthScope, resp.status, resp.body)), cfg.credentials, [])
  }

  /** A whole grant operation: its error, the credentials after, what it sent, the callback's calls. */
  datatype Exchanged = Exchanged(err: Option<Error>, credentials: Credentials, sent: seq<Sent>, notified: seq<Credentials>)

  /**
   * `AutenticateByCode` / `RefreshToken` on a client in state
   * (`initialized`, `cfg`) whose transport has made `k` calls so far.
   */
  function TokenExchange(kind: GrantKind, initialized: bool, cfg: Config, now: int, server: Server, k: nat,
                         json: string -> Decoded<AuthResponse>): (x: Exchanged)
    ensures !initialized ==> x == Exchanged(Some(ClientNotInitialized), cfg.credentials, [], [])
    ensures initialized && Spends(kind, cfg.credentials) == "" ==>
              x == Exchanged(Some(InvalidToken), cfg.credentials, [], [])
    ensures x.sent == [] <==> !initialized || Spends(kind, cfg.credentials) == ""
    ensures x.sent != [] ==> x.sent == [TokenRequest(kind, cfg)]
    ensures x.sent != [] && server(k, x.sent[0]).Failed? ==>
              x == Exchanged(Some(Network(server(k, x.sent[0]).reason)), cfg.credentials, x.sent, [])
    ensures x.sent != [] && server(k, x.sent[0]).Answered? ==>
              Update(x.err, x.credentials, x.notified) == AfterAuthResponse(cfg, now, server(k, x.sent[0]).response, json)
    ensures x.credentials != cfg.credentials ==> x.sent != []
  {
    if !initialized then Exchanged(Some(ClientNotInitialized), cfg.credentials, [], [])
    else if Spends(kind, cfg.credentials) == "" then Exchanged(Some(InvalidToken), cfg.credentials, [], [])
    else
      var s := TokenRequest(kind, cfg);
      match server(k, s)
      case Failed(why) => Exchanged(Some(Network(why)), cfg.credentials, [s], [])
      case Answered(resp) =>
        var u := AfterAuthResponse(cfg, now, resp, json);
        Exchanged(u.err, u.credentials, [s], u.notified)
  }

  /** A grant that succeeds spends the pending code, keeps the client identity and dates the new token from `now`. */
  lemma SuccessfulGrant(kind: GrantKind, initialized: bool, cfg: Config, now: int, server: Server, k: nat,
                        json: string -> Decoded<AuthResponse>)
    requires TokenExchange(kind, initialized, cfg, now, server, k, json).err.None?
    ensures var x := TokenExchange(kind, initialized, cfg, now, server, k, json);
            && initialized && Spends(kind, cfg.credentials) != ""
            && server(k, TokenRequest(kind, cfg)).Answered?
            && var resp := server(k, TokenRequest(kind, cfg)).response;
               && resp.status == StatusOK && json(resp.body).Decoded?
               && x.credentials == Granted(cfg.credentials, json(resp.body).value, now)
  {
  }

  /** A refresh the server refuses with 401 fails with InvalidToken and changes nothing. */
  lemma RefreshRefused(initialized: bool, cfg: Config, now: int, server: Server, k: nat,
                       json: string -> Decoded<AuthResponse>)
    requires initialized && cfg.credentials.refreshToken != ""
    requires server(k, TokenRequest(Refresh, cfg)).Answered?
    requires server(k, TokenRequest(Refresh, cfg)).response.status == StatusUnauthorized
    ensures var x := TokenExchange(Refresh, initialized, cfg, now, server, k, json);
            x.err == Some(InvalidToken) && x.credentials == cfg.credentials && x.notified == []
  {
  }

  /**
   * A refresh answered without a refresh token stores the empty one, and the
   * next refresh then fails with InvalidToken before sending anything.
   */
  lemma RefreshWithoutRefreshToken(initialized: bool, cfg: Config, now: int, server: Server, k: nat,
                                   json: string -> Decoded<AuthResponse>, later: int, k2: nat)
    requires initialized && cfg.credentials.refreshToken != ""
    requires server(k, TokenRequest(Refresh, cfg)).Answered?
    requires var resp := server(k, TokenRequest(Refresh, cfg)).response;
             resp.status == StatusOK && json(resp.body).Decoded? && json(resp.body).value.refreshToken == ""
    ensures var x := TokenExchange(Refresh, initialized, cfg, now, server, k, json);
            && x.credentials.refreshToken == ""
            && TokenExchange(Refresh, initialized, cfg.(credentials := x.credentials), later, server, k2, json)
                 == Exchanged(Some(InvalidToken), x.credentials, [], [])
  {
  }
}
