/**
 * The client session of client.go and auth.go: a `Client` object whose
 * credentials the token grants update in place, and `doRequest`, which
 * sends an API request with a bearer token, refreshing the token first
 * when it has expired and once more when the server answers 401.
 *
 * `Pipeline` is the specification of `doRequest` as a function of the
 * state before the call; `Client.DoRequest` is proved to behave as it.
 */
module Session {
  import opened Wire
  import opened ClientConfig
  import opened Auth
  import opened Http

  /** A token is stale when its expiry lies strictly before `now`. */
  predicate Expired(c: Credentials, now: int) {
    c.expiresAt < now
  }

  /** The request after `injectDefaultHeaders`. */
  function Prepared(req: Sent, cfg: Config): Sent {
    req.(header := DefaultHeaders(req.header, cfg))
  }

  /** A prepared request with the bearer token set, as `doRequest` sends it. */
  function WithToken(prepared: Sent, token: string): (s: Sent)
    ensures s.verb == prepared.verb && s.url == prepared.url && s.body == prepared.body
    ensures s.header.Keys == prepared.header.Keys + {Authorization}
    ensures s.header[Authorization] == Bearer(token)
    ensures forall h :: h in prepared.header && h != Authorization ==> s.header[h] == prepared.header[h]
  {
    prepared.(header := prepared.header[Authorization := Bearer(token)])
  }

  /**
   * One `doRequest`: its result, the credentials after it, everything the
   * transport was given (grants included), the sends of the request itself,
   * and the callback's calls.
   */
  datatype Run = Run(
    result: Result<Response>,
    credentials: Credentials,
    sent: seq<Sent>,
    attempts: seq<Sent>,
    notified: seq<Credentials>)

  /** The result of the re-send after a 401: a transport error, a second 401 as InvalidToken, or the answer. */
  function Resend(answer: Exchange): (r: Result<Response>)
    ensures answer.Failed? ==> r == Err(Network(answer.reason))
    ensures answer.Answered? && answer.response.status == StatusUnauthorized ==> r == Err(InvalidToken)
    ensures answer.Answered? && answer.response.status != StatusUnauthorized ==> r == Ok(answer.response)
  {
    match answer
    case Failed(why) => Err(Network(why))
    case Answered(resp) => if resp.status == StatusUnauthorized then Err(InvalidToken) else Ok(resp)
  }

  /**
   * What follows a first 401, the transport having made `k` calls: refresh
   * the credentials of `cfg`, then send once more; a second 401 is
   * InvalidToken.
   */
  function Retry(initialized: bool, cfg: Config, prepared: Sent, now: int, server: Server, k: nat,
                 json: string -> Decoded<AuthResponse>): (o: Run)
    ensures o.result.Ok? ==>
              && o.result.value.status != StatusUnauthorized
              && o.attempts == [WithToken(prepared, o.credentials.accessToken)]
    ensures |o.attempts| <= 1 && |o.sent| <= 2
    ensures o.attempts == [] ==> o.result.Err?
    // a failed refresh is returned as it is and the request is not sent again
    ensures var re := TokenExchange(Refresh, initialized, cfg, now, server, k, json);
            re.err.Some? ==> o == Run(Err(re.err.value), re.credentials, re.sent, [], re.notified)
    // after a successful refresh the request is sent once more, and its answer decides
    ensures var re := TokenExchange(Refresh, initialized, cfg, now, server, k, json);
            re.err.None? ==>
              var second := WithToken(prepared, re.credentials.accessToken);
              var answer := server(k + |re.sent|, second);
              && o.credentials == re.credentials && o.notified == re.notified
              && o.attempts == [second] && o.sent == re.sent + [second]
              && (answer.Failed? ==> o.result == Err(Network(answer.reason)))
              && (answer.Answered? && answer.response.status == StatusUnauthorized ==> o.result == Err(InvalidToken))
              && (answer.Answered? && answer.response.status != StatusUnauthorized ==> o.result == Ok(answer.response))
  {
    var re := TokenExchange(Refresh, initialized, cfg, now, server, k, json);
    if re.err.Some? then
      Run(Err(re.err.value), re.credentials, re.sent, [], re.notified)
    else
      var second := WithToken(prepared, re.credentials.accessToken);
      Run(Resend(server(k + |re.sent|, second)), re.credentials, re.sent + [second], [second], re.notified)
  }

  /**
   * Sending the request with the token of `cfg`, the transport having made
   * `k` calls, and the single retry a 401 calls for.
   */
  function Attempt(initialized: bool, cfg: Config, prepared: Sent, now: int, server: Server, k: nat,
                   json: string -> Decoded<AuthResponse>): (o: Run)
    ensures 1 <= |o.attempts| <= 2 && 1 <= |o.sent| <= 3
    ensures o.result.Ok? ==>
              && o.result.value.status != StatusUnauthorized
              && o.attempts[|o.attempts| - 1] == WithToken(prepared, o.credentials.accessToken)
    ensures o.sent[0] == o.attempts[0] == WithToken(prepared, cfg.credentials.accessToken)
    ensures |o.attempts| == 2 ==>
              server(k, o.attempts[0]).Answered? && server(k, o.attempts[0]).response.status == StatusUnauthorized
    // a transport error is returned at once
    ensures var first := WithToken(prepared, cfg.credentials.accessToken);
            server(k, first).Failed? ==>
              o == Run(Err(Network(server(k, first).reason)), cfg.credentials, [first], [first], [])
    // an answer other than 401 is returned as it is
    ensures var first := WithToken(prepared, cfg.credentials.accessToken);
            server(k, first).Answered? && server(k, first).response.status != StatusUnauthorized ==>
              o == Run(Ok(server(k, first).response), cfg.credentials, [first], [first], [])
    // a 401 hands over to the retry
    ensures var first := WithToken(prepared, cfg.credentials.accessToken);
            var r := Retry(initialized, cfg, prepared, now, server, k + 1, json);
            server(k, first).Answered? && server(k, first).response.status == StatusUnauthorized ==>
              && o.result == r.result && o.credentials == r.credentials && o.notified == r.notified
              && o.sent == [first] + r.sent && o.attempts == [first] + r.attempts
  {
    var first := WithToken(prepared, cfg.credentials.accessToken);
    match server(k, first)
    case Failed(why) =>
      Run(Err(Network(why)), cfg.credentials, [first], [first], [])
    case Answered(resp) =>
      if resp.status != StatusUnauthorized then
        Run(Ok(resp), cfg.credentials, [first], [first], [])
      else
        var o := Retry(initialized, cfg, prepared, now, server, k + 1, json);
        Run(o.result, o.credentials, [first] + o.sent, [first] + o.attempts, o.notified)
  }

  /**
   * A stale token is refreshed before the request is sent; when the refresh
   * fails, nothing more happens.
   */
  function RefreshFirst(initialized: bool, cfg: Config, prepared: Sent, now: int, server: Server, k: nat,
                        json: string -> Decoded<AuthResponse>): (o: Run)
    ensures |o.attempts| <= 2 && |o.sent| <= 4
    ensures o.result.Ok? ==>
              && o.result.value.status != StatusUnauthorized
              && |o.attempts| >= 1 && o.attempts[|o.attempts| - 1] == WithToken(prepared, o.credentials.accessToken)
    ensures o.sent != [] ==> o.sent[0] == TokenRequest(Refresh, cfg)
    ensures o.attempts == [] ==> TokenExchange(Refresh, initialized, cfg, now, server, k, json).err == Some(o.result.error)
    // a failed refresh is returned as it is and the request is never sent
    ensures var pre := TokenExchange(Refresh, initialized, cfg, now, server, k, json);
            pre.err.Some? ==> o == Run(Err(pre.err.value), pre.credentials, pre.sent, [], pre.notified)
    // after a successful refresh the request goes out with the new token
    ensures var pre := TokenExchange(Refresh, initialized, cfg, now, server, k, json);
            pre.err.None? ==>
              && o.attempts != [] && o.attempts[0] == WithToken(prepared, pre.credentials.accessToken)
              && |o.sent| >= 2 && o.sent[..2] == pre.sent + [o.attempts[0]]
  {
    var pre := TokenExchange(Refresh, initialized, cfg, now, server, k, json);
    if pre.err.Some? then
      Run(Err(pre.err.value), pre.credentials, pre.sent, [], pre.notified)
    else
      var o := Attempt(initialized, cfg.(credentials := pre.credentials), prepared, now, server, k + |pre.sent|, json);
      assert |pre.sent| == 1;
      Run(o.result, o.credentials, pre.sent + o.sent, o.attempts, pre.notified + o.notified)
  }

  /**
   * `doRequest(req)` on a client in state (`initialized`, `cfg`) whose
   * transport has made `k` calls so far.
   */
  function Pipeline(initialized: bool, cfg: Config, req: Sent, now: int, server: Server, k: nat,
                    json: string -> Decoded<AuthResponse>): (o: Run)
    ensures o.result.Ok? ==> o.result.value.status != StatusUnauthorized
    ensures |o.attempts| <= 2 && |o.sent| <= 4
  {
    if Expired(cfg.credentials, now) then
      RefreshFirst(initialized, cfg, Prepared(req, cfg), now, server, k, json)
    else
      Attempt(initialized, cfg, Prepared(req, cfg), now, server, k, json)
  }

  /** What `doRequest` guarantees, whatever the server answers. */
  lemma PipelineGuarantees(initialized: bool, cfg: Config, req: Sent, now: int, server: Server, k: nat,
                           json: string -> Decoded<AuthResponse>)
    ensures var o := Pipeline(initialized, cfg, req, now, server, k, json);
            // never an unhandled 401
            && (o.result.Ok? ==> o.result.value.status != StatusUnauthorized)
            // at most two sends of the request, at most two grants
            && |o.attempts| <= 2 && |o.sent| <= 4
            // a response answers the last send, which carried the token now stored
            && (o.result.Ok? ==>
                  |o.attempts| >= 1 && o.attempts[|o.attempts| - 1] == WithToken(Prepared(req, cfg), o.credentials.accessToken))
            // a fresh token is used as it is: the first thing sent is the request with the stored token
            && (!Expired(cfg.credentials, now) ==>
                  && |o.attempts| >= 1 && |o.sent| >= 1
                  && o.sent[0] == o.attempts[0] == WithToken(Prepared(req, cfg), cfg.credentials.accessToken))
            // a stale token is refreshed before anything else is sent
            && (Expired(cfg.credentials, now) && o.sent != [] ==> o.sent[0] == TokenRequest(Refresh, cfg))
            // the request goes unsent only when the refresh of a stale token failed
            && (o.attempts == [] ==>
                  && Expired(cfg.credentials, now)
                  && TokenExchange(Refresh, initialized, cfg, now, server, k, json).err == Some(o.result.error))
  {
  }

  // Scenarios of `doRequest`, each for a client whose transport has made `k` calls.

  /** A token that has not expired (its expiry may equal `now`) is sent as it is; a non-401 answer is returned as given. */
  lemma FreshTokenAnswered(initialized: bool, cfg: Config, req: Sent, now: int, server: Server, k: nat,
                           json: string -> Decoded<AuthResponse>, resp: Response)
    requires cfg.credentials.expiresAt >= now
    requires server(k, WithToken(Prepared(req, cfg), cfg.credentials.accessToken)) == Answered(resp)
    requires resp.status != StatusUnauthorized
    ensures var first := WithToken(Prepared(req, cfg), cfg.credentials.accessToken);
            Pipeline(initialized, cfg, req, now, server, k, json) == Run(Ok(resp), cfg.credentials, [first], [first], [])
  {
  }

  /**
   * A stale token refreshed successfully: the request goes out once with the
   * new token, and a transport error or an answer other than 401 is returned
   * as it is.
   */
  lemma StaleTokenRefreshedThenSent(initialized: bool, cfg: Config, req: Sent, now: int, server: Server, k: nat,
                                    json: string -> Decoded<AuthResponse>)
    requires cfg.credentials.expiresAt < now
    requires TokenExchange(Refresh, initialized, cfg, now, server, k, json).err.None?
    ensures var pre := TokenExchange(Refresh, initialized, cfg, now, server, k, json);
            var second := WithToken(Prepared(req, cfg), pre.credentials.accessToken);
            var answer := server(k + 1, second);
            var o := Pipeline(initialized, cfg, req, now, server, k, json);
            && o.attempts[0] == second && o.sent[..2] == pre.sent + [second]
            && (answer.Failed? ==>
                  o == Run(Err(Network(answer.reason)), pre.credentials, pre.sent + [second], [second], pre.notified))
            && (answer.Answered? && answer.response.status != StatusUnauthorized ==>
                  o == Run(Ok(answer.response), pre.credentials, pre.sent + [second], [second], pre.notified))
  {
    var pre := TokenExchange(Refresh, initialized, cfg, now, server, k, json);
    assert |pre.sent| == 1;
  }

  /**
   * After a successful refresh of a stale token, the rest is `Attempt` with
   * the refreshed credentials, started after the grant.
   */
  lemma RefreshFirstHandsOver(initialized: bool, cfg: Config, prepared: Sent, now: int, server: Server, k: nat,
                              json: string -> Decoded<AuthResponse>)
    ensures var pre := TokenExchange(Refresh, initialized, cfg, now, server, k, json);
            var a := Attempt(initialized, cfg.(credentials := pre.credentials), prepared, now, server, k + |pre.sent|, json);
            var o := RefreshFirst(initialized, cfg, prepared, now, server, k, json);
            pre.err.None? ==>
              && o.result == a.result && o.credentials == a.credentials && o.attempts == a.attempts
              && o.sent == pre.sent + a.sent && o.notified == pre.notified + a.notified
  {
  }

  /** The outcome of `Attempt` once its first send was answered 401, by the outcome of the refresh that follows. */
  lemma AttemptAfterUnauthorized(initialized: bool, cfg: Config, prepared: Sent, now: int, server: Server, k: nat,
                                 json: string -> Decoded<AuthResponse>)
    requires var first := WithToken(prepared, cfg.credentials.accessToken);
             server(k, first).Answered? && server(k, first).response.status == StatusUnauthorized
    ensures var first := WithToken(prepared, cfg.credentials.accessToken);
            var re := TokenExchange(Refresh, initialized, cfg, now, server, k + 1, json);
            var a := Attempt(initialized, cfg, prepared, now, server, k, json);
            && (re.err.Some? ==>
                  a == Run(Err(re.err.value), re.credentials, [first] + re.sent, [first], re.notified))
            && (re.err.None? ==>
                  var again := WithToken(prepared, re.credentials.accessToken);
                  var answer := server(k + 2, again);
                  && a.attempts == [first, again]
                  && a.sent == [first] + re.sent + [again]
                  && a.credentials == re.credentials && a.notified == re.notified
                  && a.result == Resend(answer))
  {
    var re := TokenExchange(Refresh, initialized, cfg, now, server, k + 1, json);
    if re.err.None? {
      assert |re.sent| == 1;
    }
  }

  /**
   * A stale token refreshed successfully and then answered 401 is refreshed
   * once more; when that second refresh fails, its error is returned and the
   * request is not sent again.
   */
  lemma StaleTokenSecondRefreshFails(initialized: bool, cfg: Config, req: Sent, now: int, server: Server,
                                     k: nat, json: string -> Decoded<AuthResponse>)
    requires cfg.credentials.expiresAt < now
    requires TokenExchange(Refresh, initialized, cfg, now, server, k, json).err.None?
    requires var pre := TokenExchange(Refresh, initialized, cfg, now, server, k, json);
             var second := WithToken(Prepared(req, cfg), pre.credentials.accessToken);
             server(k + 1, second).Answered? && server(k + 1, second).response.status == StatusUnauthorized
    requires var pre := TokenExchange(Refresh, initialized, cfg, now, server, k, json);
             TokenExchange(Refresh, initialized, cfg.(credentials := pre.credentials), now, server, k + 2, json).err.Some?
    ensures var pre := TokenExchange(Refresh, initialized, cfg, now, server, k, json);
            var second := WithToken(Prepared(req, cfg), pre.credentials.accessToken);
            var re := TokenExchange(Refresh, initialized, cfg.(credentials := pre.credentials), now, server, k + 2, json);
            Pipeline(initialized, cfg, req, now, server, k, json)
              == Run(Err(re.err.value), re.credentials, pre.sent + ([second] + re.sent), [second], pre.notified + re.notified)
  {
    var pre := TokenExchange(Refresh, initialized, cfg, now, server, k, json);
    assert |pre.sent| == 1;
    RefreshFirstHandsOver(initialized, cfg, Prepared(req, cfg), now, server, k, json);
    AttemptAfterUnauthorized(initialized, cfg.(credentials := pre.credentials), Prepared(req, cfg), now, server, k + 1, json);
  }

  /**
   * A stale token refreshed successfully and then answered 401 is refreshed
   * once more and the request re-sent with the newest token; a second 401
   * is InvalidToken, a transport error is returned, any other answer too.
   */
  lemma StaleTokenRetriedAfterUnauthorized(initialized: bool, cfg: Config, req: Sent, now: int, server: Server,
                                           k: nat, json: string -> Decoded<AuthResponse>)
    requires cfg.credentials.expiresAt < now
    requires TokenExchange(Refresh, initialized, cfg, now, server, k, json).err.None?
    requires var pre := TokenExchange(Refresh, initialized, cfg, now, server, k, json);
             var second := WithToken(Prepared(req, cfg), pre.credentials.accessToken);
             server(k + 1, second).Answered? && server(k + 1, second).response.status == StatusUnauthorized
    requires var pre := TokenExchange(Refresh, initialized, cfg, now, server, k, json);
             TokenExchange(Refresh, initialized, cfg.(credentials := pre.credentials), now, server, k + 2, json).err.None?
    ensures var pre := TokenExchange(Refresh, initialized, cfg, now, server, k, json);
            var second := WithToken(Prepared(req, cfg), pre.credentials.accessToken);
            var re := TokenExchange(Refresh, initialized, cfg.(credentials := pre.credentials), now, server, k + 2, json);
            var third := WithToken(Prepared(req, cfg), re.credentials.accessToken);
            var answer := server(k + 3, third);
            var o := Pipeline(initialized, cfg, req, now, server, k, json);
            && o.attempts == [second, third]
            && o.sent == pre.sent + ([second] + re.sent + [third])
            && o.credentials == re.credentials
            && o.result == Resend(answer)
  {
    var prepared := Prepared(req, cfg);
    var pre := TokenExchange(Refresh, initialized, cfg, now, server, k, json);
    var cfg2 := cfg.(credentials := pre.credentials);
    var re := TokenExchange(Refresh, initialized, cfg2, now, server, k + 2, json);
    var third := WithToken(prepared, re.credentials.accessToken);
    assert |pre.sent| == 1;
    RefreshFirstHandsOver(initialized, cfg, prepared, now, server, k, json);
    AttemptAfterUnauthorized(initialized, cfg2, prepared, now, server, k + 1, json);
    var a := Attempt(initialized, cfg2, prepared, now, server, k + 1, json);
    assert a.result == Resend(server(k + 3, third));
    var o := RefreshFirst(initialized, cfg, prepared, now, server, k, json);
    assert o.result == a.result && o.credentials == a.credentials && o.attempts == a.attempts;
    assert o.sent == pre.sent + a.sent;
  }

  /** When the refresh of a stale token fails, its error is returned and the request is never sent. */
  lemma StaleTokenRefreshFails(initialized: bool, cfg: Config, req: Sent, now: int, server: Server, k: nat,
                               json: string -> Decoded<AuthResponse>)
    requires cfg.credentials.expiresAt < now
    requires TokenExchange(Refresh, initialized, cfg, now, server, k, json).err.Some?
    ensures var pre := TokenExchange(Refresh, initialized, cfg, now, server, k, json);
            var o := Pipeline(initialized, cfg, req, now, server, k, json);
            o.result == Err(pre.err.value) && o.attempts == [] && o.sent == pre.sent && o.credentials == pre.credentials
  {
  }

  /** A transport error is returned at once, with no refresh and no second send. */
  lemma TransportErrorNotRetried(initialized: bool, cfg: Config, req: Sent, now: int, server: Server, k: nat,
                                 json: string -> Decoded<AuthResponse>, why: string)
    requires cfg.credentials.expiresAt >= now
    requires server(k, WithToken(Prepared(req, cfg), cfg.credentials.accessToken)) == Failed(why)
    ensures var o := Pipeline(initialized, cfg, req, now, server, k, json);
            o.result == Err(Network(why)) && |o.sent| == 1 && o.credentials == cfg.credentials
  {
  }

  /**
   * A 401 followed by a successful refresh is retried once, with the new
   * token, and the second answer is returned when it is not a 401; a second
   * 401 is InvalidToken.
   */
  lemma RetriedOnceAfterUnauthorized(initialized: bool, cfg: Config, req: Sent, now: int, server: Server, k: nat,
                                     json: string -> Decoded<AuthResponse>, resp: Response)
    requires cfg.credentials.expiresAt >= now
    requires var first := WithToken(Prepared(req, cfg), cfg.credentials.accessToken);
             server(k, first).Answered? && server(k, first).response.status == StatusUnauthorized
    requires TokenExchange(Refresh, initialized, cfg, now, server, k + 1, json).err.None?
    requires var re := TokenExchange(Refresh, initialized, cfg, now, server, k + 1, json);
             server(k + 2, WithToken(Prepared(req, cfg), re.credentials.accessToken)) == Answered(resp)
    ensures var re := TokenExchange(Refresh, initialized, cfg, now, server, k + 1, json);
            var first := WithToken(Prepared(req, cfg), cfg.credentials.accessToken);
            var second := WithToken(Prepared(req, cfg), re.credentials.accessToken);
            var o := Pipeline(initialized, cfg, req, now, server, k, json);
            && o.result == (if resp.status == StatusUnauthorized then Err(InvalidToken) else Ok(resp))
            && o.attempts == [first, second]
            && o.sent == [first] + re.sent + [second]
            && o.credentials == re.credentials
  {
    var re := TokenExchange(Refresh, initialized, cfg, now, server, k + 1, json);
    assert |re.sent| == 1;
  }

  /** When the refresh after a 401 fails, its error is returned and nothing more is sent. */
  lemma RefreshAfterUnauthorizedFails(initialized: bool, cfg: Config, req: Sent, now: int, server: Server, k: nat,
                                      json: string -> Decoded<AuthResponse>)
    requires cfg.credentials.expiresAt >= now
    requires var first := WithToken(Prepared(req, cfg), cfg.credentials.accessToken);
             server(k, first).Answered? && server(k, first).response.status == StatusUnauthorized
    requires TokenExchange(Refresh, initialized, cfg, now, server, k + 1, json).err.Some?
    ensures var re := TokenExchange(Refresh, initialized, cfg, now, server, k + 1, json);
            var o := Pipeline(initialized, cfg, req, now, server, k, json);
            o.result == Err(re.err.value) && |o.attempts| == 1
  {
  }

  /** A zero-value client cannot send: its token is stale from the start and it may not refresh it. */
  lemma ZeroClientNotInitialized(req: Sent, now: int, server: Server, k: nat, json: string -> Decoded<AuthResponse>)
    requires now > ZeroTime
    ensures var o := Pipeline(false, ZeroConfig, req, now, server, k, json);
            o.result == Err(ClientNotInitialized) && o.sent == [] && o.credentials == ZeroConfig.credentials
  {
  }

  lemma Associative<T>(a: seq<T>, b: seq<T>, c: seq<T>)
    ensures (a + b) + c == a + (b + c)
  {
  }

  class Client {
    var config: Config
    var initialized: bool
    /** Every set of credentials handed to the callback, in order. */
    ghost var notified: seq<Credentials>

    /** `NewClient`: keep the configuration, default the base URL to the sandbox. */
    constructor (cfg: Config)
      ensures initialized && config == WithDefaultApiUrl(cfg) && notified == []
    {
      config := cfg;
      initialized := true;
      notified := [];
      new;
      if config.apiUrl == "" {
        config := config.(apiUrl := SandboxApiUrl);
      }
    }

    /** A zero-value `Client{}`, never set up by `NewClient`. */
    constructor Zero()
      ensures !initialized && config == ZeroConfig && notified == []
    {
      config := ZeroConfig;
      initialized := false;
      notified := [];
    }

    /** `injectDefaultHeaders`: a missing request is left alone. */
    method InjectDefaultHeaders(req: HttpRequest?)
      modifies req
      ensures req != null ==> req.header == DefaultHeaders(old(req.header), config)
    {
      if req == null {
        return;
      }
      req.header := req.header[Accept := JsonMediaType];
      req.header := req.header[ContentType := JsonMediaType];
      req.header := req.header[UserAgentHeader := config.applicationName + " (" + config.email + ")"];
    }

    /** `parseAuthResponse`: take the tokens of a 200, tell the callback, or map the status to an error. */
    method ParseAuthResponse(resp: Response, now: int, json: string -> Decoded<AuthResponse>) returns (err: Option<Error>)
      modifies this
      ensures var u := AfterAuthResponse(old(config), now, resp, json);
              && err == u.err
              && config == old(config).(credentials := u.credentials)
              && initialized == old(initialized)
              && notified == old(notified) + u.notified
    {
      if resp.status == StatusOK {
        var decoded := json(resp.body);
        if decoded.Malformed? {
          return Some(Json(decoded.reason));
        }
        var a := decoded.value;
        config := config.(credentials := config.credentials.(accessToken := a.accessToken));
        config := config.(credentials := config.credentials.(refreshToken := a.refreshToken));
        config := config.(credentials := config.credentials.(expiresAt := now + a.expiresIn as int));
        config := config.(credentials := config.credentials.(code := ""));
        if config.onCredentialsChanged.Some? {
          notified := notified + [config.credentials];
          err := config.onCredentialsChanged.value(config.credentials);
          if err.Some? {
            return err;
          }
        }
        return None;
      } else if resp.status == StatusUnauthorized {
        return Some(InvalidToken);
      } else {
        return Some(Unrecognized(AuthScope, resp.status, resp.body));
      }
    }

    /** The steps both grants share: check the client, post the grant, parse the answer. */
    method RequestToken(kind: GrantKind, now: int, t: Transport, json: string -> Decoded<AuthResponse>)
      returns (err: Option<Error>)
      modifies this, t
      ensures var x := TokenExchange(kind, old(initialized), old(config), now, t.server, |old(t.sent)|, json);
              && err == x.err
              && config == old(config).(credentials := x.credentials)
              && initialized == old(initialized)
              && notified == old(notified) + x.notified
              && t.sent == old(t.sent) + x.sent
    {
      if !initialized {
        return Some(ClientNotInitialized);
      }
      if Spends(kind, config.credentials) == "" {
        return Some(InvalidToken);
      }
      var req := new HttpRequest("POST", config.apiUrl + TokenPath, GrantBody(GrantRequest(kind, config)));
      InjectDefaultHeaders(req);
      var x := t.Do(req);
      match x
      case Failed(why) =>
        err := Some(Network(why));
      case Answered(resp) =>
        err := ParseAuthResponse(resp, now, json);
    }

    /** `AutenticateByCode`: exchange the pending authorization code for tokens. */
    method AutenticateByCode(now: int, t: Transport, json: string -> Decoded<AuthResponse>) returns (err: Option<Error>)
      modifies this, t
      ensures var x := TokenExchange(AuthorizationCode, old(initialized), old(config), now, t.server, |old(t.sent)|, json);
              && err == x.err
              && config == old(config).(credentials := x.credentials)
              && initialized == old(initialized)
              && notified == old(notified) + x.notified
              && t.sent == old(t.sent) + x.sent
    {
      err := RequestToken(AuthorizationCode, now, t, json);
    }

    /** `RefreshToken`: exchange the stored refresh token for new tokens. */
    method RefreshToken(now: int, t: Transport, json: string -> Decoded<AuthResponse>) returns (err: Option<Error>)
      modifies this, t
      ensures var x := TokenExchange(Refresh, old(initialized), old(config), now, t.server, |old(t.sent)|, json);
              && err == x.err
              && config == old(config).(credentials := x.credentials)
              && initialized == old(initialized)
              && notified == old(notified) + x.notified
              && t.sent == old(t.sent) + x.sent
    {
      err := RequestToken(Refresh, now, t, json);
    }

    /** `doRequest`: send `req` with a bearer token, refreshing a stale token first and retrying once after a 401. */
    method DoRequest(req: HttpRequest, now: int, t: Transport, json: string -> Decoded<AuthResponse>)
      returns (r: Result<Response>)
      modifies this, req, t
      ensures var o := Pipeline(old(initialized), old(config), old(req.Snapshot()), now, t.server, |old(t.sent)|, json);
              && r == o.result
              && config == old(config).(credentials := o.credentials)
              && initialized == old(initialized)
              && notified == old(notified) + o.notified
              && t.sent == old(t.sent) + o.sent
              && req.header == if o.attempts == [] then Prepared(old(req.Snapshot()), old(config)).header
                               else o.attempts[|o.attempts| - 1].header
    {
      ghost var prepared := Prepared(req.Snapshot(), config);
      InjectDefaultHeaders(req);
      assert req.Snapshot() == prepared;
      if config.credentials.expiresAt < now {
        r := RefreshThenSend(req, prepared, now, t, json);
      } else {
        r := SendAuthorized(req, prepared, now, t, json);
      }
    }

    /** The steps of `doRequest` for a stale token: refresh it, then send as usual. */
    method RefreshThenSend(req: HttpRequest, ghost prepared: Sent, now: int, t: Transport,
                           json: string -> Decoded<AuthResponse>) returns (r: Result<Response>)
      requires req.Snapshot() == prepared
      modifies this, req, t
      ensures var o := RefreshFirst(old(initialized), old(config), prepared, now, t.server, |old(t.sent)|, json);
              && r == o.result
              && config == old(config).(credentials := o.credentials)
              && initialized == old(initialized)
              && notified == old(notified) + o.notified
              && t.sent == old(t.sent) + o.sent
              && req.header == if o.attempts == [] then prepared.header else o.attempts[|o.attempts| - 1].header
    {
      ghost var sent0, notified0 := t.sent, notified;
      ghost var pre := TokenExchange(Refresh, initialized, config, now, t.server, |t.sent|, json);
      var e := RefreshToken(now, t, json);
      if e.Some? {
        return Err(e.value);
      }
      ghost var a := Attempt(initialized, config, prepared, now, t.server, |t.sent|, json);
      r := SendAuthorized(req, prepared, now, t, json);
      Associative(sent0, pre.sent, a.sent);
      Associative(notified0, pre.notified, a.notified);
    }

    /** The rest of `doRequest`: set the bearer token, send, and on a 401 refresh and re-send once. */
    method SendAuthorized(req: HttpRequest, ghost prepared: Sent, now: int, t: Transport,
                          json: string -> Decoded<AuthResponse>) returns (r: Result<Response>)
      requires req.Snapshot() == prepared
      modifies this, req, t
      ensures var a := Attempt(old(initialized), old(config), prepared, now, t.server, |old(t.sent)|, json);
              && r == a.result
              && config == old(config).(credentials := a.credentials)
              && initialized == old(initialized)
              && notified == old(notified) + a.notified
              && t.sent == old(t.sent) + a.sent
              && req.header == a.attempts[|a.attempts| - 1].header
    {
      ghost var sent0, notified0 := t.sent, notified;
      req.header := req.header[Authorization := Bearer(config.credentials.accessToken)];
      var x := t.Do(req);
      if x.Failed? {
        return Err(Network(x.reason));
      }
      if x.response.status != StatusUnauthorized {
        return Ok(x.response);
      }
      ghost var first := req.Snapshot();
      ghost var o := Retry(initialized, config, prepared, now, t.server, |t.sent|, json);
      r := RetryAfterUnauthorized(req, prepared, config.credentials.accessToken, now, t, json);
      Associative(sent0, [first], o.sent);
    }

    /** After a first 401: refresh, re-send with the new token, and turn a second 401 into InvalidToken. */
    method RetryAfterUnauthorized(req: HttpRequest, ghost prepared: Sent, ghost token: string, now: int, t: Transport,
                                  json: string -> Decoded<AuthResponse>) returns (r: Result<Response>)
      requires req.Snapshot() == WithToken(prepared, token)
      modifies this, req, t
      ensures var o := Retry(old(initialized), old(config), prepared, now, t.server, |old(t.sent)|, json);
              && r == o.result
              && config == old(config).(credentials := o.credentials)
              && initialized == old(initialized)
              && notified == old(notified) + o.notified
              && t.sent == old(t.sent) + o.sent
              && req.header == if o.attempts == [] then old(req.header) else o.attempts[0].header
    {
      var e := RefreshToken(now, t, json);
      if e.Some? {
        return Err(e.value);
      }
      req.header := req.header[Authorization := Bearer(config.credentials.accessToken)];
      assert req.Snapshot() == WithToken(prepared, config.credentials.accessToken);
      var x := t.Do(req);
      if x.Failed? {
        return Err(Network(x.reason));
      }
      if x.response.status == StatusUnauthorized {
        return Err(InvalidToken);
      }
      return Ok(x.response);
    }
  }
}
