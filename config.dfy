/**
 * The client's configuration (client.go): the credentials it evolves,
 * the base URL, the application identity sent as User-Agent, and the
 * optional callback told about every new set of credentials.
 */
module ClientConfig {
  import opened Wire

  const SandboxApiUrl := "https://sandbox.melhorenvio.com.br"
  const ProductionApiUrl := "https://melhorenvio.com.br"

  /** Go's zero `time.Time` (January 1 of year 1), in seconds from the Unix epoch. */
  const ZeroTime := -62135596800

  const Accept := "Accept"
  const ContentType := "Content-Type"
  const UserAgentHeader := "User-Agent"
  const Authorization := "Authorization"
  const JsonMediaType := "application/json"

  /** Times are whole seconds from the Unix epoch. */
  datatype Credentials = Credentials(
    clientId: int32,
    clientSecret: string,
    accessToken: string,
    refreshToken: string,
    expiresAt: int,
    code: string)

  /** The callback's own outcome: None for success, or the error it reports. */
  type CredentialsChanged = Credentials -> Option<Error>

  datatype Config = Config(
    credentials: Credentials,
    apiUrl: string,
    redirectUri: string,
    applicationName: string,
    email: string,
    onCredentialsChanged: Option<CredentialsChanged>)

  /** The configuration of a zero-value `Client{}`. */
  const ZeroConfig := Config(Credentials(0, "", "", "", ZeroTime, ""), "", "", "", "", None)

  /** What `NewClient` keeps of a configuration: everything, with the sandbox URL for an empty one. */
  function WithDefaultApiUrl(cfg: Config): (c: Config)
    ensures c.apiUrl != ""
    ensures c == cfg.(apiUrl := c.apiUrl)
    ensures cfg.apiUrl == "" ==> c.apiUrl == SandboxApiUrl
    ensures cfg.apiUrl != "" ==> c.apiUrl == cfg.apiUrl
  {
    if cfg.apiUrl == "" then cfg.(apiUrl := SandboxApiUrl) else cfg
  }

  function UserAgent(cfg: Config): string {
    cfg.applicationName + " (" + cfg.email + ")"
  }

  /** The bearer credential of section 2.1 of RFC 6750. */
  function Bearer(token: string): string {
    "Bearer " + token
  }

  /**
   * A header after `injectDefaultHeaders`: Accept and Content-Type are JSON,
   * User-Agent names the application, and every other entry is kept.
   */
  function DefaultHeaders(h: map<string, string>, cfg: Config): (r: map<string, string>)
    ensures r.Keys == h.Keys + {Accept, ContentType, UserAgentHeader}
    ensures r[Accept] == JsonMediaType && r[ContentType] == JsonMediaType
    ensures r[UserAgentHeader] == cfg.applicationName + " (" + cfg.email + ")"
    ensures forall k :: k in h && k != Accept && k != ContentType && k != UserAgentHeader ==> r[k] == h[k]
  {
    h[Accept := JsonMediaType][ContentType := JsonMediaType][UserAgentHeader := UserAgent(cfg)]
  }

  /** Injecting the defaults twice is the same as injecting them once. */
  lemma DefaultHeadersIdempotent(h: map<string, string>, cfg: Config)
    ensures DefaultHeaders(DefaultHeaders(h, cfg), cfg) == DefaultHeaders(h, cfg)
  {
    var once := DefaultHeaders(h, cfg);
    var twice := DefaultHeaders(once, cfg);
    assert twice.Keys == once.Keys;
    forall k | k in once
      ensures twice[k] == once[k]
    {
    }
  }
}
