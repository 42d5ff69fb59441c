/** What the proxy decision needs from the outside world: a parsed URL, the
    given parsers and checkers, and the client builder the decision fills in. */
module Network {
  import opened Wrappers

  /** A parsed URL: `host == None` when the URL has no host; an empty
      `username`/`password` means the URL carries none. `rest` stands for
      port, path, query and fragment. */
  datatype Url = Url(scheme: string, username: string, password: string, host: Option<string>, rest: string)

  /** The functions the decision layer takes as given: `parseUrl` is
      `Url::parse` (with its error text), `proxyReject` says why reqwest's
      `Proxy::all/http/https` would refuse a proxy URL (None: accepted),
      `serialize` is `Url::to_string`, `headerName` is
      `HeaderName::from_bytes` (the normalised name) and `headerValueOk` is
      `HeaderValue::from_str` succeeding. */
  datatype Env = Env(
    parseUrl: string -> Result<Url, string>,
    proxyReject: string -> Option<string>,
    serialize: Url -> string,
    headerName: string -> Option<string>,
    headerValueOk: string -> bool)

  /** One proxy handed to the client builder. */
  datatype ProxyRoute = AllRoute(url: string) | HttpRoute(url: string) | HttpsRoute(url: string)

  /** The outcome of a proxy decision. */
  datatype ProxyChoice =
    | NoProxy
    | All(url: string)
    | Http(url: string)
    | Https(url: string)
    | ProxyError(reason: string)

  /** The client-builder settings the model tracks. */
  datatype ClientBuilder = ClientBuilder(
    timeoutMs: nat,
    gzip: bool,
    brotli: bool,
    deflate: bool,
    userAgent: string,
    http1Only: bool,
    http2PriorKnowledge: bool,
    proxies: seq<ProxyRoute>)

  const UserAgent: string := "Rust/1.88.0 (6b00bc388) reqwest/0.11.27"

  /** The builder every proxied client starts from: a 30 s timeout, gzip,
      brotli and deflate on, the fixed user agent, default protocol
      negotiation and no proxy. */
  function BaseBuilder(): (b: ClientBuilder)
    ensures b.timeoutMs == 30000 && b.gzip && b.brotli && b.deflate && b.userAgent == UserAgent
    ensures !b.http1Only && !b.http2PriorKnowledge && b.proxies == []
  {
    ClientBuilder(30000, true, true, true, UserAgent, false, false, [])
  }

  /** The proxies a successful choice attaches to the builder. */
  function Routes(c: ProxyChoice): seq<ProxyRoute> {
    match c
    case All(u) => [AllRoute(u)]
    case Http(u) => [HttpRoute(u)]
    case Https(u) => [HttpsRoute(u)]
    case _ => []
  }

  /** `Proxy::all/http/https(candidate)?`: the choice, or an error when the
      proxy URL is refused. */
  function Checked(env: Env, candidate: string, choice: ProxyChoice): (r: ProxyChoice)
    ensures env.proxyReject(candidate).Some? ==> r == ProxyError(env.proxyReject(candidate).value)
    ensures env.proxyReject(candidate).None? ==> r == choice
  {
    match env.proxyReject(candidate)
    case Some(reason) => ProxyError(reason)
    case None => choice
  }

  /** The scheme-specific rule used when no `all` proxy is set: the target URL
      must parse; an http URL takes the `http` proxy, an https URL the `https`
      proxy, and any other scheme, or a missing proxy, gets none. */
  function SchemeProxy(url: string, http: Option<string>, https: Option<string>, env: Env): (r: ProxyChoice)
    ensures env.parseUrl(url).Failure? ==> r == ProxyError(env.parseUrl(url).error)
    ensures env.parseUrl(url).Success? ==>
      var scheme := env.parseUrl(url).value.scheme;
      && (scheme == "http" && http.Some? ==> r == Checked(env, http.value, Http(http.value)))
      && (scheme == "https" && https.Some? ==> r == Checked(env, https.value, Https(https.value)))
      && (scheme == "http" && http.None? ==> r == NoProxy)
      && (scheme == "https" && https.None? ==> r == NoProxy)
      && (scheme != "http" && scheme != "https" ==> r == NoProxy)
  {
    match env.parseUrl(url)
    case Failure(e) => ProxyError(e)
    case Success(u) =>
      if u.scheme == "http" then
        (match http case Some(p) => Checked(env, p, Http(p)) case None => NoProxy)
      else if u.scheme == "https" then
        (match https case Some(p) => Checked(env, p, Https(p)) case None => NoProxy)
      else NoProxy
  }

  /** `set_username` and `set_password` succeed only on a URL with a non-empty
      host whose scheme is not "file"; otherwise they leave it unchanged. */
  predicate CanHaveCredentials(u: Url) {
    u.host.Some? && u.host.value != "" && u.scheme != "file"
  }

  function SetUsername(u: Url, user: string): (r: Url)
    ensures CanHaveCredentials(u) ==> r == u.(username := user)
    ensures !CanHaveCredentials(u) ==> r == u
  {
    if CanHaveCredentials(u) then u.(username := user) else u
  }

  function SetPassword(u: Url, pass: string): (r: Url)
    ensures CanHaveCredentials(u) ==> r == u.(password := pass)
    ensures !CanHaveCredentials(u) ==> r == u
  {
    if CanHaveCredentials(u) then u.(password := pass) else u
  }
}
