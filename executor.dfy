/** The request executor of the `request` package: proxy selection with
    credentials injected into the `all` proxy and no bypass list, and
    single-request execution. */
module Executor {
  import opened Wrappers
  import opened Network
  import opened HttpVersionMode
  import opened ProxyConfigs
  import opened Request
  import opened Batch
  import Lib
  import Concurrency

  /** The `all` proxy URL with the configured credentials: with a username
      (and possibly a password) the URL is parsed, the credentials set and
      the URL written back; a password alone, or no credentials, leaves the
      text as given. */
  function ProxyUrl(all: string, username: Option<string>, password: Option<string>, env: Env): (r: Result<string, string>)
    ensures username.None? ==> r == Success(all)
    ensures username.Some? && env.parseUrl(all).Failure? ==> r == Failure(env.parseUrl(all).error)
    ensures username.Some? && env.parseUrl(all).Success? ==>
      var u := env.parseUrl(all).value;
      r.Success? && r.value == env.serialize(
        if password.Some? then SetPassword(SetUsername(u, username.value), password.value)
        else SetUsername(u, username.value))
  {
    match (username, password)
    case (Some(user), Some(pass)) =>
      (match env.parseUrl(all)
       case Failure(e) => Failure(e)
       case Success(u) => Success(env.serialize(SetPassword(SetUsername(u, user), pass))))
    case (Some(user), None) =>
      (match env.parseUrl(all)
       case Failure(e) => Failure(e)
       case Success(u) => Success(env.serialize(SetUsername(u, user))))
    case _ => Success(all)
  }

  /** On a URL that can carry credentials both are written in; on one that
      cannot (no host, or a `file` URL) the serialised URL carries none of
      them. */
  lemma ProxyUrlCredentials(all: string, user: string, pass: string, env: Env)
    requires env.parseUrl(all).Success?
    ensures var u := env.parseUrl(all).value;
      && (CanHaveCredentials(u) ==>
            ProxyUrl(all, Some(user), Some(pass), env) == Success(env.serialize(u.(username := user, password := pass))))
      && (!CanHaveCredentials(u) ==>
            ProxyUrl(all, Some(user), Some(pass), env) == Success(env.serialize(u)))
  {
    var u := env.parseUrl(all).value;
    if CanHaveCredentials(u) {
      assert CanHaveCredentials(SetUsername(u, user));
    }
  }

  /** The proxy decision of this executor: `all`, with credentials, wins;
      otherwise the scheme proxy. The bypass list plays no part. */
  function SelectProxy(url: string, cfg: ProxyConfig, env: Env): (r: ProxyChoice)
    ensures cfg.all.None? ==> r == SchemeProxy(url, cfg.http, cfg.https, env)
    ensures r.All? ==> cfg.all.Some? && ProxyUrl(cfg.all.value, cfg.username, cfg.password, env) == Success(r.url)
    ensures cfg.all.Some? ==> r.All? || r.ProxyError?
    ensures cfg.all.Some? && cfg.username.None? && env.proxyReject(cfg.all.value).None? ==> r == All(cfg.all.value)
  {
    match cfg.all
    case Some(all) =>
      (match ProxyUrl(all, cfg.username, cfg.password, env)
       case Failure(e) => ProxyError(e)
       case Success(p) => Checked(env, p, All(p)))
    case None => SchemeProxy(url, cfg.http, cfg.https, env)
  }

  /** With `all` set the decision does not depend on the target URL nor on
      the scheme proxies; the bypass list and `trust_env` never matter. */
  lemma SelectProxyIgnores(url: string, other: string, cfg: ProxyConfig, env: Env,
                           http: Option<string>, https: Option<string>, noProxy: Option<seq<string>>, trustEnv: Option<bool>)
    ensures SelectProxy(url, cfg.(noProxy := noProxy, trustEnv := trustEnv), env) == SelectProxy(url, cfg, env)
    ensures cfg.all.Some? ==> SelectProxy(other, cfg.(http := http, https := https), env) == SelectProxy(url, cfg, env)
  {
  }

  /** Without `all`, a target URL that does not parse is a proxy error even
      when no scheme proxy is configured. */
  lemma UnparseableTargetFails(url: string, cfg: ProxyConfig, env: Env)
    requires cfg.all.None? && env.parseUrl(url).Failure?
    ensures SelectProxy(url, cfg, env) == ProxyError(env.parseUrl(url).error)
  {
  }

  /** A `from_url` configuration sends every request, whatever its URL,
      through its proxy with the given credentials written in, or fails on
      that proxy; without credentials the proxy is the URL as given. */
  lemma FromUrlRoutesEverything(url: string, proxyUrl: string, username: Option<string>, password: Option<string>,
                                trustEnv: Option<bool>, env: Env)
    ensures var p := ProxyUrl(proxyUrl, username, password, env);
      && (p.Failure? ==> SelectProxy(url, FromUrl(proxyUrl, username, password, trustEnv), env) == ProxyError(p.error))
      && (p.Success? ==> SelectProxy(url, FromUrl(proxyUrl, username, password, trustEnv), env) == Checked(env, p.value, All(p.value)))
    ensures env.proxyReject(proxyUrl).None? ==> SelectProxy(url, FromUrl(proxyUrl), env) == All(proxyUrl)
    ensures env.proxyReject(proxyUrl).Some? ==>
      SelectProxy(url, FromUrl(proxyUrl), env) == ProxyError(env.proxyReject(proxyUrl).value)
  {
  }

  /** A `from_dict` configuration chooses by the target's scheme. */
  lemma FromDictByScheme(url: string, http: Option<string>, https: Option<string>, env: Env)
    ensures SelectProxy(url, FromDict(http, https), env) == SchemeProxy(url, http, https, env)
  {
  }

  /** Where the two executors differ: a bypass list of "*" turns the proxy
      off at the top level but is ignored here. */
  lemma BypassListDivergence(url: string, p: string, env: Env)
    requires env.parseUrl(url).Success? && env.parseUrl(url).value.host.Some?
    requires env.proxyReject(p).None?
    ensures Lib.SelectProxy(url, Lib.ProxyConfig(None, None, Some(p), Some(["*"])), env) == NoProxy
    ensures SelectProxy(url, ProxyConfigs.New(all := Some(p), noProxy := Some(["*"])), env) == All(p)
  {
    Lib.EmptyPatternBypassesAll(url, ["*"], env);
  }

  /** `create_client_with_proxy` of this executor. */
  method CreateClientWithProxy(url: string, cfg: ProxyConfig, version: HttpVersion, env: Env)
    returns (r: Result<ClientBuilder, string>)
    ensures SelectProxy(url, cfg, env).ProxyError? ==> r == Failure(SelectProxy(url, cfg, env).reason)
    ensures !SelectProxy(url, cfg, env).ProxyError? ==> r == Success(ProxiedBuilder(version, SelectProxy(url, cfg, env)))
  {
    var builder := BaseBuilder();
    builder := ApplyToBuilder(version, builder);
    assert builder.proxies == [];
    assert forall c :: ProxiedBuilder(version, c) == builder.(proxies := builder.proxies + Routes(c));
    if cfg.all.Some? {
      var proxyUrl := ProxyUrl(cfg.all.value, cfg.username, cfg.password, env);
      match proxyUrl {
        case Failure(e) =>
          r := Failure(e);
        case Success(p) =>
          r := Attach(builder, AllRoute(p), env);
      }
    } else {
      r := AttachSchemeProxy(builder, url, cfg.http, cfg.https, env);
    }
  }

  /** `execute_single_request` of this executor: as at the top level, with
      this executor's proxy decision. */
  method ExecuteSingleRequest(req: RequestItem<ProxyConfig>, baseClient: Option<ClientId>, globalProxy: Option<ProxyConfig>,
                              env: Env, outcome: Outcome, timing: Timing)
    returns (result: Record, sent: Option<Attempt>)
    ensures result.Keys == RecordKeys
    ensures var cfg := EffectiveProxy(req.proxy, globalProxy);
      cfg.Some? && SelectProxy(req.url, cfg.value, env).ProxyError? ==>
        result == ProxyErrorRecord(SelectProxy(req.url, cfg.value, env).reason, req.tag) && sent.None?
    ensures var cfg := EffectiveProxy(req.proxy, globalProxy);
      !(cfg.Some? && SelectProxy(req.url, cfg.value, env).ProxyError?) ==>
        && result == AttemptRecord(req.tag, EffectiveTimeoutMs(req.timeoutMs), outcome, timing)
        && sent.Some? && sent.value.request == Prepare(req, env)
        && sent.value.client == (if cfg.Some? then Fresh(ProxiedBuilder(req.httpVersion.GetOr(Auto), SelectProxy(req.url, cfg.value, env)))
                                 else if baseClient.Some? then Base(baseClient.value) else GlobalClient)
  {
    var version := req.httpVersion.GetOr(Auto);
    var cfg := EffectiveProxy(req.proxy, globalProxy);
    var selection: Option<Result<ClientBuilder, string>> := None;
    if cfg.Some? {
      var built := CreateClientWithProxy(req.url, cfg.value, version, env);
      selection := Some(built);
    }
    result, sent := Dispatch(req, selection, baseClient, env, outcome, timing);
  }

  // ------------------------------------------------------------- batches

  const DefaultBatchMs: nat := 30000

  /** The batch part of `fetch_requests`: the duration defaults to 30 s and
      the mode to the concurrent one; both modes give the same results. Every
      result has a response entry exactly when its request finished in time,
      so a late request leaves a result without one. */
  method FetchRequests(runs: seq<Run>, totalTimeoutMs: Option<nat>, mode: Option<Concurrency.ConcurrencyMode>)
    returns (results: seq<Record>)
    ensures results == Concurrency.ExecuteWithSelectAll(runs, totalTimeoutMs.GetOr(DefaultBatchMs))
    ensures (forall i :: 0 <= i < |runs| ==> runs[i].record.Keys == RecordKeys) ==>
      forall i :: 0 <= i < |results| ==> ("response" in results[i] <==> InTime(runs[i], totalTimeoutMs.GetOr(DefaultBatchMs)))
  {
    var totalMs := totalTimeoutMs.GetOr(DefaultBatchMs);
    match mode.GetOr(Concurrency.SelectAll) {
      case SelectAll =>
        results := Concurrency.ExecuteWithSelectAll(runs, totalMs);
      case JoinAll =>
        var elapsedMs;
        results, elapsedMs := Concurrency.ExecuteWithJoinAll(runs, totalMs);
    }
  }
}
