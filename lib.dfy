/** The request pipeline of the extension module's top level: the bypass
    list, the proxied client, single-request execution and the two batch
    modes with their global-timeout record. */
module Lib {
  import opened Wrappers
  import opened Text
  import opened Json
  import opened Network
  import opened HttpVersionMode
  import opened Request
  import opened Batch

  /** The top-level proxy configuration: per-scheme proxies, one proxy for
      every scheme, and a bypass list. */
  datatype ProxyConfig = ProxyConfig(
    http: Option<string>,
    https: Option<string>,
    all: Option<string>,
    noProxy: Option<seq<string>>)

  /** `ProxyConfig.new`: every field as given. */
  function NewProxyConfig(http: Option<string>, https: Option<string>, all: Option<string>,
                          noProxy: Option<seq<string>>): (c: ProxyConfig)
    ensures c.http == http && c.https == https && c.all == all && c.noProxy == noProxy
  {
    ProxyConfig(http, https, all, noProxy)
  }

  /** `ProxyConfig.from_url`: one proxy for every scheme, no bypass list. */
  function ProxyConfigFromUrl(proxyUrl: string): (c: ProxyConfig)
    ensures c.all == Some(proxyUrl) && c.http.None? && c.https.None? && c.noProxy.None?
  {
    ProxyConfig(None, None, Some(proxyUrl), None)
  }

  /** `ProxyConfig.from_dict`: scheme proxies only, no bypass list. */
  function ProxyConfigFromDict(http: Option<string>, https: Option<string>): (c: ProxyConfig)
    ensures c.http == http && c.https == https && c.all.None? && c.noProxy.None?
  {
    ProxyConfig(http, https, None, None)
  }

  // ---------------------------------------------------------------- bypass

  /** A bypass pattern matches a host when it is "*" or a substring of it. */
  predicate Bypasses(host: string, pattern: string) {
    Contains(host, pattern) || pattern == "*"
  }

  function AnyPatternMatches(host: string, patterns: seq<string>): bool {
    patterns != [] && (Bypasses(host, patterns[0]) || AnyPatternMatches(host, patterns[1..]))
  }

  lemma {:induction false} AnyPatternMatchesIff(host: string, patterns: seq<string>)
    ensures AnyPatternMatches(host, patterns) <==> exists i :: 0 <= i < |patterns| && Bypasses(host, patterns[i])
  {
    if patterns != [] {
      AnyPatternMatchesIff(host, patterns[1..]);
      if exists i :: 0 <= i < |patterns| && Bypasses(host, patterns[i]) {
        var i :| 0 <= i < |patterns| && Bypasses(host, patterns[i]);
        if i > 0 {
          assert Bypasses(host, patterns[1..][i - 1]);
        }
      }
      if AnyPatternMatches(host, patterns[1..]) {
        var i :| 0 <= i < |patterns[1..]| && Bypasses(host, patterns[1..][i]);
        assert Bypasses(host, patterns[i + 1]);
      }
    }
  }

  /** `should_use_proxy`: the proxy is skipped only when there is a bypass
      list, the URL parses, it has a host, and some pattern matches that
      host; in every other case the proxy is used. */
  function ShouldUseProxy(url: string, noProxy: Option<seq<string>>, env: Env): (r: bool)
    ensures noProxy.None? ==> r
    ensures env.parseUrl(url).Failure? ==> r
    ensures env.parseUrl(url).Success? && env.parseUrl(url).value.host.None? ==> r
    ensures noProxy.Some? && env.parseUrl(url).Success? && env.parseUrl(url).value.host.Some? ==>
      (!r <==> exists i :: 0 <= i < |noProxy.value|
                 && (Contains(env.parseUrl(url).value.host.value, noProxy.value[i]) || noProxy.value[i] == "*"))
  {
    match noProxy
    case None => true
    case Some(patterns) =>
      match env.parseUrl(url)
      case Failure(_) => true
      case Success(u) =>
        match u.host
        case None => true
        case Some(host) =>
          AnyPatternMatchesIff(host, patterns);
          !AnyPatternMatches(host, patterns)
  }

  /** An empty pattern is a substring of every host, so it bypasses every URL
      that has one, as "*" does. */
  lemma EmptyPatternBypassesAll(url: string, patterns: seq<string>, env: Env)
    requires "" in patterns || "*" in patterns
    requires env.parseUrl(url).Success? && env.parseUrl(url).value.host.Some?
    ensures !ShouldUseProxy(url, Some(patterns), env)
  {
    var i :| 0 <= i < |patterns| && (patterns[i] == "" || patterns[i] == "*");
    EmptyPatternContained(env.parseUrl(url).value.host.value);
    assert Bypasses(env.parseUrl(url).value.host.value, patterns[i]);
  }

  // ----------------------------------------------------------------- proxy

  /** The proxy decision of `create_client_with_proxy`: a bypassed URL gets no
      proxy; otherwise `all` wins; otherwise the scheme proxy. */
  function SelectProxy(url: string, cfg: ProxyConfig, env: Env): (r: ProxyChoice)
    ensures !ShouldUseProxy(url, cfg.noProxy, env) ==> r == NoProxy
    ensures r.All? ==> cfg.all == Some(r.url)
    ensures r.Http? ==> cfg.all.None? && cfg.http == Some(r.url)
    ensures r.Https? ==> cfg.all.None? && cfg.https == Some(r.url)
    ensures ShouldUseProxy(url, cfg.noProxy, env) && cfg.all.Some? ==> r.All? || r.ProxyError?
    ensures ShouldUseProxy(url, cfg.noProxy, env) && cfg.all.None? ==> r == SchemeProxy(url, cfg.http, cfg.https, env)
  {
    if !ShouldUseProxy(url, cfg.noProxy, env) then NoProxy
    else if cfg.all.Some? then Checked(env, cfg.all.value, All(cfg.all.value))
    else SchemeProxy(url, cfg.http, cfg.https, env)
  }

  /** The decision fails exactly when the URL is not bypassed and either the
      `all` proxy is refused, or there is no `all` and the target URL does
      not parse or its scheme proxy is refused. A bypassed URL never fails,
      whatever its proxies. */
  lemma SelectProxyErrors(url: string, cfg: ProxyConfig, env: Env)
    ensures SelectProxy(url, cfg, env).ProxyError? <==>
      && ShouldUseProxy(url, cfg.noProxy, env)
      && (if cfg.all.Some? then env.proxyReject(cfg.all.value).Some?
          else env.parseUrl(url).Failure?
               || (env.parseUrl(url).value.scheme == "http" && cfg.http.Some? && env.proxyReject(cfg.http.value).Some?)
               || (env.parseUrl(url).value.scheme == "https" && cfg.https.Some? && env.proxyReject(cfg.https.value).Some?))
  {
  }

  /** At most one proxy is attached, and it is the `all` proxy whenever `all`
      is set; a scheme proxy only serves its own scheme. */
  lemma SelectProxyRoutes(url: string, cfg: ProxyConfig, env: Env)
    ensures |Routes(SelectProxy(url, cfg, env))| <= 1
    ensures !ShouldUseProxy(url, cfg.noProxy, env) ==> SelectProxy(url, cfg, env) == NoProxy
    ensures cfg.all.Some? && ShouldUseProxy(url, cfg.noProxy, env) && env.proxyReject(cfg.all.value).None? ==>
      Routes(SelectProxy(url, cfg, env)) == [AllRoute(cfg.all.value)]
    ensures SelectProxy(url, cfg, env).Http? ==>
      cfg.all.None? && env.parseUrl(url).Success? && env.parseUrl(url).value.scheme == "http"
      && SelectProxy(url, cfg, env).url == cfg.http.value
    ensures SelectProxy(url, cfg, env).Https? ==>
      cfg.all.None? && env.parseUrl(url).Success? && env.parseUrl(url).value.scheme == "https"
      && SelectProxy(url, cfg, env).url == cfg.https.value
  {
  }

  /** `create_client_with_proxy`: the base builder, the version flags, then
      the proxy, or the reason the proxy or the target URL was refused. */
  method CreateClientWithProxy(url: string, cfg: ProxyConfig, version: HttpVersion, env: Env)
    returns (r: Result<ClientBuilder, string>)
    ensures SelectProxy(url, cfg, env).ProxyError? ==> r == Failure(SelectProxy(url, cfg, env).reason)
    ensures !SelectProxy(url, cfg, env).ProxyError? ==> r == Success(ProxiedBuilder(version, SelectProxy(url, cfg, env)))
  {
    var builder := BaseBuilder();
    builder := ApplyToBuilder(version, builder);
    assert builder.proxies == [];
    assert forall c :: ProxiedBuilder(version, c) == builder.(proxies := builder.proxies + Routes(c));
    r := Success(builder);
    if ShouldUseProxy(url, cfg.noProxy, env) {
      if cfg.all.Some? {
        r := Attach(builder, AllRoute(cfg.all.value), env);
      } else {
        r := AttachSchemeProxy(builder, url, cfg.http, cfg.https, env);
      }
    }
  }

  /** `execute_single_request`: a refused proxy yields the proxy-error record
      and sends nothing; otherwise the request goes out on the proxied client,
      else the base client, else the global client, and the record reflects
      the outcome. */
  method ExecuteSingleRequest(req: RequestItem<ProxyConfig>, baseClient: Option<ClientId>, globalProxy: Option<ProxyConfig>,
                              env: Env, outcome: Outcome, timing: Timing)
    returns (result: Record, sent: Option<Attempt>)
    ensures result.Keys == RecordKeys
    ensures var cfg := EffectiveProxy(req.proxy, globalProxy);
      cfg.Some? && SelectProxy(req.url, cfg.value, env).ProxyError? ==>
        result == ProxyErrorRecord(SelectProxy(req.url, cfg.value, env).reason, req.tag) && sent.None?
    ensures var cfg := EffectiveProxy(req.proxy, globalProxy);
      !(cfg.Some? && SelectProxy(req.url, cfg.value, env).ProxyError?) ==>
        && result == AttemptRecord(req.tag, EffectiveTimeoutMs(req.timeoutMs), outcome, timing)
        && sent.Some? && sent.value.request == Prepare(req, env)
        && sent.value.client == (if cfg.Some? then Fresh(ProxiedBuilder(req.httpVersion.GetOr(Auto), SelectProxy(req.url, cfg.value, env)))
                                 else if baseClient.Some? then Base(baseClient.value) else GlobalClient)
  {
    var version := req.httpVersion.GetOr(Auto);
    var cfg := EffectiveProxy(req.proxy, globalProxy);
    var selection: Option<Result<ClientBuilder, string>> := None;
    if cfg.Some? {
      var built := CreateClientWithProxy(req.url, cfg.value, version, env);
      selection := Some(built);
    }
    result, sent := Dispatch(req, selection, baseClient, env, outcome, timing);
  }

  // ------------------------------------------------------------- batches

  function TimeoutMeta(tag: Option<string>): Json {
    MetaJson(tag, "", "0.0000")
  }

  /** `create_global_timeout_result`: status "0", an empty response, a
      GlobalTimeout exception, and meta with no times and the request's tag. */
  function GlobalTimeoutRecord(tag: Option<string>): (r: Record)
    ensures r.Keys == RecordKeys
    ensures r["http_status"] == Plain("0") && r["response"] == EmptyResponse
    ensures r["exception"] == JsonCell(ErrorJson("GlobalTimeout", "Request timed out due to global timeout"))
    ensures r["meta"] == JsonCell(MetaJson(tag, "", "0.0000"))
    ensures MetaTag(r["meta"]) == (match tag case Some(t) => Some(String(t)) case None => None)
  {
    MetaTagOf(tag, "", "0.0000");
    map["http_status" := Plain("0"),
        "response" := EmptyResponse,
        "exception" := JsonCell(ErrorJson("GlobalTimeout", "Request timed out due to global timeout")),
        "meta" := JsonCell(TimeoutMeta(tag))]
  }

  /** The record the batch modes build inline for a missed deadline: the
      global-timeout record without a tag. */
  const DeadlineRecord: Record := map["http_status" := Plain("0"),
                                      "response" := EmptyResponse,
                                      "exception" := JsonCell(ErrorJson("GlobalTimeout", "Request timed out due to global timeout")),
                                      "meta" := JsonCell(TimeoutMeta(None))]

  /** The inline record is the global-timeout record of an untagged request,
      and differs from that of a tagged one: a missed deadline loses the tag. */
  lemma DeadlineRecordLosesTag(tag: Option<string>)
    ensures DeadlineRecord == GlobalTimeoutRecord(None)
    ensures tag.Some? ==> DeadlineRecord != GlobalTimeoutRecord(tag)
  {
    assert DeadlineRecord == GlobalTimeoutRecord(None);
    if tag.Some? {
      assert MetaTag(GlobalTimeoutRecord(tag)["meta"]) != MetaTag(DeadlineRecord["meta"]);
    }
  }

  /** `execute_with_select_all`: all requests run at once under the batch
      duration; one result per request, in order, a request past the deadline
      getting the deadline record; the batch ends by the deadline. */
  function ExecuteWithSelectAll(runs: seq<Run>, totalMs: nat): (r: seq<Record>)
    ensures |r| == |runs|
    ensures forall i :: 0 <= i < |runs| ==>
      (InTime(runs[i], totalMs) ==> r[i] == runs[i].record) && (!InTime(runs[i], totalMs) ==> r[i] == DeadlineRecord)
    ensures (forall i :: 0 <= i < |runs| ==> runs[i].record.Keys == RecordKeys) ==>
      forall i :: 0 <= i < |r| ==> r[i].Keys == RecordKeys
  {
    CollectAll(runs, totalMs, DeadlineRecord)
  }

  /** `execute_with_join_all`: the requests run one after another, each under
      its own deadline of the batch duration; the results are those of the
      concurrent mode, every one of them a complete record, and the elapsed
      time is the sum of the per-request times, at most one batch duration
      per request. */
  method ExecuteWithJoinAll(runs: seq<Run>, totalMs: nat) returns (results: seq<Record>, elapsedMs: nat)
    ensures results == ExecuteWithSelectAll(runs, totalMs)
    ensures elapsedMs == SequentialElapsed(runs, totalMs) && elapsedMs <= |runs| * totalMs
    ensures (forall i :: 0 <= i < |runs| ==> runs[i].record.Keys == RecordKeys) ==>
      forall i :: 0 <= i < |results| ==> results[i].Keys == RecordKeys
  {
    results, elapsedMs := RunInSequence(runs, totalMs, DeadlineRecord);
    SequentialElapsedBound(runs, totalMs);
  }
}
