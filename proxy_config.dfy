/** The proxy configuration record and its three constructors. */
module ProxyConfigs {
  import opened Wrappers

  datatype ProxyConfig = ProxyConfig(
    http: Option<string>,
    https: Option<string>,
    all: Option<string>,
    noProxy: Option<seq<string>>,
    username: Option<string>,
    password: Option<string>,
    trustEnv: Option<bool>)

  /** `new`: every field is the argument given, and each argument defaults to None. */
  function New(http: Option<string> := None, https: Option<string> := None, all: Option<string> := None,
               noProxy: Option<seq<string>> := None, username: Option<string> := None,
               password: Option<string> := None, trustEnv: Option<bool> := None): (c: ProxyConfig)
    ensures c.http == http && c.https == https && c.all == all && c.noProxy == noProxy
    ensures c.username == username && c.password == password && c.trustEnv == trustEnv
  {
    ProxyConfig(http, https, all, noProxy, username, password, trustEnv)
  }

  /** `from_url`: one proxy for every scheme; no scheme proxies, no bypass
      list; credentials and trust_env passed through. */
  function FromUrl(proxyUrl: string, username: Option<string> := None, password: Option<string> := None,
                   trustEnv: Option<bool> := None): (c: ProxyConfig)
    ensures c.all == Some(proxyUrl)
    ensures c.http.None? && c.https.None? && c.noProxy.None?
    ensures c.username == username && c.password == password && c.trustEnv == trustEnv
  {
    ProxyConfig(None, None, Some(proxyUrl), None, username, password, trustEnv)
  }

  /** `from_dict`: scheme proxies only; no `all`, no bypass list; credentials
      and trust_env passed through. */
  function FromDict(http: Option<string> := None, https: Option<string> := None,
                    username: Option<string> := None, password: Option<string> := None,
                    trustEnv: Option<bool> := None): (c: ProxyConfig)
    ensures c.all.None? && c.noProxy.None?
    ensures c.http == http && c.https == https
    ensures c.username == username && c.password == password && c.trustEnv == trustEnv
  {
    ProxyConfig(http, https, None, None, username, password, trustEnv)
  }
}
