/** Proxy resolution of the enhanced service (app.py, get_proxy_config). */
module Proxy {
  import opened Optional

  /** The two process environment variables read on every resolution; None when a variable is unset. */
  datatype Environment = Environment(httpProxy: Option<string>, httpsProxy: Option<string>)

  /** The transcript library's GenericProxyConfig: two endpoint strings, not validated here. */
  datatype ProxyConfig = ProxyConfig(httpUrl: string, httpsUrl: string)

  /** A variable that is unset or set to the empty string: both read as '' and are falsy. */
  predicate Blank(v: Option<string>) {
    v == None || v == Some("")
  }

  /** A proxy configuration exists exactly when at least one of the two variables is non-empty;
      it then carries both values verbatim, an unset one as the empty string. */
  function GetProxyConfig(env: Environment): (r: Option<ProxyConfig>)
    ensures r.None? <==> Blank(env.httpProxy) && Blank(env.httpsProxy)
    ensures r.Some? ==> r.value.httpUrl != "" || r.value.httpsUrl != ""
    ensures r.Some? && env.httpProxy.Some? ==> r.value.httpUrl == env.httpProxy.value
    ensures r.Some? && env.httpsProxy.Some? ==> r.value.httpsUrl == env.httpsProxy.value
    ensures r.Some? && env.httpProxy.None? ==> r.value.httpUrl == ""
    ensures r.Some? && env.httpsProxy.None? ==> r.value.httpsUrl == ""
  {
    var http := ValueOr(env.httpProxy, "");
    var https := ValueOr(env.httpsProxy, "");
    if http != "" || https != "" then Some(ProxyConfig(http, https)) else None
  }

  /** Only one variable set: the configuration still carries the other one, as the empty string. */
  lemma OneSidedProxy(http: string)
    requires http != ""
    ensures GetProxyConfig(Environment(Some(http), None)) == Some(ProxyConfig(http, ""))
    ensures GetProxyConfig(Environment(None, Some(http))) == Some(ProxyConfig("", http))
  {
  }
}
