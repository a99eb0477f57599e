/**
 * The proxy auto-configuration installed for a measurement pass
 * (`getDirectPAC` in background.js): the page's own host goes through the
 * configured proxy, every other host is reached directly.
 */
module Pac {
  import opened Common
  import Url

  /** What the generated script decides, before it is rendered as text. */
  datatype PacRule = DirectOnly | ProxyHost(host: string, proxy: string)

  /** The value given to `chrome.proxy.settings.set`. */
  datatype ProxySettings = SystemMode | PacScript(rule: PacRule)

  /** `getDirectPAC(pageUrl)` with `currentConfig.proxyString` passed in as `proxy`. */
  function GetDirectPAC(pageUrl: string, proxy: string): (r: ProxySettings)
    ensures r.PacScript?
    ensures r.rule.DirectOnly? <==> (Url.HostOf(pageUrl) == None || Url.HostOf(pageUrl) == Some(""))
    ensures r.rule.ProxyHost? ==> Url.HostOf(pageUrl) == Some(r.rule.host) && r.rule.proxy == proxy
  {
    var host := Url.HostOf(pageUrl).GetOr("");
    if host == "" then PacScript(DirectOnly) else PacScript(ProxyHost(host, proxy))
  }

  /** The answer `FindProxyForURL(url, host)` of the generated script. */
  function FindProxyForURL(rule: PacRule, host: string): string {
    match rule
    case DirectOnly => "DIRECT"
    case ProxyHost(h, proxy) => if host == h then "PROXY " + proxy + "; DIRECT" else "DIRECT"
  }

  /**
   * During a pass exactly the page's own host is sent through the proxy
   * (with a direct fallback); every other host, and every host when the
   * page URL has no host, goes direct.
   */
  lemma OnlyPageHostIsProxied(pageUrl: string, proxy: string, host: string)
    ensures FindProxyForURL(GetDirectPAC(pageUrl, proxy).rule, host) ==
      if Url.HostOf(pageUrl) == Some(host) && host != "" then "PROXY " + proxy + "; DIRECT" else "DIRECT"
  {
  }

  /** A page URL that passes the http(s) test and has a host always gets the proxy rule. */
  lemma HttpPageGetsProxyRule(pageUrl: string, proxy: string)
    requires Url.IsHttpUrl(pageUrl) && Url.HostOf(pageUrl).Some?
    ensures GetDirectPAC(pageUrl, proxy).rule == ProxyHost(Url.HostOf(pageUrl).value, proxy)
  {
    Url.HttpHostNonEmpty(pageUrl);
  }
}
