/** Package `prox`'s own proxy record (proxy.go). */
module Proxies {
  import opened Urls
  import Providers

  /** `prox.Proxy` without its unexported HTTP-client cache. */
  datatype Proxy = Proxy(url: Url, provider: string, country: string)

  /** `CastProxy`: copies URL, provider and country and drops `Used`. */
  function CastProxy(p: Providers.Proxy): (r: Proxy)
    ensures r.url == p.url && r.provider == p.provider && r.country == p.country
  {
    Proxy(p.url, p.provider, p.country)
  }
}
