/** The part of Go's `*url.URL` that the proxy code reads: the scheme
    (`URL.Scheme`) and the host with its port (`URL.Host`, "1.2.3.4:8080"). */
module Urls {
  import opened Results

  datatype Url = Url(scheme: string, host: string)

  /** `URL.String()` of a URL that has only a scheme and a host. */
  function Spelling(u: Url): string {
    u.scheme + "://" + u.host
  }

  /** Go's `url.Parse` is not part of this model; code that parses a URL
      receives the parser as a parameter. */
  type Parser = string -> Option<Url>
}
