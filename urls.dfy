/**
 * The URL handling the application does itself. Parsing (`urlparse`) and
 * relative resolution (`urljoin`) belong to Python's standard library and are
 * supplied as opaque functions; only what the application compares is kept.
 */
module Urls {

  /** The two components of `urlparse(url)` the application reads. */
  datatype ParsedUrl = ParsedUrl(scheme: string, netloc: string)

  /** `urlparse` and `urljoin(base, href)`, whatever they compute. */
  datatype UrlLib = UrlLib(parse: string -> ParsedUrl, join: (string, string) -> string)

  /** Schemes that `is_valid_url` refuses even when a host is present. */
  const RejectedSchemes: seq<string> := ["mailto", "tel"]

  /** `is_valid_url(url)`: scheme and network location present, and not a mail or phone link. */
  predicate IsValidUrl(lib: UrlLib, url: string) {
    var p := lib.parse(url);
    p.scheme != "" && p.netloc != "" && p.scheme !in RejectedSchemes
  }

  /** `urlparse(url).netloc` */
  function Netloc(lib: UrlLib, url: string): string {
    lib.parse(url).netloc
  }
}
