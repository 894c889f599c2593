/** The scheme-prefixing half of `parse_url`. */
module UrlParser {

  const Http := "http://"
  const Https := "https://"

  predicate HasScheme(url: string) {
    Http <= url || Https <= url
  }

  /** `url if url.startswith(('http://', 'https://')) else f"https://{url}"` */
  function FullUrl(url: string): (full: string)
    ensures HasScheme(full)
    ensures |url| <= |full| && full[|full| - |url|..] == url
    ensures |full| == |url| + (if HasScheme(url) then 0 else |Https|)
    ensures full == url <==> HasScheme(url)
    ensures full != url ==> Https <= full
  {
    if HasScheme(url) then url else Https + url
  }

  /** Prefixing an already prefixed URL changes nothing. */
  lemma FullUrlIdempotent(url: string)
    ensures FullUrl(FullUrl(url)) == FullUrl(url)
  {
  }
}
