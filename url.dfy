/**
 * URL normalisation performed by the "Sí" handler of the open-link
 * confirmation: a scanned text that does not already begin with the secure
 * scheme prefix gets that prefix prepended, verbatim and case-sensitively.
 */
module Url {

  /** The prefix looked for with `startsWith` and prepended when missing. */
  const HttpsPrefix: string := "https://"

  /** JavaScript's `s.startsWith(p)`: the first |p| characters of `s` are `p`. */
  predicate StartsWith(s: string, p: string) {
    |p| <= |s| && s[..|p|] == p
  }

  /** The URL handed to the browser for the scanned text `s`. */
  function Normalize(s: string): (url: string)
    ensures StartsWith(url, HttpsPrefix)
    ensures url == s || url == HttpsPrefix + s
  {
    if StartsWith(s, HttpsPrefix) then s else HttpsPrefix + s
  }

  /** The prefix is added exactly when it is missing: the text comes back
      unchanged iff it already starts with the prefix. */
  lemma NormalizeUnchangedIff(s: string)
    ensures Normalize(s) == s <==> StartsWith(s, HttpsPrefix)
  {
  }

  /** The prefix is added at most once: normalising twice is normalising once. */
  lemma NormalizeIdempotent(s: string)
    ensures Normalize(Normalize(s)) == Normalize(s)
  {
  }

  /** The scanned text always survives, untouched, as the tail of the URL, and
      exactly |HttpsPrefix| characters are added when the prefix was missing. */
  lemma NormalizeKeepsText(s: string)
    ensures |Normalize(s)| == if StartsWith(s, HttpsPrefix) then |s| else |HttpsPrefix| + |s|
    ensures Normalize(s)[|Normalize(s)| - |s|..] == s
  {
  }

  /** Round trip: dropping the prefix from the URL of a text that lacked it
      gives the text back. */
  lemma NormalizeRoundTrip(s: string)
    requires !StartsWith(s, HttpsPrefix)
    ensures Normalize(s)[|HttpsPrefix|..] == s
  {
  }

  /** Two different scanned texts open the same URL only when one of them is
      the other, lacking the prefix, with the prefix in front. */
  lemma NormalizeSameUrl(s: string, t: string)
    ensures Normalize(s) == Normalize(t) <==>
      s == t || (s == HttpsPrefix + t && !StartsWith(t, HttpsPrefix))
             || (t == HttpsPrefix + s && !StartsWith(s, HttpsPrefix))
  {
  }

  /** A bare domain gets the prefix. */
  lemma NormalizeBareDomain()
    ensures Normalize("example.com") == "https://example.com"
  {
    assert "example.com"[..8][0] == 'e';
  }

  /** A link that already has the prefix is opened as it is. */
  lemma NormalizeSecureLink()
    ensures Normalize("https://example.com") == "https://example.com"
  {
  }

  /** The scheme test is case-sensitive and exact: upper-case and plain-http
      links are prefixed again. */
  lemma NormalizeOtherSchemes()
    ensures Normalize("HTTPS://x") == "https://HTTPS://x"
    ensures Normalize("http://x") == "https://http://x"
  {
    assert "HTTPS://x"[..8][0] == 'H';
    assert "http://x"[..8][4] == ':';
  }
}
