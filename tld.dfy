/**
 * The link classifier `isUrl`: the regular expression
 * `/\.(com|net|io|me|crypto|ai)\b/i` applied to the scanned text.
 *
 * The expression has no `u` flag, so its case folding and its `\b` are the
 * ASCII ones: a pattern letter matches itself and its ASCII upper case, and
 * the word characters are `[A-Za-z0-9_]`.
 */
module Tld {
  import opened Wrappers
  import Url

  /** The alternatives of the group, in the order the expression tries them. */
  const Suffixes: seq<string> := ["com", "net", "io", "me", "crypto", "ai"]

  /** A character of `\w`. */
  predicate IsWordChar(c: char) {
    ('a' <= c <= 'z') || ('A' <= c <= 'Z') || ('0' <= c <= '9') || c == '_'
  }

  /** ASCII lower case; every other character is left alone. */
  function AsciiLower(c: char): char {
    if 'A' <= c <= 'Z' then (c as int + 32) as char else c
  }

  /** The lower-case word `w` occurs at position `i` of `s`, ignoring ASCII case. */
  predicate SuffixAt(s: string, i: nat, w: string) {
    i + |w| <= |s| && forall k :: 0 <= k < |w| ==> AsciiLower(s[i + k]) == w[k]
  }

  /** `\b` at position `e`, just after a word character: the text ends there
      or the next character is not a word character. */
  predicate BoundaryAt(s: string, e: nat) {
    e >= |s| || !IsWordChar(s[e])
  }

  /** Reference meaning of one match: a dot at `i`, then one of the suffixes,
      then a word boundary. */
  ghost predicate TldAt(s: string, i: int) {
    0 <= i < |s| && s[i] == '.' &&
    exists w :: w in Suffixes && SuffixAt(s, i + 1, w) && BoundaryAt(s, i + 1 + |w|)
  }

  /** Reference meaning of `regex.test(s)`: a match starts somewhere. */
  ghost predicate ContainsTld(s: string) {
    exists i :: TldAt(s, i)
  }

  /** The group of alternatives tried in order at position `i`. */
  function MatchAlternatives(s: string, i: nat, alts: seq<string>): (r: bool)
    ensures r <==> exists w :: w in alts && SuffixAt(s, i, w) && BoundaryAt(s, i + |w|)
    decreases |alts|
  {
    if alts == [] then false
    else if SuffixAt(s, i, alts[0]) && BoundaryAt(s, i + |alts[0]|) then true
    else
      var rest := MatchAlternatives(s, i, alts[1..]);
      assert forall w :: w in alts && w != alts[0] ==> w in alts[1..];
      rest
  }

  /** The search for a match, trying start positions from `from` onwards;
      the result is the first start position that matches. */
  function SearchFrom(s: string, from: nat): (r: Option<nat>)
    requires from <= |s|
    ensures r.Some? ==> from <= r.value < |s| && TldAt(s, r.value)
    ensures r.Some? ==> forall j :: from <= j < r.value ==> !TldAt(s, j)
    ensures r.None? ==> forall j :: from <= j < |s| ==> !TldAt(s, j)
    decreases |s| - from
  {
    if from == |s| then None
    else
      var here := s[from] == '.' && MatchAlternatives(s, from + 1, Suffixes);
      assert here <==> TldAt(s, from);
      if here then Some(from)
      else
        var r := SearchFrom(s, from + 1);
        assert forall j :: from <= j < from + 1 ==> !TldAt(s, j);
        r
  }

  /** `regex.test(s)`. */
  function IsUrl(s: string): (b: bool)
    ensures b <==> ContainsTld(s)
  {
    SearchFrom(s, 0).Some?
  }

  /** A text without a dot is never classified as a link. */
  lemma NoDotIsNotUrl(s: string)
    requires forall i :: 0 <= i < |s| ==> s[i] != '.'
    ensures !IsUrl(s)
  {
  }

  /** When the only dot of `s` is at `d`, the classification is decided by
      the alternatives tried right after that dot. */
  lemma SingleDotDecides(s: string, d: nat)
    requires d < |s| && s[d] == '.'
    requires forall i :: 0 <= i < |s| && i != d ==> s[i] != '.'
    ensures IsUrl(s) <==> MatchAlternatives(s, d + 1, Suffixes)
  {
    if !MatchAlternatives(s, d + 1, Suffixes) {
      assert !TldAt(s, d);
      forall i | 0 <= i < |s| ensures !TldAt(s, i) {
        if i != d {
          assert s[i] != '.';
        }
      }
    } else {
      assert TldAt(s, d);
    }
  }

  /** A match in `s` is a match in `p + s`, `|p|` positions later, and back. */
  lemma TldAtShift(p: string, s: string, i: nat)
    ensures TldAt(p + s, |p| + i) <==> TldAt(s, i)
  {
  }

  /** Putting a dot-free prefix in front of a text does not change whether it
      is classified as a link. */
  lemma DotFreePrefixKeepsIsUrl(p: string, s: string)
    requires forall i :: 0 <= i < |p| ==> p[i] != '.'
    ensures IsUrl(p + s) <==> IsUrl(s)
  {
    if ContainsTld(s) {
      var i :| TldAt(s, i);
      TldAtShift(p, s, i);
    }
    if ContainsTld(p + s) {
      var j :| TldAt(p + s, j);
      if j < |p| {
        assert false;
      }
      TldAtShift(p, s, j - |p|);
    }
  }

  /** The URL opened for a text is classified as a link exactly when the text
      itself is: the secure prefix has no dot. */
  lemma NormalizeKeepsIsUrl(s: string)
    ensures IsUrl(Url.Normalize(s)) <==> IsUrl(s)
  {
    if !Url.StartsWith(s, Url.HttpsPrefix) {
      DotFreePrefixKeepsIsUrl(Url.HttpsPrefix, s);
    }
  }

  /** A listed suffix at the end of the text is accepted. */
  lemma IsUrlAcceptsDotCom()
    ensures IsUrl("example.com")
  {
    assert SuffixAt("example.com", 8, "com");
    assert TldAt("example.com", 7);
  }

  /** The suffix is compared ignoring case. */
  lemma IsUrlAcceptsUpperCase()
    ensures IsUrl("EXAMPLE.AI")
  {
    assert SuffixAt("EXAMPLE.AI", 8, "ai");
    assert TldAt("EXAMPLE.AI", 7);
  }

  /** A suffix followed by a character that is not a word character is accepted. */
  lemma IsUrlAcceptsPath()
    ensures IsUrl("example.io/path")
  {
    assert SuffixAt("example.io/path", 8, "io");
    assert TldAt("example.io/path", 7);
  }

  /** Text without a dot is rejected. */
  lemma IsUrlRejectsPlainText()
    ensures !IsUrl("hello world")
  {
    NoDotIsNotUrl("hello world");
  }

  /** A suffix that runs on into a word character is rejected; stated for a
      text equal to the literal. */
  lemma IsUrlRejectsLongerWord(s: string)
    requires s == "x.comx"
    ensures !IsUrl(s)
  {
  }

  /** `me` is not accepted as the start of a longer word such as `media`;
      stated for a text equal to the literal. */
  lemma IsUrlRejectsMedia(s: string)
    requires s == "x.media"
    ensures !IsUrl(s)
  {
    assert AsciiLower(s[2]) == 'm' && !BoundaryAt(s, 4);
    forall w | w in Suffixes ensures !(SuffixAt(s, 2, w) && BoundaryAt(s, 2 + |w|)) {
      assert w != "me" ==> w[0] != 'm';
    }
    SingleDotDecides(s, 1);
  }
}
