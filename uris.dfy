/**
  A stand-in for System.Uri: the absolute form `scheme ":" rest`, where the scheme
  follows the grammar of section 3.1 of RFC 3986. Parsing is partial, printing is total,
  and the two are inverse on well-formed values.
*/
module Uris {
  import opened Wrappers

  datatype Uri = Uri(scheme: string, rest: string)

  predicate IsSchemeStart(c: char) {
    'a' <= c <= 'z' || 'A' <= c <= 'Z'
  }

  predicate IsSchemeChar(c: char) {
    IsSchemeStart(c) || '0' <= c <= '9' || c == '+' || c == '-' || c == '.'
  }

  /** scheme = ALPHA *( ALPHA / DIGIT / "+" / "-" / "." ) */
  predicate ValidScheme(s: string) {
    |s| > 0 && IsSchemeStart(s[0]) && forall i :: 0 < i < |s| ==> IsSchemeChar(s[i])
  }

  predicate WellFormed(u: Uri) {
    ValidScheme(u.scheme)
  }

  /** The text `Uri.ToString()` gives back. */
  function UriText(u: Uri): string {
    u.scheme + ":" + u.rest
  }

  /** The position of the first ':' at or after `from`, if any. */
  function ColonIndex(s: string, from: nat): (r: Option<nat>)
    requires from <= |s|
    ensures r.Some? ==> from <= r.value < |s| && s[r.value] == ':'
    ensures r.Some? ==> forall j :: from <= j < r.value ==> s[j] != ':'
    ensures r.None? ==> forall j :: from <= j < |s| ==> s[j] != ':'
    decreases |s| - from
  {
    if from == |s| then None
    else if s[from] == ':' then Some(from)
    else ColonIndex(s, from + 1)
  }

  /** `new Uri(text)`: None stands for the UriFormatException it throws. */
  function ParseUri(s: string): (r: Option<Uri>)
    ensures r.Some? ==> WellFormed(r.value) && UriText(r.value) == s
  {
    match ColonIndex(s, 0)
    case None => None
    case Some(i) =>
      if ValidScheme(s[..i]) then
        assert s[..i] + ":" + s[i + 1..] == s by {
          assert s == s[..i] + [s[i]] + s[i + 1..];
        }
        Some(Uri(s[..i], s[i + 1..]))
      else None
  }

  /** Printing a well-formed URI and parsing the text gives the same URI back. */
  lemma {:induction false} UriRoundTrip(u: Uri)
    requires WellFormed(u)
    ensures ParseUri(UriText(u)) == Some(u)
  {
    var s := UriText(u);
    var n := |u.scheme|;
    assert s[n] == ':';
    forall j | 0 <= j < n ensures s[j] != ':' {
      assert s[j] == u.scheme[j];
      assert IsSchemeChar(u.scheme[j]);
    }
    assert ColonIndex(s, 0) == Some(n);
    assert s[..n] == u.scheme;
    assert s[n + 1..] == u.rest;
  }

  /** A text is rejected exactly when no well-formed URI prints as it. */
  lemma {:induction false} ParseUriRejectsOnlyNonUris(s: string)
    ensures ParseUri(s).None? <==> forall u :: WellFormed(u) ==> UriText(u) != s
  {
    if ParseUri(s).None? {
      forall u | WellFormed(u) ensures UriText(u) != s {
        UriRoundTrip(u);
      }
    }
  }
}
