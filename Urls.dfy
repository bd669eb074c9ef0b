// URLs as the core uses them (the fields of Go's url.URL it reads or sets),
// and util/url_eq.go with its unexported copy ap/url_eq.go: equality on
// scheme, host and path, and the two membership searches built on it. A nil
// *url.URL is None.

module Urls {
  import opened Common

  datatype Url = Url(scheme: string, user: string, host: string, path: string, rawQuery: string, fragment: string)

  /** A URL with only scheme, host and path set. */
  function MakeUrl(scheme: string, host: string, path: string): (u: Url)
    ensures u.scheme == scheme && u.host == host && u.path == path
    ensures u.user == "" && u.rawQuery == "" && u.fragment == ""
  {
    Url(scheme, "", host, path, "", "")
  }

  /** u.String() for a URL without user info, query or fragment; no escaping is modelled. */
  function String(u: Url): string
  {
    u.scheme + "://" + u.host + u.path
  }

  /** UrlEq(a, b) (and urlEq): both nil, or both set with equal scheme, host and path. */
  predicate UrlEq(a: Option<Url>, b: Option<Url>)
  {
    if a.None? && b.None? then true
    else if a.None? && b.Some? then false
    else if a.Some? && b.None? then false
    else a.value.scheme == b.value.scheme && a.value.host == b.value.host && a.value.path == b.value.path
  }

  /** The parts UrlEq compares. */
  function Key(a: Option<Url>): Option<(string, string, string)>
  {
    match a
    case None => None
    case Some(u) => Some((u.scheme, u.host, u.path))
  }

  /** UrlEq is equality of the compared parts; user, query and fragment are ignored. */
  lemma UrlEqIsKeyEquality(a: Option<Url>, b: Option<Url>)
    ensures UrlEq(a, b) <==> Key(a) == Key(b)
  {
  }

  lemma UrlEqNil(u: Url)
    ensures UrlEq(None, None)
    ensures !UrlEq(None, Some(u)) && !UrlEq(Some(u), None)
  {
  }

  lemma UrlEqEquivalence(a: Option<Url>, b: Option<Url>, c: Option<Url>)
    ensures UrlEq(a, a)
    ensures UrlEq(a, b) ==> UrlEq(b, a)
    ensures UrlEq(a, b) && UrlEq(b, c) ==> UrlEq(a, c)
  {
    UrlEqIsKeyEquality(a, b);
    UrlEqIsKeyEquality(b, c);
    UrlEqIsKeyEquality(a, c);
  }

  /** UrlIn(needle, haystack): the search loop, front to back, stopping at the first match. */
  function UrlIn(needle: Option<Url>, haystack: seq<Option<Url>>): (found: bool)
    ensures found <==> exists i :: 0 <= i < |haystack| && UrlEq(haystack[i], needle)
    ensures |haystack| == 0 ==> !found
  {
    if |haystack| == 0 then false
    else if UrlEq(haystack[0], needle) then true
    else
      assert forall i :: 1 <= i < |haystack| ==> haystack[i] == haystack[1..][i - 1];
      UrlIn(needle, haystack[1..])
  }

  /** UrlInAny(needle, haystacks): UrlIn on each haystack in turn. */
  function UrlInAny(needle: Option<Url>, haystacks: seq<seq<Option<Url>>>): (found: bool)
    ensures found <==> exists k :: 0 <= k < |haystacks| && UrlIn(needle, haystacks[k])
  {
    if |haystacks| == 0 then false
    else if UrlIn(needle, haystacks[0]) then true
    else
      assert forall k :: 1 <= k < |haystacks| ==> haystacks[k] == haystacks[1..][k - 1];
      UrlInAny(needle, haystacks[1..])
  }

  /** Membership respects UrlEq: equal needles are found in the same haystacks. */
  lemma UrlInRespectsEq(a: Option<Url>, b: Option<Url>, haystack: seq<Option<Url>>)
    requires UrlEq(a, b)
    ensures UrlIn(a, haystack) <==> UrlIn(b, haystack)
  {
    forall i | 0 <= i < |haystack|
      ensures UrlEq(haystack[i], a) <==> UrlEq(haystack[i], b)
    {
      UrlEqIsKeyEquality(haystack[i], a);
      UrlEqIsKeyEquality(haystack[i], b);
      UrlEqIsKeyEquality(a, b);
    }
  }
}
