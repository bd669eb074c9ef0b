// ap/construct_iri.go and ap/parse_iri.go: the older "*/{prefix}/{payload}"
// IRI scheme, where the asterisk is the context's scheme, host and base
// path. Parsing splits both paths on "/" keeping empty segments.
//
// constructPrefixedIri panics on a blank prefix or payload; the model
// returns that panic as an error value.

module ApPrefixed {
  import opened Common
  import opened GoStrings
  import opened Paths
  import opened Urls

  /** The context values these functions read (ap/fed_context.go), all set. */
  datatype Context = Context(scheme: string, host: string, basePath: string)

  /** isEmpty in ap/fed_application.go: nothing but whitespace. */
  function IsBlank(s: string): (b: bool)
    ensures b <==> AllSpace(s)
  {
    TrimSpaceEmptyIff(s);
    |TrimSpace(s)| == 0
  }

  // ---------------------------------------------------------------------
  // construct_iri.go

  datatype Panic = EmptyPrefix | EmptyPayload

  /** constructPrefixedIri(ctx, prefix, payload). */
  function ConstructPrefixedIri(c: Context, prefix: string, payload: string): (r: Result<Url, Panic>)
    ensures AllSpace(prefix) ==> r == Err(EmptyPrefix)
    ensures !AllSpace(prefix) && AllSpace(payload) ==> r == Err(EmptyPayload)
    ensures r.Ok? <==> !AllSpace(prefix) && !AllSpace(payload)
    ensures r.Ok? ==> r.value.scheme == c.scheme && r.value.host == c.host
    ensures r.Ok? ==> r.value.user == "" && r.value.rawQuery == "" && r.value.fragment == ""
  {
    if IsBlank(prefix) then Err(EmptyPrefix)
    else if IsBlank(payload) then Err(EmptyPayload)
    else Ok(MakeUrl(c.scheme, c.host, PathJoin([c.basePath, prefix, payload])))
  }

  function ConstructActorIri(c: Context, actor: string): Result<Url, Panic>
  {
    ConstructPrefixedIri(c, "actor", actor)
  }

  function ConstructOutboxIri(c: Context, owner: string): Result<Url, Panic>
  {
    ConstructPrefixedIri(c, "outbox", owner)
  }

  function ConstructInboxIri(c: Context, owner: string): Result<Url, Panic>
  {
    ConstructPrefixedIri(c, "inbox", owner)
  }

  /** constructActivityIri: the id in base 10 as the payload. */
  function ConstructActivityIri(c: Context, activityId: uint64): Result<Url, Panic>
  {
    ConstructPrefixedIri(c, "activity", FormatDecimal(activityId as nat))
  }

  // ---------------------------------------------------------------------
  // parse_iri.go

  datatype PayloadError =
    | BadSegmentCount
    | BadPattern(expected: string, actual: string)
    | LastEmpty

  /** The first position before |expected| where the two lists differ, as (expected, actual). */
  function FirstMismatch(expected: seq<string>, actual: seq<string>): (m: Option<(string, string)>)
    requires |expected| <= |actual|
    ensures m.None? <==> actual[..|expected|] == expected
    ensures m.Some? ==> exists i :: 0 <= i < |expected| && m.value == (expected[i], actual[i]) && expected[i] != actual[i]
    decreases |expected|
  {
    if |expected| == 0 then None
    else if expected[0] != actual[0] then Some((expected[0], actual[0]))
    else
      var rest := FirstMismatch(expected[1..], actual[1..]);
      assert actual[..|expected|] == [actual[0]] + actual[1..][..|expected| - 1];
      assert expected == [expected[0]] + expected[1..];
      if rest.None? then None
      else
        var i :| 0 <= i < |expected| - 1 && rest.value == (expected[1..][i], actual[1..][i]) && expected[1..][i] != actual[1..][i];
        assert expected[i + 1] == expected[1..][i];
        rest
  }

  /** The base path of a prefix: path.Join(basePath, subpath). */
  function PrefixPath(c: Context, subpath: string): string
  {
    PathJoin([c.basePath, subpath])
  }

  /** parsePayloadFromIri: the base segments, then exactly one non-empty segment. */
  function ParsePayload(c: Context, subpath: string, iri: Url): (r: Result<string, PayloadError>)
    ensures r.Ok? <==>
      var base := Split(PrefixPath(c, subpath), '/');
      var comps := Split(iri.path, '/');
      |comps| == |base| + 1 && comps[..|base|] == base && comps[|base|] != ""
    ensures r.Ok? ==> Split(iri.path, '/') == Split(PrefixPath(c, subpath), '/') + [r.value] && r.value != ""
    ensures |Split(iri.path, '/')| != |Split(PrefixPath(c, subpath), '/')| + 1 ==> r == Err(BadSegmentCount)
  {
    var baseComps := Split(PrefixPath(c, subpath), '/');
    var iriComps := Split(iri.path, '/');
    if |baseComps| + 1 != |iriComps| then Err(BadSegmentCount)
    else
      match FirstMismatch(baseComps, iriComps)
      case Some((expected, actual)) => Err(BadPattern(expected, actual))
      case None =>
        var payload := iriComps[|iriComps| - 1];
        if payload == "" then Err(LastEmpty)
        else
          ExtendOne(iriComps, baseComps);
          Ok(payload)
  }

  function ParseOutboxOwner(c: Context, iri: Url): Result<string, PayloadError>
  {
    ParsePayload(c, "outbox", iri)
  }

  function ParseInboxOwner(c: Context, iri: Url): Result<string, PayloadError>
  {
    ParsePayload(c, "inbox", iri)
  }

  datatype ActivityIdError = NoPayload(cause: PayloadError) | NotANumber(parsed: ParseResult)

  /** parseActivityIdFromIri: the activity payload read as a decimal uint64. */
  function ParseActivityId(c: Context, iri: Url): (r: Result<uint64, ActivityIdError>)
    ensures r.Ok? ==> ParsePayload(c, "activity", iri).Ok? && ParseUint(ParsePayload(c, "activity", iri).value) == Parsed(r.value)
    ensures ParsePayload(c, "activity", iri).Err? ==> r == Err(NoPayload(ParsePayload(c, "activity", iri).error))
    ensures ParsePayload(c, "activity", iri).Ok? && ParseUint(ParsePayload(c, "activity", iri).value).Parsed? ==>
      r == Ok(ParseUint(ParsePayload(c, "activity", iri).value).value)
    ensures ParsePayload(c, "activity", iri).Ok? && !ParseUint(ParsePayload(c, "activity", iri).value).Parsed? ==>
      r == Err(NotANumber(ParseUint(ParsePayload(c, "activity", iri).value)))
  {
    match ParsePayload(c, "activity", iri)
    case Err(e) => Err(NoPayload(e))
    case Ok(s) =>
      match ParseUint(s)
      case Parsed(id) => Ok(id)
      case other => Err(NotANumber(other))
  }

  // ---------------------------------------------------------------------
  // Properties

  lemma Prefixes()
    ensures CleanSegment("actor") && CleanSegment("outbox") && CleanSegment("inbox") && CleanSegment("activity")
  {
  }

  /** The path of a prefixed IRI splits into the prefix path's segments and the payload. */
  lemma PrefixedSegments(c: Context, prefix: string, payload: string)
    requires CleanSegment(prefix)
    requires NoChar(payload, '/') && !AllSpace(payload) && !DotSegment(payload)
    ensures ConstructPrefixedIri(c, prefix, payload).Ok?
    ensures Split(ConstructPrefixedIri(c, prefix, payload).value.path, '/') == Split(PrefixPath(c, prefix), '/') + [payload]
  {
    assert !AllSpace(prefix);
    assert |payload| > 0;
    assert [c.basePath] + [prefix] + [payload] == [c.basePath, prefix, payload];
    assert [c.basePath] + [prefix] == [c.basePath, prefix];
    PathJoinSnoc([c.basePath], prefix, payload);
    SplitSnoc(PrefixPath(c, prefix), payload);
  }

  /** Parsing a constructed IRI with the same prefix gives the payload back. */
  lemma PayloadRoundTrip(c: Context, prefix: string, payload: string)
    requires CleanSegment(prefix)
    requires NoChar(payload, '/') && !AllSpace(payload) && !DotSegment(payload)
    ensures ParsePayload(c, prefix, ConstructPrefixedIri(c, prefix, payload).value) == Ok(payload)
  {
    PrefixedSegments(c, prefix, payload);
    ParseOfSegments(c, prefix, ConstructPrefixedIri(c, prefix, payload).value, payload);
  }

  lemma ParseOfSegments(c: Context, prefix: string, iri: Url, payload: string)
    requires payload != ""
    requires Split(iri.path, '/') == Split(PrefixPath(c, prefix), '/') + [payload]
    ensures ParsePayload(c, prefix, iri) == Ok(payload)
  {
    var base := Split(PrefixPath(c, prefix), '/');
    var comps := Split(iri.path, '/');
    assert comps[..|base|] == base && comps[|base|] == payload;
    var r := ParsePayload(c, prefix, iri);
    assert comps == base + [r.value];
  }

  /** parseOutboxOwnerFromIri and parseInboxOwnerFromIri invert their constructors. */
  lemma OwnerRoundTrips(c: Context, owner: string)
    requires NoChar(owner, '/') && !AllSpace(owner) && !DotSegment(owner)
    ensures ConstructOutboxIri(c, owner).Ok? && ParseOutboxOwner(c, ConstructOutboxIri(c, owner).value) == Ok(owner)
    ensures ConstructInboxIri(c, owner).Ok? && ParseInboxOwner(c, ConstructInboxIri(c, owner).value) == Ok(owner)
  {
    Prefixes();
    PrefixedSegments(c, "outbox", owner);
    PayloadRoundTrip(c, "outbox", owner);
    PrefixedSegments(c, "inbox", owner);
    PayloadRoundTrip(c, "inbox", owner);
  }

  /** parseActivityIdFromIri inverts constructActivityIri for every id. */
  lemma ActivityRoundTrip(c: Context, activityId: uint64)
    ensures ConstructActivityIri(c, activityId).Ok?
    ensures ParseActivityId(c, ConstructActivityIri(c, activityId).value) == Ok(activityId)
  {
    var s := FormatDecimal(activityId as nat);
    assert IsDigit(s[0]);
    Prefixes();
    PrefixedSegments(c, "activity", s);
    PayloadRoundTrip(c, "activity", s);
    ParseFormat(activityId);
  }

  /** A blank prefix or payload is refused before anything is built. */
  lemma BlankRefused(c: Context, s: string)
    ensures ConstructActorIri(c, "") == Err(EmptyPayload)
    ensures ConstructPrefixedIri(c, " ", s) == Err(EmptyPrefix)
    ensures ConstructOutboxIri(c, "\t") == Err(EmptyPayload)
  {
    Prefixes();
  }

  // ---------------------------------------------------------------------
  // The package's tests, under the context http, example.com, "/{a}/"

  /** The string form of a prefixed IRI under a base path "/{a}/". */
  lemma PrefixedString(scheme: string, host: string, a: string, prefix: string, payload: string)
    requires CleanSegment(a) && CleanSegment(prefix)
    requires NoChar(payload, '/') && !AllSpace(payload) && !DotSegment(payload)
    ensures ConstructPrefixedIri(Context(scheme, host, "/" + a + "/"), prefix, payload).Ok?
    ensures String(ConstructPrefixedIri(Context(scheme, host, "/" + a + "/"), prefix, payload).value) ==
      scheme + "://" + host + "/" + a + "/" + prefix + "/" + payload
  {
    var x := "/" + a + "/";
    var path := PathJoin([x, prefix, payload]);
    PrefixedPath(a, prefix, payload);
    assert !AllSpace(prefix);
    var r := ConstructPrefixedIri(Context(scheme, host, x), prefix, payload);
    assert r == Ok(MakeUrl(scheme, host, path));
    assert String(r.value) == scheme + "://" + host + path;
    SlashJoined(scheme + "://" + host, a, prefix, payload);
  }

  /** Appending "/a/prefix/payload" in one piece or piece by piece gives the same string. */
  lemma SlashJoined(h: string, a: string, prefix: string, payload: string)
    ensures h + ("/" + a + "/" + prefix + "/" + payload) == h + "/" + a + "/" + prefix + "/" + payload
  {
    var p1 := "/" + a;
    var p2 := p1 + "/";
    var p3 := p2 + prefix;
    var p4 := p3 + "/";
    SeqAssoc(h, p4, payload);
    SeqAssoc(h, p3, "/");
    SeqAssoc(h, p2, prefix);
    SeqAssoc(h, p1, "/");
    SeqAssoc(h, "/", a);
  }

  lemma PrefixedPath(a: string, prefix: string, payload: string)
    requires CleanSegment(a) && CleanSegment(prefix)
    requires NoChar(payload, '/') && !AllSpace(payload) && !DotSegment(payload)
    ensures PathJoin(["/" + a + "/", prefix, payload]) == "/" + a + "/" + prefix + "/" + payload
  {
    assert |payload| > 0;
    RootedJoin(a, prefix);
    var x := "/" + a + "/";
    assert [x] + [prefix] + [payload] == [x, prefix, payload];
    assert [x] + [prefix] == [x, prefix];
    PathJoinSnoc([x], prefix, payload);
  }

  lemma TestSegments()
    ensures CleanSegment("fed") && CleanSegment("ulises") && NoChar("ulises", '/') && !AllSpace("ulises") && !DotSegment("ulises")
  {
  }

  /** The expected string of TestConstructActorIri in construct_iri_test.go. */
  lemma TestConstruct(c: Context, owner: string)
    requires c == Context("http", "example.com", "/fed/") && owner == "ulises"
    ensures ConstructActorIri(c, owner).Ok?
    ensures String(ConstructActorIri(c, owner).value) ==
      "http://example.com/fed/actor/ulises"
  {
    Prefixes();
    TestSegments();
    assert c.basePath == "/" + "fed" + "/";
    PrefixedString("http", "example.com", "fed", "actor", "ulises");
    TestString();
  }

  lemma TestString()
    ensures "http" + "://" + "example.com" + "/" + "fed" + "/" + "actor" + "/" + "ulises" ==
      "http://example.com/fed/actor/ulises"
  {
  }
}
