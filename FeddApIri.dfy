// fedd/ap/iri.go: IRIs of the fedd daemon. Scheme, host and base path come
// from the request context; InboxOwner and OutboxOwner carry their own
// "not an inbox"/"not an outbox" errors; RetrieveOwner refuses only the name
// "storage" before it asks the storage for the user.

module FeddApIri {
  import opened Common
  import opened GoStrings
  import opened Paths
  import opened Urls
  import opened Iri

  /** The context values NewIRI and split read (all set). */
  datatype Context = Context(scheme: string, host: string, basePath: string)

  /** NewIRI(c, components...): the context's scheme and host, base path then components. */
  function NewIRI(c: Context, components: seq<string>): (u: Url)
    ensures u.scheme == c.scheme && u.host == c.host
    ensures u.user == "" && u.rawQuery == "" && u.fragment == ""
    ensures SplitPathSpec(u.path) == SplitPathSpec(c.basePath) + KeptAll(components)
  {
    MakeUrl(c.scheme, c.host, NewPath(c.basePath, components))
  }

  function ActorIRI(c: Context, actor: string): Url { NewIRI(c, [actor]) }
  function InboxIRI(c: Context, owner: string): Url { NewIRI(c, [owner, "inbox"]) }
  function OutboxIRI(c: Context, owner: string): Url { NewIRI(c, [owner, "outbox"]) }
  function FollowersIRI(c: Context, owner: string): Url { NewIRI(c, [owner, "followers"]) }
  function FollowingIRI(c: Context, owner: string): Url { NewIRI(c, [owner, "following"]) }
  function LikedIRI(c: Context, owner: string): Url { NewIRI(c, [owner, "liked"]) }
  function RollObjectIRI(c: Context, id: string): Url { NewIRI(c, ["storage", id]) }

  function Actor(c: Context, iri: Url): Result<string, IriError> { ActorOf(c.basePath, iri.path) }

  function InboxOwner(c: Context, iri: Url): Result<string, IriError>
  {
    OwnerOf(c.basePath, iri.path, "inbox", NotAn("inbox"))
  }

  function OutboxOwner(c: Context, iri: Url): Result<string, IriError>
  {
    OwnerOf(c.basePath, iri.path, "outbox", NotAn("outbox"))
  }

  function Object(c: Context, iri: Url): Result<string, IriError> { ObjectOf(c.basePath, iri.path) }

  /** RetrieveOwner's name check: the username it would look up, unless it is "storage". */
  function RetrieveOwner(c: Context, iri: Url): (r: Result<string, IriError>)
    ensures r.Ok? ==> r.value != "storage"
    ensures r.Ok? <==> UsernameOf(c.basePath, iri.path).Ok? && UsernameOf(c.basePath, iri.path).value != "storage"
    ensures r.Ok? ==> r.value == SplitPathSpec(iri.path)[|SplitPathSpec(c.basePath)|]
  {
    match UsernameOf(c.basePath, iri.path)
    case Err(e) => Err(e)
    case Ok(name) => if name == "storage" then Err(ReservedName("storage")) else Ok(name)
  }

  // ---------------------------------------------------------------------
  // Properties

  lemma Tails()
    ensures CleanSegment("inbox") && CleanSegment("outbox")
  {
  }

  /** ActorIRI, InboxIRI and OutboxIRI read back as their names; the wrong box fails. */
  lemma RoundTrips(c: Context, u: string)
    requires DotFree(c.basePath) && CleanSegment(u)
    ensures Actor(c, ActorIRI(c, u)) == Ok(u)
    ensures InboxOwner(c, InboxIRI(c, u)) == Ok(u)
    ensures OutboxOwner(c, OutboxIRI(c, u)) == Ok(u)
    ensures OutboxOwner(c, InboxIRI(c, u)) == Err(NotAn("outbox"))
    ensures InboxOwner(c, OutboxIRI(c, u)) == Err(NotAn("inbox"))
    ensures InboxOwner(c, ActorIRI(c, u)) == Err(NotAn("inbox"))
  {
    Tails();
    ActorRoundTrip(c.basePath, u, "inbox", NotAn("inbox"));
    OwnerRoundTrip(c.basePath, u, "inbox", "inbox", NotAn("inbox"));
    OwnerRoundTrip(c.basePath, u, "outbox", "outbox", NotAn("outbox"));
    OwnerRoundTrip(c.basePath, u, "inbox", "outbox", NotAn("outbox"));
    OwnerRoundTrip(c.basePath, u, "outbox", "inbox", NotAn("inbox"));
  }

  /** Every rolled object IRI passes Object. */
  lemma RollObjectIsObject(c: Context, id: string)
    requires DotFree(c.basePath) && IsUuid(id)
    ensures Object(c, RollObjectIRI(c, id)) == Ok(id)
  {
    UuidIsClean(id);
    ObjectRoundTrip(c.basePath, id);
  }

  /** RetrieveOwner refuses "storage" whatever follows it. */
  lemma RetrieveOwnerRefusesStorage(c: Context, iri: Url)
    requires UsernameOf(c.basePath, iri.path) == Ok("storage")
    ensures RetrieveOwner(c, iri) == Err(ReservedName("storage"))
  {
  }

  // ---------------------------------------------------------------------
  // The paths of the package's tests, under a base path "/{a}/" such as "/fed/"

  lemma RootedBase(a: string)
    requires CleanSegment(a)
    ensures SplitPathSpec("/" + a + "/") == [a]
  {
    assert "/" + a == "/" + Join([a], "/");
    SplitPathTrailing("/" + a);
    SplitPathRooted([a]);
  }

  lemma Rooted2(a: string, b: string)
    requires CleanSegment(a) && CleanSegment(b)
    ensures SplitPathSpec("/" + a + "/" + b) == [a, b]
  {
    assert [a, b][1..] == [b];
    assert "/" + a + "/" + b == "/" + Join([a, b], "/");
    SplitPathRooted([a, b]);
  }

  lemma Rooted3(a: string, b: string, d: string)
    requires CleanSegment(a) && CleanSegment(b) && CleanSegment(d)
    ensures SplitPathSpec("/" + a + "/" + b + "/" + d) == [a, b, d]
  {
    var segs := [a, b, d];
    assert segs[1..] == [b, d];
    assert [b, d][1..] == [d];
    assert Join([b, d], "/") == b + "/" + d;
    assert "/" + a + "/" + b + "/" + d == "/" + Join(segs, "/");
    SplitPathRooted(segs);
  }

  lemma Rooted4(a: string, b: string, d: string, e: string)
    requires CleanSegment(a) && CleanSegment(b) && CleanSegment(d) && CleanSegment(e)
    ensures |SplitPathSpec("/" + a + "/" + b + "/" + d + "/" + e)| == 4
  {
    JoinFour(a, b, d, e);
    SplitPathRooted([a, b, d, e]);
  }

  lemma JoinFour(a: string, b: string, d: string, e: string)
    ensures "/" + a + "/" + b + "/" + d + "/" + e == "/" + Join([a, b, d, e], "/")
  {
    var segs := [a, b, d, e];
    assert segs[1..] == [b, d, e];
    assert [b, d, e][1..] == [d, e];
    assert [d, e][1..] == [e];
    assert Join([d, e], "/") == d + "/" + e;
    assert Join([b, d, e], "/") == b + "/" + d + "/" + e;
  }

  /** "/{a}/{u}" under the base "/{a}/" is the actor u. */
  lemma ActorUnderRootedBase(a: string, u: string)
    requires CleanSegment(a) && CleanSegment(u)
    ensures ActorOf("/" + a + "/", "/" + a + "/" + u) == Ok(u)
  {
    RootedBase(a);
    Rooted2(a, u);
  }

  /** "/{a}/{u}/{t}" under the base "/{a}/" is u's t, and no other box. */
  lemma OwnerUnderRootedBase(a: string, u: string, t: string, other: string, wrongTail: IriError)
    requires CleanSegment(a) && CleanSegment(u) && CleanSegment(t)
    ensures OwnerOf("/" + a + "/", "/" + a + "/" + u + "/" + t, other, wrongTail) ==
      if other == t then Ok(u) else Err(wrongTail)
  {
    RootedBase(a);
    Rooted3(a, u, t);
  }

  /** "/{a}/{u}/" has no payload, so no owner accessor accepts it. */
  lemma NoPayloadRejected(a: string, u: string, other: string, wrongTail: IriError)
    requires CleanSegment(a) && CleanSegment(u)
    ensures OwnerOf("/" + a + "/", "/" + a + "/" + u + "/", other, wrongTail) == Err(wrongTail)
  {
    RootedBase(a);
    Rooted2(a, u);
    SplitPathTrailing("/" + a + "/" + u);
  }

  /** "/{a}/{u}/{t}/{x}" has one segment too many. */
  lemma ExtraSegmentRejected(a: string, u: string, t: string, x: string, other: string, wrongTail: IriError)
    requires CleanSegment(a) && CleanSegment(u) && CleanSegment(t) && CleanSegment(x)
    ensures OwnerOf("/" + a + "/", "/" + a + "/" + u + "/" + t + "/" + x, other, wrongTail) == Err(BaseMismatch)
  {
    RootedBase(a);
    Rooted4(a, u, t, x);
  }

  lemma TestSegments()
    ensures CleanSegment("fed") && CleanSegment("belano") && CleanSegment("alice")
    ensures CleanSegment("storage") && CleanSegment("12345") && CleanSegment("blahfoo")
  {
  }

  /** The package's test cases, under the base path "/fed/" (paths written segment by segment). */
  lemma TestCases()
    ensures ActorOf("/" + "fed" + "/", "/" + "fed" + "/" + "belano") == Ok("belano")
    ensures OwnerOf("/" + "fed" + "/", "/" + "fed" + "/" + "alice" + "/" + "outbox", "outbox", NotAn("outbox")) == Ok("alice")
    ensures OwnerOf("/" + "fed" + "/", "/" + "fed" + "/" + "alice" + "/" + "inbox", "outbox", NotAn("outbox")) == Err(NotAn("outbox"))
    ensures OwnerOf("/" + "fed" + "/", "/" + "fed" + "/" + "outbox" + "/", "outbox", NotAn("outbox")) == Err(NotAn("outbox"))
    ensures OwnerOf("/" + "fed" + "/", "/" + "fed" + "/" + "storage" + "/" + "12345", "inbox", NotAn("inbox")) == Err(NotAn("inbox"))
    ensures OwnerOf("/" + "fed" + "/", "/" + "fed" + "/" + "alice" + "/" + "outbox" + "/" + "blahfoo", "outbox", NotAn("outbox")) == Err(BaseMismatch)
  {
    TestSegments();
    Tails();
    ActorUnderRootedBase("fed", "belano");
    OwnerUnderRootedBase("fed", "alice", "outbox", "outbox", NotAn("outbox"));
    OwnerUnderRootedBase("fed", "alice", "inbox", "outbox", NotAn("outbox"));
    NoPayloadRejected("fed", "outbox", "outbox", NotAn("outbox"));
    OwnerUnderRootedBase("fed", "storage", "12345", "inbox", NotAn("inbox"));
    ExtraSegmentRejected("fed", "alice", "outbox", "blahfoo", "outbox", NotAn("outbox"));
  }

  /** The constructor tests, under the test context's base path "/fed/": "diomedes" and every rolled id read back. */
  lemma ConstructorTests(c: Context, id: string)
    requires c == Context("http", "example.com", "/fed/")
    requires IsUuid(id)
    ensures Actor(c, ActorIRI(c, "diomedes")) == Ok("diomedes")
    ensures InboxOwner(c, InboxIRI(c, "diomedes")) == Ok("diomedes")
    ensures OutboxOwner(c, OutboxIRI(c, "diomedes")) == Ok("diomedes")
    ensures Object(c, RollObjectIRI(c, id)) == Ok(id)
  {
    assert CleanSegment("fed") && CleanSegment("diomedes");
    assert c.basePath == "/" + "fed" + "/";
    RootedBaseDotFree("fed");
    RoundTrips(c, "diomedes");
    RollObjectIsObject(c, id);
  }
}
