// The IRI grammar shared by fediri/iri.go, ap/iri.go and fedd/ap/iri.go.
//
// All three files build IRIs as path.Join(base, path.Join(components...))
// and read them back with the same `split` over splitPath segments. This
// module holds that shared logic: the path of a new IRI, and the accessors
// Actor, owner(tail), Object and the first-segment username, stated on the
// segments splitPath keeps of the base path and of the IRI's path.

module Iri {
  import opened Common
  import opened GoStrings
  import opened Paths

  /** The path NewIRI gives an IRI: path.Join(base, path.Join(components...)). */
  function NewPath(basePath: string, components: seq<string>): (p: string)
    ensures SplitPathSpec(p) == SplitPathSpec(basePath) + KeptAll(components)
  {
    SplitPathOfNested(basePath, components);
    PathJoin([basePath, PathJoin(components)])
  }

  /** Actor(): the IRI is the base path and exactly one more segment, the username. */
  function ActorOf(basePath: string, path: string): (r: Result<string, IriError>)
    ensures r.Ok? <==>
      var b := SplitPathSpec(basePath);
      var t := SplitPathSpec(path);
      |t| == |b| + 1 && t[..|b|] == b
    ensures r.Ok? ==> SplitPathSpec(path) == SplitPathSpec(basePath) + [r.value]
    ensures r.Err? ==> r.error == BaseMismatch || r.error == NotAnActor
    ensures SplitSpec(basePath, path).Ok? && r.Err? ==> r.error == NotAnActor
  {
    match SplitSpec(basePath, path)
    case Err(e) => Err(e)
    case Ok(parts) =>
      if parts.payload.Some? then Err(NotAnActor)
      else
        ExtendOne(SplitPathSpec(path), SplitPathSpec(basePath));
        Ok(parts.username)
  }

  /** owner(tail): base path, a username, and then exactly the segment tail. */
  function OwnerOf(basePath: string, path: string, tail: string, wrongTail: IriError): (r: Result<string, IriError>)
    ensures r.Ok? <==>
      var b := SplitPathSpec(basePath);
      var t := SplitPathSpec(path);
      |t| == |b| + 2 && t[..|b|] == b && t[|b| + 1] == tail
    ensures r.Ok? ==> SplitPathSpec(path) == SplitPathSpec(basePath) + [r.value, tail]
    ensures SplitSpec(basePath, path).Ok? && r.Err? ==> r.error == wrongTail
    ensures SplitSpec(basePath, path).Err? ==> r.Err? && r.error == BaseMismatch
  {
    match SplitSpec(basePath, path)
    case Err(e) => Err(e)
    case Ok(parts) =>
      if parts.payload.None? || parts.payload.value != tail then Err(wrongTail)
      else
        ExtendTwo(SplitPathSpec(path), SplitPathSpec(basePath));
        Ok(parts.username)
  }

  /** Object(): base path, the segment "storage", and the object id. */
  function ObjectOf(basePath: string, path: string): (r: Result<string, IriError>)
    ensures r.Ok? <==>
      var b := SplitPathSpec(basePath);
      var t := SplitPathSpec(path);
      |t| == |b| + 2 && t[..|b|] == b && t[|b|] == "storage"
    ensures r.Ok? ==> SplitPathSpec(path) == SplitPathSpec(basePath) + ["storage", r.value]
    ensures SplitSpec(basePath, path).Ok? && r.Err? ==> r.error == NotAnObject
  {
    match SplitSpec(basePath, path)
    case Err(e) => Err(e)
    case Ok(parts) =>
      if parts.username != "storage" || parts.payload.None? then Err(NotAnObject)
      else
        ExtendTwo(SplitPathSpec(path), SplitPathSpec(basePath));
        Ok(parts.payload.value)
  }

  /** The username split() returns, whatever follows it. */
  function UsernameOf(basePath: string, path: string): (r: Result<string, IriError>)
    ensures r.Ok? <==> SplitSpec(basePath, path).Ok?
    ensures r.Ok? ==> r.value == SplitPathSpec(path)[|SplitPathSpec(basePath)|]
    ensures r.Err? ==> r.error == BaseMismatch
  {
    match SplitSpec(basePath, path)
    case Err(e) => Err(e)
    case Ok(parts) => Ok(parts.username)
  }

  // ---------------------------------------------------------------------
  // Round trips

  lemma SegmentsOfNew(basePath: string, components: seq<string>)
    requires DotFree(basePath)
    requires forall k :: 0 <= k < |components| ==> CleanSegment(components[k])
    ensures SplitPathSpec(NewPath(basePath, components)) == SplitPathSpec(basePath) + components
  {
    KeptAllClean(components);
  }

  /** An actor IRI reads back as its username and as nothing else. */
  lemma ActorRoundTrip(basePath: string, u: string, tail: string, wrongTail: IriError)
    requires DotFree(basePath) && CleanSegment(u)
    ensures ActorOf(basePath, NewPath(basePath, [u])) == Ok(u)
    ensures UsernameOf(basePath, NewPath(basePath, [u])) == Ok(u)
    ensures OwnerOf(basePath, NewPath(basePath, [u]), tail, wrongTail) == Err(wrongTail)
    ensures ObjectOf(basePath, NewPath(basePath, [u])) == Err(NotAnObject)
  {
    var b := SplitPathSpec(basePath);
    SegmentsOfNew(basePath, [u]);
    assert (b + [u])[..|b|] == b;
  }

  /** A {username}/{tail} IRI reads back as its owner for that tail only. */
  lemma OwnerRoundTrip(basePath: string, u: string, tail: string, other: string, wrongTail: IriError)
    requires DotFree(basePath) && CleanSegment(u) && CleanSegment(tail)
    ensures OwnerOf(basePath, NewPath(basePath, [u, tail]), other, wrongTail) ==
      if other == tail then Ok(u) else Err(wrongTail)
    ensures UsernameOf(basePath, NewPath(basePath, [u, tail])) == Ok(u)
    ensures ActorOf(basePath, NewPath(basePath, [u, tail])) == Err(NotAnActor)
  {
    var b := SplitPathSpec(basePath);
    SegmentsOfNew(basePath, [u, tail]);
    assert (b + [u, tail])[..|b|] == b;
  }

  /** A storage/{id} IRI reads back as the object id. */
  lemma ObjectRoundTrip(basePath: string, id: string)
    requires DotFree(basePath) && CleanSegment(id)
    ensures ObjectOf(basePath, NewPath(basePath, ["storage", id])) == Ok(id)
  {
    assert CleanSegment("storage");
    SegmentsOfNew(basePath, ["storage", id]);
    ObjectOfSegments(basePath, NewPath(basePath, ["storage", id]), id);
  }

  lemma ObjectOfSegments(basePath: string, path: string, id: string)
    requires SplitPathSpec(path) == SplitPathSpec(basePath) + ["storage", id]
    ensures ObjectOf(basePath, path) == Ok(id)
  {
    var b, t := SplitPathSpec(basePath), SplitPathSpec(path);
    assert t[..|b|] == b && t[|b|] == "storage" && t[|b| + 1] == id;
    var r := ObjectOf(basePath, path);
    assert t == b + ["storage", r.value];
  }

  /** Any path with fewer than one or more than two segments past the base is rejected by split(). */
  lemma WrongLengthRejected(basePath: string, path: string)
    requires |SplitPathSpec(path)| != |SplitPathSpec(basePath)| + 1
    requires |SplitPathSpec(path)| != |SplitPathSpec(basePath)| + 2
    ensures ActorOf(basePath, path) == Err(BaseMismatch)
    ensures ObjectOf(basePath, path) == Err(BaseMismatch)
    ensures UsernameOf(basePath, path) == Err(BaseMismatch)
  {
  }

  // ---------------------------------------------------------------------
  // Object ids

  /** The canonical text form of a UUID: 36 hex digits and dashes at 8, 13, 18 and 23. */
  predicate IsUuid(s: string)
  {
    |s| == 36 &&
    forall i :: 0 <= i < 36 ==>
      if i == 8 || i == 13 || i == 18 || i == 23 then s[i] == '-' else IsHexDigit(s[i])
  }

  /** A UUID string is a clean path segment. */
  lemma UuidIsClean(s: string)
    requires IsUuid(s)
    ensures CleanSegment(s)
  {
    assert IsHexDigit(s[0]) && IsHexDigit(s[35]);
  }
}
