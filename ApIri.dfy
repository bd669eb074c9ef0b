// ap/iri.go: IRIs of the older ActivityPub package. Scheme, host and base
// path come from the configured base URL; owner(tail) backs the five
// collection accessors; RetrieveOwner refuses the reserved names before it
// asks the storage for the user. Its local reserved set is the same 11
// names as fediri's, so FedIri.IsReservedUsername stands for isReserved.

module ApIri {
  import opened Common
  import opened GoStrings
  import opened Paths
  import opened Urls
  import opened Iri
  import FedIri

  /** The configured base URL (config.Get().Base). */
  datatype Config = Config(base: Url)

  /** NewIRI(c, components...): the base URL's scheme and host, its path then the components. */
  function NewIRI(cfg: Config, components: seq<string>): (u: Url)
    ensures u.scheme == cfg.base.scheme && u.host == cfg.base.host
    ensures u.user == "" && u.rawQuery == "" && u.fragment == ""
    ensures SplitPathSpec(u.path) == SplitPathSpec(cfg.base.path) + KeptAll(components)
  {
    MakeUrl(cfg.base.scheme, cfg.base.host, NewPath(cfg.base.path, components))
  }

  function ActorIRI(cfg: Config, actor: string): Url { NewIRI(cfg, [actor]) }
  function InboxIRI(cfg: Config, owner: string): Url { NewIRI(cfg, [owner, "inbox"]) }
  function OutboxIRI(cfg: Config, owner: string): Url { NewIRI(cfg, [owner, "outbox"]) }
  function FollowersIRI(cfg: Config, owner: string): Url { NewIRI(cfg, [owner, "followers"]) }
  function FollowingIRI(cfg: Config, owner: string): Url { NewIRI(cfg, [owner, "following"]) }
  function LikedIRI(cfg: Config, owner: string): Url { NewIRI(cfg, [owner, "liked"]) }
  function RollObjectIRI(cfg: Config, id: string): Url { NewIRI(cfg, ["storage", id]) }

  function Actor(cfg: Config, iri: Url): Result<string, IriError> { ActorOf(cfg.base.path, iri.path) }

  function Owner(cfg: Config, iri: Url, tail: string): Result<string, IriError>
  {
    OwnerOf(cfg.base.path, iri.path, tail, MissingTail(tail))
  }

  function InboxOwner(cfg: Config, iri: Url): Result<string, IriError> { Owner(cfg, iri, "inbox") }
  function OutboxOwner(cfg: Config, iri: Url): Result<string, IriError> { Owner(cfg, iri, "outbox") }
  function FollowingOwner(cfg: Config, iri: Url): Result<string, IriError> { Owner(cfg, iri, "following") }
  function FollowersOwner(cfg: Config, iri: Url): Result<string, IriError> { Owner(cfg, iri, "followers") }
  function LikedOwner(cfg: Config, iri: Url): Result<string, IriError> { Owner(cfg, iri, "liked") }

  function Object(cfg: Config, iri: Url): Result<string, IriError> { ObjectOf(cfg.base.path, iri.path) }

  /** RetrieveOwner's name check: the username it would look up, unless it is reserved. */
  function RetrieveOwner(cfg: Config, iri: Url): (r: Result<string, IriError>)
    ensures r.Ok? ==> !FedIri.IsReservedUsername(r.value)
    ensures r.Ok? <==> UsernameOf(cfg.base.path, iri.path).Ok? && !FedIri.IsReservedUsername(UsernameOf(cfg.base.path, iri.path).value)
    ensures r.Ok? ==> r.value == SplitPathSpec(iri.path)[|SplitPathSpec(cfg.base.path)|]
  {
    match UsernameOf(cfg.base.path, iri.path)
    case Err(e) => Err(e)
    case Ok(name) => if FedIri.IsReservedUsername(name) then Err(ReservedName(name)) else Ok(name)
  }

  // ---------------------------------------------------------------------
  // Properties

  /** Every constructed IRI reads back as its name; Actor refuses IRIs with a payload. */
  lemma RoundTrips(cfg: Config, u: string)
    requires DotFree(cfg.base.path) && CleanSegment(u)
    ensures Actor(cfg, ActorIRI(cfg, u)) == Ok(u)
    ensures InboxOwner(cfg, InboxIRI(cfg, u)) == Ok(u)
    ensures OutboxOwner(cfg, OutboxIRI(cfg, u)) == Ok(u)
    ensures FollowersOwner(cfg, FollowersIRI(cfg, u)) == Ok(u)
    ensures FollowingOwner(cfg, FollowingIRI(cfg, u)) == Ok(u)
    ensures LikedOwner(cfg, LikedIRI(cfg, u)) == Ok(u)
    ensures Actor(cfg, LikedIRI(cfg, u)) == Err(NotAnActor)
  {
    var b := cfg.base.path;
    ActorRoundTrip(b, u, "", MissingTail(""));
    FedIri.Tails();
    OwnerRoundTrip(b, u, "inbox", "inbox", MissingTail("inbox"));
    OwnerRoundTrip(b, u, "outbox", "outbox", MissingTail("outbox"));
    OwnerRoundTrip(b, u, "followers", "followers", MissingTail("followers"));
    OwnerRoundTrip(b, u, "following", "following", MissingTail("following"));
    OwnerRoundTrip(b, u, "liked", "liked", MissingTail("liked"));
  }

  /** owner(tail) accepts exactly the IRI whose last segment is tail. */
  lemma OwnerNeedsTail(cfg: Config, u: string, tail: string, other: string)
    requires DotFree(cfg.base.path) && CleanSegment(u) && CleanSegment(tail)
    ensures Owner(cfg, NewIRI(cfg, [u, tail]), other) == if other == tail then Ok(u) else Err(MissingTail(other))
  {
    OwnerRoundTrip(cfg.base.path, u, tail, other, MissingTail(other));
  }

  /** Object requires "storage" first and an id after it; every rolled IRI passes. */
  lemma RollObjectIsObject(cfg: Config, id: string)
    requires DotFree(cfg.base.path) && IsUuid(id)
    ensures Object(cfg, RollObjectIRI(cfg, id)) == Ok(id)
    ensures Object(cfg, ActorIRI(cfg, id)) == Err(NotAnObject)
  {
    UuidIsClean(id);
    ObjectRoundTrip(cfg.base.path, id);
    ActorRoundTrip(cfg.base.path, id, "", MissingTail(""));
  }

  /** RetrieveOwner of an actor IRI refuses exactly the reserved names. */
  lemma RetrieveOwnerOfActor(cfg: Config, u: string)
    requires DotFree(cfg.base.path) && CleanSegment(u)
    ensures RetrieveOwner(cfg, ActorIRI(cfg, u)) ==
      if FedIri.IsReservedUsername(u) then Err(ReservedName(u)) else Ok(u)
  {
    ActorRoundTrip(cfg.base.path, u, "", MissingTail(""));
  }
}
