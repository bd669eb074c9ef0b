// fediri/iri.go and fediri/is_reserved_username.go: IRIs of the federated
// server. The configured global URL supplies the host and the base path;
// the scheme is always "https". RollObjectIRI takes its random UUID as a
// parameter.

module FedIri {
  import opened Common
  import opened GoStrings
  import opened Paths
  import opened Urls
  import opened Iri

  /** The parts of config.Get().GlobalURL() that IRIs use. */
  datatype Config = Config(host: string, basePath: string)

  /** NewIRI(components...): https, the configured host, the base path then the components. */
  function NewIRI(cfg: Config, components: seq<string>): (u: Url)
    ensures u.scheme == "https" && u.host == cfg.host
    ensures u.user == "" && u.rawQuery == "" && u.fragment == ""
    ensures SplitPathSpec(u.path) == SplitPathSpec(cfg.basePath) + KeptAll(components)
  {
    MakeUrl("https", cfg.host, NewPath(cfg.basePath, components))
  }

  function ActorIRI(cfg: Config, actor: string): Url { NewIRI(cfg, [actor]) }
  function InboxIRI(cfg: Config, owner: string): Url { NewIRI(cfg, [owner, "inbox"]) }
  function OutboxIRI(cfg: Config, owner: string): Url { NewIRI(cfg, [owner, "outbox"]) }
  function FollowersIRI(cfg: Config, owner: string): Url { NewIRI(cfg, [owner, "followers"]) }
  function FollowingIRI(cfg: Config, owner: string): Url { NewIRI(cfg, [owner, "following"]) }
  function LikedIRI(cfg: Config, owner: string): Url { NewIRI(cfg, [owner, "liked"]) }

  /** RollObjectIRI(), with the random UUID passed in. */
  function RollObjectIRI(cfg: Config, id: string): Url { NewIRI(cfg, ["storage", id]) }

  function Actor(cfg: Config, iri: Url): Result<string, IriError> { ActorOf(cfg.basePath, iri.path) }

  /** owner(tail) and the five accessors built on it. */
  function Owner(cfg: Config, iri: Url, tail: string): Result<string, IriError>
  {
    OwnerOf(cfg.basePath, iri.path, tail, MissingTail(tail))
  }

  function InboxOwner(cfg: Config, iri: Url): Result<string, IriError> { Owner(cfg, iri, "inbox") }
  function OutboxOwner(cfg: Config, iri: Url): Result<string, IriError> { Owner(cfg, iri, "outbox") }
  function FollowingOwner(cfg: Config, iri: Url): Result<string, IriError> { Owner(cfg, iri, "following") }
  function FollowersOwner(cfg: Config, iri: Url): Result<string, IriError> { Owner(cfg, iri, "followers") }
  function LikedOwner(cfg: Config, iri: Url): Result<string, IriError> { Owner(cfg, iri, "liked") }

  function Object(cfg: Config, iri: Url): Result<string, IriError> { ObjectOf(cfg.basePath, iri.path) }

  /** The usernames that may not be the first IRI component. */
  const RESERVED: set<string> := {
    "storage", "static", "oauth", "stream", "liked",
    "following", "followers", "login", "logout", "remote",
    "submit"
  }

  predicate IsReservedUsername(username: string)
  {
    username in RESERVED
  }

  /** Owner(): split()'s username, unless it is reserved. */
  function IriOwner(cfg: Config, iri: Url): (r: Result<string, IriError>)
    ensures r.Ok? ==> !IsReservedUsername(r.value)
    ensures r.Ok? <==> UsernameOf(cfg.basePath, iri.path).Ok? && !IsReservedUsername(UsernameOf(cfg.basePath, iri.path).value)
    ensures r.Ok? ==> r.value == SplitPathSpec(iri.path)[|SplitPathSpec(cfg.basePath)|]
  {
    match UsernameOf(cfg.basePath, iri.path)
    case Err(e) => Err(e)
    case Ok(name) => if IsReservedUsername(name) then Err(ReservedName(name)) else Ok(name)
  }

  // ---------------------------------------------------------------------
  // Properties

  /** Every constructed IRI reads back as the name it was built from. */
  lemma RoundTrips(cfg: Config, u: string)
    requires DotFree(cfg.basePath) && CleanSegment(u)
    ensures Actor(cfg, ActorIRI(cfg, u)) == Ok(u)
    ensures InboxOwner(cfg, InboxIRI(cfg, u)) == Ok(u)
    ensures OutboxOwner(cfg, OutboxIRI(cfg, u)) == Ok(u)
    ensures FollowersOwner(cfg, FollowersIRI(cfg, u)) == Ok(u)
    ensures FollowingOwner(cfg, FollowingIRI(cfg, u)) == Ok(u)
    ensures LikedOwner(cfg, LikedIRI(cfg, u)) == Ok(u)
  {
    ActorRoundTrip(cfg.basePath, u, "", MissingTail(""));
    Tails();
    OwnerRoundTrip(cfg.basePath, u, "inbox", "inbox", MissingTail("inbox"));
    OwnerRoundTrip(cfg.basePath, u, "outbox", "outbox", MissingTail("outbox"));
    OwnerRoundTrip(cfg.basePath, u, "followers", "followers", MissingTail("followers"));
    OwnerRoundTrip(cfg.basePath, u, "following", "following", MissingTail("following"));
    OwnerRoundTrip(cfg.basePath, u, "liked", "liked", MissingTail("liked"));
  }

  lemma Tails()
    ensures CleanSegment("inbox") && CleanSegment("outbox") && CleanSegment("liked")
    ensures CleanSegment("followers") && CleanSegment("following")
  {
  }

  /** owner(tail) fails on an IRI with another tail, and Actor fails on any owner IRI. */
  lemma WrongTailFails(cfg: Config, u: string)
    requires DotFree(cfg.basePath) && CleanSegment(u)
    ensures OutboxOwner(cfg, InboxIRI(cfg, u)) == Err(MissingTail("outbox"))
    ensures InboxOwner(cfg, OutboxIRI(cfg, u)) == Err(MissingTail("inbox"))
    ensures InboxOwner(cfg, ActorIRI(cfg, u)) == Err(MissingTail("inbox"))
    ensures Actor(cfg, InboxIRI(cfg, u)) == Err(NotAnActor)
  {
    Tails();
    OwnerRoundTrip(cfg.basePath, u, "inbox", "outbox", MissingTail("outbox"));
    OwnerRoundTrip(cfg.basePath, u, "outbox", "inbox", MissingTail("inbox"));
    ActorRoundTrip(cfg.basePath, u, "inbox", MissingTail("inbox"));
  }

  /** Every rolled object IRI passes Object, with its UUID as the id. */
  lemma RollObjectIsObject(cfg: Config, id: string)
    requires DotFree(cfg.basePath) && IsUuid(id)
    ensures Object(cfg, RollObjectIRI(cfg, id)) == Ok(id)
  {
    UuidIsClean(id);
    ObjectRoundTrip(cfg.basePath, id);
  }

  /** The 11 listed names are reserved; matching is exact, so other spellings are not. */
  lemma ReservedNames()
    ensures IsReservedUsername("storage") && IsReservedUsername("static") && IsReservedUsername("oauth")
    ensures IsReservedUsername("stream") && IsReservedUsername("liked") && IsReservedUsername("following")
    ensures IsReservedUsername("followers") && IsReservedUsername("login") && IsReservedUsername("logout")
    ensures IsReservedUsername("remote") && IsReservedUsername("submit")
    ensures !IsReservedUsername("alice") && !IsReservedUsername("Storage") && !IsReservedUsername("")
  {
  }

  /** Owner() of an actor IRI is its username exactly when that name is not reserved. */
  lemma OwnerOfActor(cfg: Config, u: string)
    requires DotFree(cfg.basePath) && CleanSegment(u)
    ensures IriOwner(cfg, ActorIRI(cfg, u)) == if IsReservedUsername(u) then Err(ReservedName(u)) else Ok(u)
  {
    ActorRoundTrip(cfg.basePath, u, "", MissingTail(""));
  }
}
