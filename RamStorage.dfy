// db/fed_ram_storage.go: the in-memory store. One counter hands out the ids
// of users and of posts alike; users and posts live in two maps from id to
// record, updated in place.
//
// A post records its author in a field UserId, as this file uses it (the
// FedPost record of db/fed_post.go names that field Author). Map iteration
// order in FindUser and GetPostsFrom is unspecified; the model picks keys
// in an arbitrary order.

module RamStorage {
  import opened Common

  datatype User = User(id: nat, name: string)
  datatype Post = Post(userId: nat, content: string)

  class FedRamStorage {
    var lastId: nat
    var users: map<nat, User>
    var posts: map<nat, Post>

    /**
     * Every stored record has an id below the counter, users and posts never
     * share an id, a user is stored under its own id, and every post's
     * author is a stored user.
     */
    predicate Valid()
      reads this
    {
      (forall id :: id in users ==> id < lastId && users[id].id == id) &&
      (forall id :: id in posts ==> id < lastId && posts[id].userId in users) &&
      users.Keys !! posts.Keys
    }

    /** NewFedRamStorage(): counter 0, no users, no posts. */
    constructor ()
      ensures lastId == 0 && users == map[] && posts == map[]
      ensures Valid()
    {
      lastId := 0;
      users := map[];
      posts := map[];
    }

    /** AddUser(username): a user with the next id, the counter bumped once. */
    method AddUser(username: string) returns (u: User)
      requires Valid()
      modifies this
      ensures Valid()
      ensures u == User(old(lastId), username)
      ensures old(lastId) !in old(users) && old(lastId) !in old(posts)
      ensures lastId == old(lastId) + 1
      ensures users == old(users)[u.id := u] && posts == old(posts)
    {
      var id := lastId;
      lastId := lastId + 1;
      u := User(id, username);
      users := users[id := u];
    }

    /** GetUser(userId): the stored user, or nil. */
    function GetUser(userId: nat): (r: Option<User>)
      reads this
      ensures r.Some? <==> userId in users
      ensures r.Some? ==> r.value == users[userId]
    {
      if userId in users then Some(users[userId]) else None
    }

    /** GetPost(postId): the stored post, or nil. */
    function GetPost(postId: nat): (r: Option<Post>)
      reads this
      ensures r.Some? <==> postId in posts
      ensures r.Some? ==> r.value == posts[postId]
    {
      if postId in posts then Some(posts[postId]) else None
    }

    /** FindUser(username): some stored user with that name, or nil when there is none. */
    method FindUser(username: string) returns (r: Option<User>)
      ensures r.Some? ==> r.value in users.Values && r.value.name == username
      ensures r.None? <==> forall id :: id in users ==> users[id].name != username
    {
      var unseen := users.Keys;
      while unseen != {}
        invariant unseen <= users.Keys
        invariant forall id :: id in users && id !in unseen ==> users[id].name != username
        decreases |unseen|
      {
        var id :| id in unseen;
        if users[id].name == username {
          return Some(users[id]);
        }
        unseen := unseen - {id};
      }
      return None;
    }

    /** AddPost(userId, content): an error for an unknown user, else a post under the next id. */
    method AddPost(userId: nat, content: string) returns (r: Result<Post, string>)
      requires Valid()
      modifies this
      ensures Valid()
      ensures userId !in old(users) ==> r == Err("no such user") && lastId == old(lastId) && posts == old(posts)
      ensures userId in old(users) ==>
        r == Ok(Post(userId, content)) && lastId == old(lastId) + 1 && posts == old(posts)[old(lastId) := r.value]
      ensures old(lastId) !in old(users) && old(lastId) !in old(posts)
      ensures users == old(users)
    {
      if GetUser(userId).None? {
        return Err("no such user");
      }
      var postId := lastId;
      lastId := lastId + 1;
      var post := Post(userId, content);
      posts := posts[postId := post];
      r := Ok(post);
    }

    /**
     * GetPostsFrom(userId): the posts whose author is userId, each once, in
     * no particular order. The ghost ids name the post each entry came from.
     */
    method GetPostsFrom(userId: nat) returns (ret: seq<Post>, ghost ids: seq<nat>)
      ensures |ret| == |ids|
      ensures forall k :: 0 <= k < |ids| ==> ids[k] in posts && ret[k] == posts[ids[k]]
      ensures forall k, l :: 0 <= k < l < |ids| ==> ids[k] != ids[l]
      ensures forall id :: id in posts && posts[id].userId == userId <==> id in ids
      ensures forall k :: 0 <= k < |ret| ==> ret[k].userId == userId
    {
      ret := [];
      ids := [];
      var unseen := posts.Keys;
      while unseen != {}
        invariant unseen <= posts.Keys
        invariant |ret| == |ids|
        invariant forall k :: 0 <= k < |ids| ==> ids[k] in posts && ids[k] !in unseen && ret[k] == posts[ids[k]]
        invariant forall k, l :: 0 <= k < l < |ids| ==> ids[k] != ids[l]
        invariant forall id :: id in posts && id !in unseen && posts[id].userId == userId <==> id in ids
        invariant forall k :: 0 <= k < |ret| ==> ret[k].userId == userId
        decreases |unseen|
      {
        var id :| id in unseen;
        if posts[id].userId == userId {
          ret := ret + [posts[id]];
          ids := ids + [id];
        }
        unseen := unseen - {id};
      }
    }
  }

  /** Two ids handed out by the counter at different values are different ids. */
  predicate FreshId(s: FedRamStorage, id: nat)
    reads s
  {
    id == s.lastId && id !in s.users && id !in s.posts
  }

  /** The counter value is never in use, in a valid store. */
  lemma CounterIsFresh(s: FedRamStorage)
    requires s.Valid()
    ensures FreshId(s, s.lastId)
  {
  }

  /** Some stored user carries the name. */
  predicate HasUserNamed(users: map<nat, User>, name: string)
  {
    exists id :: id in users && users[id].name == name
  }

  /**
   * The scenario of db/fed_ram_storage_test.go: every added user can be
   * found again by its name, carrying that name.
   */
  method AddThenFind(names: seq<string>) returns (s: FedRamStorage, found: seq<Option<User>>)
    ensures fresh(s) && s.Valid()
    ensures |found| == |names|
    ensures forall k :: 0 <= k < |names| ==> found[k].Some? && found[k].value.name == names[k]
  {
    s := new FedRamStorage();
    for k := 0 to |names|
      invariant fresh(s) && s.Valid()
      invariant forall j :: 0 <= j < k ==> HasUserNamed(s.users, names[j])
    {
      ghost var before := s.users;
      var u := s.AddUser(names[k]);
      forall j | 0 <= j < k
        ensures HasUserNamed(s.users, names[j])
      {
        var id :| id in before && before[id].name == names[j];
        assert s.users[id] == before[id];
      }
      assert s.users[u.id].name == names[k];
    }
    ghost var users := s.users;
    found := [];
    for k := 0 to |names|
      invariant s.users == users && s.Valid()
      invariant |found| == k
      invariant forall j :: 0 <= j < k ==> found[j].Some? && found[j].value.name == names[j]
    {
      assert HasUserNamed(s.users, names[k]);
      var r := s.FindUser(names[k]);
      found := found + [r];
    }
  }
}
