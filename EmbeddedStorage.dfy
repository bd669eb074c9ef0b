// db/fed_embedded_storage.go: transactions over an embedded key/value file.
//
// The bbolt database is a map from bucket name to bucket, a bucket a map
// from key to stored record; a bbolt transaction is a value holding whether
// it is writable, whether it is still open, and the contents it works on.
// The reader/writer lock is not modelled as mutual exclusion: each
// transaction counts, in ghost fields, the read and write locks it holds.
// JSON encoding is abstract: a stored value is a Record, and decoding it as
// some Go struct is a function on records that follows encoding/json
// (fields are matched by name, unknown fields are ignored, absent ones stay
// zero). Times are integers in seconds; the zero time.Time is 0.

module EmbeddedStorage {
  import opened Common
  import opened Urls
  import opened Errors
  import opened GoStrings

  const USERS_BUCKET: string := "Users"
  const CODES_BUCKET: string := "OAuth/" + "Codes"
  const TOKENS_BUCKET: string := "OAuth/" + "Tokens"
  const DOCUMENTS_BUCKET: string := "Documents"

  /** db/fed_oauth_code.go and db/fed_oauth_token.go: one minute and one day. */
  const CODE_LIFETIME: int := 60
  const TOKEN_LIFETIME: int := 24 * 60 * 60

  /** bbolt's bound on key length. */
  const MAX_KEY_SIZE: nat := 32768

  datatype User = User(name: string, inbox: seq<string>, liked: seq<string>, followers: seq<string>)
  datatype OAuthCode = OAuthCode(code: string, username: string, issuedOn: int)
  datatype OAuthToken = OAuthToken(token: string, username: string, issuedOn: int)

  /** What a bucket entry holds: the encoding of one record, or bytes that are not JSON. */
  datatype Record =
    | UserRecord(user: User)
    | CodeRecord(oc: OAuthCode)
    | TokenRecord(ot: OAuthToken)
    | DocRecord(doc: string)
    | Malformed(raw: string)

  type Bucket = map<string, Record>
  type Db = map<string, Bucket>

  /** A bbolt transaction: writable or read-only, open or closed, and what it sees. */
  datatype BoltTx = BoltTx(writable: bool, open: bool, data: Db)

  // ---------------------------------------------------------------------
  // Decoding, as encoding/json does it

  /** json.Unmarshal into FedOAuthCode: any JSON object decodes; matching fields are copied. */
  function AsCode(r: Record): (c: Option<OAuthCode>)
    ensures c.None? <==> r.Malformed?
  {
    match r
    case CodeRecord(oc) => Some(oc)
    case TokenRecord(ot) => Some(OAuthCode("", ot.username, ot.issuedOn))
    case UserRecord(_) => Some(OAuthCode("", "", 0))
    case DocRecord(_) => Some(OAuthCode("", "", 0))
    case Malformed(_) => None
  }

  /** json.Unmarshal into FedOAuthToken. */
  function AsToken(r: Record): (t: Option<OAuthToken>)
    ensures t.None? <==> r.Malformed?
  {
    match r
    case TokenRecord(ot) => Some(ot)
    case CodeRecord(oc) => Some(OAuthToken("", oc.username, oc.issuedOn))
    case UserRecord(_) => Some(OAuthToken("", "", 0))
    case DocRecord(_) => Some(OAuthToken("", "", 0))
    case Malformed(_) => None
  }

  /** Expired(): the current time is after the end of the lifetime. */
  predicate Expired(issuedOn: int, lifetime: int, now: int)
  {
    now > issuedOn + lifetime
  }

  /**
   * The expiry test of gcBucket as written: a value is decoded as an OAuth
   * code first and only then as a token, and the first decoding that succeeds
   * decides which Expired applies. None: the value is not decodable.
   */
  function ExpiredAsWritten(r: Record, now: int): (e: Option<bool>)
    ensures e.None? <==> r.Malformed?
  {
    match AsCode(r)
    case Some(oc) => Some(Expired(oc.issuedOn, CODE_LIFETIME, now))
    case None =>
      match AsToken(r)
      case Some(ot) => Some(Expired(ot.issuedOn, TOKEN_LIFETIME, now))
      case None => None
  }

  /** Every token decodes as a code, so as written a token expires after the code lifetime. */
  lemma TokenJudgedAsCode(ot: OAuthToken, now: int)
    ensures ExpiredAsWritten(TokenRecord(ot), now) == Some(Expired(ot.issuedOn, CODE_LIFETIME, now))
  {
  }

  /** A token issued two minutes ago is collected as written, a day before it expires. */
  lemma TwoMinuteOldTokenCollected(now: int)
    ensures ExpiredAsWritten(TokenRecord(OAuthToken("t", "alice", now - 120)), now) == Some(true)
    ensures !Expired(now - 120, TOKEN_LIFETIME, now)
  {
  }

  /**
   * The expiry test gcBucket evidently intends: codes by the code lifetime,
   * tokens by the token lifetime, anything else is an unexpected value.
   */
  function ExpiredIntended(r: Record, now: int): (e: Option<bool>)
    ensures e.Some? <==> r.CodeRecord? || r.TokenRecord?
    ensures r.CodeRecord? ==> e == Some(now > r.oc.issuedOn + CODE_LIFETIME)
    ensures r.TokenRecord? ==> e == Some(now > r.ot.issuedOn + TOKEN_LIFETIME)
  {
    match r
    case CodeRecord(oc) => Some(Expired(oc.issuedOn, CODE_LIFETIME, now))
    case TokenRecord(ot) => Some(Expired(ot.issuedOn, TOKEN_LIFETIME, now))
    case _ => None
  }

  /** On codes both tests agree; on tokens they differ exactly for ages in (60 s, 1 day]. */
  lemma ExpiryTestsCompared(r: Record, now: int)
    ensures r.CodeRecord? ==> ExpiredAsWritten(r, now) == ExpiredIntended(r, now)
    ensures r.TokenRecord? ==>
      (ExpiredAsWritten(r, now) != ExpiredIntended(r, now) <==>
        r.ot.issuedOn + CODE_LIFETIME < now <= r.ot.issuedOn + TOKEN_LIFETIME)
  {
  }

  /** bytesToUser: a user record decodes to its user. */
  function AsUser(r: Record): (u: Result<User, Error>)
    ensures u.Err? <==> r.Malformed?
    ensures r.UserRecord? ==> u == Ok(r.user)
  {
    match r
    case UserRecord(u) => Ok(u)
    case CodeRecord(oc) => Ok(User("", [], [], []))
    case TokenRecord(ot) => Ok(User("", [], [], []))
    case DocRecord(_) => Ok(User("", [], [], []))
    case Malformed(_) => Err(Wrap(Plain("invalid character"), "deserializing user failed"))
  }

  /** BytesToVocab: only an encoded ActivityStreams object decodes. */
  function AsDoc(r: Record): (d: Result<string, Error>)
    ensures d.Ok? <==> r.DocRecord?
    ensures d.Ok? ==> d.value == r.doc
  {
    match r
    case DocRecord(d) => Ok(d)
    case _ => Err(Wrap(Plain("cannot resolve type"), "deserializing object failed"))
  }

  // ---------------------------------------------------------------------
  // Keys

  /** The part of a path before its first '/'. */
  function FirstSegment(p: string): (s: string)
    ensures |s| <= |p| && s == p[..|s|] && '/' !in s
  {
    if |p| == 0 || p[0] == '/' then "" else [p[0]] + FirstSegment(p[1..])
  }

  /** toKey(iri): the String() of a URL holding only iri's host and path. */
  function ToKey(iri: Url): (key: string)
  {
    if iri.host != "" then
      "//" + iri.host + (if iri.path != "" && iri.path[0] != '/' then "/" else "") + iri.path
    else
      (if ':' in FirstSegment(iri.path) then "./" else "") + iri.path
  }

  /** A host that cannot run into the path. */
  predicate PlainHost(h: string)
  {
    h != "" && '/' !in h
  }

  /** The key depends on host and path only: scheme, user, query and fragment are ignored. */
  lemma ToKeyIgnoresRest(a: Url, b: Url)
    requires a.host == b.host && a.path == b.path
    ensures ToKey(a) == ToKey(b)
  {
  }

  /** A path and the same path with a leading '/' collide when there is a host. */
  lemma ToKeyRootsPath(a: Url, b: Url)
    requires a.host == b.host != "" && a.path != "" && a.path[0] != '/' && b.path == "/" + a.path
    ensures ToKey(a) == ToKey(b)
  {
  }

  /** Two hosts, each free of '/', followed by rooted paths: the concatenation splits back uniquely. */
  lemma {:induction false} SplitAtHost(h1: string, p1: string, h2: string, p2: string)
    requires '/' !in h1 && '/' !in h2
    requires p1 == "" || p1[0] == '/'
    requires p2 == "" || p2[0] == '/'
    requires h1 + p1 == h2 + p2
    ensures h1 == h2 && p1 == p2
    decreases |h1|
  {
    if |h1| == 0 && |h2| == 0 {
      assert p1 == h1 + p1 && p2 == h2 + p2;
    } else if |h1| == 0 {
      assert false;
    } else if |h2| == 0 {
      assert false;
    } else {
      assert h1[0] == (h1 + p1)[0] == (h2 + p2)[0] == h2[0];
      assert h1[1..] + p1 == (h1 + p1)[1..];
      assert h2[1..] + p2 == (h2 + p2)[1..];
      SplitAtHost(h1[1..], p1, h2[1..], p2);
      assert h1 == [h1[0]] + h1[1..] && h2 == [h2[0]] + h2[1..];
    }
  }

  /** For URLs with a plain host and a rooted or empty path, equal keys mean equal host and path. */
  lemma ToKeyInjective(a: Url, b: Url)
    requires PlainHost(a.host) && PlainHost(b.host)
    requires a.path == "" || a.path[0] == '/'
    requires b.path == "" || b.path[0] == '/'
    requires ToKey(a) == ToKey(b)
    ensures a.host == b.host && a.path == b.path
  {
    assert ToKey(a) == "//" + (a.host + a.path);
    assert ToKey(b) == "//" + (b.host + b.path);
    assert a.host + a.path == ToKey(a)[2..];
    assert b.host + b.path == ToKey(b)[2..];
    SplitAtHost(a.host, a.path, b.host, b.path);
  }

  // ---------------------------------------------------------------------
  // What a transaction reads and writes

  /** The view underlying retrieve: a bucket lookup, with status 404 for a missing key. */
  function RetrieveSpec(data: Db, bucket: string, key: string): (r: Result<Record, Error>)
    ensures r.Ok? <==> bucket in data && key in data[bucket]
    ensures r.Ok? ==> r.value == data[bucket][key]
    ensures bucket in data && key !in data[bucket] ==> r.Err? && Status(r.error) == (404, true)
    ensures bucket !in data ==> r.Err? && Status(r.error) == (0, false)
  {
    if bucket !in data then Err(Plain("cannot open bucket=" + bucket))
    else if key !in data[bucket] then Err(NewfWith(404, "no entry for key=" + key + " in bucket=" + bucket))
    else Ok(data[bucket][key])
  }

  /** The update underlying store: b.Put, which refuses an empty or an over-long key. */
  function StoreSpec(data: Db, bucket: string, key: string, value: Record): (r: Result<Db, Error>)
    ensures r.Ok? <==> bucket in data && key != "" && |key| <= MAX_KEY_SIZE
    ensures r.Ok? ==> r.value == data[bucket := data[bucket][key := value]]
  {
    if bucket !in data then Err(Plain("cannot open bucket=" + bucket))
    else if key == "" then Err(Wrapf(Plain("key required"), "put key= into bucket=" + bucket + " failed"))
    else if |key| > MAX_KEY_SIZE then Err(Wrapf(Plain("key too large"), "put key=" + key + " into bucket=" + bucket + " failed"))
    else Ok(data[bucket := data[bucket][key := value]])
  }

  /** What is read back after a successful store is what was stored, whatever the bucket held. */
  lemma RetrieveAfterStore(data: Db, bucket: string, key: string, value: Record)
    requires StoreSpec(data, bucket, key, value).Ok?
    ensures RetrieveSpec(StoreSpec(data, bucket, key, value).value, bucket, key) == Ok(value)
  {
  }

  /** A store leaves every other key and every other bucket as it was. */
  lemma StoreFrame(data: Db, bucket: string, key: string, value: Record, b: string, k: string)
    requires StoreSpec(data, bucket, key, value).Ok?
    requires b != bucket || k != key
    ensures RetrieveSpec(StoreSpec(data, bucket, key, value).value, b, k).Ok? <==> RetrieveSpec(data, b, k).Ok?
    ensures RetrieveSpec(data, b, k).Ok? ==>
      RetrieveSpec(StoreSpec(data, bucket, key, value).value, b, k) == RetrieveSpec(data, b, k)
  {
  }

  /** The entries gcBucket keeps: those whose value the expiry test finds unexpired. */
  function Unexpired(b: Bucket, expired: Record -> Option<bool>): (kept: Bucket)
    requires forall k :: k in b ==> expired(b[k]).Some?
    ensures kept.Keys <= b.Keys
    ensures forall k :: k in kept ==> kept[k] == b[k] && !expired(b[k]).value
    ensures forall k :: k in b && !expired(b[k]).value ==> k in kept
  {
    map k | k in b && !expired(b[k]).value :: b[k]
  }

  /** Collecting twice at the same time removes nothing more. */
  lemma UnexpiredIdempotent(b: Bucket, expired: Record -> Option<bool>)
    requires forall k :: k in b ==> expired(b[k]).Some?
    ensures Unexpired(Unexpired(b, expired), expired) == Unexpired(b, expired)
  {
  }

  /** With the intended test, a token survives collection until its full day is over. */
  lemma TokenSurvivesIntendedCollection(b: Bucket, key: string, now: int)
    requires forall k :: k in b ==> ExpiredIntended(b[k], now).Some?
    requires key in b && b[key].TokenRecord? && now <= b[key].ot.issuedOn + TOKEN_LIFETIME
    ensures key in Unexpired(b, r => ExpiredIntended(r, now))
  {
  }

  /** The contents of the four buckets Open creates, all empty. */
  function Fresh(): (data: Db)
    ensures data.Keys == {USERS_BUCKET, CODES_BUCKET, TOKENS_BUCKET, DOCUMENTS_BUCKET}
    ensures forall b :: b in data ==> data[b] == map[]
  {
    map[USERS_BUCKET := map[], CODES_BUCKET := map[], TOKENS_BUCKET := map[], DOCUMENTS_BUCKET := map[]]
  }

  /**
   * The ForEach pass of gcBucket: the keys whose value the test finds
   * expired, or None as soon as a value cannot be decoded.
   */
  method CollectExpired(b: Bucket, expired: Record -> Option<bool>) returns (keys: Option<seq<string>>)
    ensures keys.None? <==> exists k :: k in b && expired(b[k]).None?
    ensures keys.Some? ==> forall k :: k in keys.value <==> k in b && expired(b[k]) == Some(true)
  {
    var expiredKeys: seq<string> := [];
    var unseen := b.Keys;
    while unseen != {}
      invariant unseen <= b.Keys
      invariant forall k :: k in b && k !in unseen ==> expired(b[k]).Some?
      invariant forall k :: k in expiredKeys ==> k in b && expired(b[k]) == Some(true)
      invariant forall k :: k in b && k !in unseen && expired(b[k]) == Some(true) ==> k in expiredKeys
      decreases |unseen|
    {
      var key :| key in unseen;
      var e := expired(b[key]);
      if e.None? {
        return None;
      }
      if e.value {
        expiredKeys := expiredKeys + [key];
      }
      unseen := unseen - {key};
    }
    return Some(expiredKeys);
  }

  /** The delete pass of gcBucket: b without the listed keys. */
  method DeleteKeys(b: Bucket, keys: seq<string>) returns (kept: Bucket)
    ensures forall k :: k in kept <==> k in b && k !in keys
    ensures forall k :: k in kept ==> kept[k] == b[k]
  {
    kept := b;
    for i := 0 to |keys|
      invariant forall k :: k in kept <==> k in b && k !in keys[..i]
      invariant forall k :: k in kept ==> kept[k] == b[k]
    {
      assert keys[..i + 1] == keys[..i] + [keys[i]];
      kept := kept - {keys[i]};
    }
    assert keys[..|keys|] == keys;
  }

  // ---------------------------------------------------------------------
  // FedEmbeddedStorage and fedembeddedtx

  class FedEmbeddedStorage {
    /** The committed contents of the database file. */
    var db: Db

    /** A storage after Open: the four buckets exist and are empty. */
    constructor ()
      ensures db == Fresh()
    {
      db := Fresh();
    }

    /** Begin(): a read-only transaction over the current contents, holding one read lock. */
    method Begin() returns (tx: Tx)
      ensures fresh(tx) && tx.Valid() && tx.parent == this
      ensures tx.btx == BoltTx(false, true, db)
      ensures !tx.haveWriteLock && !tx.commited && tx.commitedError == None
      ensures tx.readLocks == 1 && tx.writeLocks == 0
    {
      tx := new Tx(this);
    }

    /** RetrieveUser(username): a one-operation transaction, ended by Commit. */
    method RetrieveUser(username: string) returns (r: Result<User, Error>, ghost tx: Tx)
      modifies this
      ensures r == (match RetrieveSpec(old(db), USERS_BUCKET, username)
                    case Err(e) => Err(e)
                    case Ok(rec) => AsUser(rec))
      ensures db == old(db)
      ensures tx.commited && tx.readLocks == 0 && tx.writeLocks == 0
    {
      var t := Begin();
      tx := t;
      r := t.RetrieveUser(username);
      var cerr := t.Commit(None);
      assert cerr == None;
    }

    /** StoreUser(user): a one-operation transaction; the store is committed unless it failed. */
    method StoreUser(user: User, ioError: Option<Error>) returns (err: Option<Error>, ghost tx: Tx)
      modifies this
      ensures var s := StoreSpec(old(db), USERS_BUCKET, user.name, UserRecord(user));
        if s.Err? then err == Some(s.error) && db == old(db)
        else if ioError.Some? then err == ioError && db == old(db)
        else err == None && db == s.value
      ensures tx.commited && tx.readLocks == 0 && tx.writeLocks == 0
    {
      var t := Begin();
      tx := t;
      var e := t.StoreUser(user);
      if e.Some? {
        var _ := t.Commit(ioError);
        return e, tx;
      }
      err := t.Commit(ioError);
    }

    /** RetrieveCode(code): a one-operation transaction, ended by Commit. */
    method RetrieveCode(code: string) returns (r: Result<OAuthCode, Error>, ghost tx: Tx)
      modifies this
      ensures r.Ok? ==>
        RetrieveSpec(old(db), CODES_BUCKET, code).Ok? && AsCode(RetrieveSpec(old(db), CODES_BUCKET, code).value) == Some(r.value)
      ensures RetrieveSpec(old(db), CODES_BUCKET, code).Err? ==> r == Err(RetrieveSpec(old(db), CODES_BUCKET, code).error)
      ensures RetrieveSpec(old(db), CODES_BUCKET, code).Ok? ==>
        (r.Err? <==> RetrieveSpec(old(db), CODES_BUCKET, code).value.Malformed?)
      ensures db == old(db)
      ensures tx.commited && tx.readLocks == 0 && tx.writeLocks == 0
    {
      var t := Begin();
      tx := t;
      r := t.RetrieveCode(code);
      var _ := t.Commit(None);
    }

    /** StoreCode(code): a one-operation transaction; the store is committed unless it failed. */
    method StoreCode(code: OAuthCode, ioError: Option<Error>) returns (err: Option<Error>, ghost tx: Tx)
      modifies this
      ensures var s := StoreSpec(old(db), CODES_BUCKET, code.code, CodeRecord(code));
        if s.Err? then err == Some(s.error) && db == old(db)
        else if ioError.Some? then err == ioError && db == old(db)
        else err == None && db == s.value
      ensures tx.commited && tx.readLocks == 0 && tx.writeLocks == 0
    {
      var t := Begin();
      tx := t;
      var e := t.StoreCode(code);
      if e.Some? {
        var _ := t.Commit(ioError);
        return e, tx;
      }
      err := t.Commit(ioError);
    }

    /** RetrieveToken(token): a one-operation transaction, ended by Commit. */
    method RetrieveToken(token: string) returns (r: Result<OAuthToken, Error>, ghost tx: Tx)
      modifies this
      ensures r.Ok? ==>
        RetrieveSpec(old(db), TOKENS_BUCKET, token).Ok? && AsToken(RetrieveSpec(old(db), TOKENS_BUCKET, token).value) == Some(r.value)
      ensures RetrieveSpec(old(db), TOKENS_BUCKET, token).Err? ==> r == Err(RetrieveSpec(old(db), TOKENS_BUCKET, token).error)
      ensures RetrieveSpec(old(db), TOKENS_BUCKET, token).Ok? ==>
        (r.Err? <==> RetrieveSpec(old(db), TOKENS_BUCKET, token).value.Malformed?)
      ensures db == old(db)
      ensures tx.commited && tx.readLocks == 0 && tx.writeLocks == 0
    {
      var t := Begin();
      tx := t;
      r := t.RetrieveToken(token);
      var _ := t.Commit(None);
    }

    /** StoreToken(token): a one-operation transaction; the store is committed unless it failed. */
    method StoreToken(token: OAuthToken, ioError: Option<Error>) returns (err: Option<Error>, ghost tx: Tx)
      modifies this
      ensures var s := StoreSpec(old(db), TOKENS_BUCKET, token.token, TokenRecord(token));
        if s.Err? then err == Some(s.error) && db == old(db)
        else if ioError.Some? then err == ioError && db == old(db)
        else err == None && db == s.value
      ensures tx.commited && tx.readLocks == 0 && tx.writeLocks == 0
    {
      var t := Begin();
      tx := t;
      var e := t.StoreToken(token);
      if e.Some? {
        var _ := t.Commit(ioError);
        return e, tx;
      }
      err := t.Commit(ioError);
    }

    /** RetrieveObject(iri): a one-operation transaction, ended by Commit. */
    method RetrieveObject(iri: Url) returns (r: Result<string, Error>, ghost tx: Tx)
      modifies this
      ensures r == (match RetrieveSpec(old(db), DOCUMENTS_BUCKET, ToKey(iri))
                    case Err(e) => Err(e)
                    case Ok(rec) => AsDoc(rec))
      ensures db == old(db)
      ensures tx.commited && tx.readLocks == 0 && tx.writeLocks == 0
    {
      var t := Begin();
      tx := t;
      r := t.RetrieveObject(iri);
      var _ := t.Commit(None);
    }

    /** StoreObject(iri, doc): a one-operation transaction under the key of iri. */
    method StoreObject(iri: Url, doc: string, ioError: Option<Error>) returns (err: Option<Error>, ghost tx: Tx)
      modifies this
      ensures var s := StoreSpec(old(db), DOCUMENTS_BUCKET, ToKey(iri), DocRecord(doc));
        if s.Err? then err == Some(s.error) && db == old(db)
        else if ioError.Some? then err == ioError && db == old(db)
        else err == None && db == s.value
      ensures tx.commited && tx.readLocks == 0 && tx.writeLocks == 0
    {
      var t := Begin();
      tx := t;
      var e := t.StoreObject(iri, doc);
      if e.Some? {
        var _ := t.Commit(ioError);
        return e, tx;
      }
      err := t.Commit(ioError);
    }

    /** DeleteObject(iri): a one-operation transaction removing the key of iri. */
    method DeleteObject(iri: Url, ioError: Option<Error>) returns (err: Option<Error>, ghost tx: Tx)
      modifies this
      ensures DOCUMENTS_BUCKET !in old(db) ==> err.Some? && db == old(db)
      ensures DOCUMENTS_BUCKET in old(db) && ioError.Some? ==> err == ioError && db == old(db)
      ensures DOCUMENTS_BUCKET in old(db) && ioError.None? ==>
        err == None && db == old(db)[DOCUMENTS_BUCKET := old(db)[DOCUMENTS_BUCKET] - {ToKey(iri)}]
      ensures tx.commited && tx.readLocks == 0 && tx.writeLocks == 0
    {
      var t := Begin();
      tx := t;
      var e := t.DeleteObject(iri);
      if e.Some? {
        var _ := t.Commit(ioError);
        return e, tx;
      }
      err := t.Commit(ioError);
    }
  }

  /** The error a first Commit records for the calls after it. */
  function CommitRecord(err: Option<Error>): (rec: Option<Error>)
    ensures rec.Some? <==> err.Some?
    ensures err.Some? ==> Message(rec.value) == TrimSpace(Annotated("previous Commit failed", err.value))
  {
    if err.Some? then Some(Wrap(err.value, "previous Commit failed")) else None
  }

  class Tx {
    const parent: FedEmbeddedStorage
    var btx: BoltTx
    var haveWriteLock: bool
    var commited: bool
    var commitedError: Option<Error>
    ghost var readLocks: nat
    ghost var writeLocks: nat

    /**
     * Until the first Commit or Rollback the transaction holds its read lock,
     * holds the write lock exactly when it has upgraded, and its bbolt
     * transaction is open and writable exactly when upgraded; afterwards it
     * holds no lock and its bbolt transaction is closed.
     */
    ghost predicate Valid()
      reads this
    {
      if commited then readLocks == 0 && writeLocks == 0 && !btx.open
      else
        readLocks == 1 && writeLocks == (if haveWriteLock then 1 else 0) &&
        btx.open && btx.writable == haveWriteLock && commitedError == None
    }

    /** The contents a write through update would work on. */
    function WriteView(): Db
      reads this, parent
    {
      if haveWriteLock then btx.data else parent.db
    }

    constructor (fs: FedEmbeddedStorage)
      ensures Valid() && parent == fs
      ensures btx == BoltTx(false, true, fs.db)
      ensures !haveWriteLock && !commited && commitedError == None
      ensures readLocks == 1 && writeLocks == 0
    {
      parent := fs;
      btx := BoltTx(false, true, fs.db);
      haveWriteLock := false;
      commited := false;
      commitedError := None;
      readLocks := 1;
      writeLocks := 0;
    }

    /**
     * Commit(): the first call commits an upgraded transaction and rolls back
     * a read-only one, releasing every lock; a later call only returns the
     * recorded error. ioError is what bbolt's commit of a writable
     * transaction reports.
     */
    method Commit(ioError: Option<Error>) returns (err: Option<Error>)
      requires Valid()
      modifies this, parent
      ensures Valid() && commited && haveWriteLock == old(haveWriteLock)
      ensures old(commited) ==> err == old(commitedError) && commitedError == old(commitedError) && parent.db == old(parent.db)
      ensures !old(commited) && old(haveWriteLock) ==>
        err == ioError && parent.db == (if ioError.None? then old(btx.data) else old(parent.db))
      ensures !old(commited) && !old(haveWriteLock) ==> err == None && parent.db == old(parent.db)
      ensures !old(commited) ==> commitedError == CommitRecord(err)
    {
      if commited {
        return commitedError;
      }
      if haveWriteLock {
        err := ioError;
        if ioError.None? {
          parent.db := btx.data;
        }
      } else {
        err := None;
      }
      readLocks := 0;
      writeLocks := 0;
      btx := btx.(open := false);
      commited := true;
      commitedError := CommitRecord(err);
    }

    /** Rollback(): the first call discards the transaction and releases every lock. */
    method Rollback() returns (err: Option<Error>)
      requires Valid()
      modifies this
      ensures Valid() && commited
      ensures old(commited) ==> err == old(commitedError) && unchanged(this)
      ensures !old(commited) ==> err == None && commitedError == None
      ensures haveWriteLock == old(haveWriteLock)
    {
      if !commited {
        readLocks := readLocks - 1;
        if haveWriteLock {
          writeLocks := writeLocks - 1;
        }
        btx := btx.(open := false);
        commited := true;
        return None;
      }
      return commitedError;
    }

    /**
     * The upgrade step of update: the first write takes the write lock and
     * replaces the read-only transaction by a writable one over the current
     * contents; later writes reuse it.
     */
    method Upgrade()
      requires Valid() && !commited
      modifies this
      ensures Valid() && !commited && haveWriteLock
      ensures old(haveWriteLock) ==> unchanged(this)
      ensures !old(haveWriteLock) ==> btx == BoltTx(true, true, parent.db) && writeLocks == 1
      ensures btx.data == old(WriteView())
      ensures readLocks == 1 && commitedError == old(commitedError)
    {
      if !haveWriteLock {
        writeLocks := writeLocks + 1;
        haveWriteLock := true;
        btx := btx.(open := false);
        btx := BoltTx(true, true, parent.db);
      }
    }

    /** retrieve(bucket, key), through view: reads what the transaction sees. */
    method Retrieve(bucket: string, key: string) returns (r: Result<Record, Error>)
      requires Valid() && !commited
      ensures r == RetrieveSpec(btx.data, bucket, key)
    {
      if bucket !in btx.data {
        return Err(Plain("cannot open bucket=" + bucket));
      }
      if key !in btx.data[bucket] {
        return Err(NewfWith(404, "no entry for key=" + key + " in bucket=" + bucket));
      }
      return Ok(btx.data[bucket][key]);
    }

    /** store(bucket, key, value), through update. */
    method Store(bucket: string, key: string, value: Record) returns (err: Option<Error>)
      requires Valid() && !commited
      modifies this
      ensures Valid() && !commited && haveWriteLock && readLocks == 1 && writeLocks == 1
      ensures var s := StoreSpec(old(WriteView()), bucket, key, value);
        if s.Ok? then err == None && btx.data == s.value
        else err == Some(s.error) && btx.data == old(WriteView())
    {
      Upgrade();
      var s := StoreSpec(btx.data, bucket, key, value);
      if s.Err? {
        return Some(s.error);
      }
      btx := btx.(data := s.value);
      return None;
    }

    method RetrieveUser(username: string) returns (r: Result<User, Error>)
      requires Valid() && !commited
      ensures r == (match RetrieveSpec(btx.data, USERS_BUCKET, username)
                    case Err(e) => Err(e)
                    case Ok(rec) => AsUser(rec))
    {
      var bytes := Retrieve(USERS_BUCKET, username);
      if bytes.Err? {
        return Err(bytes.error);
      }
      r := AsUser(bytes.value);
    }

    method StoreUser(user: User) returns (err: Option<Error>)
      requires Valid() && !commited
      modifies this
      ensures Valid() && !commited && haveWriteLock && readLocks == 1 && writeLocks == 1
      ensures var s := StoreSpec(old(WriteView()), USERS_BUCKET, user.name, UserRecord(user));
        if s.Ok? then err == None && btx.data == s.value
        else err == Some(s.error) && btx.data == old(WriteView())
    {
      err := Store(USERS_BUCKET, user.name, UserRecord(user));
    }

    /** RetrieveCode(code): the stored value decoded as an OAuth code. */
    method RetrieveCode(code: string) returns (r: Result<OAuthCode, Error>)
      requires Valid() && !commited
      ensures r.Ok? ==>
        RetrieveSpec(btx.data, CODES_BUCKET, code).Ok? && AsCode(RetrieveSpec(btx.data, CODES_BUCKET, code).value) == Some(r.value)
      ensures RetrieveSpec(btx.data, CODES_BUCKET, code).Err? ==> r == Err(RetrieveSpec(btx.data, CODES_BUCKET, code).error)
      ensures RetrieveSpec(btx.data, CODES_BUCKET, code).Ok? ==>
        (r.Err? <==> RetrieveSpec(btx.data, CODES_BUCKET, code).value.Malformed?)
    {
      var bs := Retrieve(CODES_BUCKET, code);
      if bs.Err? {
        return Err(bs.error);
      }
      var c := AsCode(bs.value);
      if c.None? {
        return Err(Wrap(Plain("invalid character"), "deserializing code failed"));
      }
      return Ok(c.value);
    }

    method StoreCode(code: OAuthCode) returns (err: Option<Error>)
      requires Valid() && !commited
      modifies this
      ensures Valid() && !commited && haveWriteLock && readLocks == 1 && writeLocks == 1
      ensures var s := StoreSpec(old(WriteView()), CODES_BUCKET, code.code, CodeRecord(code));
        if s.Ok? then err == None && btx.data == s.value
        else err == Some(s.error) && btx.data == old(WriteView())
    {
      err := Store(CODES_BUCKET, code.code, CodeRecord(code));
    }

    /** RetrieveToken(token): the stored value decoded as an OAuth token. */
    method RetrieveToken(token: string) returns (r: Result<OAuthToken, Error>)
      requires Valid() && !commited
      ensures r.Ok? ==>
        RetrieveSpec(btx.data, TOKENS_BUCKET, token).Ok? && AsToken(RetrieveSpec(btx.data, TOKENS_BUCKET, token).value) == Some(r.value)
      ensures RetrieveSpec(btx.data, TOKENS_BUCKET, token).Err? ==> r == Err(RetrieveSpec(btx.data, TOKENS_BUCKET, token).error)
      ensures RetrieveSpec(btx.data, TOKENS_BUCKET, token).Ok? ==>
        (r.Err? <==> RetrieveSpec(btx.data, TOKENS_BUCKET, token).value.Malformed?)
    {
      var bs := Retrieve(TOKENS_BUCKET, token);
      if bs.Err? {
        return Err(bs.error);
      }
      var t := AsToken(bs.value);
      if t.None? {
        return Err(Wrap(Plain("invalid character"), "deserializing token failed"));
      }
      return Ok(t.value);
    }

    method StoreToken(token: OAuthToken) returns (err: Option<Error>)
      requires Valid() && !commited
      modifies this
      ensures Valid() && !commited && haveWriteLock && readLocks == 1 && writeLocks == 1
      ensures var s := StoreSpec(old(WriteView()), TOKENS_BUCKET, token.token, TokenRecord(token));
        if s.Ok? then err == None && btx.data == s.value
        else err == Some(s.error) && btx.data == old(WriteView())
    {
      err := Store(TOKENS_BUCKET, token.token, TokenRecord(token));
    }

    method RetrieveObject(iri: Url) returns (r: Result<string, Error>)
      requires Valid() && !commited
      ensures r == (match RetrieveSpec(btx.data, DOCUMENTS_BUCKET, ToKey(iri))
                    case Err(e) => Err(e)
                    case Ok(rec) => AsDoc(rec))
    {
      var bytes := Retrieve(DOCUMENTS_BUCKET, ToKey(iri));
      if bytes.Err? {
        return Err(bytes.error);
      }
      r := AsDoc(bytes.value);
    }

    method StoreObject(iri: Url, doc: string) returns (err: Option<Error>)
      requires Valid() && !commited
      modifies this
      ensures Valid() && !commited && haveWriteLock && readLocks == 1 && writeLocks == 1
      ensures var s := StoreSpec(old(WriteView()), DOCUMENTS_BUCKET, ToKey(iri), DocRecord(doc));
        if s.Ok? then err == None && btx.data == s.value
        else err == Some(s.error) && btx.data == old(WriteView())
    {
      err := Store(DOCUMENTS_BUCKET, ToKey(iri), DocRecord(doc));
    }

    /** DeleteObject(iri): remove the key of iri from the documents, present or not. */
    method DeleteObject(iri: Url) returns (err: Option<Error>)
      requires Valid() && !commited
      modifies this
      ensures Valid() && !commited && haveWriteLock && readLocks == 1 && writeLocks == 1
      ensures DOCUMENTS_BUCKET !in old(WriteView()) ==> err.Some? && btx.data == old(WriteView())
      ensures DOCUMENTS_BUCKET in old(WriteView()) ==>
        err == None && btx.data == old(WriteView())[DOCUMENTS_BUCKET := old(WriteView())[DOCUMENTS_BUCKET] - {ToKey(iri)}]
    {
      Upgrade();
      if DOCUMENTS_BUCKET !in btx.data {
        return Some(New("could not open documents bucket"));
      }
      btx := btx.(data := btx.data[DOCUMENTS_BUCKET := btx.data[DOCUMENTS_BUCKET] - {ToKey(iri)}]);
      return None;
    }

    /**
     * gcBucket(tx, bucket), with the expiry test as a parameter: through
     * update, first collect the keys whose value the test finds expired
     * (failing on a value it cannot decode), then delete them.
     */
    method GcBucket(bucket: string, expired: Record -> Option<bool>) returns (err: Option<Error>)
      requires Valid() && !commited
      modifies this
      ensures Valid() && !commited && haveWriteLock && readLocks == 1 && writeLocks == 1
      ensures bucket !in old(WriteView()) ==> err.Some? && btx.data == old(WriteView())
      ensures bucket in old(WriteView()) && (exists k :: k in old(WriteView())[bucket] && expired(old(WriteView())[bucket][k]).None?) ==>
        err.Some? && btx.data == old(WriteView())
      ensures bucket in old(WriteView()) && (forall k :: k in old(WriteView())[bucket] ==> expired(old(WriteView())[bucket][k]).Some?) ==>
        err == None && btx.data == old(WriteView())[bucket := Unexpired(old(WriteView())[bucket], expired)]
    {
      Upgrade();
      if bucket !in btx.data {
        return Some(Plain("cannot open bucket=" + bucket));
      }
      var b := btx.data[bucket];
      var expiredKeys := CollectExpired(b, expired);
      if expiredKeys.None? {
        return Some(Wrap(Newf("unexpected value"), "error while trying to detrmine expired keys"));
      }
      var kept := DeleteKeys(b, expiredKeys.value);
      assert kept == Unexpired(b, expired);
      btx := btx.(data := btx.data[bucket := kept]);
      return None;
    }
  }

  /**
   * The round trip of db/fed_embedded_storage_test.go: a user stored and
   * committed by one transaction is read back, with the same fields, by a
   * later one.
   */
  method StoreThenRetrieve(fs: FedEmbeddedStorage, user: User) returns (err: Option<Error>, r: Result<User, Error>)
    requires USERS_BUCKET in fs.db && user.name != "" && |user.name| <= MAX_KEY_SIZE
    modifies fs
    ensures err == None && r == Ok(user)
  {
    var tx := fs.Begin();
    err := tx.StoreUser(user);
    var cerr := tx.Commit(None);
    var tx2 := fs.Begin();
    r := tx2.RetrieveUser(user.name);
    RetrieveAfterStore(old(fs.db), USERS_BUCKET, user.name, UserRecord(user));
    var _ := tx2.Commit(None);
  }
}
