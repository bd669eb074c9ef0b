// oauth_handlers.go: collecting the mandatory query parameters (query), the
// check shared by both /oauth/authorize handlers (validateOAuthAuthorize), the
// decisions of the authorize form handler (PostOAuthAuthorize) and of the
// token endpoint (PostOAuthToken), and random, which renders 16 random bytes
// as lower-case hex.
//
// A request's URL query is its url.Values map. The storage, the password
// check, crypto/rand, the clock and url.Parse are parameters (Env); what a
// handler does is returned as an outcome value instead of being written to
// the ResponseWriter.

module OAuth {
  import opened Common
  import opened GoStrings
  import opened Errors
  import opened Helpers
  import opened Api
  import EmbeddedStorage

  type Query = map<string, seq<string>>
  type User = EmbeddedStorage.User
  type OAuthCode = EmbeddedStorage.OAuthCode
  type OAuthToken = EmbeddedStorage.OAuthToken

  // ---------------------------------------------------------------------
  // query

  /** k appears in the query exactly once. */
  predicate Single(q: Query, k: string)
  {
    k in q && |q[k]| == 1
  }

  /** The error query reports for a key that is not Single. */
  function QueryError(q: Query, k: string): Error
  {
    if k !in q then Plain("missing required param=" + k)
    else Plain("param=" + k + " needs to appear exactly once")
  }

  /** What query(keys, r) returns: the first key that is missing or repeated decides the error. */
  function Params(keys: seq<string>, q: Query): (r: Result<map<string, string>, Error>)
    ensures r.Ok? <==> forall i :: 0 <= i < |keys| ==> Single(q, keys[i])
    ensures r.Ok? ==> forall k :: k in r.value <==> k in keys
    ensures r.Ok? ==> forall k :: k in r.value ==> Single(q, k) && r.value[k] == q[k][0]
    ensures r.Err? ==> exists i :: 0 <= i < |keys| && !Single(q, keys[i]) && r.error == QueryError(q, keys[i]) &&
                                   (forall j :: 0 <= j < i ==> Single(q, keys[j]))
    decreases |keys|
  {
    if |keys| == 0 then Ok(map[])
    else if !Single(q, keys[0]) then Err(QueryError(q, keys[0]))
    else
      var rest := Params(keys[1..], q);
      assert forall i :: 1 <= i < |keys| ==> keys[i] == keys[1..][i - 1];
      if rest.Err? then
        var i :| 0 <= i < |keys[1..]| && !Single(q, keys[1..][i]) && rest.error == QueryError(q, keys[1..][i]) &&
          forall j :: 0 <= j < i ==> Single(q, keys[1..][j]);
        assert keys[i + 1] == keys[1..][i];
        rest
      else Ok(rest.value[keys[0] := q[keys[0]][0]])
  }

  /** query: the loop over keys, filling params and returning at the first bad key. */
  method QueryParams(keys: seq<string>, q: Query) returns (r: Result<map<string, string>, Error>)
    ensures r == Params(keys, q)
  {
    var params: map<string, string> := map[];
    var i := 0;
    while i < |keys|
      invariant 0 <= i <= |keys|
      invariant forall j :: 0 <= j < i ==> Single(q, keys[j])
      invariant forall k :: k in params <==> k in keys[..i]
      invariant forall k :: k in params ==> Single(q, k) && params[k] == q[k][0]
    {
      var k := keys[i];
      if k !in q {
        r := Err(Plain("missing required param=" + k));
        FirstBadKeyDecides(keys, q, i);
        return;
      }
      var vs := q[k];
      if |vs| != 1 {
        r := Err(Plain("param=" + k + " needs to appear exactly once"));
        FirstBadKeyDecides(keys, q, i);
        return;
      }
      params := params[k := vs[0]];
      assert keys[..i + 1] == keys[..i] + [k];
      i := i + 1;
    }
    assert keys[..i] == keys;
    r := Ok(params);
    var p := Params(keys, q);
    assert p.Ok?;
    assert params.Keys == p.value.Keys;
    assert forall k :: k in params ==> params[k] == p.value[k];
    assert params == p.value;
  }

  /** The error Params reports is the one of the first key that is not Single. */
  lemma FirstBadKeyDecides(keys: seq<string>, q: Query, i: nat)
    requires i < |keys| && !Single(q, keys[i])
    requires forall j :: 0 <= j < i ==> Single(q, keys[j])
    ensures Params(keys, q) == Err(QueryError(q, keys[i]))
  {
    var p := Params(keys, q);
    assert p.Err?;
    var i' :| 0 <= i' < |keys| && !Single(q, keys[i']) && p.error == QueryError(q, keys[i']) &&
      forall j :: 0 <= j < i' ==> Single(q, keys[j]);
    if i' < i {
      assert false;
    } else if i < i' {
      assert false;
    }
  }

  /** Keys that are each given once yield exactly those values; extra query entries are ignored. */
  lemma ParamsOfSingles(keys: seq<string>, q: Query)
    requires forall i :: 0 <= i < |keys| ==> Single(q, keys[i])
    ensures Params(keys, q).Ok?
    ensures Params(keys, q).value.Keys == set i | 0 <= i < |keys| :: keys[i]
    ensures forall i :: 0 <= i < |keys| ==> Params(keys, q).value[keys[i]] == q[keys[i]][0]
  {
    var m := Params(keys, q).value;
    forall k | k in m ensures k in set i | 0 <= i < |keys| :: keys[i]
    {
      var i :| 0 <= i < |keys| && keys[i] == k;
    }
  }

  /** The errors query produces carry no status, and ApiError keeps the status it is given. */
  lemma QueryErrorKeepsStatus(keys: seq<string>, q: Query, status: int)
    requires Params(keys, q).Err?
    ensures ApiError(Failure(Params(keys, q).error), status).status == status
  {
  }

  // ---------------------------------------------------------------------
  // The environment of a handler

  /** rand.Read into 16 bytes: it fills the slice or fails. */
  const NBYTES: nat := 16
  type Block = s: seq<byte> | |s| == NBYTES witness seq(16, _ => 0)

  /**
   * What the handlers consult besides the request: the storage, the password
   * check on a user, crypto/rand, time.Now, url.Parse (its error, if any)
   * and the storage's StoreCode and StoreToken.
   */
  datatype Env = Env(
    retrieveUser: string -> Result<User, Error>,
    passwordOK: (User, string) -> bool,
    retrieveCode: string -> Result<OAuthCode, Error>,
    randomRead: Result<Block, Error>,
    now: int,
    parseUrl: string -> Option<Error>,
    storeCode: OAuthCode -> Option<Error>,
    storeToken: OAuthToken -> Option<Error>)

  // ---------------------------------------------------------------------
  // random

  /** random(): the bytes rendered by fmt's %x, or the wrapped read error. */
  function Random(read: Result<Block, Error>): (r: Result<string, Error>)
    ensures r.Ok? <==> read.Ok?
    ensures r.Ok? ==> |r.value| == 2 * NBYTES && forall i :: 0 <= i < |r.value| ==> IsHexDigit(r.value[i])
    ensures read.Err? ==> r == Err(Wrap(read.error, "could not generate random string"))
  {
    if read.Err? then Err(Wrap(read.error, "could not generate random string"))
    else Ok(Hex(read.value))
  }

  lemma HexDigitInjective(a: nat, b: nat)
    requires a < 16 && b < 16
    ensures HexDigit(a) == HexDigit(b) ==> a == b
  {
  }

  /** Hex loses nothing: equal renderings come from equal bytes. */
  lemma {:induction false} HexInjective(a: seq<byte>, b: seq<byte>)
    requires Hex(a) == Hex(b)
    ensures a == b
  {
    if |a| > 0 {
      var x, y := a[0] as nat, b[0] as nat;
      assert Hex(a)[0] == HexDigit(x / 16) && Hex(a)[1] == HexDigit(x % 16);
      assert Hex(b)[0] == HexDigit(y / 16) && Hex(b)[1] == HexDigit(y % 16);
      HexDigitInjective(x / 16, y / 16);
      HexDigitInjective(x % 16, y % 16);
      assert Hex(a)[2..] == Hex(a[1..]);
      assert Hex(b)[2..] == Hex(b[1..]);
      HexInjective(a[1..], b[1..]);
    }
  }

  /** Different random blocks give different codes and tokens. */
  lemma RandomInjective(a: Block, b: Block)
    requires a != b
    ensures Random(Ok(a)) != Random(Ok(b))
  {
    if Random(Ok(a)) == Random(Ok(b)) {
      HexInjective(a, b);
    }
  }

  // ---------------------------------------------------------------------
  // validateOAuthAuthorize

  const AUTHORIZE_KEYS: seq<string> := ["response_type", "client_id", "redirect_uri"]

  /** validateOAuthAuthorize: the error reply when the request is done with, None otherwise. */
  function ValidateOAuthAuthorize(q: Query): (r: Option<Reply>)
    ensures Params(AUTHORIZE_KEYS, q).Err? ==> r == Some(ApiError(Failure(Params(AUTHORIZE_KEYS, q).error), 500))
    ensures Params(AUTHORIZE_KEYS, q).Err? ==> r.value.status == 500
    ensures Params(AUTHORIZE_KEYS, q).Ok? && q["response_type"][0] != "code" ==>
      r == Some(Reply(400, "unsupported response_type"))
    ensures r.None? <==>
      Single(q, "response_type") && Single(q, "client_id") && Single(q, "redirect_uri") && q["response_type"] == ["code"]
  {
    var ps := Params(AUTHORIZE_KEYS, q);
    assert AUTHORIZE_KEYS[0] == "response_type" && AUTHORIZE_KEYS[1] == "client_id" && AUTHORIZE_KEYS[2] == "redirect_uri";
    if ps.Err? then Some(ApiError(Failure(ps.error), 500))
    else if ps.value["response_type"] != "code" then Some(ApiError(Text("unsupported response_type"), 400))
    else None
  }

  // ---------------------------------------------------------------------
  // PostOAuthAuthorize

  datatype Flash = Warning(text: string) | Failed(text: string)

  /** What a refused login does: the status set with fedcontext.Status and the flash shown on the form. */
  datatype Refusal = Refusal(status: int, flash: Flash)

  /**
   * What PostOAuthAuthorize ends in: an error reply; a flash, a status and the
   * re-rendered form (GetOAuthAuthorize on the same request); or the redirect
   * to redirect_uri with the stored code added to its query.
   */
  datatype AuthorizeOutcome =
    | Rejected(reply: Reply)
    | Rerendered(refusal: Refusal)
    | Redirected(redirectUri: string, code: OAuthCode)

  /** The credential checks of PostOAuthAuthorize: the user, or why the form is shown again. */
  function Login(form: Request, env: Env): (r: Result<User, Refusal>)
    ensures !FormValue(form, "username").1 ==> r == Err(Refusal(400, Warning("missing username")))
    ensures FormValue(form, "username").1 && !FormValue(form, "password").1 ==>
      r == Err(Refusal(400, Warning("missing password")))
    ensures FormValue(form, "username").1 && FormValue(form, "password").1 ==>
      (env.retrieveUser(FormValue(form, "username").0).Err? ==> r == Err(Refusal(401, Failed("no such user"))))
    ensures r.Ok? <==>
      FormValue(form, "username").1 && FormValue(form, "password").1 &&
      env.retrieveUser(FormValue(form, "username").0).Ok? &&
      env.passwordOK(env.retrieveUser(FormValue(form, "username").0).value, FormValue(form, "password").0)
    ensures r.Ok? ==> r.value == env.retrieveUser(FormValue(form, "username").0).value
    ensures r.Err? ==> r.error.status in {400, 401}
  {
    var (username, uok) := FormValue(form, "username");
    if !uok then Err(Refusal(400, Warning("missing username")))
    else
      var (password, pok) := FormValue(form, "password");
      if !pok then Err(Refusal(400, Warning("missing password")))
      else
        match env.retrieveUser(username)
        case Err(_) => Err(Refusal(401, Failed("no such user")))
        case Ok(user) =>
          if !env.passwordOK(user, password) then Err(Refusal(401, Failed("bad password")))
          else Ok(user)
  }

  /** A user whose password is wrong is refused with 401 and "bad password". */
  lemma BadPasswordRefused(form: Request, env: Env)
    requires FormValue(form, "username").1 && FormValue(form, "password").1
    requires env.retrieveUser(FormValue(form, "username").0).Ok?
    requires !env.passwordOK(env.retrieveUser(FormValue(form, "username").0).value, FormValue(form, "password").0)
    ensures Login(form, env) == Err(Refusal(401, Failed("bad password")))
  {
  }

  /** The part of PostOAuthAuthorize after a successful login: generate, store and hand out a code. */
  function IssueCode(q: Query, user: User, env: Env): (r: AuthorizeOutcome)
    ensures !r.Rerendered?
    ensures r.Redirected? <==>
      Random(env.randomRead).Ok? && "redirect_uri" in q && |q["redirect_uri"]| > 0 &&
      env.parseUrl(q["redirect_uri"][0]).None? &&
      env.storeCode(EmbeddedStorage.OAuthCode(Random(env.randomRead).value, user.name, env.now)).None?
    ensures r.Redirected? ==>
      r.code == EmbeddedStorage.OAuthCode(Random(env.randomRead).value, user.name, env.now) &&
      r.redirectUri == q["redirect_uri"][0]
    ensures Random(env.randomRead).Err? ==> r == Rejected(ApiError(Failure(Random(env.randomRead).error), 400))
  {
    match Random(env.randomRead)
    case Err(e) => Rejected(ApiError(Failure(e), 400))
    case Ok(code) =>
      if "redirect_uri" !in q || |q["redirect_uri"]| == 0 then Rejected(ApiError(Text("missing redirect_uri"), 400))
      else
        match env.parseUrl(q["redirect_uri"][0])
        case Some(e) => Rejected(ApiError(Failure(e), 400))
        case None =>
          var c := EmbeddedStorage.OAuthCode(code, user.name, env.now);
          match env.storeCode(c)
          case Some(e) => Rejected(ApiError(Failure(e), 500))
          case None => Redirected(q["redirect_uri"][0], c)
  }

  /** PostOAuthAuthorize, given the URL query, the form values and the environment. */
  function PostOAuthAuthorize(q: Query, form: Request, env: Env): (r: AuthorizeOutcome)
    ensures ValidateOAuthAuthorize(q).Some? ==> r == Rejected(ValidateOAuthAuthorize(q).value)
    ensures ValidateOAuthAuthorize(q).None? && Login(form, env).Err? ==> r == Rerendered(Login(form, env).error)
    ensures ValidateOAuthAuthorize(q).None? && Login(form, env).Ok? ==> r == IssueCode(q, Login(form, env).value, env)
  {
    match ValidateOAuthAuthorize(q)
    case Some(reply) => Rejected(reply)
    case None =>
      match Login(form, env)
      case Err(refusal) => Rerendered(refusal)
      case Ok(user) => IssueCode(q, user, env)
  }

  /** The form is shown again exactly when validation passed and the login was refused. */
  lemma RerenderedIff(q: Query, form: Request, env: Env)
    ensures PostOAuthAuthorize(q, form, env).Rerendered? <==>
      ValidateOAuthAuthorize(q).None? && Login(form, env).Err?
  {
    var r := PostOAuthAuthorize(q, form, env);
    if ValidateOAuthAuthorize(q).Some? {
      assert r.Rejected?;
    } else if Login(form, env).Ok? {
      assert r == IssueCode(q, Login(form, env).value, env);
    }
  }

  /**
   * When the form is shown again neither the random source nor StoreCode
   * matters: no code is generated or stored.
   */
  lemma RerenderStoresNoCode(q: Query, form: Request, env: Env, read: Result<Block, Error>, store: OAuthCode -> Option<Error>)
    requires PostOAuthAuthorize(q, form, env).Rerendered?
    ensures PostOAuthAuthorize(q, form, env.(randomRead := read, storeCode := store)) == PostOAuthAuthorize(q, form, env)
  {
    var env' := env.(randomRead := read, storeCode := store);
    RerenderedIff(q, form, env);
    LoginFrame(form, env, env');
    assert PostOAuthAuthorize(q, form, env') == Rerendered(Login(form, env').error);
  }

  /** Login reads only the user lookup and the password check. */
  lemma LoginFrame(form: Request, e1: Env, e2: Env)
    requires e1.retrieveUser == e2.retrieveUser && e1.passwordOK == e2.passwordOK
    ensures Login(form, e1) == Login(form, e2)
  {
  }

  /** A redirect carries a fresh code for the logged-in user, stored before the reply, and the given redirect_uri. */
  lemma RedirectIssuesCodeForUser(q: Query, form: Request, env: Env)
    requires PostOAuthAuthorize(q, form, env).Redirected?
    ensures ValidateOAuthAuthorize(q).None? && Login(form, env).Ok?
    ensures PostOAuthAuthorize(q, form, env).code.username == env.retrieveUser(FormValue(form, "username").0).value.name
    ensures Random(env.randomRead) == Ok(PostOAuthAuthorize(q, form, env).code.code)
    ensures PostOAuthAuthorize(q, form, env).code.issuedOn == env.now
    ensures env.storeCode(PostOAuthAuthorize(q, form, env).code) == None
    ensures PostOAuthAuthorize(q, form, env).redirectUri == q["redirect_uri"][0]
  {
  }

  // ---------------------------------------------------------------------
  // PostOAuthToken

  const TOKEN_KEYS: seq<string> := ["client_id", "client_secret", "redirect_uri", "code", "grant_type"]

  /** The JSON body of a successful token reply. */
  datatype TokenReply = TokenReply(accessToken: string, tokenType: string, scope: string, createdAt: int)

  datatype TokenOutcome =
    | TokenRejected(reply: Reply)
    | TokenIssued(token: OAuthToken, body: TokenReply)

  /** The part of PostOAuthToken after the arguments are checked: look up the code, make and store a token. */
  function IssueToken(code: string, env: Env): (r: TokenOutcome)
    ensures env.retrieveCode(code).Err? ==> r == TokenRejected(ApiError(Failure(env.retrieveCode(code).error), 401))
    ensures r.TokenIssued? <==>
      env.retrieveCode(code).Ok? && Random(env.randomRead).Ok? &&
      env.storeToken(EmbeddedStorage.OAuthToken(Random(env.randomRead).value, env.retrieveCode(code).value.username, env.now)).None?
    ensures r.TokenIssued? ==>
      r.token == EmbeddedStorage.OAuthToken(Random(env.randomRead).value, env.retrieveCode(code).value.username, env.now) &&
      r.body == TokenReply(r.token.token, "Bearer", "all", env.now)
  {
    match env.retrieveCode(code)
    case Err(e) => TokenRejected(ApiError(Failure(e), 401))
    case Ok(codemeta) =>
      match Random(env.randomRead)
      case Err(e) => TokenRejected(ApiError(Failure(e), 500))
      case Ok(token) =>
        var t := EmbeddedStorage.OAuthToken(token, codemeta.username, env.now);
        match env.storeToken(t)
        case Some(e) => TokenRejected(ApiError(Failure(e), 500))
        case None => TokenIssued(t, TokenReply(t.token, "Bearer", "all", t.issuedOn))
  }

  /** PostOAuthToken, given the URL query and the environment. */
  function PostOAuthToken(q: Query, env: Env): (r: TokenOutcome)
    ensures Params(TOKEN_KEYS, q).Err? ==> r == TokenRejected(Reply(400, Message(Params(TOKEN_KEYS, q).error)))
    ensures Params(TOKEN_KEYS, q).Ok? && q["grant_type"][0] != "authorization_code" ==>
      r == TokenRejected(Reply(400, "unsupported grant_type"))
    ensures Params(TOKEN_KEYS, q).Ok? && q["grant_type"][0] == "authorization_code" ==>
      r == IssueToken(q["code"][0], env)
  {
    assert TOKEN_KEYS[3] == "code" && TOKEN_KEYS[4] == "grant_type";
    match Params(TOKEN_KEYS, q)
    case Err(e) => TokenRejected(ApiError(Failure(e), 400))
    case Ok(qs) =>
      if qs["grant_type"] != "authorization_code" then TokenRejected(ApiError(Text("unsupported grant_type"), 400))
      else IssueToken(qs["code"], env)
  }

  /** A wrong grant_type is refused the same way whatever the storage holds: no lookup happens. */
  lemma GrantTypeCheckedBeforeLookup(q: Query, e1: Env, e2: Env)
    requires Params(TOKEN_KEYS, q).Ok? && q["grant_type"][0] != "authorization_code"
    ensures PostOAuthToken(q, e1) == PostOAuthToken(q, e2)
  {
  }

  /** An unknown code is refused with 401 unless the storage's error names a status of its own. */
  lemma UnknownCodeRefused(q: Query, env: Env)
    requires Params(TOKEN_KEYS, q).Ok? && q["grant_type"][0] == "authorization_code"
    requires env.retrieveCode(q["code"][0]).Err?
    ensures PostOAuthToken(q, env).TokenRejected?
    ensures !Status(env.retrieveCode(q["code"][0]).error).1 ==> PostOAuthToken(q, env).reply.status == 401
  {
  }

  /**
   * With the embedded storage an unknown code is a missing key in the codes
   * bucket, whose error carries 404, and ApiError lets that status win.
   */
  lemma UnknownCodeWithEmbeddedStorage(q: Query, env: Env, data: EmbeddedStorage.Db)
    requires Params(TOKEN_KEYS, q).Ok? && q["grant_type"][0] == "authorization_code"
    requires EmbeddedStorage.CODES_BUCKET in data && q["code"][0] !in data[EmbeddedStorage.CODES_BUCKET]
    requires env.retrieveCode(q["code"][0]) ==
      Err(EmbeddedStorage.RetrieveSpec(data, EmbeddedStorage.CODES_BUCKET, q["code"][0]).error)
    ensures PostOAuthToken(q, env).TokenRejected? && PostOAuthToken(q, env).reply.status == 404
  {
  }

  /** An issued token belongs to the user the presented code was issued to. */
  lemma TokenCarriesCodeOwner(q: Query, env: Env)
    requires PostOAuthToken(q, env).TokenIssued?
    ensures Single(q, "code") && env.retrieveCode(q["code"][0]).Ok?
    ensures PostOAuthToken(q, env).token.username == env.retrieveCode(q["code"][0]).value.username
    ensures Random(env.randomRead) == Ok(PostOAuthToken(q, env).token.token)
    ensures env.storeToken(PostOAuthToken(q, env).token) == None
  {
    assert TOKEN_KEYS[3] == "code";
  }
}
