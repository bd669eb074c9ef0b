// The resource parsing and validation of GetWebfinger
// (well_known_handlers.go): an "acct:user@host" resource naming a local user
// is answered with the user's subject and three links to the actor IRI.
//
// The configured base URL is the IRI configuration plus the hostname it
// reports (Base.Hostname(), without a port); the user lookup of the storage
// is a parameter. The reply is returned as a value instead of as JSON.

module Webfinger {
  import opened Common
  import opened GoStrings
  import opened Errors
  import opened Helpers
  import opened Urls
  import opened Api
  import FedIri
  import EmbeddedStorage

  datatype Link = Link(href: string, rel: string, linkType: string)

  datatype Outcome =
    | Rejected(reply: Reply)
    | Found(subject: string, links: seq<Link>)

  const ACCT: string := "acct:"
  const PROFILE_PAGE_REL: string := "http://webfinger.net/rel/profile-page"
  const ACTIVITY_JSON: string := "application/activity+json"

  /** The three links of a reply, all pointing at the same href. */
  function Links(href: string): (links: seq<Link>)
    ensures |links| == 3
    ensures forall k :: 0 <= k < |links| ==> links[k].href == href
  {
    [Link(href, PROFILE_PAGE_REL, HTML_TYPE), Link(href, "self", ACTIVITY_JSON), Link(href, "self", AP_TYPE)]
  }

  /** The user and host part of an "acct:" resource that splits on '@' into exactly two parts. */
  function Acct(resource: string): (r: Option<(string, string)>)
    ensures r.Some? <==> HasPrefix(resource, ACCT) && |Split(TrimPrefix(resource, ACCT), '@')| == 2
    ensures r.Some? ==> resource == ACCT + r.value.0 + "@" + r.value.1
    ensures r.Some? ==> NoChar(r.value.0, '@') && NoChar(r.value.1, '@')
  {
    if !HasPrefix(resource, ACCT) then None
    else
      var qs := TrimPrefix(resource, ACCT);
      var q := Split(qs, '@');
      if |q| != 2 then None
      else
        JoinSplit(qs, '@');
        SplitPartsNoSep(qs, '@');
        assert Join(q, "@") == q[0] + "@" + q[1];
        Some((q[0], q[1]))
  }

  /** GetWebfinger for a request with these form values. */
  function GetWebfinger(
    form: Request, cfg: FedIri.Config, hostname: string,
    retrieveUser: string -> Result<EmbeddedStorage.User, Error>): (r: Outcome)
    ensures !FormValue(form, "resource").1 ==> r == Rejected(Reply(400, "missing resource"))
    ensures FormValue(form, "resource").1 && !HasPrefix(FormValue(form, "resource").0, ACCT) ==>
      r == Rejected(Reply(501, "only acct supported"))
    ensures FormValue(form, "resource").1 && HasPrefix(FormValue(form, "resource").0, ACCT) ==>
      (Acct(FormValue(form, "resource").0).None? ==> r.Rejected? && r.reply.status == 400)
    ensures r.Found? <==>
      FormValue(form, "resource").1 && Acct(FormValue(form, "resource").0).Some? &&
      Acct(FormValue(form, "resource").0).value.1 == hostname &&
      retrieveUser(Acct(FormValue(form, "resource").0).value.0).Ok?
    ensures r.Found? ==>
      r.subject == FormValue(form, "resource").0 &&
      r.links == Links(String(FedIri.ActorIRI(cfg, Acct(FormValue(form, "resource").0).value.0)))
  {
    var (resource, ok) := FormValue(form, "resource");
    if !ok then Rejected(ApiError(Text("missing resource"), 400))
    else if !HasPrefix(resource, ACCT) then Rejected(ApiError(Text("only acct supported"), 501))
    else
      match Acct(resource)
      case None => Rejected(ApiError(Text("acct needs to have format username@server"), 400))
      case Some((username, host)) =>
        if host != hostname then
          Rejected(ApiError(Text("bad hostname got=" + host + " expected=" + hostname), 400))
        else
          match retrieveUser(username)
          case Err(e) => Rejected(ApiError(Failure(e), 404))
          case Ok(_) => Found(ACCT + username + "@" + host, Links(String(FedIri.ActorIRI(cfg, username))))
  }

  /** A resource for another host is refused with 400, and an unknown user with 404 unless the error says otherwise. */
  lemma WrongHostOrUnknownUser(
    form: Request, cfg: FedIri.Config, hostname: string,
    retrieveUser: string -> Result<EmbeddedStorage.User, Error>, username: string, host: string)
    requires FormValue(form, "resource") == (ACCT + username + "@" + host, true)
    requires NoChar(username, '@') && NoChar(host, '@')
    ensures host != hostname ==>
      GetWebfinger(form, cfg, hostname, retrieveUser).Rejected? &&
      GetWebfinger(form, cfg, hostname, retrieveUser).reply.status == 400
    ensures host == hostname && retrieveUser(username).Err? && !Status(retrieveUser(username).error).1 ==>
      GetWebfinger(form, cfg, hostname, retrieveUser) == Rejected(Reply(404, Message(retrieveUser(username).error)))
  {
    var resource := ACCT + username + "@" + host;
    assert resource[..|ACCT|] == ACCT;
    ParseAcct(username, host);
    WebfingerOfAcct(form, cfg, hostname, retrieveUser, resource, username, host);
  }

  lemma WebfingerOfAcct(
    form: Request, cfg: FedIri.Config, hostname: string,
    retrieveUser: string -> Result<EmbeddedStorage.User, Error>, resource: string, username: string, host: string)
    requires FormValue(form, "resource") == (resource, true)
    requires HasPrefix(resource, ACCT) && Acct(resource) == Some((username, host))
    ensures host != hostname ==>
      GetWebfinger(form, cfg, hostname, retrieveUser).Rejected? &&
      GetWebfinger(form, cfg, hostname, retrieveUser).reply.status == 400
    ensures host == hostname && retrieveUser(username).Err? ==>
      GetWebfinger(form, cfg, hostname, retrieveUser) == Rejected(ApiError(Failure(retrieveUser(username).error), 404))
  {
  }

  /** Stripping "acct:" and splitting on '@' recovers the user and the host: Acct inverts the formatting. */
  lemma ParseAcct(username: string, host: string)
    requires NoChar(username, '@') && NoChar(host, '@')
    ensures Acct(ACCT + username + "@" + host) == Some((username, host))
  {
    var s := ACCT + username + "@" + host;
    assert s[..|ACCT|] == ACCT;
    assert s[|ACCT|..] == username + "@" + host;
    SplitJoin([username, host], '@');
    assert Join([username, host], "@") == username + "@" + Join([host], "@");
  }

  /**
   * Asking for "acct:user@host", with the configured host and a stored user,
   * finds the resource itself as subject and links to the user's actor IRI.
   */
  lemma WebfingerRoundTrip(
    form: Request, cfg: FedIri.Config, hostname: string,
    retrieveUser: string -> Result<EmbeddedStorage.User, Error>, username: string)
    requires Lookup(form.form, "resource") == ACCT + username + "@" + hostname
    requires NoChar(username, '@') && NoChar(hostname, '@')
    requires |hostname| > 0 && !IsSpace(hostname[|hostname| - 1])
    requires retrieveUser(username).Ok?
    ensures GetWebfinger(form, cfg, hostname, retrieveUser) ==
      Found(ACCT + username + "@" + hostname, Links(String(FedIri.ActorIRI(cfg, username))))
  {
    var s := ACCT + username + "@" + hostname;
    assert s[0] == 'a' && s[|s| - 1] == hostname[|hostname| - 1];
    TrimSpaceOfTrimmed(s);
    TrimSpaceEmptyIff(s);
    ParseAcct(username, hostname);
  }
}
