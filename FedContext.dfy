// fedcontext/fed_context.go: the context attached to every request of the
// web interface, changed in place by handlers. The request-to-context
// lookup (Context(r), a type assertion on a context value) is the receiver
// object itself. The cookie is one value: the credentials and flash lists it
// encodes, or a value that is not valid base64 or not valid JSON; base64 and
// JSON are an exact inverse pair and are not spelt out.

module FedCtx {
  import opened Common
  import opened GoStrings
  import opened Errors
  import Helpers

  /** The persisted part, as json.Marshal writes it and json.Unmarshal reads it. */
  datatype CookieData = CookieData(
    username: Option<string>, actorIri: Option<string>,
    flashs: seq<string>, warnings: seq<string>, errors: seq<string>)

  /** The value of the "CookieContext" cookie. */
  datatype Cookie = Encoded(data: CookieData) | BadBase64(raw: string) | BadJson(raw: string)

  /** Credentials are both set and non-blank, or both nil. */
  predicate Sane(username: Option<string>, actorIri: Option<string>)
  {
    (username.None? && actorIri.None?) ||
    (!Helpers.IsEmpty(username) && !Helpers.IsEmpty(actorIri))
  }

  /** The "both or neither" rule applied to a pair of credentials. */
  function SanitizedCredentials(username: Option<string>, actorIri: Option<string>): (r: (Option<string>, Option<string>))
    ensures Sane(r.0, r.1)
    ensures Sane(username, actorIri) ==> r == (username, actorIri)
    ensures r.0.Some? ==> r == (username, actorIri)
  {
    if Helpers.IsEmpty(username) || Helpers.IsEmpty(actorIri) then (None, None) else (username, actorIri)
  }

  class FedContext {
    var status: int
    var selected: string
    var title: string
    var username: Option<string>
    var actorIri: Option<string>
    var flashs: seq<string>
    var warnings: seq<string>
    var errors: seq<string>

    /** The context AddContext installs before loading the cookie: status 200, nothing else set. */
    constructor ()
      ensures status == 200 && selected == "" && title == ""
      ensures username == None && actorIri == None
      ensures flashs == [] && warnings == [] && errors == []
    {
      status := 200;
      selected := "";
      title := "";
      username := None;
      actorIri := None;
      flashs := [];
      warnings := [];
      errors := [];
    }

    /** The copy WriteToCookie encodes. */
    function Persisted(): (d: CookieData)
      reads this
      ensures (d.username, d.actorIri) == SanitizedCredentials(username, actorIri)
      ensures d.flashs == flashs && d.warnings == warnings && d.errors == errors
    {
      var creds := SanitizedCredentials(username, actorIri);
      CookieData(creds.0, creds.1, flashs, warnings, errors)
    }

    /**
     * LoadFromCookie(r): no cookie changes nothing; a malformed cookie is an
     * error and changes nothing; otherwise the flash lists are replaced and
     * the credentials are taken only when both are non-blank.
     */
    method LoadFromCookie(cookie: Option<Cookie>) returns (err: Option<Error>)
      modifies this
      ensures cookie.None? ==> err == None && unchanged(this)
      ensures cookie.Some? && !cookie.value.Encoded? ==> err.Some? && unchanged(this)
      ensures cookie.Some? && cookie.value.Encoded? ==>
        var d := cookie.value.data;
        err == None &&
        flashs == d.flashs && warnings == d.warnings && errors == d.errors &&
        (username, actorIri) == SanitizedCredentials(d.username, d.actorIri) &&
        status == old(status) && selected == old(selected) && title == old(title)
      ensures err == None ==> Sane(username, actorIri) || cookie.None?
    {
      if cookie.None? {
        return None;
      }
      match cookie.value
      case BadBase64(_) =>
        return Some(Plain("cookie value malformed base64"));
      case BadJson(_) =>
        return Some(Plain("cookie unmarshal failed"));
      case Encoded(buf) =>
        flashs := buf.flashs;
        warnings := buf.warnings;
        errors := buf.errors;
        username := None;
        actorIri := None;
        if !Helpers.IsEmpty(buf.username) && !Helpers.IsEmpty(buf.actorIri) {
          username := buf.username;
          actorIri := buf.actorIri;
        }
        return None;
    }

    /** WriteToCookie(w): the cookie it sets, built from a sanitised copy; the context is untouched. */
    method WriteToCookie() returns (cookie: Cookie)
      ensures cookie == Encoded(Persisted())
    {
      var buf := CookieData(username, actorIri, flashs, warnings, errors);
      if Helpers.IsEmpty(buf.username) || Helpers.IsEmpty(buf.actorIri) {
        buf := buf.(username := None, actorIri := None);
      }
      cookie := Encoded(buf);
    }

    /**
     * NewClient(): no client without both credentials; otherwise the actor
     * IRI a client is built from (fedclient.New is not part of this model).
     */
    function NewClient(): (iri: Option<string>)
      reads this
      ensures iri.None? <==> Helpers.IsEmpty(username) || Helpers.IsEmpty(actorIri)
      ensures iri.Some? ==> actorIri == Some(iri.value) && !AllSpace(iri.value)
    {
      if Helpers.IsEmpty(username) || Helpers.IsEmpty(actorIri) then None else actorIri
    }

    /** ClearFlashes(): all three lists emptied, everything else kept. */
    method ClearFlashes()
      modifies this
      ensures flashs == [] && warnings == [] && errors == []
      ensures username == old(username) && actorIri == old(actorIri)
      ensures status == old(status) && selected == old(selected) && title == old(title)
    {
      flashs := [];
      warnings := [];
      errors := [];
    }

    /** Selected(r, tab): set only while empty. */
    method Selected(tab: string)
      modifies this
      ensures selected == if old(selected) == "" then tab else old(selected)
      ensures title == old(title) && status == old(status) && flashs == old(flashs)
      ensures warnings == old(warnings) && errors == old(errors)
      ensures username == old(username) && actorIri == old(actorIri)
    {
      if |selected| == 0 {
        selected := tab;
      }
    }

    /** Title(r, title): set only while empty. */
    method Title(t: string)
      modifies this
      ensures title == if old(title) == "" then t else old(title)
      ensures selected == old(selected) && status == old(status) && flashs == old(flashs)
      ensures warnings == old(warnings) && errors == old(errors)
      ensures username == old(username) && actorIri == old(actorIri)
    {
      if |title| == 0 {
        title := t;
      }
    }

    /** Status(r, status): set only while 0. */
    method Status(s: int)
      modifies this
      ensures status == if old(status) == 0 then s else old(status)
      ensures selected == old(selected) && title == old(title) && flashs == old(flashs)
      ensures warnings == old(warnings) && errors == old(errors)
      ensures username == old(username) && actorIri == old(actorIri)
    {
      if status == 0 {
        status := s;
      }
    }

    /** Username(r, username): set unconditionally. */
    method Username(name: string)
      modifies this
      ensures username == Some(name)
      ensures actorIri == old(actorIri) && status == old(status) && flashs == old(flashs)
      ensures warnings == old(warnings) && errors == old(errors)
      ensures selected == old(selected) && title == old(title)
    {
      username := Some(name);
    }

    /** ActorIRI(r, actorIRI): set unconditionally. */
    method ActorIRI(iri: string)
      modifies this
      ensures actorIri == Some(iri)
      ensures username == old(username) && status == old(status) && flashs == old(flashs)
      ensures warnings == old(warnings) && errors == old(errors)
      ensures selected == old(selected) && title == old(title)
    {
      actorIri := Some(iri);
    }

    /** Flash(r, s): appended to the flashes only. */
    method Flash(s: string)
      modifies this
      ensures flashs == old(flashs) + [s]
      ensures warnings == old(warnings) && errors == old(errors)
      ensures username == old(username) && actorIri == old(actorIri)
      ensures status == old(status) && selected == old(selected) && title == old(title)
    {
      flashs := flashs + [s];
    }

    /** FlashWarning(r, s): appended to the warnings only. */
    method FlashWarning(s: string)
      modifies this
      ensures warnings == old(warnings) + [s]
      ensures flashs == old(flashs) && errors == old(errors)
      ensures username == old(username) && actorIri == old(actorIri)
      ensures status == old(status) && selected == old(selected) && title == old(title)
    {
      warnings := warnings + [s];
    }

    /** FlashError(r, s): appended to the errors only. */
    method FlashError(s: string)
      modifies this
      ensures errors == old(errors) + [s]
      ensures flashs == old(flashs) && warnings == old(warnings)
      ensures username == old(username) && actorIri == old(actorIri)
      ensures status == old(status) && selected == old(selected) && title == old(title)
    {
      errors := errors + [s];
    }
  }

  /** Sanitising twice is sanitising once. */
  lemma SanitizeIdempotent(username: Option<string>, actorIri: Option<string>)
    ensures var r := SanitizedCredentials(username, actorIri);
      SanitizedCredentials(r.0, r.1) == r
  {
  }

  /**
   * The cookie round trip: the context loaded from the cookie another
   * context wrote holds the writer's flashes and its sanitised credentials.
   */
  method WriteThenLoad(writer: FedContext, reader: FedContext) returns (err: Option<Error>)
    modifies reader
    ensures err == None
    ensures reader.flashs == old(writer.flashs) && reader.warnings == old(writer.warnings)
    ensures reader.errors == old(writer.errors)
    ensures (reader.username, reader.actorIri) == SanitizedCredentials(old(writer.username), old(writer.actorIri))
  {
    var cookie := writer.WriteToCookie();
    err := reader.LoadFromCookie(Some(cookie));
    SanitizeIdempotent(old(writer.username), old(writer.actorIri));
  }

  /** After the context is installed with status 200, Status calls change nothing. */
  method StatusAfterInstall(s: int) returns (status: int)
    ensures status == 200
  {
    var fc := new FedContext();
    fc.Status(s);
    status := fc.status;
  }
}
