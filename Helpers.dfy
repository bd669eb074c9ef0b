// Small request and string helpers: util/trim.go, template/is_empty.go,
// fedweb/is_empty.go, form_value.go, util/is_http_success.go,
// util/content_type.go and is_request.go.
//
// A Go `*string` is an Option<string>; an HTTP request is reduced to its
// method (verb), its header map and its form values. Header.Get and FormValue
// return "" for a missing key.

module Helpers {
  import opened Common
  import opened GoStrings

  datatype Request = Request(verb: string, header: map<string, string>, form: map<string, string>)

  /** http.Header.Get and Request.FormValue: the value, or "" when absent. */
  function Lookup(m: map<string, string>, key: string): string
  {
    if key in m then m[key] else ""
  }

  // ---------------------------------------------------------------------
  // util/trim.go

  /** Trim(sp): the trimmed text, and whether it is non-empty. */
  function Trim(sp: Option<string>): (r: (string, bool))
    ensures sp.None? ==> r == ("", false)
    ensures sp.Some? ==> r.0 == TrimSpace(sp.value)
    ensures r.1 <==> r.0 != ""
    ensures sp.Some? ==> (r.1 <==> !AllSpace(sp.value))
  {
    TrimSpaceEmptyIff(if sp.Some? then sp.value else "");
    match sp
    case None => ("", false)
    case Some(s) =>
      var ts := TrimSpace(s);
      if |ts| == 0 then (ts, false) else (ts, true)
  }

  /** Trimming the result of Trim again changes neither the text nor the flag. */
  lemma TrimTwice(sp: Option<string>)
    ensures sp.Some? ==> Trim(Some(Trim(sp).0)) == Trim(sp)
  {
    if sp.Some? {
      TrimSpaceIdempotent(sp.value);
    }
  }

  // ---------------------------------------------------------------------
  // template/is_empty.go and fedweb/is_empty.go (the same function)

  /** IsEmpty(s): nil, or nothing but whitespace. */
  function IsEmpty(s: Option<string>): (b: bool)
    ensures b <==> s.None? || AllSpace(s.value)
  {
    TrimSpaceEmptyIff(if s.Some? then s.value else "");
    match s
    case None => true
    case Some(v) => |TrimSpace(v)| == 0
  }

  /** IsEmpty is the negation of Trim's flag. */
  lemma IsEmptyIsNotTrimmed(s: Option<string>)
    ensures IsEmpty(s) <==> !Trim(s).1
  {
  }

  lemma IsEmptyExamples()
    ensures IsEmpty(None) && IsEmpty(Some("")) && IsEmpty(Some(" \t\n"))
    ensures !IsEmpty(Some(" a "))
  {
    assert !IsSpace(" a "[1]);
  }

  // ---------------------------------------------------------------------
  // form_value.go

  /** FormValue(r, key): the trimmed form value when it is not blank. */
  function FormValue(r: Request, key: string): (result: (string, bool))
    ensures result.1 ==> result.0 == TrimSpace(Lookup(r.form, key))
    ensures result.1 ==> |result.0| > 0 && !IsSpace(result.0[0]) && !IsSpace(result.0[|result.0| - 1])
    ensures !result.1 ==> result == ("", false)
    ensures result.1 <==> !AllSpace(Lookup(r.form, key))
  {
    var tv := TrimSpace(Lookup(r.form, key));
    TrimSpaceEmptyIff(Lookup(r.form, key));
    TrimSpaceShape(Lookup(r.form, key));
    if |tv| == 0 then ("", false) else (tv, true)
  }

  /** A missing key behaves like an empty value. */
  lemma FormValueMissing(r: Request, key: string)
    requires key !in r.form
    ensures FormValue(r, key) == ("", false)
  {
  }

  /** FormValue agrees with Trim applied to the looked-up value. */
  lemma FormValueIsTrim(r: Request, key: string)
    ensures FormValue(r, key).1 == Trim(Some(Lookup(r.form, key))).1
    ensures FormValue(r, key).1 ==> FormValue(r, key).0 == Trim(Some(Lookup(r.form, key))).0
  {
  }

  // ---------------------------------------------------------------------
  // util/is_http_success.go

  predicate IsHTTPSuccess(status: int)
  {
    status >= 200 && status <= 299
  }

  /** The success range is [200, 299], closed at both ends. */
  lemma HTTPSuccessBounds(status: int)
    ensures IsHTTPSuccess(status) <==> 200 <= status < 300
    ensures IsHTTPSuccess(200) && IsHTTPSuccess(299)
    ensures !IsHTTPSuccess(199) && !IsHTTPSuccess(300)
  {
  }

  // ---------------------------------------------------------------------
  // util/content_type.go and is_request.go

  /** The content type a request asks for (GET) or carries (POST, PUT). */
  function ContentType(r: Request): (ct: string)
    ensures r.verb == "GET" ==> ct == Lookup(r.header, "Accept")
    ensures r.verb == "POST" || r.verb == "PUT" ==> ct == Lookup(r.header, "Content-Type")
    ensures r.verb !in {"GET", "POST", "PUT"} ==> ct == ""
  {
    match r.verb
    case "GET" => Lookup(r.header, "Accept")
    case "POST" => Lookup(r.header, "Content-Type")
    case "PUT" => Lookup(r.header, "Content-Type")
    case _ => ""
  }

  /** The header ContentType reads for a method, if any. */
  function ContentTypeHeader(verb: string): Option<string>
  {
    if verb == "GET" then Some("Accept")
    else if verb == "POST" || verb == "PUT" then Some("Content-Type")
    else None
  }

  /** ContentType depends only on the method and the one header it names. */
  lemma ContentTypeDependsOnOneHeader(r1: Request, r2: Request)
    requires r1.verb == r2.verb
    requires ContentTypeHeader(r1.verb).Some? ==>
      Lookup(r1.header, ContentTypeHeader(r1.verb).value) == Lookup(r2.header, ContentTypeHeader(r1.verb).value)
    ensures ContentType(r1) == ContentType(r2)
  {
  }

  const AP_TYPE: string := "application/ld+json; profile=\"https://www.w3.org/ns/activitystreams\""
  const HTML_TYPE: string := "text/html"

  function IsRequest(r: Request, contentType: string): (b: bool)
  {
    match r.verb
    case "GET" => Lookup(r.header, "Accept") == contentType
    case "POST" => Lookup(r.header, "Content-Type") == contentType
    case "PUT" => Lookup(r.header, "Content-Type") == contentType
    case _ => false
  }

  /** isRequest is ContentType compared with the wanted type, for GET, POST and PUT only. */
  lemma IsRequestIsContentType(r: Request, contentType: string)
    ensures IsRequest(r, contentType) <==> r.verb in {"GET", "POST", "PUT"} && ContentType(r) == contentType
  {
  }

  predicate IsActivityPubRequest(r: Request)
  {
    IsRequest(r, AP_TYPE)
  }

  predicate IsHTMLRequest(r: Request)
  {
    IsRequest(r, HTML_TYPE)
  }

  /** No request is both an ActivityPub and an HTML request. */
  lemma RequestKindsExclusive(r: Request)
    ensures !(IsActivityPubRequest(r) && IsHTMLRequest(r))
  {
    assert |AP_TYPE| != |HTML_TYPE|;
  }
}
