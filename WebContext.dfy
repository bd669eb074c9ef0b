// fedweb/context.go, fedweb/status.go and fedweb/flash.go: three contexts
// a request of the fedweb front end may carry, each installed by its
// middleware and changed in place by handlers. A request is reduced to the
// three context slots; an installed context is an object, and the request
// its middleware hands on is a new request value.
//
// fedweb/context.go and fedweb/status.go both declare a function Status in
// package main; the two are kept apart here as FedWeb.Status and
// FedWeb.StatusOf.

module FedWeb {
  import opened Common

  /** http.StatusOK, the unset sentinel of fedweb/status.go, and AddContext's debug client. */
  const STATUS_OK: int := 200
  const STATUS_UNSET: int := -1
  const DEBUG_CLIENT: string := "http://localhost:9999/ap/alice"

  class FedWebContext {
    var flashs: seq<string>
    var warnings: seq<string>
    var errors: seq<string>
    var status: int
    /** The actor IRI the client was created for (fedclient.New is not part of this model). */
    var client: string

    constructor (status0: int, client0: string)
      ensures flashs == [] && warnings == [] && errors == []
      ensures status == status0 && client == client0
    {
      flashs := [];
      warnings := [];
      errors := [];
      status := status0;
      client := client0;
    }
  }

  class StatusContext {
    var status: int

    constructor ()
      ensures status == STATUS_UNSET
    {
      status := STATUS_UNSET;
    }

    /** sc.Status(): 200 while unset, else the stored status. */
    function Status(): (s: int)
      reads this
      ensures status == STATUS_UNSET ==> s == STATUS_OK
      ensures status != STATUS_UNSET ==> s == status
    {
      if status == STATUS_UNSET then STATUS_OK else status
    }
  }

  class FlashContext {
    var flashs: seq<string>
    var warnings: seq<string>
    var errors: seq<string>

    constructor ()
      ensures flashs == [] && warnings == [] && errors == []
    {
      flashs := [];
      warnings := [];
      errors := [];
    }
  }

  datatype WebRequest = WebRequest(
    web: Option<FedWebContext>, statusCtx: Option<StatusContext>, flash: Option<FlashContext>)

  // ---------------------------------------------------------------------
  // fedweb/context.go

  /** AddContext: the request next sees carries a context, a fresh one with status 200 if none was there. */
  method AddContext(r: WebRequest) returns (q: WebRequest)
    ensures r.web.Some? ==> q == r
    ensures r.web.None? ==>
      q.web.Some? && fresh(q.web.value) && q.statusCtx == r.statusCtx && q.flash == r.flash &&
      q.web.value.status == STATUS_OK && q.web.value.client == DEBUG_CLIENT &&
      q.web.value.flashs == [] && q.web.value.warnings == [] && q.web.value.errors == []
  {
    if r.web.None? {
      var fc := new FedWebContext(STATUS_OK, DEBUG_CLIENT);
      return r.(web := Some(fc));
    }
    return r;
  }

  /** Flash(r, s): appended to Flashs only. */
  method Flash(r: WebRequest, s: string)
    requires r.web.Some?
    modifies r.web.value
    ensures r.web.value.flashs == old(r.web.value.flashs) + [s]
    ensures r.web.value.warnings == old(r.web.value.warnings) && r.web.value.errors == old(r.web.value.errors)
    ensures r.web.value.status == old(r.web.value.status) && r.web.value.client == old(r.web.value.client)
  {
    var fc := r.web.value;
    fc.flashs := fc.flashs + [s];
  }

  /** FlashWarning(r, s): appended to Warnings only. */
  method FlashWarning(r: WebRequest, s: string)
    requires r.web.Some?
    modifies r.web.value
    ensures r.web.value.warnings == old(r.web.value.warnings) + [s]
    ensures r.web.value.flashs == old(r.web.value.flashs) && r.web.value.errors == old(r.web.value.errors)
    ensures r.web.value.status == old(r.web.value.status) && r.web.value.client == old(r.web.value.client)
  {
    var fc := r.web.value;
    fc.warnings := fc.warnings + [s];
  }

  /** FlashError(r, s): appended to Errors only. */
  method FlashError(r: WebRequest, s: string)
    requires r.web.Some?
    modifies r.web.value
    ensures r.web.value.errors == old(r.web.value.errors) + [s]
    ensures r.web.value.flashs == old(r.web.value.flashs) && r.web.value.warnings == old(r.web.value.warnings)
    ensures r.web.value.status == old(r.web.value.status) && r.web.value.client == old(r.web.value.client)
  {
    var fc := r.web.value;
    fc.errors := fc.errors + [s];
  }

  /** Status(r, status) of fedweb/context.go: set only while 0. */
  method Status(r: WebRequest, s: int)
    requires r.web.Some?
    modifies r.web.value
    ensures r.web.value.status == if old(r.web.value.status) == 0 then s else old(r.web.value.status)
    ensures r.web.value.flashs == old(r.web.value.flashs) && r.web.value.warnings == old(r.web.value.warnings)
    ensures r.web.value.errors == old(r.web.value.errors) && r.web.value.client == old(r.web.value.client)
  {
    var fc := r.web.value;
    if fc.status == 0 {
      fc.status := s;
    }
  }

  /** After AddContext installed a fresh context, Status leaves it at 200. */
  method StatusAfterAddContext(r: WebRequest, s: int) returns (status: int)
    requires r.web.None?
    ensures status == STATUS_OK
  {
    var q := AddContext(r);
    Status(q, s);
    status := q.web.value.status;
  }

  // ---------------------------------------------------------------------
  // fedweb/status.go

  /** AddStatusContext: a fresh, unset status context unless one is there. */
  method AddStatusContext(r: WebRequest) returns (q: WebRequest)
    ensures r.statusCtx.Some? ==> q == r
    ensures r.statusCtx.None? ==>
      q.statusCtx.Some? && fresh(q.statusCtx.value) && q.statusCtx.value.status == STATUS_UNSET &&
      q.web == r.web && q.flash == r.flash
  {
    if r.statusCtx.None? {
      var sc := new StatusContext();
      return r.(statusCtx := Some(sc));
    }
    return r;
  }

  /** Status(r, status) of fedweb/status.go: set only while unset. */
  method StatusOf(r: WebRequest, s: int)
    requires r.statusCtx.Some?
    modifies r.statusCtx.value
    ensures r.statusCtx.value.status == if old(r.statusCtx.value.status) == STATUS_UNSET then s else old(r.statusCtx.value.status)
  {
    var sc := r.statusCtx.value;
    if sc.status == STATUS_UNSET {
      sc.status := s;
    }
  }

  /** On a freshly installed status context the first status set is reported, and a second is ignored. */
  method FirstStatusWins(r: WebRequest, s1: int, s2: int) returns (reported: int)
    requires r.statusCtx.None? && s1 != STATUS_UNSET
    ensures reported == s1
  {
    var q := AddStatusContext(r);
    StatusOf(q, s1);
    StatusOf(q, s2);
    reported := q.statusCtx.value.Status();
  }

  // ---------------------------------------------------------------------
  // fedweb/flash.go

  /** AddFlashContext: always a fresh, empty flash context. */
  method AddFlashContext(r: WebRequest) returns (q: WebRequest)
    ensures q.flash.Some? && fresh(q.flash.value)
    ensures q.flash.value.flashs == [] && q.flash.value.warnings == [] && q.flash.value.errors == []
    ensures q.web == r.web && q.statusCtx == r.statusCtx
  {
    var fc := new FlashContext();
    q := r.(flash := Some(fc));
  }

  /** GetFlashContext(r): the installed context, or a throwaway empty one. */
  method GetFlashContext(r: WebRequest) returns (fc: FlashContext)
    ensures r.flash.Some? ==> fc == r.flash.value
    ensures r.flash.None? ==> fresh(fc) && fc.flashs == [] && fc.warnings == [] && fc.errors == []
  {
    if r.flash.None? {
      fc := new FlashContext();
    } else {
      fc := r.flash.value;
    }
  }

  /** The objects a flash call may change: the installed flash context, if any. */
  function FlashFrame(r: WebRequest): set<object>
  {
    if r.flash.Some? then {r.flash.value} else {}
  }

  /** FlashTo(r, s): appended to Flashs of the installed context; without one it is lost. */
  method FlashTo(r: WebRequest, s: string)
    modifies FlashFrame(r)
    ensures r.flash.Some? ==>
      r.flash.value.flashs == old(r.flash.value.flashs) + [s] && r.flash.value.warnings == old(r.flash.value.warnings) && r.flash.value.errors == old(r.flash.value.errors)
  {
    var fc := GetFlashContext(r);
    fc.flashs := fc.flashs + [s];
  }

  /** FlashWarningTo(r, s): appended to Warnings of the installed context. */
  method FlashWarningTo(r: WebRequest, s: string)
    modifies FlashFrame(r)
    ensures r.flash.Some? ==>
      r.flash.value.warnings == old(r.flash.value.warnings) + [s] && r.flash.value.flashs == old(r.flash.value.flashs) && r.flash.value.errors == old(r.flash.value.errors)
  {
    var fc := GetFlashContext(r);
    fc.warnings := fc.warnings + [s];
  }

  /** FlashErrorTo(r, s): appended to Errors of the installed context. */
  method FlashErrorTo(r: WebRequest, s: string)
    modifies FlashFrame(r)
    ensures r.flash.Some? ==>
      r.flash.value.errors == old(r.flash.value.errors) + [s] && r.flash.value.flashs == old(r.flash.value.flashs) && r.flash.value.warnings == old(r.flash.value.warnings)
  {
    var fc := GetFlashContext(r);
    fc.errors := fc.errors + [s];
  }
}
