// fetch/iri.go: the IRI of one iterator entry, and the IRIs of every entry
// an iterator visits. IRI reads only the entry: an IRI entry is its own IRI,
// an object entry gives the object's id. prop.Id panics on a nil object (the
// GetType of a literal entry) and on an object whose id is neither an IRI
// nor an xsd:anyURI; those panics are the errors NilObject and NoId here.

module FetchIri {
  import opened Common
  import opened Urls
  import opened Iter
  import Begins

  datatype IriError = EmptyEntry | NilObject | NoId

  /** IRI(ie). */
  function IRI(it: Iter): (r: Result<Url, IriError>)
    requires Readable(it)
    ensures !HasAny(it) ==> r == Err(EmptyEntry)
    ensures HasAny(it) && IsIRI(it) ==> GetIRI(it).Some? && r == Ok(GetIRI(it).value)
    ensures HasAny(it) && !IsIRI(it) ==> (r == Err(NilObject) <==> GetType(it).None?)
    ensures r == Err(NoId) ==> HasAny(it) && !IsIRI(it) && GetType(it).Some? && GetType(it).value.id.None?
  {
    if !HasAny(it) then Err(EmptyEntry)
    else if IsIRI(it) then Ok(GetIRI(it).value)
    else
      match GetType(it)
      case None => Err(NilObject)
      case Some(obj) => if obj.id.Some? then Ok(obj.id.value) else Err(NoId)
  }

  /** What IRI gives for a single go-fed entry, read off the entry alone. */
  function EntryIRI(e: Entry): Result<Url, IriError>
  {
    match e
    case NoValue => Err(EmptyEntry)
    case IriValue(u) => Ok(u)
    case TypeValue(o) => if o.id.Some? then Ok(o.id.value) else Err(NoId)
    case LiteralValue => Err(NilObject)
  }

  /** Through an adapter, IRI sees exactly the entry under the cursor. */
  lemma AdapterIRI(c: Container, pos: nat)
    requires pos < |c.entries|
    ensures IRI(Adapter(c, pos)) == EntryIRI(c.entries[pos])
  {
  }

  /** A begins has the IRI of the object at its head. */
  lemma MergeIRI(its: seq<Iter>, vs: seq<Value>)
    requires |its| == |vs| && |its| > 0
    ensures vs[Head(its, vs)].None? ==> IRI(Merge(its, vs)) == Err(NilObject)
    ensures vs[Head(its, vs)].Some? ==>
      IRI(Merge(its, vs)) == if vs[Head(its, vs)].value.id.Some? then Ok(vs[Head(its, vs)].value.id.value) else Err(NoId)
  {
  }

  /**
   * IRIs(it): one IRI per visited entry, in iteration order, or the error of
   * the first entry that has none, with no IRIs returned.
   */
  method IRIs(net: Net, it: Iter) returns (r: Result<seq<Url>, IriError>)
    requires Valid(net, it)
    ensures r.Ok? <==> forall k :: 0 <= k < |Walk(net, it)| ==> IRI(Walk(net, it)[k]).Ok?
    ensures r.Ok? ==> |r.value| == |Walk(net, it)|
    ensures r.Ok? ==> forall k :: 0 <= k < |r.value| ==> Ok(r.value[k]) == IRI(Walk(net, it)[k])
    ensures r.Err? ==> exists k ::
      && 0 <= k < |Walk(net, it)|
      && IRI(Walk(net, it)[k]) == Err(r.error)
      && forall j :: 0 <= j < k ==> IRI(Walk(net, it)[j]).Ok?
  {
    ghost var w := Walk(net, it);
    var iris: seq<Url> := [];
    var cur := it;
    ghost var k := 0;
    while !AtEnd(cur)
      invariant Valid(net, cur) && 0 <= k <= |w| && Walk(net, cur) == w[k..]
      invariant |iris| == k && forall j :: 0 <= j < k ==> Ok(iris[j]) == IRI(w[j])
      decreases |w| - k
    {
      WalkStep(net, cur, w, k);
      var iri := IRI(cur);
      if iri.Err? {
        assert IRI(w[k]) == Err(iri.error);
        return Err(iri.error);
      }
      iris := iris + [iri.value];
      cur := Begins.Next(net, cur);
      k := k + 1;
    }
    assert k == |w|;
    r := Ok(iris);
  }

  /** Over a property, IRIs visits its entries in order: one result per entry. */
  lemma AdapterIRIs(net: Net, c: Container)
    ensures |Walk(net, Adapter(c, 0))| == |c.entries|
    ensures forall k :: 0 <= k < |c.entries| ==> IRI(Walk(net, Adapter(c, 0))[k]) == EntryIRI(c.entries[k])
  {
    AdapterWalk(net, c, 0);
    forall k | 0 <= k < |c.entries|
      ensures IRI(Walk(net, Adapter(c, 0))[k]) == EntryIRI(c.entries[k])
    {
      assert Walk(net, Adapter(c, 0))[k] == Adapter(c, k);
      AdapterIRI(c, k);
    }
  }

  /** An iterator at its end has nothing to visit. */
  lemma NothingAtEnd(net: Net, it: Iter)
    requires Valid(net, it) && AtEnd(it)
    ensures Walk(net, it) == []
  {
  }
}
