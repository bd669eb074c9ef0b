// The iterator abstraction shared by fetch and fedutil: the `Iter` contract
// of fetch/iter.go and fedutil/iterator.go, the generated adapters and the
// `begin` dispatch of fetch/iterator_impl.go, `Begin`, `FetchIter`, and the
// pure half of the merge iterator `begins` of fetch/begins.go and
// fedutil/begins.go (its accessors, `head`, and the step function that
// specifies its `Next`).
//
// A go-fed property is a Container: its dynamic type name and its entries.
// A go-fed property iterator is a position in the entries; the position
// |entries| stands for the nil iterator, which Begin returns for an empty
// property, End always returns and Next returns after the last entry.
//
// Objects are reduced to what the iterator code reads of them: their id and
// their published time. A published time is a whole number of ticks after
// Go's zero time.Time, so `t.After(time.Time{})` is `t > 0`. Dereferencing
// an IRI (Fetch, with its cache) is a lookup in a fixed Net.

module Iter {
  import opened Common
  import opened Urls
  import G = IteratorGen
  import IteratorRegistry

  datatype Obj = Obj(id: Option<Url>, published: Option<int>)

  /**
   * One position of a go-fed iterator: nothing, an IRI, a full object, or a
   * literal (a string, a number, ...), which HasAny reports but whose
   * GetType is nil.
   */
  datatype Entry = NoValue | IriValue(iri: Url) | TypeValue(obj: Obj) | LiteralValue

  /** A vocab.Type as FetchIter returns it; None is nil. */
  type Value = Option<Obj>

  datatype Container = Container(kind: string, entries: seq<Entry>)

  /** An Iter: a generated adapter {p, it} (it given as a position in p), or a `begins`. */
  datatype Iter = Adapter(p: Container, pos: nat) | Merge(iterators: seq<Iter>, values: seq<Value>)

  /** The `_END` singleton of begins.go. */
  const END: Iter := Merge([], [])

  /** The dynamic value handed to Begin. */
  datatype Iterable =
    | NilValue
    | Property(c: Container)
    | OrderedCollectionPage(items: Option<Container>)
    | IterValue(it: Iter)
    | OtherValue(typeName: string)

  datatype BeginError = NilArgument | NotSupported(value: Iterable)

  /** The resources an IRI dereferences to. */
  datatype Net = Net(resources: map<Url, Obj>)

  datatype FetchError = NoValuePresent | FetchFailed(iri: Url)

  // ---------------------------------------------------------------------
  // End and the IterEntry accessors

  function End(it: Iter): Iter
  {
    match it
    case Adapter(p, _) => Adapter(p, |p.entries|)
    case Merge(_, _) => END
  }

  /** `it == it.End()`, the loop condition of every iteration in the core. */
  predicate AtEnd(it: Iter)
  {
    it == End(it)
  }

  /**
   * The accessors may be called: an adapter's go-fed iterator is not nil
   * (calling a method on the nil iterator panics), and a begins has as many
   * values as iterators.
   */
  predicate Readable(it: Iter)
  {
    match it
    case Adapter(p, pos) => pos < |p.entries|
    case Merge(its, vs) => |its| == |vs|
  }

  /** The published time, or the zero time when prop.Published fails (a nil value included). */
  function Stamp(v: Value): int
  {
    if v.Some? && v.value.published.Some? then v.value.published.value else 0
  }

  /**
   * The loop of begins.head with newestTime updated whenever newestIdx is:
   * the pair (newestIdx, newestTime) after visiting vs front to back.
   */
  function Newest(vs: seq<Value>): (r: (nat, int))
    ensures |vs| > 0 ==> r.0 < |vs|
    ensures r.1 >= 0
  {
    if |vs| == 0 then (0, 0)
    else
      var prev := Newest(vs[..|vs| - 1]);
      if Stamp(vs[|vs| - 1]) > prev.1 then (|vs| - 1, Stamp(vs[|vs| - 1])) else prev
  }

  /** The loop of begins.head as written: newestTime stays the zero time. */
  function LastAfterZero(vs: seq<Value>): (r: nat)
    ensures |vs| > 0 ==> r < |vs|
  {
    if |vs| == 0 then 0
    else if Stamp(vs[|vs| - 1]) > 0 then |vs| - 1
    else LastAfterZero(vs[..|vs| - 1])
  }

  /** begins.head with the newest time tracked; -1 when there are no iterators. */
  function Head(its: seq<Iter>, vs: seq<Value>): (i: int)
    ensures i == -1 <==> |its| == 0
    ensures i != -1 ==> 0 <= i && (|vs| > 0 ==> i < |vs|)
  {
    if |its| == 0 then -1 else Newest(vs).0
  }

  /** begins.head as written. */
  function HeadAsWritten(its: seq<Iter>, vs: seq<Value>): (i: int)
    ensures i == -1 <==> |its| == 0
    ensures i != -1 ==> 0 <= i && (|vs| > 0 ==> i < |vs|)
  {
    if |its| == 0 then -1 else LastAfterZero(vs)
  }

  /** The entry under an adapter's cursor. */
  function Current(it: Iter): Entry
    requires it.Adapter? && Readable(it)
  {
    it.p.entries[it.pos]
  }

  function HasAny(it: Iter): bool
    requires Readable(it)
  {
    match it
    case Adapter(_, _) => Current(it) != NoValue
    case Merge(its, vs) => Head(its, vs) != -1
  }

  function IsIRI(it: Iter): bool
    requires Readable(it)
  {
    match it
    case Adapter(_, _) => Current(it).IriValue?
    case Merge(_, _) => false
  }

  /** GetIRI; None is a nil *url.URL. */
  function GetIRI(it: Iter): Option<Url>
    requires Readable(it)
  {
    match it
    case Adapter(_, _) => if Current(it).IriValue? then Some(Current(it).iri) else None
    case Merge(_, _) => None
  }

  /** GetType; None is a nil vocab.Type. */
  function GetType(it: Iter): Value
    requires Readable(it)
  {
    match it
    case Adapter(_, _) => if Current(it).TypeValue? then Some(Current(it).obj) else None
    case Merge(its, vs) =>
      var i := Head(its, vs);
      if i == -1 then None else vs[i]
  }

  // ---------------------------------------------------------------------
  // FetchIter (fetch/fetch.go, fedutil/fetch.go)

  /** Dereferencing an IRI: a resource that resolves is never nil. */
  function Fetch(net: Net, iri: Url): (r: Result<Value, FetchError>)
    ensures r.Ok? <==> iri in net.resources
    ensures r.Ok? ==> r.value == Some(net.resources[iri])
  {
    if iri in net.resources then Ok(Some(net.resources[iri])) else Err(FetchFailed(iri))
  }

  /**
   * FetchIter(it): no value is an error, an IRI is dereferenced, otherwise
   * GetType is returned without an error, nil for a literal.
   */
  function FetchIter(net: Net, it: Iter): (r: Result<Value, FetchError>)
    requires Readable(it)
    ensures !HasAny(it) ==> r == Err(NoValuePresent)
    ensures HasAny(it) && IsIRI(it) ==> GetIRI(it).Some? && r == Fetch(net, GetIRI(it).value)
    ensures HasAny(it) && !IsIRI(it) ==> r == Ok(GetType(it))
  {
    if !HasAny(it) then Err(NoValuePresent)
    else if IsIRI(it) then Fetch(net, GetIRI(it).value)
    else Ok(GetType(it))
  }

  /**
   * The generated adapter forwards HasAny, IsIRI, GetIRI and GetType to the
   * entry under its cursor: a value unless the entry is empty, an IRI only
   * for an IRI entry, and a non-nil object only for an object entry.
   */
  lemma AdapterAccessors(c: Container, pos: nat)
    requires pos < |c.entries|
    ensures HasAny(Adapter(c, pos)) <==> c.entries[pos] != NoValue
    ensures IsIRI(Adapter(c, pos)) <==> c.entries[pos].IriValue?
    ensures GetIRI(Adapter(c, pos)).Some? <==> c.entries[pos].IriValue?
    ensures c.entries[pos].IriValue? ==> GetIRI(Adapter(c, pos)) == Some(c.entries[pos].iri)
    ensures GetType(Adapter(c, pos)).Some? <==> c.entries[pos].TypeValue?
    ensures c.entries[pos].TypeValue? ==> GetType(Adapter(c, pos)) == Some(c.entries[pos].obj)
  {
  }

  /** An adapter on a literal: FetchIter gives a nil value and no error. */
  lemma FetchLiteral(net: Net, c: Container, pos: nat)
    requires pos < |c.entries| && c.entries[pos] == LiteralValue
    ensures HasAny(Adapter(c, pos)) && !IsIRI(Adapter(c, pos))
    ensures FetchIter(net, Adapter(c, pos)) == Ok(None)
  {
  }

  // ---------------------------------------------------------------------
  // Well-formed iterators

  /** An iterator at a position that holds a value. */
  predicate Live(it: Iter)
  {
    Readable(it) && HasAny(it)
  }

  /**
   * The shape every iterator built by this code keeps: a cursor never past
   * the end, and a begins whose iterators are all live, each paired with the
   * value FetchIter gives for it.
   */
  predicate Valid(net: Net, it: Iter)
    decreases it
  {
    match it
    case Adapter(p, pos) => pos <= |p.entries|
    case Merge(its, vs) =>
      && |its| == |vs|
      && forall k :: 0 <= k < |its| ==>
           Valid(net, its[k]) && Live(its[k]) && FetchIter(net, its[k]) == Ok(vs[k])
  }

  /** Next may be called: on a begins always, on an adapter when its go-fed iterator is not nil. */
  predicate Steppable(it: Iter)
  {
    it.Adapter? ==> it.pos < |it.p.entries|
  }

  /** A valid iterator that is not at its end is live. */
  lemma NotAtEndIsLive(net: Net, it: Iter)
    requires Valid(net, it) && !AtEnd(it)
    ensures Live(it) || (it.Adapter? && Readable(it) && Current(it) == NoValue)
  {
  }

  /** The first position at or after pos that holds a value, or |es|. */
  function FirstValued(es: seq<Entry>, pos: nat): (r: nat)
    requires pos <= |es|
    ensures pos <= r <= |es|
    ensures r < |es| ==> es[r] != NoValue
    ensures forall k :: pos <= k < r ==> es[k] == NoValue
    decreases |es| - pos
  {
    if pos == |es| || es[pos] != NoValue then pos else FirstValued(es, pos + 1)
  }

  /** The result of `for it != it.End() && !it.HasAny() { it = it.Next() }`. */
  function SkipEmpty(it: Iter): Iter
  {
    match it
    case Adapter(p, pos) => if pos <= |p.entries| then Adapter(p, FirstValued(p.entries, pos)) else it
    case Merge(_, _) => it
  }

  /** The skip loop stops at once on an iterator at its end or holding a value. */
  lemma SkipStops(net: Net, it: Iter)
    requires Valid(net, it)
    requires AtEnd(it) || (Readable(it) && HasAny(it))
    ensures SkipEmpty(it) == it
  {
  }

  lemma SkipValid(net: Net, it: Iter)
    requires Valid(net, it)
    ensures Valid(net, SkipEmpty(it))
    ensures !AtEnd(SkipEmpty(it)) ==> Live(SkipEmpty(it))
    ensures AtEnd(SkipEmpty(it)) <==> AtEnd(it) || (it.Adapter? && FirstValued(it.p.entries, it.pos) == |it.p.entries|)
  {
  }

  /** begins.Next's removal: the last iterator and value move into slot i, and both slices shrink. */
  function SwapRemove(its: seq<Iter>, vs: seq<Value>, i: nat): (r: Iter)
    requires |its| == |vs| && i < |its|
    ensures r.Merge? && |r.iterators| == |its| - 1 == |r.values|
    ensures forall k :: 0 <= k < |its| - 1 && k != i ==> r.iterators[k] == its[k] && r.values[k] == vs[k]
    ensures i < |its| - 1 ==> r.iterators[i] == its[|its| - 1] && r.values[i] == vs[|vs| - 1]
  {
    var last := |its| - 1;
    Merge(its[i := its[last]][..last], vs[i := vs[last]][..last])
  }

  lemma KeepValid(net: Net, its: seq<Iter>, vs: seq<Value>, i: nat, n: Iter)
    requires Valid(net, Merge(its, vs)) && i < |its|
    requires Valid(net, n) && Live(n) && FetchIter(net, n).Ok?
    ensures Valid(net, Merge(its[i := n], vs[i := FetchIter(net, n).value]))
  {
  }

  lemma RemoveValid(net: Net, its: seq<Iter>, vs: seq<Value>, i: nat)
    requires Valid(net, Merge(its, vs)) && i < |its|
    ensures Valid(net, SwapRemove(its, vs, i))
  {
    var r := SwapRemove(its, vs, i);
    forall k | 0 <= k < |r.iterators|
      ensures Valid(net, r.iterators[k]) && Live(r.iterators[k]) && FetchIter(net, r.iterators[k]) == Ok(r.values[k])
    {
      if k == i {
        assert r.iterators[k] == its[|its| - 1] && r.values[k] == vs[|vs| - 1];
      } else {
        assert r.iterators[k] == its[k] && r.values[k] == vs[k];
      }
    }
  }

  /**
   * The iterator Next returns. An adapter moves its cursor once and keeps
   * its property. A begins advances its head iterator past entries without a
   * value and fetches the new head's value; an iterator that runs out or
   * whose value cannot be fetched is swap-removed. No iterators left is END.
   */
  function NextSpec(net: Net, it: Iter): (r: Iter)
    requires Valid(net, it) && Steppable(it)
    ensures Valid(net, r)
    decreases it
  {
    match it
    case Adapter(p, pos) => Adapter(p, pos + 1)
    case Merge(its, vs) =>
      if |its| == 0 then END
      else
        var i := Head(its, vs);
        var stepped := NextSpec(net, its[i]);
        var n := SkipEmpty(stepped);
        SkipValid(net, stepped);
        if !AtEnd(n) && FetchIter(net, n).Ok? then
          KeepValid(net, its, vs, i, n);
          Merge(its[i := n], vs[i := FetchIter(net, n).value])
        else
          RemoveValid(net, its, vs, i);
          SwapRemove(its, vs, i)
  }

  /** Next on an adapter keeps the owner p and advances the go-fed iterator exactly once. */
  lemma AdapterNext(net: Net, c: Container, pos: nat)
    requires pos < |c.entries|
    ensures NextSpec(net, Adapter(c, pos)).p == c
    ensures NextSpec(net, Adapter(c, pos)).pos == pos + 1
    ensures End(NextSpec(net, Adapter(c, pos))) == End(Adapter(c, pos))
  {
  }

  /** End does not depend on the cursor, and End is at its own end. */
  lemma EndIgnoresCursor(c: Container, i: nat, j: nat)
    ensures End(Adapter(c, i)) == End(Adapter(c, j))
    ensures AtEnd(End(Adapter(c, i))) && AtEnd(End(Merge([], [])))
    ensures AtEnd(Adapter(c, i)) <==> i == |c.entries|
  {
  }

  /** The begins accessors: HasAny iff head != -1, never an IRI, and the head's value. */
  lemma MergeAccessors(its: seq<Iter>, vs: seq<Value>)
    requires |its| == |vs|
    ensures HasAny(Merge(its, vs)) <==> |its| > 0
    ensures !IsIRI(Merge(its, vs)) && GetIRI(Merge(its, vs)).None?
    ensures |its| > 0 ==> GetType(Merge(its, vs)) == vs[Head(its, vs)]
    ensures End(Merge(its, vs)) == END
  {
  }

  // ---------------------------------------------------------------------
  // head: what it returns as written, and what the newest-time loop returns

  /** As written, head picks the last value whose published time is after the zero time, else 0. */
  lemma {:induction false} LastAfterZeroMeaning(vs: seq<Value>)
    ensures (exists k :: 0 <= k < |vs| && Stamp(vs[k]) > 0) ==>
      Stamp(vs[LastAfterZero(vs)]) > 0 && forall j :: LastAfterZero(vs) < j < |vs| ==> Stamp(vs[j]) <= 0
    ensures (forall k :: 0 <= k < |vs| ==> Stamp(vs[k]) <= 0) ==> LastAfterZero(vs) == 0
  {
    if |vs| > 0 {
      var init := vs[..|vs| - 1];
      LastAfterZeroMeaning(init);
      assert forall k :: 0 <= k < |init| ==> init[k] == vs[k];
    }
  }

  /** With newestTime tracked, head picks the first value with the latest published time. */
  lemma {:induction false} NewestMeaning(vs: seq<Value>)
    ensures forall k :: 0 <= k < |vs| ==> Stamp(vs[k]) <= Newest(vs).1
    ensures Newest(vs).1 > 0 ==> Stamp(vs[Newest(vs).0]) == Newest(vs).1
    ensures Newest(vs).1 > 0 ==> forall k :: 0 <= k < Newest(vs).0 ==> Stamp(vs[k]) < Newest(vs).1
    ensures Newest(vs).1 == 0 ==> Newest(vs).0 == 0
  {
    if |vs| > 0 {
      var init := vs[..|vs| - 1];
      NewestMeaning(init);
      assert forall k :: 0 <= k < |init| ==> init[k] == vs[k];
    }
  }

  /** The head value of a begins is at least as new as every other value. */
  lemma HeadIsNewest(its: seq<Iter>, vs: seq<Value>)
    requires |its| == |vs| && |its| > 0
    ensures forall k :: 0 <= k < |vs| ==> Stamp(vs[k]) <= Stamp(vs[Head(its, vs)]) || Stamp(vs[k]) <= 0
  {
    NewestMeaning(vs);
  }

  /** Two values, the newer one first: head as written picks the older one. */
  lemma HeadAsWrittenNotNewest(its: seq<Iter>, vs: seq<Value>, u: Url)
    requires |its| == 2 && vs == [Some(Obj(Some(u), Some(2))), Some(Obj(Some(u), Some(1)))]
    ensures HeadAsWritten(its, vs) == 1 && Stamp(vs[1]) < Stamp(vs[0])
    ensures Head(its, vs) == 0
  {
    assert vs[..1] == [vs[0]];
    assert [vs[0]][..0] == [];
    assert Newest(vs[..1]) == (0, 2);
  }

  // ---------------------------------------------------------------------
  // Termination: every Next of a valid iterator not at its end uses up entries

  /** The entries still ahead of an iterator. */
  function Remaining(it: Iter): nat
    decreases it
  {
    match it
    case Adapter(p, pos) => if pos <= |p.entries| then |p.entries| - pos else 0
    case Merge(its, _) => SumNat(Rems(its))
  }

  function Rems(its: seq<Iter>): (r: seq<nat>)
    ensures |r| == |its|
    decreases its
  {
    seq(|its|, k requires 0 <= k < |its| => Remaining(its[k]))
  }

  function SumNat(s: seq<nat>): nat
  {
    if |s| == 0 then 0 else SumNat(s[..|s| - 1]) + s[|s| - 1]
  }

  lemma {:induction false} SumUpdate(s: seq<nat>, i: nat, x: nat)
    requires i < |s|
    ensures SumNat(s[i := x]) == SumNat(s) - s[i] + x
  {
    var n := |s| - 1;
    if i < n {
      assert s[i := x][..n] == s[..n][i := x];
      SumUpdate(s[..n], i, x);
    } else {
      assert s[i := x][..n] == s[..n];
    }
  }

  lemma SumSwapRemove(s: seq<nat>, i: nat)
    requires i < |s|
    ensures SumNat(s[i := s[|s| - 1]][..|s| - 1]) == SumNat(s) - s[i]
  {
    SumUpdate(s, i, s[|s| - 1]);
  }

  lemma {:induction false} SumAtLeast(s: seq<nat>, k: nat)
    requires k < |s|
    ensures SumNat(s) >= s[k]
  {
    if k < |s| - 1 {
      SumAtLeast(s[..|s| - 1], k);
    }
  }

  lemma {:induction false} LiveRemaining(net: Net, it: Iter)
    requires Valid(net, it) && !AtEnd(it)
    ensures Remaining(it) >= 1
    decreases it
  {
    match it
    case Adapter(_, _) =>
    case Merge(its, _) =>
      LiveRemaining(net, its[0]);
      SumAtLeast(Rems(its), 0);
  }

  lemma SkipNoIncrease(it: Iter)
    ensures Remaining(SkipEmpty(it)) <= Remaining(it)
  {
  }

  lemma KeepLess(its: seq<Iter>, vs: seq<Value>, i: nat, n: Iter, v: Value)
    requires i < |its| == |vs| && Remaining(n) < Remaining(its[i])
    ensures Remaining(Merge(its[i := n], vs[i := v])) < Remaining(Merge(its, vs))
  {
    assert Rems(its[i := n]) == Rems(its)[i := Remaining(n)];
    SumUpdate(Rems(its), i, Remaining(n));
  }

  lemma RemoveLess(its: seq<Iter>, vs: seq<Value>, i: nat)
    requires |its| == |vs| && i < |its| && Remaining(its[i]) >= 1
    ensures Remaining(SwapRemove(its, vs, i)) < Remaining(Merge(its, vs))
  {
    var last := |its| - 1;
    assert Rems(its[i := its[last]][..last]) == Rems(its)[i := Rems(its)[last]][..last];
    SumSwapRemove(Rems(its), i);
  }

  lemma {:induction false} NextDecreases(net: Net, it: Iter)
    requires Valid(net, it) && Steppable(it) && !AtEnd(it)
    ensures Remaining(NextSpec(net, it)) < Remaining(it)
    decreases it
  {
    match it
    case Adapter(_, _) =>
    case Merge(its, vs) =>
      var i := Head(its, vs);
      var stepped := NextSpec(net, its[i]);
      var n := SkipEmpty(stepped);
      NextDecreases(net, its[i]);
      SkipNoIncrease(stepped);
      if !AtEnd(n) && FetchIter(net, n).Ok? {
        KeepLess(its, vs, i, n, FetchIter(net, n).value);
      } else {
        LiveRemaining(net, its[i]);
        RemoveLess(its, vs, i);
      }
  }

  /**
   * The iterators `for ; it != it.End(); it = it.Next()` visits, in order.
   * Every valid iterator reaches its end.
   */
  function Walk(net: Net, it: Iter): (r: seq<Iter>)
    requires Valid(net, it)
    ensures |r| <= Remaining(it)
    ensures forall k :: 0 <= k < |r| ==> Valid(net, r[k]) && !AtEnd(r[k]) && Steppable(r[k]) && Readable(r[k])
    ensures AtEnd(it) <==> r == []
    decreases Remaining(it)
  {
    if AtEnd(it) then []
    else
      NextDecreases(net, it);
      [it] + Walk(net, NextSpec(net, it))
  }

  /** One step of a loop over Walk: the current iterator is the next one visited. */
  lemma WalkStep(net: Net, cur: Iter, w: seq<Iter>, k: nat)
    requires Valid(net, cur) && !AtEnd(cur) && k <= |w| && Walk(net, cur) == w[k..]
    ensures k < |w| && w[k] == cur && Steppable(cur) && Readable(cur)
    ensures Walk(net, NextSpec(net, cur)) == w[k + 1..]
  {
    assert Walk(net, cur)[0] == cur;
    assert w[k + 1..] == Walk(net, cur)[1..];
  }

  /** Walking an adapter visits each entry of its property once, in order. */
  lemma {:induction false} AdapterWalk(net: Net, c: Container, pos: nat)
    requires pos <= |c.entries|
    ensures |Walk(net, Adapter(c, pos))| == |c.entries| - pos
    ensures forall k :: 0 <= k < |c.entries| - pos ==> Walk(net, Adapter(c, pos))[k] == Adapter(c, pos + k)
    decreases |c.entries| - pos
  {
    if pos < |c.entries| {
      AdapterWalk(net, c, pos + 1);
      var w := Walk(net, Adapter(c, pos + 1));
      assert Walk(net, Adapter(c, pos)) == [Adapter(c, pos)] + w;
    }
  }

  // ---------------------------------------------------------------------
  // The generated dispatch and Begin

  /** A property type the generated dispatch has a case for. */
  predicate Supported(v: G.Variant, kind: string)
  {
    Listed(kind + "Iterator", G.Registry(v))
  }

  /** Membership in a list of names, searched from the back. */
  predicate Listed(x: string, names: seq<string>)
    decreases |names|
  {
    |names| > 0 && (names[|names| - 1] == x || Listed(x, names[..|names| - 1]))
  }

  lemma {:induction false} ListedIsIn(x: string, names: seq<string>)
    ensures Listed(x, names) <==> x in names
    decreases |names|
  {
    if |names| > 0 {
      var init := names[..|names| - 1];
      ListedIsIn(x, init);
      assert names == init + [names[|names| - 1]];
    }
  }

  /** The supported types are exactly the container names the generator derives from its registry. */
  lemma SupportedIsCase(v: G.Variant, kind: string)
    ensures Supported(v, kind) <==> exists k :: 0 <= k < |G.Registry(v)| && G.BaseName(G.Registry(v)[k]) == kind
  {
    var r := G.Registry(v);
    G.RegistryWellFormed(v);
    G.RegistryBaseNames(v);
    ListedIsIn(kind + "Iterator", r);
    if Supported(v, kind) {
      var k :| 0 <= k < |r| && r[k] == kind + "Iterator";
      G.BaseNameDerivation(r[k]);
      assert G.BaseName(r[k]) == r[k][..|r[k]| - 8];
      assert r[k][..|r[k]| - 8] == kind;
    }
  }

  /**
   * The generated `begin` (fetch) or `Begin` (fedutil): a case for each
   * supported property, building the adapter at the property's first entry.
   * Only the fetch version tests for nil first; in the fedutil version a nil
   * value falls through to the default case.
   */
  function Dispatch(v: G.Variant, x: Iterable): (r: Result<Iter, BeginError>)
    ensures r.Ok? <==> x.Property? && Supported(v, x.c.kind)
    ensures r.Ok? ==> r.value == Adapter(x.c, 0)
    ensures x.NilValue? && v == G.FetchVariant ==> r == Err(NilArgument)
    ensures r.Err? && !(x.NilValue? && v == G.FetchVariant) ==> r == Err(NotSupported(x))
  {
    if v == G.FetchVariant && x.NilValue? then Err(NilArgument)
    else if x.Property? && Supported(v, x.c.kind) then Ok(Adapter(x.c, 0))
    else Err(NotSupported(x))
  }

  /** The orderedItems property of a page as a value; a nil property is a nil value. */
  function Items(items: Option<Container>): Iterable
  {
    if items.Some? then Property(items.value) else NilValue
  }

  /**
   * Begin of fetch/iter.go and fedutil/iterator.go: nil is an error, a page
   * is iterated through its orderedItems, the rest goes to the dispatch.
   * Only the fetch version returns a value that is already an Iter as it is.
   */
  function Begin(v: G.Variant, x: Iterable): (r: Result<Iter, BeginError>)
    ensures x.NilValue? ==> r == Err(NilArgument)
    ensures v == G.FetchVariant && x.IterValue? ==> r == Ok(x.it)
    ensures x.OrderedCollectionPage? ==> r == Dispatch(v, Items(x.items))
    ensures !x.NilValue? && !x.OrderedCollectionPage? && !(v == G.FetchVariant && x.IterValue?) ==> r == Dispatch(v, x)
  {
    match x
    case NilValue => Err(NilArgument)
    case IterValue(it) => if v == G.FetchVariant then Ok(it) else Dispatch(v, x)
    case OrderedCollectionPage(items) => Dispatch(v, Items(items))
    case _ => Dispatch(v, x)
  }

  /** fetch's Begin is idempotent: what it returns, given back, comes back unchanged. */
  lemma BeginIdempotent(x: Iterable, it: Iter)
    requires Begin(G.FetchVariant, x) == Ok(it)
    ensures Begin(G.FetchVariant, IterValue(it)) == Ok(it)
  {
  }

  /** fedutil's Begin has no pass-through: an Iter value is not a supported type. */
  lemma FedutilNoPassThrough(it: Iter)
    ensures Begin(G.FedutilVariant, IterValue(it)) == Err(NotSupported(IterValue(it)))
  {
  }

  /** A page without items fails like nil in fetch, and as an unsupported nil in fedutil. */
  lemma PageWithoutItems()
    ensures Begin(G.FetchVariant, OrderedCollectionPage(None)) == Err(NilArgument)
    ensures Begin(G.FedutilVariant, OrderedCollectionPage(None)) == Err(NotSupported(NilValue))
  {
  }

  /** Begin builds only valid iterators out of values that are not already iterators. */
  lemma BeginValid(net: Net, v: G.Variant, x: Iterable)
    requires !x.IterValue? || Valid(net, x.it)
    requires Begin(v, x).Ok?
    ensures Valid(net, Begin(v, x).value)
  {
  }
}
