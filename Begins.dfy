// The merge iterator of fetch/begins.go and fedutil/begins.go, and Next as
// the interface dispatch it calls: the loops of Begins (beginsInitial in
// fedutil), begins.Next and begins.head, each proved against the step and
// head functions of module Iter. The two files share their control flow and
// differ in these points:
//  - fedutil splits the second loop of Begins out as beginsInitial;
//  - fedutil calls Begin of fedutil/iterator.go instead of fetch/iter.go,
//    which the Variant selects;
//  - fedutil calls FetchIterEntry, which no file of the repository defines;
//    the model gives it the semantics of FetchIter, which fedutil/fetch.go
//    defines with the same body as fetch/fetch.go;
//  - fedutil reads times with Published of fedutil/published.go, fetch with
//    prop.Published, which is not part of this model; Stamp takes both to
//    give the published time and to fail on a nil value or a missing
//    published property, as fedutil/published.go does;
//  - the errors come from github.com/pkg/errors rather than the
//    repository's errors package, and a fetch failure is reported as
//    "iterators[%v] bad" rather than "its[%v] bad"; BeginsError keeps the
//    index and the cause but not the message text.

module Begins {
  import opened Common
  import opened Iter
  import G = IteratorGen

  datatype BeginsError = BadIterable(index: nat, cause: BeginError) | BadIterator(index: nat, failure: FetchError)

  /** Callers hand in only well-formed iterators. */
  predicate ValidInputs(net: Net, xs: seq<Iterable>)
  {
    forall k :: 0 <= k < |xs| ==> xs[k].IterValue? ==> Valid(net, xs[k].it)
  }

  /** The first loop of Begins: every argument converted, or the first failure and its index. */
  function ConvertAll(v: G.Variant, xs: seq<Iterable>): (r: Result<seq<Iter>, BeginsError>)
    ensures r.Ok? ==> |r.value| == |xs|
    ensures r.Err? ==> r.error.BadIterable? && r.error.index < |xs|
  {
    if |xs| == 0 then Ok([])
    else
      match ConvertAll(v, xs[..|xs| - 1])
      case Err(e) => Err(e)
      case Ok(its) =>
        match Begin(v, xs[|xs| - 1])
        case Err(e) => Err(BadIterable(|xs| - 1, e))
        case Ok(it) => Ok(its + [it])
  }

  /**
   * ConvertAll succeeds exactly when Begin succeeds on every argument, with
   * those iterators in order; otherwise it names the first failing index and
   * Begin's error there.
   */
  lemma {:induction false} ConvertAllMeaning(v: G.Variant, xs: seq<Iterable>)
    ensures ConvertAll(v, xs).Ok? <==> forall k :: 0 <= k < |xs| ==> Begin(v, xs[k]).Ok?
    ensures ConvertAll(v, xs).Ok? ==> forall k :: 0 <= k < |xs| ==> Begin(v, xs[k]) == Ok(ConvertAll(v, xs).value[k])
    ensures ConvertAll(v, xs).Err? ==> Begin(v, xs[ConvertAll(v, xs).error.index]) == Err(ConvertAll(v, xs).error.cause)
    ensures ConvertAll(v, xs).Err? ==> forall k :: 0 <= k < ConvertAll(v, xs).error.index ==> Begin(v, xs[k]).Ok?
    decreases |xs|
  {
    if |xs| > 0 {
      var n := |xs| - 1;
      var init := xs[..n];
      ConvertAllMeaning(v, init);
      assert forall k :: 0 <= k < n ==> init[k] == xs[k];
      match ConvertAll(v, init)
      case Err(e) =>
        assert ConvertAll(v, xs) == Err(e);
      case Ok(its) =>
        match Begin(v, xs[n])
        case Err(e) =>
          assert ConvertAll(v, xs) == Err(BadIterable(n, e));
        case Ok(it) =>
          ConvertAllAppend(v, xs, its, it);
    }
  }

  /** The last argument converts too: the iterators so far, then its own. */
  lemma ConvertAllAppend(v: G.Variant, xs: seq<Iterable>, its: seq<Iter>, it: Iter)
    requires |xs| > 0 && ConvertAll(v, xs[..|xs| - 1]) == Ok(its) && Begin(v, xs[|xs| - 1]) == Ok(it)
    requires |its| == |xs| - 1 && forall k :: 0 <= k < |xs| - 1 ==> Begin(v, xs[k]) == Ok(its[k])
    ensures ConvertAll(v, xs) == Ok(its + [it])
    ensures forall k :: 0 <= k < |xs| ==> Begin(v, xs[k]) == Ok((its + [it])[k])
  {
    var res := its + [it];
    forall k | 0 <= k < |xs|
      ensures Begin(v, xs[k]) == Ok(res[k])
    {
      if k < |xs| - 1 {
        assert res[k] == its[k];
      }
    }
  }

  lemma ConvertAllValid(net: Net, v: G.Variant, xs: seq<Iterable>)
    requires ValidInputs(net, xs) && ConvertAll(v, xs).Ok?
    ensures forall k :: 0 <= k < |xs| ==> Valid(net, ConvertAll(v, xs).value[k])
  {
    ConvertAllMeaning(v, xs);
    forall k | 0 <= k < |xs|
      ensures Valid(net, ConvertAll(v, xs).value[k])
    {
      BeginValid(net, v, xs[k]);
    }
  }

  /**
   * The second loop of Begins (beginsInitial): each iterator is moved to its
   * first entry with a value; exhausted ones are dropped, the others kept
   * with their fetched value, and the first failed fetch ends the loop.
   */
  function Heads(net: Net, its: seq<Iter>): (r: Result<(seq<Iter>, seq<Value>), BeginsError>)
    requires forall k :: 0 <= k < |its| ==> Valid(net, its[k])
    ensures r.Ok? ==> Valid(net, Merge(r.value.0, r.value.1)) && |r.value.0| <= |its|
    ensures r.Err? ==> r.error.BadIterator? && r.error.index < |its|
  {
    if |its| == 0 then Ok(([], []))
    else
      var init := its[..|its| - 1];
      assert forall k :: 0 <= k < |init| ==> init[k] == its[k];
      var s := SkipEmpty(its[|its| - 1]);
      SkipValid(net, its[|its| - 1]);
      match Heads(net, init)
      case Err(e) => Err(e)
      case Ok(acc) =>
        if AtEnd(s) then Ok(acc)
        else
          match FetchIter(net, s)
          case Err(e) => Err(BadIterator(|its| - 1, e))
          case Ok(o) => Ok((acc.0 + [s], acc.1 + [o]))
  }

  /** Begins (and beginsInitial): END when no iterator has a value left, a begins otherwise. */
  function BeginsSpec(net: Net, v: G.Variant, xs: seq<Iterable>): (r: Result<Iter, BeginsError>)
    requires ValidInputs(net, xs)
    ensures r.Ok? ==> Valid(net, r.value) && r.value.Merge?
  {
    match ConvertAll(v, xs)
    case Err(e) => Err(e)
    case Ok(its) =>
      ConvertAllValid(net, v, xs);
      match Heads(net, its)
      case Err(e) => Err(e)
      case Ok((a, b)) => Ok(Merge(a, b))
  }

  /** Iterators whose entries are all empty leave nothing to merge: Heads keeps none of them. */
  lemma {:induction false} AllExhausted(net: Net, its: seq<Iter>)
    requires forall k :: 0 <= k < |its| ==> Valid(net, its[k]) && AtEnd(SkipEmpty(its[k]))
    ensures Heads(net, its) == Ok(([], []))
  {
    if |its| > 0 {
      AllExhausted(net, its[..|its| - 1]);
    }
  }

  /** An iterator that still has a value and can be fetched is kept. */
  lemma {:induction false} KeptWhenFetched(net: Net, its: seq<Iter>, k: nat)
    requires forall j :: 0 <= j < |its| ==> Valid(net, its[j])
    requires k < |its| && !AtEnd(SkipEmpty(its[k]))
    requires Heads(net, its).Ok?
    ensures SkipEmpty(its[k]) in Heads(net, its).value.0
  {
    var n := |its| - 1;
    var init := its[..n];
    SkipValid(net, its[n]);
    if k < n {
      assert init[k] == its[k];
      KeptWhenFetched(net, init, k);
    }
  }

  // ---------------------------------------------------------------------
  // The loops

  /** It.Next(), the interface call: an adapter's Next or begins.Next. */
  method Next(net: Net, it: Iter) returns (r: Iter)
    requires Valid(net, it) && Steppable(it)
    ensures r == NextSpec(net, it)
    decreases if it.Merge? then 1 else 0, it, 1
  {
    match it
    case Adapter(p, pos) =>
      r := Adapter(p, pos + 1);
    case Merge(_, _) =>
      r := MergeNext(net, it);
  }

  /** begins.Next on copies of the receiver's slices. */
  method MergeNext(net: Net, b: Iter) returns (r: Iter)
    requires b.Merge? && Valid(net, b)
    ensures r == NextSpec(net, b)
    decreases 1, b, 0
  {
    if |b.iterators| == 0 {
      return END;
    }
    var i := HeadIndex(b.iterators, b.values);
    var first := Next(net, b.iterators[i]);
    var cur := first;
    while !AtEnd(cur) && !HasAny(cur)
      invariant Valid(net, cur) && SkipEmpty(cur) == SkipEmpty(first)
      decreases Remaining(cur)
    {
      cur := Next(net, cur);
    }
    SkipStops(net, cur);
    SkipValid(net, first);
    assert cur == SkipEmpty(NextSpec(net, b.iterators[i]));
    MergeStepCases(net, b, i, cur);
    r := Settle(net, b.iterators, b.values, i, cur);
  }

  /**
   * The rest of begins.Next once slot i holds the advanced iterator cur:
   * store its fetched value, or swap-remove slot i when cur is exhausted or
   * its value cannot be fetched; no iterators left is END.
   */
  method Settle(net: Net, its0: seq<Iter>, vs0: seq<Value>, i: nat, cur: Iter) returns (r: Iter)
    requires |its0| == |vs0| && i < |its0|
    requires Valid(net, cur) && (!AtEnd(cur) ==> Live(cur))
    ensures !AtEnd(cur) && FetchIter(net, cur).Ok? ==> r == Merge(its0[i := cur], vs0[i := FetchIter(net, cur).value])
    ensures !(!AtEnd(cur) && FetchIter(net, cur).Ok?) ==> r == SwapRemove(its0, vs0, i)
  {
    var its := its0[i := cur];
    var vs := vs0;
    var removeI := AtEnd(its[i]);
    if !removeI {
      var f := FetchIter(net, its[i]);
      if f.Err? {
        removeI := true;
      } else {
        vs := vs[i := f.value];
      }
    }
    if removeI {
      var last := |its| - 1;
      its := its[i := its[last]][..last];
      vs := vs[i := vs[last]][..last];
      OverwrittenSlotRemoved(its0, i, cur);
    }
    if |its| == 0 {
      return END;
    }
    r := Merge(its, vs);
  }

  /** Swap-removing slot i forgets what was written into it. */
  lemma OverwrittenSlotRemoved<T>(s: seq<T>, i: nat, x: T)
    requires i < |s|
    ensures s[i := x][i := s[i := x][|s| - 1]][..|s| - 1] == s[i := s[|s| - 1]][..|s| - 1]
  {
  }

  /** NextSpec of a begins, one case per outcome of advancing its head. */
  lemma MergeStepCases(net: Net, b: Iter, i: int, n: Iter)
    requires b.Merge? && Valid(net, b) && |b.iterators| > 0
    requires i == Head(b.iterators, b.values)
    requires n == SkipEmpty(NextSpec(net, b.iterators[i]))
    ensures Valid(net, n) && (!AtEnd(n) ==> Live(n))
    ensures !AtEnd(n) && FetchIter(net, n).Ok? ==>
      NextSpec(net, b) == Merge(b.iterators[i := n], b.values[i := FetchIter(net, n).value])
    ensures !(!AtEnd(n) && FetchIter(net, n).Ok?) ==> NextSpec(net, b) == SwapRemove(b.iterators, b.values, i)
  {
    SkipValid(net, NextSpec(net, b.iterators[i]));
  }

  /** begins.head with newestTime updated along with newestIdx. */
  method HeadIndex(its: seq<Iter>, vs: seq<Value>) returns (i: int)
    ensures i == Head(its, vs)
  {
    if |its| == 0 {
      return -1;
    }
    var newestIdx: nat := 0;
    var newestTime := 0;
    for k := 0 to |vs|
      invariant (newestIdx, newestTime) == Newest(vs[..k])
    {
      assert vs[..k + 1][..k] == vs[..k];
      // prop.Published fails on a nil value and on a missing published property
      if vs[k].Some? && vs[k].value.published.Some? {
        var t := vs[k].value.published.value;
        if t > newestTime {
          newestIdx := k;
          newestTime := t;
        }
      }
    }
    assert vs[..|vs|] == vs;
    i := newestIdx;
  }

  /** begins.head as written: newestTime is never assigned. */
  method HeadIndexAsWritten(its: seq<Iter>, vs: seq<Value>) returns (i: int)
    ensures i == HeadAsWritten(its, vs)
  {
    if |its| == 0 {
      return -1;
    }
    var newestIdx: nat := 0;
    var newestTime := 0;
    for k := 0 to |vs|
      invariant newestIdx == LastAfterZero(vs[..k])
    {
      assert vs[..k + 1][..k] == vs[..k];
      if vs[k].Some? && vs[k].value.published.Some? {
        var t := vs[k].value.published.value;
        if t > newestTime {
          newestIdx := k;
        }
      }
    }
    assert vs[..|vs|] == vs;
    i := newestIdx;
  }

  /** Begins(iterables...); fedutil's second half is beginsInitial. */
  method Begins(net: Net, v: G.Variant, xs: seq<Iterable>) returns (r: Result<Iter, BeginsError>)
    requires ValidInputs(net, xs)
    ensures r == BeginsSpec(net, v, xs)
  {
    var its: seq<Iter> := [];
    for i := 0 to |xs|
      invariant ConvertAll(v, xs[..i]) == Ok(its)
    {
      assert xs[..i + 1][..i] == xs[..i];
      var b := Begin(v, xs[i]);
      if b.Err? {
        assert ConvertAll(v, xs[..i + 1]) == Err(BadIterable(i, b.error));
        ConvertPrefixErr(v, xs, i + 1);
        return Err(BadIterable(i, b.error));
      }
      its := its + [b.value];
    }
    assert xs[..|xs|] == xs;
    ConvertAllValid(net, v, xs);
    r := BeginsInitial(net, its);
  }

  /** beginsInitial(iterators...). */
  method BeginsInitial(net: Net, its: seq<Iter>) returns (r: Result<Iter, BeginsError>)
    requires forall k :: 0 <= k < |its| ==> Valid(net, its[k])
    ensures Heads(net, its).Err? ==> r == Err(Heads(net, its).error)
    ensures Heads(net, its).Ok? ==> r == Ok(Merge(Heads(net, its).value.0, Heads(net, its).value.1))
  {
    var iterators: seq<Iter> := [];
    var values: seq<Value> := [];
    for i := 0 to |its|
      invariant Heads(net, its[..i]) == Ok((iterators, values))
    {
      var it := its[i];
      while !AtEnd(it) && !HasAny(it)
        invariant Valid(net, it) && SkipEmpty(it) == SkipEmpty(its[i])
        decreases Remaining(it)
      {
        it := Next(net, it);
      }
      SkipStops(net, it);
      HeadsStep(net, its, i, iterators, values);
      if AtEnd(it) {
        continue;
      }
      var f := FetchIter(net, it);
      if f.Err? {
        HeadsPrefixErr(net, its, i + 1);
        return Err(BadIterator(i, f.error));
      }
      iterators := iterators + [it];
      values := values + [f.value];
    }
    assert its[..|its|] == its;
    r := Ok(Merge(iterators, values));
  }

  /** One more iterator: Heads skips its empty entries, then drops it at its end or keeps its fetched head. */
  lemma HeadsStep(net: Net, its: seq<Iter>, i: nat, iterators: seq<Iter>, values: seq<Value>)
    requires forall k :: 0 <= k < |its| ==> Valid(net, its[k])
    requires i < |its| && Heads(net, its[..i]) == Ok((iterators, values))
    ensures Valid(net, SkipEmpty(its[i]))
    ensures AtEnd(SkipEmpty(its[i])) ==> Heads(net, its[..i + 1]) == Ok((iterators, values))
    ensures !AtEnd(SkipEmpty(its[i])) ==>
      match FetchIter(net, SkipEmpty(its[i]))
      case Err(e) => Heads(net, its[..i + 1]) == Err(BadIterator(i, e))
      case Ok(o) => Heads(net, its[..i + 1]) == Ok((iterators + [SkipEmpty(its[i])], values + [o]))
  {
    assert its[..i + 1][..i] == its[..i];
    assert its[..i + 1][i] == its[i];
    SkipValid(net, its[i]);
  }

  /** A failure in a prefix is the failure of the whole. */
  lemma {:induction false} ConvertPrefixErr(v: G.Variant, xs: seq<Iterable>, n: nat)
    requires n <= |xs| && ConvertAll(v, xs[..n]).Err?
    ensures ConvertAll(v, xs) == ConvertAll(v, xs[..n])
    decreases |xs| - n
  {
    if n < |xs| {
      assert xs[..n + 1][..n] == xs[..n];
      ConvertPrefixErr(v, xs, n + 1);
    } else {
      assert xs[..n] == xs;
    }
  }

  lemma {:induction false} HeadsPrefixErr(net: Net, its: seq<Iter>, n: nat)
    requires forall k :: 0 <= k < |its| ==> Valid(net, its[k])
    requires n <= |its| && Heads(net, its[..n]).Err?
    ensures Heads(net, its) == Heads(net, its[..n])
    decreases |its| - n
  {
    if n < |its| {
      assert its[..n + 1][..n] == its[..n];
      HeadsPrefixErr(net, its, n + 1);
    } else {
      assert its[..n] == its;
    }
  }
}
