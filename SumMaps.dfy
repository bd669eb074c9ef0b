// fedutil/sum_maps.go (SumMaps), fedweb/sum_maps.go (sumMaps, the same
// code) and fedweb/join_maps.go (Sum): fresh maps filled key by key from
// their arguments, later arguments overwriting earlier ones. Go's map
// iteration order is unspecified; the model takes keys in an arbitrary
// order, which cannot matter since every key is written once per map.
// A nil map is the empty map.

module Maps {

  /** The union the loops build: each map laid over everything before it. */
  function Union<V>(ms: seq<map<string, V>>): (u: map<string, V>)
    decreases |ms|
  {
    if |ms| == 0 then map[] else Union(ms[..|ms| - 1]) + ms[|ms| - 1]
  }

  /** The keys of the union are the keys of the arguments. */
  lemma {:induction false} UnionKeys<V>(ms: seq<map<string, V>>, k: string)
    ensures k in Union(ms) <==> exists i :: 0 <= i < |ms| && k in ms[i]
    decreases |ms|
  {
    if |ms| > 0 {
      var init := ms[..|ms| - 1];
      UnionKeys(init, k);
      assert forall i :: 0 <= i < |init| ==> init[i] == ms[i];
    }
  }

  /**
   * Each key carries the value of the last argument that maps it: if ms[i]
   * maps k and no later argument does, the union maps k to ms[i][k].
   */
  lemma {:induction false} UnionLastWins<V>(ms: seq<map<string, V>>, i: nat, k: string)
    requires i < |ms| && k in ms[i]
    requires forall j :: i < j < |ms| ==> k !in ms[j]
    ensures k in Union(ms) && Union(ms)[k] == ms[i][k]
    decreases |ms|
  {
    if i < |ms| - 1 {
      var init := ms[..|ms| - 1];
      assert init[i] == ms[i];
      UnionLastWins(init, i, k);
    }
  }

  /** No arguments, or only empty ones, give the empty map. */
  lemma {:induction false} UnionOfEmpties<V>(ms: seq<map<string, V>>)
    requires forall i :: 0 <= i < |ms| ==> ms[i] == map[]
    ensures Union(ms) == map[]
    decreases |ms|
  {
    if |ms| > 0 {
      UnionOfEmpties(ms[..|ms| - 1]);
    }
  }

  /** The union of two maps is the second laid over the first. */
  lemma UnionPair<V>(a: map<string, V>, b: map<string, V>)
    ensures Union([a, b]) == a + b
  {
    var e: map<string, V> := map[];
    assert [a, b][..1] == [a];
    assert [a][..0] == [];
    assert Union([a]) == Union<V>([]) + a;
    assert e + a == a;
    assert Union([a, b]) == Union([a]) + b;
  }

  /** The inner loop: every entry of m written into sum. */
  method CopyInto<V>(sum: map<string, V>, m: map<string, V>) returns (r: map<string, V>)
    ensures r == sum + m
  {
    r := sum;
    var unseen := m.Keys;
    while unseen != {}
      invariant unseen <= m.Keys
      invariant r.Keys == sum.Keys + (m.Keys - unseen)
      invariant forall k :: k in r && k !in m ==> r[k] == sum[k]
      invariant forall k :: k in m && k !in unseen ==> r[k] == m[k]
      invariant forall k :: k in r && k in unseen ==> r[k] == sum[k]
      decreases |unseen|
    {
      var key :| key in unseen;
      r := r[key := m[key]];
      unseen := unseen - {key};
    }
  }

  /** SumMaps(ms...) and sumMaps(ms...): the union, later maps winning. */
  method SumMaps<V>(ms: seq<map<string, V>>) returns (sum: map<string, V>)
    ensures sum == Union(ms)
  {
    sum := map[];
    for i := 0 to |ms|
      invariant sum == Union(ms[..i])
    {
      sum := CopyInto(sum, ms[i]);
      assert ms[..i + 1][..i] == ms[..i];
    }
    assert ms[..|ms|] == ms;
  }

  /** Sum(old, new): old's entries, then new's over them. */
  method Sum<V>(older: map<string, V>, newer: map<string, V>) returns (sum: map<string, V>)
    ensures sum.Keys == older.Keys + newer.Keys
    ensures forall k :: k in newer ==> sum[k] == newer[k]
    ensures forall k :: k in older && k !in newer ==> sum[k] == older[k]
    ensures sum == Union([older, newer])
  {
    sum := map[];
    sum := CopyInto(sum, older);
    sum := CopyInto(sum, newer);
    assert map[] + older == older;
    UnionPair(older, newer);
  }

  /** The empty map is a unit of Sum on both sides. */
  lemma SumUnits<V>(m: map<string, V>)
    ensures Union([m, map[]]) == m && Union([map[], m]) == m
  {
    var e: map<string, V> := map[];
    UnionPair(m, e);
    UnionPair(e, m);
    assert m + e == m && e + m == m;
  }
}
