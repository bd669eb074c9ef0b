// db/set/string_set.go: a set of strings kept as the key set of a map
// from string to uint8 (every stored value is 1), updated in place.

module StringSet {

  class MapStringSet {
    var storage: map<string, bv8>

    /** NewStringSet(): an empty set. */
    constructor ()
      ensures storage == map[]
      ensures Len() == 0
    {
      storage := map[];
    }

    /** s.Contains(value) */
    predicate Contains(value: string)
      reads this
    {
      value in storage
    }

    /** s.Len() */
    function Len(): (n: nat)
      reads this
      ensures n == |storage.Keys|
    {
      |storage|
    }

    /** Put(value): true iff value was absent; value is then present. */
    method Put(value: string) returns (added: bool)
      modifies this
      ensures added <==> !old(Contains(value))
      ensures storage == old(storage)[value := 1]
      ensures Contains(value)
      ensures forall v :: v != value ==> (Contains(v) <==> old(Contains(v)))
      ensures Len() == old(Len()) + (if added then 1 else 0)
    {
      var contains := Contains(value);
      storage := storage[value := 1];
      added := !contains;
      if contains {
        assert storage.Keys == old(storage.Keys);
      } else {
        assert storage.Keys == old(storage.Keys) + {value};
      }
    }

    /** Remove(value): true iff value was present; value is then absent. */
    method Remove(value: string) returns (removed: bool)
      modifies this
      ensures removed <==> old(Contains(value))
      ensures storage == old(storage) - {value}
      ensures !Contains(value)
      ensures forall v :: v != value ==> (Contains(v) <==> old(Contains(v)))
      ensures Len() == old(Len()) - (if removed then 1 else 0)
    {
      if Contains(value) {
        storage := storage - {value};
        assert old(storage.Keys) == storage.Keys + {value};
        removed := true;
      } else {
        assert storage.Keys == old(storage.Keys);
        removed := false;
      }
    }
  }

  /** Distinct elements: no word is listed twice. */
  predicate Distinct(words: seq<string>)
  {
    forall i, j :: 0 <= i < j < |words| ==> words[i] != words[j]
  }

  /**
   * Putting distinct words one after another into a new set: every Put
   * reports an addition, the set then holds exactly those words, and Len is
   * their number.
   */
  method PutAll(words: seq<string>) returns (s: MapStringSet, allAdded: bool)
    requires Distinct(words)
    ensures fresh(s)
    ensures allAdded
    ensures s.Len() == |words|
    ensures forall w :: s.Contains(w) <==> w in words
  {
    s := new MapStringSet();
    allAdded := true;
    for k := 0 to |words|
      invariant fresh(s)
      invariant allAdded
      invariant forall w :: s.Contains(w) <==> w in words[..k]
      invariant s.Len() == k
    {
      assert words[..k + 1] == words[..k] + [words[k]];
      var added := s.Put(words[k]);
      allAdded := allAdded && added;
    }
    assert words[..|words|] == words;
  }

  /** The words of db/set/string_set_test.go, split at single spaces. */
  const HECUBA_WORDS: seq<string> := [] + ["thy", "brother", "hecuba", "from", "dymas", "sprung", "a",
    "valiant", "warrior", "haughty", "bold", "and", "young"]

  /**
   * The scenario of the package's test: thirteen distinct words are each
   * added once, Len is 13, removing "valiant" succeeds and removing
   * "hector" does not.
   */
  method HecubaScenario() returns (len: nat, removedPresent: bool, removedAbsent: bool)
    ensures len == 13 && removedPresent && !removedAbsent
  {
    assert Distinct(HECUBA_WORDS);
    var s, allAdded := PutAll(HECUBA_WORDS);
    len := s.Len();
    assert HECUBA_WORDS[7] == "valiant";
    removedPresent := s.Remove("valiant");
    assert s.Contains("hector") <==> "hector" in HECUBA_WORDS;
    assert forall i :: 0 <= i < |HECUBA_WORDS| ==> HECUBA_WORDS[i] != "hector";
    removedAbsent := s.Remove("hector");
  }
}
