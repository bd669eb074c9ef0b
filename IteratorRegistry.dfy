// The registries of go-fed iterator type names that the two adapter
// generators (fetch/iterator_impl.gen.py and fedutil/iterator_impl.gen.py)
// walk, together with the facts about these literal names that the
// generator's properties depend on: every name ends in "Iterator", has no
// earlier occurrence of it and no '$', and each registry is
// strictly sorted, hence free of duplicates.
//
// Every name is written as its vocabulary, its property and
// "PropertyIterator" joined, the way go-fed composes these type names; the
// strings are the ones in the scripts. Facts about one name are cheap for the
// verifier while facts about many names in one proof obligation are not, so
// they are proved one entry at a time (the ...At lemmas), collected six at a
// time, and then for all indices.

module IteratorRegistry {

  /** `iterator_types` of the fetch generator, in source order. */
  const FetchIteratorTypes: seq<string> := [] + [
    "ActivityStreams" + "Actor" + "PropertyIterator",
    "ActivityStreams" + "AnyOf" + "PropertyIterator",
    "ActivityStreams" + "Attachment" + "PropertyIterator",
    "ActivityStreams" + "AttributedTo" + "PropertyIterator",
    "ActivityStreams" + "Audience" + "PropertyIterator",
    "ActivityStreams" + "Bcc" + "PropertyIterator",
    "ActivityStreams" + "Bto" + "PropertyIterator",
    "ActivityStreams" + "Cc" + "PropertyIterator",
    "ActivityStreams" + "Closed" + "PropertyIterator",
    "ActivityStreams" + "Context" + "PropertyIterator",
    "ActivityStreams" + "FormerType" + "PropertyIterator",
    "ActivityStreams" + "Generator" + "PropertyIterator",
    "ActivityStreams" + "Icon" + "PropertyIterator",
    "ActivityStreams" + "Image" + "PropertyIterator",
    "ActivityStreams" + "InReplyTo" + "PropertyIterator",
    "ActivityStreams" + "Instrument" + "PropertyIterator",
    "ActivityStreams" + "Items" + "PropertyIterator",
    "ActivityStreams" + "Location" + "PropertyIterator",
    "ActivityStreams" + "Object" + "PropertyIterator",
    "ActivityStreams" + "OneOf" + "PropertyIterator",
    "ActivityStreams" + "OrderedItems" + "PropertyIterator",
    "ActivityStreams" + "Origin" + "PropertyIterator",
    "ActivityStreams" + "Preview" + "PropertyIterator",
    "ActivityStreams" + "Relationship" + "PropertyIterator",
    "ActivityStreams" + "Result" + "PropertyIterator",
    "ActivityStreams" + "Streams" + "PropertyIterator",
    "ActivityStreams" + "Tag" + "PropertyIterator",
    "ActivityStreams" + "Target" + "PropertyIterator",
    "ActivityStreams" + "To" + "PropertyIterator",
    "ActivityStreams" + "Url" + "PropertyIterator",
    "W3IDSecurityV1" + "PublicKey" + "PropertyIterator"
  ]

  /** `not_supported` of the fetch generator. */
  const NotSupported: seq<string> := [
    "ActivityStreams" + "Content" + "PropertyIterator",
    "ActivityStreams" + "Name" + "PropertyIterator",
    "ActivityStreams" + "Rel" + "PropertyIterator",
    "ActivityStreams" + "Summary" + "PropertyIterator",
    "JSONLD" + "Type" + "PropertyIterator"
  ]

  /** `iterator_types` of the fedutil generator, in source order. */
  const FedutilIteratorTypes: seq<string> := [] + [
    "ActivityStreams" + "Actor" + "PropertyIterator",
    "ActivityStreams" + "AnyOf" + "PropertyIterator",
    "ActivityStreams" + "Attachment" + "PropertyIterator",
    "ActivityStreams" + "AttributedTo" + "PropertyIterator",
    "ActivityStreams" + "Audience" + "PropertyIterator",
    "ActivityStreams" + "Bcc" + "PropertyIterator",
    "ActivityStreams" + "Bto" + "PropertyIterator",
    "ActivityStreams" + "Cc" + "PropertyIterator",
    "ActivityStreams" + "Closed" + "PropertyIterator",
    "ActivityStreams" + "Content" + "PropertyIterator",
    "ActivityStreams" + "Context" + "PropertyIterator",
    "ActivityStreams" + "FormerType" + "PropertyIterator",
    "ActivityStreams" + "Generator" + "PropertyIterator",
    "ActivityStreams" + "Icon" + "PropertyIterator",
    "ActivityStreams" + "Image" + "PropertyIterator",
    "ActivityStreams" + "InReplyTo" + "PropertyIterator",
    "ActivityStreams" + "Instrument" + "PropertyIterator",
    "ActivityStreams" + "Items" + "PropertyIterator",
    "ActivityStreams" + "Location" + "PropertyIterator",
    "ActivityStreams" + "Name" + "PropertyIterator",
    "ActivityStreams" + "Object" + "PropertyIterator",
    "ActivityStreams" + "OneOf" + "PropertyIterator",
    "ActivityStreams" + "OrderedItems" + "PropertyIterator",
    "ActivityStreams" + "Origin" + "PropertyIterator",
    "ActivityStreams" + "Preview" + "PropertyIterator",
    "ActivityStreams" + "Rel" + "PropertyIterator",
    "ActivityStreams" + "Relationship" + "PropertyIterator",
    "ActivityStreams" + "Result" + "PropertyIterator",
    "ActivityStreams" + "Streams" + "PropertyIterator",
    "ActivityStreams" + "Summary" + "PropertyIterator",
    "ActivityStreams" + "Tag" + "PropertyIterator",
    "ActivityStreams" + "Target" + "PropertyIterator",
    "ActivityStreams" + "To" + "PropertyIterator",
    "ActivityStreams" + "Url" + "PropertyIterator",
    "JSONLD" + "Type" + "PropertyIterator",
    "W3IDSecurityV1" + "PublicKey" + "PropertyIterator"
  ]

  /** n has "Iter" at position i. */
  predicate IterAt(n: string, i: nat)
    requires i + 4 <= |n|
  {
    n[i] == 'I' && n[i + 1] == 't' && n[i + 2] == 'e' && n[i + 3] == 'r'
  }

  /** Position i of n holds no '$' and does not start "Iter". */
  predicate CleanAt(n: string, i: nat)
    requires i + 4 <= |n|
  {
    n[i] != '$' && !IterAt(n, i)
  }

  /**
   * n ends in "Iterator", has no earlier "Iter" and no '$', so that
   * "Iterator" occurs in n exactly once, at the end.
   */
  predicate IsIteratorName(n: string) {
    && |n| >= 8
    && n[|n| - 8] == 'I' && n[|n| - 7] == 't' && n[|n| - 6] == 'e' && n[|n| - 5] == 'r'
    && n[|n| - 4] == 'a' && n[|n| - 3] == 't' && n[|n| - 2] == 'o' && n[|n| - 1] == 'r'
    && (forall i :: 0 <= i < |n| - 8 ==> CleanAt(n, i))
  }

  /** s has no '$' and no "Iter". */
  predicate StemClean(s: string) {
    forall i :: 0 <= i < |s| ==> s[i] != '$' && (i + 4 <= |s| ==> !IterAt(s, i))
  }

  predicate Capital(c: char) {
    'A' <= c <= 'Z'
  }

  /** Joining at a capital letter creates no "Iter": its last three letters are lower case. */
  lemma StemJoin(x: string, y: string)
    requires StemClean(x) && StemClean(y) && |y| > 0 && Capital(y[0])
    ensures StemClean(x + y)
  {
    var s := x + y;
    forall i | 0 <= i < |s|
      ensures s[i] != '$' && (i + 4 <= |s| ==> !IterAt(s, i))
    {
      if i >= |x| {
        assert s[i] == y[i - |x|];
        if i + 4 <= |s| {
          assert s[i + 1] == y[i - |x| + 1] && s[i + 2] == y[i - |x| + 2] && s[i + 3] == y[i - |x| + 3];
        }
      } else if i + 4 <= |x| {
        assert s[i] == x[i] && s[i + 1] == x[i + 1] && s[i + 2] == x[i + 2] && s[i + 3] == x[i + 3];
      } else {
        assert s[i] == x[i];
        assert s[|x|] == y[0];
      }
    }
  }

  lemma NameOfStem(s: string)
    requires StemClean(s)
    ensures IsIteratorName(s + "Iterator")
  {
    var n := s + "Iterator";
    forall i | 0 <= i < |n| - 8
      ensures CleanAt(n, i)
    {
      assert n[i] == s[i];
      if i + 4 <= |s| {
        assert n[i + 1] == s[i + 1] && n[i + 2] == s[i + 2] && n[i + 3] == s[i + 3];
      } else {
        assert n[|s|] == 'I';
      }
    }
  }

  /**
   * A go-fed property iterator name (vocabulary, property, "PropertyIterator")
   * is an iterator name when its vocabulary and property are.
   */
  lemma PropertyIteratorName(vocab: string, prop: string)
    requires StemClean(vocab) && StemClean(prop) && |prop| > 0 && Capital(prop[0])
    ensures IsIteratorName(vocab + prop + "PropertyIterator")
  {
    StemJoin(vocab, prop);
    StemJoin(vocab + prop, "Property");
    NameOfStem(vocab + prop + "Property");
    assert vocab + prop + "Property" + "Iterator" == vocab + prop + "PropertyIterator";
  }

  /** The vocabularies the registries draw on. */
  lemma Vocabularies()
    ensures StemClean("ActivityStreams") && StemClean("JSONLD") && StemClean("W3IDSecurityV1")
  {
  }

  // ---------------------------------------------------------------------
  // Lexicographic order on strings

  /** a and b agree below k and a is smaller at k. */
  predicate LessAt(a: string, b: string, k: nat) {
    k < |a| && k < |b| && a[k] < b[k] && forall i :: 0 <= i < k ==> a[i] == b[i]
  }

  ghost predicate Less(a: string, b: string) {
    exists k :: LessAt(a, b, k)
  }

  ghost predicate StrictlySorted(s: seq<string>) {
    forall j :: 0 <= j < |s| - 1 ==> Less(s[j], s[j + 1])
  }

  predicate Distinct(s: seq<string>) {
    forall i, j :: 0 <= i < j < |s| ==> s[i] != s[j]
  }

  lemma LessIrreflexive(a: string)
    ensures !Less(a, a)
  {
  }

  lemma LessTransitive(a: string, b: string, c: string)
    requires Less(a, b) && Less(b, c)
    ensures Less(a, c)
  {
    var k1 :| LessAt(a, b, k1);
    var k2 :| LessAt(b, c, k2);
    if k1 <= k2 {
      assert LessAt(a, c, k1);
    } else {
      assert LessAt(a, c, k2);
    }
  }

  lemma {:induction false} SortedLess(s: seq<string>, i: nat, j: nat)
    requires StrictlySorted(s) && i < j < |s|
    ensures Less(s[i], s[j])
    decreases j - i
  {
    if i + 1 < j {
      SortedLess(s, i + 1, j);
      LessTransitive(s[i], s[i + 1], s[j]);
    }
  }

  lemma SortedDistinct(s: seq<string>)
    requires StrictlySorted(s)
    ensures Distinct(s)
  {
    forall i, j | 0 <= i < j < |s|
      ensures s[i] != s[j]
    {
      SortedLess(s, i, j);
      LessIrreflexive(s[i]);
    }
  }

  /** A string strictly between two neighbours of a sorted list is not in it. */
  lemma BetweenNeighboursAbsent(s: seq<string>, a: nat, x: string)
    requires StrictlySorted(s) && a + 1 < |s|
    requires Less(s[a], x) && Less(x, s[a + 1])
    ensures x !in s
  {
    if x in s {
      var j :| 0 <= j < |s| && s[j] == x;
      if j < a {
        SortedLess(s, j, a);
        LessTransitive(x, s[a], x);
      } else if j == a {
        LessIrreflexive(x);
      } else if j == a + 1 {
        LessIrreflexive(x);
      } else {
        SortedLess(s, a + 1, j);
        LessTransitive(x, s[a + 1], x);
      }
      LessIrreflexive(x);
    }
  }

  // ---------------------------------------------------------------------
  // Facts about the fedutil registry, entry by entry
  lemma FedutilNameAt0()
    ensures IsIteratorName(FedutilIteratorTypes[0])
  {
    Vocabularies();
    PropertyIteratorName("ActivityStreams", "Actor");
  }
  lemma FedutilNameAt1()
    ensures IsIteratorName(FedutilIteratorTypes[1])
  {
    Vocabularies();
    PropertyIteratorName("ActivityStreams", "AnyOf");
  }
  lemma FedutilNameAt2()
    ensures IsIteratorName(FedutilIteratorTypes[2])
  {
    Vocabularies();
    PropertyIteratorName("ActivityStreams", "Attachment");
  }
  lemma FedutilNameAt3()
    ensures IsIteratorName(FedutilIteratorTypes[3])
  {
    Vocabularies();
    PropertyIteratorName("ActivityStreams", "AttributedTo");
  }
  lemma FedutilNameAt4()
    ensures IsIteratorName(FedutilIteratorTypes[4])
  {
    Vocabularies();
    PropertyIteratorName("ActivityStreams", "Audience");
  }
  lemma FedutilNameAt5()
    ensures IsIteratorName(FedutilIteratorTypes[5])
  {
    Vocabularies();
    PropertyIteratorName("ActivityStreams", "Bcc");
  }
  lemma FedutilNameAt6()
    ensures IsIteratorName(FedutilIteratorTypes[6])
  {
    Vocabularies();
    PropertyIteratorName("ActivityStreams", "Bto");
  }
  lemma FedutilNameAt7()
    ensures IsIteratorName(FedutilIteratorTypes[7])
  {
    Vocabularies();
    PropertyIteratorName("ActivityStreams", "Cc");
  }
  lemma FedutilNameAt8()
    ensures IsIteratorName(FedutilIteratorTypes[8])
  {
    Vocabularies();
    PropertyIteratorName("ActivityStreams", "Closed");
  }
  lemma FedutilNameAt9()
    ensures IsIteratorName(FedutilIteratorTypes[9])
  {
    Vocabularies();
    PropertyIteratorName("ActivityStreams", "Content");
  }
  lemma FedutilNameAt10()
    ensures IsIteratorName(FedutilIteratorTypes[10])
  {
    Vocabularies();
    PropertyIteratorName("ActivityStreams", "Context");
  }
  lemma FedutilNameAt11()
    ensures IsIteratorName(FedutilIteratorTypes[11])
  {
    Vocabularies();
    PropertyIteratorName("ActivityStreams", "FormerType");
  }
  lemma FedutilNameAt12()
    ensures IsIteratorName(FedutilIteratorTypes[12])
  {
    Vocabularies();
    PropertyIteratorName("ActivityStreams", "Generator");
  }
  lemma FedutilNameAt13()
    ensures IsIteratorName(FedutilIteratorTypes[13])
  {
    Vocabularies();
    PropertyIteratorName("ActivityStreams", "Icon");
  }
  lemma FedutilNameAt14()
    ensures IsIteratorName(FedutilIteratorTypes[14])
  {
    Vocabularies();
    PropertyIteratorName("ActivityStreams", "Image");
  }
  lemma FedutilNameAt15()
    ensures IsIteratorName(FedutilIteratorTypes[15])
  {
    Vocabularies();
    PropertyIteratorName("ActivityStreams", "InReplyTo");
  }
  lemma FedutilNameAt16()
    ensures IsIteratorName(FedutilIteratorTypes[16])
  {
    Vocabularies();
    PropertyIteratorName("ActivityStreams", "Instrument");
  }
  lemma FedutilNameAt17()
    ensures IsIteratorName(FedutilIteratorTypes[17])
  {
    Vocabularies();
    PropertyIteratorName("ActivityStreams", "Items");
  }
  lemma FedutilNameAt18()
    ensures IsIteratorName(FedutilIteratorTypes[18])
  {
    Vocabularies();
    PropertyIteratorName("ActivityStreams", "Location");
  }
  lemma FedutilNameAt19()
    ensures IsIteratorName(FedutilIteratorTypes[19])
  {
    Vocabularies();
    PropertyIteratorName("ActivityStreams", "Name");
  }
  lemma FedutilNameAt20()
    ensures IsIteratorName(FedutilIteratorTypes[20])
  {
    Vocabularies();
    PropertyIteratorName("ActivityStreams", "Object");
  }
  lemma FedutilNameAt21()
    ensures IsIteratorName(FedutilIteratorTypes[21])
  {
    Vocabularies();
    PropertyIteratorName("ActivityStreams", "OneOf");
  }
  lemma FedutilNameAt22()
    ensures IsIteratorName(FedutilIteratorTypes[22])
  {
    Vocabularies();
    PropertyIteratorName("ActivityStreams", "OrderedItems");
  }
  lemma FedutilNameAt23()
    ensures IsIteratorName(FedutilIteratorTypes[23])
  {
    Vocabularies();
    PropertyIteratorName("ActivityStreams", "Origin");
  }
  lemma FedutilNameAt24()
    ensures IsIteratorName(FedutilIteratorTypes[24])
  {
    Vocabularies();
    PropertyIteratorName("ActivityStreams", "Preview");
  }
  lemma FedutilNameAt25()
    ensures IsIteratorName(FedutilIteratorTypes[25])
  {
    Vocabularies();
    PropertyIteratorName("ActivityStreams", "Rel");
  }
  lemma FedutilNameAt26()
    ensures IsIteratorName(FedutilIteratorTypes[26])
  {
    Vocabularies();
    PropertyIteratorName("ActivityStreams", "Relationship");
  }
  lemma FedutilNameAt27()
    ensures IsIteratorName(FedutilIteratorTypes[27])
  {
    Vocabularies();
    PropertyIteratorName("ActivityStreams", "Result");
  }
  lemma FedutilNameAt28()
    ensures IsIteratorName(FedutilIteratorTypes[28])
  {
    Vocabularies();
    PropertyIteratorName("ActivityStreams", "Streams");
  }
  lemma FedutilNameAt29()
    ensures IsIteratorName(FedutilIteratorTypes[29])
  {
    Vocabularies();
    PropertyIteratorName("ActivityStreams", "Summary");
  }
  lemma FedutilNameAt30()
    ensures IsIteratorName(FedutilIteratorTypes[30])
  {
    Vocabularies();
    PropertyIteratorName("ActivityStreams", "Tag");
  }
  lemma FedutilNameAt31()
    ensures IsIteratorName(FedutilIteratorTypes[31])
  {
    Vocabularies();
    PropertyIteratorName("ActivityStreams", "Target");
  }
  lemma FedutilNameAt32()
    ensures IsIteratorName(FedutilIteratorTypes[32])
  {
    Vocabularies();
    PropertyIteratorName("ActivityStreams", "To");
  }
  lemma FedutilNameAt33()
    ensures IsIteratorName(FedutilIteratorTypes[33])
  {
    Vocabularies();
    PropertyIteratorName("ActivityStreams", "Url");
  }
  lemma FedutilNameAt34()
    ensures IsIteratorName(FedutilIteratorTypes[34])
  {
    Vocabularies();
    PropertyIteratorName("JSONLD", "Type");
  }
  lemma FedutilNameAt35()
    ensures IsIteratorName(FedutilIteratorTypes[35])
  {
    Vocabularies();
    PropertyIteratorName("W3IDSecurityV1", "PublicKey");
  }

  lemma FedutilNameFrom0(k: nat)
    requires 0 <= k < 6
    ensures IsIteratorName(FedutilIteratorTypes[k])
  {
    if k == 0 { FedutilNameAt0(); }
    else if k == 1 { FedutilNameAt1(); }
    else if k == 2 { FedutilNameAt2(); }
    else if k == 3 { FedutilNameAt3(); }
    else if k == 4 { FedutilNameAt4(); }
    else if k == 5 { FedutilNameAt5(); }
  }

  lemma FedutilNameFrom6(k: nat)
    requires 6 <= k < 12
    ensures IsIteratorName(FedutilIteratorTypes[k])
  {
    if k == 6 { FedutilNameAt6(); }
    else if k == 7 { FedutilNameAt7(); }
    else if k == 8 { FedutilNameAt8(); }
    else if k == 9 { FedutilNameAt9(); }
    else if k == 10 { FedutilNameAt10(); }
    else if k == 11 { FedutilNameAt11(); }
  }

  lemma FedutilNameFrom12(k: nat)
    requires 12 <= k < 18
    ensures IsIteratorName(FedutilIteratorTypes[k])
  {
    if k == 12 { FedutilNameAt12(); }
    else if k == 13 { FedutilNameAt13(); }
    else if k == 14 { FedutilNameAt14(); }
    else if k == 15 { FedutilNameAt15(); }
    else if k == 16 { FedutilNameAt16(); }
    else if k == 17 { FedutilNameAt17(); }
  }

  lemma FedutilNameFrom18(k: nat)
    requires 18 <= k < 24
    ensures IsIteratorName(FedutilIteratorTypes[k])
  {
    if k == 18 { FedutilNameAt18(); }
    else if k == 19 { FedutilNameAt19(); }
    else if k == 20 { FedutilNameAt20(); }
    else if k == 21 { FedutilNameAt21(); }
    else if k == 22 { FedutilNameAt22(); }
    else if k == 23 { FedutilNameAt23(); }
  }

  lemma FedutilNameFrom24(k: nat)
    requires 24 <= k < 30
    ensures IsIteratorName(FedutilIteratorTypes[k])
  {
    if k == 24 { FedutilNameAt24(); }
    else if k == 25 { FedutilNameAt25(); }
    else if k == 26 { FedutilNameAt26(); }
    else if k == 27 { FedutilNameAt27(); }
    else if k == 28 { FedutilNameAt28(); }
    else if k == 29 { FedutilNameAt29(); }
  }

  lemma FedutilNameFrom30(k: nat)
    requires 30 <= k < 36
    ensures IsIteratorName(FedutilIteratorTypes[k])
  {
    if k == 30 { FedutilNameAt30(); }
    else if k == 31 { FedutilNameAt31(); }
    else if k == 32 { FedutilNameAt32(); }
    else if k == 33 { FedutilNameAt33(); }
    else if k == 34 { FedutilNameAt34(); }
    else if k == 35 { FedutilNameAt35(); }
  }

  lemma FedutilOrderAt0()
    ensures LessAt(FedutilIteratorTypes[0], FedutilIteratorTypes[1], 16)
  {
  }
  lemma FedutilOrderAt1()
    ensures LessAt(FedutilIteratorTypes[1], FedutilIteratorTypes[2], 16)
  {
  }
  lemma FedutilOrderAt2()
    ensures LessAt(FedutilIteratorTypes[2], FedutilIteratorTypes[3], 18)
  {
  }
  lemma FedutilOrderAt3()
    ensures LessAt(FedutilIteratorTypes[3], FedutilIteratorTypes[4], 16)
  {
  }
  lemma FedutilOrderAt4()
    ensures LessAt(FedutilIteratorTypes[4], FedutilIteratorTypes[5], 15)
  {
  }
  lemma FedutilOrderAt5()
    ensures LessAt(FedutilIteratorTypes[5], FedutilIteratorTypes[6], 16)
  {
  }
  lemma FedutilOrderAt6()
    ensures LessAt(FedutilIteratorTypes[6], FedutilIteratorTypes[7], 15)
  {
  }
  lemma FedutilOrderAt7()
    ensures LessAt(FedutilIteratorTypes[7], FedutilIteratorTypes[8], 16)
  {
  }
  lemma FedutilOrderAt8()
    ensures LessAt(FedutilIteratorTypes[8], FedutilIteratorTypes[9], 16)
  {
  }
  lemma FedutilOrderAt9()
    ensures LessAt(FedutilIteratorTypes[9], FedutilIteratorTypes[10], 20)
  {
  }
  lemma FedutilOrderAt10()
    ensures LessAt(FedutilIteratorTypes[10], FedutilIteratorTypes[11], 15)
  {
  }
  lemma FedutilOrderAt11()
    ensures LessAt(FedutilIteratorTypes[11], FedutilIteratorTypes[12], 15)
  {
  }
  lemma FedutilOrderAt12()
    ensures LessAt(FedutilIteratorTypes[12], FedutilIteratorTypes[13], 15)
  {
  }
  lemma FedutilOrderAt13()
    ensures LessAt(FedutilIteratorTypes[13], FedutilIteratorTypes[14], 16)
  {
  }
  lemma FedutilOrderAt14()
    ensures LessAt(FedutilIteratorTypes[14], FedutilIteratorTypes[15], 16)
  {
  }
  lemma FedutilOrderAt15()
    ensures LessAt(FedutilIteratorTypes[15], FedutilIteratorTypes[16], 17)
  {
  }
  lemma FedutilOrderAt16()
    ensures LessAt(FedutilIteratorTypes[16], FedutilIteratorTypes[17], 16)
  {
  }
  lemma FedutilOrderAt17()
    ensures LessAt(FedutilIteratorTypes[17], FedutilIteratorTypes[18], 15)
  {
  }
  lemma FedutilOrderAt18()
    ensures LessAt(FedutilIteratorTypes[18], FedutilIteratorTypes[19], 15)
  {
  }
  lemma FedutilOrderAt19()
    ensures LessAt(FedutilIteratorTypes[19], FedutilIteratorTypes[20], 15)
  {
  }
  lemma FedutilOrderAt20()
    ensures LessAt(FedutilIteratorTypes[20], FedutilIteratorTypes[21], 16)
  {
  }
  lemma FedutilOrderAt21()
    ensures LessAt(FedutilIteratorTypes[21], FedutilIteratorTypes[22], 16)
  {
  }
  lemma FedutilOrderAt22()
    ensures LessAt(FedutilIteratorTypes[22], FedutilIteratorTypes[23], 17)
  {
  }
  lemma FedutilOrderAt23()
    ensures LessAt(FedutilIteratorTypes[23], FedutilIteratorTypes[24], 15)
  {
  }
  lemma FedutilOrderAt24()
    ensures LessAt(FedutilIteratorTypes[24], FedutilIteratorTypes[25], 15)
  {
  }
  lemma FedutilOrderAt25()
    ensures LessAt(FedutilIteratorTypes[25], FedutilIteratorTypes[26], 18)
  {
  }
  lemma FedutilOrderAt26()
    ensures LessAt(FedutilIteratorTypes[26], FedutilIteratorTypes[27], 17)
  {
  }
  lemma FedutilOrderAt27()
    ensures LessAt(FedutilIteratorTypes[27], FedutilIteratorTypes[28], 15)
  {
  }
  lemma FedutilOrderAt28()
    ensures LessAt(FedutilIteratorTypes[28], FedutilIteratorTypes[29], 16)
  {
  }
  lemma FedutilOrderAt29()
    ensures LessAt(FedutilIteratorTypes[29], FedutilIteratorTypes[30], 15)
  {
  }
  lemma FedutilOrderAt30()
    ensures LessAt(FedutilIteratorTypes[30], FedutilIteratorTypes[31], 17)
  {
  }
  lemma FedutilOrderAt31()
    ensures LessAt(FedutilIteratorTypes[31], FedutilIteratorTypes[32], 16)
  {
  }
  lemma FedutilOrderAt32()
    ensures LessAt(FedutilIteratorTypes[32], FedutilIteratorTypes[33], 15)
  {
  }
  lemma FedutilOrderAt33()
    ensures LessAt(FedutilIteratorTypes[33], FedutilIteratorTypes[34], 0)
  {
  }
  lemma FedutilOrderAt34()
    ensures LessAt(FedutilIteratorTypes[34], FedutilIteratorTypes[35], 0)
  {
  }

  lemma FedutilOrderFrom0(k: nat)
    requires 0 <= k < 6
    ensures Less(FedutilIteratorTypes[k], FedutilIteratorTypes[k + 1])
  {
    if k == 0 { FedutilOrderAt0(); }
    else if k == 1 { FedutilOrderAt1(); }
    else if k == 2 { FedutilOrderAt2(); }
    else if k == 3 { FedutilOrderAt3(); }
    else if k == 4 { FedutilOrderAt4(); }
    else if k == 5 { FedutilOrderAt5(); }
  }

  lemma FedutilOrderFrom6(k: nat)
    requires 6 <= k < 12
    ensures Less(FedutilIteratorTypes[k], FedutilIteratorTypes[k + 1])
  {
    if k == 6 { FedutilOrderAt6(); }
    else if k == 7 { FedutilOrderAt7(); }
    else if k == 8 { FedutilOrderAt8(); }
    else if k == 9 { FedutilOrderAt9(); }
    else if k == 10 { FedutilOrderAt10(); }
    else if k == 11 { FedutilOrderAt11(); }
  }

  lemma FedutilOrderFrom12(k: nat)
    requires 12 <= k < 18
    ensures Less(FedutilIteratorTypes[k], FedutilIteratorTypes[k + 1])
  {
    if k == 12 { FedutilOrderAt12(); }
    else if k == 13 { FedutilOrderAt13(); }
    else if k == 14 { FedutilOrderAt14(); }
    else if k == 15 { FedutilOrderAt15(); }
    else if k == 16 { FedutilOrderAt16(); }
    else if k == 17 { FedutilOrderAt17(); }
  }

  lemma FedutilOrderFrom18(k: nat)
    requires 18 <= k < 24
    ensures Less(FedutilIteratorTypes[k], FedutilIteratorTypes[k + 1])
  {
    if k == 18 { FedutilOrderAt18(); }
    else if k == 19 { FedutilOrderAt19(); }
    else if k == 20 { FedutilOrderAt20(); }
    else if k == 21 { FedutilOrderAt21(); }
    else if k == 22 { FedutilOrderAt22(); }
    else if k == 23 { FedutilOrderAt23(); }
  }

  lemma FedutilOrderFrom24(k: nat)
    requires 24 <= k < 30
    ensures Less(FedutilIteratorTypes[k], FedutilIteratorTypes[k + 1])
  {
    if k == 24 { FedutilOrderAt24(); }
    else if k == 25 { FedutilOrderAt25(); }
    else if k == 26 { FedutilOrderAt26(); }
    else if k == 27 { FedutilOrderAt27(); }
    else if k == 28 { FedutilOrderAt28(); }
    else if k == 29 { FedutilOrderAt29(); }
  }

  lemma FedutilOrderFrom30(k: nat)
    requires 30 <= k < 35
    ensures Less(FedutilIteratorTypes[k], FedutilIteratorTypes[k + 1])
  {
    if k == 30 { FedutilOrderAt30(); }
    else if k == 31 { FedutilOrderAt31(); }
    else if k == 32 { FedutilOrderAt32(); }
    else if k == 33 { FedutilOrderAt33(); }
    else if k == 34 { FedutilOrderAt34(); }
  }

  // ---------------------------------------------------------------------
  // Facts about the fetch registry, entry by entry

  lemma FetchOrderAt0()
    ensures LessAt(FetchIteratorTypes[0], FetchIteratorTypes[1], 16)
  {
  }
  lemma FetchOrderAt1()
    ensures LessAt(FetchIteratorTypes[1], FetchIteratorTypes[2], 16)
  {
  }
  lemma FetchOrderAt2()
    ensures LessAt(FetchIteratorTypes[2], FetchIteratorTypes[3], 18)
  {
  }
  lemma FetchOrderAt3()
    ensures LessAt(FetchIteratorTypes[3], FetchIteratorTypes[4], 16)
  {
  }
  lemma FetchOrderAt4()
    ensures LessAt(FetchIteratorTypes[4], FetchIteratorTypes[5], 15)
  {
  }
  lemma FetchOrderAt5()
    ensures LessAt(FetchIteratorTypes[5], FetchIteratorTypes[6], 16)
  {
  }
  lemma FetchOrderAt6()
    ensures LessAt(FetchIteratorTypes[6], FetchIteratorTypes[7], 15)
  {
  }
  lemma FetchOrderAt7()
    ensures LessAt(FetchIteratorTypes[7], FetchIteratorTypes[8], 16)
  {
  }
  lemma FetchOrderAt8()
    ensures LessAt(FetchIteratorTypes[8], FetchIteratorTypes[9], 16)
  {
  }
  lemma FetchOrderAt9()
    ensures LessAt(FetchIteratorTypes[9], FetchIteratorTypes[10], 15)
  {
  }
  lemma FetchOrderAt10()
    ensures LessAt(FetchIteratorTypes[10], FetchIteratorTypes[11], 15)
  {
  }
  lemma FetchOrderAt11()
    ensures LessAt(FetchIteratorTypes[11], FetchIteratorTypes[12], 15)
  {
  }
  lemma FetchOrderAt12()
    ensures LessAt(FetchIteratorTypes[12], FetchIteratorTypes[13], 16)
  {
  }
  lemma FetchOrderAt13()
    ensures LessAt(FetchIteratorTypes[13], FetchIteratorTypes[14], 16)
  {
  }
  lemma FetchOrderAt14()
    ensures LessAt(FetchIteratorTypes[14], FetchIteratorTypes[15], 17)
  {
  }
  lemma FetchOrderAt15()
    ensures LessAt(FetchIteratorTypes[15], FetchIteratorTypes[16], 16)
  {
  }
  lemma FetchOrderAt16()
    ensures LessAt(FetchIteratorTypes[16], FetchIteratorTypes[17], 15)
  {
  }
  lemma FetchOrderAt17()
    ensures LessAt(FetchIteratorTypes[17], FetchIteratorTypes[18], 15)
  {
  }
  lemma FetchOrderAt18()
    ensures LessAt(FetchIteratorTypes[18], FetchIteratorTypes[19], 16)
  {
  }
  lemma FetchOrderAt19()
    ensures LessAt(FetchIteratorTypes[19], FetchIteratorTypes[20], 16)
  {
  }
  lemma FetchOrderAt20()
    ensures LessAt(FetchIteratorTypes[20], FetchIteratorTypes[21], 17)
  {
  }
  lemma FetchOrderAt21()
    ensures LessAt(FetchIteratorTypes[21], FetchIteratorTypes[22], 15)
  {
  }
  lemma FetchOrderAt22()
    ensures LessAt(FetchIteratorTypes[22], FetchIteratorTypes[23], 15)
  {
  }
  lemma FetchOrderAt23()
    ensures LessAt(FetchIteratorTypes[23], FetchIteratorTypes[24], 17)
  {
  }
  lemma FetchOrderAt24()
    ensures LessAt(FetchIteratorTypes[24], FetchIteratorTypes[25], 15)
  {
  }
  lemma FetchOrderAt25()
    ensures LessAt(FetchIteratorTypes[25], FetchIteratorTypes[26], 15)
  {
  }
  lemma FetchOrderAt26()
    ensures LessAt(FetchIteratorTypes[26], FetchIteratorTypes[27], 17)
  {
  }
  lemma FetchOrderAt27()
    ensures LessAt(FetchIteratorTypes[27], FetchIteratorTypes[28], 16)
  {
  }
  lemma FetchOrderAt28()
    ensures LessAt(FetchIteratorTypes[28], FetchIteratorTypes[29], 15)
  {
  }
  lemma FetchOrderAt29()
    ensures LessAt(FetchIteratorTypes[29], FetchIteratorTypes[30], 0)
  {
  }

  lemma FetchOrderFrom0(k: nat)
    requires 0 <= k < 6
    ensures Less(FetchIteratorTypes[k], FetchIteratorTypes[k + 1])
  {
    if k == 0 { FetchOrderAt0(); }
    else if k == 1 { FetchOrderAt1(); }
    else if k == 2 { FetchOrderAt2(); }
    else if k == 3 { FetchOrderAt3(); }
    else if k == 4 { FetchOrderAt4(); }
    else if k == 5 { FetchOrderAt5(); }
  }

  lemma FetchOrderFrom6(k: nat)
    requires 6 <= k < 12
    ensures Less(FetchIteratorTypes[k], FetchIteratorTypes[k + 1])
  {
    if k == 6 { FetchOrderAt6(); }
    else if k == 7 { FetchOrderAt7(); }
    else if k == 8 { FetchOrderAt8(); }
    else if k == 9 { FetchOrderAt9(); }
    else if k == 10 { FetchOrderAt10(); }
    else if k == 11 { FetchOrderAt11(); }
  }

  lemma FetchOrderFrom12(k: nat)
    requires 12 <= k < 18
    ensures Less(FetchIteratorTypes[k], FetchIteratorTypes[k + 1])
  {
    if k == 12 { FetchOrderAt12(); }
    else if k == 13 { FetchOrderAt13(); }
    else if k == 14 { FetchOrderAt14(); }
    else if k == 15 { FetchOrderAt15(); }
    else if k == 16 { FetchOrderAt16(); }
    else if k == 17 { FetchOrderAt17(); }
  }

  lemma FetchOrderFrom18(k: nat)
    requires 18 <= k < 24
    ensures Less(FetchIteratorTypes[k], FetchIteratorTypes[k + 1])
  {
    if k == 18 { FetchOrderAt18(); }
    else if k == 19 { FetchOrderAt19(); }
    else if k == 20 { FetchOrderAt20(); }
    else if k == 21 { FetchOrderAt21(); }
    else if k == 22 { FetchOrderAt22(); }
    else if k == 23 { FetchOrderAt23(); }
  }

  lemma FetchOrderFrom24(k: nat)
    requires 24 <= k < 30
    ensures Less(FetchIteratorTypes[k], FetchIteratorTypes[k + 1])
  {
    if k == 24 { FetchOrderAt24(); }
    else if k == 25 { FetchOrderAt25(); }
    else if k == 26 { FetchOrderAt26(); }
    else if k == 27 { FetchOrderAt27(); }
    else if k == 28 { FetchOrderAt28(); }
    else if k == 29 { FetchOrderAt29(); }
  }

  lemma FetchEntryAt0()
    ensures FetchIteratorTypes[0] == FedutilIteratorTypes[0]
  {
  }
  lemma FetchEntryAt1()
    ensures FetchIteratorTypes[1] == FedutilIteratorTypes[1]
  {
  }
  lemma FetchEntryAt2()
    ensures FetchIteratorTypes[2] == FedutilIteratorTypes[2]
  {
  }
  lemma FetchEntryAt3()
    ensures FetchIteratorTypes[3] == FedutilIteratorTypes[3]
  {
  }
  lemma FetchEntryAt4()
    ensures FetchIteratorTypes[4] == FedutilIteratorTypes[4]
  {
  }
  lemma FetchEntryAt5()
    ensures FetchIteratorTypes[5] == FedutilIteratorTypes[5]
  {
  }
  lemma FetchEntryAt6()
    ensures FetchIteratorTypes[6] == FedutilIteratorTypes[6]
  {
  }
  lemma FetchEntryAt7()
    ensures FetchIteratorTypes[7] == FedutilIteratorTypes[7]
  {
  }
  lemma FetchEntryAt8()
    ensures FetchIteratorTypes[8] == FedutilIteratorTypes[8]
  {
  }
  lemma FetchEntryAt9()
    ensures FetchIteratorTypes[9] == FedutilIteratorTypes[10]
  {
  }
  lemma FetchEntryAt10()
    ensures FetchIteratorTypes[10] == FedutilIteratorTypes[11]
  {
  }
  lemma FetchEntryAt11()
    ensures FetchIteratorTypes[11] == FedutilIteratorTypes[12]
  {
  }
  lemma FetchEntryAt12()
    ensures FetchIteratorTypes[12] == FedutilIteratorTypes[13]
  {
  }
  lemma FetchEntryAt13()
    ensures FetchIteratorTypes[13] == FedutilIteratorTypes[14]
  {
  }
  lemma FetchEntryAt14()
    ensures FetchIteratorTypes[14] == FedutilIteratorTypes[15]
  {
  }
  lemma FetchEntryAt15()
    ensures FetchIteratorTypes[15] == FedutilIteratorTypes[16]
  {
  }
  lemma FetchEntryAt16()
    ensures FetchIteratorTypes[16] == FedutilIteratorTypes[17]
  {
  }
  lemma FetchEntryAt17()
    ensures FetchIteratorTypes[17] == FedutilIteratorTypes[18]
  {
  }
  lemma FetchEntryAt18()
    ensures FetchIteratorTypes[18] == FedutilIteratorTypes[20]
  {
  }
  lemma FetchEntryAt19()
    ensures FetchIteratorTypes[19] == FedutilIteratorTypes[21]
  {
  }
  lemma FetchEntryAt20()
    ensures FetchIteratorTypes[20] == FedutilIteratorTypes[22]
  {
  }
  lemma FetchEntryAt21()
    ensures FetchIteratorTypes[21] == FedutilIteratorTypes[23]
  {
  }
  lemma FetchEntryAt22()
    ensures FetchIteratorTypes[22] == FedutilIteratorTypes[24]
  {
  }
  lemma FetchEntryAt23()
    ensures FetchIteratorTypes[23] == FedutilIteratorTypes[26]
  {
  }
  lemma FetchEntryAt24()
    ensures FetchIteratorTypes[24] == FedutilIteratorTypes[27]
  {
  }
  lemma FetchEntryAt25()
    ensures FetchIteratorTypes[25] == FedutilIteratorTypes[28]
  {
  }
  lemma FetchEntryAt26()
    ensures FetchIteratorTypes[26] == FedutilIteratorTypes[30]
  {
  }
  lemma FetchEntryAt27()
    ensures FetchIteratorTypes[27] == FedutilIteratorTypes[31]
  {
  }
  lemma FetchEntryAt28()
    ensures FetchIteratorTypes[28] == FedutilIteratorTypes[32]
  {
  }
  lemma FetchEntryAt29()
    ensures FetchIteratorTypes[29] == FedutilIteratorTypes[33]
  {
  }
  lemma FetchEntryAt30()
    ensures FetchIteratorTypes[30] == FedutilIteratorTypes[35]
  {
  }

  lemma FetchEntryFrom0(k: nat)
    requires 0 <= k < 6
    ensures FetchIteratorTypes[k] in FedutilIteratorTypes
  {
    if k == 0 { FetchEntryAt0(); }
    else if k == 1 { FetchEntryAt1(); }
    else if k == 2 { FetchEntryAt2(); }
    else if k == 3 { FetchEntryAt3(); }
    else if k == 4 { FetchEntryAt4(); }
    else if k == 5 { FetchEntryAt5(); }
  }

  lemma FetchEntryFrom6(k: nat)
    requires 6 <= k < 12
    ensures FetchIteratorTypes[k] in FedutilIteratorTypes
  {
    if k == 6 { FetchEntryAt6(); }
    else if k == 7 { FetchEntryAt7(); }
    else if k == 8 { FetchEntryAt8(); }
    else if k == 9 { FetchEntryAt9(); }
    else if k == 10 { FetchEntryAt10(); }
    else if k == 11 { FetchEntryAt11(); }
  }

  lemma FetchEntryFrom12(k: nat)
    requires 12 <= k < 18
    ensures FetchIteratorTypes[k] in FedutilIteratorTypes
  {
    if k == 12 { FetchEntryAt12(); }
    else if k == 13 { FetchEntryAt13(); }
    else if k == 14 { FetchEntryAt14(); }
    else if k == 15 { FetchEntryAt15(); }
    else if k == 16 { FetchEntryAt16(); }
    else if k == 17 { FetchEntryAt17(); }
  }

  lemma FetchEntryFrom18(k: nat)
    requires 18 <= k < 24
    ensures FetchIteratorTypes[k] in FedutilIteratorTypes
  {
    if k == 18 { FetchEntryAt18(); }
    else if k == 19 { FetchEntryAt19(); }
    else if k == 20 { FetchEntryAt20(); }
    else if k == 21 { FetchEntryAt21(); }
    else if k == 22 { FetchEntryAt22(); }
    else if k == 23 { FetchEntryAt23(); }
  }

  lemma FetchEntryFrom24(k: nat)
    requires 24 <= k < 30
    ensures FetchIteratorTypes[k] in FedutilIteratorTypes
  {
    if k == 24 { FetchEntryAt24(); }
    else if k == 25 { FetchEntryAt25(); }
    else if k == 26 { FetchEntryAt26(); }
    else if k == 27 { FetchEntryAt27(); }
    else if k == 28 { FetchEntryAt28(); }
    else if k == 29 { FetchEntryAt29(); }
  }

  lemma FetchEntryFrom30(k: nat)
    requires 30 <= k < 31
    ensures FetchIteratorTypes[k] in FedutilIteratorTypes
  {
    if k == 30 { FetchEntryAt30(); }
  }

  // ---------------------------------------------------------------------
  // The registries as a whole

  lemma FedutilNamesWellFormed()
    ensures forall k :: 0 <= k < |FedutilIteratorTypes| ==> IsIteratorName(FedutilIteratorTypes[k])
  {
    forall k | 0 <= k < |FedutilIteratorTypes|
      ensures IsIteratorName(FedutilIteratorTypes[k])
    {
      if k < 6 { FedutilNameFrom0(k); }
      else if k < 12 { FedutilNameFrom6(k); }
      else if k < 18 { FedutilNameFrom12(k); }
      else if k < 24 { FedutilNameFrom18(k); }
      else if k < 30 { FedutilNameFrom24(k); }
      else if k < 36 { FedutilNameFrom30(k); }
    }
  }

  lemma FedutilSorted()
    ensures StrictlySorted(FedutilIteratorTypes)
  {
    forall k | 0 <= k < |FedutilIteratorTypes| - 1
      ensures Less(FedutilIteratorTypes[k], FedutilIteratorTypes[k + 1])
    {
      if k < 6 { FedutilOrderFrom0(k); }
      else if k < 12 { FedutilOrderFrom6(k); }
      else if k < 18 { FedutilOrderFrom12(k); }
      else if k < 24 { FedutilOrderFrom18(k); }
      else if k < 30 { FedutilOrderFrom24(k); }
      else if k < 35 { FedutilOrderFrom30(k); }
    }
  }

  lemma FetchSorted()
    ensures StrictlySorted(FetchIteratorTypes)
  {
    forall k | 0 <= k < |FetchIteratorTypes| - 1
      ensures Less(FetchIteratorTypes[k], FetchIteratorTypes[k + 1])
    {
      if k < 6 { FetchOrderFrom0(k); }
      else if k < 12 { FetchOrderFrom6(k); }
      else if k < 18 { FetchOrderFrom12(k); }
      else if k < 24 { FetchOrderFrom18(k); }
      else if k < 30 { FetchOrderFrom24(k); }
    }
  }

  /** Every fetch entry is also a fedutil entry. */
  lemma FetchInFedutil()
    ensures forall k :: 0 <= k < |FetchIteratorTypes| ==> FetchIteratorTypes[k] in FedutilIteratorTypes
  {
    forall k | 0 <= k < |FetchIteratorTypes|
      ensures FetchIteratorTypes[k] in FedutilIteratorTypes
    {
      if k < 6 { FetchEntryFrom0(k); }
      else if k < 12 { FetchEntryFrom6(k); }
      else if k < 18 { FetchEntryFrom12(k); }
      else if k < 24 { FetchEntryFrom18(k); }
      else if k < 30 { FetchEntryFrom24(k); }
      else if k < 31 { FetchEntryFrom30(k); }
    }
  }

  /** The names the fetch generator leaves out are fedutil entries. */
  lemma NotSupportedInFedutil()
    ensures forall m :: 0 <= m < |NotSupported| ==> NotSupported[m] in FedutilIteratorTypes
  {
    assert NotSupported[0] == FedutilIteratorTypes[9];
    assert NotSupported[1] == FedutilIteratorTypes[19];
    assert NotSupported[2] == FedutilIteratorTypes[25];
    assert NotSupported[3] == FedutilIteratorTypes[29];
    assert NotSupported[4] == FedutilIteratorTypes[34];
  }

  lemma NotSupportedBetween0()
    ensures LessAt(FetchIteratorTypes[8], NotSupported[0], 16)
    ensures LessAt(NotSupported[0], FetchIteratorTypes[9], 20)
  {
  }

  lemma NotSupportedBetween1()
    ensures LessAt(FetchIteratorTypes[17], NotSupported[1], 15)
    ensures LessAt(NotSupported[1], FetchIteratorTypes[18], 15)
  {
  }

  lemma NotSupportedBetween2()
    ensures LessAt(FetchIteratorTypes[22], NotSupported[2], 15)
    ensures LessAt(NotSupported[2], FetchIteratorTypes[23], 18)
  {
  }

  lemma NotSupportedBetween3()
    ensures LessAt(FetchIteratorTypes[25], NotSupported[3], 16)
    ensures LessAt(NotSupported[3], FetchIteratorTypes[26], 15)
  {
  }

  lemma NotSupportedBetween4()
    ensures LessAt(FetchIteratorTypes[29], NotSupported[4], 0)
    ensures LessAt(NotSupported[4], FetchIteratorTypes[30], 0)
  {
  }

  /** No name of `not_supported` is in the fetch registry. */
  lemma NotSupportedDisjoint()
    ensures forall m :: 0 <= m < |NotSupported| ==> NotSupported[m] !in FetchIteratorTypes
  {
    FetchSorted();
    forall m | 0 <= m < |NotSupported|
      ensures NotSupported[m] !in FetchIteratorTypes
    {
      if m == 0 {
        NotSupportedBetween0();
        BetweenNeighboursAbsent(FetchIteratorTypes, 8, NotSupported[0]);
      }
      else if m == 1 {
        NotSupportedBetween1();
        BetweenNeighboursAbsent(FetchIteratorTypes, 17, NotSupported[1]);
      }
      else if m == 2 {
        NotSupportedBetween2();
        BetweenNeighboursAbsent(FetchIteratorTypes, 22, NotSupported[2]);
      }
      else if m == 3 {
        NotSupportedBetween3();
        BetweenNeighboursAbsent(FetchIteratorTypes, 25, NotSupported[3]);
      }
      else if m == 4 {
        NotSupportedBetween4();
        BetweenNeighboursAbsent(FetchIteratorTypes, 29, NotSupported[4]);
      }
    }
  }

  lemma FetchNamesWellFormed()
    ensures forall k :: 0 <= k < |FetchIteratorTypes| ==> IsIteratorName(FetchIteratorTypes[k])
  {
    FetchInFedutil();
    FedutilNamesWellFormed();
  }

  lemma RegistriesDistinct()
    ensures Distinct(FetchIteratorTypes) && Distinct(FedutilIteratorTypes)
  {
    FetchSorted();
    SortedDistinct(FetchIteratorTypes);
    FedutilSorted();
    SortedDistinct(FedutilIteratorTypes);
  }
}
