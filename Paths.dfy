// URL paths as the IRI code handles them: a simplified path.Join/path.Clean,
// and the `splitPath` and `split` routines that fediri/iri.go, fedd/ap/iri.go
// and ap/iri.go each define with the same code.
//
// path.Clean is modelled without its "." and ".." rules: it keeps a leading
// '/', drops empty segments and joins the others with single slashes.

module Paths {
  import opened GoStrings
  import opened Common

  // ---------------------------------------------------------------------
  // Segment lists

  /** The non-empty strings of parts, in order. */
  function NonEmpty(parts: seq<string>): seq<string>
    decreases |parts|
  {
    if |parts| == 0 then []
    else (if |parts[0]| > 0 then [parts[0]] else []) + NonEmpty(parts[1..])
  }

  lemma {:induction false} NonEmptyLengths(parts: seq<string>)
    ensures forall k :: 0 <= k < |NonEmpty(parts)| ==> |NonEmpty(parts)[k]| > 0
    decreases |parts|
  {
    if |parts| > 0 {
      NonEmptyLengths(parts[1..]);
    }
  }

  /**
   * What splitPath keeps of the components of a path: each non-empty one,
   * trimmed of surrounding whitespace. Written from the back, the way the
   * loop in splitPath appends.
   */
  function Kept(components: seq<string>): seq<string>
    decreases |components|
  {
    if |components| == 0 then []
    else
      var s := components[|components| - 1];
      Kept(components[..|components| - 1]) + (if |s| > 0 then [TrimSpace(s)] else [])
  }

  /** "." and "..", the segments path.Clean resolves instead of keeping. */
  predicate DotSegment(s: string)
  {
    s == "." || s == ".."
  }

  /**
   * A base path none of whose '/'-separated parts is a dot-segment, so that
   * path.Join leaves its segments as they are, as splitPath reads them.
   */
  predicate DotFree(path: string)
  {
    forall k :: 0 <= k < |Split(path, '/')| ==> !DotSegment(Split(path, '/')[k])
  }

  /**
   * A path segment that survives every step unchanged: path.Join keeps it
   * because it is not a dot-segment, and splitPath keeps it because it is
   * non-empty and has no surrounding whitespace.
   */
  predicate CleanSegment(s: string)
  {
    |s| > 0 && NoChar(s, '/') && !DotSegment(s) && !IsSpace(s[0]) && !IsSpace(s[|s| - 1])
  }

  predicate AllNoSlash(parts: seq<string>)
  {
    forall k :: 0 <= k < |parts| ==> NoChar(parts[k], '/')
  }

  lemma {:induction false} KeptConcat(x: seq<string>, y: seq<string>)
    ensures Kept(x + y) == Kept(x) + Kept(y)
    decreases |y|
  {
    if |y| == 0 {
      assert x + y == x;
    } else {
      var y0 := y[..|y| - 1];
      assert (x + y)[..|x + y| - 1] == x + y0;
      assert (x + y)[|x + y| - 1] == y[|y| - 1];
      KeptConcat(x, y0);
    }
  }

  lemma {:induction false} KeptNonEmpty(x: seq<string>)
    ensures Kept(NonEmpty(x)) == Kept(x)
    decreases |x|
  {
    if |x| > 0 {
      KeptNonEmpty(x[1..]);
      var head := if |x[0]| > 0 then [x[0]] else [];
      KeptConcat(head, NonEmpty(x[1..]));
      KeptConcat([x[0]], x[1..]);
      assert x == [x[0]] + x[1..];
      assert Kept(head) == Kept([x[0]]) by {
        assert [x[0]][..0] == [];
        if |x[0]| == 0 {
          assert Kept([x[0]]) == Kept([]) + [];
        }
      }
    }
  }

  lemma {:induction false} NonEmptyNoSlash(x: seq<string>)
    requires AllNoSlash(x)
    ensures AllNoSlash(NonEmpty(x))
    decreases |x|
  {
    if |x| > 0 {
      NonEmptyNoSlash(x[1..]);
    }
  }

  lemma {:induction false} NonEmptyOfNonEmpty(x: seq<string>)
    requires forall k :: 0 <= k < |x| ==> |x[k]| > 0
    ensures NonEmpty(x) == x
    decreases |x|
  {
    if |x| > 0 {
      NonEmptyOfNonEmpty(x[1..]);
    }
  }

  /** Kept leaves clean segments as they are. */
  lemma {:induction false} KeptOfClean(x: seq<string>)
    requires forall k :: 0 <= k < |x| ==> CleanSegment(x[k])
    ensures Kept(x) == x
    decreases |x|
  {
    if |x| > 0 {
      var init := x[..|x| - 1];
      forall k | 0 <= k < |init|
        ensures CleanSegment(init[k])
      {
        assert init[k] == x[k];
      }
      KeptOfClean(init);
      LastSplit(x);
      KeptSnocClean(init, x[|x| - 1]);
    }
  }

  lemma KeptSnocClean(init: seq<string>, s: string)
    requires CleanSegment(s)
    ensures Kept(init + [s]) == Kept(init) + [s]
  {
    KeptLast(init + [s]);
    assert (init + [s])[..|init|] == init;
    TrimSpaceOfTrimmed(s);
  }

  lemma LastSplit(x: seq<string>)
    requires |x| > 0
    ensures x == x[..|x| - 1] + [x[|x| - 1]]
  {
  }

  lemma KeptLast(x: seq<string>)
    requires |x| > 0
    ensures Kept(x) == Kept(x[..|x| - 1]) + (if |x[|x| - 1]| > 0 then [TrimSpace(x[|x| - 1])] else [])
  {
  }

  lemma KeptOne(s: string)
    ensures Kept([s]) == (if |s| > 0 then [TrimSpace(s)] else [])
  {
    assert [s][..0] == [];
  }

  // ---------------------------------------------------------------------
  // strings.Split around an inserted separator

  /** Splitting at a separator placed between a and b splits a and b apart. */
  lemma {:induction false} SplitAround(a: string, b: string)
    ensures Split(a + "/" + b, '/') == Split(a, '/') + Split(b, '/')
    decreases |a|
  {
    var i := IndexOf(a, '/');
    IndexOfFirst(a, '/');
    if i == |a| {
      SplitAroundPlain(a, b);
    } else {
      SplitAround(a[i + 1..], b);
      SplitAroundStep(a, i, b);
    }
  }

  /** SplitAround when a holds no separator: the inserted one is the first. */
  lemma SplitAroundPlain(a: string, b: string)
    requires forall j :: 0 <= j < |a| ==> a[j] != '/'
    ensures Split(a + "/" + b, '/') == Split(a, '/') + Split(b, '/')
  {
    IndexOfAt(a, '/', b);
    SplitCut(a + "/" + b, |a|);
    CutPieces(a, b);
  }

  /** SplitAround when a's first separator is at i, given the result for what follows it. */
  lemma SplitAroundStep(a: string, i: nat, b: string)
    requires i < |a| && IndexOf(a, '/') == i
    requires forall j :: 0 <= j < i ==> a[j] != '/'
    requires Split(a[i + 1..] + "/" + b, '/') == Split(a[i + 1..], '/') + Split(b, '/')
    ensures Split(a + "/" + b, '/') == Split(a, '/') + Split(b, '/')
  {
    var x, y := a[..i], a[i + 1..];
    var rest := y + "/" + b;
    SplitCut(a, i);
    PieceAround(a, i, b);
    var s := x + "/" + rest;
    assert a + "/" + b == s;
    IndexOfAt(x, '/', rest);
    CutPieces(x, rest);
    SplitCut(s, i);
    assert Split(s, '/') == [x] + Split(rest, '/');
    SeqAssoc([x], Split(y, '/'), Split(b, '/'));
  }

  /** Split unfolded at the index of its first separator. */
  lemma SplitCut(s: string, i: nat)
    requires i < |s| && IndexOf(s, '/') == i
    ensures Split(s, '/') == [s[..i]] + Split(s[i + 1..], '/')
  {
  }

  lemma CutPieces(a: string, b: string)
    ensures (a + "/" + b)[..|a|] == a && (a + "/" + b)[|a| + 1..] == b
  {
  }

  /** Cutting a + "/" + b at the first separator of a. */
  lemma PieceAround(a: string, i: nat, b: string)
    requires i < |a| && a[i] == '/'
    requires forall j :: 0 <= j < i ==> a[j] != '/'
    ensures NoChar(a[..i], '/')
    ensures a + "/" + b == a[..i] + "/" + (a[i + 1..] + "/" + b)
  {
    var x, y := a[..i], a[i + 1..];
    assert forall j :: 0 <= j < |x| ==> x[j] == a[j];
    assert a == x + "/" + y by {
      assert a[i] == '/';
      assert a[i..] == [a[i]] + y;
      assert a == x + a[i..];
    }
    ConcatAssoc3(x, y, b);
  }

  lemma ConcatAssoc3(x: string, y: string, b: string)
    ensures x + "/" + y + "/" + b == x + "/" + (y + "/" + b)
  {
  }

  lemma IndexOfPrefix(a: string, rest: string)
    requires NoChar(a, '/')
    ensures IndexOf(a + "/" + rest, '/') == |a|
  {
    IndexOfAt(a, '/', rest);
  }

  lemma SplitEmpty()
    ensures Split("", '/') == [""]
  {
  }

  // ---------------------------------------------------------------------
  // path.Clean and path.Join, simplified

  predicate Rooted(p: string)
  {
    |p| > 0 && p[0] == '/'
  }

  /** path.Clean without "." and "..": root kept, empty segments dropped. */
  function Clean(p: string): string
  {
    var body := CleanBody(p);
    if Rooted(p) then "/" + body
    else if body == "" then "."
    else body
  }

  /** The non-empty segments of p, joined with single slashes. */
  function CleanBody(p: string): string
  {
    Join(NonEmpty(Split(p, '/')), "/")
  }

  /** path.Join(elems...): "" when every element is empty, else the cleaned join. */
  function PathJoin(elems: seq<string>): string
  {
    var ne := NonEmpty(elems);
    if |ne| == 0 then "" else Clean(Join(ne, "/"))
  }

  /** What splitPath keeps of each element, concatenated. */
  function KeptAll(elems: seq<string>): seq<string>
    decreases |elems|
  {
    if |elems| == 0 then [] else Kept(Split(elems[0], '/')) + KeptAll(elems[1..])
  }

  lemma KeptSplitEmpty()
    ensures Kept(Split("", '/')) == []
  {
    KeptOne("");
  }

  lemma {:induction false} KeptAllNonEmpty(elems: seq<string>)
    ensures KeptAll(NonEmpty(elems)) == KeptAll(elems)
    decreases |elems|
  {
    if |elems| > 0 {
      KeptAllNonEmpty(elems[1..]);
      KeptSplitEmpty();
      if |elems[0]| > 0 {
        assert NonEmpty(elems) == [elems[0]] + NonEmpty(elems[1..]);
        assert ([elems[0]] + NonEmpty(elems[1..]))[1..] == NonEmpty(elems[1..]);
      } else {
        assert NonEmpty(elems) == NonEmpty(elems[1..]);
      }
    }
  }

  lemma {:induction false} KeptJoin(elems: seq<string>)
    requires |elems| > 0
    ensures Kept(Split(Join(elems, "/"), '/')) == KeptAll(elems)
    decreases |elems|
  {
    if |elems| == 1 {
      assert KeptAll(elems[1..]) == [];
    } else {
      KeptJoin(elems[1..]);
      SplitAround(elems[0], Join(elems[1..], "/"));
      assert Join(elems, "/") == elems[0] + "/" + Join(elems[1..], "/");
      KeptConcat(Split(elems[0], '/'), Split(Join(elems[1..], "/"), '/'));
    }
  }

  /** A non-empty element makes the list of non-empty components non-empty. */
  lemma {:induction false} NonEmptyHasElement(x: seq<string>, k: nat)
    requires k < |x| && |x[k]| > 0
    ensures |NonEmpty(x)| > 0
    decreases k
  {
    if k > 0 && |x[0]| == 0 {
      NonEmptyHasElement(x[1..], k - 1);
    }
  }

  lemma SplitFirstNonEmpty(p: string)
    requires |p| > 0 && !Rooted(p)
    ensures |Split(p, '/')[0]| > 0
  {
  }

  /** Joining slash-free non-empty segments and splitting again gives them back. */
  lemma KeptBody(ne: seq<string>)
    requires |ne| > 0 && AllNoSlash(ne) && forall k :: 0 <= k < |ne| ==> |ne[k]| > 0
    ensures Kept(Split(Join(ne, "/"), '/')) == Kept(ne)
  {
    SplitJoin(ne, '/');
  }

  lemma KeptRootedBody(ne: seq<string>)
    requires AllNoSlash(ne) && forall k :: 0 <= k < |ne| ==> |ne[k]| > 0
    ensures Kept(Split("/" + Join(ne, "/"), '/')) == Kept(ne)
  {
    var body := Join(ne, "/");
    assert "/" + body == "" + "/" + body;
    SplitAround("", body);
    KeptConcat([""], Split(body, '/'));
    KeptOne("");
    if |ne| > 0 {
      KeptBody(ne);
    } else {
      assert body == "";
      SplitEmpty();
      KeptOne("");
    }
  }

  /** Cleaning a non-empty path changes nothing splitPath keeps. */
  lemma KeptClean(p: string)
    requires p != ""
    ensures Kept(Split(Clean(p), '/')) == Kept(Split(p, '/'))
  {
    var parts := Split(p, '/');
    var ne := NonEmpty(parts);
    KeptNonEmpty(parts);
    NonEmptyLengths(parts);
    SplitPartsNoSep(p, '/');
    NonEmptyNoSlash(parts);
    if Rooted(p) {
      assert Clean(p) == "/" + Join(ne, "/");
      KeptRootedBody(ne);
    } else {
      SplitFirstNonEmpty(p);
      NonEmptyHasElement(parts, 0);
      JoinFirst(ne);
      assert Clean(p) == Join(ne, "/");
      KeptBody(ne);
    }
  }

  /** splitPath of path.Join(elems...) keeps what it keeps of every element, in order. */
  lemma KeptPathJoin(elems: seq<string>)
    ensures Kept(Split(PathJoin(elems), '/')) == KeptAll(elems)
  {
    var ne := NonEmpty(elems);
    KeptAllNonEmpty(elems);
    NonEmptyLengths(elems);
    if |ne| == 0 {
      KeptSplitEmpty();
    } else {
      KeptJoin(ne);
      assert |Join(ne, "/")| > 0 by {
        JoinFirst(ne);
      }
      KeptClean(Join(ne, "/"));
    }
  }

  lemma JoinFirst(parts: seq<string>)
    requires |parts| > 0 && |parts[0]| > 0
    ensures |Join(parts, "/")| >= |parts[0]|
  {
  }

  /** A clean segment contributes exactly itself. */
  lemma KeptSegment(s: string)
    requires CleanSegment(s)
    ensures Kept(Split(s, '/')) == [s]
  {
    SplitNoSep(s, '/');
    KeptOne(s);
    TrimSpaceOfTrimmed(s);
  }

  // ---------------------------------------------------------------------
  // Appending one more segment

  lemma {:induction false} NonEmptyConcat(x: seq<string>, y: seq<string>)
    ensures NonEmpty(x + y) == NonEmpty(x) + NonEmpty(y)
    decreases |x|
  {
    if |x| == 0 {
      assert x + y == y;
    } else {
      assert (x + y)[0] == x[0];
      assert (x + y)[1..] == x[1..] + y;
      NonEmptyConcat(x[1..], y);
    }
  }

  lemma NonEmptySnoc(x: seq<string>, o: string)
    requires |o| > 0
    ensures NonEmpty(x + [o]) == NonEmpty(x) + [o]
  {
    NonEmptyConcat(x, [o]);
    assert NonEmpty([o]) == [o] + NonEmpty([]);
  }

  lemma {:induction false} JoinSnoc(parts: seq<string>, o: string)
    requires |parts| > 0
    ensures Join(parts + [o], "/") == Join(parts, "/") + "/" + o
    decreases |parts|
  {
    if |parts| == 1 {
      assert (parts + [o])[1..] == [o];
    } else {
      assert (parts + [o])[1..] == parts[1..] + [o];
      JoinSnoc(parts[1..], o);
    }
  }

  lemma SplitSnoc(x: string, o: string)
    requires NoChar(o, '/')
    ensures Split(x + "/" + o, '/') == Split(x, '/') + [o]
  {
    SplitAround(x, o);
    SplitNoSep(o, '/');
  }

  /** A base path "/{a}/" of one clean segment, such as "/fed/", has no dot-segment. */
  lemma RootedBaseDotFree(a: string)
    requires CleanSegment(a)
    ensures DotFree("/" + a + "/")
  {
    SplitEmpty();
    assert "" + "/" + a == "/" + a;
    SplitSnoc("", a);
    SplitSnoc("/" + a, "");
    assert "/" + a + "/" + "" == "/" + a + "/";
    assert Split("/" + a + "/", '/') == ["", a, ""];
  }

  /** Cleaning commutes with appending a slash-free segment to a path with some segment. */
  lemma CleanSnoc(x: string, o: string)
    requires NoChar(o, '/') && |o| > 0
    requires |NonEmpty(Split(x, '/'))| > 0
    ensures Clean(x + "/" + o) == Clean(x) + "/" + o
  {
    CleanBodySnoc(x, o);
    if x == "" {
      SplitEmpty();
      assert false;
    }
    var y := x + "/" + o;
    assert y[0] == x[0];
    assert Rooted(y) == Rooted(x);
    var b := CleanBody(y);
    assert b == CleanBody(x) + "/" + o;
    assert b != "" by {
      assert |b| == |CleanBody(x)| + 1 + |o|;
    }
    if Rooted(x) {
      assert Clean(y) == "/" + b;
      assert Clean(x) == "/" + CleanBody(x);
    } else {
      NonEmptyLengths(Split(x, '/'));
      JoinFirst(NonEmpty(Split(x, '/')));
      assert Clean(y) == b;
      assert Clean(x) == CleanBody(x);
    }
  }

  lemma CleanBodySnoc(x: string, o: string)
    requires NoChar(o, '/') && |o| > 0
    requires |NonEmpty(Split(x, '/'))| > 0
    ensures CleanBody(x + "/" + o) == CleanBody(x) + "/" + o
  {
    SplitSnoc(x, o);
    NonEmptySnoc(Split(x, '/'), o);
    JoinSnoc(NonEmpty(Split(x, '/')), o);
  }

  /** A path whose last element is a slash-free segment has a segment after joining. */
  lemma JoinedHasSegment(init: seq<string>, p: string)
    requires NoChar(p, '/') && |p| > 0
    ensures |NonEmpty(Split(Join(NonEmpty(init + [p]), "/"), '/'))| > 0
  {
    var ni := NonEmpty(init);
    NonEmptySnoc(init, p);
    if |ni| == 0 {
      assert ni + [p] == [p];
      SplitNoSep(p, '/');
      NonEmptySnoc([], p);
      assert [] + [p] == [p];
    } else {
      JoinSnoc(ni, p);
      SplitSnoc(Join(ni, "/"), p);
      NonEmptySnoc(Split(Join(ni, "/"), '/'), p);
    }
  }

  /** path.Join(elems..., o) is path.Join(elems...) + "/" + o when elems ends in a segment. */
  lemma PathJoinSnoc(init: seq<string>, p: string, o: string)
    requires NoChar(p, '/') && |p| > 0
    requires NoChar(o, '/') && |o| > 0
    ensures PathJoin(init + [p] + [o]) == PathJoin(init + [p]) + "/" + o
  {
    var elems := init + [p];
    var ne := NonEmpty(elems);
    NonEmptySnoc(init, p);
    NonEmptySnoc(elems, o);
    JoinSnoc(ne, o);
    JoinedHasSegment(init, p);
    CleanSnoc(Join(ne, "/"), o);
  }

  /** What path.Join keeps of "/a/" joined with b, for segments a and b. */
  lemma RootedJoin(a: string, b: string)
    requires NoChar(a, '/') && NoChar(b, '/') && |a| > 0 && |b| > 0
    ensures PathJoin(["/" + a + "/", b]) == "/" + a + "/" + b
  {
    var x := "/" + a + "/";
    NonEmptyPair(x, b);
    assert Join([x, b], "/") == "/" + a + "/" + "/" + b;
    RootedDoubleBody(a, b);
  }

  lemma NonEmptyPair(x: string, b: string)
    requires |x| > 0 && |b| > 0
    ensures NonEmpty([x, b]) == [x, b]
  {
    NonEmptySnoc([x], b);
    NonEmptySnoc([], x);
    assert [] + [x] == [x];
    assert [x] + [b] == [x, b];
  }

  lemma RootedDoubleBody(a: string, b: string)
    requires NoChar(a, '/') && NoChar(b, '/') && |a| > 0 && |b| > 0
    ensures CleanBody("/" + a + "/" + "/" + b) == a + "/" + b
  {
    RootedDoubleSplit(a, b);
    NonEmptyGaps(a, b);
    assert [a, b][1..] == [b];
    assert Join([a, b], "/") == a + "/" + b;
    assert CleanBody("/" + a + "/" + "/" + b) == Join([a, b], "/");
  }

  lemma RootedDoubleSplit(a: string, b: string)
    requires NoChar(a, '/') && NoChar(b, '/')
    ensures Split("/" + a + "/" + "/" + b, '/') == [""] + ([a] + ([""] + [b]))
  {
    var r2 := "/" + b;
    var r1 := a + "/" + r2;
    assert "/" + a + "/" + "/" + b == "/" + r1;
    SplitLead(r1);
    SplitHead(a, r2);
    SplitLead(b);
    SplitNoSep(b, '/');
  }

  /** A leading separator splits off an empty first part. */
  lemma SplitLead(r: string)
    ensures Split("/" + r, '/') == [""] + Split(r, '/')
  {
    assert IndexOf("/" + r, '/') == 0;
    assert ("/" + r)[1..] == r;
  }

  /** A separator-free head is the first part. */
  lemma SplitHead(x: string, rest: string)
    requires NoChar(x, '/')
    ensures Split(x + "/" + rest, '/') == [x] + Split(rest, '/')
  {
    IndexOfAt(x, '/', rest);
    CutPieces(x, rest);
    SplitCut(x + "/" + rest, |x|);
  }

  lemma NonEmptyGaps(a: string, b: string)
    requires |a| > 0 && |b| > 0
    ensures NonEmpty([""] + ([a] + ([""] + [b]))) == [a, b]
  {
    NonEmptyConcat([""], [a] + ([""] + [b]));
    NonEmptyConcat([a], [""] + [b]);
    NonEmptyConcat([""], [b]);
    assert NonEmpty([""]) == [] + NonEmpty([]);
    NonEmptySnoc([], a);
    NonEmptySnoc([], b);
    assert [] + [a] == [a];
    assert [] + [b] == [b];
  }

  /** splitPath keeps what it keeps of the base path, then of the joined components. */
  lemma SplitPathOfNested(basePath: string, components: seq<string>)
    ensures SplitPathSpec(PathJoin([basePath, PathJoin(components)])) == SplitPathSpec(basePath) + KeptAll(components)
  {
    SplitPathOfPair(basePath, PathJoin(components));
    KeptPathJoin(components);
  }

  lemma SplitPathOfPair(a: string, b: string)
    ensures SplitPathSpec(PathJoin([a, b])) == SplitPathSpec(a) + SplitPathSpec(b)
  {
    KeptPathJoin([a, b]);
    KeptAllPair(a, b);
  }

  lemma KeptAllPair(a: string, b: string)
    ensures KeptAll([a, b]) == Kept(Split(a, '/')) + Kept(Split(b, '/'))
  {
    assert [a, b][1..] == [b];
    assert [b][1..] == [];
    assert KeptAll([b]) == Kept(Split(b, '/')) + KeptAll([]);
  }

  lemma {:induction false} KeptAllClean(components: seq<string>)
    requires forall k :: 0 <= k < |components| ==> CleanSegment(components[k])
    ensures KeptAll(components) == components
    decreases |components|
  {
    if |components| > 0 {
      var c, rest := components[0], components[1..];
      CleanTail(components);
      KeptAllClean(rest);
      KeptSegment(c);
      KeptAllCons(components);
      assert components == [c] + rest;
    }
  }

  lemma CleanTail(components: seq<string>)
    requires |components| > 0
    requires forall k :: 0 <= k < |components| ==> CleanSegment(components[k])
    ensures CleanSegment(components[0])
    ensures forall k :: 0 <= k < |components[1..]| ==> CleanSegment(components[1..][k])
  {
  }

  lemma KeptAllCons(components: seq<string>)
    requires |components| > 0
    ensures KeptAll(components) == Kept(Split(components[0], '/')) + KeptAll(components[1..])
  {
  }

  // ---------------------------------------------------------------------
  // splitPath

  /** The spec of splitPath: the non-empty components, trimmed. */
  function SplitPathSpec(path: string): seq<string>
  {
    Kept(Split(path, '/'))
  }

  /** splitPath(path) as written: keep t = TrimSpace(s) whenever len(s) > 0. */
  method SplitPath(path: string) returns (trimmed: seq<string>)
    ensures trimmed == SplitPathSpec(path)
  {
    var components := Split(path, '/');
    trimmed := TrimComponents(components);
  }

  /** The loop of splitPath over the components of the path. */
  method TrimComponents(components: seq<string>) returns (trimmed: seq<string>)
    ensures trimmed == Kept(components)
  {
    trimmed := [];
    var i := 0;
    while i < |components|
      invariant 0 <= i <= |components|
      invariant trimmed == Kept(components[..i])
    {
      var s := components[i];
      KeptStep(components, i);
      if |s| > 0 {
        var t := TrimSpace(s);
        trimmed := trimmed + [t];
      }
      i := i + 1;
    }
    KeptWhole(components);
  }

  lemma KeptWhole(components: seq<string>)
    ensures Kept(components[..|components|]) == Kept(components)
  {
    assert components[..|components|] == components;
  }

  lemma KeptStep(components: seq<string>, i: nat)
    requires i < |components|
    ensures Kept(components[..i + 1]) ==
      Kept(components[..i]) + (if |components[i]| > 0 then [TrimSpace(components[i])] else [])
  {
    assert components[..i + 1][..i] == components[..i];
  }

  /** splitPath of "/" followed by clean segments joined with slashes gives the segments. */
  lemma SplitPathRooted(segs: seq<string>)
    requires forall k :: 0 <= k < |segs| ==> CleanSegment(segs[k])
    ensures SplitPathSpec("/" + Join(segs, "/")) == segs
  {
    KeptRootedBody(segs);
    KeptOfClean(segs);
  }

  /** strings.Split of "/" and slash-free segments joined with slashes. */
  lemma SplitRootedSegments(segs: seq<string>)
    requires |segs| >= 1 && AllNoSlash(segs)
    ensures Split("/" + Join(segs, "/"), '/') == [""] + segs
  {
    assert "/" + Join(segs, "/") == "" + "/" + Join(segs, "/");
    SplitAround("", Join(segs, "/"));
    SplitEmpty();
    SplitJoin(segs, '/');
  }

  /** A trailing slash adds only an empty component, which splitPath drops. */
  lemma SplitPathTrailing(p: string)
    ensures SplitPathSpec(p + "/") == SplitPathSpec(p)
  {
    assert p + "/" == p + "/" + "";
    SplitAround(p, "");
    SplitEmpty();
    KeptConcat(Split(p, '/'), [""]);
    KeptOne("");
  }

  /** A whitespace-only segment survives as "", because the length test uses the untrimmed value. */
  lemma SplitPathKeepsBlank()
    ensures SplitPathSpec(" ") == [""]
  {
    SplitNoSep(" ", '/');
    KeptOne(" ");
    assert TrimSpace(" ") == "" by {
      TrimSpaceEmptyIff(" ");
    }
  }

  /** Empty segments are dropped: a doubled slash splits like a single one. */
  lemma SplitPathDropsEmpty(a: string, b: string)
    ensures SplitPathSpec(a + "/" + "/" + b) == SplitPathSpec(a + "/" + b)
  {
    DoubleSlashSplit(a, b);
    SplitAround(a, b);
    KeptGap(Split(a, '/'), Split(b, '/'));
  }

  lemma DoubleSlashSplit(a: string, b: string)
    ensures Split(a + "/" + "/" + b, '/') == Split(a, '/') + ([""] + Split(b, '/'))
  {
    assert a + "/" + "/" + b == a + "/" + ("" + "/" + b);
    SplitAround("", b);
    SplitAround(a, "" + "/" + b);
  }

  lemma KeptGap(sa: seq<string>, sb: seq<string>)
    ensures Kept(sa + ([""] + sb)) == Kept(sa + sb)
  {
    KeptConcat(sa, sb);
    KeptConcat(sa, [""] + sb);
    KeptConcat([""], sb);
    KeptOne("");
  }

  // ---------------------------------------------------------------------
  // split: the components after the base path

  /** (username, payload) of an IRI: payload is None for an actor IRI. */
  datatype Parts = Parts(username: string, payload: Option<string>)

  datatype IriError =
    | BaseMismatch
    | NotAnActor
    | MissingTail(tail: string)
    | NotAn(kind: string)
    | NotAnObject
    | ReservedName(name: string)

  /** split(): one or two components past the base path, which must match it. */
  function SplitSpec(basePath: string, targetPath: string): (r: Result<Parts, IriError>)
    ensures r.Ok? <==>
      var base := SplitPathSpec(basePath);
      var target := SplitPathSpec(targetPath);
      (|target| == |base| + 1 || |target| == |base| + 2) && target[..|base|] == base
    ensures r.Ok? ==>
      var base := SplitPathSpec(basePath);
      var target := SplitPathSpec(targetPath);
      && r.value.username == target[|base|]
      && (r.value.payload.None? <==> |target| == |base| + 1)
      && (r.value.payload.Some? ==> r.value.payload.value == target[|base| + 1])
  {
    SplitSegments(SplitPathSpec(basePath), SplitPathSpec(targetPath))
  }

  /** split() on the already split base and target paths. */
  function SplitSegments(base: seq<string>, target: seq<string>): Result<Parts, IriError>
  {
    if |target| != |base| + 1 && |target| != |base| + 2 then Err(BaseMismatch)
    else if target[..|base|] != base then Err(BaseMismatch)
    else if |target| == |base| + 1 then Ok(Parts(target[|target| - 1], None))
    else Ok(Parts(target[|target| - 2], Some(target[|target| - 1])))
  }

  /** split() as written: length test, then the loop over the base components. */
  method SplitIri(basePath: string, targetPath: string) returns (r: Result<Parts, IriError>)
    ensures r == SplitSpec(basePath, targetPath)
  {
    var base := SplitPath(basePath);
    var target := SplitPath(targetPath);
    SpecOfSegments(basePath, targetPath, base, target);
    var actorlen := |base| + 1;
    var contentlen := |base| + 2;
    if |target| != actorlen && |target| != contentlen {
      return Err(BaseMismatch);
    }
    var i := 0;
    while i < |base|
      invariant 0 <= i <= |base|
      invariant forall j :: 0 <= j < i ==> target[j] == base[j]
    {
      if target[i] != base[i] {
        PrefixDiffers(target, base, i);
        return Err(BaseMismatch);
      }
      i := i + 1;
    }
    PrefixAgrees(target, base);
    if |target| == actorlen {
      r := Ok(Parts(target[|target| - 1], None));
    } else {
      r := Ok(Parts(target[|target| - 2], Some(target[|target| - 1])));
    }
  }

  lemma SpecOfSegments(basePath: string, targetPath: string, base: seq<string>, target: seq<string>)
    requires base == SplitPathSpec(basePath) && target == SplitPathSpec(targetPath)
    ensures SplitSpec(basePath, targetPath) == SplitSegments(base, target)
  {
  }

  lemma PrefixDiffers(t: seq<string>, b: seq<string>, i: nat)
    requires i < |b| <= |t| && t[i] != b[i]
    ensures t[..|b|] != b
  {
    assert t[..|b|][i] == t[i];
  }

  lemma PrefixAgrees(t: seq<string>, b: seq<string>)
    requires |b| <= |t| && forall j :: 0 <= j < |b| ==> t[j] == b[j]
    ensures t[..|b|] == b
  {
  }

  lemma ExtendOne(t: seq<string>, b: seq<string>)
    requires |t| == |b| + 1 && t[..|b|] == b
    ensures t == b + [t[|b|]]
  {
  }

  lemma ExtendTwo(t: seq<string>, b: seq<string>)
    requires |t| == |b| + 2 && t[..|b|] == b
    ensures t == b + [t[|b|], t[|b| + 1]]
  {
  }

  /** The target of a path built from the base path and extra clean segments. */
  lemma SplitOfExtension(basePath: string, targetPath: string, extra: seq<string>)
    requires SplitPathSpec(targetPath) == SplitPathSpec(basePath) + extra
    requires |extra| == 1 || |extra| == 2
    ensures SplitSpec(basePath, targetPath) ==
      if |extra| == 1 then Ok(Parts(extra[0], None)) else Ok(Parts(extra[0], Some(extra[1])))
  {
    var base := SplitPathSpec(basePath);
    assert (base + extra)[..|base|] == base;
  }
}
