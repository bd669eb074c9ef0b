// String primitives of the Go and Python standard libraries that the core
// relies on: strings.TrimSpace, strings.Split/Join on one separator,
// strings.HasPrefix/TrimPrefix, Python's str.replace, decimal formatting and
// parsing of unsigned 64-bit integers, and lower-case hexadecimal encoding.

module GoStrings {

  const U64_MODULUS: int := 0x1_0000_0000_0000_0000

  newtype uint64 = x: int | 0 <= x < 0x1_0000_0000_0000_0000
  newtype byte = x: int | 0 <= x < 256

  // ---------------------------------------------------------------------
  // Whitespace and trimming

  /** The whitespace set trimmed by strings.TrimSpace, restricted to ASCII. */
  predicate IsSpace(c: char) {
    c == ' ' || c == '\t' || c == '\n' || c == '\r' || c == '\U{B}' || c == '\U{C}'
  }

  predicate AllSpace(s: string) {
    forall i :: 0 <= i < |s| ==> IsSpace(s[i])
  }

  function TrimLeft(s: string): (r: string)
    ensures |r| <= |s| && r == s[|s| - |r|..]
    ensures |r| > 0 ==> !IsSpace(r[0])
    ensures AllSpace(s[..|s| - |r|])
    decreases |s|
  {
    if |s| > 0 && IsSpace(s[0]) then TrimLeft(s[1..]) else s
  }

  function TrimRight(s: string): (r: string)
    ensures |r| <= |s| && r == s[..|r|]
    ensures |r| > 0 ==> !IsSpace(r[|r| - 1])
    ensures AllSpace(s[|r|..])
    decreases |s|
  {
    if |s| > 0 && IsSpace(s[|s| - 1]) then TrimRight(s[..|s| - 1]) else s
  }

  /** Number of leading whitespace characters TrimSpace drops. */
  function TrimStart(s: string): nat
  {
    |s| - |TrimLeft(s)|
  }

  /** strings.TrimSpace: drop leading and trailing whitespace. */
  function TrimSpace(s: string): string
  {
    TrimRight(TrimLeft(s))
  }

  /** TrimSpace(s) is the middle of s between two runs of whitespace. */
  lemma TrimSpaceShape(s: string)
    ensures TrimStart(s) + |TrimSpace(s)| <= |s|
    ensures TrimSpace(s) == s[TrimStart(s)..TrimStart(s) + |TrimSpace(s)|]
    ensures |TrimSpace(s)| > 0 ==> !IsSpace(TrimSpace(s)[0]) && !IsSpace(TrimSpace(s)[|TrimSpace(s)| - 1])
    ensures AllSpace(s[..TrimStart(s)]) && AllSpace(s[TrimStart(s) + |TrimSpace(s)|..])
  {
    TrimSpaceMiddle(s);
    TrimSpaceEnds(s);
    assert AllSpace(s[..TrimStart(s)]);
  }

  lemma TrimSpaceMiddle(s: string)
    ensures TrimStart(s) + |TrimSpace(s)| <= |s|
    ensures TrimSpace(s) == s[TrimStart(s)..TrimStart(s) + |TrimSpace(s)|]
    ensures AllSpace(s[TrimStart(s) + |TrimSpace(s)|..])
  {
    var l := TrimLeft(s);
    var r := TrimRight(l);
    assert l == s[|s| - |l|..];
    assert r == l[..|r|] && AllSpace(l[|r|..]);
    MiddleOf(s, l, r);
  }

  lemma TrimSpaceEnds(s: string)
    ensures |TrimSpace(s)| > 0 ==> !IsSpace(TrimSpace(s)[0]) && !IsSpace(TrimSpace(s)[|TrimSpace(s)| - 1])
  {
    var l := TrimLeft(s);
    var r := TrimRight(l);
    if |r| > 0 {
      assert r[0] == l[0];
    }
  }

  /** A prefix l of a suffix of s, between two runs of whitespace, is a slice of s. */
  lemma MiddleOf(s: string, l: string, r: string)
    requires |l| <= |s| && l == s[|s| - |l|..]
    requires |r| <= |l| && r == l[..|r|] && AllSpace(l[|r|..])
    ensures r == s[|s| - |l|..|s| - |l| + |r|]
    ensures AllSpace(s[|s| - |l| + |r|..])
  {
    var k := |s| - |l|;
    assert s[k + |r|..] == l[|r|..];
  }

  lemma TrimSpaceEmptyIff(s: string)
    ensures TrimSpace(s) == "" <==> AllSpace(s)
  {
    TrimSpaceShape(s);
    var k := TrimStart(s);
    var r := TrimSpace(s);
    if r == "" {
      var l := TrimLeft(s);
      assert l[|r|..] == l;
      forall i | 0 <= i < |s|
        ensures IsSpace(s[i])
      {
        assert s[i] == s[..k][i];
      }
    } else {
      assert s[k] == r[0];
    }
  }

  lemma TrimSpaceIdempotent(s: string)
    ensures TrimSpace(TrimSpace(s)) == TrimSpace(s)
  {
    TrimSpaceShape(s);
    var r := TrimSpace(s);
    if |r| > 0 {
      assert TrimLeft(r) == r;
      assert TrimRight(r) == r;
    }
  }

  /** A string with no whitespace at either end is its own trim. */
  lemma TrimSpaceOfTrimmed(s: string)
    requires |s| > 0 ==> !IsSpace(s[0]) && !IsSpace(s[|s| - 1])
    ensures TrimSpace(s) == s
  {
  }

  // ---------------------------------------------------------------------
  // Prefixes

  predicate HasPrefix(s: string, prefix: string) {
    |prefix| <= |s| && s[..|prefix|] == prefix
  }

  function TrimPrefix(s: string, prefix: string): (r: string)
    ensures HasPrefix(s, prefix) ==> prefix + r == s
    ensures !HasPrefix(s, prefix) ==> r == s
  {
    if HasPrefix(s, prefix) then
      assert s == s[..|prefix|] + s[|prefix|..];
      s[|prefix|..]
    else s
  }

  // ---------------------------------------------------------------------
  // Splitting on and joining with a one-character separator

  /** Index of the first `sep` in s, or |s| when there is none. */
  function IndexOf(s: string, sep: char): (i: nat)
    ensures i <= |s|
    ensures i < |s| ==> s[i] == sep
    decreases |s|
  {
    if |s| == 0 then 0
    else if s[0] == sep then 0
    else 1 + IndexOf(s[1..], sep)
  }

  /** No separator comes before IndexOf: it is the first one. */
  lemma {:induction false} IndexOfFirst(s: string, sep: char)
    ensures forall j :: 0 <= j < IndexOf(s, sep) ==> s[j] != sep
    decreases |s|
  {
    if |s| > 0 && s[0] != sep {
      IndexOfFirst(s[1..], sep);
      assert forall j :: 0 < j < IndexOf(s, sep) ==> s[j] == s[1..][j - 1];
    }
  }

  /** strings.Split(s, sep): the pieces between separators, always at least one. */
  function Split(s: string, sep: char): (parts: seq<string>)
    ensures |parts| >= 1
    decreases |s|
  {
    var i := IndexOf(s, sep);
    if i == |s| then [s] else [s[..i]] + Split(s[i + 1..], sep)
  }

  /** No part of a split contains the separator. */
  lemma {:induction false} SplitPartsNoSep(s: string, sep: char)
    ensures forall k :: 0 <= k < |Split(s, sep)| ==> NoChar(Split(s, sep)[k], sep)
    decreases |s|
  {
    var i := IndexOf(s, sep);
    IndexOfFirst(s, sep);
    if i < |s| {
      SplitPartsNoSep(s[i + 1..], sep);
    }
  }

  /** strings.Join(parts, sep). */
  function Join(parts: seq<string>, sep: string): (r: string)
  {
    if |parts| == 0 then ""
    else if |parts| == 1 then parts[0]
    else parts[0] + sep + Join(parts[1..], sep)
  }

  predicate NoChar(s: string, c: char) {
    c !in s
  }

  lemma {:induction false} JoinSplit(s: string, sep: char)
    ensures Join(Split(s, sep), [sep]) == s
    decreases |s|
  {
    var i := IndexOf(s, sep);
    if i < |s| {
      JoinSplit(s[i + 1..], sep);
      JoinSplitStep(s, sep, i);
    } else {
      assert Split(s, sep) == [s];
    }
  }

  /** JoinSplit at the first separator, given the result for what follows it. */
  lemma JoinSplitStep(s: string, sep: char, i: nat)
    requires i < |s| && IndexOf(s, sep) == i
    requires Join(Split(s[i + 1..], sep), [sep]) == s[i + 1..]
    ensures Join(Split(s, sep), [sep]) == s
  {
    var a, t := s[..i], s[i + 1..];
    var rest := Split(t, sep);
    assert Split(s, sep) == [a] + rest;
    JoinCons(a, rest, [sep]);
    Rejoin(s, i);
  }

  /** A string is the part before index i, the character at i, and the part after. */
  lemma Rejoin(s: string, i: nat)
    requires i < |s|
    ensures s == s[..i] + [s[i]] + s[i + 1..]
  {
  }

  lemma JoinCons(a: string, rest: seq<string>, sep: string)
    requires |rest| >= 1
    ensures Join([a] + rest, sep) == a + sep + Join(rest, sep)
  {
    assert ([a] + rest)[1..] == rest;
  }

  lemma {:induction false} SplitJoin(parts: seq<string>, sep: char)
    requires |parts| >= 1
    requires forall k :: 0 <= k < |parts| ==> NoChar(parts[k], sep)
    ensures Split(Join(parts, [sep]), sep) == parts
    decreases |parts|
  {
    if |parts| == 1 {
      IndexOfAbsent(parts[0], sep);
    } else {
      var rest := Join(parts[1..], [sep]);
      var s := parts[0] + [sep] + rest;
      IndexOfAt(parts[0], sep, rest);
      assert s[..|parts[0]|] == parts[0];
      assert s[|parts[0]| + 1..] == rest;
      SplitJoin(parts[1..], sep);
    }
  }

  lemma IndexOfAbsent(s: string, sep: char)
    requires NoChar(s, sep)
    ensures IndexOf(s, sep) == |s|
  {
  }

  lemma {:induction false} IndexOfAt(a: string, sep: char, rest: string)
    requires NoChar(a, sep)
    ensures IndexOf(a + [sep] + rest, sep) == |a|
    decreases |a|
  {
    if |a| > 0 {
      assert (a + [sep] + rest)[1..] == a[1..] + [sep] + rest;
      IndexOfAt(a[1..], sep, rest);
    }
  }

  /** Splitting a string with no separator gives that string alone. */
  lemma SplitNoSep(s: string, sep: char)
    requires NoChar(s, sep)
    ensures Split(s, sep) == [s]
  {
    IndexOfAbsent(s, sep);
  }

  // ---------------------------------------------------------------------
  // Python str.replace(pat, rep): left to right, non-overlapping

  predicate StartsWith(s: string, pat: string) {
    |pat| <= |s| && s[..|pat|] == pat
  }

  function Replace(s: string, pat: string, rep: string): (r: string)
    requires |pat| > 0
    decreases |s|
  {
    if |s| == 0 then s
    else if StartsWith(s, pat) then rep + Replace(s[|pat|..], pat, rep)
    else [s[0]] + Replace(s[1..], pat, rep)
  }

  /** Replacing in text without the pattern's first character copies the text. */
  lemma {:induction false} ReplaceSkipsText(t: string, rest: string, pat: string, rep: string)
    requires |pat| > 0 && NoChar(t, pat[0])
    ensures Replace(t + rest, pat, rep) == t + Replace(rest, pat, rep)
    decreases |t|
  {
    if |t| > 0 {
      assert t == [t[0]] + t[1..];
      assert NoChar(t[1..], pat[0]);
      var s := t + rest;
      assert s[0] == t[0];
      if |pat| <= |s| {
        assert s[..|pat|][0] == t[0];
      }
      assert !StartsWith(s, pat);
      assert s[1..] == t[1..] + rest;
      ReplaceSkipsText(t[1..], rest, pat, rep);
      calc {
        Replace(s, pat, rep);
        [s[0]] + Replace(s[1..], pat, rep);
        [t[0]] + (t[1..] + Replace(rest, pat, rep));
        t + Replace(rest, pat, rep);
      }
    } else {
      assert t + rest == rest;
    }
  }

  /** An occurrence of the pattern at the front is replaced. */
  lemma ReplaceAtPattern(rest: string, pat: string, rep: string)
    requires |pat| > 0
    ensures Replace(pat + rest, pat, rep) == rep + Replace(rest, pat, rep)
  {
    assert (pat + rest)[..|pat|] == pat;
    assert (pat + rest)[|pat|..] == rest;
  }

  /**
   * A different token of the same length that shares the pattern's first
   * character only there is copied unchanged.
   */
  lemma ReplaceSkipsToken(q: string, rest: string, pat: string, rep: string)
    requires |pat| > 0 && |q| == |pat| && q != pat && q[0] == pat[0]
    requires NoChar(q[1..], pat[0])
    ensures Replace(q + rest, pat, rep) == q + Replace(rest, pat, rep)
  {
    var s := q + rest;
    assert s[..|pat|] == q;
    assert !StartsWith(s, pat);
    assert Replace(s, pat, rep) == [s[0]] + Replace(s[1..], pat, rep);
    assert s[1..] == q[1..] + rest;
    ReplaceSkipsText(q[1..], rest, pat, rep);
    assert q == [q[0]] + q[1..];
    SeqAssoc([q[0]], q[1..], Replace(rest, pat, rep));
  }

  lemma SeqAssoc<T>(p: seq<T>, q: seq<T>, r: seq<T>)
    ensures p + (q + r) == p + q + r
  {
  }

  lemma StartsWithChars(s: string, pat: string)
    requires StartsWith(s, pat)
    ensures forall k :: 0 <= k < |pat| ==> s[k] == pat[k]
  {
    forall k | 0 <= k < |pat|
      ensures s[k] == pat[k]
    {
      assert s[..|pat|][k] == s[k];
    }
  }

  /** A pattern occurring only at the very end is replaced there and nowhere else. */
  lemma {:induction false} ReplaceOnlyAtEnd(s: string, pat: string, rep: string, i: nat)
    requires |pat| > 0 && i + |pat| <= |s|
    requires s[|s| - |pat|..] == pat
    requires forall j :: i <= j < |s| - |pat| ==> !StartsWith(s[j..], pat)
    ensures Replace(s[i..], pat, rep) == s[i..|s| - |pat|] + rep
    decreases |s| - i
  {
    var t := s[i..];
    if i + |pat| == |s| {
      assert t == pat + "";
      ReplaceAtPattern("", pat, rep);
    } else {
      assert !StartsWith(s[i..], pat);
      assert t[1..] == s[i + 1..];
      ReplaceOnlyAtEnd(s, pat, rep, i + 1);
      assert s[i..|s| - |pat|] == [s[i]] + s[i + 1..|s| - |pat|];
    }
  }

  lemma ReplaceEmpty(pat: string, rep: string)
    requires |pat| > 0
    ensures Replace("", pat, rep) == ""
  {
  }

  // ---------------------------------------------------------------------
  // Decimal rendering and parsing of unsigned 64-bit integers

  predicate IsDigit(c: char) {
    '0' <= c <= '9'
  }

  function DigitChar(d: nat): (c: char)
    requires d < 10
    ensures IsDigit(c) && c as int - '0' as int == d
  {
    ['0', '1', '2', '3', '4', '5', '6', '7', '8', '9'][d]
  }

  /** strconv.FormatUint(n, 10) on the mathematical value n. */
  function FormatDecimal(n: nat): (s: string)
    ensures |s| >= 1 && forall i :: 0 <= i < |s| ==> IsDigit(s[i])
    decreases n
  {
    if n < 10 then [DigitChar(n)] else FormatDecimal(n / 10) + [DigitChar(n % 10)]
  }

  /** The value of a string of decimal digits. */
  function DecimalValue(s: string): nat
    requires forall i :: 0 <= i < |s| ==> IsDigit(s[i])
    decreases |s|
  {
    if |s| == 0 then 0
    else
      assert IsDigit(s[|s| - 1]);
      10 * DecimalValue(s[..|s| - 1]) + (s[|s| - 1] as int - '0' as int)
  }

  datatype ParseResult = Parsed(value: uint64) | SyntaxError | RangeError

  /** strconv.ParseUint(s, 10, 64): digits only, non-empty, below 2^64. */
  function ParseUint(s: string): (r: ParseResult)
    ensures r.Parsed? ==> |s| > 0 && (forall i :: 0 <= i < |s| ==> IsDigit(s[i])) && r.value as int == DecimalValue(s)
    ensures r.SyntaxError? <==> |s| == 0 || exists i :: 0 <= i < |s| && !IsDigit(s[i])
    ensures r.RangeError? <==> |s| > 0 && (forall i :: 0 <= i < |s| ==> IsDigit(s[i])) && DecimalValue(s) >= U64_MODULUS
  {
    if |s| == 0 || exists i :: 0 <= i < |s| && !IsDigit(s[i]) then SyntaxError
    else if DecimalValue(s) < U64_MODULUS then Parsed(DecimalValue(s) as uint64)
    else RangeError
  }

  lemma {:induction false} DecimalRoundTrip(n: nat)
    ensures DecimalValue(FormatDecimal(n)) == n
    decreases n
  {
    var s := FormatDecimal(n);
    if n >= 10 {
      DecimalRoundTrip(n / 10);
      assert s[..|s| - 1] == FormatDecimal(n / 10);
    }
  }

  /** ParseUint inverts FormatDecimal on every uint64. */
  lemma ParseFormat(n: uint64)
    ensures ParseUint(FormatDecimal(n as nat)) == Parsed(n)
  {
    DecimalRoundTrip(n as nat);
  }

  // ---------------------------------------------------------------------
  // fmt's %x on a byte slice

  function HexDigit(d: nat): (c: char)
    requires d < 16
  {
    ['0', '1', '2', '3', '4', '5', '6', '7', '8', '9', 'a', 'b', 'c', 'd', 'e', 'f'][d]
  }

  predicate IsHexDigit(c: char) {
    '0' <= c <= '9' || 'a' <= c <= 'f'
  }

  function Hex(bs: seq<byte>): (s: string)
    ensures |s| == 2 * |bs|
    ensures forall i :: 0 <= i < |s| ==> IsHexDigit(s[i])
  {
    if |bs| == 0 then ""
    else [HexDigit(bs[0] as nat / 16), HexDigit(bs[0] as nat % 16)] + Hex(bs[1..])
  }
}
