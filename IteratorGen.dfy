// The iterator-adapter generators fetch/iterator_impl.gen.py and
// fedutil/iterator_impl.gen.py. Both print a Go source file made of a
// header, a dispatch function with one type-switch case per registry entry,
// and one adapter type with six forwarding methods per registry entry. The
// two variants differ in their registry, header, dispatch signature (the
// fetch one starts with a nil check), template indentation and in the
// exceptions the script swallows.

module IteratorGen {
  import opened GoStrings
  import opened IteratorRegistry
  import opened Common

  datatype Variant = FetchVariant | FedutilVariant

  /** `iterator_types` of each generator. */
  function Registry(v: Variant): seq<string>
  {
    match v
    case FetchVariant => FetchIteratorTypes
    case FedutilVariant => FedutilIteratorTypes
  }

  // ---------------------------------------------------------------------
  // Name derivation: basename = itername.replace('Iterator', '')

  function BaseName(itername: string): string
  {
    Replace(itername, "Iterator", "")
  }

  /** Before its suffix, an iterator name has no occurrence of "Iterator". */
  lemma NoEarlyIterator(n: string, j: nat)
    requires IsIteratorName(n) && j < |n| - 8
    ensures !StartsWith(n[j..], "Iterator")
  {
    var s := n[j..];
    assert CleanAt(n, j);
    assert s[0] == n[j] && s[1] == n[j + 1] && s[2] == n[j + 2] && s[3] == n[j + 3];
    if StartsWith(s, "Iterator") {
      StartsWithChars(s, "Iterator");
      assert false;
    }
  }

  /** The container name is the iterator name without its "Iterator" suffix. */
  lemma BaseNameDerivation(n: string)
    requires IsIteratorName(n)
    ensures BaseName(n) == n[..|n| - 8]
    ensures BaseName(n) + "Iterator" == n
    ensures NoChar(n, '$') && NoChar(BaseName(n), '$')
  {
    assert n[|n| - 8..] == "Iterator";
    forall j | 0 <= j < |n| - 8
      ensures !StartsWith(n[j..], "Iterator")
    {
      NoEarlyIterator(n, j);
    }
    ReplaceOnlyAtEnd(n, "Iterator", "", 0);
    assert n[0..] == n;
    assert n == n[..|n| - 8] + n[|n| - 8..];
    forall j | 0 <= j < |n|
      ensures n[j] != '$'
    {
      if j < |n| - 8 {
        assert CleanAt(n, j);
      }
    }
  }

  lemma BaseNameInjective(a: string, b: string)
    requires IsIteratorName(a) && IsIteratorName(b)
    requires BaseName(a) == BaseName(b)
    ensures a == b
  {
    BaseNameDerivation(a);
    BaseNameDerivation(b);
  }

  lemma RegistryWellFormed(v: Variant)
    ensures forall k :: 0 <= k < |Registry(v)| ==> IsIteratorName(Registry(v)[k])
    ensures Distinct(Registry(v))
  {
    FetchNamesWellFormed();
    FedutilNamesWellFormed();
    RegistriesDistinct();
  }

  /** Every registry entry derives its container name, and these are pairwise distinct. */
  lemma RegistryBaseNames(v: Variant)
    ensures forall k :: 0 <= k < |Registry(v)| ==> BaseName(Registry(v)[k]) + "Iterator" == Registry(v)[k]
    ensures forall i, j :: 0 <= i < j < |Registry(v)| ==> BaseName(Registry(v)[i]) != BaseName(Registry(v)[j])
  {
    RegistryWellFormed(v);
    var r := Registry(v);
    forall k | 0 <= k < |r|
      ensures BaseName(r[k]) + "Iterator" == r[k]
    {
      BaseNameDerivation(r[k]);
    }
    assert forall i, j :: 0 <= i < j < |r| ==> BaseName(r[i]) != BaseName(r[j]);
  }

  // ---------------------------------------------------------------------
  // wrapper_template and its two replace calls

  /** A piece of the template: literal text or one of its two placeholders. */
  datatype Piece = Text(s: string) | BaseHole | IterHole

  const BASE_TYPE: string := "$BASE_TYPE"
  const ITER_TYPE: string := "$ITER_TYPE"

  predicate TextFree(p: Piece) {
    p.Text? ==> forall j :: 0 <= j < |p.s| ==> p.s[j] != '$'
  }

  predicate TextsFree(ps: seq<Piece>) {
    forall k :: 0 <= k < |ps| ==> TextFree(ps[k])
  }

  /** The template text, with the placeholders spelled out. */
  function Raw(ps: seq<Piece>): string
  {
    if |ps| == 0 then ""
    else
      (match ps[0]
       case Text(s) => s
       case BaseHole => BASE_TYPE
       case IterHole => ITER_TYPE) + Raw(ps[1..])
  }

  /** The template after `$BASE_TYPE` has been filled with b. */
  function HalfFilled(ps: seq<Piece>, b: string): string
  {
    if |ps| == 0 then ""
    else
      (match ps[0]
       case Text(s) => s
       case BaseHole => b
       case IterHole => ITER_TYPE) + HalfFilled(ps[1..], b)
  }

  /** The template with every placeholder filled. */
  function Fill(ps: seq<Piece>, b: string, n: string): string
  {
    if |ps| == 0 then ""
    else
      (match ps[0]
       case Text(s) => s
       case BaseHole => b
       case IterHole => n) + Fill(ps[1..], b, n)
  }

  lemma {:induction false} ReplaceBaseFills(ps: seq<Piece>, b: string)
    requires TextsFree(ps)
    ensures Replace(Raw(ps), BASE_TYPE, b) == HalfFilled(ps, b)
    decreases |ps|
  {
    if |ps| > 0 {
      assert TextsFree(ps[1..]) by {
        forall k | 0 <= k < |ps| - 1 ensures TextFree(ps[1..][k]) {
          assert ps[1..][k] == ps[k + 1];
        }
      }
      ReplaceBaseFills(ps[1..], b);
      var rest := Raw(ps[1..]);
      assert TextFree(ps[0]);
      match ps[0]
      case Text(s) =>
        ReplaceSkipsText(s, rest, BASE_TYPE, b);
      case BaseHole =>
        ReplaceAtPattern(rest, BASE_TYPE, b);
      case IterHole =>
        ReplaceSkipsToken(ITER_TYPE, rest, BASE_TYPE, b);
    }
  }

  lemma {:induction false} ReplaceIterFills(ps: seq<Piece>, b: string, n: string)
    requires TextsFree(ps) && NoChar(b, '$')
    ensures Replace(HalfFilled(ps, b), ITER_TYPE, n) == Fill(ps, b, n)
    decreases |ps|
  {
    if |ps| > 0 {
      assert TextsFree(ps[1..]) by {
        forall k | 0 <= k < |ps| - 1 ensures TextFree(ps[1..][k]) {
          assert ps[1..][k] == ps[k + 1];
        }
      }
      ReplaceIterFills(ps[1..], b, n);
      var rest := HalfFilled(ps[1..], b);
      assert TextFree(ps[0]);
      match ps[0]
      case Text(s) =>
        ReplaceSkipsText(s, rest, ITER_TYPE, n);
      case BaseHole =>
        ReplaceSkipsText(b, rest, ITER_TYPE, n);
      case IterHole =>
        ReplaceAtPattern(rest, ITER_TYPE, n);
    }
  }

  lemma {:induction false} FillNoPlaceholder(ps: seq<Piece>, b: string, n: string)
    requires TextsFree(ps) && NoChar(b, '$') && NoChar(n, '$')
    ensures NoChar(Fill(ps, b, n), '$')
    decreases |ps|
  {
    if |ps| > 0 {
      assert TextsFree(ps[1..]) by {
        forall k | 0 <= k < |ps| - 1 ensures TextFree(ps[1..][k]) {
          assert ps[1..][k] == ps[k + 1];
        }
      }
      FillNoPlaceholder(ps[1..], b, n);
      assert TextFree(ps[0]);
    }
  }

  /** wrapper_template of each generator, cut at its placeholders. */
  const FetchTemplate: seq<Piece> := [] + [
    Text("\ntype iter_"),
    IterHole,
    Text(" struct {\n        p vocab."),
    BaseHole,
    Text("\n        it vocab."),
    IterHole,
    Text("\n}\n\nfunc (i iter_"),
    IterHole,
    Text(") HasAny() bool {"),
    Text("\n        return i.it.HasAny()\n}\n"),
    Text("\nfunc (i iter_"),
    IterHole,
    Text(") IsIRI() bool {"),
    Text("\n        return i.it.IsIRI()\n}\n"),
    Text("\nfunc (i iter_"),
    IterHole,
    Text(") GetIRI() *url.URL {"),
    Text("\n        return i.it.GetIRI()\n}\n"),
    Text("\nfunc (i iter_"),
    IterHole,
    Text(") GetType() vocab.Type {"),
    Text("\n        return i.it.GetType()\n}\n"),
    Text("\nfunc (i iter_"),
    IterHole,
    Text(") Next() Iter {\n        return iter_"),
    IterHole,
    Text("{\n                p: i.p,"),
    Text("\n                it: i.it.Next(),"),
    Text("\n        }\n}\n\nfunc (i iter_"),
    IterHole,
    Text(") End() Iter {\n        return iter_"),
    IterHole,
    Text("{\n                p: i.p,"),
    Text("\n                it: i.p.End(),"),
    Text("\n        }\n}")
  ]

  const FedutilTemplate: seq<Piece> := [] + [
    Text("\n    type iter_"),
    IterHole,
    Text(" struct {\n            p vocab."),
    BaseHole,
    Text("\n            it vocab."),
    IterHole,
    Text("\n    }\n\n    func (i iter_"),
    IterHole,
    Text(") HasAny() bool {"),
    Text("\n            return i.it.HasAny()\n    }\n"),
    Text("\n    func (i iter_"),
    IterHole,
    Text(") IsIRI() bool {"),
    Text("\n            return i.it.IsIRI()\n    }\n"),
    Text("\n    func (i iter_"),
    IterHole,
    Text(") GetIRI() *url.URL {"),
    Text("\n            return i.it.GetIRI()\n    }\n"),
    Text("\n    func (i iter_"),
    IterHole,
    Text(") GetType() vocab.Type {"),
    Text("\n            return i.it.GetType()\n    }"),
    Text("\n\n    func (i iter_"),
    IterHole,
    Text(") Next() Iter {\n            return iter_"),
    IterHole,
    Text("{\n                    p: i.p,"),
    Text("\n                    it: i.it.Next(),"),
    Text("\n            }\n    }\n\n    func (i iter_"),
    IterHole,
    Text(") End() Iter {\n            return iter_"),
    IterHole,
    Text("{\n                    p: i.p,"),
    Text("\n                    it: i.p.End(),"),
    Text("\n            }\n    }\n    ")
  ]

  function Template(v: Variant): seq<Piece>
  {
    match v
    case FetchVariant => FetchTemplate
    case FedutilVariant => FedutilTemplate
  }

  /** wrapper_template as the Python string literal. */
  function WrapperTemplate(v: Variant): string
  {
    Raw(Template(v))
  }

  // No text of either template contains '$', checked piece by piece.

  lemma FetchTemplateAt0()
    ensures TextFree(FetchTemplate[0])
  {
    assert FetchTemplate[0] == Text("\ntype iter_");
  }
  lemma FetchTemplateAt2()
    ensures TextFree(FetchTemplate[2])
  {
    assert FetchTemplate[2] == Text(" struct {\n        p vocab.");
  }
  lemma FetchTemplateAt4()
    ensures TextFree(FetchTemplate[4])
  {
    assert FetchTemplate[4] == Text("\n        it vocab.");
  }
  lemma FetchTemplateAt6()
    ensures TextFree(FetchTemplate[6])
  {
    assert FetchTemplate[6] == Text("\n}\n\nfunc (i iter_");
  }
  lemma FetchTemplateAt8()
    ensures TextFree(FetchTemplate[8])
  {
    assert FetchTemplate[8] == Text(") HasAny() bool {");
  }
  lemma FetchTemplateAt9()
    ensures TextFree(FetchTemplate[9])
  {
    assert FetchTemplate[9] == Text("\n        return i.it.HasAny()\n}\n");
  }
  lemma FetchTemplateAt10()
    ensures TextFree(FetchTemplate[10])
  {
    assert FetchTemplate[10] == Text("\nfunc (i iter_");
  }
  lemma FetchTemplateAt12()
    ensures TextFree(FetchTemplate[12])
  {
    assert FetchTemplate[12] == Text(") IsIRI() bool {");
  }
  lemma FetchTemplateAt13()
    ensures TextFree(FetchTemplate[13])
  {
    assert FetchTemplate[13] == Text("\n        return i.it.IsIRI()\n}\n");
  }
  lemma FetchTemplateAt14()
    ensures TextFree(FetchTemplate[14])
  {
    assert FetchTemplate[14] == Text("\nfunc (i iter_");
  }
  lemma FetchTemplateAt16()
    ensures TextFree(FetchTemplate[16])
  {
    assert FetchTemplate[16] == Text(") GetIRI() *url.URL {");
  }
  lemma FetchTemplateAt17()
    ensures TextFree(FetchTemplate[17])
  {
    assert FetchTemplate[17] == Text("\n        return i.it.GetIRI()\n}\n");
  }
  lemma FetchTemplateAt18()
    ensures TextFree(FetchTemplate[18])
  {
    assert FetchTemplate[18] == Text("\nfunc (i iter_");
  }
  lemma FetchTemplateAt20()
    ensures TextFree(FetchTemplate[20])
  {
    assert FetchTemplate[20] == Text(") GetType() vocab.Type {");
  }
  lemma FetchTemplateAt21()
    ensures TextFree(FetchTemplate[21])
  {
    assert FetchTemplate[21] == Text("\n        return i.it.GetType()\n}\n");
  }
  lemma FetchTemplateAt22()
    ensures TextFree(FetchTemplate[22])
  {
    assert FetchTemplate[22] == Text("\nfunc (i iter_");
  }
  lemma FetchTemplateAt24()
    ensures TextFree(FetchTemplate[24])
  {
    assert FetchTemplate[24] == Text(") Next() Iter {\n        return iter_");
  }
  lemma FetchTemplateAt26()
    ensures TextFree(FetchTemplate[26])
  {
    assert FetchTemplate[26] == Text("{\n                p: i.p,");
  }
  lemma FetchTemplateAt27()
    ensures TextFree(FetchTemplate[27])
  {
    assert FetchTemplate[27] == Text("\n                it: i.it.Next(),");
  }
  lemma FetchTemplateAt28()
    ensures TextFree(FetchTemplate[28])
  {
    assert FetchTemplate[28] == Text("\n        }\n}\n\nfunc (i iter_");
  }
  lemma FetchTemplateAt30()
    ensures TextFree(FetchTemplate[30])
  {
    assert FetchTemplate[30] == Text(") End() Iter {\n        return iter_");
  }
  lemma FetchTemplateAt32()
    ensures TextFree(FetchTemplate[32])
  {
    assert FetchTemplate[32] == Text("{\n                p: i.p,");
  }
  lemma FetchTemplateAt33()
    ensures TextFree(FetchTemplate[33])
  {
    assert FetchTemplate[33] == Text("\n                it: i.p.End(),");
  }
  lemma FetchTemplateAt34()
    ensures TextFree(FetchTemplate[34])
  {
    assert FetchTemplate[34] == Text("\n        }\n}");
  }

  lemma FetchTemplateFrom0(k: nat)
    requires 0 <= k < 6
    ensures TextFree(FetchTemplate[k])
  {
    if k == 0 { FetchTemplateAt0(); }
    else if k == 2 { FetchTemplateAt2(); }
    else if k == 4 { FetchTemplateAt4(); }
  }

  lemma FetchTemplateFrom6(k: nat)
    requires 6 <= k < 12
    ensures TextFree(FetchTemplate[k])
  {
    if k == 6 { FetchTemplateAt6(); }
    else if k == 8 { FetchTemplateAt8(); }
    else if k == 9 { FetchTemplateAt9(); }
    else if k == 10 { FetchTemplateAt10(); }
  }

  lemma FetchTemplateFrom12(k: nat)
    requires 12 <= k < 18
    ensures TextFree(FetchTemplate[k])
  {
    if k == 12 { FetchTemplateAt12(); }
    else if k == 13 { FetchTemplateAt13(); }
    else if k == 14 { FetchTemplateAt14(); }
    else if k == 16 { FetchTemplateAt16(); }
    else if k == 17 { FetchTemplateAt17(); }
  }

  lemma FetchTemplateFrom18(k: nat)
    requires 18 <= k < 24
    ensures TextFree(FetchTemplate[k])
  {
    if k == 18 { FetchTemplateAt18(); }
    else if k == 20 { FetchTemplateAt20(); }
    else if k == 21 { FetchTemplateAt21(); }
    else if k == 22 { FetchTemplateAt22(); }
  }

  lemma FetchTemplateFrom24(k: nat)
    requires 24 <= k < 30
    ensures TextFree(FetchTemplate[k])
  {
    if k == 24 { FetchTemplateAt24(); }
    else if k == 26 { FetchTemplateAt26(); }
    else if k == 27 { FetchTemplateAt27(); }
    else if k == 28 { FetchTemplateAt28(); }
  }

  lemma FetchTemplateFrom30(k: nat)
    requires 30 <= k < 35
    ensures TextFree(FetchTemplate[k])
  {
    if k == 30 { FetchTemplateAt30(); }
    else if k == 32 { FetchTemplateAt32(); }
    else if k == 33 { FetchTemplateAt33(); }
    else if k == 34 { FetchTemplateAt34(); }
  }

  lemma FetchTemplateTextsFree()
    ensures TextsFree(FetchTemplate)
  {
    forall k | 0 <= k < |FetchTemplate|
      ensures TextFree(FetchTemplate[k])
    {
      if k < 6 { FetchTemplateFrom0(k); }
      else if k < 12 { FetchTemplateFrom6(k); }
      else if k < 18 { FetchTemplateFrom12(k); }
      else if k < 24 { FetchTemplateFrom18(k); }
      else if k < 30 { FetchTemplateFrom24(k); }
      else if k < 35 { FetchTemplateFrom30(k); }
    }
  }

  lemma FedutilTemplateAt0()
    ensures TextFree(FedutilTemplate[0])
  {
    assert FedutilTemplate[0] == Text("\n    type iter_");
  }
  lemma FedutilTemplateAt2()
    ensures TextFree(FedutilTemplate[2])
  {
    assert FedutilTemplate[2] == Text(" struct {\n            p vocab.");
  }
  lemma FedutilTemplateAt4()
    ensures TextFree(FedutilTemplate[4])
  {
    assert FedutilTemplate[4] == Text("\n            it vocab.");
  }
  lemma FedutilTemplateAt6()
    ensures TextFree(FedutilTemplate[6])
  {
    assert FedutilTemplate[6] == Text("\n    }\n\n    func (i iter_");
  }
  lemma FedutilTemplateAt8()
    ensures TextFree(FedutilTemplate[8])
  {
    assert FedutilTemplate[8] == Text(") HasAny() bool {");
  }
  lemma FedutilTemplateAt9()
    ensures TextFree(FedutilTemplate[9])
  {
    assert FedutilTemplate[9] == Text("\n            return i.it.HasAny()\n    }\n");
  }
  lemma FedutilTemplateAt10()
    ensures TextFree(FedutilTemplate[10])
  {
    assert FedutilTemplate[10] == Text("\n    func (i iter_");
  }
  lemma FedutilTemplateAt12()
    ensures TextFree(FedutilTemplate[12])
  {
    assert FedutilTemplate[12] == Text(") IsIRI() bool {");
  }
  lemma FedutilTemplateAt13()
    ensures TextFree(FedutilTemplate[13])
  {
    assert FedutilTemplate[13] == Text("\n            return i.it.IsIRI()\n    }\n");
  }
  lemma FedutilTemplateAt14()
    ensures TextFree(FedutilTemplate[14])
  {
    assert FedutilTemplate[14] == Text("\n    func (i iter_");
  }
  lemma FedutilTemplateAt16()
    ensures TextFree(FedutilTemplate[16])
  {
    assert FedutilTemplate[16] == Text(") GetIRI() *url.URL {");
  }
  lemma FedutilTemplateAt17()
    ensures TextFree(FedutilTemplate[17])
  {
    assert FedutilTemplate[17] == Text("\n            return i.it.GetIRI()\n    }\n");
  }
  lemma FedutilTemplateAt18()
    ensures TextFree(FedutilTemplate[18])
  {
    assert FedutilTemplate[18] == Text("\n    func (i iter_");
  }
  lemma FedutilTemplateAt20()
    ensures TextFree(FedutilTemplate[20])
  {
    assert FedutilTemplate[20] == Text(") GetType() vocab.Type {");
  }
  lemma FedutilTemplateAt21()
    ensures TextFree(FedutilTemplate[21])
  {
    assert FedutilTemplate[21] == Text("\n            return i.it.GetType()\n    }");
  }
  lemma FedutilTemplateAt22()
    ensures TextFree(FedutilTemplate[22])
  {
    assert FedutilTemplate[22] == Text("\n\n    func (i iter_");
  }
  lemma FedutilTemplateAt24()
    ensures TextFree(FedutilTemplate[24])
  {
    assert FedutilTemplate[24] == Text(") Next() Iter {\n            return iter_");
  }
  lemma FedutilTemplateAt26()
    ensures TextFree(FedutilTemplate[26])
  {
    assert FedutilTemplate[26] == Text("{\n                    p: i.p,");
  }
  lemma FedutilTemplateAt27()
    ensures TextFree(FedutilTemplate[27])
  {
    assert FedutilTemplate[27] == Text("\n                    it: i.it.Next(),");
  }
  lemma FedutilTemplateAt28()
    ensures TextFree(FedutilTemplate[28])
  {
    assert FedutilTemplate[28] == Text("\n            }\n    }\n\n    func (i iter_");
  }
  lemma FedutilTemplateAt30()
    ensures TextFree(FedutilTemplate[30])
  {
    assert FedutilTemplate[30] == Text(") End() Iter {\n            return iter_");
  }
  lemma FedutilTemplateAt32()
    ensures TextFree(FedutilTemplate[32])
  {
    assert FedutilTemplate[32] == Text("{\n                    p: i.p,");
  }
  lemma FedutilTemplateAt33()
    ensures TextFree(FedutilTemplate[33])
  {
    assert FedutilTemplate[33] == Text("\n                    it: i.p.End(),");
  }
  lemma FedutilTemplateAt34()
    ensures TextFree(FedutilTemplate[34])
  {
    assert FedutilTemplate[34] == Text("\n            }\n    }\n    ");
  }

  lemma FedutilTemplateFrom0(k: nat)
    requires 0 <= k < 6
    ensures TextFree(FedutilTemplate[k])
  {
    if k == 0 { FedutilTemplateAt0(); }
    else if k == 2 { FedutilTemplateAt2(); }
    else if k == 4 { FedutilTemplateAt4(); }
  }

  lemma FedutilTemplateFrom6(k: nat)
    requires 6 <= k < 12
    ensures TextFree(FedutilTemplate[k])
  {
    if k == 6 { FedutilTemplateAt6(); }
    else if k == 8 { FedutilTemplateAt8(); }
    else if k == 9 { FedutilTemplateAt9(); }
    else if k == 10 { FedutilTemplateAt10(); }
  }

  lemma FedutilTemplateFrom12(k: nat)
    requires 12 <= k < 18
    ensures TextFree(FedutilTemplate[k])
  {
    if k == 12 { FedutilTemplateAt12(); }
    else if k == 13 { FedutilTemplateAt13(); }
    else if k == 14 { FedutilTemplateAt14(); }
    else if k == 16 { FedutilTemplateAt16(); }
    else if k == 17 { FedutilTemplateAt17(); }
  }

  lemma FedutilTemplateFrom18(k: nat)
    requires 18 <= k < 24
    ensures TextFree(FedutilTemplate[k])
  {
    if k == 18 { FedutilTemplateAt18(); }
    else if k == 20 { FedutilTemplateAt20(); }
    else if k == 21 { FedutilTemplateAt21(); }
    else if k == 22 { FedutilTemplateAt22(); }
  }

  lemma FedutilTemplateFrom24(k: nat)
    requires 24 <= k < 30
    ensures TextFree(FedutilTemplate[k])
  {
    if k == 24 { FedutilTemplateAt24(); }
    else if k == 26 { FedutilTemplateAt26(); }
    else if k == 27 { FedutilTemplateAt27(); }
    else if k == 28 { FedutilTemplateAt28(); }
  }

  lemma FedutilTemplateFrom30(k: nat)
    requires 30 <= k < 35
    ensures TextFree(FedutilTemplate[k])
  {
    if k == 30 { FedutilTemplateAt30(); }
    else if k == 32 { FedutilTemplateAt32(); }
    else if k == 33 { FedutilTemplateAt33(); }
    else if k == 34 { FedutilTemplateAt34(); }
  }

  lemma FedutilTemplateTextsFree()
    ensures TextsFree(FedutilTemplate)
  {
    forall k | 0 <= k < |FedutilTemplate|
      ensures TextFree(FedutilTemplate[k])
    {
      if k < 6 { FedutilTemplateFrom0(k); }
      else if k < 12 { FedutilTemplateFrom6(k); }
      else if k < 18 { FedutilTemplateFrom12(k); }
      else if k < 24 { FedutilTemplateFrom18(k); }
      else if k < 30 { FedutilTemplateFrom24(k); }
      else if k < 35 { FedutilTemplateFrom30(k); }
    }
  }

  lemma TemplatesFree(v: Variant)
    ensures TextsFree(Template(v))
  {
    FetchTemplateTextsFree();
    FedutilTemplateTextsFree();
  }

  /** Both templates open with a line break. */
  lemma TemplateStart(v: Variant)
    ensures StartsWithNewline(Template(v))
  {
    assert FetchTemplate[0] == Text("\ntype iter_");
    assert FedutilTemplate[0] == Text("\n    type iter_");
  }

  predicate StartsWithNewline(ps: seq<Piece>)
  {
    |ps| > 0 && ps[0].Text? && |ps[0].s| > 0 && ps[0].s[0] == '\n'
  }

  /** What emit_wrapper prints for one name, given wrapper_template. */
  function Adapter(template: string, itername: string): string
  {
    var wrapper := Replace(template, BASE_TYPE, BaseName(itername));
    Replace(wrapper, ITER_TYPE, itername)
  }

  /**
   * The two replace calls fill every placeholder of the template: the result
   * is the template with the container name and the iterator name in their
   * holes, and no '$' is left.
   */
  lemma AdapterSubstituted(ps: seq<Piece>, n: string)
    requires TextsFree(ps) && IsIteratorName(n)
    ensures Adapter(Raw(ps), n) == Fill(ps, BaseName(n), n)
    ensures NoChar(Adapter(Raw(ps), n), '$')
  {
    BaseNameDerivation(n);
    ReplaceBaseFills(ps, BaseName(n));
    ReplaceIterFills(ps, BaseName(n), n);
    FillNoPlaceholder(ps, BaseName(n), n);
  }

  // ---------------------------------------------------------------------
  // Printed lines. One element per print call; print() prints "".

  const FetchHeader: seq<string> :=
    ["package fetch", "",
     "// AUTO GENERATED", "// see iterator_impl.gen.py for details", "",
     "import (", "\t\"errors\"", "\t\"fmt\"", "\t\"github.com/go-fed/activity/streams/vocab\"", "\t\"net/url\"", ")", ""]

  const FedutilHeader: seq<string> :=
    ["package fedutil", "",
     "import (", "\t\"fmt\"", "\t\"github.com/go-fed/activity/streams/vocab\"", "\t\"net/url\"", ")", ""]

  /** What emit_header prints. */
  function HeaderLines(v: Variant): seq<string>
  {
    match v
    case FetchVariant => FetchHeader
    case FedutilVariant => FedutilHeader
  }

  // Lines longer than 40 characters are written as a concatenation of two
  // shorter literals; the text is the same.
  const FETCH_BEGIN_LINE: string := "func begin(iterable interface{}) " + "(Iter, error) {"
  const FEDUTIL_BEGIN_LINE: string := "func Begin(iterable vocab.Type) " + "(Iter, error) {"
  const NOT_SUPPORTED_LINE: string := "\t\treturn nil, " + "fmt.Errorf(\"type=%T not supported\", iterable)"
  const SWITCH_LINE: string := "\tswitch v := iterable.(type) {"
  const NIL_ERROR_LINE: string := "\treturn nil, errors.New(\"nil argument\")"

  const FetchPrologue: seq<string> :=
    [FETCH_BEGIN_LINE, "if iterable == nil {", NIL_ERROR_LINE, "}", "", SWITCH_LINE]

  const FedutilPrologue: seq<string> :=
    [FEDUTIL_BEGIN_LINE, SWITCH_LINE]

  /** What emit_constructor prints before its loop. */
  function PrologueLines(v: Variant): seq<string>
  {
    match v
    case FetchVariant => FetchPrologue
    case FedutilVariant => FedutilPrologue
  }

  /** What emit_constructor prints after its loop. */
  const EpilogueLines: seq<string> :=
    ["\tdefault:", NOT_SUPPORTED_LINE, "\t}", "}"]

  const CASE_PREFIX: string := "\tcase vocab."

  /** The lines emit_constructor_for prints for one name. */
  function CaseLines(itername: string): seq<string>
  {
    [CASE_PREFIX + BaseName(itername) + ":",
     "\t\treturn iter_" + itername + "{",
     "\t\t\tp: v,",
     "\t\t\tit: v.Begin(),",
     "\t\t}, nil",
     ""]
  }

  /** The lines of the type-switch cases for a list of names. */
  function Cases(names: seq<string>): seq<string>
  {
    if |names| == 0 then [] else Cases(names[..|names| - 1]) + CaseLines(names[|names| - 1])
  }

  /** The adapters emit_wrappers prints for a list of names. */
  function Adapters(template: string, names: seq<string>): seq<string>
  {
    if |names| == 0 then [] else Adapters(template, names[..|names| - 1]) + [Adapter(template, names[|names| - 1])]
  }

  /** What emit_constructor prints when iterator_types is `names`. */
  function ConstructorLines(v: Variant, names: seq<string>): seq<string>
  {
    PrologueLines(v) + Cases(names) + EpilogueLines
  }

  /** What main prints when iterator_types is `names` and wrapper_template is `template`. */
  function GeneratedFile(v: Variant, names: seq<string>, template: string): seq<string>
  {
    HeaderLines(v) + ConstructorLines(v, names) + Adapters(template, names)
  }

  /** What each generator script prints. */
  function Output(v: Variant): seq<string>
  {
    GeneratedFile(v, Registry(v), WrapperTemplate(v))
  }

  // ---------------------------------------------------------------------
  // The generator's functions as statements. The module globals
  // iterator_types and wrapper_template are passed in; every emit_* method
  // appends the lines it prints to `stdout`, the strings printed so far.

  method EmitHeader(v: Variant, stdout0: seq<string>) returns (stdout: seq<string>)
    ensures stdout == stdout0 + HeaderLines(v)
  {
    match v {
      case FetchVariant => stdout := EmitFetchHeader(stdout0);
      case FedutilVariant => stdout := EmitFedutilHeader(stdout0);
    }
  }

  /** emit_header() of the fetch script. */
  method EmitFetchHeader(stdout0: seq<string>) returns (stdout: seq<string>)
    ensures stdout == stdout0 + FetchHeader
  {
    stdout := stdout0;
    stdout := stdout + ["package fetch"];
    stdout := stdout + [""];
    stdout := stdout + ["// AUTO GENERATED"];
    stdout := stdout + ["// see iterator_impl.gen.py for details"];
    stdout := stdout + [""];
    assert stdout == stdout0 + FetchHeader[..5];
    stdout := stdout + ["import ("];
    stdout := stdout + ["\t\"errors\""];
    stdout := stdout + ["\t\"fmt\""];
    stdout := stdout + ["\t\"github.com/go-fed/activity/streams/vocab\""];
    stdout := stdout + ["\t\"net/url\""];
    stdout := stdout + [")"];
    stdout := stdout + [""];
  }

  /** emit_header() of the fedutil script. */
  method EmitFedutilHeader(stdout0: seq<string>) returns (stdout: seq<string>)
    ensures stdout == stdout0 + FedutilHeader
  {
    stdout := stdout0;
    stdout := stdout + ["package fedutil"];
    stdout := stdout + [""];
    stdout := stdout + ["import ("];
    stdout := stdout + ["\t\"fmt\""];
    stdout := stdout + ["\t\"github.com/go-fed/activity/streams/vocab\""];
    stdout := stdout + ["\t\"net/url\""];
    stdout := stdout + [")"];
    stdout := stdout + [""];
  }

  method EmitConstructorFor(itername: string, stdout0: seq<string>) returns (stdout: seq<string>)
    ensures stdout == stdout0 + CaseLines(itername)
  {
    var basename := Replace(itername, "Iterator", "");
    stdout := stdout0;
    stdout := stdout + [CASE_PREFIX + basename + ":"];
    stdout := stdout + ["\t\treturn iter_" + itername + "{"];
    stdout := stdout + ["\t\t\tp: v,"];
    stdout := stdout + ["\t\t\tit: v.Begin(),"];
    stdout := stdout + ["\t\t}, nil"];
    stdout := stdout + [""];
  }

  lemma AppendAssoc(s: seq<string>, a: seq<string>, b: seq<string>, c: seq<string>)
    ensures s + a + b + c == s + (a + b + c)
  {
  }

  lemma AppendLines4(s: seq<string>, lines: seq<string>)
    requires |lines| == 4
    ensures s + [lines[0]] + [lines[1]] + [lines[2]] + [lines[3]] == s + lines
  {
  }

  lemma AppendLines6(s: seq<string>, lines: seq<string>)
    requires |lines| == 6
    ensures s + [lines[0]] + [lines[1]] + [lines[2]] + [lines[3]] + [lines[4]] + [lines[5]] == s + lines
  {
  }

  lemma AppendFromEmpty(a: seq<string>, b: seq<string>, c: seq<string>)
    ensures [] + a + b + c == a + b + c
  {
  }

  method EmitConstructor(v: Variant, iteratorTypes: seq<string>, stdout0: seq<string>) returns (stdout: seq<string>)
    ensures stdout == stdout0 + ConstructorLines(v, iteratorTypes)
  {
    stdout := stdout0;
    match v {
      case FetchVariant =>
        stdout := stdout + [FETCH_BEGIN_LINE];
        stdout := stdout + ["if iterable == nil {"];
        stdout := stdout + [NIL_ERROR_LINE];
        stdout := stdout + ["}"];
        stdout := stdout + [""];
        stdout := stdout + [SWITCH_LINE];
        AppendLines6(stdout0, PrologueLines(v));
      case FedutilVariant =>
        stdout := stdout + [FEDUTIL_BEGIN_LINE];
        stdout := stdout + [SWITCH_LINE];
    }
    ghost var prologue := stdout;
    var i := 0;
    while i < |iteratorTypes|
      invariant 0 <= i <= |iteratorTypes|
      invariant stdout == prologue + Cases(iteratorTypes[..i])
    {
      stdout := EmitConstructorFor(iteratorTypes[i], stdout);
      CasesSnoc(prologue, iteratorTypes, i);
      i := i + 1;
    }
    assert iteratorTypes[..i] == iteratorTypes;
    ghost var cases := stdout;
    stdout := stdout + ["\tdefault:"];
    stdout := stdout + [NOT_SUPPORTED_LINE];
    stdout := stdout + ["\t}"];
    stdout := stdout + ["}"];
    AppendLines4(cases, EpilogueLines);
    AppendAssoc(stdout0, PrologueLines(v), Cases(iteratorTypes), EpilogueLines);
  }

  /** The cases for one more name: those printed so far, then that name's block. */
  lemma CasesSnoc(prologue: seq<string>, names: seq<string>, i: nat)
    requires i < |names|
    ensures prologue + Cases(names[..i]) + CaseLines(names[i]) == prologue + Cases(names[..i + 1])
  {
    assert names[..i + 1][..i] == names[..i];
  }

  method EmitWrapper(template: string, itername: string, stdout0: seq<string>) returns (stdout: seq<string>)
    ensures stdout == stdout0 + [Adapter(template, itername)]
  {
    var basename := Replace(itername, "Iterator", "");
    var wrapper := template;
    wrapper := Replace(wrapper, BASE_TYPE, basename);
    wrapper := Replace(wrapper, ITER_TYPE, itername);
    stdout := stdout0 + [wrapper];
  }

  method EmitWrappers(template: string, iteratorTypes: seq<string>, stdout0: seq<string>) returns (stdout: seq<string>)
    ensures stdout == stdout0 + Adapters(template, iteratorTypes)
  {
    stdout := stdout0;
    var i := 0;
    while i < |iteratorTypes|
      invariant 0 <= i <= |iteratorTypes|
      invariant stdout == stdout0 + Adapters(template, iteratorTypes[..i])
    {
      stdout := EmitWrapper(template, iteratorTypes[i], stdout);
      assert iteratorTypes[..i + 1][..i] == iteratorTypes[..i];
      i := i + 1;
    }
    assert iteratorTypes[..i] == iteratorTypes;
  }

  /** main(), starting from empty output: header, dispatch function, adapters. */
  method Generate(v: Variant) returns (stdout: seq<string>)
    ensures stdout == Output(v)
  {
    stdout := EmitHeader(v, []);
    stdout := EmitConstructor(v, Registry(v), stdout);
    stdout := EmitWrappers(WrapperTemplate(v), Registry(v), stdout);
    AppendFromEmpty(HeaderLines(v), ConstructorLines(v, Registry(v)), Adapters(WrapperTemplate(v), Registry(v)));
  }

  // ---------------------------------------------------------------------
  // The `if __name__ == '__main__'` block

  datatype Raised = BrokenPipeError | KeyboardInterrupt | SystemExit | OtherException

  datatype RunEnd = Finished | EndedSilently | Traceback(e: Raised)

  /** The exceptions the script's `except` clause names. */
  predicate Swallowed(v: Variant, e: Raised)
  {
    match v
    case FetchVariant => e == BrokenPipeError || e == KeyboardInterrupt || e == SystemExit
    case FedutilVariant => e == KeyboardInterrupt || e == SystemExit
  }

  /**
   * A run of the script whose main() prints `output`, in which `raised`,
   * when present, is thrown after the first k lines have been printed: what
   * reached standard output and how the run ended.
   */
  function Run(v: Variant, output: seq<string>, raised: Option<(nat, Raised)>): (r: (seq<string>, RunEnd))
    ensures r.0 <= output
    ensures raised.None? ==> r == (output, Finished)
    ensures raised.Some? && raised.value.0 <= |output| ==> |r.0| == raised.value.0
    ensures raised.Some? ==> (r.1 == EndedSilently <==> Swallowed(v, raised.value.1))
    ensures raised.Some? && !Swallowed(v, raised.value.1) ==> r.1 == Traceback(raised.value.1)
  {
    match raised
    case None => (output, Finished)
    case Some((k, e)) =>
      var printed := if k <= |output| then output[..k] else output;
      (printed, if Swallowed(v, e) then EndedSilently else Traceback(e))
  }

  /** The fetch script ends silently on a broken pipe, an interrupt or an exit. */
  lemma FetchSwallows(output: seq<string>, k: nat)
    ensures Run(FetchVariant, output, Some((k, BrokenPipeError))).1 == EndedSilently
    ensures Run(FetchVariant, output, Some((k, KeyboardInterrupt))).1 == EndedSilently
    ensures Run(FetchVariant, output, Some((k, SystemExit))).1 == EndedSilently
    ensures Run(FetchVariant, output, Some((k, OtherException))).1 == Traceback(OtherException)
  {
  }

  /** The fedutil script lets a broken pipe through. */
  lemma FedutilPropagatesBrokenPipe(output: seq<string>, k: nat)
    ensures Run(FedutilVariant, output, Some((k, BrokenPipeError))).1 == Traceback(BrokenPipeError)
    ensures Run(FedutilVariant, output, Some((k, KeyboardInterrupt))).1 == EndedSilently
    ensures Run(FedutilVariant, output, Some((k, SystemExit))).1 == EndedSilently
  {
  }

  // ---------------------------------------------------------------------
  // Properties of the printed file, for any registry and template

  function CaseStart(v: Variant): nat
  {
    |HeaderLines(v)| + |PrologueLines(v)|
  }

  function AdapterStart(v: Variant, count: nat): nat
  {
    CaseStart(v) + 6 * count + |EpilogueLines|
  }

  lemma {:induction false} CasesLayout(names: seq<string>)
    ensures |Cases(names)| == 6 * |names|
    ensures forall k, j :: 0 <= k < |names| && 0 <= j < 6 ==> Cases(names)[6 * k + j] == CaseLines(names[k])[j]
    decreases |names|
  {
    if |names| > 0 {
      var init := names[..|names| - 1];
      CasesLayout(init);
      forall k, j | 0 <= k < |names| && 0 <= j < 6
        ensures Cases(names)[6 * k + j] == CaseLines(names[k])[j]
      {
        if k < |names| - 1 {
          assert init[k] == names[k];
        }
      }
    }
  }

  lemma {:induction false} AdaptersLayout(template: string, names: seq<string>)
    ensures |Adapters(template, names)| == |names|
    ensures forall k :: 0 <= k < |names| ==> Adapters(template, names)[k] == Adapter(template, names[k])
    decreases |names|
  {
    if |names| > 0 {
      var init := names[..|names| - 1];
      AdaptersLayout(template, init);
      forall k | 0 <= k < |names| - 1
        ensures Adapters(template, names)[k] == Adapter(template, names[k])
      {
        assert init[k] == names[k];
      }
    }
  }

  /** The positions in h + (p + Cases(names) + e) + Adapters(template, names), for any fixed parts. */
  lemma PartsLayout(h: seq<string>, p: seq<string>, e: seq<string>, names: seq<string>, template: string, cs: nat, ast: nat)
    requires cs == |h| + |p| && ast == cs + 6 * |names| + |e|
    ensures var f := h + (p + Cases(names) + e) + Adapters(template, names);
      && |f| == ast + |names|
      && (forall i :: 0 <= i < |h| ==> f[i] == h[i])
      && (forall i :: 0 <= i < |p| ==> f[|h| + i] == p[i])
      && (forall k, j :: 0 <= k < |names| && 0 <= j < 6 ==> f[cs + 6 * k + j] == CaseLines(names[k])[j])
      && (forall i :: 0 <= i < |e| ==> f[cs + 6 * |names| + i] == e[i])
      && (forall k :: 0 <= k < |names| ==> f[ast + k] == Adapter(template, names[k]))
  {
    CasesLayout(names);
    AdaptersLayout(template, names);
    var c := Cases(names);
    var a := Adapters(template, names);
    var f := h + (p + c + e) + a;
    forall k, j | 0 <= k < |names| && 0 <= j < 6
      ensures f[cs + 6 * k + j] == CaseLines(names[k])[j]
    {
      assert f[cs + 6 * k + j] == c[6 * k + j];
    }
  }

  /**
   * Output order: the header, the dispatch function (prologue, six lines per
   * name in registry order, the default branch) and then one adapter per
   * name in registry order, which close the file.
   */
  lemma FileLayout(v: Variant, names: seq<string>, template: string)
    ensures |GeneratedFile(v, names, template)| == AdapterStart(v, |names|) + |names|
    ensures forall i :: 0 <= i < |HeaderLines(v)| ==> GeneratedFile(v, names, template)[i] == HeaderLines(v)[i]
    ensures forall i :: 0 <= i < |PrologueLines(v)| ==>
      GeneratedFile(v, names, template)[|HeaderLines(v)| + i] == PrologueLines(v)[i]
    ensures forall k, j :: 0 <= k < |names| && 0 <= j < 6 ==>
      GeneratedFile(v, names, template)[CaseStart(v) + 6 * k + j] == CaseLines(names[k])[j]
    ensures forall i :: 0 <= i < |EpilogueLines| ==>
      GeneratedFile(v, names, template)[CaseStart(v) + 6 * |names| + i] == EpilogueLines[i]
    ensures forall k :: 0 <= k < |names| ==>
      GeneratedFile(v, names, template)[AdapterStart(v, |names|) + k] == Adapter(template, names[k])
  {
    PartsLayout(HeaderLines(v), PrologueLines(v), EpilogueLines, names, template, CaseStart(v), AdapterStart(v, |names|));
  }

  /**
   * The dispatch function has, for the k-th name, a case on its container type
   * returning the adapter built from `p: v, it: v.Begin()`, and the default
   * branch with the "not supported" error follows the last case.
   */
  lemma DispatchCase(v: Variant, names: seq<string>, template: string, k: nat)
    requires k < |names|
    ensures |GeneratedFile(v, names, template)| == AdapterStart(v, |names|) + |names|
    ensures GeneratedFile(v, names, template)[CaseStart(v) + 6 * k] == CASE_PREFIX + BaseName(names[k]) + ":"
    ensures GeneratedFile(v, names, template)[CaseStart(v) + 6 * k + 1] == "\t\treturn iter_" + names[k] + "{"
    ensures GeneratedFile(v, names, template)[CaseStart(v) + 6 * k + 2] == "\t\t\tp: v,"
    ensures GeneratedFile(v, names, template)[CaseStart(v) + 6 * k + 3] == "\t\t\tit: v.Begin(),"
    ensures CaseStart(v) + 6 * k < CaseStart(v) + 6 * |names|
    ensures GeneratedFile(v, names, template)[CaseStart(v) + 6 * |names|] == "\tdefault:"
    ensures GeneratedFile(v, names, template)[CaseStart(v) + 6 * |names| + 1] == NOT_SUPPORTED_LINE
  {
    FileLayout(v, names, template);
    var f := GeneratedFile(v, names, template);
    assert f[CaseStart(v) + 6 * k + 0] == CaseLines(names[k])[0];
    assert f[CaseStart(v) + 6 * k + 1] == CaseLines(names[k])[1];
    assert f[CaseStart(v) + 6 * k + 2] == CaseLines(names[k])[2];
    assert f[CaseStart(v) + 6 * k + 3] == CaseLines(names[k])[3];
    assert f[CaseStart(v) + 6 * |names| + 0] == EpilogueLines[0];
    assert f[CaseStart(v) + 6 * |names| + 1] == EpilogueLines[1];
  }

  /**
   * The fetch dispatch function tests for nil and returns the "nil argument"
   * error before its type switch; the fedutil one is `Begin` over vocab.Type
   * and starts with the switch.
   */
  lemma DispatchPrologue(names: seq<string>, template: string)
    ensures GeneratedFile(FetchVariant, names, template)[12] == FETCH_BEGIN_LINE
    ensures GeneratedFile(FetchVariant, names, template)[13] == "if iterable == nil {"
    ensures GeneratedFile(FetchVariant, names, template)[14] == NIL_ERROR_LINE
    ensures GeneratedFile(FetchVariant, names, template)[17] == SWITCH_LINE
    ensures CaseStart(FetchVariant) == 18
    ensures GeneratedFile(FedutilVariant, names, template)[8] == FEDUTIL_BEGIN_LINE
    ensures GeneratedFile(FedutilVariant, names, template)[9] == SWITCH_LINE
    ensures CaseStart(FedutilVariant) == 10
  {
    FileLayout(FetchVariant, names, template);
    FileLayout(FedutilVariant, names, template);
    var f := GeneratedFile(FetchVariant, names, template);
    var u := GeneratedFile(FedutilVariant, names, template);
    assert f[12 + 0] == FetchPrologue[0];
    assert f[12 + 1] == FetchPrologue[1];
    assert f[12 + 2] == FetchPrologue[2];
    assert f[12 + 5] == FetchPrologue[5];
    assert u[8 + 0] == FedutilPrologue[0];
    assert u[8 + 1] == FedutilPrologue[1];
  }

  /**
   * The k-th adapter is the template with the k-th name's container and
   * iterator names in its holes, and no placeholder is left.
   */
  lemma AdapterAt(v: Variant, names: seq<string>, ps: seq<Piece>, k: nat)
    requires k < |names| && IsIteratorName(names[k]) && TextsFree(ps)
    ensures |GeneratedFile(v, names, Raw(ps))| == AdapterStart(v, |names|) + |names|
    ensures GeneratedFile(v, names, Raw(ps))[AdapterStart(v, |names|) + k] == Fill(ps, BaseName(names[k]), names[k])
    ensures NoChar(GeneratedFile(v, names, Raw(ps))[AdapterStart(v, |names|) + k], '$')
  {
    FileLayout(v, names, Raw(ps));
    AdapterSubstituted(ps, names[k]);
  }

  /** A line that opens a type-switch case. */
  predicate IsCaseLine(line: string) {
    HasPrefix(line, CASE_PREFIX)
  }

  /** A line whose first two characters are not those of a case. */
  predicate NotCaseHead(line: string) {
    |line| < 2 || line[0] != '\t' || line[1] != 'c'
  }

  lemma NotCaseHeadNotCase(line: string)
    requires NotCaseHead(line)
    ensures !IsCaseLine(line)
  {
    if |line| >= |CASE_PREFIX| {
      assert line[..|CASE_PREFIX|][0] == line[0];
      assert line[..|CASE_PREFIX|][1] == line[1];
    }
  }

  /** No header, prologue or epilogue line opens a case. */
  lemma FixedLinesNotCases(v: Variant)
    ensures forall i :: 0 <= i < |HeaderLines(v)| ==> NotCaseHead(HeaderLines(v)[i])
    ensures forall i :: 0 <= i < |PrologueLines(v)| ==> NotCaseHead(PrologueLines(v)[i])
    ensures forall i :: 0 <= i < |EpilogueLines| ==> NotCaseHead(EpilogueLines[i])
  {
    assert NIL_ERROR_LINE[1] == 'r' && SWITCH_LINE[1] == 's';
    assert FETCH_BEGIN_LINE[0] == 'f' && FEDUTIL_BEGIN_LINE[0] == 'f';
    assert NOT_SUPPORTED_LINE[1] == '\t';
  }

  /** A replacement keeps the first character when no match starts there. */
  lemma ReplaceKeepsHead(s: string, pat: string, rep: string)
    requires |s| > 0 && |pat| > 0 && s[0] != pat[0]
    ensures |Replace(s, pat, rep)| > 0 && Replace(s, pat, rep)[0] == s[0]
  {
    assert !StartsWith(s, pat);
  }

  lemma AdapterHead(template: string, n: string)
    requires |template| > 0 && template[0] != '$'
    ensures |Adapter(template, n)| > 0 && Adapter(template, n)[0] == template[0]
  {
    ReplaceKeepsHead(template, BASE_TYPE, BaseName(n));
    ReplaceKeepsHead(Replace(template, BASE_TYPE, BaseName(n)), ITER_TYPE, n);
  }

  /** Of the lines printed for one name, only the first opens a case. */
  lemma CaseLinesOpen(n: string, j: nat)
    requires j < 6
    ensures IsCaseLine(CaseLines(n)[j]) <==> j == 0
  {
    var line := CaseLines(n)[j];
    if j == 0 {
      assert line == CASE_PREFIX + (BaseName(n) + ":");
      assert line[..|CASE_PREFIX|] == CASE_PREFIX;
    } else {
      assert |line| < 2 || line[1] == '\t';
      NotCaseHeadNotCase(line);
    }
  }

  lemma BlockLine(v: Variant, names: seq<string>, template: string, k: nat, j: nat)
    requires k < |names| && j < 6
    ensures CaseStart(v) + 6 * k + j < |GeneratedFile(v, names, template)|
    ensures IsCaseLine(GeneratedFile(v, names, template)[CaseStart(v) + 6 * k + j]) <==> j == 0
  {
    CaseAt(v, names, template, k, j);
    CaseLinesOpen(names[k], j);
  }

  /** The j-th line printed for the k-th name, in the file. */
  lemma CaseAt(v: Variant, names: seq<string>, template: string, k: nat, j: nat)
    requires k < |names| && j < 6
    ensures CaseStart(v) + 6 * k + j < |GeneratedFile(v, names, template)|
    ensures GeneratedFile(v, names, template)[CaseStart(v) + 6 * k + j] == CaseLines(names[k])[j]
  {
    PartsCaseAt(HeaderLines(v), PrologueLines(v), EpilogueLines, names, template, k, j);
  }

  /** The line at i, when i is where the k-th name's block starts, is that block's case line. */
  lemma CaseHeadAt(v: Variant, names: seq<string>, template: string, k: nat, i: nat)
    requires k < |names| && i == CaseStart(v) + 6 * k
    ensures i < |GeneratedFile(v, names, template)|
    ensures GeneratedFile(v, names, template)[i] == CaseLines(names[k])[0]
  {
    CaseAt(v, names, template, k, 0);
  }

  lemma PartsCaseAt(h: seq<string>, p: seq<string>, e: seq<string>, names: seq<string>, template: string, k: nat, j: nat)
    requires k < |names| && j < 6
    ensures |h| + |p| + 6 * k + j < |h + (p + Cases(names) + e) + Adapters(template, names)|
    ensures (h + (p + Cases(names) + e) + Adapters(template, names))[|h| + |p| + 6 * k + j] == CaseLines(names[k])[j]
  {
    CasesLayout(names);
    var c := Cases(names);
    var m := p + c + e;
    PartsMiddleAt(h, m, Adapters(template, names), |p| + 6 * k + j);
    assert m[|p| + 6 * k + j] == c[6 * k + j];
  }

  lemma CasesLength(names: seq<string>)
    ensures |Cases(names)| == 6 * |names|
  {
    CasesLayout(names);
  }

  /** A line of the constructor part of the file sits after the header. */
  lemma PartsMiddleAt(h: seq<string>, m: seq<string>, a: seq<string>, x: nat)
    requires x < |m|
    ensures |h| + x < |h + m + a| && (h + m + a)[|h| + x] == m[x]
  {
  }

  lemma OutsideBlockLine(v: Variant, names: seq<string>, template: string, i: nat)
    requires |template| > 0 && template[0] == '\n'
    requires i < |GeneratedFile(v, names, template)|
    requires i < CaseStart(v) || CaseStart(v) + 6 * |names| <= i
    ensures !IsCaseLine(GeneratedFile(v, names, template)[i])
  {
    FixedLinesNotCases(v);
    CasesLength(names);
    AdaptersNotCases(template, names);
    OutsideCases(HeaderLines(v), PrologueLines(v), Cases(names), EpilogueLines, Adapters(template, names), i);
    NotCaseHeadNotCase(GeneratedFile(v, names, template)[i]);
  }

  /** No adapter text opens a case: each starts with the template's first character. */
  lemma AdaptersNotCases(template: string, names: seq<string>)
    requires |template| > 0 && template[0] == '\n'
    ensures forall x :: 0 <= x < |Adapters(template, names)| ==> NotCaseHead(Adapters(template, names)[x])
  {
    AdaptersLayout(template, names);
    forall x | 0 <= x < |Adapters(template, names)|
      ensures NotCaseHead(Adapters(template, names)[x])
    {
      AdapterHead(template, names[x]);
    }
  }

  /** In h + (p + c + e) + a, a line outside c comes from a part none of whose lines opens a case. */
  lemma OutsideCases(h: seq<string>, p: seq<string>, c: seq<string>, e: seq<string>, a: seq<string>, i: nat)
    requires forall x :: 0 <= x < |h| ==> NotCaseHead(h[x])
    requires forall x :: 0 <= x < |p| ==> NotCaseHead(p[x])
    requires forall x :: 0 <= x < |e| ==> NotCaseHead(e[x])
    requires forall x :: 0 <= x < |a| ==> NotCaseHead(a[x])
    requires i < |h + (p + c + e) + a|
    requires i < |h| + |p| || |h| + |p| + |c| <= i
    ensures NotCaseHead((h + (p + c + e) + a)[i])
  {
    var m := p + c + e;
    if i < |h| + |m| && |h| <= i {
      var y := i - |h|;
      assert (h + m + a)[i] == m[y];
      if y < |p| {
        assert m[y] == p[y];
      } else {
        assert m[y] == e[y - |p| - |c|];
      }
    }
  }

  /**
   * A printed line opens a case exactly when it is the first of one of the
   * per-name blocks: no header, prologue, epilogue or adapter text is taken
   * for a case.
   */
  lemma CaseLinesExact(v: Variant, names: seq<string>, template: string, i: nat)
    requires |template| > 0 && template[0] == '\n'
    requires i < |GeneratedFile(v, names, template)|
    ensures IsCaseLine(GeneratedFile(v, names, template)[i]) <==>
      (CaseStart(v) <= i < CaseStart(v) + 6 * |names| && (i - CaseStart(v)) % 6 == 0)
  {
    var cs := CaseStart(v);
    if cs <= i < cs + 6 * |names| {
      var k := (i - cs) / 6;
      var j := (i - cs) % 6;
      assert i == cs + 6 * k + j;
      BlockLine(v, names, template, k, j);
    } else {
      OutsideBlockLine(v, names, template, i);
    }
  }

  lemma CaseHeadInjective(a: string, b: string)
    requires CASE_PREFIX + a + ":" == CASE_PREFIX + b + ":"
    ensures a == b
  {
    var l := CASE_PREFIX + a + ":";
    assert a == l[|CASE_PREFIX|..|l| - 1];
    assert b == l[|CASE_PREFIX|..|l| - 1];
  }

  /**
   * A name missing from the registry gets no case: no printed line opens a
   * case on its container type.
   */
  lemma AbsentNoCase(v: Variant, names: seq<string>, template: string, x: string, i: nat)
    requires IsIteratorName(x) && x !in names
    requires forall k :: 0 <= k < |names| ==> IsIteratorName(names[k])
    requires |template| > 0 && template[0] == '\n'
    requires i < |GeneratedFile(v, names, template)|
    ensures GeneratedFile(v, names, template)[i] != CASE_PREFIX + BaseName(x) + ":"
  {
    var line := GeneratedFile(v, names, template)[i];
    if line == CASE_PREFIX + BaseName(x) + ":" {
      assert line[..|CASE_PREFIX|] == CASE_PREFIX;
      var k := CaseLineOwner(v, names, template, i);
      assert line == CASE_PREFIX + BaseName(names[k]) + ":";
      CaseHeadInjective(BaseName(x), BaseName(names[k]));
      BaseNameInjective(x, names[k]);
    }
  }

  /** A line that opens a case is the first line of the block of some name k. */
  lemma CaseLineOwner(v: Variant, names: seq<string>, template: string, i: nat) returns (k: nat)
    requires |template| > 0 && template[0] == '\n'
    requires i < |GeneratedFile(v, names, template)|
    requires IsCaseLine(GeneratedFile(v, names, template)[i])
    ensures k < |names|
    ensures GeneratedFile(v, names, template)[i] == CaseLines(names[k])[0]
  {
    CaseLinesExact(v, names, template, i);
    k := BlockOf(i - CaseStart(v), |names|);
    CaseHeadAt(v, names, template, k, i);
  }

  lemma BlockOf(d: nat, n: nat) returns (k: nat)
    requires d < 6 * n && d % 6 == 0
    ensures k < n && d == 6 * k
  {
    k := d / 6;
  }

  /** Every adapter line is built from a registry name, so none from a missing one. */
  lemma AbsentNoAdapter(v: Variant, names: seq<string>, template: string, x: string)
    requires x !in names
    ensures |GeneratedFile(v, names, template)| == AdapterStart(v, |names|) + |names|
    ensures forall k :: 0 <= k < |names| ==>
      GeneratedFile(v, names, template)[AdapterStart(v, |names|) + k] == Adapter(template, names[k]) && names[k] != x
  {
    FileLayout(v, names, template);
  }

  // ---------------------------------------------------------------------
  // The two scripts

  /** The registry and the template meet the hypotheses of the lemmas above. */
  lemma ScriptInputs(v: Variant)
    ensures forall k :: 0 <= k < |Registry(v)| ==> IsIteratorName(Registry(v)[k])
    ensures Distinct(Registry(v))
    ensures TextsFree(Template(v))
    ensures |WrapperTemplate(v)| > 0 && WrapperTemplate(v)[0] == '\n'
  {
    RegistryWellFormed(v);
    TemplatesFree(v);
    TemplateStart(v);
    var ps := Template(v);
    assert Raw(ps) == ps[0].s + Raw(ps[1..]);
  }

  /** No name of `not_supported` gets a case or an adapter from the fetch script. */
  lemma NotSupportedNotDispatched(m: nat, i: nat)
    requires m < |NotSupported| && i < |Output(FetchVariant)|
    ensures Output(FetchVariant)[i] != CASE_PREFIX + BaseName(NotSupported[m]) + ":"
    ensures forall k :: 0 <= k < |FetchIteratorTypes| ==> FetchIteratorTypes[k] != NotSupported[m]
  {
    NotSupportedDisjoint();
    NotSupportedInFedutil();
    FedutilNamesWellFormed();
    ScriptInputs(FetchVariant);
    AbsentNoCase(FetchVariant, FetchIteratorTypes, WrapperTemplate(FetchVariant), NotSupported[m], i);
  }

  /** The fetch script's k-th adapter has every placeholder filled from the k-th name. */
  lemma FetchScriptAdapter(k: nat)
    requires k < |FetchIteratorTypes|
    ensures |Output(FetchVariant)| == AdapterStart(FetchVariant, |FetchIteratorTypes|) + |FetchIteratorTypes|
    ensures Output(FetchVariant)[AdapterStart(FetchVariant, |FetchIteratorTypes|) + k]
      == Fill(FetchTemplate, BaseName(FetchIteratorTypes[k]), FetchIteratorTypes[k])
    ensures NoChar(Output(FetchVariant)[AdapterStart(FetchVariant, |FetchIteratorTypes|) + k], '$')
  {
    FetchNamesWellFormed();
    FetchTemplateTextsFree();
    AdapterAt(FetchVariant, FetchIteratorTypes, FetchTemplate, k);
  }

  /** The fedutil script's k-th adapter has every placeholder filled from the k-th name. */
  lemma FedutilScriptAdapter(k: nat)
    requires k < |FedutilIteratorTypes|
    ensures |Output(FedutilVariant)| == AdapterStart(FedutilVariant, |FedutilIteratorTypes|) + |FedutilIteratorTypes|
    ensures Output(FedutilVariant)[AdapterStart(FedutilVariant, |FedutilIteratorTypes|) + k]
      == Fill(FedutilTemplate, BaseName(FedutilIteratorTypes[k]), FedutilIteratorTypes[k])
    ensures NoChar(Output(FedutilVariant)[AdapterStart(FedutilVariant, |FedutilIteratorTypes|) + k], '$')
  {
    FedutilNamesWellFormed();
    FedutilTemplateTextsFree();
    AdapterAt(FedutilVariant, FedutilIteratorTypes, FedutilTemplate, k);
  }

  /** The fedutil registry adds the five names the fetch script cannot serve. */
  lemma FedutilAddsNotSupported()
    ensures forall m :: 0 <= m < |NotSupported| ==>
      NotSupported[m] in FedutilIteratorTypes && NotSupported[m] !in FetchIteratorTypes
    ensures forall k :: 0 <= k < |FetchIteratorTypes| ==> FetchIteratorTypes[k] in FedutilIteratorTypes
  {
    NotSupportedInFedutil();
    NotSupportedDisjoint();
    FetchInFedutil();
  }

  /** The fedutil header declares its package and imports no "errors". */
  lemma HeaderImports()
    ensures HeaderLines(FetchVariant)[0] == "package fetch"
    ensures "\t\"errors\"" in HeaderLines(FetchVariant)
    ensures HeaderLines(FedutilVariant)[0] == "package fedutil"
    ensures "\t\"errors\"" !in HeaderLines(FedutilVariant)
    ensures "\t\"fmt\"" in HeaderLines(FedutilVariant) && "\t\"net/url\"" in HeaderLines(FedutilVariant)
  {
    assert HeaderLines(FetchVariant)[6] == "\t\"errors\"";
    assert HeaderLines(FedutilVariant)[3] == "\t\"fmt\"";
    assert HeaderLines(FedutilVariant)[5] == "\t\"net/url\"";
  }
}
