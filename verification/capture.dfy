/**
  `CaptureAvoid`, the applier of the `let-lam-diff` rule
  `(let ?v1 ?e (lam ?v2 ?body))`. Pushing the `let` under the `lam` would capture
  `?v2` if it is free in `?e`; in that case the binder is first renamed to a
  fresh symbol named after the e-class being rewritten.
 */
module Capture {
  import opened Lang
  import opened Analysis
  import opened Patterns

  datatype CaptureAvoid = CaptureAvoid(
    freshVar: VarName,   // bound to the fresh symbol's class in the `if_free` branch
    v2: VarName,      // the inner binder
    e: VarName,       // the expression substituted by the `let`
    ifNotFree: Pat,
    ifFree: Pat)

  datatype Branch = IfNotFree | IfFree

  /** Which pattern the applier instantiates, and with which substitution. */
  datatype Applied = Applied(branch: Branch, subst: Subst)

  function Chosen(ca: CaptureAvoid, b: Branch): Pat {
    match b
    case IfNotFree => ca.ifNotFree
    case IfFree => ca.ifFree
  }

  predicate IsDigit(c: char) {
    '0' <= c <= '9'
  }

  function DigitChar(d: nat): (c: char)
    requires d < 10
    ensures IsDigit(c)
  {
    ('0' as int + d) as char
  }

  function DigitValue(c: char): (d: nat)
    requires IsDigit(c)
    ensures d < 10
  {
    c as int - '0' as int
  }

  /** The decimal rendering of an unsigned integer by Rust's `Display`: no leading zeros. */
  function Decimal(n: nat): (s: string)
    ensures |s| >= 1
    ensures forall i :: 0 <= i < |s| ==> IsDigit(s[i])
    ensures n > 0 ==> s[0] != '0'
  {
    if n < 10 then [DigitChar(n)] else Decimal(n / 10) + [DigitChar(n % 10)]
  }

  /** Reading a string of digits back as a number. */
  function ParseDecimal(s: string): nat
    requires forall i :: 0 <= i < |s| ==> IsDigit(s[i])
  {
    if |s| == 0 then 0 else 10 * ParseDecimal(s[..|s| - 1]) + DigitValue(s[|s| - 1])
  }

  lemma {:induction false} DecimalRoundTrip(n: nat)
    ensures ParseDecimal(Decimal(n)) == n
  {
    var s := Decimal(n);
    if n >= 10 {
      DecimalRoundTrip(n / 10);
      assert s[..|s| - 1] == Decimal(n / 10);
    }
  }

  /**
    `format!("_{}", eclass)`: the fresh symbol's name is an underscore followed
    by the class id in decimal, so it is a function of `eclass` alone and can
    be read back to give `eclass`.
   */
  function FreshName(eclass: Id): (s: string)
    ensures |s| >= 2 && s[0] == '_'
    ensures forall i :: 1 <= i < |s| ==> IsDigit(s[i])
    ensures ParseDecimal(s[1..]) == eclass
  {
    var s := "_" + Decimal(eclass);
    DecimalRoundTrip(eclass);
    assert s[1..] == Decimal(eclass);
    s
  }

  /** Different classes get different fresh symbols. */
  lemma FreshNameInjective(a: Id, b: Id)
    ensures FreshName(a) == FreshName(b) <==> a == b
  {
  }

  /**
    `CaptureAvoid::apply_one`. `add` stands for `egraph.add`, the class the
    engine hash-conses the fresh `Symbol` node into. The result names the
    pattern that is then instantiated and the substitution it is given.
   */
  function ApplyOne(ca: CaptureAvoid, g: EGraph, eclass: Id, subst: Subst, add: Lambda -> Id): (r: Applied)
    requires ca.e in subst && ca.v2 in subst && Live(g, subst[ca.e])
    ensures r.branch == IfFree <==> subst[ca.v2] in FreeOf(g, subst[ca.e])
    ensures r.branch == IfNotFree ==> r.subst == subst
    ensures r.branch == IfFree ==> r.subst.Keys == subst.Keys + {ca.freshVar}
    ensures r.branch == IfFree ==> r.subst[ca.freshVar] == add(Symbol(FreshName(eclass)))
    ensures r.branch == IfFree ==>
      forall k :: k in subst && k != ca.freshVar ==> r.subst[k] == subst[k]
  {
    var e := subst[ca.e];
    var v2 := subst[ca.v2];
    if v2 in DataOf(g, e).free then
      Applied(IfFree, subst[ca.freshVar := add(Symbol("_" + Decimal(eclass)))])
    else
      Applied(IfNotFree, subst)
  }

  /**
    The fresh symbol depends on nothing but the class being rewritten: two
    applications that both rename hand `egraph.add` the same `Symbol` node
    exactly when they rewrite the same class, whatever the e-graphs and the
    rest of the matches.
   */
  lemma FreshSymbolDependsOnlyOnClass(ca: CaptureAvoid, add: Lambda -> Id,
                                g1: EGraph, s1: Subst, c1: Id,
                                g2: EGraph, s2: Subst, c2: Id)
    requires ca.e in s1 && ca.v2 in s1 && Live(g1, s1[ca.e])
    requires ca.e in s2 && ca.v2 in s2 && Live(g2, s2[ca.e])
    requires ApplyOne(ca, g1, c1, s1, add).branch == IfFree
    requires ApplyOne(ca, g2, c2, s2, add).branch == IfFree
    ensures ApplyOne(ca, g1, c1, s1, add).subst[ca.freshVar] == add(Symbol(FreshName(c1)))
    ensures ApplyOne(ca, g2, c2, s2, add).subst[ca.freshVar] == add(Symbol(FreshName(c2)))
    ensures Symbol(FreshName(c1)) == Symbol(FreshName(c2)) <==> c1 == c2
  {
    FreshNameInjective(c1, c2);
  }
}
