/**
  The rewrite rules of the benchmark, as data: each rule's searcher pattern,
  its consequence (a fixed pattern or the capture-avoiding applier) and its side
  condition. The patterns are written out as values rather than parsed from
  their S-expression text.
 */
module RuleSet {
  import opened Lang
  import opened Analysis
  import opened Patterns
  import opened Capture

  /** The guard of a conditional rule. */
  datatype Condition =
    | Always
    | NotSameVar(v1: VarName, v2: VarName)     // `is_not_same_var`
    | IsConstant(c: VarName)                   // `is_const`
    | ConditionEqual(lhs: Pat, rhs: Pat)        // both instantiate to the same class

  /** A rule's right-hand side: a fixed pattern or the programmatic applier. */
  datatype Consequence = Replace(rhs: Pat) | Avoid(applier: CaptureAvoid)

  datatype Rewrite = Rewrite(name: string, searcher: Pat, consequence: Consequence, condition: Condition)

  function CondVars(c: Condition): set<VarName> {
    match c
    case Always => {}
    case NotSameVar(v1, v2) => {v1, v2}
    case IsConstant(v) => {v}
    case ConditionEqual(l, r) => Vars(l) + Vars(r)
  }

  /**
    A rule is scoped when every pattern variable its condition and consequence
    use is bound by a match of its searcher, except the applier's fresh
    variable, which must not clash with a matched one.
   */
  predicate Scoped(rw: Rewrite) {
    var bound := Vars(rw.searcher);
    && WellFormed(rw.searcher)
    && CondVars(rw.condition) <= bound
    && (rw.condition.ConditionEqual? ==>
          WellFormed(rw.condition.lhs) && WellFormed(rw.condition.rhs))
    && match rw.consequence
       case Replace(p) => WellFormed(p) && Vars(p) <= bound
       case Avoid(ca) =>
         && ca.e in bound && ca.v2 in bound && ca.freshVar !in bound
         && WellFormed(ca.ifNotFree) && WellFormed(ca.ifFree)
         && Vars(ca.ifNotFree) <= bound
         && Vars(ca.ifFree) <= bound + {ca.freshVar}
  }

  function PV(name: VarName): Pat {
    PVar(name)
  }

  function PLeaf(op: Lambda): Pat {
    PNode(op, [])
  }

  function VarP(x: Pat): Pat { PNode(Var(0), [x]) }
  function AddP(a: Pat, b: Pat): Pat { PNode(Add(0, 0), [a, b]) }
  function EqP(a: Pat, b: Pat): Pat { PNode(Eq(0, 0), [a, b]) }
  function AppP(a: Pat, b: Pat): Pat { PNode(App(0, 0), [a, b]) }
  function LamP(v: Pat, b: Pat): Pat { PNode(Lam(0, 0), [v, b]) }
  function FixP(v: Pat, b: Pat): Pat { PNode(Fix(0, 0), [v, b]) }
  function LetP(v: Pat, a: Pat, b: Pat): Pat { PNode(Let(0, 0, 0), [v, a, b]) }
  function IfP(c: Pat, t: Pat, e: Pat): Pat { PNode(If(0, 0, 0), [c, t, e]) }

  /** The applier of `let-lam-diff`. */
  function LetLamDiffApplier(): CaptureAvoid {
    CaptureAvoid(
      "?fresh", "?v2", "?e",
      LamP(PV("?v2"), LetP(PV("?v1"), PV("?e"), PV("?body"))),
      LamP(PV("?fresh"), LetP(PV("?v1"), PV("?e"), LetP(PV("?v2"), VarP(PV("?fresh")), PV("?body")))))
  }

  function IfTrue(): (rw: Rewrite)
    ensures Scoped(rw)
  {
    Rewrite("if-true",
            IfP(PLeaf(Bool(true)), PV("?then"), PV("?else")),
            Replace(PV("?then")),
            Always)
  }

  function IfFalse(): (rw: Rewrite)
    ensures Scoped(rw)
  {
    Rewrite("if-false",
            IfP(PLeaf(Bool(false)), PV("?then"), PV("?else")),
            Replace(PV("?else")),
            Always)
  }

  function IfElim(): (rw: Rewrite)
    ensures Scoped(rw)
  {
    Rewrite("if-elim",
            IfP(EqP(VarP(PV("?x")), PV("?e")), PV("?then"), PV("?else")),
            Replace(PV("?else")),
            ConditionEqual(LetP(PV("?x"), PV("?e"), PV("?then")), LetP(PV("?x"), PV("?e"), PV("?else"))))
  }

  function AddComm(): (rw: Rewrite)
    ensures Scoped(rw)
  {
    Rewrite("add-comm",
            AddP(PV("?a"), PV("?b")),
            Replace(AddP(PV("?b"), PV("?a"))),
            Always)
  }

  function AddAssoc(): (rw: Rewrite)
    ensures Scoped(rw)
  {
    Rewrite("add-assoc",
            AddP(AddP(PV("?a"), PV("?b")), PV("?c")),
            Replace(AddP(PV("?a"), AddP(PV("?b"), PV("?c")))),
            Always)
  }

  function EqComm(): (rw: Rewrite)
    ensures Scoped(rw)
  {
    Rewrite("eq-comm",
            EqP(PV("?a"), PV("?b")),
            Replace(EqP(PV("?b"), PV("?a"))),
            Always)
  }

  function FixUnroll(): (rw: Rewrite)
    ensures Scoped(rw)
  {
    Rewrite("fix",
            FixP(PV("?v"), PV("?e")),
            Replace(LetP(PV("?v"), FixP(PV("?v"), PV("?e")), PV("?e"))),
            Always)
  }

  function Beta(): (rw: Rewrite)
    ensures Scoped(rw)
  {
    Rewrite("beta",
            AppP(LamP(PV("?v"), PV("?body")), PV("?e")),
            Replace(LetP(PV("?v"), PV("?e"), PV("?body"))),
            Always)
  }

  function LetApp(): (rw: Rewrite)
    ensures Scoped(rw)
  {
    Rewrite("let-app",
            LetP(PV("?v"), PV("?e"), AppP(PV("?a"), PV("?b"))),
            Replace(AppP(LetP(PV("?v"), PV("?e"), PV("?a")), LetP(PV("?v"), PV("?e"), PV("?b")))),
            Always)
  }

  function LetAdd(): (rw: Rewrite)
    ensures Scoped(rw)
  {
    Rewrite("let-add",
            LetP(PV("?v"), PV("?e"), AddP(PV("?a"), PV("?b"))),
            Replace(AddP(LetP(PV("?v"), PV("?e"), PV("?a")), LetP(PV("?v"), PV("?e"), PV("?b")))),
            Always)
  }

  function LetEq(): (rw: Rewrite)
    ensures Scoped(rw)
  {
    Rewrite("let-eq",
            LetP(PV("?v"), PV("?e"), EqP(PV("?a"), PV("?b"))),
            Replace(EqP(LetP(PV("?v"), PV("?e"), PV("?a")), LetP(PV("?v"), PV("?e"), PV("?b")))),
            Always)
  }

  function LetConst(): (rw: Rewrite)
    ensures Scoped(rw)
  {
    Rewrite("let-const",
            LetP(PV("?v"), PV("?e"), PV("?c")),
            Replace(PV("?c")),
            IsConstant("?c"))
  }

  function LetIf(): (rw: Rewrite)
    ensures Scoped(rw)
  {
    Rewrite("let-if",
            LetP(PV("?v"), PV("?e"), IfP(PV("?cond"), PV("?then"), PV("?else"))),
            Replace(IfP(LetP(PV("?v"), PV("?e"), PV("?cond")),
                      LetP(PV("?v"), PV("?e"), PV("?then")),
                      LetP(PV("?v"), PV("?e"), PV("?else")))),
            Always)
  }

  function LetVarSame(): (rw: Rewrite)
    ensures Scoped(rw)
  {
    Rewrite("let-var-same",
            LetP(PV("?v1"), PV("?e"), VarP(PV("?v1"))),
            Replace(PV("?e")),
            Always)
  }

  function LetVarDiff(): (rw: Rewrite)
    ensures Scoped(rw)
  {
    Rewrite("let-var-diff",
            LetP(PV("?v1"), PV("?e"), VarP(PV("?v2"))),
            Replace(VarP(PV("?v2"))),
            NotSameVar("?v1", "?v2"))
  }

  function LetLamSame(): (rw: Rewrite)
    ensures Scoped(rw)
  {
    Rewrite("let-lam-same",
            LetP(PV("?v1"), PV("?e"), LamP(PV("?v1"), PV("?body"))),
            Replace(LamP(PV("?v1"), PV("?body"))),
            Always)
  }

  function LetLamDiff(): (rw: Rewrite)
    ensures Scoped(rw)
  {
    Rewrite("let-lam-diff",
            LetP(PV("?v1"), PV("?e"), LamP(PV("?v2"), PV("?body"))),
            Avoid(LetLamDiffApplier()),
            NotSameVar("?v1", "?v2"))
  }

  /** Every rule of a table is scoped. */
  predicate AllScoped(rs: seq<Rewrite>) {
    forall i :: 0 <= i < |rs| ==> Scoped(rs[i])
  }

  /** Prepending a scoped rule to a scoped table keeps it scoped. */
  lemma ConsScoped(rw: Rewrite, rs: seq<Rewrite>)
    requires Scoped(rw) && AllScoped(rs)
    ensures AllScoped([rw] + rs)
  {
  }

  /**
    `rules()`, in order: the open term rules, then the substitution rules.
    The table is assembled from the back so that each step adds one rule
    whose scoping its own function has proved.
   */
  function Rules(): (rs: seq<Rewrite>)
    ensures |rs| == 17
    ensures AllScoped(rs)
  {
    var t0: seq<Rewrite> := [];
    ConsScoped(LetLamDiff(), t0);
    var t1 := [LetLamDiff()] + t0;
    ConsScoped(LetLamSame(), t1);
    var t2 := [LetLamSame()] + t1;
    ConsScoped(LetVarDiff(), t2);
    var t3 := [LetVarDiff()] + t2;
    ConsScoped(LetVarSame(), t3);
    var t4 := [LetVarSame()] + t3;
    ConsScoped(LetIf(), t4);
    var t5 := [LetIf()] + t4;
    ConsScoped(LetConst(), t5);
    var t6 := [LetConst()] + t5;
    ConsScoped(LetEq(), t6);
    var t7 := [LetEq()] + t6;
    ConsScoped(LetAdd(), t7);
    var t8 := [LetAdd()] + t7;
    ConsScoped(LetApp(), t8);
    var t9 := [LetApp()] + t8;
    ConsScoped(Beta(), t9);
    var t10 := [Beta()] + t9;
    ConsScoped(FixUnroll(), t10);
    var t11 := [FixUnroll()] + t10;
    ConsScoped(EqComm(), t11);
    var t12 := [EqComm()] + t11;
    ConsScoped(AddAssoc(), t12);
    var t13 := [AddAssoc()] + t12;
    ConsScoped(AddComm(), t13);
    var t14 := [AddComm()] + t13;
    ConsScoped(IfElim(), t14);
    var t15 := [IfElim()] + t14;
    ConsScoped(IfFalse(), t15);
    var t16 := [IfFalse()] + t15;
    ConsScoped(IfTrue(), t16);
    [IfTrue()] + t16
  }

  /**
    For a scoped rule with the capture-avoiding applier, whatever branch
    `apply_one` takes, the substitution it passes on binds every variable of
    the chosen pattern and keeps every matched variable's class.
   */
  lemma CaptureAvoidBindsChosenPattern(rw: Rewrite, g: EGraph, eclass: Id, subst: Subst, add: Lambda -> Id)
    requires Scoped(rw) && rw.consequence.Avoid?
    requires Vars(rw.searcher) <= subst.Keys
    requires Live(g, subst[rw.consequence.applier.e])
    ensures var ca := rw.consequence.applier;
            var r := ApplyOne(ca, g, eclass, subst, add);
            && Vars(Chosen(ca, r.branch)) <= r.subst.Keys
            && forall k :: k in Vars(rw.searcher) ==> k in r.subst && r.subst[k] == subst[k]
  {
  }
}
