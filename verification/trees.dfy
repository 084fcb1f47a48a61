/**
  Reference definitions for the analysis. A term is written out as a tree, the
  analysis is run bottom-up over it with `Make` (each subterm in a class of its
  own), and the result is compared with the textbook free variables and with
  the value of the term in unbounded arithmetic.
 */
module Trees {
  import opened Options
  import opened Lang
  import opened Analysis

  /**
    A term as a tree. As in the e-nodes, variables and binders are named by the
    id of the class of their `Symbol`.
   */
  datatype Term =
    | TBool(bv: bool)
    | TNum(n: i32)
    | TSym(name: string)
    | TVar(x: Id)
    | TAdd(a: Term, b: Term)
    | TEq(a: Term, b: Term)
    | TApp(a: Term, b: Term)
    | TLam(x: Id, body: Term)
    | TFix(x: Id, body: Term)
    | TLet(x: Id, bound: Term, body: Term)
    | TIf(c: Term, t: Term, e: Term)

  /** Free variables: `lam`, `fix` and `let` bind `x` in their body only. */
  function FV(t: Term): set<Id> {
    match t
    case TBool(_) => {}
    case TNum(_) => {}
    case TSym(_) => {}
    case TVar(x) => {x}
    case TAdd(a, b) => FV(a) + FV(b)
    case TEq(a, b) => FV(a) + FV(b)
    case TApp(a, b) => FV(a) + FV(b)
    case TLam(x, body) => FV(body) - {x}
    case TFix(x, body) => FV(body) - {x}
    case TLet(x, a, body) => FV(a) + (FV(body) - {x})
    case TIf(c, u, e) => FV(c) + FV(u) + FV(e)
  }

  datatype Value = VInt(i: int) | VBool(b: bool)

  /**
    The value of a closed term of the first-order fragment: literals, `+` on
    integers (unbounded), `=` on any two values and `if` on a boolean. Other
    terms have no value here.
   */
  function ValueOf(t: Term): Option<Value> {
    match t
    case TBool(b) => Some(VBool(b))
    case TNum(n) => Some(VInt(n as int))
    case TAdd(a, b) =>
      (match (ValueOf(a), ValueOf(b))
       case (Some(VInt(x)), Some(VInt(y))) => Some(VInt(x + y))
       case _ => None)
    case TEq(a, b) =>
      (match (ValueOf(a), ValueOf(b))
       case (Some(x), Some(y)) => Some(VBool(x == y))
       case _ => None)
    case TIf(c, u, e) =>
      (match ValueOf(c)
       case Some(VBool(true)) => ValueOf(u)
       case Some(VBool(false)) => ValueOf(e)
       case _ => None)
    case _ => None
  }

  /** The literal `l` stands for the value `v`. */
  predicate Denotes(l: Lambda, v: Value) {
    match l
    case Num(n) => v == VInt(n as int)
    case Bool(b) => v == VBool(b)
    case _ => false
  }

  /** Every integer addition in `t` whose operands have values stays within `i32`. */
  predicate Fits(t: Term) {
    match t
    case TAdd(a, b) =>
      Fits(a) && Fits(b) &&
      (ValueOf(a).Some? && ValueOf(a).value.VInt? && ValueOf(b).Some? && ValueOf(b).value.VInt?
       ==> InI32(ValueOf(a).value.i + ValueOf(b).value.i))
    case TEq(a, b) => Fits(a) && Fits(b)
    case TApp(a, b) => Fits(a) && Fits(b)
    case TLam(_, body) => Fits(body)
    case TFix(_, body) => Fits(body)
    case TLet(_, a, body) => Fits(a) && Fits(body)
    case TIf(c, u, e) => Fits(c) && Fits(u) && Fits(e)
    case _ => true
  }

  /** An e-graph holding the given children's data in classes 0, 1, 2. */
  function Slots(ds: seq<Data>): (g: EGraph)
    ensures forall i :: 0 <= i < |ds| ==> Live(g, i) && DataOf(g, i) == ds[i]
  {
    EGraph(id => id, map i | 0 <= i < |ds| :: ds[i])
  }

  /** `make` of a node without children to read. */
  function MakeLeaf(n: Lambda): (d: Data)
    requires n.Bool? || n.Num? || n.Symbol? || n.Var?
    ensures d.free == if n.Var? then {n.v} else {}
    ensures d.constant == if IsLiteral(n) then Some(n) else None
  {
    Make(Slots([]), n)
  }

  /** `make` of `+`, `=` or `app` whose operands sit in classes 0 and 1. */
  function Pair(n: Lambda, da: Data, db: Data): (d: Data)
    requires n == Add(0, 1) || n == Eq(0, 1) || n == App(0, 1)
    requires n.Add? && da.constant.Some? && da.constant.value.Num? &&
             db.constant.Some? && db.constant.value.Num?
             ==> InI32(da.constant.value.n as int + db.constant.value.n as int)
    ensures d.free == da.free + db.free
    ensures n.Add? ==>
      (d.constant.Some? <==> da.constant.Some? && da.constant.value.Num? &&
                             db.constant.Some? && db.constant.value.Num?)
    ensures n.Add? && d.constant.Some? ==>
      d.constant.value.Num? &&
      d.constant.value.n as int == da.constant.value.n as int + db.constant.value.n as int
    ensures n.Eq? ==> (d.constant.Some? <==> da.constant.Some? && db.constant.Some?)
    ensures n.Eq? && d.constant.Some? ==>
      d.constant.value == Bool(da.constant.value == db.constant.value)
    ensures n.App? ==> d.constant == None
  {
    var g := Slots([da, db]);
    assert Reads(n) == {0, 1};
    Make(g, n)
  }

  /** `make` of `lam x` or `fix x` whose body sits in class 0. */
  function Binder(n: Lambda, body: Data): (d: Data)
    requires (n.Lam? || n.Fix?) && n.body == 0
    ensures d == Data(body.free - {n.v}, None)
  {
    Make(Slots([body]), n)
  }

  /** `make` of `let x` whose bound term and body sit in classes 0 and 1. */
  function LetNode(x: Id, bound: Data, body: Data): (d: Data)
    ensures d == Data((body.free - {x}) + bound.free, None)
  {
    Make(Slots([bound, body]), Let(x, 0, 1))
  }

  /** `make` of `if` whose three children sit in classes 0, 1 and 2. */
  function IfNode(c: Data, u: Data, e: Data): (d: Data)
    ensures d == Data(c.free + u.free + e.free, None)
  {
    var g := Slots([c, u, e]);
    assert Reads(If(0, 1, 2)) == {0, 1, 2};
    var d := Make(g, If(0, 1, 2));
    assert forall x :: x in d.free <==> x in c.free || x in u.free || x in e.free by {
      forall x ensures x in d.free <==> x in c.free || x in u.free || x in e.free {
        if x in c.free { assert 0 in Reads(If(0, 1, 2)); }
        if x in u.free { assert 1 in Reads(If(0, 1, 2)); }
        if x in e.free { assert 2 in Reads(If(0, 1, 2)); }
      }
    }
    d
  }

  /**
    The data `make` gives the root of `t` when every subterm sits in a class
    of its own, computed bottom-up. It agrees with the textbook free variables,
    and a constant it reports is the term's value.
   */
  function Analyze(t: Term): (d: Data)
    requires Fits(t)
    ensures d.free == FV(t)
    ensures d.constant.Some? ==> ValueOf(t).Some? && Denotes(d.constant.value, ValueOf(t).value)
    decreases t, 1
  {
    match t
    case TBool(b) => MakeLeaf(Bool(b))
    case TNum(n) => MakeLeaf(Num(n))
    case TSym(s) => MakeLeaf(Symbol(s))
    case TVar(x) => MakeLeaf(Var(x))
    case TAdd(_, _) => AnalyzePair(t)
    case TEq(_, _) => AnalyzePair(t)
    case TApp(_, _) => AnalyzePair(t)
    case TLam(x, body) => Binder(Lam(x, 0), Analyze(body))
    case TFix(x, body) => Binder(Fix(x, 0), Analyze(body))
    case TLet(x, a, body) => LetNode(x, Analyze(a), Analyze(body))
    case TIf(c, u, e) => IfNode(Analyze(c), Analyze(u), Analyze(e))
  }

  /** `Analyze` of `+`, `=` and `app`. */
  function AnalyzePair(t: Term): (d: Data)
    requires (t.TAdd? || t.TEq? || t.TApp?) && Fits(t)
    ensures d.free == FV(t)
    ensures d.constant.Some? ==> ValueOf(t).Some? && Denotes(d.constant.value, ValueOf(t).value)
    decreases t, 0
  {
    var da, db := Analyze(t.a), Analyze(t.b);
    match t
    case TAdd(_, _) => Pair(Add(0, 1), da, db)
    case TEq(_, _) => Pair(Eq(0, 1), da, db)
    case TApp(_, _) => Pair(App(0, 1), da, db)
  }

  /** Terms built from literals, `+` and `=` only. */
  predicate Arithmetic(t: Term) {
    match t
    case TBool(_) => true
    case TNum(_) => true
    case TAdd(a, b) => Arithmetic(a) && Arithmetic(b)
    case TEq(a, b) => Arithmetic(a) && Arithmetic(b)
    case _ => false
  }

  /**
    On the arithmetic fragment constant folding is complete: every term that
    has a value gets a constant, and (by `Analyze`) it is that value.
   */
  lemma {:induction false} ArithmeticFolds(t: Term)
    requires Arithmetic(t) && Fits(t) && ValueOf(t).Some?
    ensures Analyze(t).constant.Some?
    ensures Denotes(Analyze(t).constant.value, ValueOf(t).value)
  {
    match t
    case TBool(_) =>
    case TNum(_) =>
    case TAdd(a, b) =>
      ArithmeticFolds(a);
      ArithmeticFolds(b);
    case TEq(a, b) =>
      ArithmeticFolds(a);
      ArithmeticFolds(b);
  }
}
