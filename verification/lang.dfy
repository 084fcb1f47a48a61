/**
  The term language of the lambda benchmark: one e-node kind per constructor.
  Every child of an e-node is the id of an e-class owned by the e-graph, so the
  datatype is flat — recursion only happens through the e-graph's classes.
 */
module Lang {
  import opened Options

  /** An e-class id. egg's `Id` is an unsigned integer; the model leaves it unbounded. */
  type Id = nat

  const I32_MIN: int := -0x8000_0000
  const I32_MAX: int := 0x7FFF_FFFF

  /** Rust's `i32`, the payload of `Num`. */
  newtype i32 = x: int | I32_MIN <= x <= I32_MAX

  predicate InI32(x: int) {
    I32_MIN <= x <= I32_MAX
  }

  /**
    The e-node kinds. `Lam` is the `"lam"` operator (the Rust variant is called
    `Lambda`, like the enum). Binder positions (`v`) hold the id of the class of
    the bound variable's `Symbol`, and `Var(v)` refers to such a class.
   */
  datatype Lambda =
    | Bool(b: bool)
    | Num(n: i32)
    | Var(v: Id)
    | Add(l: Id, r: Id)
    | Eq(l: Id, r: Id)
    | App(fun: Id, arg: Id)
    | Lam(v: Id, body: Id)
    | Let(v: Id, bound: Id, body: Id)
    | Fix(v: Id, body: Id)
    | If(cond: Id, thn: Id, els: Id)
    | Symbol(name: string)

  /** The literals: the only nodes constant folding produces. */
  predicate IsLiteral(l: Lambda) {
    l.Num? || l.Bool?
  }

  /** `Lambda::num`: the integer payload of a `Num` node, if it is one. */
  function AsNum(l: Lambda): (r: Option<i32>)
    ensures r.Some? <==> l.Num?
    ensures r.Some? ==> l == Num(r.value)
  {
    match l
    case Num(n) => Some(n)
    case _ => None
  }

  /** Number of child ids, fixed per operator by `define_language!`. */
  function Arity(l: Lambda): nat {
    match l
    case Bool(_) => 0
    case Num(_) => 0
    case Symbol(_) => 0
    case Var(_) => 1
    case Add(_, _) => 2
    case Eq(_, _) => 2
    case App(_, _) => 2
    case Lam(_, _) => 2
    case Fix(_, _) => 2
    case Let(_, _, _) => 3
    case If(_, _, _) => 3
  }

  /** Same operator and same non-child payload (egg's `Language::matches`). */
  predicate Matches(x: Lambda, y: Lambda) {
    match x
    case Bool(b) => y == Bool(b)
    case Num(n) => y == Num(n)
    case Symbol(s) => y == Symbol(s)
    case Var(_) => y.Var?
    case Add(_, _) => y.Add?
    case Eq(_, _) => y.Eq?
    case App(_, _) => y.App?
    case Lam(_, _) => y.Lam?
    case Fix(_, _) => y.Fix?
    case Let(_, _, _) => y.Let?
    case If(_, _, _) => y.If?
  }

  /** The children in the order `for_each` visits them (array order). */
  function Children(l: Lambda): (cs: seq<Id>)
    ensures |cs| == Arity(l)
  {
    match l
    case Bool(_) => []
    case Num(_) => []
    case Symbol(_) => []
    case Var(v) => [v]
    case Add(a, b) => [a, b]
    case Eq(a, b) => [a, b]
    case App(a, b) => [a, b]
    case Lam(v, a) => [v, a]
    case Fix(v, a) => [v, a]
    case Let(v, a, b) => [v, a, b]
    case If(c, t, e) => [c, t, e]
  }

  /** The node with the same operator and payload and the given children. */
  function WithChildren(l: Lambda, cs: seq<Id>): (r: Lambda)
    requires |cs| == Arity(l)
    ensures Matches(l, r) && Matches(r, l)
    ensures Children(r) == cs
  {
    match l
    case Bool(_) => l
    case Num(_) => l
    case Symbol(_) => l
    case Var(_) => Var(cs[0])
    case Add(_, _) => Add(cs[0], cs[1])
    case Eq(_, _) => Eq(cs[0], cs[1])
    case App(_, _) => App(cs[0], cs[1])
    case Lam(_, _) => Lam(cs[0], cs[1])
    case Fix(_, _) => Fix(cs[0], cs[1])
    case Let(_, _, _) => Let(cs[0], cs[1], cs[2])
    case If(_, _, _) => If(cs[0], cs[1], cs[2])
  }

  /** Rebuilding a node from its own children gives the node back. */
  lemma ChildrenRoundTrip(l: Lambda)
    ensures WithChildren(l, Children(l)) == l
  {
  }

  /** Two nodes are equal exactly when they match and have the same children. */
  lemma NodeExtensionality(x: Lambda, y: Lambda)
    ensures x == y <==> Matches(x, y) && Children(x) == Children(y)
  {
    if Matches(x, y) && Children(x) == Children(y) {
      ChildrenRoundTrip(x);
      ChildrenRoundTrip(y);
      assert WithChildren(x, Children(y)) == y;
    }
  }
}
