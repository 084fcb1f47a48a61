/**
  `LambdaAnalysis`: the per-e-class data (free variables and folded constant),
  how it is computed for a new e-node (`make`), and how two classes' data are
  combined when the e-graph unions them (`merge`).

  The e-graph itself is not modelled. It is stood in for by `EGraph`: a
  canonicalising `find` and the map from canonical ids to class data. egg's
  `egraph[id]` reads `classes[find(id)]`, and so does `DataOf`.
 */
module Analysis {
  import opened Options
  import opened Lang

  /** `Data`: the set of free variables (ids of `Symbol` classes) and the constant, if known. */
  datatype Data = Data(free: set<Id>, constant: Option<Lambda>)

  /** The part of the e-graph the analysis reads. */
  datatype EGraph = EGraph(find: Id -> Id, classes: map<Id, Data>)

  /** `std::cmp::Ordering`, used by `merge` as a change report. */
  datatype Ordering = Less | Equal | Greater

  /** What `merge` leaves in `to`, and what it returns. */
  datatype Merged = Merged(to: Data, report: Option<Ordering>)

  predicate Live(g: EGraph, id: Id) {
    g.find(id) in g.classes
  }

  predicate AllLive(g: EGraph, ids: set<Id>) {
    forall c :: c in ids ==> Live(g, c)
  }

  /** `egraph[id].data` */
  function DataOf(g: EGraph, id: Id): Data
    requires Live(g, id)
  {
    g.classes[g.find(id)]
  }

  function FreeOf(g: EGraph, id: Id): set<Id>
    requires Live(g, id)
  {
    DataOf(g, id).free
  }

  function ConstOf(g: EGraph, id: Id): Option<Lambda>
    requires Live(g, id)
  {
    DataOf(g, id).constant
  }

  /** The classes whose constant `eval` may read. */
  function Operands(n: Lambda): set<Id> {
    match n
    case Add(a, b) => {a, b}
    case Eq(a, b) => {a, b}
    case _ => {}
  }

  /**
    The classes whose data `make` reads. Binder positions and the child of `Var`
    are never read: their own free sets play no part.
   */
  function Reads(n: Lambda): set<Id> {
    match n
    case Var(_) => {}
    case Let(_, a, b) => {a, b}
    case Lam(_, a) => {a}
    case Fix(_, a) => {a}
    case _ => set c | c in Children(n)
  }

  /**
    Folding `Add` must stay within `i32`: the Rust `+` panics on overflow in a
    debug build. Callers of `eval` are required not to reach that case.
   */
  predicate SumFits(g: EGraph, n: Lambda)
    requires AllLive(g, Operands(n))
  {
    n.Add? && ConstOf(g, n.l).Some? && ConstOf(g, n.r).Some? &&
    ConstOf(g, n.l).value.Num? && ConstOf(g, n.r).value.Num?
    ==> InI32(ConstOf(g, n.l).value.n as int + ConstOf(g, n.r).value.n as int)
  }

  /** `eval`: constant folding of one e-node from its children's constants. */
  function Eval(g: EGraph, n: Lambda): (r: Option<Lambda>)
    requires AllLive(g, Operands(n)) && SumFits(g, n)
    ensures r.Some? ==> IsLiteral(r.value)
    ensures IsLiteral(n) ==> r == Some(n)
    ensures n.Add? ==>
      (r.Some? <==> ConstOf(g, n.l).Some? && AsNum(ConstOf(g, n.l).value).Some? &&
                    ConstOf(g, n.r).Some? && AsNum(ConstOf(g, n.r).value).Some?)
    ensures n.Add? && r.Some? ==>
      r.value.Num? &&
      r.value.n as int == ConstOf(g, n.l).value.n as int + ConstOf(g, n.r).value.n as int
    ensures n.Eq? ==> (r.Some? <==> ConstOf(g, n.l).Some? && ConstOf(g, n.r).Some?)
    ensures n.Eq? && r.Some? ==>
      r.value == Bool(ConstOf(g, n.l).value == ConstOf(g, n.r).value)
    ensures !(IsLiteral(n) || n.Add? || n.Eq?) ==> r == None
  {
    match n
    case Num(_) => Some(n)
    case Bool(_) => Some(n)
    case Add(a, b) =>
      (match (ConstOf(g, a), ConstOf(g, b))
       case (Some(Num(x)), Some(Num(y))) => Some(Num((x as int + y as int) as i32))
       case _ => None)
    case Eq(a, b) =>
      (match (ConstOf(g, a), ConstOf(g, b))
       case (Some(x), Some(y)) => Some(Bool(x == y))
       case _ => None)
    case _ => None
  }

  /** `make`: the data of a class created for the e-node `n`. */
  function Make(g: EGraph, n: Lambda): (d: Data)
    requires AllLive(g, Reads(n)) && SumFits(g, n)
    ensures n.Var? ==> d.free == {n.v}
    ensures n.Lam? || n.Fix? ==> d.free == FreeOf(g, n.body) - {n.v}
    ensures n.Lam? || n.Fix? ==> n.v !in d.free
    ensures n.Let? ==> d.free == (FreeOf(g, n.body) - {n.v}) + FreeOf(g, n.bound)
    ensures n.Let? ==> (n.v in d.free <==> n.v in FreeOf(g, n.bound))
    ensures !(n.Var? || n.Lam? || n.Fix? || n.Let?) ==>
      forall x :: x in d.free <==> exists c :: c in Reads(n) && x in FreeOf(g, c)
    ensures IsLiteral(n) || n.Symbol? ==> d.free == {}
    ensures d.constant == Eval(g, n)
  {
    var free :=
      match n
      case Var(v) => {v}
      case Let(v, a, b) => (FreeOf(g, b) - {v}) + FreeOf(g, a)
      case Lam(v, a) => FreeOf(g, a) - {v}
      case Fix(v, a) => FreeOf(g, a) - {v}
      case Add(a, b) => FreeOf(g, a) + FreeOf(g, b)
      case Eq(a, b) => FreeOf(g, a) + FreeOf(g, b)
      case App(a, b) => FreeOf(g, a) + FreeOf(g, b)
      case If(c, t, e) => FreeOf(g, c) + FreeOf(g, t) + FreeOf(g, e)
      case _ => {};
    Data(free, Eval(g, n))
  }

  /**
    `make` depends on nothing but the data of the classes in `Reads(n)`: in
    particular not on the class of a binder or of the variable of `Var`.
   */
  lemma MakeDependsOnlyOnReads(g1: EGraph, g2: EGraph, n: Lambda)
    requires AllLive(g1, Reads(n)) && AllLive(g2, Reads(n))
    requires forall c :: c in Reads(n) ==> DataOf(g1, c) == DataOf(g2, c)
    requires SumFits(g1, n)
    ensures SumFits(g2, n)
    ensures Make(g1, n) == Make(g2, n)
  {
  }

  /** A subset is no larger than its superset, and equally large only when equal. */
  lemma SubsetSize<T>(a: set<T>, b: set<T>)
    requires a <= b
    ensures |a| <= |b|
    ensures |a| == |b| ==> a == b
  {
    assert |b - a| == |b| - |a|;
    if |a| == |b| {
      assert b - a == {};
    }
  }

  /**
    `merge`: the free sets are intersected (`retain`, not `extend`), a known
    constant of `to` is kept, and the report is `Some(Greater)` exactly when
    `to` did not change.
   */
  function Merge(to: Data, from: Data): (m: Merged)
    ensures m.to.free <= to.free && m.to.free <= from.free
    ensures forall x :: x in to.free && x in from.free ==> x in m.to.free
    ensures to.constant.Some? ==> m.to.constant == to.constant
    ensures to.constant.None? ==> m.to.constant == from.constant
    ensures m.report == Some(Greater) <==> m.to == to
    ensures m.report == None || m.report == Some(Greater)
  {
    var before := |to.free|;
    var kept := set i | i in to.free && i in from.free;
    var didChange := before != |kept|;
    SubsetSize(kept, to.free);
    if to.constant.None? && from.constant.Some? then
      Merged(Data(kept, from.constant), None)
    else if didChange then
      Merged(Data(kept, to.constant), None)
    else
      Merged(Data(kept, to.constant), Some(Greater))
  }

  /** The free set reported changed exactly when it lost an element. */
  lemma MergeShrinks(to: Data, from: Data)
    ensures Merge(to, from).to.free != to.free <==> |Merge(to, from).to.free| < |to.free|
  {
    SubsetSize(Merge(to, from).to.free, to.free);
  }

  /** The first constant known along `to` and then `froms`, in merge order. */
  function FirstKnown(to: Data, froms: seq<Data>): Option<Lambda>
    decreases |froms|
  {
    if to.constant.Some? || |froms| == 0 then to.constant
    else FirstKnown(froms[0], froms[1..])
  }

  /**
    The data of a class after `froms` have been merged into it one by one:
    a variable stays free only if every merged class had it free, and the
    constant is the first one known (constants are never replaced).
   */
  function MergeAll(to: Data, froms: seq<Data>): (d: Data)
    ensures forall x :: x in d.free <==>
      x in to.free && forall i :: 0 <= i < |froms| ==> x in froms[i].free
    ensures d.constant == FirstKnown(to, froms)
    decreases |froms|
  {
    if |froms| == 0 then to
    else MergeAll(Merge(to, froms[0]).to, froms[1..])
  }

  /**
    The class of a literal `c` has data `({}, Some(c))`: `make` gives it that
    data when the node is first added, and every later merge into it keeps
    it, as does merging it into a class with no constant or with `c`.
   */
  lemma LiteralClassStable(g: EGraph, c: Lambda, other: Data)
    requires IsLiteral(c)
    ensures Make(g, c) == Data({}, Some(c))
    ensures Merge(Data({}, Some(c)), other).to == Data({}, Some(c))
    ensures other.constant.None? || other.constant == Some(c) ==>
      Merge(other, Data({}, Some(c))).to == Data({}, Some(c))
  {
  }

  /**
    `modify`: a class whose constant `c` is known is unioned with the class
    `egraph.add(c)` returns, whose data `dc` is `({}, Some(c))` whether the
    class is new or already existed (see `LiteralClassStable`). Whichever side
    the engine merges into, the class ends with the constant `c` and, because
    free sets are intersected with the literal's empty one, no free variables.
   */
  lemma ModifySettles(d: Data, dc: Data, c: Lambda)
    requires d.constant == Some(c)
    requires dc.free == {} && dc.constant == Some(c)
    ensures Merge(d, dc).to == Data({}, Some(c))
    ensures Merge(dc, d).to == Data({}, Some(c))
  {
  }
}
