/**
  egg's `Pattern`: a tree whose leaves may be pattern variables and whose inner
  nodes are e-node shapes of the language. Matching and instantiation belong to
  the engine; the model only needs a pattern's variables.
 */
module Patterns {
  import opened Lang

  /** A pattern variable, written with its leading `?` as in egg (`"?v1"`). */
  type VarName = string

  /** egg's `Subst`: the e-class each pattern variable was matched to. */
  type Subst = map<VarName, Id>

  /**
    `PNode(op, args)` is the operator of `op` applied to the sub-patterns `args`;
    the child ids stored in `op` itself are placeholders.
   */
  datatype Pat = PVar(name: VarName) | PNode(op: Lambda, args: seq<Pat>)

  /** Every node has as many sub-patterns as its operator has children. */
  predicate WellFormed(p: Pat) {
    match p
    case PVar(_) => true
    case PNode(op, args) => |args| == Arity(op) && AllWellFormed(args)
  }

  predicate AllWellFormed(ps: seq<Pat>) {
    |ps| == 0 || (WellFormed(ps[0]) && AllWellFormed(ps[1..]))
  }

  /** The pattern variables occurring in a pattern. */
  function Vars(p: Pat): set<VarName> {
    match p
    case PVar(v) => {v}
    case PNode(_, args) => VarsOf(args)
  }

  function VarsOf(ps: seq<Pat>): set<VarName> {
    if |ps| == 0 then {} else Vars(ps[0]) + VarsOf(ps[1..])
  }
}
