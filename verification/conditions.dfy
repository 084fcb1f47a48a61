/**
  The two side conditions the rewrite rules use, as predicates over the e-graph
  stand-in and a match's substitution (pattern variable to e-class id).
 */
module Conditions {
  import opened Lang
  import opened Analysis
  import opened Patterns

  /**
    `is_not_same_var`: the two variables are bound to different e-classes.
    Indexing a `Subst` at an unbound variable panics, hence the `requires`.
    When it holds the two bound ids differ, so `let-var-diff` and
    `let-lam-diff` never fire on a match that `let-var-same` or
    `let-lam-same` (which repeat `?v1`) could also make.
   */
  function IsNotSameVar(g: EGraph, subst: Subst, v1: VarName, v2: VarName): (r: bool)
    requires v1 in subst && v2 in subst
    ensures r <==> g.find(subst[v1]) != g.find(subst[v2])
    ensures r ==> subst[v1] != subst[v2]
    ensures v1 == v2 ==> !r
  {
    g.find(subst[v1]) != g.find(subst[v2])
  }

  /**
    The guard is irreflexive and symmetric, and depends on the bound ids only
    through `find`: binding either variable to another id of the same class
    does not change it.
   */
  lemma NotSameVarIsClassInequality(g: EGraph, subst: Subst, v1: VarName, v2: VarName, other: Id)
    requires v1 in subst && v2 in subst
    requires g.find(other) == g.find(subst[v2])
    ensures !IsNotSameVar(g, subst, v1, v1)
    ensures IsNotSameVar(g, subst, v1, v2) == IsNotSameVar(g, subst, v2, v1)
    ensures IsNotSameVar(g, subst, v1, v2) == IsNotSameVar(g, subst[v2 := other], v1, v2)
  {
  }

  /** `is_const`: the class bound to `v` has a known constant. */
  function IsConst(g: EGraph, subst: Subst, v: VarName): (r: bool)
    requires v in subst && Live(g, subst[v])
    ensures r <==> ConstOf(g, subst[v]).Some?
  {
    DataOf(g, subst[v]).constant.Some?
  }

  /**
    `is_const` is a property of the class, not of the id the match bound:
    rebinding `v` to any id of the same class does not change it.
   */
  lemma IsConstIsClassProperty(g: EGraph, subst: Subst, v: VarName, other: Id)
    requires v in subst && Live(g, subst[v])
    requires g.find(other) == g.find(subst[v])
    ensures Live(g, other)
    ensures IsConst(g, subst[v := other], v) == IsConst(g, subst, v)
  {
  }

  /**
    Once `is_const` holds of a class it keeps holding, whatever is merged into
    it later, and the constant stays the same: `let-const` never fires on a
    constant that is later withdrawn.
   */
  lemma IsConstSurvivesMerge(g: EGraph, subst: Subst, v: VarName, from: Data)
    requires v in subst && Live(g, subst[v])
    requires IsConst(g, subst, v)
    ensures var c := g.find(subst[v]);
            var g' := EGraph(g.find, g.classes[c := Merge(g.classes[c], from).to]);
            IsConst(g', subst, v) && ConstOf(g', subst[v]) == ConstOf(g, subst[v])
  {
  }
}
