# Lambda-calculus analysis and rewrite rules for egg, in Dafny

This project models the language-specific part of the lambda benchmark in
`src/lambda.rs`. That part plugs into the egg equality-saturation library and
consists of:

- the `Lambda` e-node language: booleans, `i32` numbers, `var`, `+`, `=`,
  `app`, `lam`, `let`, `fix`, `if` and symbols;
- the `LambdaAnalysis` class data: the free variables of a class and its
  folded constant, as computed for a new e-node (`make`, with `eval`) and as
  combined when two classes are unioned (`merge`);
- the side conditions `is_not_same_var` and `is_const`;
- the capture-avoiding applier `CaptureAvoid::apply_one` of the `let-lam-diff`
  rule;
- the rule table `rules()`, as data.

egg itself is not modelled. The e-graph is stood in for by `Analysis.EGraph`,
which pairs a canonicalising `find: Id -> Id` with a `map<Id, Data>` from
canonical ids to class data. `egraph[id]` is `classes[find(id)]`, as in egg.
`egraph.add` is a parameter `add: Lambda -> Id`: the class the engine
hash-conses a node into.

Modules, in dependency order:

- `Options`: Rust's `Option`.
- `Lang`: the `Lambda` enum with an `i32` newtype, `num()`, children and arity.
- `Analysis`: `Data`, `eval`, `make`, `merge`, and what `modify` achieves.
- `Patterns`: egg patterns as trees, and their variables.
- `Conditions`: `is_not_same_var` and `is_const`.
- `Capture`: the fresh name `"_" + eclass` and `apply_one`.
- `RuleSet`: the seventeen rewrites and their scoping.
- `Trees`: reference definitions, meaning textbook free variables and the value
  of a term in unbounded arithmetic. It also proves that `make`, applied
  bottom-up to a term tree, agrees with both.

The merge policy is reproduced as written. Free sets are intersected, not
unioned: the union variant is commented out in the source. The model proves
what this policy gives:

- the merged free set is the greatest common subset of the two;
- after any sequence of merges, a variable is free only if every merged class
  had it free;
- a class unioned with its constant by `modify` ends with no free variables.

## Model

`Conditions.IsConst` is the `is_const` guard itself. Its contract is stated by the `Conditions.IsConstIsClassProperty` and `Conditions.IsConstSurvivesMerge` rows.

| member | source | states |
|---|---|---|
| Lang.AsNum | src/lambda.rs:27-34 | `num()` is `Some` exactly for `Num` nodes, and then carries that node's payload |
| Lang.Children | src/lambda.rs:6-25 | each node kind has its fixed number of child ids (0 for literals and symbols, 1 for `var`, 2 or 3 otherwise) |
| Lang.WithChildren | src/lambda.rs:6-25 | rebuilding a node with new children keeps its operator and payload, and its children are then exactly the ones given |
| Lang.ChildrenRoundTrip | src/lambda.rs:6-25 | rebuilding a node from its own children gives the node back |
| Lang.NodeExtensionality | src/lambda.rs:6-25 | two e-nodes are equal exactly when they have the same operator and payload and the same children, which is the basis of hash-consing |
| Analysis.Eval | src/lambda.rs:47-55 | literals fold to themselves. `+` folds exactly when both children's constants are `Num`, and gives their sum. `=` folds exactly when both children have some constant, and gives whether those constants are equal as values (`Num(1)` vs `Bool(true)` is `false`). Every other kind folds to nothing. Every folded constant is a literal |
| Analysis.Make | src/lambda.rs:74-94 | `var v` has free set `{v}`. `lam`/`fix` have the body's free set minus the binder, so the binder is never free. `let v a b` has `(free(b) \ {v}) ∪ free(a)`, so `v` is free exactly when it is free in `a`. The other kinds have the union of their children's free sets, and leaves have none. The constant is `eval` of the node |
| Analysis.MakeDependsOnlyOnReads | src/lambda.rs:74-94 | `make` reads only the data of its non-binder children: the classes of binders and of `var`'s variable play no part |
| Analysis.Merge | src/lambda.rs:59-72 | the merged free set is contained in both free sets and contains everything free in both, i.e. it is their intersection. A known constant of `to` is never replaced, and a missing one is taken from `from`. The report is `Some(Greater)` exactly when `to` is left unchanged, and `None` otherwise |
| Analysis.MergeShrinks | src/lambda.rs:60-63 | the free set changed exactly when its size dropped, which is how `did_change` is computed |
| Analysis.MergeAll | src/lambda.rs:59-72 | after merging a sequence of classes into one, a variable is free only if it was free in every one of them. The constant is the first one known in merge order: constants are sticky |
| Analysis.LiteralClassStable | src/lambda.rs:74-101 | the class of a literal `c` is made with data `({}, Some(c))`, and keeps exactly that data whatever is later merged into it, so `egraph.add(c)` in `modify` returns a class with that data whether it is new or already existed |
| Analysis.ModifySettles | src/lambda.rs:96-101 | when `modify` unions a class whose constant is `c` with any class whose data is `({}, Some(c))`, whichever way the union merges, the result keeps constant `c` and has no free variables |
| Conditions.IsNotSameVar | src/lambda.rs:108-110 | when the guard holds the two variables are bound to different ids, and it never holds of one variable with itself, so `let-var-diff` and `let-lam-diff` never fire on a `let-var-same`/`let-lam-same` match |
| Conditions.NotSameVarIsClassInequality | src/lambda.rs:108-110 | the guard is irreflexive and symmetric. Rebinding a variable to another id of the same class does not change it |
| Conditions.IsConstIsClassProperty | src/lambda.rs:112-114 | the guard is a property of the class: rebinding the variable to any id of the same class leaves it unchanged |
| Conditions.IsConstSurvivesMerge | src/lambda.rs:112-114 | once `is_const` holds of a class, merging any data into that class keeps it true with the same constant |
| Capture.Decimal | src/lambda.rs:168 | the rendering of the class id is a non-empty string of decimal digits, with no leading zero for a non-zero id |
| Capture.DecimalRoundTrip | src/lambda.rs:168 | reading the rendered digits back gives the class id |
| Capture.FreshName | src/lambda.rs:168 | the fresh name is `_` followed by digits, and its digits read back as `eclass` |
| Capture.FreshNameInjective | src/lambda.rs:168 | two classes get the same fresh name exactly when they are the same class |
| Capture.ApplyOne | src/lambda.rs:162-174 | the `if_free` branch is taken exactly when `v2`'s class is in the free set of `e`'s class. That branch adds to the substitution only `?fresh`, bound to the class of the symbol `"_" + eclass`, and keeps every other binding. Otherwise the substitution is passed on unchanged |
| Capture.FreshSymbolDependsOnlyOnClass | src/lambda.rs:163-170 | in the renaming branch, `?fresh` is bound to the class `egraph.add` gives the symbol `"_" + eclass`, and two applications hand `add` the same symbol exactly when they rewrite the same class: the fresh symbol depends only on `eclass` |
| RuleSet.IfTrue | src/lambda.rs:119 | `if-true` is scoped: its right-hand side uses only variables its searcher binds |
| RuleSet.IfFalse | src/lambda.rs:120 | `if-false` is scoped |
| RuleSet.IfElim | src/lambda.rs:121-122 | `if-elim` is scoped, including both patterns of its `ConditionEqual` guard |
| RuleSet.AddComm | src/lambda.rs:123 | `add-comm` is scoped |
| RuleSet.AddAssoc | src/lambda.rs:124 | `add-assoc` is scoped |
| RuleSet.EqComm | src/lambda.rs:125 | `eq-comm` is scoped |
| RuleSet.FixUnroll | src/lambda.rs:127 | `fix` is scoped |
| RuleSet.Beta | src/lambda.rs:128 | `beta` is scoped |
| RuleSet.LetApp | src/lambda.rs:129 | `let-app` is scoped |
| RuleSet.LetAdd | src/lambda.rs:130 | `let-add` is scoped |
| RuleSet.LetEq | src/lambda.rs:131 | `let-eq` is scoped |
| RuleSet.LetConst | src/lambda.rs:132-133 | `let-const` is scoped, and its `is_const` guard names a searcher variable |
| RuleSet.LetIf | src/lambda.rs:134-137 | `let-if` is scoped |
| RuleSet.LetVarSame | src/lambda.rs:138 | `let-var-same` is scoped |
| RuleSet.LetVarDiff | src/lambda.rs:139-140 | `let-var-diff` is scoped, and its `is_not_same_var` guard names searcher variables |
| RuleSet.LetLamSame | src/lambda.rs:141 | `let-lam-same` is scoped |
| RuleSet.LetLamDiff | src/lambda.rs:142-149 | `let-lam-diff` is scoped. Its applier's `e` and `v2` are searcher variables. `?fresh` is not one. `if_not_free` uses only searcher variables, and `if_free` uses only those and `?fresh` |
| RuleSet.Rules | src/lambda.rs:116-151 | every rule of `rules()` is scoped, seventeen in all |
| RuleSet.CaptureAvoidBindsChosenPattern | src/lambda.rs:142-149 | for a match of a scoped capture-avoiding rule, whichever branch `apply_one` takes, its substitution binds every variable of the chosen pattern. Every matched variable keeps its class, so instantiating the pattern cannot hit an unbound variable |
| Trees.MakeLeaf | src/lambda.rs:78-80 | a `var v` node has free set `{v}`. Literals and symbols have none. Literals are their own constant |
| Trees.Pair | src/lambda.rs:90 | for `+`, `=` and `app` over two classes, the free set is the union of the operands' free sets, and the constant folds as `eval` prescribes |
| Trees.Binder | src/lambda.rs:86-89 | `lam x`/`fix x` over a body class has the body's free set minus `x`, and no constant |
| Trees.LetNode | src/lambda.rs:81-85 | `let x` has the body's free set minus `x`, plus the bound term's free set, and no constant |
| Trees.IfNode | src/lambda.rs:90 | `if` has the union of its three children's free sets, and no constant |
| Trees.Analyze | src/lambda.rs:74-94 | applied bottom-up to any term tree, `make` computes exactly the textbook free variables. Any constant it reports is the term's value in unbounded arithmetic |
| Trees.AnalyzePair | src/lambda.rs:47-55 | the same agreement for `+`, `=` and `app` nodes, including that a folded sum or equality is the value of the term |
| Trees.ArithmeticFolds | src/lambda.rs:47-55 | for terms built from literals, `+` and `=` that have a value, constant folding always finds a constant, and it is that value (for example `2 + 2` folds to `4`, and `3 = 3` to `true`) |

## Left out

- The egg engine: union-find, hash-consing, congruence closure, pattern matching and the saturation `Runner`. These are an external library. `find` and the class data are fields of `Analysis.EGraph`, and `egraph.add` is the parameter `add`.
- `modify` as a graph mutation (`egraph.add` and `egraph.union`). Only its effect on class data is stated, by `Analysis.ModifySettles`.
- `Pattern::apply_one`, the instantiation of a pattern into the e-graph, and the `Vec<Id>` that `CaptureAvoid::apply_one` returns. `Capture.ApplyOne` returns the branch taken and the substitution that instantiation receives.
- The evaluation of the `if-elim` guard `ConditionEqual`: it instantiates two patterns and compares their classes inside the engine. The rule table records only its patterns.
- `var` and every `.parse().unwrap()` of pattern and seed text. This is egg's S-expression parser, and a malformed pattern is a startup panic. Patterns are written as values instead.
- The benchmark plumbing `lambda_bench_meta`, `bench_pats` and the two seed programs. These are data for a harness.
- Analysis.Eval: an overflowing `+` is excluded by the precondition `SumFits`, not modelled. Rust panics on it in a debug build and wraps in a release build. The numbers themselves are the bounded newtype `i32`.
- Analysis.Eval: requires both operands of `+` and `=` to be live classes, although Rust stops reading after the first operand's constant turns out to be missing. egg only hands out live class ids, so the two agree on every call the engine makes.
- Capture.ApplyOne: the fresh symbol's class is `add(symbol)` for a fixed function `add`. The model does not capture that `egraph.add` may create a new class and so change the e-graph.
- Capture.FreshSymbolDependsOnlyOnClass: states that the symbol node handed to `egraph.add` depends only on `eclass`. The class id `add` returns also depends on the e-graph, which the fixed function `add` does not capture.
- `HashSet` iteration order and `Symbol` interning. Free sets are `set<Id>` and symbol names are plain strings.
