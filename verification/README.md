# Epiphany: a verified model of the calculation engine

Epiphany answers queries over multidimensional cubes: finite dimensions with weighted
hierarchies, a sparse store of leaf values, rules that derive cells from other cells, and
rollups that pull every leaf back through the same evaluator. This project models the parts
whose correctness spans many functions, and proves what they promise each other.

Read the files in this order.

| file | what it is about |
|---|---|
| `FixedPoint.dfy` | rule arithmetic on 64-bit fixed point, rounded half to even |
| `CubeModel.dfy` | dimensions, cubes, compiled rules, the registry, overlays and masks |
| `Rollups.dfy`, `RollupSums.dfy` | the dense mixed-radix walk and the sparse scan, and their exact sums |
| `Semantics.dfy` | what a cell means: one step through a reader, then the recursion over the stack of cells being computed |
| `Evaluation.dfy` | the theorems about that recursion: extensionality, values under ancestors, depth, cycles |
| `Engine.dfy` | the recursive evaluator with its memo, and the resolver with one memo per thread |
| `Walks.dfy` | the streaming coordinate walk, the counted product, the search by decoding |
| `Feeders.dfy`, `FeederSoundness.dfy` | inference of the leaves rules can make non-zero, and why it misses none |
| `Gate.dfy`, `Sparse.dfy` | validation against the dense truth, the license it grants, and why licensed reads are dense reads |
| `CellMeaning.dfy` | what one step gives, said without running it: exact arithmetic, nested weighted sums, the first failure |
| `Reads.dfy` | reads under an element mask and under what-if overlays |
| `RuleSource.dfy`, `Compile.dfy`, `NamedMeaning.dfy`, `Registry.dfy` | the rule language read by name, what of it compiles, its compilation to positions and ordinals, what the result computes, and the registry built from it |
| `Explain.dfy` | provenance traces |
| `ViewCache.dfy`, `References.dfy`, `CacheProtocol.dfy`, `Freshness.dfy` | the bounded cache pool, the cubes a key depends on, and freshness of versions and of values under every interleaving |
| `OptimisticCommit.dfy` | resolve, commit and retry under contention |
| `GridFlags.dfy` | the flag grid computed with one reused scratch coordinate |
| `Coalescer.dfy` | the Excel add-in's coalesced reads |

The lemma everything in the engine turns on is `Evaluation.ValueUnderAncestors`: a cell that has
a value when nothing is being computed has the same value under any stack of cells that really
depend on it. A consulted ancestor that consulted it back could never have had a value. The memo
(`Engine.CalcEngine.Value`) and the sparse rollup (`Sparse.SparseIsDense`) both rest on it.

What a cell means is first a function (`Semantics.Compute`), which the engine is proved to follow.
That function is in turn proved equal to rules that do not run it: `CellMeaning.ComputeMeans` says
exactly which value and exactly which failure a step gives, `CellMeaning.RollupIsTotal` that a
consolidation is the weighted sum of its leaves, `NamedMeaning.CompiledIsExact` what a written formula
computes once compiled, and `Compile.FormulaLowers` which formulas compile and why others do not.

Loops and mutable state of the program are loops and classes here: `CalcEngine`, `CellResolver`,
`CoordWalk`, `Pool`, `ViewCache`, `ReadQueue`, `Server`, the inference fixpoint, the compiler's
selector walk, the explain walk and the grid walk. Each is proved against a function or predicate
of its inputs, and the theorems are stated about those. Protocols are state machines over their
atomic steps, and their theorems range over every run.

Parameters stand for what the code cannot see or decide: the order in which a hash map is
enumerated (`Cube.scan`), what other writers commit and when (`Others`), what the server answers
(`Server` in `Coalescer.dfy`), and the rules a cube has at each version (`Config`). Of the
transactional engine only this is used: versions of a cube only grow, one version is one content,
and a commit with a stale base is refused.

## Where the code does less than its comments say

* `input_potent` looks for an input's leaves before it looks for a rule that overrides the input.
  A rule reading an overridden consolidation without leaves is therefore under-fed
  (`ChildlessOverrideIsMissed`); `OverriddenInput` says exactly which overridden inputs are seen, and
  `InferenceSound` holds where no analysable rule, where it fires, reads one that is not, its own
  override included if it has a choice (`ConditionalSelfOverrideIsMissed`). The gate still catches
  the case, so `SparseIsDense` needs no such hypothesis.
* `cross_cube_dep_versions` keys only the cubes the target's own rules name. Exactly those are
  always fresh (`FreshIffNamed`); full freshness needs the named set to be closed under naming
  (`ReturnedIsFresh` for the versions read, `ReturnedValuesAreFresh` for the values).
* `collect_condition_cells` ignores short-circuiting, so explaining a cell can fail although the
  cell has a value (`ShortCircuitHidesFailure`). It fails exactly when a skipped cell within the
  levels asked for fails (`ExplainableIffNoneSkippedFails`); what the evaluator read never stands
  in the way.
* `put_rules` passes the version it read as the base of its commit, and that is no base at all when
  the cube did not exist yet. A source can then be stored unchecked (`SafeIffPresent`).
* A copied slot stands at its own position only because dimension names are distinct within a cube,
  which constructing a cube does not check (`AlignedIffDistinct`).
* The pool adds charges with saturation and subtracts them exactly; the two agree below a budget of
  the largest machine word and not at it (`ChargesAreExact`).

## Model

| member | source | states |
|---|---|---|
| FixedPoint.RoundsHalfEven | crates/epiphany-calc/src/eval.rs:636-655 | rounded division is a nearest integer to the exact quotient, and an even one on a tie, for all signs |
| FixedPoint.HalfEvenIsUnique | crates/epiphany-calc/src/eval.rs:635-655 | no other integer meets that contract, so the rounding is the only half-even one |
| FixedPoint.ArithIsExact | crates/epiphany-calc/src/eval.rs:601-634 | an operation fails exactly on a zero divisor or when the correctly rounded exact result leaves 64 bits, and is otherwise that result; the 128-bit intermediate never overflows |
| FixedPoint.NegateIsExact | crates/epiphany-calc/src/eval.rs:484-490 | negation gives the opposite value, and overflows exactly at the most negative one |
| FixedPoint.CompareIsSign | crates/epiphany-calc/src/eval.rs:590-599 | a comparison holds exactly when the sign of the difference is one it accepts |
| CubeModel.FirstMatch | crates/epiphany-calc/src/compiled.rs:25-34 | the rule that fires is the first in author order whose area holds the coordinate; none fires exactly when no area does |
| Rollups.Digits | crates/epiphany-core/src/cube.rs:1475-1491 | every number below the product of the lengths decodes to in-range positions |
| Rollups.DigitsOfUndigits | crates/epiphany-calc/src/feeders.rs:671-690 | decoding inverts encoding: every position vector is reached |
| Rollups.UndigitsOfDigits | crates/epiphany-calc/src/feeders.rs:671-690 | encoding inverts decoding: no position vector is reached twice |
| Rollups.CheckedFromNone | crates/epiphany-calc/src/feeders.rs:660-668 | the checked product refuses exactly the lists of which some prefix product leaves the machine word, even when a later empty dimension makes the whole product zero |
| Rollups.Decode | crates/epiphany-core/src/cube.rs:1475-1491 | the in-place remainder loop yields the leaf coordinate and the net weight the number stands for |
| RollupSums.DenseIsExact | crates/epiphany-core/src/cube.rs:1443-1492 | the dense walk visits each contributing leaf coordinate exactly once, with the product of its net weights, and visits nothing else |
| RollupSums.SparseIsExact | crates/epiphany-core/src/cube.rs:1566-1587 | the scan counts each stored or fed coordinate that contributes exactly once, with the same weight, however often and in whatever order it is listed |
| RollupSums.SumOfPart | crates/epiphany-core/src/cube.rs:1505-1509 | two duplicate-free item lists have one sum when the second leaves out only items worth zero, whatever their order |
| RollupSums.DenseOrder | crates/epiphany-core/src/cube.rs:1475-1491 | the dense walk takes the leaves in the order that compares the last dimension first |
| RollupSums.DenseFails | crates/epiphany-core/src/cube.rs:1478-1488 | a dense sum fails exactly as the first failing leaf in that order does |
| RollupSums.SparseFails | crates/epiphany-core/src/cube.rs:1566-1587 | a sparse sum fails exactly as the first scanned leaf of the rollup that fails |
| CellMeaning.OpIsArith | crates/epiphany-calc/src/eval.rs:601-634 | an operation gives a value exactly when exact arithmetic, rounded half to even, gives it within 64 bits, and fails for exactly the two reasons there are |
| CellMeaning.ExprMeans | crates/epiphany-calc/src/eval.rs:466-511 | a formula evaluates to exactly the value, or fails with exactly the first failure, that exact arithmetic on the cells its slots address gives: branches not taken count for nothing, a missing branch for zero, an attribute that is missing or no number for zero |
| CellMeaning.CondMeans | crates/epiphany-calc/src/eval.rs:537-553 | the same of conditions, whose second half counts only where the first does not decide |
| CellMeaning.DenseIsNested | crates/epiphany-core/src/cube.rs:1443-1492 | the mixed-radix walk adds up to the sum over the first dimension's leaves, each times its weight, of the sums over the rest |
| CellMeaning.SparseIsNested | crates/epiphany-core/src/cube.rs:1505-1587 | the scan adds up to the same nested sum with what is not scanned counted as zero |
| CellMeaning.RollupMeans | crates/epiphany-calc/src/eval.rs:436-462 | a rollup is that nested sum; it fails exactly on a wrong rank, an element out of range, a leaf space too large to count, as its first failing leaf does, or when the sum leaves 64 bits |
| CellMeaning.RollupReads | crates/epiphany-calc/src/eval.rs:446-462 | with a license, no overlay and no mask a rollup looks at no leaf outside the store and the license; otherwise one that has a value looked at every leaf |
| CellMeaning.ComputeMeans | crates/epiphany-calc/src/eval.rs:377-463 | one cell, for all values of the others: exactly the value, or exactly the failure, that a hidden cell, an unknown cube, broken rules, its first matching rule, its overlay or store, or its leaves give |
| Evaluation.ComputeExt | crates/epiphany-calc/src/eval.rs:377-463 | a cell's result, and the cells it consults, depend on other cells only through those it consults |
| Evaluation.ComputeErrors | crates/epiphany-calc/src/eval.rs:466-560 | evaluation consults cells up to the first error and hands that error on: every cell consulted before it had a value |
| Evaluation.EvalUnfold | crates/epiphany-calc/src/eval.rs:334-375 | under a stack of cells being computed, a cell on it is a cycle, any other is computed with itself pushed; outside the finite universe too |
| Evaluation.MoreDepth | crates/epiphany-calc/src/eval.rs:334-375 | allowing deeper nesting never changes a value once there is one |
| Evaluation.NoSelfRest | crates/epiphany-calc/src/eval.rs:349-353 | a cell whose value rests on itself has no value |
| Evaluation.ValueUnderAncestors | crates/epiphany-calc/src/eval.rs:334-375 | a cell that has a value from nothing has the same value, and consults the same cells, under every stack of genuine ancestors |
| Evaluation.ValueHasDepth | crates/epiphany-calc/src/eval.rs:334-375 | a value found under any stack is found within a nesting depth bounded by the cells not on the stack |
| Evaluation.SameValue | crates/epiphany-calc/src/eval.rs:334-375 | a value under any stack is the value from the empty stack, and having one is the same as having one at some finite depth |
| Evaluation.CycleIffReEntered | crates/epiphany-calc/src/eval.rs:344-353 | a cycle is reported at a cell exactly when the consulted cells lead from the read back to that cell on the stack |
| CellMeaning.ValuesSolve | crates/epiphany-calc/src/eval.rs:377-463 | the values cells have solve all these equations at once |
| CellMeaning.RollupIsTotal | crates/epiphany-calc/src/eval.rs:436-462 | a consolidation no rule overrides, read sparsely or not, is the weighted sum of the values its leaves have; it has none exactly when a leaf has none or the sum leaves 64 bits |
| Engine.CalcEngine.Value | crates/epiphany-calc/src/eval.rs:334-375 | from any memo whose values are right and whose markers are the stack, reading a cell returns what evaluation without a memo returns, errors included, restores that invariant, leaves no marker behind, keeps every value held, holds the one returned, and touches no other scope; it terminates on every rule set |
| Engine.CalcEngine.ComputeCell | crates/epiphany-calc/src/eval.rs:377-463 | mask, unknown cube, broken rules, first rule, overlay, stored leaf, rollup: the same branch and result as the memo-less step |
| Engine.CalcEngine.EvalExpr | crates/epiphany-calc/src/eval.rs:466-511 | formula evaluation over the mutating memo gives the memo-less result |
| Engine.CalcEngine.EvalCell | crates/epiphany-calc/src/eval.rs:513-522 | a reference is read at the address its slots resolve to |
| Engine.CalcEngine.EvalCond | crates/epiphany-calc/src/eval.rs:537-553 | conditions short-circuit as in the memo-less semantics |
| Engine.CalcEngine.Consolidate | crates/epiphany-calc/src/eval.rs:436-462 | a rollup, dense or sparse, gives the memo-less result, size check and range check included |
| Engine.CalcEngine.SumDense | crates/epiphany-core/src/cube.rs:1475-1491 | the dense loop over the memo adds up exactly the dense items |
| Engine.CalcEngine.SumSparse | crates/epiphany-core/src/cube.rs:1566-1587 | the scan with its seen set adds up exactly the sparse items |
| Engine.HitIsRight | crates/epiphany-calc/src/eval.rs:340-353 | a memoised value is the value under any genuine stack |
| Engine.ScopesKeepApart | crates/epiphany-calc/src/eval.rs:334-343 | base reads and what-if reads of different scopes can share a memo: what one adds leaves it right for the other |
| Engine.CellResolver.Take | crates/epiphany-api/src/calc_factory.rs:497-504 | a thread's memo leaves the map; what it carries is right for an empty stack |
| Engine.CellResolver.PutBack | crates/epiphany-api/src/calc_factory.rs:505-510 | a grown memo joins the map whatever the other threads did meanwhile |
| Engine.CellResolver.Value | crates/epiphany-api/src/calc_factory.rs:528-536 | whatever was read before, in any order and on any thread, a read returns the cell's value from the empty stack; the thread's memo keeps what it held and now holds that value, other threads' memos stay |
| Walks.ReadingOrder | crates/epiphany-calc/src/feeders.rs:503-546 | odometer readings number the positions in strict lexicographic order |
| Walks.NthIsExact | crates/epiphany-calc/src/feeders.rs:475-505 | the numbered coordinates are exactly the product's and, over ascending lists, come in strict lexicographic order, each once |
| Walks.CoordWalk.constructor | crates/epiphany-calc/src/feeders.rs:510-521 | a walk starts before the first coordinate, and at the end when a dimension is empty |
| Walks.CoordWalk.NextCoord | crates/epiphany-calc/src/feeders.rs:523-545 | the n-th call returns the n-th coordinate of the product and the walk then stops |
| Walks.CountProduct | crates/epiphany-calc/src/feeders.rs:662-668 | the counting loop is the checked product |
| Walks.CartesianAny | crates/epiphany-calc/src/feeders.rs:670-690 | the search answers whether any coordinate of the product satisfies the predicate |
| Feeders.NonZeroNeedsInput | crates/epiphany-calc/src/feeders.rs:119-152 | a rule that is not base potent and has a non-zero value read a same-cube input that is not zero |
| Feeders.AreaLeafDims | crates/epiphany-calc/src/feeders.rs:471-497 | per dimension exactly the leaves the area admits, all of them where it leaves the dimension free |
| Feeders.BasePotentIffTerm | crates/epiphany-calc/src/feeders.rs:119-152 | a formula is potent on its own exactly when, multiplied out, one of its terms has only factors that are not zero whatever the cube's own cells hold |
| Feeders.CollectsWhatStands | crates/epiphany-calc/src/feeders.rs:548-568 | exactly the cells that stand outside conditions are collected |
| Feeders.ClassifiedBySources | crates/epiphany-calc/src/feeders.rs:176-224 | a rule with target leaves is analysed exactly when it rests on a cell of its cube, or on no cell but has a term of its own; it is given up exactly when it rests on other cubes only |
| Feeders.MatchedLeafInArea | crates/epiphany-calc/src/feeders.rs:471-493 | every leaf a rule's area holds lies in the product of the area's leaf lists |
| Feeders.PotentMonotone | crates/epiphany-calc/src/feeders.rs:594-658 | more potent leaves never make an input less potent |
| Feeders.IsPotent | crates/epiphany-calc/src/feeders.rs:594-658 | the input test, its early exits and its cap included, decides the specified potency |
| Feeders.FeedRule | crates/epiphany-calc/src/feeders.rs:244-266 | one pass over a rule only adds leaves every closed set has, and adding none means the set is closed under the rule |
| Feeders.InferFeeders | crates/epiphany-calc/src/feeders.rs:171-272 | the loop ends with the least set closed under "a base-potent rule, or a potent input, feeds its target", whatever the order of rules and coordinates; the fed are leaves, and exactly the unanalysable rules are reported |
| FeederSoundness.OverriddenInput | crates/epiphany-calc/src/feeders.rs:618-642 | an input overridden by a rule is seen as potent exactly when each of its elements has a leaf |
| FeederSoundness.ResolveIsElement | crates/epiphany-calc/src/feeders.rs:603-618 | reading a copied slot off the target at the slot's own position is reading the cell the rule reads |
| FeederSoundness.InferenceSound | crates/epiphany-calc/src/feeders.rs:154-170 | a leaf that evaluates to something other than zero is stored, inferred, or first matched by a reported rule, for every rule set in which no analysable rule, where it fires, reads an overridden consolidation without leaves; a rule without choices may override its own input |
| FeederSoundness.SelfOverride | crates/epiphany-calc/src/eval.rs:344-353 | a rule without choices that overrides its own input has no value there |
| FeederSoundness.ChildlessOverrideIsMissed | crates/epiphany-calc/src/feeders.rs:620-642 | without that condition a leaf can be missed: a registry whose only leaf is non-zero and not accounted for |
| FeederSoundness.ConditionalSelfOverrideIsMissed | crates/epiphany-calc/src/feeders.rs:620-642 | nor can a rule with a choice be let off for overriding its own input: the input can have a value, and the leaf that copies it is missed |
| Gate.ValidateFeeders | crates/epiphany-calc/src/feeders.rs:309-380 | validation reports exactly the target leaves that are not zero and not fed, the fed coordinates that are zero, and those that fail, with their errors |
| Gate.SafeFedSet | crates/epiphany-calc/src/feeders.rs:398-469 | a cube is licensed exactly when its rules compiled and there are none, or inference localised every rule and each target has a value that is fed unless zero; the license is complete and names the least inferred set |
| Gate.GateOpens | crates/epiphany-calc/src/feeders.rs:398-469 | where inference analyses every rule and is sound, the gate turns a cube down only for a leaf that fails, or a targeted leaf no rule matches that is neither fed nor zero |
| Gate.FromSnaps | crates/epiphany-api/src/calc_factory.rs:144-177 | the registry keeps every cube and rule set, licenses exactly the cubes the gate allows, and every license is complete against the dense registry |
| Sparse.LeafOfLicensed | crates/epiphany-calc/src/feeders.rs:398-432 | a leaf of a licensed cube has a value, and is zero unless stored or fed |
| Sparse.SameTotal | crates/epiphany-core/src/cube.rs:1505-1518 | a licensed rollup adds up to one total from the scan and from the dense walk, under any genuine stack |
| Sparse.SparseIsDense | crates/epiphany-calc/src/eval.rs:436-462 | every cell of every cube evaluates to the same value or the same error with the licenses as without, nested and cross-cube rollups included |
| Gate.GatedReadsAreDense | crates/epiphany-api/src/calc_factory.rs:144-177 | under any overlay and mask, reading the gated registry is reading it with all rollups dense |
| Reads.MaskedReadsIgnoreDenied | crates/epiphany-calc/src/eval.rs:377-390 | two registries that differ only in leaf values at denied coordinates answer every masked read alike, errors included |
| Reads.MaskDeniesOrAgrees | crates/epiphany-calc/src/eval.rs:377-390 | a mask denies a read or leaves its result alone, under any stack |
| Reads.MaskedStep | crates/epiphany-calc/src/eval.rs:377-390 | a cell the mask hides is denied, and any other computed as without a mask |
| Reads.DeniedIffLeadsThere | crates/epiphany-calc/src/eval.rs:377-390 | a read is denied exactly when the cells it consults lead to one the mask hides |
| Reads.MaskedAnswerIsTheAnswer | crates/epiphany-calc/src/eval.rs:453-462 | what a masked caller is answered is what an unmasked caller is answered, though the latter may read sparsely |
| Reads.WhatIfIsCommit | crates/epiphany-api/src/calc_factory.rs:427-458 | reading any cell under an overlay gives what reading the committed cubes gives, through rules, rollups and rule-shadowed leaves, and whatever licenses the committed contents earn |
| Reads.StoreLeaves | crates/epiphany-api/src/calc_factory.rs:319-333 | storing leaves one by one, zero clearing a cell, changes exactly those leaves |
| Reads.SetLeaf | crates/epiphany-core/src/cube.rs:1267-1275 | one leaf changes, every other stored value stays, and the store remains well formed |
| Compile.DescendantsOf | crates/epiphany-calc/src/compile.rs:120-138 | the depth-first walk returns each element of the reflexive-transitive closure of the edges once |
| Compile.SortDedup | crates/epiphany-calc/src/compile.rs:115-117 | sorting and de-duplicating keeps the elements, in strictly ascending order |
| RuleSource.TextLessIsLexicographic | crates/epiphany-calc/src/compile.rs:183-192 | texts compare as words in a dictionary do |
| RuleSource.AttributeComparesIs | crates/epiphany-calc/src/compile.rs:160-181 | an attribute compares with a literal of its own type by the sign of the difference, the attribute on the left; otherwise it never compares |
| RuleSource.LastSelector | crates/epiphany-calc/src/compile.rs:57-75 | the last selector written for a dimension counts |
| RuleSource.FirstOverride | crates/epiphany-calc/src/compile.rs:368-372 | the first override written for a dimension counts |
| Compile.ResolveSelector | crates/epiphany-calc/src/compile.rs:77-118 | a selector yields exactly the elements it names, and fails exactly when a name in it does not resolve, saying which kind of name |
| Compile.ResolveAttrPredicate | crates/epiphany-calc/src/compile.rs:140-181 | exactly the elements whose attribute compares; a missing attribute or another type never does |
| Compile.CompileArea | crates/epiphany-calc/src/compile.rs:57-75 | a compiled area holds exactly the coordinates the written one holds by name, the last selector of a dimension winning and the scope marker deciding the free ones; a failure is that of the first selector that does not resolve |
| Compile.LowerCellInOrder | crates/epiphany-calc/src/compile.rs:323-425 | the lowering loop fails with the error of the first offence it meets |
| Compile.RefLowers | crates/epiphany-calc/src/compile.rs:323-425 | a reference compiles exactly when it maps nothing, its cube and the dimensions and members it names exist, and it leaves no dimension open to another cube; else it fails for the first of these that is not so |
| Compile.FormulaLowers | crates/epiphany-calc/src/compile.rs:194-321 | a formula compiles exactly when its numbers parse, it quotes no text, and its references, attributes and functions resolve, with every operator and every choice allowed; else it fails for its first offence from left to right |
| Compile.AlignedIffDistinct | crates/epiphany-calc/src/compile.rs:391-418 | every copied slot stands at its own position, within the rule's own cube, exactly when the cube's dimension names are distinct |
| Compile.LoweredAddress | crates/epiphany-calc/src/compile.rs:365-420 | a lowered reference addresses the very cell the written one names: the first override of a dimension wins, the rest comes from the target |
| Compile.LoweringKeepsMeaning | crates/epiphany-calc/src/compile.rs:194-276 | a lowered formula has the value of the written one read by name, at every target and for all values of other cells, errors included |
| Compile.Compile | crates/epiphany-calc/src/compile.rs:28-51 | compiling a document succeeds exactly when every name in every area and formula resolves, and keeps every rule, in author order; else it fails for the first offence of the first rule that has one |
| Compile.CompiledRuleMeans | crates/epiphany-calc/src/compiled.rs:26-33 | the rule that fires at a coordinate, and its value there, are those of the document read by name |
| NamedMeaning.MeaningIsExact | crates/epiphany-calc/src/eval.rs:466-553 | the by-name value of a formula is exactly what exact arithmetic on the members it names gives, failures included: the first override names the member, the target the rest |
| NamedMeaning.CompiledIsExact | crates/epiphany-calc/src/compile.rs:194-425 | compiled and run at a coordinate, a formula whose names resolve gives exactly the value, or exactly the failure, that it says of the members there |
| Registry.RegistryIsOk | crates/epiphany-api/src/calc_factory.rs:144-177 | a registry whose rule sets come from compiling documents over well-named cubes meets everything evaluation, inference and the gate assume of it |
| Registry.BuildRegistry | crates/epiphany-api/src/calc_factory.rs:144-192 | from cubes and documents: every rule set is its document compiled, or broken when it does not compile, and exactly the cubes the gate allows are licensed |
| Explain.ConsultedSplits | crates/epiphany-calc/src/provenance.rs:202-280 | what explain lists of a formula with a value is exactly what the evaluator read and what it skipped: the second half of a short-circuited condition, and the untaken branches inside condition operands |
| Explain.ConsultedWereRead | crates/epiphany-calc/src/provenance.rs:202-238 | with plain conditions explain lists exactly the cells the evaluator consulted |
| Explain.CollectConsulted | crates/epiphany-calc/src/provenance.rs:207-255 | the collector appends the condition's cells and those of the branch the evaluator takes |
| Explain.ExplainNode | crates/epiphany-calc/src/provenance.rs:80-200 | each node tells the evaluator's value, where it comes from, and what it rests on; there is a trace exactly when the cell and everything the walk looks at has a value |
| Explain.ExplainableIffNoneSkippedFails | crates/epiphany-calc/src/provenance.rs:80-200 | in a gated registry there is a trace exactly when the cell has a value and no path of at most the levels asked for, through inputs read or skipped, ends at a skipped cell that fails |
| Explain.Explain | crates/epiphany-calc/src/provenance.rs:40-65 | a request to explain succeeds under exactly that condition, and then tells the truth to every level |
| Explain.ExplainLeaves | crates/epiphany-calc/src/provenance.rs:140-190 | a rollup lists its first 64 non-zero leaves in lexicographic order, and is flagged truncated exactly when there are more |
| Explain.ValuesAreExplainable | crates/epiphany-calc/src/provenance.rs:80-200 | so a cell with a value is explained whenever no rule reached skips a cell |
| Explain.PlainRuleSkipsNothing | crates/epiphany-calc/src/provenance.rs:240-280 | a cube whose rules have single comparisons of unbranching operands as conditions skips nothing |
| Explain.ShortCircuitHidesFailure | crates/epiphany-calc/src/provenance.rs:240-255 | a condition with a second half the evaluator skips can make a cell with a value inexplicable |
| ViewCache.KeyIsLossless | crates/epiphany-api/src/view_cache.rs:148-181 | two reads share a key exactly when they agree on cube, version, shape, sandbox (none, or one id, the ids 0 and 1 being one), denied pairs and the set of dependency versions, collected in any order |
| ViewCache.EvictionIsLeast | crates/epiphany-api/src/view_cache.rs:256-274 | what is evicted is the least recently used, and no more of it than the newcomer needs |
| ViewCache.GetIsExact | crates/epiphany-api/src/view_cache.rs:217-226 | a hit moves the key's entry to the recent end and does nothing else; a miss does nothing |
| ViewCache.InsertIsExact | crates/epiphany-api/src/view_cache.rs:256-284 | an insertion drops the key's old entry, keeps the longest recent end of the others that leaves room, and adds the newcomer |
| ViewCache.ReadIsRemembered | crates/epiphany-api/src/view_cache.rs:333-359 | what a read computed the next read of its key finds, exactly unless it failed or is over the size limit of one entry |
| ViewCache.RunsStayWithin | crates/epiphany-api/src/view_cache.rs:191-205 | over every run of gets and inserts each key has one slot, both bounds hold (bytes unless a single entry is alone), and a hit is what was last inserted under its key |
| ViewCache.RunsStayOrdered | crates/epiphany-api/src/view_cache.rs:191-205 | in every run the list is in the order of last use, so the entry evicted is the one whose last use lies furthest back |
| ViewCache.ViewCache.constructor | crates/epiphany-api/src/view_cache.rs:300-328 | the ad-hoc pool gets exactly a quarter of the entries and bytes, rounded down, but never nothing while the cache is on; both pools start empty |
| ViewCache.ChargesAreExact | crates/epiphany-api/src/view_cache.rs:268-275 | the saturating byte count is exact for every charge within budget, if and only if the budget is below the largest machine word |
| ViewCache.Pool.Get | crates/epiphany-api/src/view_cache.rs:217-226 | a hit returns the key's value and makes it the most recent, a miss changes nothing; ticks stay distinct and in recency order |
| ViewCache.Pool.Remove | crates/epiphany-api/src/view_cache.rs:228-233 | the entry goes, and its charge with it |
| ViewCache.Pool.EvictOne | crates/epiphany-api/src/view_cache.rs:235-254 | the entry with the least tick goes, which is the least recently used |
| ViewCache.Pool.Insert | crates/epiphany-api/src/view_cache.rs:256-284 | a value replaces the one under its key, old charge dropped, and the pool becomes what the recency list becomes |
| ViewCache.ViewCache.GetOrCompute | crates/epiphany-api/src/view_cache.rs:333-359 | when a cellset is a function of its key, reading through the cache returns what computing afresh would, error included; a hit refreshes its entry, a miss stores what it computed unless that failed or is too large, the counters tell which it was, and the other pool is untouched |
| References.CollectRefCubes | crates/epiphany-api/src/query_routes.rs:93-148 | the collector appends, in order, every other cube a formula names, conditions and function arguments included |
| References.CollectsWhatIsMentioned | crates/epiphany-api/src/query_routes.rs:93-148 | exactly the other cubes a formula mentions anywhere in it are collected |
| References.CrossCubeDepVersions | crates/epiphany-api/src/query_routes.rs:65-88 | the key's dependencies are exactly the existing cubes the target's rules name directly, at their current versions, never the target |
| References.CollectedCoversCompiled | crates/epiphany-api/src/query_routes.rs:68-86 | every cube a compiled formula refers to is the target or among those collected |
| References.ClosedCubesDecide | crates/epiphany-api/src/calc_factory.rs:115-142 | two registries that agree on a set of cubes closed under naming give every cell of those cubes one value, whatever the other cubes hold and whichever rollups are licensed |
| CacheProtocol.StepKeepsInv | crates/epiphany-api/src/view_cache.rs:333-359 | every step of a writer or reader keeps each reader and each cached entry at or above the versions its key records |
| CacheProtocol.ReturnedIsFresh | crates/epiphany-api/src/calc_factory.rs:115-142 | in every interleaving a returned cellset, cached or computed, was computed at the keyed target version, at versions of the named cubes no older than the reader saw; and, if the named set is closed under naming at the versions read, no cube it can consult is older than when the read began |
| Freshness.SameCompiled | crates/epiphany-calc/src/compile.rs:323-425 | a document compiles to rules that match and compute alike against cubes that agree where it looks |
| Freshness.SameDocsDecide | crates/epiphany-api/src/calc_factory.rs:115-142 | registries of the same documents over cubes that agree on a set closed under naming give every cell of those cubes one value |
| Freshness.ReturnedValuesAreFresh | crates/epiphany-api/src/calc_factory.rs:115-142 | where the target's rules name a closed set, every value returned is that of a registry no cube of which is older than when the read began, the target at the keyed version |
| CacheProtocol.UnnamedCanBeStale | crates/epiphany-api/src/query_routes.rs:65-88 | a cube the target's rules do not name directly can be served at an older version than when the read began |
| CacheProtocol.FreshIffNamed | crates/epiphany-api/src/query_routes.rs:45-56 | a cube is never served stale exactly when it is the target or named directly by its rules |
| OptimisticCommit.ResolvedIsNamed | crates/epiphany-api/src/resolve.rs:20-61 | a resolved coordinate is in range and bears exactly the names asked for |
| OptimisticCommit.BuildsIffNamed | crates/epiphany-api/src/routes.rs:489-503 | a batch can be built exactly when every address has a member for each dimension and no more, each the name of a leaf |
| OptimisticCommit.SameBetween | crates/epiphany-engine/src/lib.rs:1132-1145 | a cube seen at one version twice was there, and the same, at every moment between |
| OptimisticCommit.CommitsWhatItResolved | crates/epiphany-api/src/routes.rs:489-537 | whatever the others commit in between, the batch that lands is the one the request resolves to at the instant of the commit; if none lands the engine holds only the others' commits, giving up takes a lost race in every round, and any other answer is right at that moment |
| OptimisticCommit.AnswersAreRight | crates/epiphany-api/src/routes.rs:489-537 | nothing is reported written exactly of the empty request; no such cube, an address that names no leaf and no such sandbox are reported only where that is so |
| OptimisticCommit.QuietRequestIsWritten | crates/epiphany-api/src/routes.rs:489-537 | with nobody else about, a request is written exactly when its cube and sandbox are there, it is not empty, and every address names a leaf |
| OptimisticCommit.WritesLandWhereNamed | crates/epiphany-api/src/routes.rs:475-537 | a landed request wrote, for each address, the cell of that name at the commit, the last value given for a cell holding, every other cell, sandbox and cube and the rules untouched, and bumped the version by one |
| OptimisticCommit.CaughtSame | crates/epiphany-api/src/calc_factory.rs:45-50 | a cube that is at one version before and after the siblings are snapshotted one by one is caught at that version |
| OptimisticCommit.StoredSourceCompiled | crates/epiphany-api/src/rule_routes.rs:104-136 | a stored source compiled against the target as it is at the commit, every snapshot of the target among the siblings being that one, whenever the cube existed as its base version was read |
| OptimisticCommit.PutAnswersAreRight | crates/epiphany-api/src/rule_routes.rs:104-136 | a source that is not stored is refused for what is so then, and giving up takes a lost race in every round |
| OptimisticCommit.QuietSourceIsStored | crates/epiphany-api/src/rule_routes.rs:104-136 | with nobody else about, a source is stored exactly when its cube is there and it compiles against it and its siblings as they are |
| OptimisticCommit.AbsentBaseIsUnchecked | crates/epiphany-api/src/rule_routes.rs:111-125 | a cube created, compiled against and changed between the base read and the commit is given a source that does not compile against it |
| OptimisticCommit.SafeIffPresent | crates/epiphany-api/src/rule_routes.rs:111-125 | for a source that suits some contents and not others, a round is safe under every interleaving exactly when the cube exists as its version is read |
| OptimisticCommit.Server.CommitResolved | crates/epiphany-api/src/routes.rs:489-537 | the retry loop of 8 rounds against an engine others commit to does what the protocol above describes: what it writes lands where named, and any other answer is right |
| OptimisticCommit.Server.CaptureAll | crates/epiphany-api/src/calc_factory.rs:45-46 | the names listed are snapshotted one after another; a cube dropped meanwhile leaves no snapshot |
| OptimisticCommit.Server.PutRound | crates/epiphany-api/src/rule_routes.rs:110-133 | one round of validate and commit |
| OptimisticCommit.Server.PutRules | crates/epiphany-api/src/rule_routes.rs:104-136 | the loop over at most 8 rounds |
| GridFlags.CellCoordMembers | crates/epiphany-api/src/query_routes.rs:1090-1150 | a cell's coordinate holds the column's member in each column dimension, the row's in each other row dimension, the context's in each remaining context dimension, the first element in any dimension nobody names |
| GridFlags.CellCoordResolves | crates/epiphany-api/src/query_routes.rs:1090-1150 | a cell has a coordinate exactly when its row, its column and the context name dimensions and members there are |
| GridFlags.PutAllForgets | crates/epiphany-api/src/query_routes.rs:1133-1149 | overwriting the column positions erases whatever the scratch held there |
| GridFlags.Patch | crates/epiphany-api/src/query_routes.rs:1138-1149 | setting positions in place, later ones over earlier ones |
| GridFlags.FlagRow | crates/epiphany-api/src/query_routes.rs:1141-1152 | one row of cells, reusing the scratch coordinate from column to column |
| GridFlags.CellCoordFlags | crates/epiphany-api/src/query_routes.rs:1080-1154 | every flag is the hit test of the coordinate built for that cell alone, and false where any part does not resolve or the cell has no row or column |
| Coalescer.ReadQueue.Enqueue | excel-addin/src/ReadCoalescer.cs:71-86 | the read joins its bucket and a timer is armed |
| Coalescer.ReadQueue.Cancel | excel-addin/src/ReadCoalescer.cs:92-103 | the read leaves its bucket, an emptied bucket leaves the queue, the timer stays |
| Coalescer.RemovesFirst | excel-addin/src/ReadCoalescer.cs:92-103 | the first place of the read in its bucket goes, and no other |
| Coalescer.ReadQueue.Drain | excel-addin/src/ReadCoalescer.cs:105-116 | the batches are the buckets of the queue, each once; the queue is empty and the timer disarmed |
| Coalescer.StepKeepsInv | excel-addin/src/ReadCoalescer.cs:71-181 | every step of subscribing, cancelling, the timer and the requests keeps each unsettled read queued or in a batch that has still to serve it |
| Coalescer.EveryReadSettles | excel-addin/src/ReadCoalescer.cs:71-181 | in every run a waiting read has an armed timer; an observer is given at most one outcome, exactly when its read is delivered: the value at its own place in a reply to its address, nothing where that reply ended before its place, or the failure of a request for its address alone; replies hold what the server answers; and once timer and requests are through, each read is delivered or cancelled |
| Coalescer.SettledForGood | excel-addin/src/ReadCoalescer.cs:222-256 | once cancelled or delivered, a read is never pushed to again |
| Coalescer.CancelSettles | excel-addin/src/ReadCoalescer.cs:92-103 | a waiting read that is cancelled is never given anything |
| Coalescer.AnswersReachReads | excel-addin/src/ReadCoalescer.cs:135-150 | a batch that has been sent can be answered, and each read of it that still waits then gets what the server answers its address |
| Coalescer.TasksFinish | excel-addin/src/ReadCoalescer.cs:135-181 | a batch that is not through has a step to take, and each step leaves it less to do |

## Left out

- Feeders.InferFeeders: returns a set; the sorted order of the index is not modelled.
- Walks.CartesianAny: the product is not limited to the machine word; the code calls it only after the checked product has succeeded.
- Walks.CoordWalk.NextCoord: the coordinate is returned rather than written into a caller's buffer.
- Engine.CellResolver.Value: the read between taking and returning a memo is one step; two threads never share a memo, so nothing else can happen to it.
- FeederSoundness.InferenceSound: one direction only. An overridden childless input does not always make a leaf non-zero, so the hypothesis is sufficient, with counterexamples when it is dropped.
- ViewCache.Pool.Insert: needs a byte budget below the largest machine word; the access tick does not wrap.
- CacheProtocol.ReturnedIsFresh: cubes are not dropped or created while readers run.
- OptimisticCommit.CommitsWhatItResolved: the batch is built from the target's snapshot alone; rejecting rule-covered leaves, spreading, and element security are not part of it.
- OptimisticCommit.StoredSourceCompiled: compiling is a function of the names listed, the snapshots caught and the target; that a cube dropped meanwhile shifts the names against the snapshots is in the model, what the compiler then makes of them is not.
- GridFlags.CellCoordFlags: a tuple has one entry per axis dimension, and the hit test does not change state.
- Coalescer.EveryReadSettles: observers do not throw, and a bucket is a client and a cube; which sandbox a read is answered under is not modelled, since the client's sandbox may change while the read waits.
- Wrap-around of the 128-bit accumulator and weight products inside a rollup; sums are exact integers with the final 64-bit check.
- How `leaf_weights` collects a rollup's leaves: each element comes with its list of leaves and net weights, ascending, a leaf listing itself with weight one.
- A reference whose resolved coordinate is longer than the cube's rank: the area test panics there; the model reports a rank mismatch, and compiled references never have such a length.
- String cells, aliases and text-valued attributes in cell values; elements are numeric leaves or consolidations.
- Error texts, source spans and the names inside errors; errors keep the ordinal, and a cycle its cell.
- Rule and MDX parsing, and number parsing: a numeral comes as what it parses to, or as unparsable.
- Subset axes in the view cache: an axis is an explicit list of members, so a cellset is a function of its key.
- Two sandboxes created with ids 0 and 1 share a memo scope; an overlay's scope is any non-zero number here.
- The depth presets of explain; a trace is asked for by its number of levels.
- HTTP, authentication, flows, connectors, persistence, scheduling and the user interface.
