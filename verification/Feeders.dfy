/** Inferring which leaves of a cube its rules can make non-zero. */
module Feeders {
  import opened FixedPoint
  import opened CubeModel
  import opened Rollups
  import opened Semantics
  import opened Walks

  /** Consolidated inputs wider than this are taken to be potent without looking. */
  const INPUT_EXPANSION_CAP: nat := 4096

  // ---------------------------------------------------------------- static analysis of one rule

  /** Whether the formula has a term that can be non-zero where every same-cube input is zero. */
  predicate BasePotent(e: Expr, own: nat) {
    match e
    case Num(v) => v != 0
    case AttrNum(_, _) => true
    case Read(cell) => cell.cube != own
    case Undef => false
    case Neg(a) => BasePotent(a, own)
    case Bin(op, l, r) =>
      (match op
       case Add | Sub => BasePotent(l, own) || BasePotent(r, own)
       case Mul => BasePotent(l, own) && BasePotent(r, own)
       case Div => BasePotent(l, own))
    case If(_, t, o) => BasePotent(t, own) || (o.Some? && BasePotent(o.value, own))
  }

  /** The factors of one term of the formula multiplied out, denominators and conditions apart. */
  ghost predicate IsTerm(e: Expr, factors: set<Expr>) {
    match e
    case Neg(a) => IsTerm(a, factors)
    case Bin(op, l, r) =>
      (match op
       case Add | Sub => IsTerm(l, factors) || IsTerm(r, factors)
       case Mul => exists a, b :: IsTerm(l, a) && IsTerm(r, b) && factors == a + b
       case Div => IsTerm(l, factors))
    case If(_, t, o) => IsTerm(t, factors) || (o.Some? && IsTerm(o.value, factors))
    case Undef => false
    case _ => factors == {e}
  }

  /** A factor that can be other than zero whatever the cells of cube `own` hold. */
  predicate StandsAlone(factor: Expr, own: nat) {
    match factor
    case Num(v) => v != 0
    case AttrNum(_, _) => true
    case Read(cell) => cell.cube != own
    case _ => false
  }

  ghost predicate AllStandAlone(factors: set<Expr>, own: nat) {
    forall x :: x in factors ==> StandsAlone(x, own)
  }

  /** A formula is potent on its own exactly when one of its terms has no factor that rests on a cell
      of the same cube, or is zero. */
  lemma {:induction false} BasePotentIffTerm(e: Expr, own: nat)
    ensures BasePotent(e, own) <==> HasAlone(e, own)
    decreases e
  {
    match e
    case Neg(a) => BasePotentIffTerm(a, own);
    case Bin(op, l, r) =>
      BasePotentIffTerm(l, own);
      BasePotentIffTerm(r, own);
      if op == Mul { ProductIffBoth(l, r, own); }
      if op == Add || op == Sub || op == Div {
        assert forall factors :: IsTerm(l, factors) ==> IsTerm(e, factors);
      }
    case If(_, t, o) =>
      BasePotentIffTerm(t, own);
      if o.Some? { BasePotentIffTerm(o.value, own); }
      assert forall factors :: IsTerm(t, factors) ==> IsTerm(e, factors);
    case Undef =>
    case _ => assert IsTerm(e, {e});
  }

  ghost predicate HasAlone(e: Expr, own: nat) {
    exists factors :: IsTerm(e, factors) && AllStandAlone(factors, own)
  }

  lemma ProductIffBoth(l: Expr, r: Expr, own: nat)
    ensures HasAlone(Bin(Mul, l, r), own) <==> HasAlone(l, own) && HasAlone(r, own)
  {
    hide StandsAlone, IsTerm;
    if HasAlone(l, own) && HasAlone(r, own) {
      var a :| IsTerm(l, a) && AllStandAlone(a, own);
      var b :| IsTerm(r, b) && AllStandAlone(b, own);
      ProductTerm(l, r, a, b);
      assert AllStandAlone(a + b, own);
    }
    if HasAlone(Bin(Mul, l, r), own) {
      var factors :| IsTerm(Bin(Mul, l, r), factors) && AllStandAlone(factors, own);
      var a, b := TermFactors(l, r, factors);
      assert AllStandAlone(a, own) && AllStandAlone(b, own);
    }
  }

  lemma ProductTerm(l: Expr, r: Expr, a: set<Expr>, b: set<Expr>)
    requires IsTerm(l, a) && IsTerm(r, b)
    ensures IsTerm(Bin(Mul, l, r), a + b)
  {}

  lemma TermFactors(l: Expr, r: Expr, factors: set<Expr>) returns (a: set<Expr>, b: set<Expr>)
    requires IsTerm(Bin(Mul, l, r), factors)
    ensures IsTerm(l, a) && IsTerm(r, b) && factors == a + b
  {
    a, b :| IsTerm(l, a) && IsTerm(r, b) && factors == a + b;
  }

  /** The cells a formula's value is made of, conditions apart. */
  function CollectCells(e: Expr): seq<CellRef> {
    match e
    case Read(cell) => [cell]
    case Neg(a) => CollectCells(a)
    case Bin(_, l, r) => CollectCells(l) + CollectCells(r)
    case If(_, t, o) => CollectCells(t) + (if o.Some? then CollectCells(o.value) else [])
    case Num(_) => []
    case AttrNum(_, _) => []
    case Undef => []
  }

  /** `part` is an operand of `e`, or a branch of it; a condition is neither. */
  predicate IsPart(part: Expr, e: Expr) {
    match e
    case Neg(a) => part == a
    case Bin(_, l, r) => part == l || part == r
    case If(_, t, o) => part == t || o == Some(part)
    case _ => false
  }

  ghost predicate GoesDown(path: seq<Expr>) {
    |path| > 0 && forall i, j :: 0 <= i && j == i + 1 < |path| ==> IsPart(path[j], path[i])
  }

  /** Exactly the cells standing somewhere in the formula outside its conditions are collected. */
  lemma {:induction false} CollectsWhatStands(e: Expr, cell: CellRef)
    ensures cell in CollectCells(e) <==>
              exists path :: GoesDown(path) && path[0] == e && path[|path| - 1] == Expr.Read(cell)
    decreases e
  {
    if cell in CollectCells(e) { var path := PathTo(e, cell); }
    forall path | GoesDown(path) && path[0] == e && path[|path| - 1] == Expr.Read(cell)
      ensures cell in CollectCells(e)
    {
      EndCollected(path, cell);
    }
  }

  lemma {:induction false} PathTo(e: Expr, cell: CellRef) returns (path: seq<Expr>)
    requires cell in CollectCells(e)
    ensures GoesDown(path) && path[0] == e && path[|path| - 1] == Expr.Read(cell)
    decreases e
  {
    match e
    case Read(_) => path := [e];
    case Neg(a) =>
      path := PathTo(a, cell);
      path := [e] + path;
    case Bin(_, l, r) =>
      path := PathTo(if cell in CollectCells(l) then l else r, cell);
      path := [e] + path;
    case If(_, t, o) =>
      path := PathTo(if cell in CollectCells(t) then t else o.value, cell);
      path := [e] + path;
  }

  lemma {:induction false} EndCollected(path: seq<Expr>, cell: CellRef)
    requires GoesDown(path) && path[|path| - 1] == Expr.Read(cell)
    ensures cell in CollectCells(path[0])
    decreases |path|
  {
    if |path| > 1 {
      EndCollected(path[1..], cell);
      assert IsPart(path[1], path[0]);
    }
  }

  /** A value other than zero comes from a base term or from a same-cube input that is not zero. */
  lemma {:induction false} NonZeroNeedsInput(rd: Reader, entries: seq<Entry>, own: nat, t: Coord, e: Expr)
    returns (cell: CellRef)
    requires own < |entries| && ExprOk(e, own, entries) && |t| == |entries[own].cube.dims|
    requires !BasePotent(e, own)
    requires RunExpr(rd, entries, own, t, e).res.Ok? && RunExpr(rd, entries, own, t, e).res != Ok(0)
    ensures cell in CollectCells(e) && cell.cube == own && RefOk(cell, own, entries)
    ensures var c := Cell(own, Resolve(cell, t));
            c in RunExpr(rd, entries, own, t, e).log && rd(c).Ok? && rd(c) != Ok(0)
    decreases e
  {
    match e
    case Num(_) => cell := CellRef(own, []);
    case Undef => cell := CellRef(own, []);
    case AttrNum(_, _) => cell := CellRef(own, []);
    case Read(x) => cell := x;
    case Neg(a) => cell := NonZeroNeedsInput(rd, entries, own, t, a);
    case Bin(op, l, r) =>
      ZeroRounds(SCALE);
      var a, b := RunExpr(rd, entries, own, t, l).res, RunExpr(rd, entries, own, t, r).res;
      if op == Div { ZeroRounds(b.value); }
      if !BasePotent(l, own) && a != Ok(0) {
        cell := NonZeroNeedsInput(rd, entries, own, t, l);
      } else {
        cell := NonZeroNeedsInput(rd, entries, own, t, r);
      }
    case If(c, x, o) =>
      if RunCond(rd, entries, own, t, c).res.value {
        cell := NonZeroNeedsInput(rd, entries, own, t, x);
      } else {
        cell := NonZeroNeedsInput(rd, entries, own, t, o.value);
      }
  }

  // ---------------------------------------------------------------- target areas

  function LeavesAmong(dim: Dimension, xs: seq<nat>): (r: seq<nat>)
    ensures forall x :: x in r <==> x in xs && IsLeaf(dim, x)
  {
    if xs == [] then []
    else (if IsLeaf(dim, xs[0]) then [xs[0]] else []) + LeavesAmong(dim, xs[1..])
  }

  function UpTo(n: nat): (r: seq<nat>)
    ensures forall x: nat :: x in r <==> x < n
  {
    if n == 0 then [] else UpTo(n - 1) + [n - 1]
  }

  /** Per dimension, the leaves a rule's area admits; an unconstrained dimension admits them
      all, whatever the area's scope. */
  function AreaLeafDims(dims: seq<Dimension>, area: Area): (r: seq<seq<nat>>)
    requires |area.perDim| == |dims|
    ensures |r| == |dims|
    ensures forall d, x :: 0 <= d < |dims| ==>
              (x in r[d] <==> IsLeaf(dims[d], x) && (area.perDim[d].OneOf? ==> x in area.perDim[d].members))
  {
    seq(|dims|, d requires 0 <= d < |dims| =>
      match area.perDim[d]
      case Any => LeavesAmong(dims[d], UpTo(|dims[d].elements|))
      case OneOf(members) => LeavesAmong(dims[d], members))
  }

  /** Every leaf a rule matches lies in the product of its leaf lists. */
  lemma MatchedLeafInArea(dims: seq<Dimension>, area: Area, t: Coord)
    requires |area.perDim| == |dims| && AllLeaf(dims, t)
    requires Matches(area, dims, t)
    ensures InProduct(AreaLeafDims(dims, area), t)
  {
    forall d | 0 <= d < |dims|
      ensures t[d] in AreaLeafDims(dims, area)[d]
    {
      assert MatchesDim(area.perDim[d], area.consolidated, dims[d], t[d]) && IsLeaf(dims[d], t[d]);
    }
  }

  lemma AreaLeavesAreLeaves(dims: seq<Dimension>, area: Area, t: Coord)
    requires |area.perDim| == |dims| && InProduct(AreaLeafDims(dims, area), t)
    ensures AllLeaf(dims, t)
  {}

  // ---------------------------------------------------------------- classifying rules

  /** A rule that can be analyzed: its target leaves, the same-cube cells that drive it, and
      whether it is non-zero without them. */
  datatype Analyzable = Analyzable(targetDims: seq<seq<nat>>, inputs: seq<CellRef>, basePotent: bool)

  datatype Class = NothingToFeed | Opaque | Localized(rule: Analyzable)

  function SameCube(cells: seq<CellRef>, own: nat): (r: seq<CellRef>)
    ensures forall c :: c in r <==> c in cells && c.cube == own
  {
    if cells == [] then []
    else (if cells[0].cube == own then [cells[0]] else []) + SameCube(cells[1..], own)
  }

  function Classify(dims: seq<Dimension>, rule: Rule, own: nat): Class
    requires |rule.area.perDim| == |dims|
  {
    var targetDims := AreaLeafDims(dims, rule.area);
    if [] in targetDims then NothingToFeed
    else
      var cells := CollectCells(rule.expr);
      var inputs := SameCube(cells, own);
      if inputs != [] then Localized(Analyzable(targetDims, inputs, BasePotent(rule.expr, own)))
      else if cells != [] then Opaque
      else if BasePotent(rule.expr, own) then Localized(Analyzable(targetDims, inputs, true))
      else NothingToFeed
  }

  /** Some cell of the cube, or of another, stands in the formula outside its conditions. */
  ghost predicate RestsOnCube(e: Expr, own: nat, same: bool) {
    exists cell :: Stands(e, cell) && (cell.cube == own <==> same)
  }

  ghost predicate Stands(e: Expr, cell: CellRef) {
    exists path :: GoesDown(path) && path[0] == e && path[|path| - 1] == Expr.Read(cell)
  }

  /** A rule with a target leaf is analysed if it rests on a cell of its cube, or on no cell at all but
      has a term of its own; it is given up if it rests on other cubes only; else it feeds nothing. */
  lemma ClassifiedBySources(dims: seq<Dimension>, rule: Rule, own: nat)
    requires |rule.area.perDim| == |dims|
    ensures var kind, targets := Classify(dims, rule, own), AreaLeafDims(dims, rule.area);
            var same, other := RestsOnCube(rule.expr, own, true), RestsOnCube(rule.expr, own, false);
            && (kind.Opaque? <==> [] !in targets && !same && other)
            && (kind.Localized? <==> [] !in targets && (same || (!other && HasAlone(rule.expr, own))))
            && (kind.Localized? ==>
                  && kind.rule.targetDims == targets && (kind.rule.basePotent <==> HasAlone(rule.expr, own))
                  && forall cell :: cell in kind.rule.inputs <==> cell.cube == own && Stands(rule.expr, cell))
  {
    hide Stands, HasAlone, BasePotent;
    var cells := CollectCells(rule.expr);
    BasePotentIffTerm(rule.expr, own);
    forall cell
      ensures cell in cells <==> Stands(rule.expr, cell)
    {
      CollectsWhatStands(rule.expr, cell);
      StandsIs(rule.expr, cell);
    }
    assert cells != [] ==> cells[0] in cells;
    var inputs := SameCube(cells, own);
    assert inputs != [] ==> inputs[0] in inputs;
  }

  lemma StandsIs(e: Expr, cell: CellRef)
    ensures Stands(e, cell) <==> exists path :: GoesDown(path) && path[0] == e && path[|path| - 1] == Expr.Read(cell)
  {}

  ghost predicate RulesOk(dims: seq<Dimension>, rules: seq<Rule>) {
    forall k :: 0 <= k < |rules| ==> |rules[k].area.perDim| == |dims|
  }

  function OpaqueRules(dims: seq<Dimension>, rules: seq<Rule>, own: nat): (r: seq<nat>)
    requires RulesOk(dims, rules)
    ensures forall i: nat :: i in r <==> i < |rules| && Classify(dims, rules[i], own).Opaque?
  {
    if rules == [] then []
    else
      var n := |rules| - 1;
      OpaqueRules(dims, rules[..n], own) + (if Classify(dims, rules[n], own).Opaque? then [n] else [])
  }

  /** Whether the leaf lies in the area of a rule inference gave up on. */
  ghost predicate InOpaqueArea(dims: seq<Dimension>, rules: seq<Rule>, own: nat, c: Coord)
    requires RulesOk(dims, rules)
  {
    exists i :: 0 <= i < |rules| && Classify(dims, rules[i], own).Opaque? && Matches(rules[i].area, dims, c)
  }

  // ---------------------------------------------------------------- potent inputs

  /** The element an input addresses in each dimension; a copied slot is read off the target at
      the slot's own position. */
  function ElementCoord(cell: CellRef, t: Coord): (r: Coord)
    requires |cell.addr| == |t|
    ensures |r| == |t|
  {
    seq(|t|, d requires 0 <= d < |t| =>
      match cell.addr[d]
      case Pinned(i) => i
      case FromTarget(_) => t[d])
  }

  function LeafList(cs: seq<Contribution>): (r: seq<nat>)
    ensures |r| == |cs| && forall k :: 0 <= k < |r| ==> r[k] == cs[k].leaf
  {
    seq(|cs|, k requires 0 <= k < |cs| => cs[k].leaf)
  }

  function LeafLists(dims: seq<Dimension>, c: Coord): (r: seq<seq<nat>>)
    requires InRange(dims, c) && forall d :: 0 <= d < |dims| ==> |dims[d].rollup| == |dims[d].elements|
    ensures |r| == |dims| && forall d :: 0 <= d < |dims| ==> r[d] == LeafList(dims[d].rollup[c[d]])
  {
    seq(|dims|, d requires 0 <= d < |dims| => LeafList(dims[d].rollup[c[d]]))
  }

  /** Whether the input can be non-zero at target `t`, as far as the analysis can tell. */
  ghost predicate InputPotent(dims: seq<Dimension>, rules: seq<Rule>, own: nat, cell: CellRef, t: Coord,
                              potent: set<Coord>)
    requires RulesOk(dims, rules) && forall d :: 0 <= d < |dims| ==> |dims[d].rollup| == |dims[d].elements|
  {
    && |cell.addr| == |t| == |dims|
    && var c := ElementCoord(cell, t);
       && InRange(dims, c)
       && var lists := LeafLists(dims, c);
          && [] !in lists
          && (|| (!AllLeaf(dims, c) && FirstMatch(rules, dims, c).Some?)
              || CheckedProduct(Lens(lists)).None?
              || CheckedProduct(Lens(lists)).value > INPUT_EXPANSION_CAP
              || exists x :: InProduct(lists, x) && (x in potent || InOpaqueArea(dims, rules, own, x)))
  }

  /** More potent leaves never make an input less potent. */
  lemma PotentMonotone(dims: seq<Dimension>, rules: seq<Rule>, own: nat, cell: CellRef, t: Coord, a: set<Coord>,
                       b: set<Coord>)
    requires RulesOk(dims, rules) && forall d :: 0 <= d < |dims| ==> |dims[d].rollup| == |dims[d].elements|
    requires a <= b && InputPotent(dims, rules, own, cell, t, a)
    ensures InputPotent(dims, rules, own, cell, t, b)
  {}

  /** What inference computes must satisfy: a target of an analyzable rule is fed when the rule
      is non-zero on its own or one of its inputs is potent. */
  ghost predicate Feeds(dims: seq<Dimension>, rules: seq<Rule>, own: nat, a: Analyzable, t: Coord, potent: set<Coord>)
    requires RulesOk(dims, rules) && forall d :: 0 <= d < |dims| ==> |dims[d].rollup| == |dims[d].elements|
  {
    a.basePotent || exists cell :: cell in a.inputs && InputPotent(dims, rules, own, cell, t, potent)
  }

  ghost predicate Closed(cube: Cube, rules: seq<Rule>, own: nat, fed: set<Coord>)
    requires CubeOk(cube) && RulesOk(cube.dims, rules)
  {
    forall k, t :: 0 <= k < |rules| && Classify(cube.dims, rules[k], own).Localized? ==>
      ClosedAt(cube, rules, own, Classify(cube.dims, rules[k], own).rule, t, fed)
  }

  ghost predicate ClosedAt(cube: Cube, rules: seq<Rule>, own: nat, a: Analyzable, t: Coord, fed: set<Coord>)
    requires CubeOk(cube) && RulesOk(cube.dims, rules)
  {
    InProduct(a.targetDims, t) && Feeds(cube.dims, rules, own, a, t, cube.cells.Keys + fed) ==> t in fed
  }

  // ---------------------------------------------------------------- the analysis, as it runs

  predicate InAreas(dims: seq<Dimension>, rules: seq<Rule>, ids: seq<nat>, x: Coord)
    requires forall k :: 0 <= k < |ids| ==> ids[k] < |rules|
  {
    exists k :: 0 <= k < |ids| && Matches(rules[ids[k]].area, dims, x)
  }

  method IsPotent(dims: seq<Dimension>, rules: seq<Rule>, own: nat, opaqueIds: seq<nat>, cell: CellRef, t: Coord,
                  potent: set<Coord>)
    returns (r: bool)
    requires RulesOk(dims, rules) && forall d :: 0 <= d < |dims| ==> |dims[d].rollup| == |dims[d].elements|
    requires |t| == |dims| && opaqueIds == OpaqueRules(dims, rules, own)
    ensures r == InputPotent(dims, rules, own, cell, t, potent)
  {
    hide Matches, Classify, FirstMatch, CheckedProduct, InProduct, AllLeaf, Size;
    if |cell.addr| != |t| {
      return false;
    }
    ghost var all := ElementCoord(cell, t);
    var c: Coord, lists: seq<seq<nat>> := [], [];
    for d := 0 to |t|
      invariant c == all[..d] && |lists| == d
      invariant forall j :: 0 <= j < d ==> all[j] < |dims[j].elements|
      invariant forall j :: 0 <= j < d ==> lists[j] == LeafList(dims[j].rollup[all[j]]) && lists[j] != []
    {
      var element := match cell.addr[d] case Pinned(i) => i case FromTarget(_) => t[d];
      if element >= |dims[d].elements| {
        return false;
      }
      var leaves := LeafList(dims[d].rollup[element]);
      if leaves == [] {
        assert InRange(dims, all) ==> LeafLists(dims, all)[d] == [];
        return false;
      }
      c, lists := c + [element], lists + [leaves];
    }
    assert c == all && lists == LeafLists(dims, all);
    if !AllLeaf(dims, c) && FirstMatch(rules, dims, c).Some? {
      return true;
    }
    var total := CountProduct(lists);
    if total.None? || total.value > INPUT_EXPANSION_CAP {
      return true;
    }
    assert forall k :: 0 <= k < |opaqueIds| ==> opaqueIds[k] < |rules| by { OpaqueAreasAgree(dims, rules, own, []); }
    r := CartesianAny(lists, x => x in potent || InAreas(dims, rules, opaqueIds, x));
    forall x
      ensures InAreas(dims, rules, opaqueIds, x) <==> InOpaqueArea(dims, rules, own, x)
    {
      OpaqueAreasAgree(dims, rules, own, x);
    }
  }

  lemma OpaqueAreasAgree(dims: seq<Dimension>, rules: seq<Rule>, own: nat, x: Coord)
    requires RulesOk(dims, rules)
    ensures forall k :: 0 <= k < |OpaqueRules(dims, rules, own)| ==> OpaqueRules(dims, rules, own)[k] < |rules|
    ensures InAreas(dims, rules, OpaqueRules(dims, rules, own), x) <==> InOpaqueArea(dims, rules, own, x)
  {
    hide Classify, Matches, OpaqueRules;
    var ids := OpaqueRules(dims, rules, own);
    assert forall k :: 0 <= k < |ids| ==> ids[k] in ids;
    if i: nat :| i < |rules| && Classify(dims, rules[i], own).Opaque? && Matches(rules[i].area, dims, x) {
      assert i in ids;
      var k :| 0 <= k < |ids| && ids[k] == i;
    }
    if k :| 0 <= k < |ids| && Matches(rules[ids[k]].area, dims, x) {
      assert ids[k] in ids;
    }
  }

  method IsFed(dims: seq<Dimension>, rules: seq<Rule>, own: nat, opaqueIds: seq<nat>, a: Analyzable, t: Coord,
               potent: set<Coord>)
    returns (r: bool)
    requires RulesOk(dims, rules) && forall d :: 0 <= d < |dims| ==> |dims[d].rollup| == |dims[d].elements|
    requires |t| == |dims| && opaqueIds == OpaqueRules(dims, rules, own)
    ensures r == Feeds(dims, rules, own, a, t, potent)
  {
    hide InputPotent, OpaqueRules;
    if a.basePotent {
      return true;
    }
    for i := 0 to |a.inputs|
      invariant forall j :: 0 <= j < i ==> !InputPotent(dims, rules, own, a.inputs[j], t, potent)
    {
      var p := IsPotent(dims, rules, own, opaqueIds, a.inputs[i], t, potent);
      if p {
        return true;
      }
    }
    r := false;
  }

  ghost predicate ClassifiedAs(dims: seq<Dimension>, rules: seq<Rule>, own: nat, a: Analyzable)
    requires RulesOk(dims, rules)
  {
    exists i :: 0 <= i < |rules| && Classify(dims, rules[i], own) == Localized(a)
  }

  lemma OneMoreClassified(dims: seq<Dimension>, rules: seq<Rule>, own: nat)
    requires RulesOk(dims, rules) && rules != []
    ensures var n := |rules| - 1;
            forall a :: ClassifiedAs(dims, rules, own, a) <==>
                        ClassifiedAs(dims, rules[..n], own, a) || Classify(dims, rules[n], own) == Localized(a)
  {
    hide Classify;
    var n := |rules| - 1;
    assert forall i :: 0 <= i < n ==> rules[..n][i] == rules[i];
  }

  /** The rules inference can analyze, in author order. */
  function AnalyzableRules(dims: seq<Dimension>, rules: seq<Rule>, own: nat): (r: seq<Analyzable>)
    requires RulesOk(dims, rules)
    ensures forall a :: a in r <==> ClassifiedAs(dims, rules, own, a)
  {
    if rules == [] then []
    else
      var n := |rules| - 1;
      var before := AnalyzableRules(dims, rules[..n], own);
      OneMoreClassified(dims, rules, own);
      match Classify(dims, rules[n], own)
      case Localized(a) => before + [a]
      case _ => before
  }

  /** Everything fed so far is fed in every set closed under the rules. */
  ghost predicate Below(cube: Cube, rules: seq<Rule>, own: nat, fed: set<Coord>)
    requires CubeOk(cube) && RulesOk(cube.dims, rules)
  {
    forall other: set<Coord> :: Closed(cube, rules, own, other) ==> fed <= other
  }

  lemma StaysBelow(cube: Cube, rules: seq<Rule>, own: nat, a: Analyzable, t: Coord, fed: set<Coord>)
    requires CubeOk(cube) && RulesOk(cube.dims, rules) && Below(cube, rules, own, fed)
    requires a in AnalyzableRules(cube.dims, rules, own) && InProduct(a.targetDims, t)
    requires Feeds(cube.dims, rules, own, a, t, cube.cells.Keys + fed)
    ensures Below(cube, rules, own, fed + {t})
  {
    hide Classify, InProduct, InputPotent, AnalyzableRules, CubeOk;
    DimsRolled(cube);
    forall other: set<Coord> | Closed(cube, rules, own, other)
      ensures t in other
    {
      var k :| 0 <= k < |rules| && Classify(cube.dims, rules[k], own) == Localized(a);
      assert ClosedAt(cube, rules, own, a, t, other);
      assert cube.cells.Keys + fed <= cube.cells.Keys + other;
      forall cell | cell in a.inputs && InputPotent(cube.dims, rules, own, cell, t, cube.cells.Keys + fed)
        ensures InputPotent(cube.dims, rules, own, cell, t, cube.cells.Keys + other)
      {
        PotentMonotone(cube.dims, rules, own, cell, t, cube.cells.Keys + fed, cube.cells.Keys + other);
      }
    }
  }

  lemma DimsRolled(cube: Cube)
    requires CubeOk(cube)
    ensures forall d :: 0 <= d < |cube.dims| ==> |cube.dims[d].rollup| == |cube.dims[d].elements|
  {
    assert forall d :: 0 <= d < |cube.dims| ==> DimensionOk(cube.dims[d]);
  }

  lemma TargetsAreLeaves(dims: seq<Dimension>, rules: seq<Rule>, own: nat, a: Analyzable, t: Coord)
    requires RulesOk(dims, rules) && a in AnalyzableRules(dims, rules, own) && InProduct(a.targetDims, t)
    ensures AllLeaf(dims, t)
  {
    var k :| 0 <= k < |rules| && Classify(dims, rules[k], own) == Localized(a);
    AreaLeavesAreLeaves(dims, rules[k].area, t);
  }

  lemma AllClosed(cube: Cube, rules: seq<Rule>, own: nat, fed: set<Coord>)
    requires CubeOk(cube) && RulesOk(cube.dims, rules)
    requires forall a, t :: a in AnalyzableRules(cube.dims, rules, own) ==> ClosedAt(cube, rules, own, a, t, fed)
    ensures Closed(cube, rules, own, fed)
  {
    hide Classify, ClosedAt;
  }

  /** One pass over one rule's target leaves, feeding those an input has made potent. */
  method FeedRule(cube: Cube, rules: seq<Rule>, own: nat, opaqueIds: seq<nat>, a: Analyzable, fed: set<Coord>)
    returns (now: set<Coord>)
    requires CubeOk(cube) && RulesOk(cube.dims, rules) && opaqueIds == OpaqueRules(cube.dims, rules, own)
    requires a in AnalyzableRules(cube.dims, rules, own)
    requires Below(cube, rules, own, fed) && fed <= Box(Shape(cube))
    ensures fed <= now && now <= Box(Shape(cube)) && Below(cube, rules, own, now)
    ensures now == fed ==> forall t :: ClosedAt(cube, rules, own, a, t, fed)
  {
    hide Classify, Below, AnalyzableRules, OpaqueRules, Size, Nth, Shape, Box, Feeds, CubeOk, InProduct;
    DimsRolled(cube);
    NthIsExact(a.targetDims);
    now := fed;
    var potent := cube.cells.Keys + fed;
    var walk := new CoordWalk(a.targetDims);
    var more, t := walk.NextCoord();
    ghost var n: nat := 0;
    while more
      invariant walk.Valid() && walk.lists == a.targetDims && fresh(walk)
      invariant n <= Size(Lens(a.targetDims))
      invariant more ==> n < Size(Lens(a.targetDims)) && t == Nth(a.targetDims, n) && walk.Emitted() == n + 1
      invariant !more ==> n == Size(Lens(a.targetDims))
      invariant potent == cube.cells.Keys + now
      invariant fed <= now <= Box(Shape(cube)) && Below(cube, rules, own, now)
      invariant now == fed ==> forall m :: 0 <= m < n ==> ClosedAt(cube, rules, own, a, Nth(a.targetDims, m), fed)
      decreases Size(Lens(a.targetDims)) - n
    {
      assert InProduct(a.targetDims, t);
      TargetInBox(cube, rules, own, a, t);
      if t !in now {
        var feed := IsFed(cube.dims, rules, own, opaqueIds, a, t, potent);
        if feed {
          StaysBelow(cube, rules, own, a, t, now);
          now, potent := now + {t}, potent + {t};
        }
      }
      n := n + 1;
      more, t := walk.NextCoord();
    }
  }

  lemma TargetInBox(cube: Cube, rules: seq<Rule>, own: nat, a: Analyzable, t: Coord)
    requires RulesOk(cube.dims, rules) && a in AnalyzableRules(cube.dims, rules, own) && InProduct(a.targetDims, t)
    ensures |t| == |cube.dims| && t in Box(Shape(cube))
  {
    hide AnalyzableRules;
    TargetsAreLeaves(cube.dims, rules, own, a, t);
    forall d | 0 <= d < |cube.dims|
      ensures t[d] < Shape(cube)[d]
    {
      assert IsLeaf(cube.dims[d], t[d]);
    }
  }

  /** The inferred feeders are the least set closed under the rules, whatever the order of
      rules and coordinates; the rules left out are reported. */
  method InferFeeders(cube: Cube, rules: seq<Rule>, own: nat) returns (fed: set<Coord>, opaqueIds: seq<nat>)
    requires CubeOk(cube) && RulesOk(cube.dims, rules)
    ensures Closed(cube, rules, own, fed)
    ensures forall other: set<Coord> :: Closed(cube, rules, own, other) ==> fed <= other
    ensures forall t :: t in fed ==> AllLeaf(cube.dims, t)
    ensures forall i: nat :: i in opaqueIds <==> i < |rules| && Classify(cube.dims, rules[i], own).Opaque?
  {
    hide Classify, Closed, ClosedAt, CubeOk, Shape, Box;
    var analyzable: seq<Analyzable> := [];
    opaqueIds := [];
    for i := 0 to |rules|
      invariant analyzable == AnalyzableRules(cube.dims, rules[..i], own)
      invariant opaqueIds == OpaqueRules(cube.dims, rules[..i], own)
    {
      assert rules[..i + 1][..i] == rules[..i];
      match Classify(cube.dims, rules[i], own) {
        case Localized(a) => analyzable := analyzable + [a];
        case Opaque => opaqueIds := opaqueIds + [i];
        case NothingToFeed =>
      }
    }
    assert rules[..|rules|] == rules;
    fed := {};
    assert Below(cube, rules, own, fed);
    var changed := true;
    while changed
      invariant fed <= Box(Shape(cube)) && Below(cube, rules, own, fed)
      invariant !changed ==> Closed(cube, rules, own, fed)
      decreases Box(Shape(cube)) - fed, changed
    {
      var before := fed;
      for i := 0 to |analyzable|
        invariant before <= fed <= Box(Shape(cube)) && Below(cube, rules, own, fed)
        invariant fed == before ==>
                    forall j, t :: 0 <= j < i ==> ClosedAt(cube, rules, own, analyzable[j], t, before)
      {
        var now := FeedRule(cube, rules, own, opaqueIds, analyzable[i], fed);
        assert now == before ==> fed == before;
        fed := now;
      }
      changed := fed != before;
      if !changed {
        AllClosed(cube, rules, own, fed);
      }
    }
    forall t | t in fed
      ensures AllLeaf(cube.dims, t)
    {
      LeavesBelow(cube, rules, own, fed, t);
    }
  }

  /** The least closed set holds leaves only. */
  lemma LeavesBelow(cube: Cube, rules: seq<Rule>, own: nat, fed: set<Coord>, t: Coord)
    requires CubeOk(cube) && RulesOk(cube.dims, rules)
    requires Below(cube, rules, own, fed) && Closed(cube, rules, own, fed) && t in fed
    ensures AllLeaf(cube.dims, t)
  {
    var leaves := set x | x in fed && AllLeaf(cube.dims, x);
    forall k, x | 0 <= k < |rules| && Classify(cube.dims, rules[k], own).Localized?
      ensures ClosedAt(cube, rules, own, Classify(cube.dims, rules[k], own).rule, x, leaves)
    {
      var a := Classify(cube.dims, rules[k], own).rule;
      ShrinkClosed(cube, rules, own, k, x, leaves, fed);
    }
    assert Closed(cube, rules, own, leaves);
  }

  lemma ShrinkClosed(cube: Cube, rules: seq<Rule>, own: nat, k: nat, x: Coord, part: set<Coord>, fed: set<Coord>)
    requires CubeOk(cube) && RulesOk(cube.dims, rules) && Closed(cube, rules, own, fed)
    requires k < |rules| && Classify(cube.dims, rules[k], own).Localized?
    requires part <= fed && forall y :: y in fed && AllLeaf(cube.dims, y) ==> y in part
    ensures ClosedAt(cube, rules, own, Classify(cube.dims, rules[k], own).rule, x, part)
  {
    hide InputPotent, CubeOk;
    var a := Classify(cube.dims, rules[k], own).rule;
    DimsRolled(cube);
    if InProduct(a.targetDims, x) && Feeds(cube.dims, rules, own, a, x, cube.cells.Keys + part) {
      AreaLeavesAreLeaves(cube.dims, rules[k].area, x);
      forall cell | cell in a.inputs && InputPotent(cube.dims, rules, own, cell, x, cube.cells.Keys + part)
        ensures InputPotent(cube.dims, rules, own, cell, x, cube.cells.Keys + fed)
      {
        PotentMonotone(cube.dims, rules, own, cell, x, cube.cells.Keys + part, cube.cells.Keys + fed);
      }
      assert ClosedAt(cube, rules, own, a, x, fed);
    }
  }
}
