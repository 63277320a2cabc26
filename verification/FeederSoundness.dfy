/** Feeder inference never misses a leaf: what evaluates to something other than zero is
    stored, fed, or reported; and the one kind of input for which that can fail. */
module FeederSoundness {
  import opened FixedPoint
  import opened CubeModel
  import opened Rollups
  import opened Semantics
  import opened Evaluation
  import opened RollupSums
  import opened Sparse
  import opened Walks
  import opened Feeders

  ghost predicate HasLeaves(dims: seq<Dimension>, c: Coord)
    requires InRange(dims, c) && forall d :: 0 <= d < |dims| ==> |dims[d].rollup| == |dims[d].elements|
  {
    forall d :: 0 <= d < |dims| ==> dims[d].rollup[c[d]] != []
  }

  /** An input that a rule overrides at a consolidated coordinate is seen to be potent exactly
      when each of its elements has a leaf: the look at its leaves comes before the look for
      an override. */
  lemma OverriddenInput(dims: seq<Dimension>, rules: seq<Rule>, own: nat, cell: CellRef, t: Coord, potent: set<Coord>)
    requires RulesOk(dims, rules) && forall d :: 0 <= d < |dims| ==> |dims[d].rollup| == |dims[d].elements|
    requires |cell.addr| == |t| == |dims| && InRange(dims, ElementCoord(cell, t))
    requires !AllLeaf(dims, ElementCoord(cell, t)) && FirstMatch(rules, dims, ElementCoord(cell, t)).Some?
    ensures InputPotent(dims, rules, own, cell, t, potent) <==> HasLeaves(dims, ElementCoord(cell, t))
  {
    var c := ElementCoord(cell, t);
    var lists := LeafLists(dims, c);
    forall d | 0 <= d < |dims|
      ensures lists[d] == [] <==> dims[d].rollup[c[d]] == []
    {}
    if [] in lists {
      var d :| 0 <= d < |lists| && lists[d] == [];
    }
  }

  /** The formula has no choice: all its cells are read whenever it has a value. */
  predicate Unconditional(e: Expr) {
    match e
    case Neg(a) => Unconditional(a)
    case Bin(_, a, b) => Unconditional(a) && Unconditional(b)
    case If(_, _, _) => false
    case _ => true
  }

  /** No rule that is driven by its inputs, where it fires, reads a consolidation that another
      rule overrides though it has no leaves; nor one that the rule itself overrides, unless the
      rule has no choice, when it could only be a cycle. */
  ghost predicate NoChildlessOverride(base: Env, o: nat)
    requires EnvOk(base) && o < |base.entries|
  {
    EntryParts(base, o);
    var dims, rules := base.entries[o].cube.dims, RulesOf(base.entries[o]);
    forall k, t, cell :: 0 <= k < |rules| && FirstMatch(rules, dims, t) == Some(k)
      && Classify(dims, rules[k], o).Localized?
      && InProduct(Classify(dims, rules[k], o).rule.targetDims, t) && cell in Classify(dims, rules[k], o).rule.inputs
      && |cell.addr| == |t| && InRange(dims, ElementCoord(cell, t))
      && FirstMatch(rules, dims, ElementCoord(cell, t)).Some?
      && !(FirstMatch(rules, dims, ElementCoord(cell, t)) == Some(k) && Unconditional(rules[k].expr))
      ==> HasLeaves(dims, ElementCoord(cell, t))
  }

  lemma EntryParts(base: Env, o: nat)
    requires EnvOk(base) && o < |base.entries|
    ensures EntryOk(base.entries, o) && CubeOk(base.entries[o].cube)
    ensures RulesOk(base.entries[o].cube.dims, RulesOf(base.entries[o]))
    ensures forall d :: 0 <= d < |base.entries[o].cube.dims| ==>
              |base.entries[o].cube.dims[d].rollup| == |base.entries[o].cube.dims[d].elements|
    ensures forall k :: 0 <= k < |RulesOf(base.entries[o])| ==>
              ExprOk(RulesOf(base.entries[o])[k].expr, o, base.entries)
  {
    hide ExprOk;
    assert EntryOk(base.entries, o);
    DimsRolled(base.entries[o].cube);
    forall k | 0 <= k < |RulesOf(base.entries[o])|
      ensures AreaOk(RulesOf(base.entries[o])[k].area, base.entries[o].cube.dims)
    {}
  }

  /** Stored, fed, or first matched by a rule inference reported. */
  ghost predicate Accounted(base: Env, o: nat, fed: set<Coord>, t: Coord)
    requires EnvOk(base) && o < |base.entries|
  {
    EntryParts(base, o);
    var dims, rules := base.entries[o].cube.dims, RulesOf(base.entries[o]);
    || t in base.entries[o].cube.cells
    || t in fed
    || (FirstMatch(rules, dims, t).Some? && Classify(dims, rules[FirstMatch(rules, dims, t).value], o).Opaque?)
  }

  /** Soundness of inference, for every set closed under the rules and so for the inferred one. */
  lemma {:induction false} InferenceSound(base: Env, o: nat, fed: set<Coord>, n: nat, t: Coord)
    requires EnvOk(base) && o < |base.entries| && base.mask.None? && base.overlay.None?
    requires (EntryParts(base, o); Closed(base.entries[o].cube, RulesOf(base.entries[o]), o, fed))
    requires NoChildlessOverride(base, o)
    requires AllLeaf(base.entries[o].cube.dims, t)
    requires OkAt(base, n, Cell(o, t)) && Bounded(base, n, Cell(o, t)) != Ok(0)
    ensures Accounted(base, o, fed, t)
    decreases n, 1
  {
    hide Bounded, EnvOk, Compute, Within, Classify, NoChildlessOverride, RunExpr, Closed, AllLeaf, FirstMatch;
    EntryParts(base, o);
    BoundedUnfold(base, n, Cell(o, t));
    var cube, rules := base.entries[o].cube, RulesOf(base.entries[o]);
    LeafRun(base, Within(base, n - 1), o, t);
    var m := FirstMatch(rules, cube.dims, t);
    if m.Some? && !Classify(cube.dims, rules[m.value], o).Opaque? {
      RuleFeeds(base, o, fed, n - 1, m.value, t);
    }
  }

  /** A rule that is analyzable and gives its leaf a value other than zero feeds it. */
  lemma {:induction false} RuleFeeds(base: Env, o: nat, fed: set<Coord>, n: nat, k: nat, t: Coord)
    requires EnvOk(base) && o < |base.entries| && base.mask.None? && base.overlay.None?
    requires (EntryParts(base, o); Closed(base.entries[o].cube, RulesOf(base.entries[o]), o, fed))
    requires NoChildlessOverride(base, o) && AllLeaf(base.entries[o].cube.dims, t)
    requires (EntryParts(base, o);
             var dims, rules := base.entries[o].cube.dims, RulesOf(base.entries[o]);
             FirstMatch(rules, dims, t) == Some(k) && !Classify(dims, rules[k], o).Opaque?)
    requires (EntryParts(base, o); AllLeafInRange(base.entries[o].cube.dims, t);
             var r := RunExpr(Within(base, n), base.entries, o, t, RulesOf(base.entries[o])[k].expr).res;
             r.Ok? && r.value != 0)
    ensures t in fed
    decreases n, 3
  {
    hide Bounded, EnvOk, Compute, Within, Classify, InputPotent, NoChildlessOverride, RunExpr, Closed, AllLeaf,
      FirstMatch, BasePotent, InProduct, Matches;
    EntryParts(base, o);
    AllLeafInRange(base.entries[o].cube.dims, t);
    var dims, rule := base.entries[o].cube.dims, RulesOf(base.entries[o])[k];
    MatchedLeafInArea(dims, rule.area, t);
    AnalyzedRule(dims, rule, o, t);
    if !BasePotent(rule.expr, o) {
      var cell := NonZeroInput(base, o, n, t, rule);
      NonZeroInputPotent(base, o, fed, n, k, t, cell);
    }
    FedByClosure(base, o, fed, k, t);
  }

  /** A rule that is not base potent and has a non-zero value read a cell that is not zero. */
  lemma NonZeroInput(base: Env, o: nat, n: nat, t: Coord, rule: Rule) returns (cell: CellRef)
    requires EnvOk(base) && o < |base.entries| && rule in RulesOf(base.entries[o])
    requires AllLeaf(base.entries[o].cube.dims, t) && !BasePotent(rule.expr, o)
    requires (EntryParts(base, o); |rule.area.perDim| == |base.entries[o].cube.dims|)
    requires InProduct(AreaLeafDims(base.entries[o].cube.dims, rule.area), t)
    requires (EntryParts(base, o); AllLeafInRange(base.entries[o].cube.dims, t);
             var r := RunExpr(Within(base, n), base.entries, o, t, rule.expr).res; r.Ok? && r.value != 0)
    ensures (EntryParts(base, o);
             var dims := base.entries[o].cube.dims;
             Classify(dims, rule, o).Localized? && cell in Classify(dims, rule, o).rule.inputs
             && |cell.addr| == |t| && InRange(dims, ElementCoord(cell, t)))
    ensures OkAt(base, n, Cell(o, ElementCoord(cell, t))) && Bounded(base, n, Cell(o, ElementCoord(cell, t))) != Ok(0)
  {
    hide Bounded, EnvOk, Compute, Within, Classify, RunExpr, AllLeaf, BasePotent, InProduct;
    EntryParts(base, o);
    AllLeafInRange(base.entries[o].cube.dims, t);
    cell := NonZeroNeedsInput(Within(base, n), base.entries, o, t, rule.expr);
    ResolveIsElement(base, cell, o, t);
    WithinIs(base, n, Cell(o, ElementCoord(cell, t)));
    AnalyzedInput(base.entries[o].cube.dims, rule, o, t, cell);
  }

  /** A leaf's own evaluation: its first rule, or its stored value. */
  lemma LeafRun(base: Env, rd: Reader, o: nat, t: Coord)
    requires EnvOk(base) && o < |base.entries| && base.mask.None? && base.overlay.None?
    requires AllLeaf(base.entries[o].cube.dims, t) && Compute(base, rd, Cell(o, t)).res.Ok?
    ensures EntryOk(base.entries, o)
    ensures var m := FirstMatch(RulesOf(base.entries[o]), base.entries[o].cube.dims, t);
            && (m.None? ==> Compute(base, rd, Cell(o, t)).res == Ok(Stored(base.entries[o].cube, t)))
            && (m.Some? ==> Compute(base, rd, Cell(o, t)) ==
                            RunExpr(rd, base.entries, o, t, RulesOf(base.entries[o])[m.value].expr))
  {}

  lemma AllLeafInRange(dims: seq<Dimension>, t: Coord)
    requires AllLeaf(dims, t)
    ensures InRange(dims, t) && |t| == |dims|
  {
    assert forall d :: 0 <= d < |dims| ==> IsLeaf(dims[d], t[d]);
  }

  /** Reading an input off the slot's own position is right because compilation leaves no copied
      slot anywhere else. */
  lemma ResolveIsElement(base: Env, cell: CellRef, o: nat, t: Coord)
    requires EnvOk(base) && o < |base.entries| && cell.cube == o && RefOk(cell, o, base.entries)
    requires InRange(base.entries[o].cube.dims, t)
    ensures |cell.addr| == |t| && RefInTarget(cell, t)
    ensures Resolve(cell, t) == ElementCoord(cell, t) && InRange(base.entries[o].cube.dims, ElementCoord(cell, t))
  {
    assert |cell.addr| == |t|;
    forall d | 0 <= d < |t|
      ensures cell.addr[d].FromTarget? ==> cell.addr[d].pos == d
      ensures ElementCoord(cell, t)[d] < |base.entries[o].cube.dims[d].elements|
    {}
    assert forall d :: 0 <= d < |t| ==> Resolve(cell, t)[d] == ElementCoord(cell, t)[d];
  }

  lemma NoEmptyList(lists: seq<seq<nat>>, x: Coord)
    requires InProduct(lists, x)
    ensures [] !in lists
  {
    assert forall d :: 0 <= d < |lists| ==> x[d] in lists[d];
  }

  lemma AnalyzedRule(dims: seq<Dimension>, rule: Rule, own: nat, t: Coord)
    requires |rule.area.perDim| == |dims| && InProduct(AreaLeafDims(dims, rule.area), t)
    requires !Classify(dims, rule, own).Opaque?
    ensures BasePotent(rule.expr, own) ==>
              Classify(dims, rule, own).Localized? && Classify(dims, rule, own).rule.basePotent
    ensures Classify(dims, rule, own).Localized? ==>
              Classify(dims, rule, own).rule.targetDims == AreaLeafDims(dims, rule.area)
  {
    NoEmptyList(AreaLeafDims(dims, rule.area), t);
  }

  lemma AnalyzedInput(dims: seq<Dimension>, rule: Rule, own: nat, t: Coord, cell: CellRef)
    requires |rule.area.perDim| == |dims| && InProduct(AreaLeafDims(dims, rule.area), t)
    requires cell in CollectCells(rule.expr) && cell.cube == own
    ensures Classify(dims, rule, own).Localized? && cell in Classify(dims, rule, own).rule.inputs
  {
    NoEmptyList(AreaLeafDims(dims, rule.area), t);
    assert cell in SameCube(CollectCells(rule.expr), own);
  }

  lemma FedByClosure(base: Env, o: nat, fed: set<Coord>, k: nat, t: Coord)
    requires EnvOk(base) && o < |base.entries|
    requires (EntryParts(base, o); Closed(base.entries[o].cube, RulesOf(base.entries[o]), o, fed))
    requires (EntryParts(base, o);
             var dims, rules := base.entries[o].cube.dims, RulesOf(base.entries[o]);
             k < |rules| && Classify(dims, rules[k], o).Localized?
             && InProduct(Classify(dims, rules[k], o).rule.targetDims, t)
             && Feeds(dims, rules, o, Classify(dims, rules[k], o).rule, t, base.entries[o].cube.cells.Keys + fed))
    ensures t in fed
  {
    hide Classify, Feeds, EnvOk;
    EntryParts(base, o);
    assert ClosedAt(base.entries[o].cube, RulesOf(base.entries[o]), o,
                    Classify(base.entries[o].cube.dims, RulesOf(base.entries[o])[k], o).rule, t, fed);
  }

  /** An input whose value is not zero is potent once everything non-zero below it is accounted for. */
  lemma {:induction false} NonZeroInputPotent(base: Env, o: nat, fed: set<Coord>, n: nat, k: nat, t: Coord,
                                              cell: CellRef)
    requires EnvOk(base) && o < |base.entries| && base.mask.None? && base.overlay.None?
    requires (EntryParts(base, o); Closed(base.entries[o].cube, RulesOf(base.entries[o]), o, fed))
    requires NoChildlessOverride(base, o)
    requires (EntryParts(base, o);
             var dims, rules := base.entries[o].cube.dims, RulesOf(base.entries[o]);
             k < |rules| && FirstMatch(rules, dims, t) == Some(k) && Classify(dims, rules[k], o).Localized?
             && InProduct(Classify(dims, rules[k], o).rule.targetDims, t)
             && cell in Classify(dims, rules[k], o).rule.inputs
             && |cell.addr| == |t| && InRange(dims, ElementCoord(cell, t)))
    requires OkAt(base, n, Cell(o, ElementCoord(cell, t))) && Bounded(base, n, Cell(o, ElementCoord(cell, t))) != Ok(0)
    ensures (EntryParts(base, o);
             InputPotent(base.entries[o].cube.dims, RulesOf(base.entries[o]), o, cell, t,
                         base.entries[o].cube.cells.Keys + fed))
    decreases n, 2
  {
    hide Bounded, EnvOk, Compute, Within, Classify, InputPotent, RunExpr, Closed, AllLeaf, HasLeaves, FirstMatch,
      InProduct, NoChildlessOverride;
    EntryParts(base, o);
    var dims, rules, c := base.entries[o].cube.dims, RulesOf(base.entries[o]), ElementCoord(cell, t);
    var potent := base.entries[o].cube.cells.Keys + fed;
    if AllLeaf(dims, c) {
      InferenceSound(base, o, fed, n, c);
      AccountedPotent(base, o, fed, c);
      LeafInput(dims, rules, o, cell, t, potent);
    } else if FirstMatch(rules, dims, c).Some? {
      InputHasLeaves(base, o, n, k, t, cell);
      OverriddenInput(dims, rules, o, cell, t, potent);
    } else {
      var x := RolledNonZero(base, o, n, c);
      InferenceSound(base, o, fed, n - 1, x);
      AccountedPotent(base, o, fed, x);
      RolledInput(dims, rules, o, cell, t, potent, x);
    }
  }

  /** An overridden input with a value has leaves, where no childless one is read. */
  lemma InputHasLeaves(base: Env, o: nat, n: nat, k: nat, t: Coord, cell: CellRef)
    requires EnvOk(base) && o < |base.entries| && base.mask.None? && base.overlay.None? && NoChildlessOverride(base, o)
    requires (EntryParts(base, o);
             var dims, rules := base.entries[o].cube.dims, RulesOf(base.entries[o]);
             k < |rules| && FirstMatch(rules, dims, t) == Some(k) && Classify(dims, rules[k], o).Localized?
             && InProduct(Classify(dims, rules[k], o).rule.targetDims, t)
             && cell in Classify(dims, rules[k], o).rule.inputs
             && |cell.addr| == |t| && InRange(dims, ElementCoord(cell, t))
             && FirstMatch(rules, dims, ElementCoord(cell, t)).Some?)
    requires OkAt(base, n, Cell(o, ElementCoord(cell, t)))
    ensures (EntryParts(base, o); HasLeaves(base.entries[o].cube.dims, ElementCoord(cell, t)))
  {
    hide Bounded, EnvOk, Classify, HasLeaves, FirstMatch, InProduct, Unconditional, CollectCells;
    EntryParts(base, o);
    InputIsCollected(base.entries[o].cube.dims, RulesOf(base.entries[o])[k], o, cell);
    SelfOverride(base, o, n, k, t, cell);
  }

  lemma InputIsCollected(dims: seq<Dimension>, rule: Rule, own: nat, cell: CellRef)
    requires |rule.area.perDim| == |dims| && Classify(dims, rule, own).Localized?
    requires cell in Classify(dims, rule, own).rule.inputs
    ensures cell in CollectCells(rule.expr) && cell.cube == own
  {}

  lemma {:induction false} UnconditionalReads(rd: Reader, entries: seq<Entry>, own: nat, t: Coord, e: Expr)
    requires own < |entries| && ExprOk(e, own, entries) && |t| == |entries[own].cube.dims|
    requires Unconditional(e) && RunExpr(rd, entries, own, t, e).res.Ok?
    ensures forall cell :: cell in CollectCells(e) ==>
              RefOk(cell, own, entries) && RefInTarget(cell, t)
              && Cell(cell.cube, Resolve(cell, t)) in RunExpr(rd, entries, own, t, e).log
    decreases e
  {
    match e
    case Neg(a) => UnconditionalReads(rd, entries, own, t, a);
    case Bin(_, a, b) =>
      UnconditionalReads(rd, entries, own, t, a);
      UnconditionalReads(rd, entries, own, t, b);
    case _ =>
  }

  /** A rule without choices that overrides its own input never has a value there: the input
      would consult itself. */
  lemma SelfOverride(base: Env, o: nat, n: nat, k: nat, t: Coord, cell: CellRef)
    requires EnvOk(base) && o < |base.entries| && base.mask.None? && base.overlay.None?
    requires k < |RulesOf(base.entries[o])| && |cell.addr| == |t|
    requires cell in CollectCells(RulesOf(base.entries[o])[k].expr) && cell.cube == o
    requires InRange(base.entries[o].cube.dims, ElementCoord(cell, t))
    ensures var rules, dims := RulesOf(base.entries[o]), base.entries[o].cube.dims;
            FirstMatch(rules, dims, ElementCoord(cell, t)) == Some(k) && Unconditional(rules[k].expr) ==>
              !OkAt(base, n, Cell(o, ElementCoord(cell, t)))
  {
    hide Bounded, EnvOk, Compute, Within, FirstMatch, RunExpr, CollectCells, ExprOk, Unconditional;
    EntryParts(base, o);
    var rules, dims, c := RulesOf(base.entries[o]), base.entries[o].cube.dims, ElementCoord(cell, t);
    if FirstMatch(rules, dims, c) == Some(k) && Unconditional(rules[k].expr) && OkAt(base, n, Cell(o, c)) {
      BoundedUnfold(base, n, Cell(o, c));
      var rd := Within(base, n - 1);
      OverrideRun(base, rd, o, c);
      UnconditionalReads(rd, base.entries, o, c, rules[k].expr);
      ResolveIsElement(base, cell, o, c);
      assert ElementCoord(cell, c) == c;
      ConsultedWithin(base, n, Cell(o, c), Cell(o, c));
      NoSelfRest(base, n, Cell(o, c));
    }
  }

  /** What an overriding rule's cell computes. */
  lemma OverrideRun(base: Env, rd: Reader, o: nat, c: Coord)
    requires EnvOk(base) && o < |base.entries| && base.mask.None? && Compute(base, rd, Cell(o, c)).res.Ok?
    requires FirstMatch(RulesOf(base.entries[o]), base.entries[o].cube.dims, c).Some?
    ensures EntryOk(base.entries, o) && |c| == |base.entries[o].cube.dims|
    ensures Compute(base, rd, Cell(o, c)) ==
            RunExpr(rd, base.entries, o, c,
                    RulesOf(base.entries[o])[FirstMatch(RulesOf(base.entries[o]), base.entries[o].cube.dims,
                                                        c).value].expr)
  {
    hide RunExpr, CubeOk, ExprOk, AreaOk, RunRollup, AllLeaf, Matches;
    MatchedInRange(base, o, c);
  }

  lemma AccountedPotent(base: Env, o: nat, fed: set<Coord>, x: Coord)
    requires EnvOk(base) && o < |base.entries| && Accounted(base, o, fed, x)
    ensures (EntryParts(base, o);
             x in base.entries[o].cube.cells.Keys + fed
             || InOpaqueArea(base.entries[o].cube.dims, RulesOf(base.entries[o]), o, x))
  {
    hide Classify, EnvOk;
    EntryParts(base, o);
  }

  lemma LeafInput(dims: seq<Dimension>, rules: seq<Rule>, own: nat, cell: CellRef, t: Coord, potent: set<Coord>)
    requires RulesOk(dims, rules) && forall d :: 0 <= d < |dims| ==> DimensionOk(dims[d])
    requires forall d :: 0 <= d < |dims| ==> |dims[d].rollup| == |dims[d].elements|
    requires |cell.addr| == |t| == |dims| && AllLeaf(dims, ElementCoord(cell, t))
    requires var c := ElementCoord(cell, t); c in potent || InOpaqueArea(dims, rules, own, c)
    ensures InputPotent(dims, rules, own, cell, t, potent)
  {
    hide Matches, Classify, FirstMatch, CheckedProduct;
    var c := ElementCoord(cell, t);
    AllLeafInRange(dims, c);
    var lists := LeafLists(dims, c);
    forall d | 0 <= d < |dims|
      ensures lists[d] == [c[d]]
    {
      assert DimensionOk(dims[d]) && RollupOk(dims[d], c[d]) && IsLeaf(dims[d], c[d]);
    }
    assert InProduct(lists, c);
  }

  lemma RolledInput(dims: seq<Dimension>, rules: seq<Rule>, own: nat, cell: CellRef, t: Coord, potent: set<Coord>,
                    x: Coord)
    requires RulesOk(dims, rules) && forall d :: 0 <= d < |dims| ==> |dims[d].rollup| == |dims[d].elements|
    requires |cell.addr| == |t| == |dims| && InRange(dims, ElementCoord(cell, t))
    requires InProduct(LeafLists(dims, ElementCoord(cell, t)), x)
    requires x in potent || InOpaqueArea(dims, rules, own, x)
    ensures InputPotent(dims, rules, own, cell, t, potent)
  {
    hide Matches, Classify, FirstMatch, CheckedProduct;
    NoEmptyList(LeafLists(dims, ElementCoord(cell, t)), x);
  }

  /** A rollup that is not zero has a contributing leaf that is not zero. */
  lemma RolledNonZero(base: Env, o: nat, n: nat, c: Coord) returns (x: Coord)
    requires EnvOk(base) && o < |base.entries| && base.mask.None? && base.overlay.None?
    requires InRange(base.entries[o].cube.dims, c) && !AllLeaf(base.entries[o].cube.dims, c)
    requires FirstMatch(RulesOf(base.entries[o]), base.entries[o].cube.dims, c).None?
    requires OkAt(base, n, Cell(o, c)) && Bounded(base, n, Cell(o, c)) != Ok(0)
    ensures n > 0 && OkAt(base, n - 1, Cell(o, x)) && Bounded(base, n - 1, Cell(o, x)) != Ok(0)
    ensures (EntryParts(base, o); InProduct(LeafLists(base.entries[o].cube.dims, c), x))
    ensures AllLeaf(base.entries[o].cube.dims, x)
  {
    hide Bounded, EnvOk, Compute, Within, RunSum, DenseItems, SparseItems, CheckedProduct, AllLeaf, SumItems, ItemAt,
      CellWeight, FirstMatch, InProduct;
    EntryParts(base, o);
    BoundedUnfold(base, n, Cell(o, c));
    var dims, rd := base.entries[o].cube.dims, Within(base, n - 1);
    var perDim := PerDim(dims, c);
    NotBroken(base, rd, Cell(o, c));
    RollupUnfold(base, rd, Cell(o, c));
    var items := RollupItems(base, o, perDim);
    assert RunSum(rd, o, items).res.Ok? && RunSum(rd, o, items).res.value != 0;
    SumConsultsAll(rd, o, items);
    SumErrors(rd, o, items);
    SumOfValues(rd, o, items);
    var item := SomeNonZero(rd, o, items);
    x := item.coord;
    WithinIs(base, n - 1, Cell(o, x));
    ItemsAreLeaves(base, o, c, item);
  }

  lemma NotBroken(base: Env, rd: Reader, c: Cell)
    requires EnvOk(base) && c.cube < |base.entries| && Compute(base, rd, c).res.Ok?
    ensures !base.entries[c.cube].rules.Broken?
  {}

  lemma {:induction false} SomeNonZero(rd: Reader, o: nat, items: seq<Item>) returns (item: Item)
    requires SumItems(rd, o, items) != 0
    ensures item in items && Weighted(rd, o, item) != 0
  {
    hide Weighted;
    var n := |items| - 1;
    if Weighted(rd, o, items[n]) != 0 {
      item := items[n];
    } else {
      item := SomeNonZero(rd, o, items[..n]);
    }
  }

  lemma ItemsAreLeaves(base: Env, o: nat, c: Coord, item: Item)
    requires EnvOk(base) && o < |base.entries| && InRange(base.entries[o].cube.dims, c)
    requires (EntryParts(base, o); item in RollupItems(base, o, PerDim(base.entries[o].cube.dims, c)))
    ensures (EntryParts(base, o); InProduct(LeafLists(base.entries[o].cube.dims, c), item.coord))
    ensures AllLeaf(base.entries[o].cube.dims, item.coord)
  {
    hide EnvOk, DenseItems, SparseItems, CellWeight;
    EntryParts(base, o);
    var dims := base.entries[o].cube.dims;
    var perDim := PerDim(dims, c);
    PerDimAscending(base, o, c);
    DenseIsExact(perDim);
    if TakesSparse(base, o) {
      SparseIsExact(perDim, base.entries[o].cube.scan + base.entries[o].fed.value);
      assert item in DenseItems(perDim);
    }
    WeightedInLists(dims, c, item.coord);
  }

  lemma WeightedInLists(dims: seq<Dimension>, c: Coord, x: Coord)
    requires InRange(dims, c) && forall d :: 0 <= d < |dims| ==> |dims[d].rollup| == |dims[d].elements|
    requires |x| == |dims| && CellWeight(PerDim(dims, c), x).Some?
    ensures InProduct(LeafLists(dims, c), x)
  {
    hide CellWeight, ItemAt;
    var ds := FindDigits(PerDim(dims, c), x);
    forall d | 0 <= d < |dims|
      ensures x[d] in LeafLists(dims, c)[d]
    {
      assert x[d] == PerDim(dims, c)[d][ds[d]].leaf == LeafLists(dims, c)[d][ds[d]];
    }
  }

  // ---------------------------------------------------------------- where inference does miss a leaf

  /** One dimension with a leaf and a consolidation without leaves; one rule sets the
      consolidation, the other copies it to the leaf. */
  function ChildlessEnv(): Env {
    var dim := Dimension("Measure", [Element("Net", Leaf), Element("Plan", Consolidated)], [],
                         [[Contribution(0, 1)], []], [], map[]);
    var setPlan := Rule(Area([OneOf([1])], false), Num(SCALE));
    var copyPlan := Rule(Area([OneOf([0])], false), Expr.Read(CellRef(0, [Pinned(1)])));
    Env([Entry(Cube("Sales", [dim], map[], []), Compiled([setPlan, copyPlan]), None)], None, None)
  }

  lemma ChildlessDims()
    ensures DimensionOk(ChildlessEnv().entries[0].cube.dims[0])
  {
    var dim := ChildlessEnv().entries[0].cube.dims[0];
    assert RollupOk(dim, 0) && RollupOk(dim, 1);
  }

  lemma ChildlessEnvOk()
    ensures EnvOk(ChildlessEnv())
  {
    hide DimensionOk;
    ChildlessDims();
    var env := ChildlessEnv();
    var rules, dims := RulesOf(env.entries[0]), env.entries[0].cube.dims;
    assert AreaOk(rules[0].area, dims) && AreaOk(rules[1].area, dims);
    assert ExprOk(rules[0].expr, 0, env.entries) && ExprOk(rules[1].expr, 0, env.entries);
    assert EntryOk(env.entries, 0);
  }

  lemma ChildlessMatches()
    ensures var dims, rules := ChildlessEnv().entries[0].cube.dims, RulesOf(ChildlessEnv().entries[0]);
            FirstMatch(rules, dims, [0]) == Some(1) && FirstMatch(rules, dims, [1]) == Some(0)
  {
    var dims, rules := ChildlessEnv().entries[0].cube.dims, RulesOf(ChildlessEnv().entries[0]);
    assert !MatchesDim(rules[0].area.perDim[0], false, dims[0], [0][0]);
    assert !Matches(rules[0].area, dims, [0]);
    assert rules[1..][0] == rules[1] && Matches(rules[1].area, dims, [0]);
  }

  lemma ChildlessClosed()
    ensures EnvOk(ChildlessEnv())
    ensures (EntryParts(ChildlessEnv(), 0);
             Closed(ChildlessEnv().entries[0].cube, RulesOf(ChildlessEnv().entries[0]), 0, {}))
    ensures (EntryParts(ChildlessEnv(), 0);
             !Classify(ChildlessEnv().entries[0].cube.dims, RulesOf(ChildlessEnv().entries[0])[1], 0).Opaque?)
  {
    hide EnvOk, FirstMatch, CheckedProduct;
    ChildlessEnvOk();
    var env := ChildlessEnv();
    EntryParts(env, 0);
    var cube, rules := env.entries[0].cube, RulesOf(env.entries[0]);
    var dims, cell := cube.dims, CellRef(0, [Pinned(1)]);
    assert LeavesAmong(dims[0], [1]) == [];
    assert [] in AreaLeafDims(dims, rules[0].area) by {
      assert AreaLeafDims(dims, rules[0].area)[0] == [];
    }
    assert SameCube(CollectCells(rules[1].expr), 0) == [cell];
    forall t: Coord
      ensures !InputPotent(dims, rules, 0, cell, t, cube.cells.Keys + {})
    {
      if |t| == 1 {
        assert ElementCoord(cell, t) == [1];
        assert LeafLists(dims, [1])[0] == [];
      }
    }
  }

  lemma ChildlessRuns(rd: Reader)
    ensures EnvOk(ChildlessEnv())
    ensures Compute(ChildlessEnv(), rd, Cell(0, [1])).res == Ok(SCALE)
    ensures Compute(ChildlessEnv(), rd, Cell(0, [0])).res == rd(Cell(0, [1]))
  {
    hide EnvOk, FirstMatch;
    ChildlessEnvOk();
    ChildlessMatches();
    assert Resolve(CellRef(0, [Pinned(1)]), [0]) == [1];
  }

  /** Without the hypothesis inference can miss a leaf: this registry's inferred feeders are
      empty although its only leaf is one. */
  lemma ChildlessOverrideIsMissed()
    ensures EnvOk(ChildlessEnv())
    ensures (EntryParts(ChildlessEnv(), 0);
             Closed(ChildlessEnv().entries[0].cube, RulesOf(ChildlessEnv().entries[0]), 0, {}))
    ensures Eval(ChildlessEnv(), {}, Cell(0, [0])) == Ok(SCALE)
    ensures !Accounted(ChildlessEnv(), 0, {}, [0])
  {
    hide EnvOk, Compute, Eval, Under, Closed, FirstMatch, Classify;
    ChildlessClosed();
    ChildlessMatches();
    var env, leaf, plan := ChildlessEnv(), Cell(0, [0]), Cell(0, [1]);
    EntryParts(env, 0);
    var first := {} + {leaf};
    EvalUnfold(env, {}, leaf);
    ChildlessRuns(Under(env, first));
    UnderIs(env, first, plan);
    assert [0][0] != [1][0];
    EvalUnfold(env, first, plan);
    ChildlessRuns(Under(env, first + {plan}));
  }

  // ---------------------------------------------------------------- and where a choice makes it miss one

  /** A rule that sets its own childless input, by another branch than the one that reads it. */
  function SelfSetEnv(): Env {
    var measure := Dimension("Measure", [Element("Net", Leaf), Element("Plan", Consolidated)], [],
                             [[Contribution(0, 1)], []], ["planned"], map[(1, 0) := Numeric(SCALE)]);
    var period := Dimension("Period", [Element("Q1", Leaf), Element("Q2", Leaf)], [],
                            [[Contribution(0, 1)], [Contribution(1, 1)]], [], map[]);
    var setPlan := Rule(Area([OneOf([1]), OneOf([1])], false), Num(SCALE));
    var copyPlan := Rule(SelfSetArea(), SelfSetExpr());
    Env([Entry(Cube("Sales", [measure, period], map[], []), Compiled([setPlan, copyPlan]), None)], None, None)
  }

  function SelfSetArea(): Area { Area([OneOf([0, 1]), OneOf([0])], false) }

  /** The plan of the same period; at the plan itself, the same measure of the second quarter. */
  function SelfSetExpr(): Expr {
    If(Cmp(AttrNum(0, 0), Eq, Num(0)), Expr.Read(PlanCell()), Some(Expr.Read(LaterCell())))
  }

  function PlanCell(): CellRef { CellRef(0, [Pinned(1), FromTarget(1)]) }

  function LaterCell(): CellRef { CellRef(0, [FromTarget(0), Pinned(1)]) }

  lemma SelfSetDims()
    ensures forall d :: 0 <= d < 2 ==> DimensionOk(SelfSetEnv().entries[0].cube.dims[d])
  {
    var dims := SelfSetEnv().entries[0].cube.dims;
    assert RollupOk(dims[0], 0) && RollupOk(dims[0], 1) && RollupOk(dims[1], 0) && RollupOk(dims[1], 1);
  }

  lemma SelfSetEnvOk()
    ensures EnvOk(SelfSetEnv())
  {
    hide DimensionOk, AreaOk, ExprOk;
    var env := SelfSetEnv();
    SelfSetDims();
    assert CubeOk(env.entries[0].cube);
    SelfSetRulesOk();
    assert |RulesOf(env.entries[0])| == 2;
    assert EntryOk(env.entries, 0);
  }

  lemma SelfSetRulesOk()
    ensures var entries := SelfSetEnv().entries;
            var rules := RulesOf(entries[0]);
            && AreaOk(rules[0].area, entries[0].cube.dims) && AreaOk(rules[1].area, entries[0].cube.dims)
            && ExprOk(rules[0].expr, 0, entries) && ExprOk(rules[1].expr, 0, entries)
  {
    var entries := SelfSetEnv().entries;
    assert RefOk(PlanCell(), 0, entries) && RefOk(LaterCell(), 0, entries);
    assert ExprOk(Expr.Read(PlanCell()), 0, entries) && ExprOk(Expr.Read(LaterCell()), 0, entries);
    assert CondOk(Cmp(AttrNum(0, 0), Eq, Num(0)), 0, entries);
    assert ExprOk(SelfSetExpr(), 0, entries);
  }

  lemma SelfSetMatches()
    ensures var dims, rules := SelfSetEnv().entries[0].cube.dims, RulesOf(SelfSetEnv().entries[0]);
            && FirstMatch(rules, dims, [0, 0]) == Some(1) && FirstMatch(rules, dims, [1, 0]) == Some(1)
            && FirstMatch(rules, dims, [1, 1]) == Some(0)
  {
    hide Matches;
    var dims, rules := SelfSetEnv().entries[0].cube.dims, RulesOf(SelfSetEnv().entries[0]);
    SelfSetAreas(0);
    SelfSetAreas(1);
    assert rules[1..][0] == rules[1];
  }

  lemma SelfSetAreas(i: nat)
    requires i < 2
    ensures var dims, rules := SelfSetEnv().entries[0].cube.dims, RulesOf(SelfSetEnv().entries[0]);
            !Matches(rules[0].area, dims, [i, 0]) && Matches(rules[1].area, dims, [i, 0])
              && Matches(rules[0].area, dims, [1, 1])
  {
    var dims, rules := SelfSetEnv().entries[0].cube.dims, RulesOf(SelfSetEnv().entries[0]);
    assert !MatchesDim(rules[0].area.perDim[1], false, dims[1], [i, 0][1]);
  }

  lemma SelfSetRuns(rd: Reader)
    ensures EnvOk(SelfSetEnv())
    ensures Compute(SelfSetEnv(), rd, Cell(0, [1, 1])).res == Ok(SCALE)
    ensures Compute(SelfSetEnv(), rd, Cell(0, [1, 0])).res == rd(Cell(0, [1, 1]))
    ensures Compute(SelfSetEnv(), rd, Cell(0, [0, 0])).res == rd(Cell(0, [1, 0]))
  {
    hide EnvOk, FirstMatch, RunExpr;
    SelfSetEnvOk();
    SelfSetMatches();
    SelfSetRun(rd, 0);
    SelfSetRun(rd, 1);
    var entries := SelfSetEnv().entries;
    assert RunExpr(rd, entries, 0, [1, 1], Num(SCALE)) == Run(Ok(SCALE), []) by { NumRuns(rd, entries, [1, 1], SCALE); }
  }

  lemma NumRuns(rd: Reader, entries: seq<Entry>, t: Coord, v: Fixed)
    requires 0 < |entries| && |t| == |entries[0].cube.dims|
    ensures RunExpr(rd, entries, 0, t, Num(v)) == Run(Ok(v), [])
  {}

  lemma SelfSetRun(rd: Reader, i: nat)
    requires i < 2
    ensures var entries := SelfSetEnv().entries;
            && ExprOk(SelfSetExpr(), 0, entries)
            && RunExpr(rd, entries, 0, [i, 0], SelfSetExpr()).res == rd(Cell(0, if i == 0 then [1, 0] else [1, 1]))
  {
    SelfSetRulesOk();
    hide ExprOk;
    if i == 0 {
      assert Resolve(PlanCell(), [0, 0]) == [1, 0];
    } else {
      assert Resolve(LaterCell(), [1, 0]) == [1, 1];
    }
  }

  lemma SelfSetInputs(t: Coord)
    ensures EnvOk(SelfSetEnv())
    ensures (EntryParts(SelfSetEnv(), 0);
             var dims, rules := SelfSetEnv().entries[0].cube.dims, RulesOf(SelfSetEnv().entries[0]);
             && (forall k :: 0 <= k < 2 ==> !Classify(dims, rules[k], 0).Opaque?)
             && !InputPotent(dims, rules, 0, PlanCell(), t, {})
             && !InputPotent(dims, rules, 0, LaterCell(), [0, 0], {}))
  {
    hide EnvOk, FirstMatch, CheckedProduct, Matches, Classify, AllLeaf;
    SelfSetEnvOk();
    EntryParts(SelfSetEnv(), 0);
    var dims, rules := SelfSetEnv().entries[0].cube.dims, RulesOf(SelfSetEnv().entries[0]);
    SelfSetClasses();
    SelfSetPlan(t);
    assert ElementCoord(LaterCell(), [0, 0]) == [0, 1];
    SelfSetLeafCount([0, 1]);
  }

  lemma SelfSetPlan(t: Coord)
    ensures EnvOk(SelfSetEnv())
    ensures (EntryParts(SelfSetEnv(), 0);
             !InputPotent(SelfSetEnv().entries[0].cube.dims, RulesOf(SelfSetEnv().entries[0]), 0, PlanCell(), t, {}))
  {
    hide EnvOk, FirstMatch, CheckedProduct, Matches, Classify, AllLeaf, InProduct;
    SelfSetEnvOk();
    EntryParts(SelfSetEnv(), 0);
    var dims := SelfSetEnv().entries[0].cube.dims;
    if |t| == 2 {
      assert ElementCoord(PlanCell(), t)[0] == 1;
      assert InRange(dims, ElementCoord(PlanCell(), t)) ==> LeafLists(dims, ElementCoord(PlanCell(), t))[0] == [];
    }
  }

  /** A leaf coordinate expands to itself. */
  lemma SelfSetLeafCount(c: Coord)
    requires c == [0, 1]
    ensures var dims := SelfSetEnv().entries[0].cube.dims;
            && AllLeaf(dims, c) && CheckedProduct(Lens(LeafLists(dims, c))) == Some(1)
  {
    var dims := SelfSetEnv().entries[0].cube.dims;
    var lists := LeafLists(dims, c);
    assert LeafList([Contribution(0, 1)]) == [0] && LeafList([Contribution(1, 1)]) == [1];
    assert lists[0] == [0] && lists[1] == [1] && lists == [[0], [1]];
    var one: seq<nat> := [1];
    assert Lens(lists) == one + one && (one + one)[1..] == one && one[1..] == [];
    assert CheckedFrom(1, []) == Some(1) && CheckedFrom(1, one) == Some(1) && CheckedFrom(1, one + one) == Some(1);
  }

  lemma SelfSetAreaLeaves()
    ensures var dims, rules := SelfSetEnv().entries[0].cube.dims, RulesOf(SelfSetEnv().entries[0]);
            [] in AreaLeafDims(dims, rules[0].area) && AreaLeafDims(dims, rules[1].area) == [[0], [0]]
  {
    var dims, rules := SelfSetEnv().entries[0].cube.dims, RulesOf(SelfSetEnv().entries[0]);
    assert LeavesAmong(dims[0], [1]) == [] && LeavesAmong(dims[0], [0, 1]) == [0] && LeavesAmong(dims[1], [0]) == [0];
    assert AreaLeafDims(dims, rules[0].area)[0] == [];
    assert AreaLeafDims(dims, rules[1].area) == [[0], [0]];
  }

  lemma SelfSetClasses()
    ensures var dims, rules := SelfSetEnv().entries[0].cube.dims, RulesOf(SelfSetEnv().entries[0]);
            && Classify(dims, rules[0], 0) == NothingToFeed
            && Classify(dims, rules[1], 0) == Localized(Analyzable([[0], [0]], [PlanCell(), LaterCell()], false))
  {
    hide AreaLeafDims;
    SelfSetAreaLeaves();
    assert CollectCells(SelfSetExpr()) == [PlanCell(), LaterCell()];
    assert SameCube([PlanCell(), LaterCell()], 0) == [PlanCell(), LaterCell()];
  }

  lemma SelfSetClosed()
    ensures EnvOk(SelfSetEnv())
    ensures (EntryParts(SelfSetEnv(), 0);
             Closed(SelfSetEnv().entries[0].cube, RulesOf(SelfSetEnv().entries[0]), 0, {}))
  {
    hide EnvOk, FirstMatch, CheckedProduct, Matches, InputPotent, Classify;
    SelfSetEnvOk();
    var env := SelfSetEnv();
    EntryParts(env, 0);
    var cube, rules := env.entries[0].cube, RulesOf(env.entries[0]);
    SelfSetClasses();
    SelfSetInputs([0, 0]);
    assert cube.cells.Keys + {} == {};
    forall t | InProduct([[0], [0]], t)
      ensures t == [0, 0]
    {}
  }

  lemma SelfSetValue()
    ensures EnvOk(SelfSetEnv()) && Eval(SelfSetEnv(), {}, Cell(0, [0, 0])) == Ok(SCALE)
  {
    hide EnvOk, Compute, Eval, Under;
    SelfSetEnvOk();
    var env, leaf, plan, later := SelfSetEnv(), Cell(0, [0, 0]), Cell(0, [1, 0]), Cell(0, [1, 1]);
    assert [0, 0][0] != [1, 0][0] && [1, 0][1] != [1, 1][1] && [0, 0][0] != [1, 1][0];
    var s1 := {} + {leaf};
    var s2 := s1 + {plan};
    EvalUnfold(env, {}, leaf);
    SelfSetRuns(Under(env, s1));
    UnderIs(env, s1, plan);
    EvalUnfold(env, s1, plan);
    SelfSetRuns(Under(env, s2));
    UnderIs(env, s2, later);
    EvalUnfold(env, s2, later);
    SelfSetRuns(Under(env, s2 + {later}));
  }

  /** Nor can a rule with a choice be let off: this one overrides its own input, the cell it
      copies has a value, and its leaf is missed. */
  lemma ConditionalSelfOverrideIsMissed()
    ensures EnvOk(SelfSetEnv())
    ensures (EntryParts(SelfSetEnv(), 0);
             Closed(SelfSetEnv().entries[0].cube, RulesOf(SelfSetEnv().entries[0]), 0, {}))
    ensures Eval(SelfSetEnv(), {}, Cell(0, [0, 0])) == Ok(SCALE)
    ensures !Accounted(SelfSetEnv(), 0, {}, [0, 0])
  {
    hide EnvOk, Eval, Closed, FirstMatch, Classify;
    SelfSetClosed();
    SelfSetMatches();
    SelfSetClasses();
    SelfSetValue();
    EntryParts(SelfSetEnv(), 0);
  }
}
