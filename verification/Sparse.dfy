/** Where the completeness gate licenses it, reading rollups sparsely changes nothing: not a
    value, not an error, at any cell of any cube. */
module Sparse {
  import opened CubeModel
  import opened Rollups
  import opened Semantics
  import opened Evaluation
  import opened RollupSums

  // ---------------------------------------------------------------- registries of one shape

  /** The same cubes and rules, up to stored values and sparse licenses. */
  ghost predicate SameShape(a: seq<Entry>, b: seq<Entry>) {
    && |a| == |b|
    && forall o :: 0 <= o < |a| ==> a[o].cube.dims == b[o].cube.dims && a[o].rules == b[o].rules
  }

  lemma {:induction false} ExprShape(rd: Reader, a: seq<Entry>, b: seq<Entry>, own: nat, e: Expr)
    requires SameShape(a, b) && own < |a| && ExprOk(e, own, a)
    ensures ExprOk(e, own, b)
    ensures forall t: Coord :: |t| == |a[own].cube.dims| ==> RunExpr(rd, a, own, t, e) == RunExpr(rd, b, own, t, e)
    decreases e
  {
    match e
    case Num(_) =>
    case Undef =>
    case AttrNum(_, _) =>
    case Read(cell) => assert cell.cube < |b| && a[cell.cube].cube.dims == b[cell.cube].cube.dims;
    case Neg(x) => ExprShape(rd, a, b, own, x);
    case Bin(_, l, r) =>
      ExprShape(rd, a, b, own, l);
      ExprShape(rd, a, b, own, r);
    case If(c, t, o) =>
      CondShape(rd, a, b, own, c);
      ExprShape(rd, a, b, own, t);
      if o.Some? { ExprShape(rd, a, b, own, o.value); }
  }

  lemma {:induction false} CondShape(rd: Reader, a: seq<Entry>, b: seq<Entry>, own: nat, c: Cond)
    requires SameShape(a, b) && own < |a| && CondOk(c, own, a)
    ensures CondOk(c, own, b)
    ensures forall t: Coord :: |t| == |a[own].cube.dims| ==> RunCond(rd, a, own, t, c) == RunCond(rd, b, own, t, c)
    decreases c
  {
    match c
    case And(l, r) =>
      CondShape(rd, a, b, own, l);
      CondShape(rd, a, b, own, r);
    case Or(l, r) =>
      CondShape(rd, a, b, own, l);
      CondShape(rd, a, b, own, r);
    case Not(x) => CondShape(rd, a, b, own, x);
    case Cmp(x, _, y) =>
      ExprShape(rd, a, b, own, x);
      ExprShape(rd, a, b, own, y);
  }

  lemma ShapeOk(a: Env, b: Env)
    requires EnvOk(a) && SameShape(a.entries, b.entries)
    requires forall o :: 0 <= o < |b.entries| ==> CubeOk(b.entries[o].cube)
    requires forall o, c :: 0 <= o < |b.entries| && b.entries[o].fed.Some? && c in b.entries[o].fed.value ==>
               AllLeaf(b.entries[o].cube.dims, c)
    requires b.overlay.Some? ==> b.overlay.value.scope != 0
    ensures EnvOk(b)
    ensures Universe(a) == Universe(b)
  {
    hide ExprOk, CubeOk, AreaOk;
    forall o | 0 <= o < |b.entries|
      ensures EntryOk(b.entries, o)
    {
      assert EntryOk(a.entries, o);
      forall k | 0 <= k < |RulesOf(b.entries[o])|
        ensures ExprOk(RulesOf(b.entries[o])[k].expr, o, b.entries)
        ensures AreaOk(RulesOf(b.entries[o])[k].area, b.entries[o].cube.dims)
      {
        assert RulesOf(a.entries[o]) == RulesOf(b.entries[o]);
        ExprShape(Nothing(), a.entries, b.entries, o, RulesOf(a.entries[o])[k].expr);
      }
    }
  }

  lemma DenseEnv(env: Env)
    requires EnvOk(env)
    ensures EnvOk(Dense(env)) && Universe(Dense(env)) == Universe(env)
    ensures SameShape(env.entries, Dense(env).entries)
    ensures forall o :: 0 <= o < |env.entries| ==> Dense(env).entries[o].fed.None?
  {
    forall o | 0 <= o < |env.entries|
      ensures CubeOk(Dense(env).entries[o].cube)
    {
      assert EntryOk(env.entries, o);
    }
    ShapeOk(env, Dense(env));
  }

  // ---------------------------------------------------------------- what the gate establishes

  /** Every rule-targeted leaf of the cube has a value, and the non-zero ones are all fed. */
  ghost predicate Complete(base: Env, o: nat, fed: seq<Coord>)
    requires EnvOk(base) && o < |base.entries|
  {
    var dims, rules := base.entries[o].cube.dims, RulesOf(base.entries[o]);
    forall c :: AllLeaf(dims, c) && FirstMatch(rules, dims, c).Some? ==>
      Eval(base, {}, Cell(o, c)).Ok? && (Eval(base, {}, Cell(o, c)) != Ok(0) ==> c in fed)
  }

  /** The registry a base read is answered from: no license, no overlay, no mask. */
  function Base(env: Env): Env {
    Dense(env).(overlay := None, mask := None)
  }

  lemma BaseEnv(env: Env)
    requires EnvOk(env)
    ensures EnvOk(Base(env)) && Universe(Base(env)) == Universe(env)
    ensures SameShape(env.entries, Base(env).entries)
    ensures env.overlay.None? && env.mask.None? ==> Base(env) == Dense(env)
  {
    DenseEnv(env);
    forall o | 0 <= o < |env.entries|
      ensures EntryOk(Base(env).entries, o)
    {
      assert EntryOk(Dense(env).entries, o);
    }
  }

  ghost predicate Licensed(env: Env)
    requires EnvOk(env)
  {
    BaseEnv(env);
    forall o :: 0 <= o < |env.entries| && env.entries[o].fed.Some? ==>
      !env.entries[o].rules.Broken? && Complete(Base(env), o, env.entries[o].fed.value)
  }

  // ---------------------------------------------------------------- one rollup

  /** A leaf of a licensed cube has a value, and it is zero unless the leaf is stored or fed. */
  lemma LeafOfLicensed(env: Env, o: nat, coord: Coord)
    requires EnvOk(env) && Licensed(env) && o < |env.entries| && TakesSparse(env, o)
    requires AllLeaf(env.entries[o].cube.dims, coord)
    ensures EnvOk(Dense(env)) && Eval(Dense(env), {}, Cell(o, coord)).Ok?
    ensures Eval(Dense(env), {}, Cell(o, coord)) != Ok(0) ==>
              coord in env.entries[o].cube.scan + env.entries[o].fed.value
  {
    BaseEnv(env);
    var base, c := Base(env), Cell(o, coord);
    assert base == Dense(env) && EntryOk(env.entries, o) && EntryOk(base.entries, o);
    var rules, dims := RulesOf(base.entries[o]), base.entries[o].cube.dims;
    if FirstMatch(rules, dims, coord).Some? {
      assert Complete(base, o, env.entries[o].fed.value);
    } else {
      EvalUnfold(base, {}, c);
      assert Compute(base, Under(base, {} + {c}), c).res == Ok(Stored(base.entries[o].cube, coord));
    }
  }

  lemma PerDimAscending(env: Env, o: nat, coord: Coord)
    requires EnvOk(env) && o < |env.entries| && InRange(env.entries[o].cube.dims, coord)
    ensures EntryOk(env.entries, o)
    ensures Ascending(PerDim(env.entries[o].cube.dims, coord))
    ensures forall item :: item in DenseItems(PerDim(env.entries[o].cube.dims, coord)) ==>
              AllLeaf(env.entries[o].cube.dims, item.coord)
  {
    hide Digits;
    assert EntryOk(env.entries, o);
    var dims := env.entries[o].cube.dims;
    var perDim := PerDim(dims, coord);
    forall d | 0 <= d < |perDim|
      ensures RollupOk(dims[d], coord[d])
    {
      assert DimensionOk(dims[d]);
    }
    forall item | item in DenseItems(perDim)
      ensures AllLeaf(dims, item.coord)
    {
      var n :| 0 <= n < |DenseItems(perDim)| && DenseItems(perDim)[n] == item;
      var ds := Digits(Lens(perDim), n);
      forall d | 0 <= d < |dims|
        ensures IsLeaf(dims[d], item.coord[d])
      {
        assert RollupOk(dims[d], coord[d]) && item.coord[d] == perDim[d][ds[d]].leaf;
      }
    }
  }

  /** The leaves a rollup reads are Ok under its ancestors, when they are Ok from nothing. */
  lemma LeafUnderRollup(env: Env, stack: set<Cell>, c: Cell, items: seq<Item>, item: Item)
    requires EnvOk(env) && Genuine(env, stack, c) && c.cube < |env.entries| && EntryOk(env.entries, c.cube)
    requires forall n: nat :: n > 0 && OkAt(env, n, c) ==> RunSum(Within(env, n - 1), c.cube, items).res.Ok?
    requires item in items && Eval(env, {}, Cell(c.cube, item.coord)).Ok?
    ensures Genuine(env, stack + {c}, Cell(c.cube, item.coord))
    ensures Eval(env, stack + {c}, Cell(c.cube, item.coord)) == Eval(env, {}, Cell(c.cube, item.coord))
  {
    hide Bounded, Eval, EnvOk, Within, RunSum;
    var leaf := Cell(c.cube, item.coord);
    forall n: nat | OkAt(env, n, c)
      ensures n > 0 && OkAt(env, n - 1, leaf)
    {
      BoundedUnfold(env, n, c);
      var rd := Within(env, n - 1);
      SumConsultsAll(rd, c.cube, items);
      SumErrors(rd, c.cube, items);
      WithinIs(env, n - 1, leaf);
    }
    GenuineStep(env, stack, c, leaf);
    SameValue(env, {}, leaf);
    var n: nat :| OkAt(env, n, leaf);
    ValueUnderAncestors(env, n, stack + {c}, leaf);
  }

  /** A licensed rollup adds up to the same total from the scan as from the dense walk. */
  lemma SameTotal(env: Env, stack: set<Cell>, c: Cell)
    requires EnvOk(env) && EnvOk(Dense(env)) && Licensed(env) && Genuine(Dense(env), stack, c)
    requires c in Universe(env) && TakesSparse(env, c.cube) && EntryOk(env.entries, c.cube)
    requires var o, dims := c.cube, env.entries[c.cube].cube.dims;
             forall n: nat :: n > 0 && OkAt(Dense(env), n, c) ==>
               RunSum(Within(Dense(env), n - 1), o, DenseItems(PerDim(dims, c.coord))).res.Ok?
    requires forall e: Cell :: Genuine(Dense(env), stack + {c}, e) ==>
               Eval(env, stack + {c}, e) == Eval(Dense(env), stack + {c}, e)
    ensures var o, perDim := c.cube, PerDim(env.entries[c.cube].cube.dims, c.coord);
            RunSum(Under(env, stack + {c}), o, RollupItems(env, o, perDim)).res ==
            RunSum(Under(Dense(env), stack + {c}), o, DenseItems(perDim)).res
  {
    hide Eval, EnvOk, Universe, RunSum, DenseItems, SparseItems, CellWeight, Within, Under, Licensed, Genuine, Bounded,
      Dense, SumItems;
    var o, dims := c.cube, env.entries[c.cube].cube.dims;
    var perDim, dense, now := PerDim(dims, c.coord), Dense(env), stack + {c};
    var coords := env.entries[o].cube.scan + env.entries[o].fed.value;
    var all, part := DenseItems(perDim), SparseItems(perDim, coords);
    var rd, rs := Under(dense, now), Under(env, now);
    PerDimAscending(env, o, c.coord);
    DenseIsExact(perDim);
    assert forall x :: x in coords ==> |x| == |perDim|;
    SparseIsExact(perDim, coords);
    DenseEnv(env);
    assert EntryOk(dense.entries, o);
    forall item | item in all
      ensures rd(Cell(o, item.coord)).Ok? && rs(Cell(o, item.coord)) == rd(Cell(o, item.coord))
      ensures item !in part ==> Weighted(rd, o, item) == 0
    {
      LeafOfLicensed(env, o, item.coord);
      LeafUnderRollup(dense, stack, c, all, item);
      UnderIs(dense, now, Cell(o, item.coord));
      UnderIs(env, now, Cell(o, item.coord));
    }
    assert forall item :: item in part ==> item in all;
    SumOfValues(rd, o, all);
    SumOfValues(rs, o, part);
    SumAgree(rd, rs, o, part);
    SumOfPart(rd, o, all, part);
  }

  // ---------------------------------------------------------------- every cell

  /** With licenses the gate grants, every cell of every cube reads the same, value or error,
      as with no license at all. */
  lemma {:induction false} SparseIsDense(env: Env, stack: set<Cell>, c: Cell)
    requires EnvOk(env) && EnvOk(Dense(env)) && Licensed(env) && Genuine(Dense(env), stack, c)
    ensures Eval(env, stack, c) == Eval(Dense(env), stack, c)
    decreases Universe(env) - stack, 1
  {
    hide Eval, EnvOk, Universe, Compute, Under, Licensed, Genuine, Dense;
    EvalUnfold(env, stack, c);
    EvalUnfold(Dense(env), stack, c);
    DenseEnv(env);
    if c !in stack {
      if c !in Universe(env) {
        OutsideConsultsNothing(Dense(env), Under(Dense(env), stack + {c}), c);
        ComputeExt(Dense(env), Under(Dense(env), stack + {c}), Under(env, stack + {c}), c);
        SameOutside(env, Under(env, stack + {c}), c);
      } else {
        OneFewer(Universe(env), stack, c);
        forall e: Cell | Genuine(Dense(env), stack + {c}, e)
          ensures Eval(env, stack + {c}, e) == Eval(Dense(env), stack + {c}, e)
        {
          SparseIsDense(env, stack + {c}, e);
        }
        SameCompute(env, stack, c);
      }
    }
  }

  /** Whether `c` is a rollup no rule overrides, in a cube read sparsely. */
  predicate ScansSparsely(env: Env, c: Cell)
    requires c.cube < |env.entries|
  {
    && FirstMatch(RulesOf(env.entries[c.cube]), env.entries[c.cube].cube.dims, c.coord).None?
    && !AllLeaf(env.entries[c.cube].cube.dims, c.coord)
    && TakesSparse(env, c.cube)
  }

  /** Away from sparse rollups a license is never looked at. */
  lemma SameOutside(env: Env, rd: Reader, c: Cell)
    requires EnvOk(env) && EnvOk(Dense(env))
    requires c !in Universe(env) || !ScansSparsely(env, c)
    ensures Compute(env, rd, c) == Compute(Dense(env), rd, c)
  {
    hide RunExpr, RunSum, DenseItems, SparseItems, ExprOk, CubeOk, CheckedProduct, Denies, AllLeaf, AreaOk;
    DenseEnv(env);
    if c.cube < |env.entries| {
      assert EntryOk(env.entries, c.cube) && EntryOk(Dense(env).entries, c.cube);
      var rules := RulesOf(env.entries[c.cube]);
      var m := FirstMatch(rules, env.entries[c.cube].cube.dims, c.coord);
      if m.Some? {
        ExprShape(rd, env.entries, Dense(env).entries, c.cube, rules[m.value].expr);
      }
    }
  }

  lemma SameCompute(env: Env, stack: set<Cell>, c: Cell)
    requires EnvOk(env) && EnvOk(Dense(env)) && Licensed(env) && Genuine(Dense(env), stack, c)
    requires c in Universe(env) && c !in stack
    requires forall e: Cell :: Genuine(Dense(env), stack + {c}, e) ==>
               Eval(env, stack + {c}, e) == Eval(Dense(env), stack + {c}, e)
    ensures Compute(env, Under(env, stack + {c}), c).res == Compute(Dense(env), Under(Dense(env), stack + {c}), c).res
  {
    hide Eval, EnvOk, Universe, Compute, Under, Licensed, Genuine, Dense, RollupItems;
    var dense, now := Dense(env), stack + {c};
    var rd, rs := Under(dense, now), Under(env, now);
    if !ScansSparsely(env, c) {
      forall e | e in Compute(dense, rd, c).log
        ensures rd(e) == rs(e)
      {
        ConsultedUnder(dense, stack, c, e);
        UnderIs(dense, now, e);
        UnderIs(env, now, e);
      }
      ComputeExt(dense, rd, rs, c);
      SameOutside(env, rs, c);
    } else {
      SparseRollup(env, stack, c);
    }
  }

  lemma RollupUnfold(env: Env, rd: Reader, c: Cell)
    requires EnvOk(env) && c.cube < |env.entries| && env.mask.None? && !env.entries[c.cube].rules.Broken?
    requires FirstMatch(RulesOf(env.entries[c.cube]), env.entries[c.cube].cube.dims, c.coord).None?
    requires !AllLeaf(env.entries[c.cube].cube.dims, c.coord)
    ensures EntryOk(env.entries, c.cube)
    ensures Compute(env, rd, c) == RunRollup(env, rd, c)
  {}

  lemma SparseRollup(env: Env, stack: set<Cell>, c: Cell)
    requires EnvOk(env) && EnvOk(Dense(env)) && Licensed(env) && Genuine(Dense(env), stack, c)
    requires c in Universe(env) && ScansSparsely(env, c)
    requires forall e: Cell :: Genuine(Dense(env), stack + {c}, e) ==>
               Eval(env, stack + {c}, e) == Eval(Dense(env), stack + {c}, e)
    ensures Compute(env, Under(env, stack + {c}), c).res == Compute(Dense(env), Under(Dense(env), stack + {c}), c).res
  {
    hide Eval, EnvOk, Universe, Compute, Under, Within, Genuine, RunSum, DenseItems, SparseItems, CheckedProduct,
      Complete, Bounded, ExprOk;
    var o, dims, dense := c.cube, env.entries[c.cube].cube.dims, Dense(env);
    DenseEnv(env);
    BaseEnv(env);
    assert !env.entries[o].rules.Broken?;
    RollupUnfold(env, Under(env, stack + {c}), c);
    RollupUnfold(dense, Under(dense, stack + {c}), c);
    var perDim := PerDim(dims, c.coord);
    var total := CheckedProduct(Lens(perDim));
    if total.Some? && total.value != 0 {
      forall n: nat | n > 0 && OkAt(dense, n, c)
        ensures RunSum(Within(dense, n - 1), o, DenseItems(perDim)).res.Ok?
      {
        BoundedUnfold(dense, n, c);
        RollupUnfold(dense, Within(dense, n - 1), c);
      }
      SameTotal(env, stack, c);
    }
  }
}
