/** Theorems about the meaning of a cell: it depends only on the cells it consults, the
    stack only ever turns a value into a cycle, and evaluation is well founded exactly
    where it succeeds. */
module Evaluation {
  import opened FixedPoint
  import opened CubeModel
  import opened Rollups
  import opened Semantics

  // ---------------------------------------------------------------- extensionality

  ghost predicate Agree(a: Reader, b: Reader, cells: seq<Cell>) {
    forall c :: c in cells ==> a(c) == b(c)
  }

  lemma {:induction false} ExprExt(a: Reader, b: Reader, entries: seq<Entry>, own: nat, target: Coord, e: Expr)
    requires own < |entries| && ExprOk(e, own, entries) && |target| == |entries[own].cube.dims|
    requires Agree(a, b, RunExpr(a, entries, own, target, e).log)
    ensures RunExpr(a, entries, own, target, e) == RunExpr(b, entries, own, target, e)
    decreases e
  {
    match e
    case Num(_) =>
    case Undef =>
    case AttrNum(_, _) =>
    case Read(_) =>
    case Neg(x) => ExprExt(a, b, entries, own, target, x);
    case Bin(_, l, r) =>
      ExprExt(a, b, entries, own, target, l);
      if RunExpr(a, entries, own, target, l).res.Ok? {
        ExprExt(a, b, entries, own, target, r);
      }
    case If(c, t, o) =>
      CondExt(a, b, entries, own, target, c);
      var k := RunCond(a, entries, own, target, c);
      if k.res.Ok? {
        if k.res.value {
          ExprExt(a, b, entries, own, target, t);
        } else if o.Some? {
          ExprExt(a, b, entries, own, target, o.value);
        }
      }
  }

  lemma {:induction false} CondExt(a: Reader, b: Reader, entries: seq<Entry>, own: nat, target: Coord, c: Cond)
    requires own < |entries| && CondOk(c, own, entries) && |target| == |entries[own].cube.dims|
    requires Agree(a, b, RunCond(a, entries, own, target, c).log)
    ensures RunCond(a, entries, own, target, c) == RunCond(b, entries, own, target, c)
    decreases c
  {
    match c
    case And(l, r) =>
      CondExt(a, b, entries, own, target, l);
      var k := RunCond(a, entries, own, target, l);
      if k.res.Ok? && k.res.value { CondExt(a, b, entries, own, target, r); }
    case Or(l, r) =>
      CondExt(a, b, entries, own, target, l);
      var k := RunCond(a, entries, own, target, l);
      if k.res.Ok? && !k.res.value { CondExt(a, b, entries, own, target, r); }
    case Not(x) => CondExt(a, b, entries, own, target, x);
    case Cmp(x, _, y) =>
      ExprExt(a, b, entries, own, target, x);
      if RunExpr(a, entries, own, target, x).res.Ok? {
        ExprExt(a, b, entries, own, target, y);
      }
  }

  lemma {:induction false} SumExt(a: Reader, b: Reader, o: nat, items: seq<Item>)
    requires Agree(a, b, RunSum(a, o, items).log)
    ensures RunSum(a, o, items) == RunSum(b, o, items)
  {
    if items != [] {
      var before := items[..|items| - 1];
      assert forall c :: c in RunSum(a, o, before).log ==> c in RunSum(a, o, items).log;
      SumExt(a, b, o, before);
      if RunSum(a, o, before).res.Ok? {
        assert Cell(o, items[|items| - 1].coord) in RunSum(a, o, items).log;
      }
    }
  }

  /** Summing stops at the first failing item. */
  lemma {:induction false} SumPrefix(rd: Reader, o: nat, items: seq<Item>, n: nat)
    requires n <= |items|
    ensures forall c :: c in RunSum(rd, o, items[..n]).log ==> c in RunSum(rd, o, items).log
    ensures RunSum(rd, o, items[..n]).res.Err? ==> RunSum(rd, o, items) == RunSum(rd, o, items[..n])
  {
    if n == |items| {
      assert items[..n] == items;
    } else {
      var before := items[..|items| - 1];
      assert before[..n] == items[..n];
      SumPrefix(rd, o, before, n);
    }
  }

  /** A cell's result, and which cells it consults, depend on the reader only through
      the cells it consults. */
  lemma ComputeExt(env: Env, a: Reader, b: Reader, c: Cell)
    requires EnvOk(env)
    requires Agree(a, b, Compute(env, a, c).log)
    ensures Compute(env, a, c) == Compute(env, b, c)
  {
    if c.cube < |env.entries| {
      var entry := env.entries[c.cube];
      assert EntryOk(env.entries, c.cube);
      match FirstMatch(RulesOf(entry), entry.cube.dims, c.coord)
      case Some(i) =>
        if Compute(env, a, c) == RunExpr(a, env.entries, c.cube, c.coord, RulesOf(entry)[i].expr) {
          ExprExt(a, b, env.entries, c.cube, c.coord, RulesOf(entry)[i].expr);
        }
      case None =>
        if InRange(entry.cube.dims, c.coord) {
          var items := RollupItems(env, c.cube, PerDim(entry.cube.dims, c.coord));
          if Agree(a, b, RunSum(a, c.cube, items).log) {
            SumExt(a, b, c.cube, items);
          }
        }
    }
  }

  // ---------------------------------------------------------------- errors come from the last cell consulted

  /** The first failing read ends an evaluation: every cell but the last one consulted was
      Ok, and a result that is Ok consulted only Ok cells. */
  ghost predicate ErrorsLast<T>(rd: Reader, run: Run<T>) {
    && (run.res.Ok? ==> forall c :: c in run.log ==> rd(c).Ok?)
    && (forall i :: 0 <= i < |run.log| - 1 ==> rd(run.log[i]).Ok?)
    && (|run.log| > 0 && rd(run.log[|run.log| - 1]).Err? ==>
          run.res == Err(rd(run.log[|run.log| - 1]).error))
    && (run.res.Err? && Foreign(run.res.error) ==> |run.log| > 0 && rd(run.log[|run.log| - 1]).Err?)
  }

  /** Errors that formulas and rollups never raise, and only hand on. */
  predicate Foreign(e: CalcError) { e.Cycle? || e.AccessDenied? }

  lemma NoReads<T>(rd: Reader, res: Result<T>)
    requires res.Ok? || !Foreign(res.error)
    ensures ErrorsLast(rd, Run(res, []))
  {}

  lemma OneRead(rd: Reader, c: Cell)
    ensures ErrorsLast(rd, Run(rd(c), [c]))
  {}

  /** `res` hands an error on, and adds no foreign one of its own. */
  predicate HandsOn<T, U>(before: Result<T>, res: Result<U>) {
    (before.Err? ==> res == Err(before.error)) && (before.Ok? && res.Err? ==> !Foreign(res.error))
  }

  lemma HandedOn<T, U>(rd: Reader, run: Run<T>, res: Result<U>)
    requires ErrorsLast(rd, run) && HandsOn(run.res, res)
    ensures ErrorsLast(rd, Run(res, run.log))
  {}

  /** One part evaluated after another that was Ok. */
  lemma OneAfterOther<T, U, V>(rd: Reader, a: Run<T>, b: Run<U>, res: Result<V>)
    requires ErrorsLast(rd, a) && ErrorsLast(rd, b) && a.res.Ok? && HandsOn(b.res, res)
    ensures ErrorsLast(rd, Run(res, a.log + b.log))
  {
    var log := a.log + b.log;
    if b.log == [] {
      assert log == a.log;
    } else {
      assert log[|log| - 1] == b.log[|b.log| - 1];
    }
    forall i | 0 <= i < |log| - 1
      ensures rd(log[i]).Ok?
    {
      if i < |a.log| { assert a.log[i] in a.log; }
    }
  }

  lemma {:induction false} ExprErrors(rd: Reader, entries: seq<Entry>, own: nat, target: Coord, e: Expr)
    requires own < |entries| && ExprOk(e, own, entries) && |target| == |entries[own].cube.dims|
    ensures ErrorsLast(rd, RunExpr(rd, entries, own, target, e))
    decreases e, 1
  {
    hide ErrorsLast;
    var run := RunExpr(rd, entries, own, target, e);
    match e
    case Num(_) => NoReads(rd, run.res);
    case Undef => NoReads(rd, run.res);
    case AttrNum(_, _) => NoReads(rd, run.res);
    case Read(cell) => OneRead(rd, Cell(cell.cube, Resolve(cell, target)));
    case Neg(x) =>
      ExprErrors(rd, entries, own, target, x);
      HandedOn(rd, RunExpr(rd, entries, own, target, x), run.res);
    case Bin(_, l, r) =>
      ExprErrors(rd, entries, own, target, l);
      ExprErrors(rd, entries, own, target, r);
      var a := RunExpr(rd, entries, own, target, l);
      if a.res.Ok? { OneAfterOther(rd, a, RunExpr(rd, entries, own, target, r), run.res); }
    case If(c, t, o) => ChoiceErrors(rd, entries, own, target, c, t, o);
  }

  lemma {:induction false} ChoiceErrors(rd: Reader, entries: seq<Entry>, own: nat, target: Coord, c: Cond, t: Expr,
                                        o: Option<Expr>)
    requires own < |entries| && ExprOk(If(c, t, o), own, entries) && |target| == |entries[own].cube.dims|
    ensures ErrorsLast(rd, RunExpr(rd, entries, own, target, If(c, t, o)))
    decreases If(c, t, o), 0
  {
    hide ErrorsLast;
    CondErrors(rd, entries, own, target, c);
    var k := RunCond(rd, entries, own, target, c);
    var run := RunExpr(rd, entries, own, target, If(c, t, o));
    if k.res.Err? || (!k.res.value && o.None?) {
      HandedOn(rd, k, run.res);
    } else {
      var y := if k.res.value then t else o.value;
      ExprErrors(rd, entries, own, target, y);
      OneAfterOther(rd, k, RunExpr(rd, entries, own, target, y), run.res);
    }
  }

  lemma {:induction false} CondErrors(rd: Reader, entries: seq<Entry>, own: nat, target: Coord, c: Cond)
    requires own < |entries| && CondOk(c, own, entries) && |target| == |entries[own].cube.dims|
    ensures ErrorsLast(rd, RunCond(rd, entries, own, target, c))
    decreases c, 1
  {
    hide ErrorsLast;
    var run := RunCond(rd, entries, own, target, c);
    match c
    case And(l, r) =>
      CondErrors(rd, entries, own, target, l);
      CondErrors(rd, entries, own, target, r);
      var a := RunCond(rd, entries, own, target, l);
      if a.res.Ok? { OneAfterOther(rd, a, RunCond(rd, entries, own, target, r),
                                   RunCond(rd, entries, own, target, r).res); }
    case Or(l, r) =>
      CondErrors(rd, entries, own, target, l);
      CondErrors(rd, entries, own, target, r);
      var a := RunCond(rd, entries, own, target, l);
      if a.res.Ok? { OneAfterOther(rd, a, RunCond(rd, entries, own, target, r),
                                   RunCond(rd, entries, own, target, r).res); }
    case Not(x) =>
      CondErrors(rd, entries, own, target, x);
      HandedOn(rd, RunCond(rd, entries, own, target, x), run.res);
    case Cmp(x, _, y) =>
      ExprErrors(rd, entries, own, target, x);
      ExprErrors(rd, entries, own, target, y);
      var a := RunExpr(rd, entries, own, target, x);
      HandedOn(rd, a, if a.res.Err? then Err(a.res.error) else Ok(true));
      if a.res.Ok? { OneAfterOther(rd, a, RunExpr(rd, entries, own, target, y), run.res); }
  }

  lemma {:induction false} SumErrors(rd: Reader, o: nat, items: seq<Item>)
    ensures ErrorsLast(rd, RunSum(rd, o, items))
  {
    hide ErrorsLast;
    if items == [] {
      NoReads(rd, RunSum(rd, o, items).res);
    } else {
      var before := RunSum(rd, o, items[..|items| - 1]);
      SumErrors(rd, o, items[..|items| - 1]);
      var c := Cell(o, items[|items| - 1].coord);
      OneRead(rd, c);
      if before.res.Ok? { OneAfterOther(rd, before, Run(rd(c), [c]), RunSum(rd, o, items).res); }
    }
  }

  lemma RollupErrors(env: Env, rd: Reader, c: Cell)
    requires c.cube < |env.entries| && EntryOk(env.entries, c.cube)
    ensures ErrorsLast(rd, RunRollup(env, rd, c))
  {
    hide ErrorsLast, RunSum, CheckedProduct, DenseItems, SparseItems;
    var dims, run := env.entries[c.cube].cube.dims, RunRollup(env, rd, c);
    if InRange(dims, c.coord) {
      var sum := RunSum(rd, c.cube, RollupItems(env, c.cube, PerDim(dims, c.coord)));
      SumErrors(rd, c.cube, RollupItems(env, c.cube, PerDim(dims, c.coord)));
      var total: Result<Fixed> := match sum.res
        case Ok(v) => if FitsI64(v) then Ok(v) else Err(Model(RollupOverflow))
        case Err(e) => Err(e);
      HandedOn<int, Fixed>(rd, sum, total);
    }
    if run.log == [] && (run.res.Ok? || !Foreign(run.res.error)) { NoReads(rd, run.res); }
  }

  /** A cell the mask hides consults nothing. */
  lemma ComputeErrors(env: Env, rd: Reader, c: Cell)
    requires EnvOk(env)
    ensures if Denied(env, c) then Compute(env, rd, c) == Run(Err(AccessDenied), [])
            else ErrorsLast(rd, Compute(env, rd, c))
  {
    hide ErrorsLast, RunExpr, RunRollup, CubeOk, ExprOk, AreaOk;
    var run := Compute(env, rd, c);
    if c.cube < |env.entries| {
      var entry := env.entries[c.cube];
      assert EntryOk(env.entries, c.cube);
      var m := FirstMatch(RulesOf(entry), entry.cube.dims, c.coord);
      if m.Some? {
        MatchedInRange(env, c.cube, c.coord);
        ExprErrors(rd, env.entries, c.cube, c.coord, RulesOf(entry)[m.value].expr);
      } else {
        RollupErrors(env, rd, c);
      }
    }
    if run.log == [] && (run.res.Ok? || !Foreign(run.res.error)) { NoReads(rd, run.res); }
  }

  lemma MatchedInRange(env: Env, o: nat, coord: Coord)
    requires EnvOk(env) && o < |env.entries|
    requires FirstMatch(RulesOf(env.entries[o]), env.entries[o].cube.dims, coord).Some?
    ensures InRange(env.entries[o].cube.dims, coord)
  {
    var dims, rules := env.entries[o].cube.dims, RulesOf(env.entries[o]);
    assert EntryOk(env.entries, o);
    var area := rules[FirstMatch(rules, dims, coord).value].area;
    forall d | 0 <= d < |dims|
      ensures coord[d] < |dims[d].elements|
    {
      assert MatchesDim(area.perDim[d], area.consolidated, dims[d], coord[d]);
    }
  }

  /** Outside the finite universe a cell consults nothing. */
  lemma OutsideConsultsNothing(env: Env, rd: Reader, c: Cell)
    requires EnvOk(env) && c !in Universe(env)
    ensures Compute(env, rd, c).log == []
  {
    if c.cube < |env.entries|
         && FirstMatch(RulesOf(env.entries[c.cube]), env.entries[c.cube].cube.dims, c.coord).Some? {
      MatchedInRange(env, c.cube, c.coord);
    }
  }

  lemma UnderIs(env: Env, stack: set<Cell>, c: Cell)
    requires EnvOk(env)
    ensures Under(env, stack)(c) == Eval(env, stack, c)
  {}

  lemma EvalUnfold(env: Env, stack: set<Cell>, c: Cell)
    requires EnvOk(env)
    ensures c in stack ==> Eval(env, stack, c) == Err(Cycle(c))
    ensures c !in stack ==> Eval(env, stack, c) == Compute(env, Under(env, stack + {c}), c).res
  {
    if c !in stack && c !in Universe(env) {
      OutsideConsultsNothing(env, Nothing(), c);
      ComputeExt(env, Nothing(), Under(env, stack + {c}), c);
    }
  }

  // ---------------------------------------------------------------- depth

  predicate OkAt(env: Env, n: nat, c: Cell)
    requires EnvOk(env)
  {
    Bounded(env, n, c).Ok?
  }

  lemma BoundedUnfold(env: Env, n: nat, c: Cell)
    requires EnvOk(env)
    ensures OkAt(env, n, c) ==> n > 0
    ensures n > 0 ==> Bounded(env, n, c) == Compute(env, Within(env, n - 1), c).res
  {}

  lemma WithinIs(env: Env, n: nat, c: Cell)
    requires EnvOk(env)
    ensures Within(env, n)(c) == Bounded(env, n, c)
  {}

  /** More depth never changes a value, nor the cells consulted for it. */
  lemma {:induction false} MoreDepth(env: Env, n: nat, m: nat, c: Cell)
    requires EnvOk(env) && n <= m && OkAt(env, n, c)
    ensures n > 0
    ensures Bounded(env, m, c) == Bounded(env, n, c)
    ensures Compute(env, Within(env, m - 1), c) == Compute(env, Within(env, n - 1), c)
    decreases n
  {
    hide Bounded, Compute, EnvOk, Within;
    BoundedUnfold(env, n, c);
    BoundedUnfold(env, m, c);
    var a, b := Within(env, n - 1), Within(env, m - 1);
    ComputeErrors(env, a, c);
    forall e | e in Compute(env, a, c).log
      ensures a(e) == b(e)
    {
      WithinIs(env, n - 1, e);
      WithinIs(env, m - 1, e);
      MoreDepth(env, n - 1, m - 1, e);
    }
    ComputeExt(env, a, b, c);
  }

  /** Whenever `s` can be valued within `n`, `c` can be within `n - 1`: the value of `s`
      rests on the value of `c`. */
  ghost predicate RestsOn(env: Env, s: Cell, c: Cell)
    requires EnvOk(env)
  {
    forall n: nat :: OkAt(env, n, s) ==> n > 0 && OkAt(env, n - 1, c)
  }

  /** Every cell of the stack is there because its value rests on that of `c`. */
  ghost predicate Genuine(env: Env, stack: set<Cell>, c: Cell)
    requires EnvOk(env)
  {
    forall s :: s in stack ==> RestsOn(env, s, c)
  }

  lemma RestsOnTrans(env: Env, s: Cell, c: Cell, e: Cell)
    requires EnvOk(env) && RestsOn(env, s, c) && RestsOn(env, c, e)
    ensures RestsOn(env, s, e)
  {
    hide Bounded, EnvOk;
    forall n: nat | OkAt(env, n, s)
      ensures n > 0 && OkAt(env, n - 1, e)
    {
      assert OkAt(env, n - 1, c);
      assert OkAt(env, n - 2, e);
      MoreDepth(env, n - 2, n - 1, e);
    }
  }

  /** A value that rests on itself is no value. */
  lemma {:induction false} NoSelfRest(env: Env, n: nat, c: Cell)
    requires EnvOk(env) && RestsOn(env, c, c)
    ensures !OkAt(env, n, c)
  {
    hide Bounded, EnvOk;
    if OkAt(env, n, c) {
      NoSelfRest(env, n - 1, c);
    }
  }

  lemma GenuineStep(env: Env, stack: set<Cell>, c: Cell, e: Cell)
    requires EnvOk(env) && Genuine(env, stack, c) && RestsOn(env, c, e)
    ensures Genuine(env, stack + {c}, e)
  {
    hide Bounded, EnvOk;
    forall s | s in stack
      ensures RestsOn(env, s, e)
    {
      RestsOnTrans(env, s, c, e);
    }
  }

  lemma ConsultedWithin(env: Env, n: nat, c: Cell, e: Cell)
    requires EnvOk(env) && OkAt(env, n, c)
    requires e in Compute(env, Within(env, n - 1), c).log
    ensures RestsOn(env, c, e)
  {
    hide Compute, EnvOk, Bounded, Within;
    BoundedUnfold(env, n, c);
    forall m: nat | OkAt(env, m, c)
      ensures m > 0 && OkAt(env, m - 1, e)
    {
      BoundedUnfold(env, m, c);
      WithinIs(env, m - 1, e);
      if n <= m { MoreDepth(env, n, m, c); } else { MoreDepth(env, m, n, c); }
      ComputeErrors(env, Within(env, m - 1), c);
    }
  }

  // ---------------------------------------------------------------- the two semantics agree

  /** A cell that has a value from nothing has the same value, and consults the same cells,
      under every genuine stack of ancestors. */
  lemma {:induction false} ValueUnderAncestors(env: Env, n: nat, stack: set<Cell>, c: Cell)
    requires EnvOk(env) && OkAt(env, n, c) && Genuine(env, stack, c)
    ensures c !in stack && n > 0
    ensures Compute(env, Under(env, stack + {c}), c) == Compute(env, Within(env, n - 1), c)
    ensures Eval(env, stack, c) == Bounded(env, n, c)
    decreases n
  {
    hide Compute, EnvOk, Eval, Bounded, Within, Under;
    BoundedUnfold(env, n, c);
    if c in stack { NoSelfRest(env, n, c); }
    var a, b := Within(env, n - 1), Under(env, stack + {c});
    ComputeErrors(env, a, c);
    forall e | e in Compute(env, a, c).log
      ensures a(e) == b(e)
    {
      ConsultedWithin(env, n, c, e);
      GenuineStep(env, stack, c, e);
      WithinIs(env, n - 1, e);
      UnderIs(env, stack + {c}, e);
      ValueUnderAncestors(env, n - 1, stack + {c}, e);
    }
    ComputeExt(env, a, b, c);
    EvalUnfold(env, stack, c);
  }

  /** What a cell consults under a genuine stack is what its value rests on. */
  lemma ConsultedUnder(env: Env, stack: set<Cell>, c: Cell, e: Cell)
    requires EnvOk(env) && c !in stack && Genuine(env, stack, c)
    requires e in Compute(env, Under(env, stack + {c}), c).log
    ensures RestsOn(env, c, e)
    ensures Genuine(env, stack + {c}, e)
  {
    hide Compute, EnvOk, Bounded, Within, Under;
    forall n: nat | OkAt(env, n, c)
      ensures n > 0 && OkAt(env, n - 1, e)
    {
      BoundedUnfold(env, n, c);
      WithinIs(env, n - 1, e);
      ValueUnderAncestors(env, n, stack, c);
      ComputeErrors(env, Within(env, n - 1), c);
    }
    GenuineStep(env, stack, c, e);
  }

  lemma OneFewer(u: set<Cell>, stack: set<Cell>, c: Cell)
    requires c in u && c !in stack
    ensures u - (stack + {c}) < u - stack
    ensures |u - stack| == |u - (stack + {c})| + 1
  {
    assert u - stack == (u - (stack + {c})) + {c};
  }

  /** A value found under any stack at all is found within a bounded depth. */
  lemma {:induction false} ValueHasDepth(env: Env, stack: set<Cell>, c: Cell)
    requires EnvOk(env) && Eval(env, stack, c).Ok?
    ensures Bounded(env, |Universe(env) - stack| + 1, c) == Eval(env, stack, c)
    decreases Universe(env) - stack, 1
  {
    hide Compute, EnvOk, Eval, Bounded, Universe, Under, Within;
    EvalUnfold(env, stack, c);
    var n := |Universe(env) - stack|;
    var a, b := Under(env, stack + {c}), Within(env, n);
    BoundedUnfold(env, n + 1, c);
    ComputeErrors(env, a, c);
    forall e | e in Compute(env, a, c).log
      ensures a(e) == b(e)
    {
      UnderIs(env, stack + {c}, e);
      WithinIs(env, n, e);
      ConsultedHasDepth(env, stack, c, e);
    }
    ComputeExt(env, a, b, c);
  }

  lemma {:induction false} ConsultedHasDepth(env: Env, stack: set<Cell>, c: Cell, e: Cell)
    requires EnvOk(env) && c !in stack && Eval(env, stack + {c}, e).Ok?
    requires e in Compute(env, Under(env, stack + {c}), c).log
    ensures Eval(env, stack + {c}, e) == Bounded(env, |Universe(env) - stack|, e)
    decreases Universe(env) - stack, 0
  {
    hide Compute, EnvOk, Eval, Bounded, Universe, Under;
    if c !in Universe(env) {
      OutsideConsultsNothing(env, Under(env, stack + {c}), c);
    } else {
      OneFewer(Universe(env), stack, c);
      ValueHasDepth(env, stack + {c}, e);
    }
  }

  /** Having a value from the empty stack, under some stack, and within some depth are one
      and the same, with one and the same value. */
  lemma SameValue(env: Env, stack: set<Cell>, c: Cell)
    requires EnvOk(env)
    ensures Eval(env, stack, c).Ok? ==> Eval(env, {}, c) == Eval(env, stack, c)
    ensures Eval(env, {}, c).Ok? <==> exists n: nat :: OkAt(env, n, c)
    ensures forall n: nat :: OkAt(env, n, c) ==> Bounded(env, n, c) == Eval(env, {}, c)
  {
    hide Compute, EnvOk, Eval, Bounded, Universe;
    forall n: nat | OkAt(env, n, c)
      ensures Bounded(env, n, c) == Eval(env, {}, c)
    {
      ValueUnderAncestors(env, n, {}, c);
    }
    if Eval(env, {}, c).Ok? {
      ValueHasDepth(env, {}, c);
      assert OkAt(env, |Universe(env) - {}| + 1, c);
    }
    if Eval(env, stack, c).Ok? {
      ValueHasDepth(env, stack, c);
      assert OkAt(env, |Universe(env) - stack| + 1, c);
    }
  }

  // ---------------------------------------------------------------- cycles

  /** `path` follows consulted cells from `c` until it comes back to a cell already being
      computed, its last. */
  ghost predicate ReEnters(env: Env, stack: set<Cell>, c: Cell, path: seq<Cell>)
    requires EnvOk(env)
    decreases |path|
  {
    && |path| > 0 && path[0] == c
    && (c in stack ==> |path| == 1)
    && (c !in stack ==>
          |path| > 1
          && path[1] in Compute(env, Under(env, stack + {c}), c).log
          && ReEnters(env, stack + {c}, path[1], path[1..]))
  }

  /** A cycle is reported exactly when the consulted cells lead back into the stack, and
      at the cell where they do. */
  lemma CycleIffReEntered(env: Env, stack: set<Cell>, c: Cell, x: Cell)
    requires EnvOk(env)
    ensures Eval(env, stack, c) == Err(Cycle(x))
            <==> exists path :: ReEnters(env, stack, c, path) && path[|path| - 1] == x
  {
    if Eval(env, stack, c) == Err(Cycle(x)) {
      var path := CyclePath(env, stack, c, x);
    }
    forall path | ReEnters(env, stack, c, path) && path[|path| - 1] == x
      ensures Eval(env, stack, c) == Err(Cycle(x))
    {
      PathCycles(env, stack, c, path);
    }
  }

  /** The cell an evaluation that ended in a cycle had come to, which is not `c` itself. */
  lemma LastConsulted(env: Env, stack: set<Cell>, c: Cell, x: Cell) returns (e: Cell)
    requires EnvOk(env) && c !in stack && Eval(env, stack, c) == Err(Cycle(x))
    ensures c in Universe(env) && e in Compute(env, Under(env, stack + {c}), c).log
    ensures Eval(env, stack + {c}, e) == Err(Cycle(x))
  {
    hide Compute, EnvOk, Eval, Universe, Under;
    EvalUnfold(env, stack, c);
    var rd := Under(env, stack + {c});
    var run := Compute(env, rd, c);
    ComputeErrors(env, rd, c);
    e := run.log[|run.log| - 1];
    UnderIs(env, stack + {c}, e);
    if c !in Universe(env) { OutsideConsultsNothing(env, rd, c); }
  }

  lemma PathGrows(env: Env, stack: set<Cell>, c: Cell, rest: seq<Cell>)
    requires EnvOk(env) && c !in stack && |rest| > 0 && ReEnters(env, stack + {c}, rest[0], rest)
    requires rest[0] in Compute(env, Under(env, stack + {c}), c).log
    ensures ReEnters(env, stack, c, [c] + rest)
  {
    hide Compute, EnvOk, Under;
    assert ([c] + rest)[1..] == rest;
  }

  lemma {:induction false} CyclePath(env: Env, stack: set<Cell>, c: Cell, x: Cell) returns (path: seq<Cell>)
    requires EnvOk(env) && Eval(env, stack, c) == Err(Cycle(x))
    ensures ReEnters(env, stack, c, path) && path[0] == c && path[|path| - 1] == x
    decreases Universe(env) - stack
  {
    hide Compute, EnvOk, Eval, Universe, Under;
    if c in stack {
      EvalUnfold(env, stack, c);
      path := [c];
    } else {
      var e := LastConsulted(env, stack, c, x);
      OneFewer(Universe(env), stack, c);
      var rest := CyclePath(env, stack + {c}, e, x);
      PathGrows(env, stack, c, rest);
      path := [c] + rest;
    }
  }

  lemma {:induction false} PathCycles(env: Env, stack: set<Cell>, c: Cell, path: seq<Cell>)
    requires EnvOk(env) && ReEnters(env, stack, c, path)
    ensures Eval(env, stack, c) == Err(Cycle(path[|path| - 1]))
    decreases |path|
  {
    hide Compute, EnvOk, Eval, Universe, Under;
    EvalUnfold(env, stack, c);
    if c !in stack {
      var rd := Under(env, stack + {c});
      ComputeErrors(env, rd, c);
      UnderIs(env, stack + {c}, path[1]);
      PathCycles(env, stack + {c}, path[1], path[1..]);
    }
  }
}
