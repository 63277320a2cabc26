/** What the evaluator computes, said without it: formulas by exact arithmetic, rollups by nested
    weighted sums, and the order in which failures are met. */
module CellMeaning {
  import opened FixedPoint
  import opened CubeModel
  import opened Rollups
  import opened Semantics
  import opened Evaluation
  import opened RollupSums
  import opened Sparse

  // ---------------------------------------------------------------- arithmetic

  /** `v` is the exact result, or the nearest multiple of the scale to it, ties to even. */
  ghost predicate OpIs(op: ArithOp, a: int, b: int, v: int) {
    match op
    case Add => v == a + b
    case Sub => v + b == a
    case Mul => IsHalfEven(a * b, SCALE, v)
    case Div => b != 0 && IsHalfEven(a * SCALE, b, v)
  }

  ghost predicate OpFails(op: ArithOp, a: int, b: int, x: CalcError) {
    || (op == Div && b == 0 && x == DivideByZero)
    || (x == RuleOverflow && exists v: int :: OpIs(op, a, b, v) && !FitsI64(v))
  }

  lemma OpIsArith(op: ArithOp, a: Fixed, b: Fixed)
    ensures forall v: int :: OpIs(op, a, b, v) && FitsI64(v) <==>
              Lift(Arith(op, a, b)).Ok? && Lift(Arith(op, a, b)).value == v
    ensures forall x :: OpFails(op, a, b, x) <==> Lift(Arith(op, a, b)) == Err(x)
  {
    hide DivRoundHalfEven, IsHalfEven;
    if !(op == Div && b == 0) {
      var q: int := match op
        case Add => a + b
        case Sub => a - b
        case Mul => DivRoundHalfEven(a * b, SCALE)
        case Div => DivRoundHalfEven(a * SCALE, b);
      OpIsOnly(op, a, b, q);
    }
  }

  lemma OpIsOnly(op: ArithOp, a: int, b: int, q: int)
    requires op == Div ==> b != 0
    requires match op
             case Add => q == a + b
             case Sub => q == a - b
             case Mul => q == DivRoundHalfEven(a * b, SCALE)
             case Div => q == DivRoundHalfEven(a * SCALE, b)
    ensures forall v: int :: OpIs(op, a, b, v) <==> v == q
  {
    hide DivRoundHalfEven, IsHalfEven;
    if op == Mul || op == Div {
      var num, den := if op == Mul then a * b else a * SCALE, if op == Mul then SCALE else b;
      RoundsHalfEven(num, den);
      forall v: int | IsHalfEven(num, den, v)
        ensures v == q
      {
        HalfEvenIsUnique(num, den, v, q);
      }
    }
  }

  // ---------------------------------------------------------------- formulas

  /** The cell a reference addresses from a target. */
  ghost predicate Addresses(cell: CellRef, t: Coord, c: Cell) {
    && c.cube == cell.cube && |c.coord| == |cell.addr|
    && forall d :: 0 <= d < |cell.addr| ==>
         match cell.addr[d]
         case Pinned(i) => c.coord[d] == i
         case FromTarget(p) => p < |t| && c.coord[d] == t[p]
  }

  /** The number an element has for an attribute; none, or a text, counts as zero. */
  ghost predicate AttributeIs(dim: Dimension, i: nat, attr: nat, v: int) {
    if (i, attr) in dim.attributeValues && dim.attributeValues[(i, attr)].Numeric?
    then dim.attributeValues[(i, attr)].number == v
    else v == 0
  }

  ghost predicate ExprIs(rd: Reader, dims: seq<Dimension>, t: Coord, e: Expr, v: int)
    decreases e
  {
    match e
    case Num(n) => v == n
    case Undef => v == 0
    case AttrNum(d, a) => d < |dims| && d < |t| && AttributeIs(dims[d], t[d], a, v)
    case Read(cell) => exists c :: Addresses(cell, t, c) && rd(c).Ok? && rd(c).value == v
    case Neg(a) => FitsI64(v) && ExprIs(rd, dims, t, a, -v)
    case Bin(op, l, r) =>
      FitsI64(v) && exists a, b :: ExprIs(rd, dims, t, l, a) && ExprIs(rd, dims, t, r, b) && OpIs(op, a, b, v)
    case If(c, x, o) =>
      || (CondIs(rd, dims, t, c, true) && ExprIs(rd, dims, t, x, v))
      || (CondIs(rd, dims, t, c, false) && if o.Some? then ExprIs(rd, dims, t, o.value, v) else v == 0)
  }

  /** The second half of a condition decides only when the first does not. */
  ghost predicate CondIs(rd: Reader, dims: seq<Dimension>, t: Coord, c: Cond, b: bool)
    decreases c
  {
    match c
    case And(l, r) =>
      if CondIs(rd, dims, t, l, false) then !b else CondIs(rd, dims, t, l, true) && CondIs(rd, dims, t, r, b)
    case Or(l, r) =>
      if CondIs(rd, dims, t, l, true) then b else CondIs(rd, dims, t, l, false) && CondIs(rd, dims, t, r, b)
    case Not(a) => CondIs(rd, dims, t, a, !b)
    case Cmp(l, op, r) =>
      exists x, y ::
        ExprIs(rd, dims, t, l, x) && ExprIs(rd, dims, t, r, y) && (b <==> Sign(x - y) in Accepts(op))
  }

  /** Failures are met from left to right; a branch not taken raises none. */
  ghost predicate ExprFails(rd: Reader, dims: seq<Dimension>, t: Coord, e: Expr, x: CalcError)
    decreases e
  {
    match e
    case Read(cell) => exists c :: Addresses(cell, t, c) && rd(c) == Err(x)
    case Neg(a) => ExprFails(rd, dims, t, a, x) || (x == RuleOverflow && ExprIs(rd, dims, t, a, I64_MIN))
    case Bin(op, l, r) =>
      || ExprFails(rd, dims, t, l, x)
      || exists a :: ExprIs(rd, dims, t, l, a)
                     && (|| ExprFails(rd, dims, t, r, x)
                         || exists b :: ExprIs(rd, dims, t, r, b) && OpFails(op, a, b, x))
    case If(c, y, o) =>
      || CondFails(rd, dims, t, c, x)
      || (CondIs(rd, dims, t, c, true) && ExprFails(rd, dims, t, y, x))
      || (CondIs(rd, dims, t, c, false) && o.Some? && ExprFails(rd, dims, t, o.value, x))
    case _ => false
  }

  ghost predicate CondFails(rd: Reader, dims: seq<Dimension>, t: Coord, c: Cond, x: CalcError)
    decreases c
  {
    match c
    case And(l, r) => CondFails(rd, dims, t, l, x) || (CondIs(rd, dims, t, l, true) && CondFails(rd, dims, t, r, x))
    case Or(l, r) => CondFails(rd, dims, t, l, x) || (CondIs(rd, dims, t, l, false) && CondFails(rd, dims, t, r, x))
    case Not(a) => CondFails(rd, dims, t, a, x)
    case Cmp(l, _, r) =>
      ExprFails(rd, dims, t, l, x) || ((exists y :: ExprIs(rd, dims, t, l, y)) && ExprFails(rd, dims, t, r, x))
  }

  /** Evaluating a formula gives exactly the value, or exactly the failure, that exact arithmetic
      on the cells it addresses gives. */
  lemma {:induction false} ExprMeans(rd: Reader, entries: seq<Entry>, own: nat, t: Coord, e: Expr)
    requires own < |entries| && ExprOk(e, own, entries) && |t| == |entries[own].cube.dims|
    ensures var dims, r := entries[own].cube.dims, RunExpr(rd, entries, own, t, e).res;
            (forall v: int :: ExprIs(rd, dims, t, e, v) <==> r.Ok? && r.value == v)
            && (forall x :: ExprFails(rd, dims, t, e, x) <==> r == Err(x))
    decreases e, 1
  {
    hide OpIs, OpFails;
    var dims := entries[own].cube.dims;
    match e
    case Num(_) =>
    case Undef =>
    case AttrNum(_, _) =>
    case Read(cell) => OneAddressed(entries, own, cell, t);
    case Neg(a) =>
      ExprMeans(rd, entries, own, t, a);
      var r := RunExpr(rd, entries, own, t, a).res;
      if r.Ok? { NegateIsExact(r.value); }
    case Bin(op, l, r) =>
      ExprMeans(rd, entries, own, t, l);
      ExprMeans(rd, entries, own, t, r);
      BinMeans(rd, entries, own, t, op, l, r);
    case If(c, x, o) =>
      CondMeans(rd, entries, own, t, c);
      ExprMeans(rd, entries, own, t, x);
      if o.Some? { ExprMeans(rd, entries, own, t, o.value); }
  }

  lemma OneAddressed(entries: seq<Entry>, own: nat, cell: CellRef, t: Coord)
    requires own < |entries| && RefOk(cell, own, entries) && |t| == |entries[own].cube.dims|
    ensures RefInTarget(cell, t)
    ensures forall c :: Addresses(cell, t, c) <==> c == Cell(cell.cube, Resolve(cell, t))
  {
    assert RefInTarget(cell, t);
    assert Addresses(cell, t, Cell(cell.cube, Resolve(cell, t)));
  }

  lemma BinMeans(rd: Reader, entries: seq<Entry>, own: nat, t: Coord, op: ArithOp, l: Expr, r: Expr)
    requires own < |entries| && ExprOk(Bin(op, l, r), own, entries) && |t| == |entries[own].cube.dims|
    requires forall e | e == l || e == r ::
               var dims, k := entries[own].cube.dims, RunExpr(rd, entries, own, t, e).res;
               (forall v: int :: ExprIs(rd, dims, t, e, v) <==> k.Ok? && k.value == v)
               && (forall x :: ExprFails(rd, dims, t, e, x) <==> k == Err(x))
    ensures var dims, k := entries[own].cube.dims, RunExpr(rd, entries, own, t, Bin(op, l, r)).res;
            (forall v: int :: ExprIs(rd, dims, t, Bin(op, l, r), v) <==> k.Ok? && k.value == v)
            && (forall x :: ExprFails(rd, dims, t, Bin(op, l, r), x) <==> k == Err(x))
  {
    hide OpIs, OpFails, Arith, Lift;
    var dims := entries[own].cube.dims;
    var a, b := RunExpr(rd, entries, own, t, l).res, RunExpr(rd, entries, own, t, r).res;
    if a.Ok? {
      assert ExprIs(rd, dims, t, l, a.value);
      if b.Ok? {
        assert ExprIs(rd, dims, t, r, b.value);
        OpIsArith(op, a.value, b.value);
      }
    }
  }

  lemma {:induction false} CondMeans(rd: Reader, entries: seq<Entry>, own: nat, t: Coord, c: Cond)
    requires own < |entries| && CondOk(c, own, entries) && |t| == |entries[own].cube.dims|
    ensures var dims, r := entries[own].cube.dims, RunCond(rd, entries, own, t, c).res;
            (forall b :: CondIs(rd, dims, t, c, b) <==> r == Ok(b))
            && (forall x :: CondFails(rd, dims, t, c, x) <==> r == Err(x))
    decreases c, 1
  {
    var dims := entries[own].cube.dims;
    match c
    case And(l, r) =>
      CondMeans(rd, entries, own, t, l);
      CondMeans(rd, entries, own, t, r);
    case Or(l, r) =>
      CondMeans(rd, entries, own, t, l);
      CondMeans(rd, entries, own, t, r);
    case Not(a) => CondMeans(rd, entries, own, t, a);
    case Cmp(l, op, r) =>
      ExprMeans(rd, entries, own, t, l);
      ExprMeans(rd, entries, own, t, r);
      var x, y := RunExpr(rd, entries, own, t, l).res, RunExpr(rd, entries, own, t, r).res;
      if x.Ok? {
        assert ExprIs(rd, dims, t, l, x.value);
        if y.Ok? {
          assert ExprIs(rd, dims, t, r, y.value);
          CompareIsSign(x.value, y.value, op);
        }
      }
  }

  // ---------------------------------------------------------------- rollups as nested sums

  ghost function ValueAt(rd: Reader, c: Cell): int {
    if rd(c).Ok? then rd(c).value else 0
  }

  /** The sum over the leaves of the first dimension, each times its weight, of the sums over the rest. */
  ghost function Nested(rd: Reader, o: nat, perDim: seq<seq<Contribution>>, at: Coord): int
    decreases |perDim|, 0
  {
    if perDim == [] then ValueAt(rd, Cell(o, at)) else Across(rd, o, perDim[0], perDim[1..], at)
  }

  ghost function Across(rd: Reader, o: nat, cs: seq<Contribution>, rest: seq<seq<Contribution>>, at: Coord): int
    decreases |rest|, |cs| + 1
  {
    if cs == [] then 0
    else cs[0].weight * Nested(rd, o, rest, at + [cs[0].leaf]) + Across(rd, o, cs[1..], rest, at)
  }

  /** The items of a nested sum, the first dimension slowest. */
  ghost function Leaves(perDim: seq<seq<Contribution>>, at: Coord, w: int): seq<Item>
    decreases |perDim|, 0
  {
    if perDim == [] then [Item(at, w)] else Spread(perDim[0], perDim[1..], at, w)
  }

  ghost function Spread(cs: seq<Contribution>, rest: seq<seq<Contribution>>, at: Coord, w: int): seq<Item>
    decreases |rest|, |cs| + 1
  {
    if cs == [] then [] else Leaves(rest, at + [cs[0].leaf], w * cs[0].weight) + Spread(cs[1..], rest, at, w)
  }

  lemma {:induction false} SumJoined(rd: Reader, o: nat, a: seq<Item>, b: seq<Item>)
    ensures SumItems(rd, o, a + b) == SumItems(rd, o, a) + SumItems(rd, o, b)
  {
    if b == [] {
      assert a + b == a;
    } else {
      var n := |b| - 1;
      assert (a + b)[..|a + b| - 1] == a + b[..n];
      SumJoined(rd, o, a, b[..n]);
    }
  }

  lemma {:induction false} SumOfLeaves(rd: Reader, o: nat, perDim: seq<seq<Contribution>>, at: Coord, w: int)
    ensures SumItems(rd, o, Leaves(perDim, at, w)) == w * Nested(rd, o, perDim, at)
    decreases |perDim|, 0
  {
    if perDim == [] {
      var x := Item(at, w);
      assert [x][..0] == [];
      assert SumItems(rd, o, [x]) == Weighted(rd, o, x);
    } else {
      SumOfSpread(rd, o, perDim[0], perDim[1..], at, w);
    }
  }

  lemma {:induction false} SumOfSpread(rd: Reader, o: nat, cs: seq<Contribution>, rest: seq<seq<Contribution>>,
                                       at: Coord, w: int)
    ensures SumItems(rd, o, Spread(cs, rest, at, w)) == w * Across(rd, o, cs, rest, at)
    decreases |rest|, |cs| + 1
  {
    if cs != [] {
      var next, u := at + [cs[0].leaf], cs[0].weight;
      SumOfLeaves(rd, o, rest, next, w * u);
      SumOfSpread(rd, o, cs[1..], rest, at, w);
      SumJoined(rd, o, Leaves(rest, next, w * u), Spread(cs[1..], rest, at, w));
      Distribute(w, u, Nested(rd, o, rest, next), Across(rd, o, cs[1..], rest, at));
    }
  }

  lemma Distribute(w: int, u: int, n: int, a: int)
    ensures (w * u) * n + w * a == w * (u * n + a)
  {}

  ghost predicate AscendingList(cs: seq<Contribution>) {
    forall j, k :: 0 <= j < k < |cs| ==> cs[j].leaf < cs[k].leaf
  }

  /** Where in `at` ends the part of a coordinate already fixed. */
  ghost predicate LiesUnder(item: Item, perDim: seq<seq<Contribution>>, at: Coord, w: int) {
    && at <= item.coord && |item.coord| == |at| + |perDim|
    && CellWeight(perDim, item.coord[|at|..]).Some?
    && item.weight == w * CellWeight(perDim, item.coord[|at|..]).value
  }

  ghost predicate SpreadsUnder(item: Item, cs: seq<Contribution>, rest: seq<seq<Contribution>>, at: Coord, w: int) {
    && |at| < |item.coord| && WeightOf(cs, item.coord[|at|]).Some?
    && LiesUnder(item, rest, at + [item.coord[|at|]], w * WeightOf(cs, item.coord[|at|]).value)
  }

  lemma {:induction false} LeavesExact(perDim: seq<seq<Contribution>>, at: Coord, w: int)
    requires Ascending(perDim)
    ensures Distinct(Leaves(perDim, at, w))
    ensures forall item :: item in Leaves(perDim, at, w) <==> LiesUnder(item, perDim, at, w)
    decreases |perDim|, 0
  {
    if perDim == [] {
      forall item | LiesUnder(item, perDim, at, w)
        ensures item == Item(at, w)
      {}
    } else {
      hide LiesUnder, SpreadsUnder, CellWeight;
      SpreadExact(perDim[0], perDim[1..], at, w);
      forall item
        ensures LiesUnder(item, perDim, at, w) <==> SpreadsUnder(item, perDim[0], perDim[1..], at, w)
      {
        OneDimensionMore(item, perDim, at, w);
      }
    }
  }

  lemma OneDimensionMore(item: Item, perDim: seq<seq<Contribution>>, at: Coord, w: int)
    requires perDim != []
    ensures LiesUnder(item, perDim, at, w) <==> SpreadsUnder(item, perDim[0], perDim[1..], at, w)
  {
    if at <= item.coord && |item.coord| == |at| + |perDim| {
      var tail, x := item.coord[|at|..], item.coord[|at|];
      assert tail[0] == x && tail[1..] == item.coord[|at + [x]|..];
      assert at + [x] <= item.coord;
      var u, v := WeightOf(perDim[0], x), CellWeight(perDim[1..], tail[1..]);
      if u.Some? && v.Some? { Regrouped(w, u.value, v.value); }
    }
  }

  lemma Regrouped(a: int, b: int, c: int)
    ensures (a * b) * c == a * (b * c)
  {}

  lemma {:induction false} SpreadExact(cs: seq<Contribution>, rest: seq<seq<Contribution>>, at: Coord, w: int)
    requires AscendingList(cs) && Ascending(rest)
    ensures Distinct(Spread(cs, rest, at, w))
    ensures forall item :: item in Spread(cs, rest, at, w) <==> SpreadsUnder(item, cs, rest, at, w)
    decreases |rest|, |cs| + 1
  {
    if cs != [] {
      hide CellWeight, Leaves, LiesUnder;
      var x, u := cs[0].leaf, cs[0].weight;
      var here, more := Leaves(rest, at + [x], w * u), Spread(cs[1..], rest, at, w);
      LeavesExact(rest, at + [x], w * u);
      SpreadExact(cs[1..], rest, at, w);
      assert WeightOf(cs[1..], x).None?;
      forall item | LiesUnder(item, rest, at + [x], w * u)
        ensures |at| < |item.coord| && item.coord[|at|] == x
      {
        Fixes(item, rest, at, x, w * u);
      }
      forall i, j | 0 <= i < |here| && 0 <= j < |more|
        ensures here[i].coord != more[j].coord
      {
        assert here[i] in here && more[j] in more;
      }
      DistinctJoined(here, more);
    }
  }

  lemma Fixes(item: Item, rest: seq<seq<Contribution>>, at: Coord, x: nat, w: int)
    requires LiesUnder(item, rest, at + [x], w)
    ensures |at| < |item.coord| && item.coord[|at|] == x
  {
    assert (at + [x])[|at|] == x;
  }

  lemma DistinctJoined(a: seq<Item>, b: seq<Item>)
    requires Distinct(a) && Distinct(b)
    requires forall i, j :: 0 <= i < |a| && 0 <= j < |b| ==> a[i].coord != b[j].coord
    ensures Distinct(a + b)
    ensures forall item :: item in a + b <==> item in a || item in b
  {}

  /** A reader that counts the cells left out as zero. */
  ghost function Only(rd: Reader, coords: seq<Coord>): Reader {
    (c: Cell) => if c.coord in coords then rd(c) else Ok(0)
  }

  /** The dense walk adds up to the nested sum. */
  lemma DenseIsNested(rd: Reader, o: nat, perDim: seq<seq<Contribution>>)
    requires Ascending(perDim)
    ensures SumItems(rd, o, DenseItems(perDim)) == Nested(rd, o, perDim, [])
  {
    hide CellWeight, DenseItems, Leaves, SumItems, Nested;
    DenseIsExact(perDim);
    NestedListing(perDim);
    SumOfLeaves(rd, o, perDim, [], 1);
    SumOfPart(rd, o, Leaves(perDim, [], 1), DenseItems(perDim));
  }

  /** And so does the sparse scan, to that of the scanned leaves. */
  lemma SparseIsNested(rd: Reader, o: nat, perDim: seq<seq<Contribution>>, coords: seq<Coord>)
    requires Ascending(perDim) && forall c :: c in coords ==> |c| == |perDim|
    ensures SumItems(rd, o, SparseItems(perDim, coords)) == Nested(Only(rd, coords), o, perDim, [])
  {
    hide CellWeight, SparseItems, Leaves, SumItems, Nested;
    SparseIsExact(perDim, coords);
    NestedListing(perDim);
    var kept := Only(rd, coords);
    SumAgree(rd, kept, o, SparseItems(perDim, coords));
    SumOfLeaves(kept, o, perDim, [], 1);
    SumOfPart(kept, o, Leaves(perDim, [], 1), SparseItems(perDim, coords));
  }

  lemma NestedListing(perDim: seq<seq<Contribution>>)
    requires Ascending(perDim)
    ensures Distinct(Leaves(perDim, [], 1))
    ensures forall item: Item :: item in Leaves(perDim, [], 1) <==>
              |item.coord| == |perDim| && CellWeight(perDim, item.coord) == Some(item.weight)
  {
    hide CellWeight, Leaves;
    LeavesExact(perDim, [], 1);
    forall item: Item | |item.coord| == |perDim|
      ensures item.coord[0..] == item.coord
    {}
  }

  // ---------------------------------------------------------------- one rollup

  /** The reader a rollup of cube `o` sums through: a sparse one counts what it does not scan as zero. */
  ghost function Counted(env: Env, rd: Reader, o: nat): Reader
    requires o < |env.entries|
  {
    if TakesSparse(env, o) then Only(rd, env.entries[o].cube.scan + env.entries[o].fed.value) else rd
  }

  ghost predicate AllCounted(rd: Reader, o: nat, perDim: seq<seq<Contribution>>) {
    forall y :: Contributes(perDim, y) ==> rd(Cell(o, y)).Ok?
  }

  /** The failure of the first leaf that fails, in the order the rollup reads them. */
  ghost predicate LeafFails(env: Env, rd: Reader, o: nat, perDim: seq<seq<Contribution>>, x: CalcError)
    requires o < |env.entries|
  {
    if TakesSparse(env, o)
    then exists k :: ScanFailure(rd, o, perDim, env.entries[o].cube.scan + env.entries[o].fed.value, k, x)
    else exists y :: DenseFailure(rd, o, perDim, y, x)
  }

  ghost predicate RollupIs(env: Env, rd: Reader, c: Cell, v: int)
    requires c.cube < |env.entries| && EntryOk(env.entries, c.cube)
  {
    var dims := env.entries[c.cube].cube.dims;
    && InRange(dims, c.coord) && !PrefixTooLarge(1, Lens(PerDim(dims, c.coord)))
    && AllCounted(Counted(env, rd, c.cube), c.cube, PerDim(dims, c.coord))
    && v == Nested(Counted(env, rd, c.cube), c.cube, PerDim(dims, c.coord), [])
    && FitsI64(v)
  }

  ghost predicate RollupFails(env: Env, rd: Reader, c: Cell, x: CalcError)
    requires c.cube < |env.entries| && EntryOk(env.entries, c.cube)
  {
    var dims, counted := env.entries[c.cube].cube.dims, Counted(env, rd, c.cube);
    if |c.coord| != |dims| then x == Model(RankMismatch)
    else if !InRange(dims, c.coord) then x == Model(ElementOutOfRange)
    else if PrefixTooLarge(1, Lens(PerDim(dims, c.coord))) then x == Model(RollupOverflow)
    else if AllCounted(counted, c.cube, PerDim(dims, c.coord)) then
      x == Model(RollupOverflow) && !FitsI64(Nested(counted, c.cube, PerDim(dims, c.coord), []))
    else LeafFails(env, rd, c.cube, PerDim(dims, c.coord), x)
  }

  lemma CountedSum(env: Env, rd: Reader, o: nat, perDim: seq<seq<Contribution>>)
    requires o < |env.entries| && EntryOk(env.entries, o) && |perDim| == |env.entries[o].cube.dims| && Ascending(perDim)
    ensures var r, counted := RunSum(rd, o, RollupItems(env, o, perDim)).res, Counted(env, rd, o);
            if AllCounted(counted, o, perDim) then r == Ok(Nested(counted, o, perDim, []))
            else r.Err? && forall x :: LeafFails(env, rd, o, perDim, x) <==> r == Err(x)
  {
    hide RunSum, SparseItems, DenseItems, Nested, Contributes, SumItems, ScanFailure, DenseFailure;
    var items, r := RollupItems(env, o, perDim), RunSum(rd, o, RollupItems(env, o, perDim)).res;
    if r.Ok? {
      SumOk(rd, o, items);
      SumOfValues(rd, o, items);
    }
    if TakesSparse(env, o) {
      var coords := env.entries[o].cube.scan + env.entries[o].fed.value;
      assert forall x :: x in coords ==> |x| == |perDim|;
      SparseIsNested(rd, o, perDim, coords);
      ScannedOk(rd, o, perDim, coords);
      OnlyCounted(rd, o, perDim, coords);
      forall x
        ensures LeafFails(env, rd, o, perDim, x) <==> r == Err(x)
      {
        SparseFails(rd, o, perDim, coords, x);
      }
    } else {
      DenseIsNested(rd, o, perDim);
      DenseOk(rd, o, perDim);
      forall x
        ensures LeafFails(env, rd, o, perDim, x) <==> r == Err(x)
      {
        DenseFails(rd, o, perDim, x);
      }
    }
  }

  lemma OnlyCounted(rd: Reader, o: nat, perDim: seq<seq<Contribution>>, coords: seq<Coord>)
    ensures AllCounted(Only(rd, coords), o, perDim) <==> AllScanned(rd, o, perDim, coords)
  {
    hide Contributes;
    if AllCounted(Only(rd, coords), o, perDim) {
      forall j | 0 <= j < |coords| && Contributes(perDim, coords[j])
        ensures rd(Cell(o, coords[j])).Ok?
      {
        assert Only(rd, coords)(Cell(o, coords[j])).Ok?;
      }
    }
    if AllScanned(rd, o, perDim, coords) {
      forall y | Contributes(perDim, y)
        ensures Only(rd, coords)(Cell(o, y)).Ok?
      {
        if y in coords { var j :| 0 <= j < |coords| && coords[j] == y; }
      }
    }
  }

  lemma DenseOk(rd: Reader, o: nat, perDim: seq<seq<Contribution>>)
    requires Ascending(perDim)
    ensures RunSum(rd, o, DenseItems(perDim)).res.Ok? <==> AllCounted(rd, o, perDim)
  {
    hide DenseItems, RunSum, Contributes;
    var items := DenseItems(perDim);
    DenseListing(perDim);
    if RunSum(rd, o, items).res.Ok? {
      SumOk(rd, o, items);
      forall y | Contributes(perDim, y)
        ensures rd(Cell(o, y)).Ok?
      {
        var k :| 0 <= k < |items| && items[k].coord == y;
        assert items[k] in items;
      }
    }
    if AllCounted(rd, o, perDim) { SumOfValues(rd, o, items); }
  }

  /** A rollup with an empty list of leaves has nothing to read, and adds up to zero. */
  lemma EmptyRollup(env: Env, rd: Reader, o: nat, perDim: seq<seq<Contribution>>)
    requires o < |env.entries| && EntryOk(env.entries, o) && |perDim| == |env.entries[o].cube.dims| && Ascending(perDim)
    requires Size(Lens(perDim)) == 0
    ensures RunSum(rd, o, RollupItems(env, o, perDim)).res == Ok(0)
  {
    hide SparseItems, CellWeight;
    assert DenseItems(perDim) == [];
    if TakesSparse(env, o) {
      var coords := env.entries[o].cube.scan + env.entries[o].fed.value;
      assert SparseItems(perDim, coords) != [] ==> SparseItems(perDim, coords)[0] in SparseItems(perDim, coords);
      SparseIsExact(perDim, coords);
      DenseIsExact(perDim);
      forall item | item in SparseItems(perDim, coords)
        ensures item in DenseItems(perDim)
      {}
    }
  }

  lemma PerDimIsAscending(entries: seq<Entry>, o: nat, coord: Coord)
    requires o < |entries| && EntryOk(entries, o) && InRange(entries[o].cube.dims, coord)
    ensures Ascending(PerDim(entries[o].cube.dims, coord))
  {
    var dims := entries[o].cube.dims;
    forall d | 0 <= d < |dims|
      ensures RollupOk(dims[d], coord[d])
    {
      assert DimensionOk(dims[d]);
    }
  }

  /** A rollup is the nested weighted sum of its leaves; it fails on a coordinate that is none of the
      cube, on a leaf space too large to count, as its first failing leaf does, or when the sum leaves
      64 bits. */
  lemma RollupMeans(env: Env, rd: Reader, c: Cell)
    requires c.cube < |env.entries| && EntryOk(env.entries, c.cube)
    ensures var r := RunRollup(env, rd, c).res;
            (forall v: int :: RollupIs(env, rd, c, v) <==> r.Ok? && r.value == v)
            && (forall x :: RollupFails(env, rd, c, x) <==> r == Err(x))
  {
    hide RunSum, RollupItems, Nested, AllCounted, LeafFails, Counted, PrefixTooLarge, CheckedProduct, Size;
    var dims := env.entries[c.cube].cube.dims;
    if InRange(dims, c.coord) {
      var perDim := PerDim(dims, c.coord);
      PerDimIsAscending(env.entries, c.cube, c.coord);
      ProductRefused(Lens(perDim));
      if !PrefixTooLarge(1, Lens(perDim)) {
        CountedSum(env, rd, c.cube, perDim);
        if Size(Lens(perDim)) == 0 { EmptyRollup(env, rd, c.cube, perDim); }
      }
    }
  }

  lemma ProductRefused(lens: seq<nat>)
    ensures CheckedProduct(lens).None? <==> PrefixTooLarge(1, lens)
    ensures CheckedProduct(lens).Some? ==> CheckedProduct(lens).value == Size(lens)
  {
    CheckedFromNone(1, lens);
  }

  lemma {:induction false} SumReads(rd: Reader, o: nat, items: seq<Item>)
    ensures forall e :: e in RunSum(rd, o, items).log ==> e.cube == o && e.coord in CoordsOf(items)
    ensures RunSum(rd, o, items).res.Ok? ==> forall x :: x in CoordsOf(items) ==> Cell(o, x) in RunSum(rd, o, items).log
  {
    if items != [] {
      var n := |items| - 1;
      SumReads(rd, o, items[..n]);
      CoordsPush(items[..n], items[n]);
      assert items == items[..n] + [items[n]];
    }
  }

  /** A sparse rollup looks at no leaf outside the store and its license; a dense one with a value has
      looked at every leaf. */
  lemma RollupReads(env: Env, rd: Reader, c: Cell)
    requires c.cube < |env.entries| && EntryOk(env.entries, c.cube) && InRange(env.entries[c.cube].cube.dims, c.coord)
    ensures var entry, run := env.entries[c.cube], RunRollup(env, rd, c);
            var perDim := PerDim(entry.cube.dims, c.coord);
            && (forall e :: e in run.log ==> e.cube == c.cube && Contributes(perDim, e.coord))
            && (if entry.fed.Some? && env.overlay.None? && env.mask.None?
                then forall e :: e in run.log ==> e.coord in entry.cube.scan + entry.fed.value
                else run.res.Ok? ==> forall y :: Contributes(perDim, y) ==> Cell(c.cube, y) in run.log)
  {
    hide RunSum, SparseItems, DenseItems, Contributes, CoordsOf, CellWeight;
    var entry, perDim := env.entries[c.cube], PerDim(env.entries[c.cube].cube.dims, c.coord);
    var items := RollupItems(env, c.cube, perDim);
    PerDimIsAscending(env.entries, c.cube, c.coord);
    SumReads(rd, c.cube, items);
    DenseListing(perDim);
    DenseIsExact(perDim);
    EmptyDense(perDim);
    if TakesSparse(env, c.cube) { SparseIsExact(perDim, entry.cube.scan + entry.fed.value); }
    forall x | x in CoordsOf(items)
      ensures Contributes(perDim, x)
      ensures TakesSparse(env, c.cube) ==> x in entry.cube.scan + entry.fed.value
    {
      CoordsHas(items, x);
      var i :| 0 <= i < |items| && items[i].coord == x;
      assert items[i] in items;
      ContributesIffWeighs(perDim, x);
    }
    if !TakesSparse(env, c.cube) {
      forall y | Contributes(perDim, y)
        ensures y in CoordsOf(items)
      {
        CoordsHas(items, y);
      }
    }
  }

  lemma EmptyDense(perDim: seq<seq<Contribution>>)
    ensures Size(Lens(perDim)) == 0 ==> DenseItems(perDim) == []
  {}

  // ---------------------------------------------------------------- one cell

  /** Rule `k` is the first, in author order, whose area holds the coordinate. */
  ghost predicate Fires(entry: Entry, coord: Coord, k: nat) {
    && k < |RulesOf(entry)| && Matches(RulesOf(entry)[k].area, entry.cube.dims, coord)
    && forall j :: 0 <= j < k ==> !Matches(RulesOf(entry)[j].area, entry.cube.dims, coord)
  }

  ghost predicate Unruled(entry: Entry, coord: Coord) {
    forall k :: 0 <= k < |RulesOf(entry)| ==> !Matches(RulesOf(entry)[k].area, entry.cube.dims, coord)
  }

  /** What a leaf no rule covers holds: the overlay's value, else the stored one, else zero. */
  ghost predicate LeafIs(env: Env, c: Cell, v: int)
    requires c.cube < |env.entries|
  {
    var cells := env.entries[c.cube].cube.cells;
    if env.overlay.Some? && env.overlay.value.target == c.cube && c.coord in env.overlay.value.cells
    then env.overlay.value.cells[c.coord] == v
    else if c.coord in cells then cells[c.coord] == v
    else v == 0
  }

  /** The mask is for the cell's cube and denies the element of some dimension. */
  ghost predicate Hidden(env: Env, c: Cell) {
    env.mask.Some? && env.mask.value.target == c.cube && exists d: nat :: HidesAt(env.mask.value.denied, c.coord, d)
  }

  ghost predicate HidesAt(denied: seq<set<nat>>, coord: Coord, d: nat) {
    d < |coord| && d < |denied| && coord[d] in denied[d]
  }

  lemma DeniedIsHidden(env: Env, c: Cell)
    ensures Denied(env, c) <==> Hidden(env, c)
  {
    if env.mask.Some? {
      var denied := env.mask.value.denied;
      forall d: nat
        ensures HidesAt(denied, c.coord, d) <==> d < |c.coord| && d < |denied| && c.coord[d] in denied[d]
      {}
    }
  }

  ghost predicate CellIs(env: Env, rd: Reader, c: Cell, v: int)
    requires EnvOk(env)
  {
    && !Hidden(env, c) && c.cube < |env.entries| && EntryOk(env.entries, c.cube)
    && !env.entries[c.cube].rules.Broken?
    && var entry := env.entries[c.cube];
       || (exists k: nat :: Fires(entry, c.coord, k) && ExprIs(rd, entry.cube.dims, c.coord, RulesOf(entry)[k].expr, v))
       || (Unruled(entry, c.coord) && AllLeaf(entry.cube.dims, c.coord) && LeafIs(env, c, v))
       || (Unruled(entry, c.coord) && !AllLeaf(entry.cube.dims, c.coord) && RollupIs(env, rd, c, v))
  }

  ghost predicate CellFails(env: Env, rd: Reader, c: Cell, x: CalcError)
    requires EnvOk(env)
  {
    if Hidden(env, c) then x == AccessDenied
    else if c.cube >= |env.entries| then x == UnknownCube(c.cube)
    else if env.entries[c.cube].rules.Broken? then x == RulesFailed(c.cube)
    else
      && EntryOk(env.entries, c.cube)
      && var entry := env.entries[c.cube];
         || (exists k: nat ::
               Fires(entry, c.coord, k) && ExprFails(rd, entry.cube.dims, c.coord, RulesOf(entry)[k].expr, x))
         || (Unruled(entry, c.coord) && !AllLeaf(entry.cube.dims, c.coord) && RollupFails(env, rd, c, x))
  }

  lemma FiresFirst(entry: Entry, coord: Coord)
    ensures var m := FirstMatch(RulesOf(entry), entry.cube.dims, coord);
            && (m.None? <==> Unruled(entry, coord))
            && (forall k: nat :: Fires(entry, coord, k) <==> m == Some(k))
  {
    hide Matches;
  }

  /** One cell, whatever the cells it consults are worth: exactly the value, or exactly the failure,
      its first rule, its overlay or store, or its leaves give. */
  lemma ComputeMeans(env: Env, rd: Reader, c: Cell)
    requires EnvOk(env)
    ensures var r := Compute(env, rd, c).res;
            (forall v: int :: CellIs(env, rd, c, v) <==> r.Ok? && r.value == v)
            && (forall x :: CellFails(env, rd, c, x) <==> r == Err(x))
  {
    hide ExprIs, ExprFails, RunExpr, RollupIs, RollupFails, RunRollup, Matches, Denied, Hidden, ExprOk, CubeOk,
      AreaOk, AllLeaf, FirstMatch;
    DeniedIsHidden(env, c);
    if c.cube < |env.entries| {
      assert EntryOk(env.entries, c.cube);
      var entry := env.entries[c.cube];
      var m := FirstMatch(RulesOf(entry), entry.cube.dims, c.coord);
      FiresFirst(entry, c.coord);
      RollupMeans(env, rd, c);
      if m.Some? {
        MatchedInRange(env, c.cube, c.coord);
        ExprMeans(rd, env.entries, c.cube, c.coord, RulesOf(entry)[m.value].expr);
      }
    }
  }

  // ---------------------------------------------------------------- values from nothing

  /** The values cells have from nothing solve all equations at once: each is what its rule, its store
      or its leaves give with the others put in. */
  lemma ValuesSolve(env: Env, c: Cell)
    requires EnvOk(env) && Eval(env, {}, c).Ok?
    ensures CellIs(env, Under(env, {}), c, Eval(env, {}, c).value)
  {
    hide EnvOk, Eval, Under, Compute, CellIs, CellFails;
    var first := {} + {c};
    var now, top := Under(env, first), Under(env, {});
    EvalUnfold(env, {}, c);
    ComputeErrors(env, now, c);
    forall x | x in Compute(env, now, c).log
      ensures now(x) == top(x)
    {
      UnderIs(env, first, x);
      UnderIs(env, {}, x);
      SameValue(env, first, x);
    }
    ComputeExt(env, now, top, c);
    ComputeMeans(env, top, c);
  }

  lemma NestedAgree(a: Reader, b: Reader, o: nat, perDim: seq<seq<Contribution>>)
    requires Ascending(perDim)
    requires forall y :: Contributes(perDim, y) ==> a(Cell(o, y)) == b(Cell(o, y))
    ensures Nested(a, o, perDim, []) == Nested(b, o, perDim, [])
    ensures AllCounted(a, o, perDim) <==> AllCounted(b, o, perDim)
  {
    hide DenseItems, SumItems, Nested, Contributes;
    DenseListing(perDim);
    DenseIsNested(a, o, perDim);
    DenseIsNested(b, o, perDim);
    SumAgree(a, b, o, DenseItems(perDim));
  }

  /** Whether `c` is a consolidation of its cube that no rule overrides and whose leaves can be counted. */
  ghost predicate PlainRollup(env: Env, c: Cell)
    requires EnvOk(env)
  {
    && c.cube < |env.entries| && EntryOk(env.entries, c.cube)
    && !env.entries[c.cube].rules.Broken? && Unruled(env.entries[c.cube], c.coord)
    && InRange(env.entries[c.cube].cube.dims, c.coord) && !AllLeaf(env.entries[c.cube].cube.dims, c.coord)
    && !PrefixTooLarge(1, Lens(PerDim(env.entries[c.cube].cube.dims, c.coord)))
  }

  lemma PlainRollupRuns(env: Env, rd: Reader, c: Cell)
    requires EnvOk(env) && PlainRollup(env, c) && !Hidden(env, c) && env.entries[c.cube].fed.None?
    ensures var perDim, r := PerDim(env.entries[c.cube].cube.dims, c.coord), Compute(env, rd, c).res;
            && Ascending(perDim)
            && (if AllCounted(rd, c.cube, perDim)
                then r == if FitsI64(Nested(rd, c.cube, perDim, [])) then Ok(Nested(rd, c.cube, perDim, []))
                          else Err(Model(RollupOverflow))
                else r.Err?)
  {
    hide AllCounted, Nested, LeafFails, PrefixTooLarge, Compute, RunRollup, AllLeaf, Matches, ExprOk, AreaOk;
    var dims := env.entries[c.cube].cube.dims;
    PerDimIsAscending(env.entries, c.cube, c.coord);
    var perDim := PerDim(dims, c.coord);
    assert Counted(env, rd, c.cube) == rd;
    ComputeMeans(env, rd, c);
    var n := Nested(rd, c.cube, perDim, []);
    if AllCounted(rd, c.cube, perDim) {
      if FitsI64(n) {
        assert CellIs(env, rd, c, n);
      } else {
        assert CellFails(env, rd, c, Model(RollupOverflow));
      }
    } else {
      var r := Compute(env, rd, c).res;
      assert r.Ok? ==> CellIs(env, rd, c, r.value);
    }
  }

  /** A consolidation no rule overrides is the weighted sum, dimension by dimension, of the values its
      leaves have, however the registry reads it; it has no value exactly when a leaf has none or the
      sum leaves 64 bits. */
  lemma RollupIsTotal(env: Env, c: Cell)
    requires EnvOk(env) && EnvOk(Dense(env)) && Licensed(env) && PlainRollup(env, c) && !Hidden(env, c)
    ensures var perDim, rd := PerDim(env.entries[c.cube].cube.dims, c.coord), Under(env, {});
            if AllCounted(rd, c.cube, perDim)
            then Eval(env, {}, c) == if FitsI64(Nested(rd, c.cube, perDim, []))
                                     then Ok(Nested(rd, c.cube, perDim, []))
                                     else Err(Model(RollupOverflow))
            else Eval(env, {}, c).Err?
  {
    hide EnvOk, Eval, Under, Compute, Licensed, Nested, PrefixTooLarge, Contributes, Dense;
    var dense, o, perDim := Dense(env), c.cube, PerDim(env.entries[c.cube].cube.dims, c.coord);
    DensePlain(env, c);
    PerDimIsAscending(env.entries, o, c.coord);
    SparseIsDense(env, {}, c);
    EvalUnfold(dense, {}, c);
    var first := {} + {c};
    var rd, now, top := Under(env, {}), Under(dense, first), Under(dense, {});
    PlainRollupRuns(dense, now, c);
    forall y | Contributes(perDim, y)
      ensures rd(Cell(o, y)) == top(Cell(o, y))
    {
      SparseIsDense(env, {}, Cell(o, y));
      UnderIs(env, {}, Cell(o, y));
      UnderIs(dense, {}, Cell(o, y));
    }
    NestedAgree(rd, top, o, perDim);
    if AllCounted(top, o, perDim) || AllCounted(now, o, perDim) {
      forall y | Contributes(perDim, y)
        ensures now(Cell(o, y)) == top(Cell(o, y))
      {
        RolledLeaf(dense, c, y);
      }
      NestedAgree(now, top, o, perDim);
    }
  }

  lemma DensePlain(env: Env, c: Cell)
    requires EnvOk(env) && PlainRollup(env, c) && !Hidden(env, c)
    ensures EnvOk(Dense(env)) && PlainRollup(Dense(env), c) && !Hidden(Dense(env), c)
    ensures Dense(env).entries[c.cube].fed.None? && Dense(env).entries[c.cube].cube == env.entries[c.cube].cube
  {
    DenseEnv(env);
    assert EntryOk(Dense(env).entries, c.cube);
    assert RulesOf(Dense(env).entries[c.cube]) == RulesOf(env.entries[c.cube]);
  }

  /** A leaf is read the same under the rollup as from nothing, when either has it Ok. */
  lemma RolledLeaf(env: Env, c: Cell, y: Coord)
    requires EnvOk(env) && PlainRollup(env, c) && !Hidden(env, c) && env.entries[c.cube].fed.None?
    requires Contributes(PerDim(env.entries[c.cube].cube.dims, c.coord), y)
    requires Under(env, {})(Cell(c.cube, y)).Ok? || Under(env, {} + {c})(Cell(c.cube, y)).Ok?
    ensures Under(env, {} + {c})(Cell(c.cube, y)) == Under(env, {})(Cell(c.cube, y))
  {
    hide EnvOk, Eval, Under, Compute, AllCounted, PrefixTooLarge, Contributes, DenseItems, RunSum, Bounded, Within;
    var leaf, first := Cell(c.cube, y), {} + {c};
    UnderIs(env, {}, leaf);
    UnderIs(env, first, leaf);
    if Eval(env, first, leaf).Ok? {
      SameValue(env, first, leaf);
    } else {
      var perDim := PerDim(env.entries[c.cube].cube.dims, c.coord);
      PerDimIsAscending(env.entries, c.cube, c.coord);
      DenseListing(perDim);
      var items := DenseItems(perDim);
      var k :| 0 <= k < |items| && items[k].coord == y;
      forall n: nat | n > 0 && OkAt(env, n, c)
        ensures RunSum(Within(env, n - 1), c.cube, items).res.Ok?
      {
        BoundedUnfold(env, n, c);
        PlainRollupRuns(env, Within(env, n - 1), c);
        DenseOk(Within(env, n - 1), c.cube, perDim);
      }
      assert Genuine(env, {}, c);
      LeafUnderRollup(env, {}, c, items, items[k]);
    }
  }
}
