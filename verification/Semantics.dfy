/** What a cell means. `Compute` evaluates one cell through a reader for the cells it
    consults; `Eval` ties the knot with the stack of cells being computed, `Bounded` with
    a nesting depth. The engine's memo is no part of either. */
module Semantics {
  import opened FixedPoint
  import opened CubeModel
  import opened Rollups

  type Reader = Cell -> Result<Fixed>

  /** A result together with the cells consulted for it, in order, up to the first error. */
  datatype Run<+T> = Run(res: Result<T>, log: seq<Cell>)

  function Lift(a: ArithResult): Result<Fixed> {
    match a
    case Value(v) => Ok(v)
    case DivByZero => Err(DivideByZero)
    case Overflow => Err(RuleOverflow)
  }

  // ---------------------------------------------------------------- one cell

  function RunExpr(rd: Reader, entries: seq<Entry>, own: nat, target: Coord, e: Expr): Run<Fixed>
    requires own < |entries| && ExprOk(e, own, entries) && |target| == |entries[own].cube.dims|
    decreases e
  {
    match e
    case Num(v) => Run(Ok(v), [])
    case Undef => Run(Ok(0), [])
    case AttrNum(d, a) => Run(Ok(NumericAttribute(entries[own].cube.dims[d], target[d], a)), [])
    case Read(cell) =>
      var c := Cell(cell.cube, Resolve(cell, target));
      Run(rd(c), [c])
    case Neg(a) =>
      var r := RunExpr(rd, entries, own, target, a);
      if r.res.Err? then r else Run(Lift(Negate(r.res.value)), r.log)
    case Bin(op, a, b) =>
      var l := RunExpr(rd, entries, own, target, a);
      if l.res.Err? then l else
      var r := RunExpr(rd, entries, own, target, b);
      Run(if r.res.Err? then r.res else Lift(Arith(op, l.res.value, r.res.value)), l.log + r.log)
    case If(c, t, o) =>
      var k := RunCond(rd, entries, own, target, c);
      if k.res.Err? then Run(Err(k.res.error), k.log)
      else if k.res.value then
        var r := RunExpr(rd, entries, own, target, t);
        Run(r.res, k.log + r.log)
      else if o.Some? then
        var r := RunExpr(rd, entries, own, target, o.value);
        Run(r.res, k.log + r.log)
      else Run(Ok(0), k.log)
  }

  function RunCond(rd: Reader, entries: seq<Entry>, own: nat, target: Coord, c: Cond): Run<bool>
    requires own < |entries| && CondOk(c, own, entries) && |target| == |entries[own].cube.dims|
    decreases c
  {
    match c
    case And(a, b) =>
      var l := RunCond(rd, entries, own, target, a);
      if l.res.Err? || !l.res.value then l else
      var r := RunCond(rd, entries, own, target, b);
      Run(r.res, l.log + r.log)
    case Or(a, b) =>
      var l := RunCond(rd, entries, own, target, a);
      if l.res.Err? || l.res.value then l else
      var r := RunCond(rd, entries, own, target, b);
      Run(r.res, l.log + r.log)
    case Not(a) =>
      var r := RunCond(rd, entries, own, target, a);
      if r.res.Err? then r else Run(Ok(!r.res.value), r.log)
    case Cmp(a, op, b) =>
      var l := RunExpr(rd, entries, own, target, a);
      if l.res.Err? then Run(Err(l.res.error), l.log) else
      var r := RunExpr(rd, entries, own, target, b);
      Run(if r.res.Err? then Err(r.res.error) else Ok(Compare(l.res.value, r.res.value, op)),
          l.log + r.log)
  }

  /** The exact weighted sum of the items, read in order. */
  function RunSum(rd: Reader, o: nat, items: seq<Item>): Run<int> {
    if items == [] then Run(Ok(0), [])
    else
      var last := items[|items| - 1];
      var before := RunSum(rd, o, items[..|items| - 1]);
      if before.res.Err? then before
      else
        var c := Cell(o, last.coord);
        Run(match rd(c)
            case Ok(v) => Ok(before.res.value + last.weight * v)
            case Err(e) => Err(e),
            before.log + [c])
  }

  /** Whether rollups of cube `o` take the sparse scan. */
  predicate TakesSparse(env: Env, o: nat)
    requires o < |env.entries|
  {
    env.entries[o].fed.Some? && env.overlay.None? && env.mask.None?
  }

  function RollupItems(env: Env, o: nat, perDim: seq<seq<Contribution>>): seq<Item>
    requires o < |env.entries| && EntryOk(env.entries, o) && |perDim| == |env.entries[o].cube.dims|
  {
    if TakesSparse(env, o)
    then SparseItems(perDim, env.entries[o].cube.scan + env.entries[o].fed.value)
    else DenseItems(perDim)
  }

  function RunRollup(env: Env, rd: Reader, c: Cell): Run<Fixed>
    requires c.cube < |env.entries| && EntryOk(env.entries, c.cube)
  {
    var dims := env.entries[c.cube].cube.dims;
    if |c.coord| != |dims| then Run(Err(Model(RankMismatch)), [])
    else if !InRange(dims, c.coord) then Run(Err(Model(ElementOutOfRange)), [])
    else
      var perDim := PerDim(dims, c.coord);
      match CheckedProduct(Lens(perDim))
      case None => Run(Err(Model(RollupOverflow)), [])
      case Some(total) =>
        if total == 0 then Run(Ok(0), [])
        else
          var sum := RunSum(rd, c.cube, RollupItems(env, c.cube, perDim));
          Run(match sum.res
              case Ok(v) => if FitsI64(v) then Ok(v) else Err(Model(RollupOverflow))
              case Err(e) => Err(e),
              sum.log)
  }

  function LeafValue(env: Env, c: Cell): Fixed
    requires c.cube < |env.entries|
  {
    if env.overlay.Some? && env.overlay.value.target == c.cube && c.coord in env.overlay.value.cells
    then env.overlay.value.cells[c.coord]
    else Stored(env.entries[c.cube].cube, c.coord)
  }

  /** Whether the mask hides the cell. */
  predicate Denied(env: Env, c: Cell) {
    env.mask.Some? && env.mask.value.target == c.cube && Denies(env.mask.value, c.coord)
  }

  function Compute(env: Env, rd: Reader, c: Cell): Run<Fixed>
    requires EnvOk(env)
  {
    if Denied(env, c) then Run(Err(AccessDenied), [])
    else if c.cube >= |env.entries| then Run(Err(UnknownCube(c.cube)), [])
    else if env.entries[c.cube].rules.Broken? then Run(Err(RulesFailed(c.cube)), [])
    else
      var entry := env.entries[c.cube];
      assert EntryOk(env.entries, c.cube);
      match FirstMatch(RulesOf(entry), entry.cube.dims, c.coord)
      case Some(i) => RunExpr(rd, env.entries, c.cube, c.coord, RulesOf(entry)[i].expr)
      case None =>
        if AllLeaf(entry.cube.dims, c.coord) then Run(Ok(LeafValue(env, c)), [])
        else RunRollup(env, rd, c)
  }

  // ---------------------------------------------------------------- the finite universe of cells

  function Cons(i: nat, rest: Coord): Coord { [i] + rest }

  function Box(lens: seq<nat>): (r: set<Coord>)
    ensures forall c: Coord :: c in r <==> InBox(lens, c)
  {
    if lens == [] then {[]}
    else
      var rest := Box(lens[1..]);
      BoxStep(lens, rest);
      set i: nat, c | 0 <= i < lens[0] && c in rest :: Cons(i, c)
  }

  lemma BoxStep(lens: seq<nat>, rest: set<Coord>)
    requires lens != [] && forall c: Coord :: c in rest <==> InBox(lens[1..], c)
    ensures forall i: nat, c :: i < lens[0] && c in rest ==> InBox(lens, Cons(i, c))
    ensures forall c: Coord :: InBox(lens, c) ==> c[0] < lens[0] && c[1..] in rest && c == Cons(c[0], c[1..])
  {
    forall c: Coord | InBox(lens, c)
      ensures c[0] < lens[0] && c[1..] in rest && c == Cons(c[0], c[1..])
    {
      assert InBox(lens[1..], c[1..]);
    }
  }

  function Shape(cube: Cube): (r: seq<nat>)
    ensures |r| == |cube.dims| && forall d :: 0 <= d < |r| ==> r[d] == |cube.dims[d].elements|
  {
    seq(|cube.dims|, d requires 0 <= d < |cube.dims| => |cube.dims[d].elements|)
  }

  function Universe(env: Env): (r: set<Cell>)
    ensures forall c :: c in r <==> c.cube < |env.entries| && InRange(env.entries[c.cube].cube.dims, c.coord)
  {
    set o, c | 0 <= o < |env.entries| && c in Box(Shape(env.entries[o].cube)) :: Cell(o, c)
  }

  // ---------------------------------------------------------------- stack semantics

  function Nothing(): Reader { c => Err(Cycle(c)) }

  /** The value of `c` while the cells of `stack` are being computed. */
  function Eval(env: Env, stack: set<Cell>, c: Cell): Result<Fixed>
    requires EnvOk(env)
    decreases Universe(env) - stack, 0
  {
    if c in stack then Err(Cycle(c))
    else if c !in Universe(env) then Compute(env, Nothing(), c).res
    else Compute(env, Under(env, stack + {c}), c).res
  }

  function Under(env: Env, stack: set<Cell>): Reader
    requires EnvOk(env)
    decreases Universe(env) - stack, 1
  {
    e => Eval(env, stack, e)
  }

  // ---------------------------------------------------------------- depth-bounded semantics

  /** The value of `c` if its evaluation nests fewer than `n` cells deep. */
  function Bounded(env: Env, n: nat, c: Cell): Result<Fixed>
    requires EnvOk(env)
    decreases n, 0
  {
    if n == 0 then Err(Cycle(c)) else Compute(env, Within(env, n - 1), c).res
  }

  function Within(env: Env, n: nat): Reader
    requires EnvOk(env)
    decreases n, 1
  {
    e => Bounded(env, n, e)
  }
}
