/** Explaining a cell: the trace of what its value rests on. */
module Explain {
  import opened FixedPoint
  import opened CubeModel
  import opened Rollups
  import opened Semantics
  import opened Evaluation
  import opened Engine
  import opened RollupSums
  import opened Sparse
  import opened Walks
  import opened Feeders
  import opened FeederSoundness

  /** The most contributing leaves one rollup lists. */
  const MAX_EXPLAIN_INPUTS: nat := 64

  datatype TraceKind = ByRule(rule: nat) | StoredLeaf | Rollup(contributions: nat)

  datatype Trace = Trace(cell: Cell, value: Fixed, kind: TraceKind, inputs: seq<Trace>, truncated: bool)

  // ---------------------------------------------------------------- the cells a rule consulted

  function CondCells(c: Cond): seq<CellRef>
    decreases c
  {
    match c
    case And(a, b) => CondCells(a) + CondCells(b)
    case Or(a, b) => CondCells(a) + CondCells(b)
    case Not(a) => CondCells(a)
    case Cmp(a, _, b) => ExprCells(a) + ExprCells(b)
  }

  function ExprCells(e: Expr): seq<CellRef>
    decreases e
  {
    match e
    case Read(cell) => [cell]
    case Neg(a) => ExprCells(a)
    case Bin(_, a, b) => ExprCells(a) + ExprCells(b)
    case If(c, t, o) => CondCells(c) + ExprCells(t) + (if o.Some? then ExprCells(o.value) else [])
    case Num(_) => []
    case AttrNum(_, _) => []
    case Undef => []
  }

  /** The cells of every term, and for a choice those of its condition and of the branch taken. */
  function Consulted(rd: Reader, entries: seq<Entry>, own: nat, t: Coord, e: Expr): Result<seq<CellRef>>
    requires own < |entries| && ExprOk(e, own, entries) && |t| == |entries[own].cube.dims|
    decreases e
  {
    match e
    case Read(cell) => Ok([cell])
    case Neg(a) => Consulted(rd, entries, own, t, a)
    case Bin(_, a, b) =>
      (match Consulted(rd, entries, own, t, a)
       case Err(x) => Err(x)
       case Ok(left) =>
         match Consulted(rd, entries, own, t, b)
         case Err(x) => Err(x)
         case Ok(right) => Ok(left + right))
    case If(c, x, o) =>
      (match RunCond(rd, entries, own, t, c).res
       case Err(err) => Err(err)
       case Ok(taken) =>
         if !taken && o.None? then Ok(CondCells(c))
         else
           match Consulted(rd, entries, own, t, if taken then x else o.value)
           case Err(err) => Err(err)
           case Ok(cells) => Ok(CondCells(c) + cells))
    case Num(_) => Ok([])
    case AttrNum(_, _) => Ok([])
    case Undef => Ok([])
  }

  /** Every condition is one comparison, or its negation, of operands that do not branch. */
  predicate PlainConds(e: Expr)
    decreases e
  {
    match e
    case Neg(a) => PlainConds(a)
    case Bin(_, a, b) => PlainConds(a) && PlainConds(b)
    case If(c, t, o) => PlainCond(c) && PlainConds(t) && (o.Some? ==> PlainConds(o.value))
    case _ => true
  }

  predicate PlainCond(c: Cond)
    decreases c
  {
    match c
    case And(_, _) => false
    case Or(_, _) => false
    case Not(a) => PlainCond(a)
    case Cmp(a, _, b) => NoChoice(a) && NoChoice(b)
  }

  predicate NoChoice(e: Expr) {
    match e
    case Neg(a) => NoChoice(a)
    case Bin(_, a, b) => NoChoice(a) && NoChoice(b)
    case If(_, _, _) => false
    case _ => true
  }

  // ---------------------------------------------------------------- listed, read or skipped

  /** Some reference of the list leads to `x` from the target. */
  ghost predicate Lists(cells: seq<CellRef>, t: Coord, x: Cell) {
    exists cell :: cell in cells && RefInTarget(cell, t) && Cell(cell.cube, Resolve(cell, t)) == x
  }

  lemma ListsBoth(a: seq<CellRef>, b: seq<CellRef>, t: Coord)
    ensures forall x :: Lists(a + b, t, x) <==> Lists(a, t, x) || Lists(b, t, x)
  {
    forall x
      ensures Lists(a + b, t, x) <==> Lists(a, t, x) || Lists(b, t, x)
    {
      if cell :| cell in a && RefInTarget(cell, t) && Cell(cell.cube, Resolve(cell, t)) == x {
        assert cell in a + b;
      }
      if cell :| cell in b && RefInTarget(cell, t) && Cell(cell.cube, Resolve(cell, t)) == x {
        assert cell in a + b;
      }
    }
  }

  /** Of the cells of a condition, those of the parts the evaluator does not come to. */
  function CondSkipped(rd: Reader, entries: seq<Entry>, own: nat, t: Coord, c: Cond): seq<CellRef>
    requires own < |entries| && CondOk(c, own, entries) && |t| == |entries[own].cube.dims|
    decreases c
  {
    match c
    case And(a, b) =>
      CondSkipped(rd, entries, own, t, a)
      + (if RunCond(rd, entries, own, t, a).res == Ok(true) then CondSkipped(rd, entries, own, t, b) else CondCells(b))
    case Or(a, b) =>
      CondSkipped(rd, entries, own, t, a)
      + (if RunCond(rd, entries, own, t, a).res == Ok(false) then CondSkipped(rd, entries, own, t, b) else CondCells(b))
    case Not(a) => CondSkipped(rd, entries, own, t, a)
    case Cmp(a, _, b) => OperandSkipped(rd, entries, own, t, a) + OperandSkipped(rd, entries, own, t, b)
  }

  /** The same of an operand of a comparison, both branches of whose choices are listed. */
  function OperandSkipped(rd: Reader, entries: seq<Entry>, own: nat, t: Coord, e: Expr): seq<CellRef>
    requires own < |entries| && ExprOk(e, own, entries) && |t| == |entries[own].cube.dims|
    decreases e
  {
    match e
    case Neg(a) => OperandSkipped(rd, entries, own, t, a)
    case Bin(_, a, b) => OperandSkipped(rd, entries, own, t, a) + OperandSkipped(rd, entries, own, t, b)
    case If(c, x, o) =>
      var taken := RunCond(rd, entries, own, t, c).res == Ok(true);
      CondSkipped(rd, entries, own, t, c)
      + (if taken then OperandSkipped(rd, entries, own, t, x) else ExprCells(x))
      + (if o.None? then [] else if taken then ExprCells(o.value) else OperandSkipped(rd, entries, own, t, o.value))
    case _ => []
  }

  /** And of a whole formula, of whose choices only the branch taken is listed. */
  function Skipped(rd: Reader, entries: seq<Entry>, own: nat, t: Coord, e: Expr): seq<CellRef>
    requires own < |entries| && ExprOk(e, own, entries) && |t| == |entries[own].cube.dims|
    decreases e
  {
    match e
    case Neg(a) => Skipped(rd, entries, own, t, a)
    case Bin(_, a, b) => Skipped(rd, entries, own, t, a) + Skipped(rd, entries, own, t, b)
    case If(c, x, o) =>
      CondSkipped(rd, entries, own, t, c)
      + (if RunCond(rd, entries, own, t, c).res == Ok(true) then Skipped(rd, entries, own, t, x)
         else if o.Some? then Skipped(rd, entries, own, t, o.value)
         else [])
    case _ => []
  }

  /** The list leads to exactly the cells of the log and those the skipped list leads to. */
  ghost predicate Splits(cells: seq<CellRef>, skipped: seq<CellRef>, t: Coord, log: seq<Cell>) {
    forall x :: Lists(cells, t, x) <==> x in log || Lists(skipped, t, x)
  }

  lemma SplitsBoth(a: seq<CellRef>, sa: seq<CellRef>, la: seq<Cell>, b: seq<CellRef>, sb: seq<CellRef>, lb: seq<Cell>,
                   t: Coord)
    requires Splits(a, sa, t, la) && Splits(b, sb, t, lb)
    ensures Splits(a + b, sa + sb, t, la + lb)
  {
    hide Lists;
    ListsBoth(a, b, t);
    ListsBoth(sa, sb, t);
  }

  lemma NothingListed(t: Coord)
    ensures Splits([], [], t, [])
  {}

  /** A part the evaluator does not come to is listed, and skipped, whole. */
  lemma AllSkipped(cells: seq<CellRef>, t: Coord)
    ensures Splits(cells, cells, t, [])
  {}

  lemma OneListed(entries: seq<Entry>, own: nat, cell: CellRef, t: Coord)
    requires RefOk(cell, own, entries) && own < |entries| && |t| == |entries[own].cube.dims|
    ensures RefInTarget(cell, t) && Splits([cell], [], t, [Cell(cell.cube, Resolve(cell, t))])
  {
    assert cell in [cell];
  }

  lemma {:induction false} CondSplits(rd: Reader, entries: seq<Entry>, own: nat, t: Coord, c: Cond)
    requires own < |entries| && CondOk(c, own, entries) && |t| == |entries[own].cube.dims|
    requires RunCond(rd, entries, own, t, c).res.Ok?
    ensures Splits(CondCells(c), CondSkipped(rd, entries, own, t, c), t, RunCond(rd, entries, own, t, c).log)
    decreases c, 0
  {
    hide Splits;
    match c
    case And(a, b) =>
      CondSplits(rd, entries, own, t, a);
      LastPart(rd, entries, own, t, a, b, RunCond(rd, entries, own, t, a).res.value);
    case Or(a, b) =>
      CondSplits(rd, entries, own, t, a);
      LastPart(rd, entries, own, t, a, b, !RunCond(rd, entries, own, t, a).res.value);
    case Not(a) => CondSplits(rd, entries, own, t, a);
    case Cmp(a, _, b) =>
      OperandSplits(rd, entries, own, t, a);
      OperandSplits(rd, entries, own, t, b);
      SplitsBoth(ExprCells(a), OperandSkipped(rd, entries, own, t, a), RunExpr(rd, entries, own, t, a).log,
                 ExprCells(b), OperandSkipped(rd, entries, own, t, b), RunExpr(rd, entries, own, t, b).log, t);
  }

  /** The second half of a condition, come to or not. */
  lemma {:induction false} LastPart(rd: Reader, entries: seq<Entry>, own: nat, t: Coord, a: Cond, b: Cond,
                                    reached: bool)
    requires own < |entries| && CondOk(a, own, entries) && CondOk(b, own, entries) && |t| == |entries[own].cube.dims|
    requires Splits(CondCells(a), CondSkipped(rd, entries, own, t, a), t, RunCond(rd, entries, own, t, a).log)
    requires reached ==> RunCond(rd, entries, own, t, b).res.Ok?
    ensures var la, lb := RunCond(rd, entries, own, t, a).log, RunCond(rd, entries, own, t, b).log;
            Splits(CondCells(a) + CondCells(b),
                   CondSkipped(rd, entries, own, t, a)
                   + (if reached then CondSkipped(rd, entries, own, t, b) else CondCells(b)),
                   t, if reached then la + lb else la)
    decreases b, 1
  {
    hide Splits;
    var sa, la := CondSkipped(rd, entries, own, t, a), RunCond(rd, entries, own, t, a).log;
    if reached {
      CondSplits(rd, entries, own, t, b);
      SplitsBoth(CondCells(a), sa, la, CondCells(b), CondSkipped(rd, entries, own, t, b),
                 RunCond(rd, entries, own, t, b).log, t);
    } else {
      AllSkipped(CondCells(b), t);
      SplitsBoth(CondCells(a), sa, la, CondCells(b), CondCells(b), [], t);
      assert la + [] == la;
    }
  }

  lemma {:induction false} OperandSplits(rd: Reader, entries: seq<Entry>, own: nat, t: Coord, e: Expr)
    requires own < |entries| && ExprOk(e, own, entries) && |t| == |entries[own].cube.dims|
    requires RunExpr(rd, entries, own, t, e).res.Ok?
    ensures Splits(ExprCells(e), OperandSkipped(rd, entries, own, t, e), t, RunExpr(rd, entries, own, t, e).log)
    decreases e, 1
  {
    hide Splits;
    match e
    case Read(cell) => OneListed(entries, own, cell, t);
    case Neg(a) => OperandSplits(rd, entries, own, t, a);
    case Bin(_, a, b) =>
      OperandSplits(rd, entries, own, t, a);
      OperandSplits(rd, entries, own, t, b);
      SplitsBoth(ExprCells(a), OperandSkipped(rd, entries, own, t, a), RunExpr(rd, entries, own, t, a).log,
                 ExprCells(b), OperandSkipped(rd, entries, own, t, b), RunExpr(rd, entries, own, t, b).log, t);
    case If(c, x, o) => ChoiceSplits(rd, entries, own, t, c, x, o);
    case Num(_) => NothingListed(t);
    case AttrNum(_, _) => NothingListed(t);
    case Undef => NothingListed(t);
  }

  lemma {:induction false} ChoiceSplits(rd: Reader, entries: seq<Entry>, own: nat, t: Coord, c: Cond, x: Expr,
                                        o: Option<Expr>)
    requires own < |entries| && ExprOk(If(c, x, o), own, entries) && |t| == |entries[own].cube.dims|
    requires RunExpr(rd, entries, own, t, If(c, x, o)).res.Ok?
    ensures Splits(ExprCells(If(c, x, o)), OperandSkipped(rd, entries, own, t, If(c, x, o)), t,
                   RunExpr(rd, entries, own, t, If(c, x, o)).log)
    decreases If(c, x, o), 0
  {
    hide Splits, CondSkipped, CondCells;
    CondSplits(rd, entries, own, t, c);
    var k, sc := RunCond(rd, entries, own, t, c), CondSkipped(rd, entries, own, t, c);
    if k.res.value {
      OperandSplits(rd, entries, own, t, x);
      var lx, sx := RunExpr(rd, entries, own, t, x).log, OperandSkipped(rd, entries, own, t, x);
      TakenParts(CondCells(c), sc, k.log, ExprCells(x), sx, lx, if o.Some? then ExprCells(o.value) else [], t);
    } else if o.Some? {
      OperandSplits(rd, entries, own, t, o.value);
      var lo, so := RunExpr(rd, entries, own, t, o.value).log, OperandSkipped(rd, entries, own, t, o.value);
      UntakenParts(CondCells(c), sc, k.log, ExprCells(x), ExprCells(o.value), so, lo, t);
    } else {
      NothingListed(t);
      UntakenParts(CondCells(c), sc, k.log, ExprCells(x), [], [], [], t);
      assert k.log + [] == k.log;
    }
  }

  lemma TakenParts(a: seq<CellRef>, sa: seq<CellRef>, la: seq<Cell>, b: seq<CellRef>, sb: seq<CellRef>, lb: seq<Cell>,
                   c: seq<CellRef>, t: Coord)
    requires Splits(a, sa, t, la) && Splits(b, sb, t, lb)
    ensures Splits(a + b + c, sa + sb + c, t, la + lb)
  {
    hide Splits;
    AllSkipped(c, t);
    ThreeParts(a, sa, la, b, sb, lb, c, c, [], t);
    assert la + lb + [] == la + lb;
  }

  lemma UntakenParts(a: seq<CellRef>, sa: seq<CellRef>, la: seq<Cell>, b: seq<CellRef>,
                     c: seq<CellRef>, sc: seq<CellRef>, lc: seq<Cell>, t: Coord)
    requires Splits(a, sa, t, la) && Splits(c, sc, t, lc)
    ensures Splits(a + b + c, sa + b + sc, t, la + lc)
  {
    hide Splits;
    AllSkipped(b, t);
    ThreeParts(a, sa, la, b, b, [], c, sc, lc, t);
    assert la + [] + lc == la + lc;
  }

  lemma ThreeParts(a: seq<CellRef>, sa: seq<CellRef>, la: seq<Cell>, b: seq<CellRef>, sb: seq<CellRef>, lb: seq<Cell>,
                   c: seq<CellRef>, sc: seq<CellRef>, lc: seq<Cell>, t: Coord)
    requires Splits(a, sa, t, la) && Splits(b, sb, t, lb) && Splits(c, sc, t, lc)
    ensures Splits(a + b + c, sa + sb + sc, t, la + lb + lc)
  {
    hide Splits;
    SplitsBoth(a, sa, la, b, sb, lb, t);
    SplitsBoth(a + b, sa + sb, la + lb, c, sc, lc, t);
  }

  /** What explain lists of a formula with a value is exactly what the evaluator read and what
      it skipped. */
  lemma {:induction false} ConsultedSplits(rd: Reader, entries: seq<Entry>, own: nat, t: Coord, e: Expr)
    requires own < |entries| && ExprOk(e, own, entries) && |t| == |entries[own].cube.dims|
    requires RunExpr(rd, entries, own, t, e).res.Ok?
    ensures Consulted(rd, entries, own, t, e).Ok?
    ensures Splits(Consulted(rd, entries, own, t, e).value, Skipped(rd, entries, own, t, e), t,
                   RunExpr(rd, entries, own, t, e).log)
    decreases e
  {
    hide Splits;
    match e
    case Read(cell) => OneListed(entries, own, cell, t);
    case Neg(a) => ConsultedSplits(rd, entries, own, t, a);
    case Bin(_, a, b) =>
      ConsultedSplits(rd, entries, own, t, a);
      ConsultedSplits(rd, entries, own, t, b);
      SplitsBoth(Consulted(rd, entries, own, t, a).value, Skipped(rd, entries, own, t, a),
                 RunExpr(rd, entries, own, t, a).log,
                 Consulted(rd, entries, own, t, b).value, Skipped(rd, entries, own, t, b),
                   RunExpr(rd, entries, own, t, b).log, t);
    case If(c, x, o) =>
      CondSplits(rd, entries, own, t, c);
      var k := RunCond(rd, entries, own, t, c);
      if !k.res.value && o.None? {
        assert CondSkipped(rd, entries, own, t, c) + [] == CondSkipped(rd, entries, own, t, c);
      } else {
        var y := if k.res.value then x else o.value;
        ConsultedSplits(rd, entries, own, t, y);
        SplitsBoth(CondCells(c), CondSkipped(rd, entries, own, t, c), k.log,
                   Consulted(rd, entries, own, t, y).value, Skipped(rd, entries, own, t, y),
                     RunExpr(rd, entries, own, t, y).log, t);
      }
    case Num(_) => NothingListed(t);
    case AttrNum(_, _) => NothingListed(t);
    case Undef => NothingListed(t);
  }

  // ---------------------------------------------------------------- plain conditions skip nothing

  lemma {:induction false} PlainOperand(rd: Reader, entries: seq<Entry>, own: nat, t: Coord, e: Expr)
    requires own < |entries| && ExprOk(e, own, entries) && |t| == |entries[own].cube.dims| && NoChoice(e)
    ensures OperandSkipped(rd, entries, own, t, e) == []
    decreases e
  {
    match e
    case Neg(a) => PlainOperand(rd, entries, own, t, a);
    case Bin(_, a, b) =>
      PlainOperand(rd, entries, own, t, a);
      PlainOperand(rd, entries, own, t, b);
    case _ =>
  }

  lemma {:induction false} PlainCondition(rd: Reader, entries: seq<Entry>, own: nat, t: Coord, c: Cond)
    requires own < |entries| && CondOk(c, own, entries) && |t| == |entries[own].cube.dims| && PlainCond(c)
    ensures CondSkipped(rd, entries, own, t, c) == []
    decreases c
  {
    match c
    case Not(a) => PlainCondition(rd, entries, own, t, a);
    case Cmp(a, _, b) =>
      PlainOperand(rd, entries, own, t, a);
      PlainOperand(rd, entries, own, t, b);
  }

  lemma {:induction false} PlainSkipsNothing(rd: Reader, entries: seq<Entry>, own: nat, t: Coord, e: Expr)
    requires own < |entries| && ExprOk(e, own, entries) && |t| == |entries[own].cube.dims| && PlainConds(e)
    ensures Skipped(rd, entries, own, t, e) == []
    decreases e
  {
    match e
    case Neg(a) => PlainSkipsNothing(rd, entries, own, t, a);
    case Bin(_, a, b) =>
      PlainSkipsNothing(rd, entries, own, t, a);
      PlainSkipsNothing(rd, entries, own, t, b);
    case If(c, x, o) =>
      PlainCondition(rd, entries, own, t, c);
      PlainSkipsNothing(rd, entries, own, t, x);
      if o.Some? { PlainSkipsNothing(rd, entries, own, t, o.value); }
    case _ =>
  }

  /** With plain conditions explain lists exactly the cells the evaluator did consult. */
  lemma ConsultedWereRead(rd: Reader, entries: seq<Entry>, own: nat, t: Coord, e: Expr)
    requires own < |entries| && ExprOk(e, own, entries) && |t| == |entries[own].cube.dims|
    requires PlainConds(e) && RunExpr(rd, entries, own, t, e).res.Ok?
    ensures Consulted(rd, entries, own, t, e).Ok?
    ensures forall x :: Lists(Consulted(rd, entries, own, t, e).value, t, x) <==>
              x in RunExpr(rd, entries, own, t, e).log
  {
    hide RunExpr, Consulted, Skipped;
    ConsultedSplits(rd, entries, own, t, e);
    PlainSkipsNothing(rd, entries, own, t, e);
  }

  /** The cells explain lists are addressed within their cubes. */
  lemma {:induction false} ConsultedOk(rd: Reader, entries: seq<Entry>, own: nat, t: Coord, e: Expr)
    requires own < |entries| && ExprOk(e, own, entries) && |t| == |entries[own].cube.dims|
    requires Consulted(rd, entries, own, t, e).Ok?
    ensures forall cell :: cell in Consulted(rd, entries, own, t, e).value ==>
              RefOk(cell, own, entries) && RefInTarget(cell, t)
    decreases e
  {
    match e
    case Neg(a) => ConsultedOk(rd, entries, own, t, a);
    case Bin(_, a, b) =>
      ConsultedOk(rd, entries, own, t, a);
      ConsultedOk(rd, entries, own, t, b);
    case If(c, x, o) =>
      CondCellsOk(entries, own, t, c);
      if RunCond(rd, entries, own, t, c).res.value {
        ConsultedOk(rd, entries, own, t, x);
      } else if o.Some? {
        ConsultedOk(rd, entries, own, t, o.value);
      }
    case _ =>
  }

  lemma {:induction false} CondCellsOk(entries: seq<Entry>, own: nat, t: Coord, c: Cond)
    requires own < |entries| && CondOk(c, own, entries) && |t| == |entries[own].cube.dims|
    ensures forall cell :: cell in CondCells(c) ==> RefOk(cell, own, entries) && RefInTarget(cell, t)
    decreases c
  {
    match c
    case And(a, b) => CondCellsOk(entries, own, t, a); CondCellsOk(entries, own, t, b);
    case Or(a, b) => CondCellsOk(entries, own, t, a); CondCellsOk(entries, own, t, b);
    case Not(a) => CondCellsOk(entries, own, t, a);
    case Cmp(a, _, b) => ExprCellsOk(entries, own, t, a); ExprCellsOk(entries, own, t, b);
  }

  lemma {:induction false} ExprCellsOk(entries: seq<Entry>, own: nat, t: Coord, e: Expr)
    requires own < |entries| && ExprOk(e, own, entries) && |t| == |entries[own].cube.dims|
    ensures forall cell :: cell in ExprCells(e) ==> RefOk(cell, own, entries) && RefInTarget(cell, t)
    decreases e
  {
    match e
    case Neg(a) => ExprCellsOk(entries, own, t, a);
    case Bin(_, a, b) => ExprCellsOk(entries, own, t, a); ExprCellsOk(entries, own, t, b);
    case If(c, x, o) =>
      CondCellsOk(entries, own, t, c);
      ExprCellsOk(entries, own, t, x);
      if o.Some? { ExprCellsOk(entries, own, t, o.value); }
    case _ =>
  }

  // ---------------------------------------------------------------- what a trace must be

  ghost predicate IsNonZero(env: Env, c: Cell)
    requires EnvOk(env)
  {
    Eval(env, {}, c).Ok? && Eval(env, {}, c) != Ok(0)
  }

  /** The non-zero leaves among the first `n` of a rollup, in lexicographic order. */
  ghost function NonZero(env: Env, o: nat, lists: seq<seq<nat>>, n: nat): seq<Coord>
    requires EnvOk(env) && n <= Size(Lens(lists))
  {
    if n == 0 then []
    else
      var leaf := Nth(lists, n - 1);
      NonZero(env, o, lists, n - 1) + (if IsNonZero(env, Cell(o, leaf)) then [leaf] else [])
  }

  ghost predicate KindRight(env: Env, t: Trace)
    requires EnvOk(env) && t.cell.cube < |env.entries|
  {
    var entry := env.entries[t.cell.cube];
    match FirstMatch(RulesOf(entry), entry.cube.dims, t.cell.coord)
    case Some(i) => t.kind == ByRule(i)
    case None => t.kind == (if AllLeaf(entry.cube.dims, t.cell.coord) then StoredLeaf else Rollup(|t.inputs|))
  }

  /** A rule lists the cells it consulted; a rollup its first 64 non-zero leaves, and whether
      there are more. */
  ghost predicate InputsRight(env: Env, t: Trace)
    requires EnvOk(env) && t.cell.cube < |env.entries| && KindRight(env, t)
  {
    EntryParts(env, t.cell.cube);
    var o, entry := t.cell.cube, env.entries[t.cell.cube];
    match t.kind
    case ByRule(i) =>
      MatchedInRange(env, o, t.cell.coord);
      !t.truncated
      && var cells := Consulted(Under(env, {}), env.entries, o, t.cell.coord, RulesOf(entry)[i].expr);
         cells.Ok? && ListsCells(cells.value, t.cell.coord, t.inputs)
    case StoredLeaf => !t.truncated && t.inputs == []
    case Rollup(_) =>
      InRange(entry.cube.dims, t.cell.coord)
      && ListsLeaves(env, o, LeafLists(entry.cube.dims, t.cell.coord), t.inputs, t.truncated)
  }

  ghost predicate ListsCells(cells: seq<CellRef>, target: Coord, inputs: seq<Trace>) {
    && |inputs| == |cells|
    && forall k :: 0 <= k < |cells| ==>
         RefInTarget(cells[k], target) && inputs[k].cell == Cell(cells[k].cube, Resolve(cells[k], target))
  }

  ghost predicate ListsLeaves(env: Env, o: nat, lists: seq<seq<nat>>, inputs: seq<Trace>, truncated: bool)
    requires EnvOk(env)
  {
    var all := NonZero(env, o, lists, Size(Lens(lists)));
    && (truncated <==> |all| > MAX_EXPLAIN_INPUTS)
    && |inputs| == (if truncated then MAX_EXPLAIN_INPUTS else |all|)
    && forall k :: 0 <= k < |inputs| ==> inputs[k].cell == Cell(o, all[k])
  }

  /** Every node tells the value the evaluator gives its cell, where it comes from and, while
      levels remain, what it rests on. */
  ghost predicate Faithful(env: Env, t: Trace, levels: nat)
    requires EnvOk(env)
    decreases levels
  {
    && t.cell.cube < |env.entries| && Eval(env, {}, t.cell) == Ok(t.value) && KindRight(env, t)
    && (levels <= 1 ==> t.inputs == [] && !t.truncated)
    && (levels > 1 ==> InputsRight(env, t) && forall x :: x in t.inputs ==> Faithful(env, x, levels - 1))
  }

  // ---------------------------------------------------------------- when there is a trace

  /** Explain succeeds exactly here: the cell has a value, and so has everything it looks at. */
  ghost predicate Explainable(env: Env, c: Cell, levels: nat)
    requires EnvOk(env)
    decreases levels, 1
  {
    && c.cube < |env.entries| && Eval(env, {}, c).Ok?
    && (levels > 1 ==> InputsExplainable(env, c, levels))
  }

  ghost predicate InputsExplainable(env: Env, c: Cell, levels: nat)
    requires EnvOk(env) && c.cube < |env.entries| && levels > 1
    decreases levels, 0
  {
    EntryParts(env, c.cube);
    var entry := env.entries[c.cube];
    match FirstMatch(RulesOf(entry), entry.cube.dims, c.coord)
    case Some(i) =>
      MatchedInRange(env, c.cube, c.coord);
      var cells := Consulted(Under(env, {}), env.entries, c.cube, c.coord, RulesOf(entry)[i].expr);
      cells.Ok? && CellsExplainable(env, cells.value, c.coord, levels - 1)
    case None =>
      AllLeaf(entry.cube.dims, c.coord)
      || (InRange(entry.cube.dims, c.coord)
          && LeavesExplainable(env, c.cube, LeafLists(entry.cube.dims, c.coord), levels - 1))
  }

  ghost predicate LeavesExplainable(env: Env, o: nat, lists: seq<seq<nat>>, levels: nat)
    requires EnvOk(env)
    decreases levels, 3
  {
    forall m :: 0 <= m < Size(Lens(lists)) ==> LeafExplainable(env, o, lists, m, levels)
  }

  ghost predicate CellsExplainable(env: Env, cells: seq<CellRef>, target: Coord, levels: nat)
    requires EnvOk(env)
    decreases levels, 2
  {
    forall cell :: cell in cells ==>
      RefInTarget(cell, target) && Explainable(env, Cell(cell.cube, Resolve(cell, target)), levels)
  }

  /** The walk reads leaf `m` unless it has stopped, and expands it while there is room. */
  ghost predicate LeafExplainable(env: Env, o: nat, lists: seq<seq<nat>>, m: nat, levels: nat)
    requires EnvOk(env) && m < Size(Lens(lists))
    decreases levels, 2
  {
    var leaf, before := Cell(o, Nth(lists, m)), |NonZero(env, o, lists, m)|;
    && (before <= MAX_EXPLAIN_INPUTS ==> Eval(env, {}, leaf).Ok?)
    && (before < MAX_EXPLAIN_INPUTS && IsNonZero(env, leaf) ==> Explainable(env, leaf, levels))
  }

  // ---------------------------------------------------------------- the walk that builds a trace

  lemma NothingAbove(env: Env, log: seq<Cell>)
    requires EnvOk(env)
    ensures AllGenuine(env, {}, log)
  {
    hide EnvOk;
  }

  /** Explain a cell down to `levels`: a trace exactly when there is one to give. */
  method ExplainNode(engine: CalcEngine, env: Env, c: Cell, levels: nat) returns (r: Result<Trace>)
    requires EnvOk(env) && engine.env == env && MemoOk(env, engine.memo, {})
    modifies engine`memo
    ensures MemoOk(env, engine.memo, {})
    ensures r.Ok? <==> Explainable(env, c, levels)
    ensures r.Ok? ==> r.value.cell == c && Faithful(env, r.value, levels)
    decreases levels, 1
  {
    hide EnvOk, MemoOk, Eval, Under, CellsExplainable, LeavesExplainable, ListsCells, ListsLeaves, Consulted, ExprOk,
      RunExpr, FirstMatch, AllLeaf, Grew, Remembers;
    if c.cube >= |env.entries| {
      return Err(UnknownCube(c.cube));
    }
    var v := engine.Value(c, {});
    if v.Err? {
      return Err(v.error);
    }
    EntryParts(env, c.cube);
    var entry := env.entries[c.cube];
    match FirstMatch(RulesOf(entry), entry.cube.dims, c.coord) {
      case Some(i) =>
        var inputs: seq<Trace> := [];
        if levels > 1 {
          MatchedInRange(env, c.cube, c.coord);
          var e := RulesOf(entry)[i].expr;
          var cells := CollectConsulted(engine, env, c, e, []);
          if cells.Err? {
            return Err(cells.error);
          }
          ghost var consulted := Consulted(Under(env, {}), env.entries, c.cube, c.coord, e).value;
          assert [] + consulted == consulted;
          ConsultedOk(Under(env, {}), env.entries, c.cube, c.coord, e);
          var traced := ExplainCells(engine, env, cells.value, c.coord, levels - 1);
          if traced.Err? {
            return Err(traced.error);
          }
          inputs := traced.value;
        }
        r := Ok(Trace(c, v.value, ByRule(i), inputs, false));
      case None =>
        if AllLeaf(entry.cube.dims, c.coord) {
          return Ok(Trace(c, v.value, StoredLeaf, [], false));
        }
        var inputs: seq<Trace>, truncated := [], false;
        if levels > 1 {
          RollupInRange(env, c);
          var traced := ExplainLeaves(engine, env, c.cube, LeafLists(entry.cube.dims, c.coord), levels - 1);
          if traced.Err? {
            return Err(traced.error);
          }
          inputs, truncated := traced.value.0, traced.value.1;
        }
        r := Ok(Trace(c, v.value, Rollup(|inputs|), inputs, truncated));
    }
  }

  /** A rollup that has a value stands at a coordinate of its cube. */
  lemma RollupInRange(env: Env, c: Cell)
    requires EnvOk(env) && c.cube < |env.entries| && Eval(env, {}, c).Ok?
    requires FirstMatch(RulesOf(env.entries[c.cube]), env.entries[c.cube].cube.dims, c.coord).None?
    requires !AllLeaf(env.entries[c.cube].cube.dims, c.coord)
    ensures InRange(env.entries[c.cube].cube.dims, c.coord)
  {
    hide RunSum, DenseItems, SparseItems, CheckedProduct, FirstMatch;
    EvalUnfold(env, {}, c);
  }

  /** The consulted cells of a formula, appended in source order; the branch is the one the
      engine takes. */
  method CollectConsulted(engine: CalcEngine, env: Env, c: Cell, e: Expr, out: seq<CellRef>)
    returns (r: Result<seq<CellRef>>)
    requires EnvOk(env) && engine.env == env && MemoOk(env, engine.memo, {})
    requires c in Universe(env) && ExprOk(e, c.cube, env.entries)
    modifies engine`memo
    ensures MemoOk(env, engine.memo, {})
    ensures match Consulted(Under(env, {}), env.entries, c.cube, c.coord, e)
            case Ok(cells) => r == Ok(out + cells)
            case Err(err) => r == Err(err)
    decreases e
  {
    hide EnvOk, MemoOk, Eval, Under, RunCond, RunExpr, Universe, Grew, Remembers;
    match e {
      case Read(cell) => r := Ok(out + [cell]);
      case Neg(a) => r := CollectConsulted(engine, env, c, a, out);
      case Bin(_, a, b) =>
        ghost var ca := Consulted(Under(env, {}), env.entries, c.cube, c.coord, a);
        ghost var cb := Consulted(Under(env, {}), env.entries, c.cube, c.coord, b);
        r := CollectConsulted(engine, env, c, a, out);
        if r.Ok? {
          assert cb.Ok? ==> out + ca.value + cb.value == out + (ca.value + cb.value);
          r := CollectConsulted(engine, env, c, b, r.value);
        }
      case If(k, x, o) =>
        NothingAbove(env, RunCond(Under(env, {}), env.entries, c.cube, c.coord, k).log);
        var taken := engine.EvalCond(k, c, {});
        if taken.Err? {
          return Err(taken.error);
        }
        ghost var rest := if taken.value || o.None? then x else o.value;
        ghost var cr := Consulted(Under(env, {}), env.entries, c.cube, c.coord, rest);
        assert cr.Ok? ==> out + CondCells(k) + cr.value == out + (CondCells(k) + cr.value);
        if taken.value {
          r := CollectConsulted(engine, env, c, x, out + CondCells(k));
        } else if o.Some? {
          r := CollectConsulted(engine, env, c, o.value, out + CondCells(k));
        } else {
          r := Ok(out + CondCells(k));
        }
      case _ =>
        assert out + [] == out;
        r := Ok(out);
    }
  }

  method ExplainCells(engine: CalcEngine, env: Env, cells: seq<CellRef>, target: Coord, levels: nat)
    returns (r: Result<seq<Trace>>)
    requires EnvOk(env) && engine.env == env && MemoOk(env, engine.memo, {})
    requires forall cell :: cell in cells ==> RefInTarget(cell, target)
    modifies engine`memo
    ensures MemoOk(env, engine.memo, {})
    ensures r.Ok? <==> CellsExplainable(env, cells, target, levels)
    ensures r.Ok? ==> ListsCells(cells, target, r.value) && forall x :: x in r.value ==> Faithful(env, x, levels)
    decreases levels, 2
  {
    hide EnvOk, MemoOk, Eval, Explainable, Faithful;
    var inputs: seq<Trace> := [];
    for k := 0 to |cells|
      invariant MemoOk(env, engine.memo, {})
      invariant |inputs| == k && forall x :: x in inputs ==> Faithful(env, x, levels)
      invariant forall j :: 0 <= j < k ==> inputs[j].cell == Cell(cells[j].cube, Resolve(cells[j], target))
      invariant forall j :: 0 <= j < k ==> Explainable(env, Cell(cells[j].cube, Resolve(cells[j], target)), levels)
    {
      assert cells[k] in cells;
      var t := ExplainNode(engine, env, Cell(cells[k].cube, Resolve(cells[k], target)), levels);
      if t.Err? {
        return Err(t.error);
      }
      inputs := inputs + [t.value];
    }
    r := Ok(inputs);
  }

  /** A rollup's leaves in lexicographic order, until 64 are listed and one more is found. */
  method ExplainLeaves(engine: CalcEngine, env: Env, o: nat, lists: seq<seq<nat>>, levels: nat)
    returns (r: Result<(seq<Trace>, bool)>)
    requires EnvOk(env) && engine.env == env && MemoOk(env, engine.memo, {})
    modifies engine`memo
    ensures MemoOk(env, engine.memo, {})
    ensures r.Ok? <==> LeavesExplainable(env, o, lists, levels)
    ensures r.Ok? ==> ListsLeaves(env, o, lists, r.value.0, r.value.1)
    ensures r.Ok? ==> forall x :: x in r.value.0 ==> Faithful(env, x, levels)
    decreases levels, 2
  {
    hide EnvOk, MemoOk, Eval, Explainable, Faithful, Nth, Size, NonZero, LeafExplainable, IsNonZero, ListedSoFar,
      ListsLeaves, Grew, Remembers, InBox, Reading;
    var inputs: seq<Trace> := [];
    var walk := new CoordWalk(lists);
    var more, leaf := walk.NextCoord();
    ghost var n: nat := 0;
    NonZeroNone(env, o, lists);
    NoneListed(env, o, levels);
    while more
      invariant walk.Valid() && walk.lists == lists && fresh(walk)
      invariant n <= Size(Lens(lists))
      invariant more ==> n < Size(Lens(lists)) && leaf == Nth(lists, n) && walk.Emitted() == n + 1
      invariant !more ==> n == Size(Lens(lists))
      invariant MemoOk(env, engine.memo, {})
      invariant forall m :: 0 <= m < n ==> LeafExplainable(env, o, lists, m, levels)
      invariant ListedSoFar(env, o, NonZero(env, o, lists, n), inputs, levels)
      decreases Size(Lens(lists)) - n
    {
      HowManyListed(env, o, NonZero(env, o, lists, n), inputs, levels);
      LeafStep(env, o, lists, n, levels);
      var v := engine.Value(Cell(o, leaf), {});
      if v.Err? {
        return Err(v.error);
      }
      if v.value != 0 {
        if |inputs| == MAX_EXPLAIN_INPUTS {
          AllPastTheCap(env, o, lists, n + 1, levels);
          StoppedAtCap(env, o, lists, NonZero(env, o, lists, n), inputs, levels);
          return Ok((inputs, true));
        }
        var t := ExplainNode(engine, env, Cell(o, leaf), levels);
        if t.Err? {
          return Err(t.error);
        }
        OneMoreListed(env, o, NonZero(env, o, lists, n), inputs, levels, leaf, t.value);
        inputs := inputs + [t.value];
      }
      n := n + 1;
      more, leaf := walk.NextCoord();
    }
    HowManyListed(env, o, NonZero(env, o, lists, n), inputs, levels);
    CameToTheEnd(env, o, lists, inputs, levels);
    r := Ok((inputs, false));
  }

  /** One trace for each of the leaves, none past the cap. */
  ghost predicate ListedSoFar(env: Env, o: nat, leaves: seq<Coord>, inputs: seq<Trace>, levels: nat)
    requires EnvOk(env)
  {
    && |inputs| == |leaves| <= MAX_EXPLAIN_INPUTS
    && (forall k :: 0 <= k < |inputs| ==> inputs[k].cell == Cell(o, leaves[k]))
    && (forall x :: x in inputs ==> Faithful(env, x, levels))
  }

  lemma OneMoreListed(env: Env, o: nat, leaves: seq<Coord>, inputs: seq<Trace>, levels: nat, leaf: Coord, t: Trace)
    requires EnvOk(env) && ListedSoFar(env, o, leaves, inputs, levels) && |leaves| < MAX_EXPLAIN_INPUTS
    requires t.cell == Cell(o, leaf) && Faithful(env, t, levels)
    ensures ListedSoFar(env, o, leaves + [leaf], inputs + [t], levels)
  {
    hide EnvOk, Faithful;
  }

  lemma NoneListed(env: Env, o: nat, levels: nat)
    requires EnvOk(env)
    ensures ListedSoFar(env, o, [], [], levels)
  {}

  lemma HowManyListed(env: Env, o: nat, leaves: seq<Coord>, inputs: seq<Trace>, levels: nat)
    requires EnvOk(env) && ListedSoFar(env, o, leaves, inputs, levels)
    ensures |inputs| == |leaves| <= MAX_EXPLAIN_INPUTS && forall x :: x in inputs ==> Faithful(env, x, levels)
  {
    hide EnvOk, Faithful;
  }

  lemma CameToTheEnd(env: Env, o: nat, lists: seq<seq<nat>>, inputs: seq<Trace>, levels: nat)
    requires EnvOk(env) && ListedSoFar(env, o, NonZero(env, o, lists, Size(Lens(lists))), inputs, levels)
    ensures ListsLeaves(env, o, lists, inputs, false)
  {
    hide EnvOk, Faithful, NonZero, Size;
  }

  lemma StoppedAtCap(env: Env, o: nat, lists: seq<seq<nat>>, leaves: seq<Coord>, inputs: seq<Trace>, levels: nat)
    requires EnvOk(env) && ListedSoFar(env, o, leaves, inputs, levels) && |leaves| == MAX_EXPLAIN_INPUTS
    requires var all := NonZero(env, o, lists, Size(Lens(lists))); leaves <= all && |leaves| < |all|
    ensures ListsLeaves(env, o, lists, inputs, true)
  {
    hide EnvOk, Faithful, NonZero, Size;
  }

  lemma NonZeroNone(env: Env, o: nat, lists: seq<seq<nat>>)
    requires EnvOk(env)
    ensures NonZero(env, o, lists, 0) == []
  {}

  lemma LeafStep(env: Env, o: nat, lists: seq<seq<nat>>, n: nat, levels: nat)
    requires EnvOk(env) && n < Size(Lens(lists)) && |NonZero(env, o, lists, n)| <= MAX_EXPLAIN_INPUTS
    ensures var leaf, before := Cell(o, Nth(lists, n)), NonZero(env, o, lists, n);
            && (Eval(env, {}, leaf).Err? ==> !LeafExplainable(env, o, lists, n, levels))
            && (Eval(env, {}, leaf) == Ok(0) ==>
                 LeafExplainable(env, o, lists, n, levels) && NonZero(env, o, lists, n + 1) == before)
            && (Eval(env, {}, leaf).Ok? && Eval(env, {}, leaf) != Ok(0) ==>
                 NonZero(env, o, lists, n + 1) == before + [leaf.coord]
                 && (LeafExplainable(env, o, lists, n, levels) <==>
                       |before| == MAX_EXPLAIN_INPUTS || Explainable(env, leaf, levels)))
  {
    hide EnvOk, Eval, Explainable, Nth;
  }

  lemma PastTheCap(env: Env, o: nat, lists: seq<seq<nat>>, m: nat, levels: nat)
    requires EnvOk(env) && m < Size(Lens(lists)) && |NonZero(env, o, lists, m)| > MAX_EXPLAIN_INPUTS
    ensures LeafExplainable(env, o, lists, m, levels)
  {
    hide EnvOk, Eval, Explainable;
  }

  /** Once one leaf too many is found, the rest is not looked at. */
  lemma AllPastTheCap(env: Env, o: nat, lists: seq<seq<nat>>, n: nat, levels: nat)
    requires EnvOk(env) && n <= Size(Lens(lists)) && |NonZero(env, o, lists, n)| > MAX_EXPLAIN_INPUTS
    ensures NonZero(env, o, lists, n) <= NonZero(env, o, lists, Size(Lens(lists)))
    ensures forall m :: n <= m < Size(Lens(lists)) ==> LeafExplainable(env, o, lists, m, levels)
  {
    hide EnvOk, NonZero, LeafExplainable, Size;
    NonZeroPrefix(env, o, lists, n, Size(Lens(lists)));
    forall m | n <= m < Size(Lens(lists))
      ensures LeafExplainable(env, o, lists, m, levels)
    {
      NonZeroPrefix(env, o, lists, n, m);
      PastTheCap(env, o, lists, m, levels);
    }
  }

  lemma {:induction false} NonZeroPrefix(env: Env, o: nat, lists: seq<seq<nat>>, n: nat, m: nat)
    requires EnvOk(env) && n <= m <= Size(Lens(lists))
    ensures NonZero(env, o, lists, n) <= NonZero(env, o, lists, m)
    decreases m
  {
    hide EnvOk, IsNonZero, Nth, Size;
    if n < m {
      NonZeroPrefix(env, o, lists, n, m - 1);
    }
  }

  // ---------------------------------------------------------------- explain agrees with evaluation

  /** Explain lists `x` for the rule that fires at `c`, in a part the evaluator of `c` does not come to. */
  ghost predicate SkippedBy(env: Env, c: Cell, x: Cell)
    requires EnvOk(env)
  {
    c.cube < |env.entries|
    && (EntryParts(env, c.cube);
        var entry := env.entries[c.cube];
        var m := FirstMatch(RulesOf(entry), entry.cube.dims, c.coord);
        m.Some?
        && (MatchedInRange(env, c.cube, c.coord);
            Lists(Skipped(Under(env, {}), env.entries, c.cube, c.coord, RulesOf(entry)[m.value].expr), c.coord, x)))
  }

  /** A rule's evaluation reads `x`, or `x` is among the first 64 non-zero leaves of a rollup. */
  ghost predicate ReadBy(env: Env, c: Cell, x: Cell)
    requires EnvOk(env)
  {
    c.cube < |env.entries|
    && (EntryParts(env, c.cube);
        var entry := env.entries[c.cube];
        var m := FirstMatch(RulesOf(entry), entry.cube.dims, c.coord);
        if m.Some? then
          (MatchedInRange(env, c.cube, c.coord);
           x in RunExpr(Under(env, {}), env.entries, c.cube, c.coord, RulesOf(entry)[m.value].expr).log)
        else
          !AllLeaf(entry.cube.dims, c.coord) && InRange(entry.cube.dims, c.coord)
          && x.cube == c.cube && exists n :: ListedLeaf(env, c.cube, LeafLists(entry.cube.dims, c.coord), n, x.coord))
  }

  ghost predicate ListedLeaf(env: Env, o: nat, lists: seq<seq<nat>>, n: nat, leaf: Coord)
    requires EnvOk(env)
  {
    && n < Size(Lens(lists)) && Nth(lists, n) == leaf
    && |NonZero(env, o, lists, n)| < MAX_EXPLAIN_INPUTS && IsNonZero(env, Cell(o, leaf))
  }

  /** The path follows inputs, one a step, and ends at a cell that was skipped and has no value. */
  ghost predicate Stops(env: Env, path: seq<Cell>)
    requires EnvOk(env)
    decreases |path|
  {
    && |path| > 1
    && (|path| == 2 ==> SkippedBy(env, path[0], path[1]) && Eval(env, {}, path[1]).Err?)
    && (|path| > 2 ==> (ReadBy(env, path[0], path[1]) || SkippedBy(env, path[0], path[1])) && Stops(env, path[1..]))
  }

  ghost predicate StopsWithin(env: Env, c: Cell, levels: nat)
    requires EnvOk(env)
  {
    exists path :: 0 < |path| <= levels && path[0] == c && Stops(env, path)
  }

  /** There is a trace exactly when the cell has a value and no cell skipped within the levels
      asked for fails: what the evaluator did read never stands in the way. */
  lemma ExplainableIffNoneSkippedFails(env: Env, c: Cell, levels: nat)
    requires EnvOk(env) && EnvOk(Dense(env)) && Licensed(env)
    ensures Explainable(env, c, levels) <==> Eval(env, {}, c).Ok? && !StopsWithin(env, c, levels)
  {
    hide EnvOk, Licensed, Eval, Stops;
    if Eval(env, {}, c).Ok? {
      ValueHasCube(env, c);
      if !Explainable(env, c, levels) {
        var path := StoppingPath(env, c, levels);
      }
      if StopsWithin(env, c, levels) {
        var path :| 0 < |path| <= levels && path[0] == c && Stops(env, path);
        StoppedIsNot(env, path, levels);
      }
    }
  }

  lemma ValueHasCube(env: Env, c: Cell)
    requires EnvOk(env) && Eval(env, {}, c).Ok?
    ensures c.cube < |env.entries|
  {
    hide EnvOk;
    EvalUnfold(env, {}, c);
  }

  lemma {:induction false} StoppedIsNot(env: Env, path: seq<Cell>, levels: nat)
    requires EnvOk(env) && Stops(env, path) && |path| <= levels
    ensures !Explainable(env, path[0], levels)
    decreases |path|
  {
    hide EnvOk, Eval, Explainable, ReadBy, SkippedBy;
    if |path| == 2 {
      FailedIsNot(env, path[1], levels - 1);
    } else {
      StoppedIsNot(env, path[1..], levels - 1);
    }
    InputIsExplainable(env, path[0], path[1], levels);
  }

  lemma FailedIsNot(env: Env, c: Cell, levels: nat)
    requires EnvOk(env) && Eval(env, {}, c).Err?
    ensures !Explainable(env, c, levels)
  {
    hide EnvOk, Eval;
  }


  /** Explain looks at every input, read or skipped. */
  lemma InputIsExplainable(env: Env, c: Cell, x: Cell, levels: nat)
    requires EnvOk(env) && levels > 1 && (ReadBy(env, c, x) || SkippedBy(env, c, x))
    ensures Explainable(env, c, levels) ==> Explainable(env, x, levels - 1)
  {
    hide EnvOk, Eval, Consulted, RunExpr, Skipped, ExprOk, FirstMatch, Under, Splits, LeafExplainable, ListedLeaf,
      AllLeaf;
    EntryParts(env, c.cube);
    var entry := env.entries[c.cube];
    var m := FirstMatch(RulesOf(entry), entry.cube.dims, c.coord);
    if Explainable(env, c, levels) {
      if m.Some? {
        MatchedInRange(env, c.cube, c.coord);
        RuleLists(env, c, x);
        var listed := Consulted(Under(env, {}), env.entries, c.cube, c.coord, RulesOf(entry)[m.value].expr);
        assert InputsExplainable(env, c, levels);
        assert CellsExplainable(env, listed.value, c.coord, levels - 1);
      } else {
        var lists := LeafLists(entry.cube.dims, c.coord);
        assert InputsExplainable(env, c, levels);
        assert LeavesExplainable(env, c.cube, lists, levels - 1);
        var n :| ListedLeaf(env, c.cube, lists, n, x.coord);
        ListedIsLooked(env, c.cube, lists, n, x.coord, levels - 1);
      }
    }
  }

  lemma ListedIsLooked(env: Env, o: nat, lists: seq<seq<nat>>, n: nat, leaf: Coord, levels: nat)
    requires EnvOk(env) && ListedLeaf(env, o, lists, n, leaf) && LeavesExplainable(env, o, lists, levels)
    ensures Explainable(env, Cell(o, leaf), levels)
  {
    hide EnvOk, Eval, Explainable, Nth;
    assert LeafExplainable(env, o, lists, n, levels);
  }

  /** The rule that fires at a cell with a value runs, on values from nothing, to a value; what it
      reads has values, and what explain lists is that and what it skips. */
  lemma RuleAtTop(env: Env, c: Cell)
    requires EnvOk(env) && c.cube < |env.entries| && Eval(env, {}, c).Ok?
    requires FirstMatch(RulesOf(env.entries[c.cube]), env.entries[c.cube].cube.dims, c.coord).Some?
    requires EntryOk(env.entries, c.cube) && InRange(env.entries[c.cube].cube.dims, c.coord)
    ensures var entry, top := env.entries[c.cube], Under(env, {});
            var e := RulesOf(entry)[FirstMatch(RulesOf(entry), entry.cube.dims, c.coord).value].expr;
            && ExprOk(e, c.cube, env.entries)
            && Consulted(top, env.entries, c.cube, c.coord, e).Ok?
            && (var log := RunExpr(top, env.entries, c.cube, c.coord, e).log;
                (forall x :: x in log ==> Eval(env, {}, x).Ok?)
                && Splits(Consulted(top, env.entries, c.cube, c.coord, e).value,
                          Skipped(top, env.entries, c.cube, c.coord, e), c.coord, log))
  {
    hide EnvOk, Eval, Consulted, RunExpr, Skipped, Splits, ExprOk, FirstMatch, Under, Compute;
    var o, entry := c.cube, env.entries[c.cube];
    var i := FirstMatch(RulesOf(entry), entry.cube.dims, c.coord).value;
    var e := RulesOf(entry)[i].expr;
    var first := {} + {c};
    var now, top := Under(env, first), Under(env, {});
    EvalUnfold(env, {}, c);
    RuleRun(env, now, c);
    ExprErrors(now, env.entries, o, c.coord, e);
    forall x | x in RunExpr(now, env.entries, o, c.coord, e).log
      ensures now(x) == top(x)
    {
      UnderIs(env, first, x);
      UnderIs(env, {}, x);
      SameValue(env, first, x);
    }
    ExprExt(now, top, env.entries, o, c.coord, e);
    ConsultedSplits(top, env.entries, o, c.coord, e);
    ExprErrors(top, env.entries, o, c.coord, e);
    forall x | x in RunExpr(top, env.entries, o, c.coord, e).log
      ensures Eval(env, {}, x).Ok?
    {
      UnderIs(env, {}, x);
    }
  }

  /** Why a cell with a value has no trace: a path to a skipped cell that fails. */
  lemma {:induction false} StoppingPath(env: Env, c: Cell, levels: nat) returns (path: seq<Cell>)
    requires EnvOk(env) && EnvOk(Dense(env)) && Licensed(env)
    requires c.cube < |env.entries| && Eval(env, {}, c).Ok? && !Explainable(env, c, levels)
    ensures 0 < |path| <= levels && path[0] == c && Stops(env, path)
    decreases levels
  {
    hide EnvOk, Eval, Licensed, ReadBy, SkippedBy, Explainable, Stops;
    var x := Obstacle(env, c, levels);
    if Eval(env, {}, x).Err? {
      path := [c, x];
      StopsHere(env, c, x);
    } else {
      ValueHasCube(env, x);
      var rest := StoppingPath(env, x, levels - 1);
      path := [c] + rest;
      StopsLater(env, c, rest);
    }
  }

  lemma StopsHere(env: Env, c: Cell, x: Cell)
    requires EnvOk(env) && SkippedBy(env, c, x) && Eval(env, {}, x).Err?
    ensures Stops(env, [c, x])
  {
    hide EnvOk, Eval, SkippedBy;
  }

  lemma StopsLater(env: Env, c: Cell, rest: seq<Cell>)
    requires EnvOk(env) && Stops(env, rest) && (ReadBy(env, c, rest[0]) || SkippedBy(env, c, rest[0]))
    ensures Stops(env, [c] + rest)
  {
    hide EnvOk, Eval, SkippedBy, ReadBy;
    assert ([c] + rest)[1..] == rest;
  }

  /** An input that cannot be explained: one that fails is one the evaluator skipped. */
  lemma Obstacle(env: Env, c: Cell, levels: nat) returns (x: Cell)
    requires EnvOk(env) && EnvOk(Dense(env)) && Licensed(env)
    requires c.cube < |env.entries| && Eval(env, {}, c).Ok? && !Explainable(env, c, levels)
    ensures levels > 1 && !Explainable(env, x, levels - 1)
    ensures SkippedBy(env, c, x) || (ReadBy(env, c, x) && Eval(env, {}, x).Ok?)
  {
    hide EnvOk, Eval, Licensed, Consulted, RunExpr, Skipped, Splits, LeafExplainable, Size, AllLeaf, ExprOk, FirstMatch,
      Under, ReadBy, SkippedBy, Lists;
    assert levels > 1 by { NoLevels(env, c, levels); }
    EntryParts(env, c.cube);
    var entry := env.entries[c.cube];
    var m := FirstMatch(RulesOf(entry), entry.cube.dims, c.coord);
    if m.Some? {
      MatchedInRange(env, c.cube, c.coord);
      x := RuleObstacle(env, c, levels);
    } else {
      RollupInRange(env, c);
      assert !AllLeaf(entry.cube.dims, c.coord);
      x := LeafObstacle(env, c, levels);
    }
  }

  lemma NoLevels(env: Env, c: Cell, levels: nat)
    requires EnvOk(env) && c.cube < |env.entries| && Eval(env, {}, c).Ok? && !Explainable(env, c, levels)
    ensures levels > 1 && !InputsExplainable(env, c, levels)
  {
    hide EnvOk, Eval;
  }

  lemma RuleObstacle(env: Env, c: Cell, levels: nat) returns (x: Cell)
    requires EnvOk(env) && c.cube < |env.entries| && Eval(env, {}, c).Ok? && levels > 1
               && !InputsExplainable(env, c, levels)
    requires FirstMatch(RulesOf(env.entries[c.cube]), env.entries[c.cube].cube.dims, c.coord).Some?
    ensures !Explainable(env, x, levels - 1)
    ensures SkippedBy(env, c, x) || (ReadBy(env, c, x) && Eval(env, {}, x).Ok?)
  {
    hide EnvOk, Eval, Consulted, RunExpr, Skipped, ExprOk, FirstMatch, Under, Explainable;
    EntryParts(env, c.cube);
    MatchedInRange(env, c.cube, c.coord);
    RuleAtTop(env, c);
    var entry, top := env.entries[c.cube], Under(env, {});
    var e := RulesOf(entry)[FirstMatch(RulesOf(entry), entry.cube.dims, c.coord).value].expr;
    ConsultedOk(top, env.entries, c.cube, c.coord, e);
    var cells := Consulted(top, env.entries, c.cube, c.coord, e).value;
    var cell :| cell in cells && !Explainable(env, Cell(cell.cube, Resolve(cell, c.coord)), levels - 1);
    x := Cell(cell.cube, Resolve(cell, c.coord));
    assert Lists(cells, c.coord, x);
  }

  lemma RuleLists(env: Env, c: Cell, x: Cell)
    requires EnvOk(env) && c.cube < |env.entries| && Eval(env, {}, c).Ok? && (ReadBy(env, c, x) || SkippedBy(env, c, x))
    requires FirstMatch(RulesOf(env.entries[c.cube]), env.entries[c.cube].cube.dims, c.coord).Some?
    requires EntryOk(env.entries, c.cube) && InRange(env.entries[c.cube].cube.dims, c.coord)
    ensures var entry := env.entries[c.cube];
            var e := RulesOf(entry)[FirstMatch(RulesOf(entry), entry.cube.dims, c.coord).value].expr;
            && ExprOk(e, c.cube, env.entries)
            && Consulted(Under(env, {}), env.entries, c.cube, c.coord, e).Ok?
            && Lists(Consulted(Under(env, {}), env.entries, c.cube, c.coord, e).value, c.coord, x)
  {
    hide EnvOk, Eval, Consulted, RunExpr, Skipped, ExprOk, FirstMatch, Under, Lists;
    RuleAtTop(env, c);
  }

  lemma LeafObstacle(env: Env, c: Cell, levels: nat) returns (x: Cell)
    requires EnvOk(env) && EnvOk(Dense(env)) && Licensed(env) && c.cube < |env.entries| && Eval(env, {}, c).Ok?
    requires levels > 1 && !InputsExplainable(env, c, levels)
    requires FirstMatch(RulesOf(env.entries[c.cube]), env.entries[c.cube].cube.dims, c.coord).None?
    ensures !Explainable(env, x, levels - 1) && ReadBy(env, c, x) && Eval(env, {}, x).Ok?
  {
    hide EnvOk, Eval, Licensed, LeafExplainable, Size, AllLeaf, FirstMatch, Explainable, ListedLeaf, Nth, Under,
      RunExpr;
    EntryParts(env, c.cube);
    var dims := env.entries[c.cube].cube.dims;
    assert !AllLeaf(dims, c.coord);
    RollupInRange(env, c);
    var lists := LeafLists(dims, c.coord);
    var n: nat :| n < Size(Lens(lists)) && !LeafExplainable(env, c.cube, lists, n, levels - 1);
    RolledLeafHasValue(env, c, n);
    x := Cell(c.cube, Nth(lists, n));
    UnlookedLeaf(env, c.cube, lists, n, levels - 1);
  }

  lemma UnlookedLeaf(env: Env, o: nat, lists: seq<seq<nat>>, n: nat, levels: nat)
    requires EnvOk(env) && n < Size(Lens(lists)) && Eval(env, {}, Cell(o, Nth(lists, n))).Ok?
    requires !LeafExplainable(env, o, lists, n, levels)
    ensures ListedLeaf(env, o, lists, n, Nth(lists, n)) && !Explainable(env, Cell(o, Nth(lists, n)), levels)
  {
    hide EnvOk, Eval, Explainable, Nth;
  }

  /** Explain a cell with an engine of its own, as a request does. */
  method Explain(env: Env, c: Cell, levels: nat) returns (r: Result<Trace>)
    requires EnvOk(env) && EnvOk(Dense(env)) && Licensed(env)
    ensures r.Ok? <==> Eval(env, {}, c).Ok? && !StopsWithin(env, c, levels)
    ensures r.Ok? ==> r.value.cell == c && Faithful(env, r.value, levels)
  {
    hide EnvOk, MemoOk, Eval, Licensed, Explainable, Faithful, StopsWithin;
    NoMemo(env);
    var engine := new CalcEngine(env, map[]);
    r := ExplainNode(engine, env, c, levels);
    ExplainableIffNoneSkippedFails(env, c, levels);
  }

  /** The path follows inputs from `c`. */
  ghost predicate Leads(env: Env, c: Cell, path: seq<Cell>)
    requires EnvOk(env)
    decreases |path|
  {
    && |path| > 0 && path[0] == c
    && (|path| > 1 ==> (ReadBy(env, c, path[1]) || SkippedBy(env, c, path[1])) && Leads(env, path[1], path[1..]))
  }

  /** No cell reached from `c` in fewer than `levels` steps skips another. */
  ghost predicate NothingSkipped(env: Env, c: Cell, levels: nat)
    requires EnvOk(env)
  {
    forall path :: Leads(env, c, path) && |path| < levels ==> SkipsNothing(env, path[|path| - 1])
  }

  ghost predicate SkipsNothing(env: Env, c: Cell)
    requires EnvOk(env)
  {
    forall x :: !SkippedBy(env, c, x)
  }

  /** A cell with a value can be explained where no rule on the way skips a cell, as none with
      plain conditions does. */
  lemma ValuesAreExplainable(env: Env, c: Cell, levels: nat)
    requires EnvOk(env) && EnvOk(Dense(env)) && Licensed(env)
    requires Eval(env, {}, c).Ok? && NothingSkipped(env, c, levels)
    ensures Explainable(env, c, levels)
  {
    hide EnvOk, Licensed, Eval, Stops, Leads, SkippedBy;
    ExplainableIffNoneSkippedFails(env, c, levels);
    forall path | 0 < |path| <= levels && path[0] == c
      ensures !Stops(env, path)
    {
      if Stops(env, path) { StopLeads(env, path); }
    }
  }

  lemma {:induction false} StopLeads(env: Env, path: seq<Cell>)
    requires EnvOk(env) && Stops(env, path)
    ensures |path| > 1 && SkippedBy(env, path[|path| - 2], path[|path| - 1])
    ensures Leads(env, path[0], path[..|path| - 1])
    decreases |path|
  {
    hide EnvOk, Eval, ReadBy, SkippedBy;
    if |path| > 2 {
      StopLeads(env, path[1..]);
      assert path[..|path| - 1][1..] == path[1..][..|path| - 2];
    }
  }

  lemma PlainRuleSkipsNothing(env: Env, c: Cell)
    requires EnvOk(env) && c.cube < |env.entries|
    requires forall k :: 0 <= k < |RulesOf(env.entries[c.cube])| ==> PlainConds(RulesOf(env.entries[c.cube])[k].expr)
    ensures SkipsNothing(env, c)
  {
    hide EnvOk, FirstMatch, Skipped, PlainConds, ExprOk;
    EntryParts(env, c.cube);
    var entry := env.entries[c.cube];
    var m := FirstMatch(RulesOf(entry), entry.cube.dims, c.coord);
    if m.Some? {
      MatchedInRange(env, c.cube, c.coord);
      PlainSkipsNothing(Under(env, {}), env.entries, c.cube, c.coord, RulesOf(entry)[m.value].expr);
    }
  }

  lemma RuleRun(env: Env, rd: Reader, c: Cell)
    requires EnvOk(env) && c.cube < |env.entries| && Compute(env, rd, c).res.Ok?
    requires FirstMatch(RulesOf(env.entries[c.cube]), env.entries[c.cube].cube.dims, c.coord).Some?
    ensures EntryOk(env.entries, c.cube)
    ensures Compute(env, rd, c) == RunExpr(rd, env.entries, c.cube, c.coord,
              RulesOf(env.entries[c.cube])[FirstMatch(RulesOf(env.entries[c.cube]), env.entries[c.cube].cube.dims,
                                                      c.coord).value].expr)
  {}

  /** Every leaf under a rollup that has a value has one too, read or not. */
  lemma RolledLeafHasValue(env: Env, c: Cell, n: nat)
    requires EnvOk(env) && EnvOk(Dense(env)) && Licensed(env) && c.cube < |env.entries| && Eval(env, {}, c).Ok?
    requires FirstMatch(RulesOf(env.entries[c.cube]), env.entries[c.cube].cube.dims, c.coord).None?
    requires !AllLeaf(env.entries[c.cube].cube.dims, c.coord) && InRange(env.entries[c.cube].cube.dims, c.coord)
    requires (EntryParts(env, c.cube); n < Size(Lens(LeafLists(env.entries[c.cube].cube.dims, c.coord))))
    ensures (EntryParts(env, c.cube);
             Eval(env, {}, Cell(c.cube, Nth(LeafLists(env.entries[c.cube].cube.dims, c.coord), n))).Ok?)
  {
    hide EnvOk, Eval, Licensed, Under, Compute, RunSum, DenseItems, CheckedProduct, FirstMatch, AllLeaf, Nth, Size,
      Dense, InProduct;
    EntryParts(env, c.cube);
    DenseEnv(env);
    var dense, o, dims := Dense(env), c.cube, env.entries[c.cube].cube.dims;
    var lists := LeafLists(dims, c.coord);
    var leaf := Nth(lists, n);
    NthIsExact(lists);
    assert InProduct(lists, leaf);
    SparseIsDense(env, {}, c);
    SparseIsDense(env, {}, Cell(o, leaf));
    EvalUnfold(dense, {}, c);
    var first := {} + {c};
    var rd := Under(dense, first);
    RollupValue(dense, rd, c);
    EntryParts(dense, o);
    var perDim := PerDim(dims, c.coord);
    assert Lens(perDim) == Lens(lists);
    ListedIsItem(dims, c.coord, leaf);
    var item := DenseItemFor(env, o, c.coord, leaf);
    SumConsultsAll(rd, o, DenseItems(perDim));
    SumErrors(rd, o, DenseItems(perDim));
    UnderIs(dense, first, Cell(o, leaf));
    SameValue(dense, first, Cell(o, leaf));
  }

  lemma DenseItemFor(env: Env, o: nat, coord: Coord, leaf: Coord) returns (item: Item)
    requires EnvOk(env) && o < |env.entries| && InRange(env.entries[o].cube.dims, coord)
    requires |leaf| == |env.entries[o].cube.dims|
    requires (EntryParts(env, o); CellWeight(PerDim(env.entries[o].cube.dims, coord), leaf).Some?)
    ensures (EntryParts(env, o); item in DenseItems(PerDim(env.entries[o].cube.dims, coord))) && item.coord == leaf
  {
    hide EnvOk, DenseItems, CellWeight;
    EntryParts(env, o);
    PerDimAscending(env, o, coord);
    var perDim := PerDim(env.entries[o].cube.dims, coord);
    DenseIsExact(perDim);
    item := Item(leaf, CellWeight(perDim, leaf).value);
  }

  /** A coordinate of the listed product carries a weight in the rollup. */
  lemma ListedIsItem(dims: seq<Dimension>, c: Coord, x: Coord)
    requires InRange(dims, c) && forall d :: 0 <= d < |dims| ==> |dims[d].rollup| == |dims[d].elements|
    requires InProduct(LeafLists(dims, c), x)
    ensures |x| == |dims| && CellWeight(PerDim(dims, c), x).Some?
  {
    hide CellWeight;
    forall d | 0 <= d < |dims|
      ensures HasLeaf(PerDim(dims, c)[d], x[d])
    {
      assert x[d] in LeafLists(dims, c)[d];
    }
    ContributesIffWeighs(PerDim(dims, c), x);
  }

  lemma RollupValue(env: Env, rd: Reader, c: Cell)
    requires EnvOk(env) && c.cube < |env.entries| && env.entries[c.cube].fed.None? && Compute(env, rd, c).res.Ok?
    requires FirstMatch(RulesOf(env.entries[c.cube]), env.entries[c.cube].cube.dims, c.coord).None?
    requires !AllLeaf(env.entries[c.cube].cube.dims, c.coord) && InRange(env.entries[c.cube].cube.dims, c.coord)
    ensures (EntryParts(env, c.cube);
             Size(Lens(PerDim(env.entries[c.cube].cube.dims, c.coord))) > 0 ==>
             RunSum(rd, c.cube, DenseItems(PerDim(env.entries[c.cube].cube.dims, c.coord))).res.Ok?)
  {
    hide RunSum, DenseItems, FirstMatch;
    EntryParts(env, c.cube);
  }

  // ---------------------------------------------------------------- where it does not

  /** Two leaves: one is a choice whose condition never gets to the other, which divides by zero. */
  function ShortCircuitEnv(): Env {
    var dim := Dimension("Measure", [Element("Price", Leaf), Element("Ratio", Leaf)], [],
                         [[Contribution(0, 1)], [Contribution(1, 1)]], [], map[]);
    var unlikely := And(Cmp(Num(0), Eq, Num(1)), Cmp(Expr.Read(CellRef(0, [Pinned(1)])), Eq, Num(0)));
    var price := Rule(Area([OneOf([0])], false), If(unlikely, Num(1), Some(Num(2))));
    var ratio := Rule(Area([OneOf([1])], false), Bin(Div, Num(1), Num(0)));
    Env([Entry(Cube("Sales", [dim], map[], []), Compiled([price, ratio]), None)], None, None)
  }

  lemma ShortCircuitDims()
    ensures DimensionOk(ShortCircuitEnv().entries[0].cube.dims[0])
  {
    var dim := ShortCircuitEnv().entries[0].cube.dims[0];
    assert RollupOk(dim, 0) && RollupOk(dim, 1);
  }

  lemma ShortCircuitRulesOk()
    ensures var entries := ShortCircuitEnv().entries;
            forall k :: 0 <= k < 2 ==>
              AreaOk(RulesOf(entries[0])[k].area, entries[0].cube.dims)
                && ExprOk(RulesOf(entries[0])[k].expr, 0, entries)
  {
    var entries := ShortCircuitEnv().entries;
    assert ExprOk(Expr.Read(CellRef(0, [Pinned(1)])), 0, entries);
  }

  lemma ShortCircuitEnvOk()
    ensures EnvOk(ShortCircuitEnv())
  {
    hide DimensionOk, AreaOk, ExprOk;
    ShortCircuitDims();
    ShortCircuitRulesOk();
    var env := ShortCircuitEnv();
    assert CubeOk(env.entries[0].cube) && |RulesOf(env.entries[0])| == 2;
    assert EntryOk(env.entries, 0);
  }

  lemma ShortCircuitMatches()
    ensures var dims, rules := ShortCircuitEnv().entries[0].cube.dims, RulesOf(ShortCircuitEnv().entries[0]);
            FirstMatch(rules, dims, [0]) == Some(0) && FirstMatch(rules, dims, [1]) == Some(1)
  {
    var cube, rules := ShortCircuitEnv().entries[0].cube, RulesOf(ShortCircuitEnv().entries[0]);
    assert !MatchesDim(rules[0].area.perDim[0], false, cube.dims[0], [1][0]);
    assert !Matches(rules[0].area, cube.dims, [1]) && Matches(rules[0].area, cube.dims, [0]);
    assert rules[1..][0] == rules[1] && Matches(rules[1].area, cube.dims, [1]);
  }

  lemma ShortCircuitRuns(rd: Reader)
    ensures EnvOk(ShortCircuitEnv())
    ensures Compute(ShortCircuitEnv(), rd, Cell(0, [0])).res == Ok(2)
    ensures Compute(ShortCircuitEnv(), rd, Cell(0, [1])).res == Err(DivideByZero)
  {
    hide EnvOk, FirstMatch;
    ShortCircuitEnvOk();
    ShortCircuitMatches();
  }

  lemma ShortCircuitSkips(rd: Reader)
    ensures var entries := ShortCircuitEnv().entries;
            var e := RulesOf(entries[0])[0].expr;
            ExprOk(e, 0, entries) && Skipped(rd, entries, 0, [0], e) == [CellRef(0, [Pinned(1)])]
  {
    ShortCircuitRulesOk();
  }

  /** What explain lists for the choice is the other leaf, which has no value. */
  lemma ShortCircuitLists()
    ensures EnvOk(ShortCircuitEnv())
    ensures SkippedBy(ShortCircuitEnv(), Cell(0, [0]), Cell(0, [1]))
  {
    hide EnvOk, FirstMatch, Under, Skipped, ExprOk;
    ShortCircuitEnvOk();
    ShortCircuitMatches();
    var env, cell := ShortCircuitEnv(), CellRef(0, [Pinned(1)]);
    EntryParts(env, 0);
    MatchedInRange(env, 0, [0]);
    ShortCircuitSkips(Under(env, {}));
    assert Resolve(cell, [0]) == [1] && cell in [cell];
  }

  /** A cell can have a value and still not be explained: the condition's second half, which the
      evaluator skips, is listed all the same, and reading it fails. */
  lemma ShortCircuitHidesFailure()
    ensures EnvOk(ShortCircuitEnv())
    ensures Eval(ShortCircuitEnv(), {}, Cell(0, [0])) == Ok(2)
    ensures !Explainable(ShortCircuitEnv(), Cell(0, [0]), 2)
  {
    hide EnvOk, Compute, Eval, Under, Explainable, SkippedBy;
    var env, price, ratio := ShortCircuitEnv(), Cell(0, [0]), Cell(0, [1]);
    ShortCircuitLists();
    EvalUnfold(env, {}, price);
    EvalUnfold(env, {}, ratio);
    ShortCircuitRuns(Under(env, {} + {price}));
    ShortCircuitRuns(Under(env, {} + {ratio}));
    StopsHere(env, price, ratio);
    StoppedIsNot(env, [price, ratio], 2);
  }
}
