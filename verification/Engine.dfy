/** The recursive evaluator with its memo, which is at once a cache of values and the
    detector of cycles, and the resolver that carries one memo per thread from read to read. */
module Engine {
  import opened FixedPoint
  import opened CubeModel
  import opened Rollups
  import opened Semantics
  import opened Evaluation

  datatype CellState = Computing | Done(value: Fixed)

  /** The scope keeps base values and what-if values of one cell apart. */
  datatype Key = Key(scope: nat, cell: Cell)

  type Memo = map<Key, CellState>

  function ScopeOf(env: Env): nat {
    if env.overlay.Some? then env.overlay.value.scope else 0
  }

  /** Markers stand exactly on the cells being computed, and every value is the value its
      cell has from nothing. */
  ghost predicate MemoOk(env: Env, memo: Memo, stack: set<Cell>)
    requires EnvOk(env)
  {
    && (forall c :: c in stack ==> Key(ScopeOf(env), c) in memo && memo[Key(ScopeOf(env), c)].Computing?)
    && (forall c :: Key(ScopeOf(env), c) in memo ==> EntryRight(env, c, memo[Key(ScopeOf(env), c)], stack))
  }

  ghost predicate EntryRight(env: Env, c: Cell, s: CellState, stack: set<Cell>)
    requires EnvOk(env)
  {
    match s
    case Computing => c in stack
    case Done(v) => Eval(env, {}, c) == Ok(v)
  }

  /** The entries of the other scopes. */
  ghost function Elsewhere(scope: nat, memo: Memo): Memo {
    map k | k in memo && k.scope != scope :: memo[k]
  }

  lemma ElsewhereKept(key: Key, memo: Memo, s: CellState)
    ensures Elsewhere(key.scope, memo[key := s]) == Elsewhere(key.scope, memo)
    ensures Elsewhere(key.scope, memo - {key}) == Elsewhere(key.scope, memo)
  {}

  /** Entries of other scopes are untouched, and no value is lost. */
  ghost predicate Grew(scope: nat, was: Memo, now: Memo) {
    Elsewhere(scope, now) == Elsewhere(scope, was)
    && forall k :: k in was && was[k].Done? ==> k in now && now[k] == was[k]
  }

  ghost predicate Remembers(memo: Memo, key: Key, v: Fixed) {
    key in memo && memo[key] == Done(v)
  }

  lemma Marked(key: Key, memo: Memo)
    requires key !in memo
    ensures Grew(key.scope, memo, memo[key := Computing])
  {
    ElsewhereKept(key, memo, Computing);
  }

  /** The marker goes, and a value takes its place if there is one. */
  lemma Settled(key: Key, was: Memo, now: Memo, r: Result<Fixed>)
    requires key !in was && Grew(key.scope, was, now)
    ensures Grew(key.scope, was, if r.Ok? then now[key := Done(r.value)] else now - {key})
  {
    hide Elsewhere;
    ElsewhereKept(key, now, if r.Ok? then Done(r.value) else Computing);
  }

  lemma GrewNot(scope: nat, memo: Memo)
    ensures Grew(scope, memo, memo)
  {}

  lemma GrewTrans(scope: nat, a: Memo, b: Memo, c: Memo)
    requires Grew(scope, a, b) && Grew(scope, b, c)
    ensures Grew(scope, a, c)
  {
    hide Elsewhere;
  }

  /** Every cell consulted is one the whole stack rests on. */
  ghost predicate AllGenuine(env: Env, stack: set<Cell>, log: seq<Cell>)
    requires EnvOk(env)
  {
    forall x :: x in log ==> Genuine(env, stack, x)
  }

  /** Base reads and what-if reads, and what-if reads of different scopes, can share a memo: what one
      engine adds leaves the memo right for the other. */
  lemma ScopesKeepApart(a: Env, b: Env, was: Memo, now: Memo)
    requires EnvOk(a) && EnvOk(b) && MemoOk(a, was, {}) && Grew(ScopeOf(b), was, now)
    requires match (a.overlay, b.overlay)
             case (None, None) => false
             case (Some(x), Some(y)) => x.scope != y.scope
             case _ => true
    ensures MemoOk(a, now, {})
  {
    hide Eval;
    forall c | Key(ScopeOf(a), c) in now
      ensures EntryRight(a, c, now[Key(ScopeOf(a), c)], {})
    {
      var key := Key(ScopeOf(a), c);
      assert key in Elsewhere(ScopeOf(b), now) && Elsewhere(ScopeOf(b), now)[key] == now[key];
      assert key in Elsewhere(ScopeOf(b), was) && Elsewhere(ScopeOf(b), was)[key] == was[key];
    }
  }

  lemma HitIsRight(env: Env, stack: set<Cell>, c: Cell)
    requires EnvOk(env) && Genuine(env, stack, c) && Eval(env, {}, c).Ok?
    ensures Eval(env, stack, c) == Eval(env, {}, c)
  {
    hide Bounded, EnvOk, Eval;
    SameValue(env, {}, c);
    var n: nat :| OkAt(env, n, c);
    ValueUnderAncestors(env, n, stack, c);
  }

  class CalcEngine {
    const env: Env
    var memo: Memo

    constructor (env: Env, memo: Memo)
      ensures this.env == env && this.memo == memo
    {
      this.env, this.memo := env, memo;
    }

    ghost predicate Valid(stack: set<Cell>)
      requires EnvOk(env)
      reads this
    {
      MemoOk(env, memo, stack)
    }

    /** The value the cell has under the stack, whatever the memo already held. */
    method Value(c: Cell, ghost stack: set<Cell>) returns (r: Result<Fixed>)
      requires EnvOk(env) && Valid(stack) && Genuine(env, stack, c)
      modifies this`memo
      ensures Valid(stack) && Grew(ScopeOf(env), old(memo), memo)
      ensures r == Eval(env, stack, c)
      ensures r.Ok? ==> Remembers(memo, Key(ScopeOf(env), c), r.value)
      decreases Universe(env) - stack, 4
    {
      hide EnvOk, Eval, Compute, Universe, Genuine, Under, Grew;
      GrewNot(ScopeOf(env), memo);
      EvalUnfold(env, stack, c);
      var key := Key(ScopeOf(env), c);
      if key in memo {
        assert EntryRight(env, c, memo[key], stack);
        match memo[key] {
          case Done(v) =>
            HitIsRight(env, stack, c);
            return Ok(v);
          case Computing =>
            return Err(Cycle(c));
        }
      }
      Marked(key, memo);
      memo := memo[key := Computing];
      r := ComputeCell(c, stack);
      GrewTrans(ScopeOf(env), old(memo), old(memo)[key := Computing], memo);
      Settled(key, old(memo), memo, r);
      if r.Ok? {
        SameValue(env, stack, c);
        memo := memo[key := Done(r.value)];
      } else {
        memo := memo - {key};
      }
    }

    method ComputeCell(c: Cell, ghost stack: set<Cell>) returns (r: Result<Fixed>)
      requires EnvOk(env) && Valid(stack + {c}) && c !in stack && Genuine(env, stack, c)
      modifies this`memo
      ensures Valid(stack + {c}) && Grew(ScopeOf(env), old(memo), memo)
      ensures r == Compute(env, Under(env, stack + {c}), c).res
      decreases Universe(env) - stack, 3
    {
      hide Universe, Genuine, Under, Eval, RunExpr, RunRollup;
      if Denied(env, c) {
        return Err(AccessDenied);
      }
      if c.cube >= |env.entries| {
        return Err(UnknownCube(c.cube));
      }
      var entry := env.entries[c.cube];
      assert EntryOk(env.entries, c.cube);
      if entry.rules.Broken? {
        return Err(RulesFailed(c.cube));
      }
      forall e | e in Compute(env, Under(env, stack + {c}), c).log
        ensures Genuine(env, stack + {c}, e)
      {
        ConsultedUnder(env, stack, c, e);
      }
      match FirstMatch(RulesOf(entry), entry.cube.dims, c.coord) {
        case Some(i) =>
          MatchedInRange(env, c.cube, c.coord);
          OneFewer(Universe(env), stack, c);
          r := EvalExpr(RulesOf(entry)[i].expr, c, stack + {c});
        case None =>
          if AllLeaf(entry.cube.dims, c.coord) {
            r := Ok(LeafValue(env, c));
          } else {
            r := Consolidate(c, stack);
          }
      }
    }

    method EvalExpr(e: Expr, c: Cell, ghost now: set<Cell>) returns (r: Result<Fixed>)
      requires EnvOk(env) && Valid(now) && c in Universe(env)
      requires ExprOk(e, c.cube, env.entries)
      requires AllGenuine(env, now, RunExpr(Under(env, now), env.entries, c.cube, c.coord, e).log)
      modifies this`memo
      ensures Valid(now) && Grew(ScopeOf(env), old(memo), memo)
      ensures r == RunExpr(Under(env, now), env.entries, c.cube, c.coord, e).res
      decreases Universe(env) - now, 6, e
    {
      hide Universe, Genuine, Under, Eval, EnvOk;
      ghost var rd := Under(env, now);
      match e {
        case Num(v) => r := Ok(v);
        case Undef => r := Ok(0);
        case AttrNum(d, a) =>
          r := Ok(NumericAttribute(env.entries[c.cube].cube.dims[d], c.coord[d], a));
        case Read(cell) =>
          r := EvalCell(cell, c, now);
        case Neg(a) =>
          r := EvalExpr(a, c, now);
          if r.Ok? {
            r := Lift(Negate(r.value));
          }
        case Bin(op, a, b) =>
          r := EvalExpr(a, c, now);
          if r.Ok? {
            var y := EvalExpr(b, c, now);
            r := if y.Ok? then Lift(Arith(op, r.value, y.value)) else y;
          }
        case If(k, t, o) =>
          var b := EvalCond(k, c, now);
          if b.Err? {
            r := Err(b.error);
          } else if b.value {
            r := EvalExpr(t, c, now);
          } else if o.Some? {
            r := EvalExpr(o.value, c, now);
          } else {
            r := Ok(0);
          }
      }
    }

    method EvalCell(cell: CellRef, c: Cell, ghost now: set<Cell>) returns (r: Result<Fixed>)
      requires EnvOk(env) && Valid(now) && c in Universe(env)
      requires RefOk(cell, c.cube, env.entries)
      requires Genuine(env, now, Cell(cell.cube, Resolve(cell, c.coord)))
      modifies this`memo
      ensures Valid(now) && Grew(ScopeOf(env), old(memo), memo)
      ensures r == Under(env, now)(Cell(cell.cube, Resolve(cell, c.coord)))
      decreases Universe(env) - now, 5
    {
      hide Universe, Genuine, Under, Eval, EnvOk;
      var abs: Coord := [];
      for d := 0 to |cell.addr|
        invariant abs == Resolve(cell, c.coord)[..d]
      {
        match cell.addr[d] {
          case Pinned(i) => abs := abs + [i];
          case FromTarget(p) => abs := abs + [c.coord[p]];
        }
      }
      assert abs == Resolve(cell, c.coord);
      UnderIs(env, now, Cell(cell.cube, abs));
      r := Value(Cell(cell.cube, abs), now);
    }

    method EvalCond(k: Cond, c: Cell, ghost now: set<Cell>) returns (r: Result<bool>)
      requires EnvOk(env) && Valid(now) && c in Universe(env)
      requires CondOk(k, c.cube, env.entries)
      requires AllGenuine(env, now, RunCond(Under(env, now), env.entries, c.cube, c.coord, k).log)
      modifies this`memo
      ensures Valid(now) && Grew(ScopeOf(env), old(memo), memo)
      ensures r == RunCond(Under(env, now), env.entries, c.cube, c.coord, k).res
      decreases Universe(env) - now, 6, k
    {
      hide Universe, Genuine, Under, Eval, EnvOk;
      match k {
        case And(a, b) =>
          r := EvalCond(a, c, now);
          if r.Ok? && r.value {
            r := EvalCond(b, c, now);
          }
        case Or(a, b) =>
          r := EvalCond(a, c, now);
          if r.Ok? && !r.value {
            r := EvalCond(b, c, now);
          }
        case Not(a) =>
          r := EvalCond(a, c, now);
          if r.Ok? {
            r := Ok(!r.value);
          }
        case Cmp(a, op, b) =>
          var x := EvalExpr(a, c, now);
          if x.Err? {
            return Err(x.error);
          }
          var y := EvalExpr(b, c, now);
          r := if y.Err? then Err(y.error) else Ok(Compare(x.value, y.value, op));
      }
    }

    method Consolidate(c: Cell, ghost stack: set<Cell>) returns (r: Result<Fixed>)
      requires EnvOk(env) && Valid(stack + {c}) && c.cube < |env.entries| && c !in stack
      requires EntryOk(env.entries, c.cube)
      requires AllGenuine(env, stack + {c}, RunRollup(env, Under(env, stack + {c}), c).log)
      modifies this`memo
      ensures Valid(stack + {c}) && Grew(ScopeOf(env), old(memo), memo)
      ensures r == RunRollup(env, Under(env, stack + {c}), c).res
      decreases Universe(env) - stack, 2
    {
      hide Genuine, Under, Eval, RunSum, Universe, MemoOk, DenseItems, SparseItems, Digits, CheckedProduct;
      var dims := env.entries[c.cube].cube.dims;
      if |c.coord| != |dims| {
        return Err(Model(RankMismatch));
      }
      if !InRange(dims, c.coord) {
        return Err(Model(ElementOutOfRange));
      }
      var perDim := PerDim(dims, c.coord);
      var total := CheckedProduct(Lens(perDim));
      if total.None? {
        return Err(Model(RollupOverflow));
      }
      if total.value == 0 {
        return Ok(0);
      }
      ghost var rd := Under(env, stack + {c});
      ghost var items := RollupItems(env, c.cube, perDim);
      assert RunRollup(env, rd, c).log == SumUnder(env, stack + {c}, c.cube, items).log;
      var acc: Result<int>;
      if TakesSparse(env, c.cube) {
        acc := SumSparse(c, perDim, env.entries[c.cube].cube.scan + env.entries[c.cube].fed.value, stack);
      } else {
        acc := SumDense(c, perDim, total.value, stack);
      }
      match acc {
        case Ok(v) => r := if FitsI64(v) then Ok(v) else Err(Model(RollupOverflow));
        case Err(e) => r := Err(e);
      }
    }

    /** One item read and added to the sum so far. */
    method AddItem(c: Cell, ghost items: seq<Item>, ghost k: nat, item: Item, acc: int, ghost stack: set<Cell>,
                   ghost was: Memo)
      returns (r: Result<int>)
      requires EnvOk(env) && Valid(stack + {c}) && c in Universe(env) && c !in stack
      requires k < |items| && items[k] == item && PartialSum(env, stack + {c}, c.cube, items, k) == Ok(acc)
      requires AllGenuine(env, stack + {c}, SumUnder(env, stack + {c}, c.cube, items).log)
      requires Grew(ScopeOf(env), was, memo)
      modifies this`memo
      ensures Valid(stack + {c}) && Grew(ScopeOf(env), was, memo)
      ensures r.Ok? ==> PartialSum(env, stack + {c}, c.cube, items, k + 1) == r
      ensures r.Err? ==> SumUnder(env, stack + {c}, c.cube, items).res == r
      decreases Universe(env) - stack, 0
    {
      hide *;
      OneFewer(Universe(env), stack, c);
      PartialStep(env, stack + {c}, c.cube, items, k);
      var v := Value(Cell(c.cube, item.coord), stack + {c});
      GrewTrans(ScopeOf(env), was, old(memo), memo);
      if v.Err? {
        return Err(v.error);
      }
      r := Ok(acc + item.weight * v.value);
    }

    /** The dense enumeration: one leaf coordinate per mixed-radix number. */
    method SumDense(c: Cell, perDim: seq<seq<Contribution>>, total: nat, ghost stack: set<Cell>)
      returns (r: Result<int>)
      requires EnvOk(env) && Valid(stack + {c}) && c in Universe(env) && c !in stack
      requires total == Size(Lens(perDim))
      requires AllGenuine(env, stack + {c}, SumUnder(env, stack + {c}, c.cube, DenseItems(perDim)).log)
      modifies this`memo
      ensures Valid(stack + {c}) && Grew(ScopeOf(env), old(memo), memo)
      ensures r == SumUnder(env, stack + {c}, c.cube, DenseItems(perDim)).res
      decreases Universe(env) - stack, 1
    {
      hide *;
      GrewNot(ScopeOf(env), memo);
      ghost var items := DenseItems(perDim);
      DenseItemsAre(perDim);
      PartialEnds(env, stack + {c}, c.cube, items);
      OneFewer(Universe(env), stack, c);
      var acc: int := 0;
      for n := 0 to total
        invariant Valid(stack + {c}) && Grew(ScopeOf(env), old(memo), memo)
        invariant PartialSum(env, stack + {c}, c.cube, items, n) == Ok(acc)
      {
        var combo, weight := Decode(perDim, n);
        var now := AddItem(c, items, n, Item(combo, weight), acc, stack, old(memo));
        if now.Err? {
          return Err(now.error);
        }
        acc := now.value;
      }
      r := Ok(acc);
    }

    /** The sparse union: stored cells first, then the licensed leaves, each counted once. */
    method SumSparse(c: Cell, perDim: seq<seq<Contribution>>, coords: seq<Coord>, ghost stack: set<Cell>)
      returns (r: Result<int>)
      requires EnvOk(env) && Valid(stack + {c}) && c in Universe(env) && c !in stack
      requires forall x :: x in coords ==> |x| == |perDim|
      requires AllGenuine(env, stack + {c}, SumUnder(env, stack + {c}, c.cube, SparseItems(perDim, coords)).log)
      modifies this`memo
      ensures Valid(stack + {c}) && Grew(ScopeOf(env), old(memo), memo)
      ensures r == SumUnder(env, stack + {c}, c.cube, SparseItems(perDim, coords)).res
      decreases Universe(env) - stack, 1
    {
      hide *;
      GrewNot(ScopeOf(env), memo);
      ghost var items := SparseItems(perDim, coords);
      PartialEnds(env, stack + {c}, c.cube, items);
      VisitedEnds(perDim, coords);
      OneFewer(Universe(env), stack, c);
      var seen: set<Coord>, acc: int := {}, 0;
      ghost var k: nat := 0;
      for i := 0 to |coords|
        invariant Valid(stack + {c}) && Grew(ScopeOf(env), old(memo), memo)
        invariant Visited(perDim, coords, i, k, seen) && k <= |items|
        invariant PartialSum(env, stack + {c}, c.cube, items, k) == Ok(acc)
      {
        VisitedStep(perDim, coords, i, k, seen);
        var weight := CellWeight(perDim, coords[i]);
        if weight.Some? && coords[i] !in seen {
          var now := AddItem(c, items, k, Item(coords[i], weight.value), acc, stack, old(memo));
          if now.Err? {
            return Err(now.error);
          }
          acc, seen, k := now.value, seen + {coords[i]}, k + 1;
        }
      }
      VisitedAll(perDim, coords, k, seen);
      r := Ok(acc);
    }
  }

  // ---------------------------------------------------------------- what a loop has summed so far

  ghost function SumUnder(env: Env, stack: set<Cell>, o: nat, items: seq<Item>): Run<int>
    requires EnvOk(env)
  {
    RunSum(Under(env, stack), o, items)
  }

  ghost function PartialSum(env: Env, stack: set<Cell>, o: nat, items: seq<Item>, n: nat): Result<int>
    requires EnvOk(env) && n <= |items|
  {
    SumUnder(env, stack, o, items[..n]).res
  }

  lemma DenseItemsAre(perDim: seq<seq<Contribution>>)
    ensures |DenseItems(perDim)| == Size(Lens(perDim))
    ensures forall n :: 0 <= n < Size(Lens(perDim)) ==>
              DenseItems(perDim)[n] == ItemAt(perDim, Digits(Lens(perDim), n))
  {}

  lemma PartialEnds(env: Env, stack: set<Cell>, o: nat, items: seq<Item>)
    requires EnvOk(env)
    ensures PartialSum(env, stack, o, items, 0) == Ok(0)
    ensures PartialSum(env, stack, o, items, |items|) == SumUnder(env, stack, o, items).res
  {
    assert items[..0] == [] && items[..|items|] == items;
  }

  /** One more item: it is consulted when all before it were Ok, and decides the sum if it fails. */
  lemma PartialStep(env: Env, stack: set<Cell>, o: nat, items: seq<Item>, n: nat)
    requires EnvOk(env) && n < |items| && PartialSum(env, stack, o, items, n).Ok?
    requires AllGenuine(env, stack, SumUnder(env, stack, o, items).log)
    ensures Genuine(env, stack, Cell(o, items[n].coord))
    ensures match Eval(env, stack, Cell(o, items[n].coord))
            case Ok(v) =>
              PartialSum(env, stack, o, items, n + 1) ==
              Ok(PartialSum(env, stack, o, items, n).value + items[n].weight * v)
            case Err(e) => SumUnder(env, stack, o, items).res == Err(e)
  {
    hide EnvOk, Eval, Under, Genuine;
    var rd, next := Under(env, stack), items[..n + 1];
    assert next[..n] == items[..n];
    UnderIs(env, stack, Cell(o, items[n].coord));
    SumPrefix(rd, o, items, n + 1);
    assert Cell(o, items[n].coord) in RunSum(rd, o, next).log;
  }

  /** After the first `i` scanned coordinates the first `k` items are done, and `seen` holds
      exactly their coordinates. */
  ghost predicate Visited(perDim: seq<seq<Contribution>>, coords: seq<Coord>, i: nat, k: nat, seen: set<Coord>)
    requires forall c :: c in coords ==> |c| == |perDim|
  {
    && i <= |coords| && k <= |SparseItems(perDim, coords)|
    && SparseItems(perDim, coords[..i]) == SparseItems(perDim, coords)[..k]
    && forall x :: x in seen <==> x in CoordsOf(SparseItems(perDim, coords[..i]))
  }

  lemma VisitedEnds(perDim: seq<seq<Contribution>>, coords: seq<Coord>)
    requires forall c :: c in coords ==> |c| == |perDim|
    ensures Visited(perDim, coords, 0, 0, {})
  {}

  lemma VisitedAll(perDim: seq<seq<Contribution>>, coords: seq<Coord>, k: nat, seen: set<Coord>)
    requires forall c :: c in coords ==> |c| == |perDim|
    requires Visited(perDim, coords, |coords|, k, seen)
    ensures k == |SparseItems(perDim, coords)|
  {
    assert coords[..|coords|] == coords;
  }

  lemma VisitedStep(perDim: seq<seq<Contribution>>, coords: seq<Coord>, i: nat, k: nat, seen: set<Coord>)
    requires forall c :: c in coords ==> |c| == |perDim|
    requires i < |coords| && Visited(perDim, coords, i, k, seen)
    ensures var w := CellWeight(perDim, coords[i]);
            if w.Some? && coords[i] !in seen
            then k < |SparseItems(perDim, coords)|
                 && SparseItems(perDim, coords)[k] == Item(coords[i], w.value)
                 && Visited(perDim, coords, i + 1, k + 1, seen + {coords[i]})
            else Visited(perDim, coords, i + 1, k, seen)
  {
    hide SparseItems, CoordsOf, CellWeight;
    NextItem(perDim, coords, i);
    var items, before, after :=
      SparseItems(perDim, coords), SparseItems(perDim, coords[..i]), SparseItems(perDim, coords[..i + 1]);
    assert before == items[..k];
    assert items[..|after|] == after;
  }

  /** What one more scanned coordinate adds to the items. */
  lemma NextItem(perDim: seq<seq<Contribution>>, coords: seq<Coord>, i: nat)
    requires (forall c :: c in coords ==> |c| == |perDim|) && i < |coords|
    ensures var before, after := SparseItems(perDim, coords[..i]), SparseItems(perDim, coords[..i + 1]);
            var w := CellWeight(perDim, coords[i]);
            && after <= SparseItems(perDim, coords)
            && (if w.Some? && coords[i] !in CoordsOf(before)
                then after == before + [Item(coords[i], w.value)] && CoordsOf(after) == CoordsOf(before) + [coords[i]]
                else after == before)
  {
    hide SparseItems, CoordsOf, CellWeight;
    SparsePrefix(perDim, coords, i + 1);
    SparseUnfold(perDim, coords[..i + 1]);
    assert coords[..i + 1][..i] == coords[..i];
    var w, before := CellWeight(perDim, coords[i]), SparseItems(perDim, coords[..i]);
    if w.Some? { CoordsPush(before, Item(coords[i], w.value)); }
  }

  lemma {:induction false} SparsePrefix(perDim: seq<seq<Contribution>>, coords: seq<Coord>, i: nat)
    requires (forall c :: c in coords ==> |c| == |perDim|) && i <= |coords|
    ensures SparseItems(perDim, coords[..i]) <= SparseItems(perDim, coords)
  {
    if i == |coords| {
      assert coords[..i] == coords;
    } else {
      assert coords[..|coords| - 1][..i] == coords[..i];
      SparsePrefix(perDim, coords[..|coords| - 1], i);
    }
  }

  /** The resolver of one query: a memo per thread, taken out for each read and put back. */
  class CellResolver {
    const env: Env
    const target: nat
    var memos: map<nat, Memo>

    ghost predicate Valid()
      reads this
    {
      EnvOk(env) && forall t :: t in memos ==> MemoOk(env, memos[t], {})
    }

    constructor (env: Env, target: nat)
      requires EnvOk(env)
      ensures Valid() && this.env == env && this.target == target
    {
      this.env, this.target, this.memos := env, target, map[];
    }

    /** The first critical section of a read: the thread's memo leaves the map. */
    method Take(thread: nat) returns (memo: Memo)
      requires Valid()
      modifies this`memos
      ensures Valid() && MemoOk(env, memo, {}) && memos == old(memos) - {thread}
      ensures memo == if thread in old(memos) then old(memos[thread]) else map[]
    {
      hide EnvOk, MemoOk;
      NoMemo(env);
      memo := if thread in memos then memos[thread] else map[];
      memos := memos - {thread};
    }

    /** The second: whatever other threads did meanwhile, the grown memo joins the map. */
    method PutBack(thread: nat, memo: Memo)
      requires Valid() && MemoOk(env, memo, {})
      modifies this`memos
      ensures Valid() && memos == old(memos)[thread := memo]
    {
      hide EnvOk, MemoOk;
      memos := memos[thread := memo];
    }

    /** Whatever was read before, by this thread or any other, the answer is the cell's value. */
    method Value(thread: nat, coord: Coord) returns (r: Result<Fixed>)
      requires Valid()
      modifies this`memos
      ensures Valid()
      ensures r == Eval(env, {}, Cell(target, coord))
      ensures memos.Keys == old(memos.Keys) + {thread}
      ensures forall t :: t in old(memos) && t != thread ==> memos[t] == old(memos[t])
      ensures Grew(ScopeOf(env), if thread in old(memos) then old(memos[thread]) else map[], memos[thread])
      ensures r.Ok? ==> Remembers(memos[thread], Key(ScopeOf(env), Cell(target, coord)), r.value)
    {
      hide EnvOk, MemoOk, Eval, Grew;
      var memo := Take(thread);
      var engine := new CalcEngine(env, memo);
      r := engine.Value(Cell(target, coord), {});
      PutBack(thread, engine.memo);
    }
  }

  lemma NoMemo(env: Env)
    requires EnvOk(env)
    ensures MemoOk(env, map[], {})
  {}
}
