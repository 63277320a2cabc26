/** The flag grid of a cellset: one flag per cell, computed with one scratch coordinate that
    every row and column reuses. */
module GridFlags {
  import opened CubeModel
  import opened Rollups
  import opened RuleSource

  /** Axis members by name, one entry per axis dimension in each tuple; `size` cells. */
  datatype Cellset = Cellset(
    context: seq<(string, string)>,
    rowDims: seq<string>, rowTuples: seq<seq<string>>,
    columnDims: seq<string>, columnTuples: seq<seq<string>>,
    size: nat)

  ghost predicate CellsetOk(cs: Cellset) {
    && (forall r :: 0 <= r < |cs.rowTuples| ==> |cs.rowTuples[r]| == |cs.rowDims|)
    && (forall c :: 0 <= c < |cs.columnTuples| ==> |cs.columnTuples[c]| == |cs.columnDims|)
  }

  // ---------------------------------------------------------------- one cell at a time

  function Positions(dims: seq<Dimension>, names: seq<string>): (r: Option<seq<nat>>)
    ensures r.Some? ==> |r.value| == |names| && forall k :: 0 <= k < |names| ==>
              r.value[k] < |dims| && dims[r.value[k]].name == names[k]
  {
    if names == [] then Some([])
    else
      var n := |names| - 1;
      match (Positions(dims, names[..n]), DimPosition(dims, names[n]))
      case (Some(front), Some(p)) => Some(front + [p])
      case _ => None
  }

  function Indices(dims: seq<Dimension>, positions: seq<nat>, tuple: seq<string>): (r: Option<seq<nat>>)
    requires |tuple| == |positions| && forall k :: 0 <= k < |positions| ==> positions[k] < |dims|
    ensures r.Some? ==> |r.value| == |tuple| && forall k :: 0 <= k < |tuple| ==>
              Lookup(dims[positions[k]], tuple[k]) == Some(r.value[k])
  {
    if tuple == [] then Some([])
    else
      var n := |tuple| - 1;
      match (Indices(dims, positions[..n], tuple[..n]), Lookup(dims[positions[n]], tuple[n]))
      case (Some(front), Some(i)) => Some(front + [i])
      case _ => None
  }

  /** `base` with each position set to its index, later ones over earlier ones. */
  function PutAll(base: seq<nat>, positions: seq<nat>, indices: seq<nat>): (r: seq<nat>)
    requires |indices| == |positions| && forall k :: 0 <= k < |positions| ==> positions[k] < |base|
    ensures |r| == |base|
  {
    if positions == [] then base
    else
      var n := |positions| - 1;
      PutAll(base, positions[..n], indices[..n])[positions[n] := indices[n]]
  }

  function ContextNames(context: seq<(string, string)>): (r: seq<string>)
    ensures |r| == |context| && forall k :: 0 <= k < |r| ==> r[k] == context[k].0
  {
    seq(|context|, k requires 0 <= k < |context| => context[k].0)
  }

  function ContextMembers(context: seq<(string, string)>): (r: seq<string>)
    ensures |r| == |context| && forall k :: 0 <= k < |r| ==> r[k] == context[k].1
  {
    seq(|context|, k requires 0 <= k < |context| => context[k].1)
  }

  function Zeros(n: nat): (r: seq<nat>)
    ensures |r| == n && forall k :: 0 <= k < n ==> r[k] == 0
  {
    seq(n, _ => 0)
  }

  /** The coordinate the context fixes, zero elsewhere. */
  function ContextCoord(dims: seq<Dimension>, context: seq<(string, string)>): (r: Option<Coord>)
    ensures r.Some? ==> |r.value| == |dims|
  {
    match Positions(dims, ContextNames(context))
    case None => None
    case Some(positions) =>
      match Indices(dims, positions, ContextMembers(context))
      case None => None
      case Some(indices) => Some(PutAll(Zeros(|dims|), positions, indices))
  }

  /** The coordinate of the cell in row `r` and column `c`: the context, then the row's members,
      then the column's; nothing where any of them does not resolve. */
  function CellCoord(dims: seq<Dimension>, cs: Cellset, r: nat, c: nat): (coord: Option<Coord>)
    requires r < |cs.rowTuples| && c < |cs.columnTuples|
    requires |cs.rowTuples[r]| == |cs.rowDims| && |cs.columnTuples[c]| == |cs.columnDims|
    ensures coord.Some? ==> |coord.value| == |dims|
  {
    match (Positions(dims, cs.rowDims), Positions(dims, cs.columnDims), ContextCoord(dims, cs.context))
    case (Some(rowPos), Some(colPos), Some(base)) =>
      (match (Indices(dims, rowPos, cs.rowTuples[r]), Indices(dims, colPos, cs.columnTuples[c]))
       case (Some(row), Some(col)) => Some(PutAll(PutAll(base, rowPos, row), colPos, col))
       case _ => None)
    case _ => None
  }

  ghost predicate Flag(dims: seq<Dimension>, cs: Cellset, hit: Coord -> bool, r: nat, c: nat)
    requires CellsetOk(cs)
  {
    && r < |cs.rowTuples| && c < |cs.columnTuples|
    && CellCoord(dims, cs, r, c).Some? && hit(CellCoord(dims, cs, r, c).value)
  }

  function Width(cs: Cellset): (n: nat)
    ensures n > 0
  {
    if |cs.columnTuples| == 0 then 1 else |cs.columnTuples|
  }

  /** Cells are numbered row by row. */
  ghost predicate FlagAt(dims: seq<Dimension>, cs: Cellset, hit: Coord -> bool, ordinal: nat)
    requires CellsetOk(cs)
  {
    Flag(dims, cs, hit, High(Width(cs), ordinal), Low(Width(cs), ordinal))
  }

  // ---------------------------------------------------------------- members land in their dimensions

  lemma {:induction false} PutAllElsewhere(base: seq<nat>, positions: seq<nat>, indices: seq<nat>, p: nat)
    requires |indices| == |positions| && (forall k :: 0 <= k < |positions| ==> positions[k] < |base|) && p < |base|
    requires p !in positions
    ensures PutAll(base, positions, indices)[p] == base[p]
  {
    if positions != [] { PutAllElsewhere(base, positions[..|positions| - 1], indices[..|positions| - 1], p); }
  }

  /** The last index put into a position is the one it keeps. */
  lemma {:induction false} PutAllKeeps(base: seq<nat>, positions: seq<nat>, indices: seq<nat>, k: nat)
    requires |indices| == |positions| && forall j :: 0 <= j < |positions| ==> positions[j] < |base|
    requires k < |positions| && forall j :: k < j < |positions| ==> positions[j] != positions[k]
    ensures PutAll(base, positions, indices)[positions[k]] == indices[k]
  {
    var n := |positions| - 1;
    if k < n { PutAllKeeps(base, positions[..n], indices[..n], k); }
  }

  ghost predicate DistinctNames(names: seq<string>) {
    forall i, j :: 0 <= i < j < |names| ==> names[i] != names[j]
  }

  ghost predicate MemberAt(dims: seq<Dimension>, coord: Coord, dim: string, member: string)
    requires |coord| == |dims|
  {
    exists d :: 0 <= d < |dims| && dims[d].name == dim && Lookup(dims[d], member) == Some(coord[d])
  }

  ghost predicate NamedNowhere(cs: Cellset, dim: string) {
    dim !in cs.columnDims && dim !in cs.rowDims && dim !in ContextNames(cs.context)
  }

  /** The dimension of this context entry is on neither axis. */
  predicate OnlyContext(cs: Cellset, k: nat)
    requires k < |cs.context|
  {
    cs.context[k].0 !in cs.columnDims && cs.context[k].0 !in cs.rowDims
  }

  /** Every name is one of a dimension, and every member one of the element names there. */
  ghost predicate TupleNamed(dims: seq<Dimension>, names: seq<string>, members: seq<string>)
    requires |members| == |names|
  {
    forall k :: 0 <= k < |names| ==> Known(dims, names[k], members[k])
  }

  /** The first dimension of the name has an element of the member's name. */
  ghost predicate Known(dims: seq<Dimension>, name: string, member: string) {
    exists d: nat :: d < |dims| && dims[d].name == name && (forall j :: 0 <= j < d ==> dims[j].name != name)
      && exists i :: 0 <= i < |dims[d].elements| && dims[d].elements[i].name == member
  }

  lemma KnownIff(dims: seq<Dimension>, name: string, member: string)
    ensures Known(dims, name, member) <==>
              DimPosition(dims, name).Some? && Lookup(dims[DimPosition(dims, name).value], member).Some?
  {}

  lemma {:induction false} PositionsAre(dims: seq<Dimension>, names: seq<string>)
    ensures Positions(dims, names).Some? <==> forall k :: 0 <= k < |names| ==> DimPosition(dims, names[k]).Some?
    ensures Positions(dims, names).Some? ==>
              forall k :: 0 <= k < |names| ==> DimPosition(dims, names[k]) == Some(Positions(dims, names).value[k])
  {
    if names != [] {
      var n := |names| - 1;
      PositionsAre(dims, names[..n]);
      assert forall k :: 0 <= k < n ==> names[..n][k] == names[k];
    }
  }

  lemma {:induction false} IndicesAre(dims: seq<Dimension>, positions: seq<nat>, tuple: seq<string>)
    requires |tuple| == |positions| && forall k :: 0 <= k < |positions| ==> positions[k] < |dims|
    ensures Indices(dims, positions, tuple).Some? <==>
              forall k :: 0 <= k < |tuple| ==> Lookup(dims[positions[k]], tuple[k]).Some?
  {
    if tuple != [] {
      var n := |tuple| - 1;
      IndicesAre(dims, positions[..n], tuple[..n]);
      assert forall k :: 0 <= k < n ==> tuple[..n][k] == tuple[k] && positions[..n][k] == positions[k];
    }
  }

  lemma TupleResolves(dims: seq<Dimension>, names: seq<string>, members: seq<string>)
    requires |members| == |names|
    ensures TupleNamed(dims, names, members) <==>
              && Positions(dims, names).Some?
              && Indices(dims, Positions(dims, names).value, members).Some?
  {
    hide Positions, Indices, Known;
    forall k | 0 <= k < |names|
      ensures Known(dims, names[k], members[k]) <==>
                DimPosition(dims, names[k]).Some? && Lookup(dims[DimPosition(dims, names[k]).value], members[k]).Some?
    {
      KnownIff(dims, names[k], members[k]);
    }
    PositionsAre(dims, names);
    if Positions(dims, names).Some? { IndicesAre(dims, Positions(dims, names).value, members); }
  }

  /** A cell has a coordinate exactly when its row, its column and the context resolve whole. */
  lemma CellCoordResolves(dims: seq<Dimension>, cs: Cellset, r: nat, c: nat)
    requires CellsetOk(cs) && r < |cs.rowTuples| && c < |cs.columnTuples|
    ensures CellCoord(dims, cs, r, c).Some? <==>
              && TupleNamed(dims, cs.rowDims, cs.rowTuples[r]) && TupleNamed(dims, cs.columnDims, cs.columnTuples[c])
              && TupleNamed(dims, ContextNames(cs.context), ContextMembers(cs.context))
  {
    hide Positions, Indices, PutAll, TupleNamed;
    TupleResolves(dims, cs.rowDims, cs.rowTuples[r]);
    TupleResolves(dims, cs.columnDims, cs.columnTuples[c]);
    TupleResolves(dims, ContextNames(cs.context), ContextMembers(cs.context));
  }

  /** A cell's coordinate holds, in each column dimension, the column's member, in each row
      dimension that is none of those, the row's, in each other context dimension, the context's,
      and the first element of any dimension nobody names. */
  lemma CellCoordMembers(dims: seq<Dimension>, cs: Cellset, r: nat, c: nat)
    requires CellsetOk(cs) && r < |cs.rowTuples| && c < |cs.columnTuples| && CellCoord(dims, cs, r, c).Some?
    requires DistinctNames(cs.rowDims) && DistinctNames(cs.columnDims) && DistinctNames(ContextNames(cs.context))
    ensures var coord := CellCoord(dims, cs, r, c).value;
            && (forall k :: 0 <= k < |cs.columnDims| ==> MemberAt(dims, coord, cs.columnDims[k], cs.columnTuples[c][k]))
            && (forall k :: 0 <= k < |cs.rowDims| && cs.rowDims[k] !in cs.columnDims ==>
                  MemberAt(dims, coord, cs.rowDims[k], cs.rowTuples[r][k]))
            && (forall k :: 0 <= k < |cs.context| && OnlyContext(cs, k) ==>
                  MemberAt(dims, coord, cs.context[k].0, cs.context[k].1))
            && (forall d :: 0 <= d < |dims| && NamedNowhere(cs, dims[d].name) ==> coord[d] == 0)
  {
    hide Positions, Indices, PutAll;
    var coord := CellCoord(dims, cs, r, c).value;
    var rowPos, colPos := Positions(dims, cs.rowDims).value, Positions(dims, cs.columnDims).value;
    var row, col := Indices(dims, rowPos, cs.rowTuples[r]).value, Indices(dims, colPos, cs.columnTuples[c]).value;
    var base := ContextCoord(dims, cs.context).value;
    var withRow := PutAll(base, rowPos, row);
    forall k | 0 <= k < |cs.columnDims|
      ensures MemberAt(dims, coord, cs.columnDims[k], cs.columnTuples[c][k])
    {
      Landed(dims, withRow, cs.columnDims, colPos, col, k);
    }
    forall k | 0 <= k < |cs.rowDims| && cs.rowDims[k] !in cs.columnDims
      ensures MemberAt(dims, coord, cs.rowDims[k], cs.rowTuples[r][k])
    {
      Landed(dims, base, cs.rowDims, rowPos, row, k);
      Untouched(dims, withRow, cs.columnDims, colPos, col, rowPos[k]);
    }
    var ctxNames := ContextNames(cs.context);
    var ctxPos := Positions(dims, ctxNames).value;
    var ctx := Indices(dims, ctxPos, ContextMembers(cs.context)).value;
    forall k | 0 <= k < |cs.context| && OnlyContext(cs, k)
      ensures MemberAt(dims, coord, cs.context[k].0, cs.context[k].1)
    {
      Landed(dims, Zeros(|dims|), ctxNames, ctxPos, ctx, k);
      Untouched(dims, base, cs.rowDims, rowPos, row, ctxPos[k]);
      Untouched(dims, withRow, cs.columnDims, colPos, col, ctxPos[k]);
      assert dims[ctxPos[k]].name == cs.context[k].0;
    }
    forall d | 0 <= d < |dims| && NamedNowhere(cs, dims[d].name)
      ensures coord[d] == 0
    {
      Untouched(dims, Zeros(|dims|), ctxNames, ctxPos, ctx, d);
      Untouched(dims, base, cs.rowDims, rowPos, row, d);
      Untouched(dims, withRow, cs.columnDims, colPos, col, d);
    }
  }

  ghost predicate PositionsOf(dims: seq<Dimension>, names: seq<string>, positions: seq<nat>) {
    |positions| == |names| && forall k :: 0 <= k < |names| ==>
      positions[k] < |dims| && dims[positions[k]].name == names[k]
  }

  lemma Landed(dims: seq<Dimension>, base: seq<nat>, names: seq<string>, positions: seq<nat>, indices: seq<nat>, k: nat)
    requires PositionsOf(dims, names, positions) && DistinctNames(names)
    requires |base| == |dims| && |indices| == |names| && k < |names|
    ensures PutAll(base, positions, indices)[positions[k]] == indices[k]
  {
    forall j | k < j < |positions|
      ensures positions[j] != positions[k]
    {
      assert names[k] != names[j];
    }
    PutAllKeeps(base, positions, indices, k);
  }

  lemma Untouched(dims: seq<Dimension>, base: seq<nat>, names: seq<string>, positions: seq<nat>, indices: seq<nat>,
                  p: nat)
    requires PositionsOf(dims, names, positions) && |base| == |dims| && |indices| == |names|
    requires p < |dims| && dims[p].name !in names
    ensures PutAll(base, positions, indices)[p] == base[p]
  {
    assert forall j :: 0 <= j < |positions| ==> names[j] in names && dims[positions[j]].name == names[j];
    PutAllElsewhere(base, positions, indices, p);
  }

  // ---------------------------------------------------------------- the grid walk

  ghost predicate SameOutside(a: seq<nat>, b: seq<nat>, positions: seq<nat>) {
    |a| == |b| && forall p :: 0 <= p < |a| && p !in positions ==> a[p] == b[p]
  }

  /** What was in the overwritten positions does not matter. */
  lemma PutAllForgets(a: seq<nat>, b: seq<nat>, positions: seq<nat>, indices: seq<nat>)
    requires |indices| == |positions| && forall k :: 0 <= k < |positions| ==> positions[k] < |a|
    requires SameOutside(a, b, positions)
    ensures PutAll(a, positions, indices) == PutAll(b, positions, indices)
    ensures SameOutside(PutAll(a, positions, indices), a, positions)
  {
    hide PutAll;
    forall p | 0 <= p < |a|
      ensures PutAll(a, positions, indices)[p] == PutAll(b, positions, indices)[p]
      ensures p !in positions ==> PutAll(a, positions, indices)[p] == a[p]
    {
      if p in positions {
        var k := LastIndex(positions, p);
        PutAllKeeps(a, positions, indices, k);
        PutAllKeeps(b, positions, indices, k);
      } else {
        PutAllElsewhere(a, positions, indices, p);
        PutAllElsewhere(b, positions, indices, p);
      }
    }
  }

  lemma {:induction false} LastIndex(positions: seq<nat>, p: nat) returns (k: nat)
    requires p in positions
    ensures k < |positions| && positions[k] == p && forall j :: k < j < |positions| ==> positions[j] != p
  {
    k := |positions| - 1;
    if positions[k] != p { k := LastIndex(positions[..k], p); }
  }

  /** Sets the positions of a scratch coordinate in place. */
  method Patch(scratch: array<nat>, positions: seq<nat>, indices: seq<nat>)
    requires |indices| == |positions| && forall k :: 0 <= k < |positions| ==> positions[k] < scratch.Length
    modifies scratch
    ensures scratch[..] == PutAll(old(scratch[..]), positions, indices)
  {
    for k := 0 to |positions|
      invariant scratch[..] == PutAll(old(scratch[..]), positions[..k], indices[..k])
    {
      ghost var before := scratch[..];
      scratch[positions[k]] := indices[k];
      assert scratch[..] == before[positions[k] := indices[k]];
      assert positions[..k + 1][..k] == positions[..k] && indices[..k + 1][..k] == indices[..k];
    }
    assert positions[..|positions|] == positions && indices[..|positions|] == indices;
  }

  method ResolveTuples(dims: seq<Dimension>, positions: seq<nat>, tuples: seq<seq<string>>)
    returns (r: seq<Option<seq<nat>>>)
    requires forall k :: 0 <= k < |positions| ==> positions[k] < |dims|
    requires forall k :: 0 <= k < |tuples| ==> |tuples[k]| == |positions|
    ensures |r| == |tuples| && forall k :: 0 <= k < |tuples| ==> r[k] == Indices(dims, positions, tuples[k])
  {
    r := [];
    for k := 0 to |tuples|
      invariant |r| == k && forall j :: 0 <= j < k ==> r[j] == Indices(dims, positions, tuples[j])
    {
      r := r + [Indices(dims, positions, tuples[k])];
    }
  }

  lemma RowOrdinals(cs: Cellset, r: nat, start: nat, o: nat)
    requires start == Width(cs) * r && start <= o < start + Width(cs)
    ensures High(Width(cs), o) == r && Low(Width(cs), o) == o - start
  {
    DivMod(Width(cs), o - start, r);
  }

  lemma NoFlagsWithout(dims: seq<Dimension>, cs: Cellset, hit: Coord -> bool)
    requires CellsetOk(cs)
    requires Positions(dims, cs.rowDims).None? || Positions(dims, cs.columnDims).None?
               || ContextCoord(dims, cs.context).None?
    ensures forall o: nat :: !FlagAt(dims, cs, hit, o)
  {
    hide Positions, ContextCoord, Indices;
  }

  /** Flags below `done` are set as they should be; the rest are still false. */
  ghost predicate FlaggedBelow(dims: seq<Dimension>, cs: Cellset, hit: Coord -> bool, flags: seq<bool>, done: nat)
    requires CellsetOk(cs)
  {
    |flags| == cs.size && forall o: nat :: o < cs.size ==> (flags[o] <==> o < done && FlagAt(dims, cs, hit, o))
  }

  /** A whole row without a flag. */
  lemma SkipRow(dims: seq<Dimension>, cs: Cellset, hit: Coord -> bool, flags: seq<bool>, r: nat, start: nat, from: nat)
    requires CellsetOk(cs) && start == Width(cs) * r && start <= from <= start + Width(cs)
    requires FlaggedBelow(dims, cs, hit, flags, from)
    requires forall c :: from - start <= c < Width(cs) ==> !Flag(dims, cs, hit, r, c)
    ensures FlaggedBelow(dims, cs, hit, flags, start + Width(cs))
  {
    hide Flag;
    forall o: nat | from <= o < start + Width(cs)
      ensures !FlagAt(dims, cs, hit, o)
    {
      RowOrdinals(cs, r, start, o);
      assert !Flag(dims, cs, hit, r, o - start);
    }
  }

  lemma OneCell(dims: seq<Dimension>, cs: Cellset, hit: Coord -> bool, flags: seq<bool>, r: nat, c: nat, start: nat,
                b: bool)
    requires CellsetOk(cs) && start == Width(cs) * r && c < Width(cs)
    requires FlaggedBelow(dims, cs, hit, flags, start + c) && (b <==> Flag(dims, cs, hit, r, c))
    ensures FlaggedBelow(dims, cs, hit, if start + c < |flags| then flags[start + c := b] else flags, start + c + 1)
  {
    hide Flag;
    RowOrdinals(cs, r, start, start + c);
  }

  /** The scratch coordinate, patched with a column, is the cell's coordinate. */
  lemma PatchedIsCell(dims: seq<Dimension>, cs: Cellset, hit: Coord -> bool, r: nat, c: nat, base: seq<nat>,
                      rowPos: seq<nat>, colPos: seq<nat>, row: seq<nat>, col: seq<nat>, scratch: seq<nat>)
    requires CellsetOk(cs) && r < |cs.rowTuples| && c < |cs.columnTuples|
    requires Positions(dims, cs.rowDims) == Some(rowPos) && Positions(dims, cs.columnDims) == Some(colPos)
    requires ContextCoord(dims, cs.context) == Some(base)
    requires Indices(dims, rowPos, cs.rowTuples[r]) == Some(row)
               && Indices(dims, colPos, cs.columnTuples[c]) == Some(col)
    requires SameOutside(scratch, PutAll(base, rowPos, row), colPos)
    ensures PutAll(scratch, colPos, col) == PutAll(PutAll(base, rowPos, row), colPos, col)
    ensures Flag(dims, cs, hit, r, c) <==> hit(PutAll(scratch, colPos, col))
    ensures SameOutside(PutAll(scratch, colPos, col), PutAll(base, rowPos, row), colPos)
  {
    hide Positions, Indices, ContextCoord, PutAll;
    PutAllForgets(scratch, PutAll(base, rowPos, row), colPos, col);
  }

  lemma Unresolved(dims: seq<Dimension>, cs: Cellset, hit: Coord -> bool, r: nat, c: nat, rowPos: seq<nat>,
                   colPos: seq<nat>)
    requires CellsetOk(cs) && r < |cs.rowTuples| && c < |cs.columnTuples|
    requires Positions(dims, cs.rowDims) == Some(rowPos) && Positions(dims, cs.columnDims) == Some(colPos)
    requires Indices(dims, rowPos, cs.rowTuples[r]).None? || Indices(dims, colPos, cs.columnTuples[c]).None?
    ensures !Flag(dims, cs, hit, r, c)
  {
    hide Positions, Indices, ContextCoord, PutAll;
  }

  lemma WidthIs(cs: Cellset)
    ensures |cs.columnTuples| <= Width(cs)
    ensures CellsetOk(cs) ==> forall dims, hit, r: nat, c: nat :: c >= |cs.columnTuples| ==> !Flag(dims, cs, hit, r, c)
  {
    hide CellCoord;
  }

  lemma RowOutside(base: seq<nat>, positions: seq<nat>)
    ensures SameOutside(base, base, positions)
  {}

  /** Everything the grid walk resolves once. */
  datatype Axes = Axes(rowPos: seq<nat>, colPos: seq<nat>, base: Coord, rows: seq<Option<seq<nat>>>,
                       columns: seq<Option<seq<nat>>>)

  ghost predicate AxesOk(dims: seq<Dimension>, cs: Cellset, x: Axes)
    requires CellsetOk(cs)
  {
    && Positions(dims, cs.rowDims) == Some(x.rowPos) && Positions(dims, cs.columnDims) == Some(x.colPos)
    && ContextCoord(dims, cs.context) == Some(x.base)
    && |x.rows| == |cs.rowTuples| && |x.columns| == |cs.columnTuples|
    && (forall r :: 0 <= r < |x.rows| ==> x.rows[r] == Indices(dims, x.rowPos, cs.rowTuples[r]))
    && (forall c :: 0 <= c < |x.columns| ==> x.columns[c] == Indices(dims, x.colPos, cs.columnTuples[c]))
  }

  /** One row of the grid; the row's members are in the scratch coordinate already. */
  method FlagRow(dims: seq<Dimension>, cs: Cellset, hit: Coord -> bool, x: Axes, r: nat, start: nat,
                 scratch: array<nat>, flags: array<bool>)
    requires CellsetOk(cs) && AxesOk(dims, cs, x) && r < |x.rows| && x.rows[r].Some? && start == Width(cs) * r
    requires scratch[..] == PutAll(x.base, x.rowPos, x.rows[r].value)
    requires FlaggedBelow(dims, cs, hit, flags[..], start)
    modifies scratch, flags
    ensures FlaggedBelow(dims, cs, hit, flags[..], start + Width(cs))
  {
    hide Positions, Indices, ContextCoord, PutAll, Flag, FlaggedBelow, SameOutside, Width;
    ghost var withRow := PutAll(x.base, x.rowPos, x.rows[r].value);
    RowOutside(withRow, x.colPos);
    WidthIs(cs);
    for c := 0 to |x.columns|
      invariant FlaggedBelow(dims, cs, hit, flags[..], start + c)
      invariant SameOutside(scratch[..], withRow, x.colPos) && scratch.Length == |withRow|
    {
      ghost var before := flags[..];
      if start + c < flags.Length {
        var col := x.columns[c];
        if col.Some? {
          PatchedIsCell(dims, cs, hit, r, c, x.base, x.rowPos, x.colPos, x.rows[r].value, col.value, scratch[..]);
          Patch(scratch, x.colPos, col.value);
          flags[start + c] := hit(scratch[..]);
          assert flags[..] == before[start + c := flags[start + c]];
        } else {
          Unresolved(dims, cs, hit, r, c, x.rowPos, x.colPos);
          UnsetBeyond(dims, cs, hit, before, start + c);
          assert before[start + c := false] == before;
        }
      }
      OneCell(dims, cs, hit, before, r, c, start, Flag(dims, cs, hit, r, c));
    }
    SkipRow(dims, cs, hit, flags[..], r, start, start + |x.columns|);
  }

  lemma UnsetBeyond(dims: seq<Dimension>, cs: Cellset, hit: Coord -> bool, flags: seq<bool>, done: nat)
    requires CellsetOk(cs) && FlaggedBelow(dims, cs, hit, flags, done) && done < |flags|
    ensures !flags[done]
  {
    hide FlagAt;
  }

  method CellCoordFlags(dims: seq<Dimension>, cs: Cellset, hit: Coord -> bool) returns (flags: array<bool>)
    requires CellsetOk(cs)
    ensures fresh(flags) && flags.Length == cs.size
    ensures forall o: nat :: o < cs.size ==> (flags[o] <==> FlagAt(dims, cs, hit, o))
  {
    hide Positions, Indices, ContextCoord, PutAll, Flag, Width, FlagAt, FlaggedBelow, PositionsOf;
    flags := new bool[cs.size](_ => false);
    var rowPos, colPos, base := Positions(dims, cs.rowDims), Positions(dims, cs.columnDims),
                                  ContextCoord(dims, cs.context);
    if rowPos.None? || colPos.None? || base.None? {
      NoFlagsWithout(dims, cs, hit);
      return;
    }
    NoneYet(dims, cs, hit, flags[..]);
    var rows := ResolveTuples(dims, rowPos.value, cs.rowTuples);
    var columns := ResolveTuples(dims, colPos.value, cs.columnTuples);
    var x := Axes(rowPos.value, colPos.value, base.value, rows, columns);
    var scratch := new nat[|dims|](_ => 0);
    var start := 0;
    for r := 0 to |rows|
      invariant start == Width(cs) * r
      invariant FlaggedBelow(dims, cs, hit, flags[..], start)
    {
      if rows[r].Some? {
        ghost var kept := flags[..];
        forall d | 0 <= d < |dims| { scratch[d] := base.value[d]; }
        assert scratch[..] == base.value;
        Patch(scratch, rowPos.value, rows[r].value);
        assert flags[..] == kept;
        FlagRow(dims, cs, hit, x, r, start, scratch, flags);
      } else {
        UnresolvedRow(dims, cs, hit, flags[..], r, start, rowPos.value, colPos.value);
      }
      start := start + Width(cs);
    }
    forall o: nat | o < cs.size
      ensures flags[o] <==> FlagAt(dims, cs, hit, o)
    {
      AllDone(dims, cs, hit, flags[..], start, o);
    }
  }

  lemma NoneYet(dims: seq<Dimension>, cs: Cellset, hit: Coord -> bool, flags: seq<bool>)
    requires CellsetOk(cs) && |flags| == cs.size && forall o :: 0 <= o < |flags| ==> !flags[o]
    ensures FlaggedBelow(dims, cs, hit, flags, 0)
  {}

  lemma UnresolvedRow(dims: seq<Dimension>, cs: Cellset, hit: Coord -> bool, flags: seq<bool>, r: nat, start: nat,
                      rowPos: seq<nat>, colPos: seq<nat>)
    requires CellsetOk(cs) && r < |cs.rowTuples| && start == Width(cs) * r && FlaggedBelow(dims, cs, hit, flags, start)
    requires Positions(dims, cs.rowDims) == Some(rowPos) && Positions(dims, cs.columnDims) == Some(colPos)
    requires Indices(dims, rowPos, cs.rowTuples[r]).None?
    ensures FlaggedBelow(dims, cs, hit, flags, start + Width(cs))
  {
    hide Positions, Indices, ContextCoord, PutAll, Flag, Width, FlaggedBelow;
    forall c: nat
      ensures !Flag(dims, cs, hit, r, c)
    {
      WidthIs(cs);
      if c < |cs.columnTuples| { Unresolved(dims, cs, hit, r, c, rowPos, colPos); }
    }
    SkipRow(dims, cs, hit, flags, r, start, start);
  }

  lemma AllDone(dims: seq<Dimension>, cs: Cellset, hit: Coord -> bool, flags: seq<bool>, start: nat, o: nat)
    requires CellsetOk(cs) && start == Width(cs) * |cs.rowTuples| && FlaggedBelow(dims, cs, hit, flags, start)
    requires o < cs.size && |flags| == cs.size
    ensures flags[o] <==> FlagAt(dims, cs, hit, o)
  {
    hide FlagAt, Width;
    if start <= o { PastTheRows(dims, cs, hit, start, o); }
  }

  lemma PastTheRows(dims: seq<Dimension>, cs: Cellset, hit: Coord -> bool, start: nat, o: nat)
    requires CellsetOk(cs) && start == Width(cs) * |cs.rowTuples| && start <= o
    ensures !FlagAt(dims, cs, hit, o)
  {
    hide CellCoord;
    var w := Width(cs);
    assert o == w * High(w, o) + Low(w, o);
    assert w * (High(w, o) + 1) == w * High(w, o) + w;
    CancelFactor(w, |cs.rowTuples|, High(w, o) + 1);
  }
}
