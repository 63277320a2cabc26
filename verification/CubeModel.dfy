/** The data the calculation engine works on: cubes with weighted rollups and a sparse
    store of leaf values, compiled rules, and the registry a query is answered from. */
module CubeModel {
  import opened FixedPoint

  datatype Option<+T> = None | Some(value: T)

  // ---------------------------------------------------------------- cubes

  /** One element index per dimension. */
  type Coord = seq<nat>

  datatype Kind = Leaf | Consolidated

  datatype Element = Element(name: string, kind: Kind)

  datatype Edge = Edge(parent: nat, child: nat)

  /** One contributing leaf of a rollup and its net weight. */
  datatype Contribution = Contribution(leaf: nat, weight: int)

  datatype Attribute = Text(text: string) | Numeric(number: Fixed)

  /** `rollup[i]` lists the leaves element `i` rolls up, in ascending order. */
  datatype Dimension = Dimension(
    name: string,
    elements: seq<Element>,
    edges: seq<Edge>,
    rollup: seq<seq<Contribution>>,
    attributes: seq<string>,
    attributeValues: map<(nat, nat), Attribute>)

  /** `cells` is the sparse store; `scan` is the order in which its hash map happens
      to enumerate it. Nothing is assumed of that order. */
  datatype Cube = Cube(name: string, dims: seq<Dimension>, cells: map<Coord, Fixed>, scan: seq<Coord>)

  predicate IsLeaf(dim: Dimension, i: nat) {
    i < |dim.elements| && dim.elements[i].kind == Leaf
  }

  predicate InRange(dims: seq<Dimension>, coord: Coord) {
    |coord| == |dims| && forall d :: 0 <= d < |dims| ==> coord[d] < |dims[d].elements|
  }

  predicate AllLeaf(dims: seq<Dimension>, coord: Coord) {
    |coord| == |dims| && forall d :: 0 <= d < |dims| ==> IsLeaf(dims[d], coord[d])
  }

  ghost predicate RollupOk(dim: Dimension, i: nat)
    requires i < |dim.rollup|
  {
    var cs := dim.rollup[i];
    && (forall k :: 0 <= k < |cs| ==> IsLeaf(dim, cs[k].leaf) && cs[k].weight != 0)
    && (forall j, k :: 0 <= j < k < |cs| ==> cs[j].leaf < cs[k].leaf)
    && (IsLeaf(dim, i) ==> cs == [Contribution(i, 1)])
  }

  ghost predicate DimensionOk(dim: Dimension) {
    && |dim.rollup| == |dim.elements|
    && (forall i :: 0 <= i < |dim.elements| ==> RollupOk(dim, i))
    && (forall e :: e in dim.edges ==> e.parent < |dim.elements| && e.child < |dim.elements|)
  }

  ghost predicate CubeOk(cube: Cube) {
    && (forall d :: 0 <= d < |cube.dims| ==> DimensionOk(cube.dims[d]))
    && (forall c :: c in cube.cells ==> AllLeaf(cube.dims, c))
    && (forall c :: c in cube.cells <==> c in cube.scan)
  }

  function Stored(cube: Cube, coord: Coord): Fixed {
    if coord in cube.cells then cube.cells[coord] else 0
  }

  function NumericAttribute(dim: Dimension, element: nat, attr: nat): Fixed {
    if (element, attr) in dim.attributeValues && dim.attributeValues[(element, attr)].Numeric?
    then dim.attributeValues[(element, attr)].number
    else 0
  }

  // ---------------------------------------------------------------- compiled rules

  datatype DimPredicate = Any | OneOf(members: seq<nat>)

  datatype Area = Area(perDim: seq<DimPredicate>, consolidated: bool)

  datatype Slot = Pinned(element: nat) | FromTarget(pos: nat)

  datatype CellRef = CellRef(cube: nat, addr: seq<Slot>)

  datatype Expr =
    | Num(value: Fixed)
    | Undef
    | AttrNum(dim: nat, attr: nat)
    | Read(cell: CellRef)
    | Neg(arg: Expr)
    | Bin(op: ArithOp, left: Expr, right: Expr)
    | If(cond: Cond, thn: Expr, els: Option<Expr>)

  datatype Cond =
    | And(left: Cond, right: Cond)
    | Or(left: Cond, right: Cond)
    | Not(arg: Cond)
    | Cmp(a: Expr, op: CmpOp, b: Expr)

  datatype Rule = Rule(area: Area, expr: Expr)

  predicate MatchesDim(pred: DimPredicate, consolidated: bool, dim: Dimension, i: nat) {
    match pred
    case Any => i < |dim.elements| && (dim.elements[i].kind == Leaf) != consolidated
    case OneOf(members) => i in members
  }

  predicate Matches(area: Area, dims: seq<Dimension>, coord: Coord) {
    && |coord| == |area.perDim| == |dims|
    && forall d :: 0 <= d < |dims| ==> MatchesDim(area.perDim[d], area.consolidated, dims[d], coord[d])
  }

  /** The first rule, in author order, whose area holds the coordinate. */
  function FirstMatch(rules: seq<Rule>, dims: seq<Dimension>, coord: Coord): (r: Option<nat>)
    ensures r.Some? ==> r.value < |rules| && Matches(rules[r.value].area, dims, coord)
    ensures r.Some? ==> forall j :: 0 <= j < r.value ==> !Matches(rules[j].area, dims, coord)
    ensures r.None? ==> forall j :: 0 <= j < |rules| ==> !Matches(rules[j].area, dims, coord)
  {
    if rules == [] then None
    else if Matches(rules[0].area, dims, coord) then Some(0)
    else
      match FirstMatch(rules[1..], dims, coord)
      case None => None
      case Some(i) => Some(i + 1)
  }

  function Resolve(cell: CellRef, target: Coord): Coord
    requires RefInTarget(cell, target)
  {
    seq(|cell.addr|, d requires 0 <= d < |cell.addr| =>
      match cell.addr[d]
      case Pinned(i) => i
      case FromTarget(p) => assert p < |target| by { assert cell.addr[d].FromTarget?; } target[p])
  }

  predicate RefInTarget(cell: CellRef, target: Coord) {
    forall d :: 0 <= d < |cell.addr| && cell.addr[d].FromTarget? ==> cell.addr[d].pos < |target|
  }

  // ---------------------------------------------------------------- the registry

  /** A cube without a model, with its compiled rules, or whose rules no longer compile. */
  datatype RuleSet = NoModel | Compiled(rules: seq<Rule>) | Broken

  /** `fed` licenses sparse rollups of the cube, naming every rule-derived leaf that counts. */
  datatype Entry = Entry(cube: Cube, rules: RuleSet, fed: Option<seq<Coord>>)

  /** What-if leaf values of one target cube; `scope` keeps their memo entries apart. */
  datatype Overlay = Overlay(target: nat, cells: map<Coord, Fixed>, scope: nat)

  /** The element indices a caller may not see, per dimension of one target cube. */
  datatype Mask = Mask(target: nat, denied: seq<set<nat>>)

  datatype Env = Env(entries: seq<Entry>, overlay: Option<Overlay>, mask: Option<Mask>)

  datatype Cell = Cell(cube: nat, coord: Coord)

  datatype ModelError = RankMismatch | ElementOutOfRange | RollupOverflow

  datatype CalcError =
    | Cycle(cell: Cell)
    | DivideByZero
    | RuleOverflow
    | UnknownCube(ordinal: nat)
    | RulesFailed(ordinal: nat)
    | AccessDenied
    | Model(error: ModelError)

  datatype Result<+T> = Ok(value: T) | Err(error: CalcError)

  predicate Denies(mask: Mask, coord: Coord) {
    exists d :: 0 <= d < |coord| && d < |mask.denied| && coord[d] in mask.denied[d]
  }

  function RulesOf(entry: Entry): seq<Rule> {
    if entry.rules.Compiled? then entry.rules.rules else []
  }

  // ---------------------------------------------------------------- what compilation guarantees

  predicate AreaOk(area: Area, dims: seq<Dimension>) {
    && |area.perDim| == |dims|
    && forall d :: 0 <= d < |dims| && area.perDim[d].OneOf? ==>
         forall i :: i in area.perDim[d].members ==> i < |dims[d].elements|
  }

  /** A reference copies target members only from the position they stand at, and only
      within the rule's own cube; it addresses as many dimensions as its cube has. */
  predicate RefOk(cell: CellRef, own: nat, entries: seq<Entry>) {
    && cell.cube < |entries|
    && |cell.addr| == |entries[cell.cube].cube.dims|
    && (forall d :: 0 <= d < |cell.addr| ==>
         match cell.addr[d]
         case Pinned(i) => i < |entries[cell.cube].cube.dims[d].elements|
         case FromTarget(p) => p == d && cell.cube == own)
  }

  predicate ExprOk(e: Expr, own: nat, entries: seq<Entry>)
    requires own < |entries|
  {
    match e
    case Num(_) => true
    case Undef => true
    case AttrNum(d, _) => d < |entries[own].cube.dims|
    case Read(cell) => RefOk(cell, own, entries)
    case Neg(a) => ExprOk(a, own, entries)
    case Bin(_, l, r) => ExprOk(l, own, entries) && ExprOk(r, own, entries)
    case If(c, t, o) =>
      CondOk(c, own, entries) && ExprOk(t, own, entries) && (o.Some? ==> ExprOk(o.value, own, entries))
  }

  predicate CondOk(c: Cond, own: nat, entries: seq<Entry>)
    requires own < |entries|
  {
    match c
    case And(l, r) => CondOk(l, own, entries) && CondOk(r, own, entries)
    case Or(l, r) => CondOk(l, own, entries) && CondOk(r, own, entries)
    case Not(a) => CondOk(a, own, entries)
    case Cmp(a, _, b) => ExprOk(a, own, entries) && ExprOk(b, own, entries)
  }

  ghost predicate EntryOk(entries: seq<Entry>, o: nat)
    requires o < |entries|
  {
    && CubeOk(entries[o].cube)
    && (forall k :: 0 <= k < |RulesOf(entries[o])| ==>
         var rule := RulesOf(entries[o])[k];
         AreaOk(rule.area, entries[o].cube.dims) && ExprOk(rule.expr, o, entries))
    && (entries[o].fed.Some? ==>
         forall c :: c in entries[o].fed.value ==> AllLeaf(entries[o].cube.dims, c))
  }

  ghost predicate EnvOk(env: Env) {
    && (forall o :: 0 <= o < |env.entries| ==> EntryOk(env.entries, o))
    && (env.overlay.Some? ==> env.overlay.value.scope != 0)
  }

  /** The same registry with every sparse license withdrawn. */
  function Dense(env: Env): Env {
    env.(entries := seq(|env.entries|, o requires 0 <= o < |env.entries| => env.entries[o].(fed := None)))
  }
}
