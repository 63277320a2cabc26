/** Lowering rules to element indices, and the proof that it preserves what they mean. */
module Compile {
  import opened FixedPoint
  import opened CubeModel
  import opened Semantics
  import opened RuleSource

  datatype CompileError =
    | UnknownCube
    | UnknownDimension
    | UnknownMember
    | UnknownAttribute
    | InvalidNumber
    | Unsupported

  datatype Outcome<+T> = Done(value: T) | Failed(error: CompileError) {
    predicate IsFailure() { Failed? }

    function PropagateFailure<U>(): Outcome<U>
      requires Failed?
    {
      Failed(error)
    }

    function Extract(): T
      requires Done?
    {
      value
    }
  }

  // ---------------------------------------------------------------- selectors

  /** Every element the root reaches, each once, by a depth-first walk of the edges. */
  method DescendantsOf(dim: Dimension, root: nat) returns (out: seq<nat>)
    requires root < |dim.elements|
    requires forall e :: e in dim.edges ==> e.parent < |dim.elements| && e.child < |dim.elements|
    ensures forall i :: i in out <==> Reaches(dim, root, i)
    ensures forall i, j :: 0 <= i < j < |out| ==> out[i] != out[j]
  {
    out := [];
    var stack: seq<nat>, seen: set<nat> := [root], {};
    ghost var all := IndexSet(|dim.elements|);
    ReachesSelf(dim, root);
    while stack != []
      invariant forall i :: i in seen <==> i in out
      invariant forall i, j :: 0 <= i < j < |out| ==> out[i] != out[j]
      invariant AllReached(dim, root, out) && AllReached(dim, root, stack)
      invariant root in seen || root in stack
      invariant Pending(dim, seen, stack)
      decreases all - seen, |stack|
    {
      var node := stack[|stack| - 1];
      var rest := stack[..|stack| - 1];
      assert stack == rest + [node];
      if node in seen {
        PopSeen(dim, root, seen, rest, node);
        stack := rest;
      } else {
        PushKids(dim, root, seen, out, rest, node);
        assert node in all;
        seen, out := seen + {node}, out + [node];
        stack := rest + ChildrenOf(dim.edges, node);
      }
    }
    forall i | Reaches(dim, root, i)
      ensures i in out
    {
      var path :| Descends(dim, path) && path[0] == root && path[|path| - 1] == i;
      PathSeen(dim, path, seen, |path| - 1);
    }
  }

  /** The walk stays within what the root reaches. */
  ghost predicate AllReached(dim: Dimension, root: nat, nodes: seq<nat>) {
    forall i: nat :: i in nodes ==> i < |dim.elements| && Reaches(dim, root, i)
  }

  /** The children of what has been seen are seen or still to be. */
  ghost predicate Pending(dim: Dimension, seen: set<nat>, stack: seq<nat>) {
    forall e :: e in dim.edges && e.parent in seen ==> e.child in seen || e.child in stack
  }

  lemma PopSeen(dim: Dimension, root: nat, seen: set<nat>, rest: seq<nat>, node: nat)
    requires AllReached(dim, root, rest + [node]) && Pending(dim, seen, rest + [node]) && node in seen
    ensures AllReached(dim, root, rest) && Pending(dim, seen, rest)
  {
    hide Reaches;
    assert forall i :: i in rest ==> i in rest + [node];
  }

  lemma PushKids(dim: Dimension, root: nat, seen: set<nat>, out: seq<nat>, rest: seq<nat>, node: nat)
    requires forall e :: e in dim.edges ==> e.parent < |dim.elements| && e.child < |dim.elements|
    requires AllReached(dim, root, out) && AllReached(dim, root, rest + [node]) && Pending(dim, seen, rest + [node])
    ensures node < |dim.elements| && AllReached(dim, root, out + [node])
    ensures AllReached(dim, root, rest + ChildrenOf(dim.edges, node))
    ensures Pending(dim, seen + {node}, rest + ChildrenOf(dim.edges, node))
  {
    hide Reaches, ChildrenOf;
    var kids := ChildrenOf(dim.edges, node);
    assert node in rest + [node] && forall i :: i in rest ==> i in rest + [node];
    forall c | c in kids
      ensures c < |dim.elements| && Reaches(dim, root, c)
    {
      assert Edge(node, c) in dim.edges;
      ReachesStep(dim, root, node, c);
    }
  }

  ghost function IndexSet(n: nat): (r: set<nat>)
    ensures forall i: nat :: i in r <==> i < n
  {
    if n == 0 then {} else IndexSet(n - 1) + {n - 1}
  }

  function ChildrenOf(edges: seq<Edge>, parent: nat): (r: seq<nat>)
    ensures forall c :: c in r <==> Edge(parent, c) in edges
  {
    if edges == [] then []
    else (if edges[0].parent == parent then [edges[0].child] else []) + ChildrenOf(edges[1..], parent)
  }

  lemma ReachesSelf(dim: Dimension, i: nat)
    ensures Reaches(dim, i, i)
  {
    assert Descends(dim, [i]);
  }

  lemma ReachesStep(dim: Dimension, from: nat, mid: nat, to: nat)
    requires Reaches(dim, from, mid) && Edge(mid, to) in dim.edges
    ensures Reaches(dim, from, to)
  {
    var path :| Descends(dim, path) && path[0] == from && path[|path| - 1] == mid;
    var longer := path + [to];
    assert forall k :: 0 <= k < |longer| - 1 ==> Edge(longer[k], longer[k + 1]) in dim.edges;
    assert Descends(dim, longer);
  }

  lemma {:induction false} PathSeen(dim: Dimension, path: seq<nat>, seen: set<nat>, k: nat)
    requires Descends(dim, path) && path[0] in seen && k < |path|
    requires forall e :: e in dim.edges && e.parent in seen ==> e.child in seen
    ensures path[k] in seen
  {
    if k > 0 {
      PathSeen(dim, path, seen, k - 1);
      assert Edge(path[k - 1], path[k]) in dim.edges;
    }
  }

  /** A sorted list without duplicates, of the same elements. */
  method SortDedup(xs: seq<nat>) returns (r: seq<nat>)
    ensures forall x :: x in r <==> x in xs
    ensures forall i, j :: 0 <= i < j < |r| ==> r[i] < r[j]
  {
    r := [];
    for k := 0 to |xs|
      invariant forall x :: x in r <==> x in xs[..k]
      invariant forall i, j :: 0 <= i < j < |r| ==> r[i] < r[j]
    {
      assert xs[..k + 1] == xs[..k] + [xs[k]];
      var p := 0;
      while p < |r| && r[p] < xs[k]
        invariant p <= |r| && forall i :: 0 <= i < p ==> r[i] < xs[k]
      {
        p := p + 1;
      }
      if p == |r| || r[p] != xs[k] {
        InsertedAscends(r, p, xs[k]);
        r := r[..p] + [xs[k]] + r[p..];
      }
    }
    assert xs[..|xs|] == xs;
  }

  lemma InsertedAscends(r: seq<nat>, p: nat, x: nat)
    requires p <= |r| && forall i, j :: 0 <= i < j < |r| ==> r[i] < r[j]
    requires (forall i :: 0 <= i < p ==> r[i] < x) && (p < |r| ==> x < r[p])
    ensures var s := r[..p] + [x] + r[p..];
            (forall i, j :: 0 <= i < j < |s| ==> s[i] < s[j]) && forall y :: y in s <==> y in r || y == x
  {
    assert r == r[..p] + r[p..];
  }

  /** Whether every name in a selector resolves. */
  ghost predicate SelectorResolves(dim: Dimension, kind: SelectorKind) {
    match kind
    case Element(name) => Lookup(dim, name).Some?
    case Children(parent) => Lookup(dim, parent).Some?
    case Descendants(root) => Lookup(dim, root).Some?
    case AttrPredicate(attribute, _, value) =>
      IndexOf(dim.attributes, attribute).Some? && (value.Number? ==> value.parsed.Some?)
    case _ => true
  }

  /** What a selector is refused for. */
  ghost predicate SelectorOffends(dim: Dimension, kind: SelectorKind, e: CompileError) {
    match kind
    case Element(name) => Lookup(dim, name).None? && e == UnknownMember
    case Children(parent) => Lookup(dim, parent).None? && e == UnknownMember
    case Descendants(root) => Lookup(dim, root).None? && e == UnknownMember
    case AttrPredicate(attribute, _, value) =>
      if IndexOf(dim.attributes, attribute).None? then e == UnknownAttribute
      else value.Number? && value.parsed.None? && e == InvalidNumber
    case _ => false
  }

  lemma LookupIsTheOne(dim: Dimension, name: string, i: nat)
    requires DistinctElements(dim) && i < |dim.elements| && dim.elements[i].name == name
    ensures Lookup(dim, name) == Some(i)
  {
    assert ElementNames(dim)[i] == name;
  }

  /** A selector's elements, ascending, exactly those it names; it fails exactly when a name
      in it does not resolve. */
  method ResolveSelector(dim: Dimension, kind: SelectorKind) returns (r: Outcome<seq<nat>>)
    requires DimensionOk(dim) && DistinctElements(dim)
    ensures r.Done? <==> SelectorResolves(dim, kind)
    ensures r.Failed? ==> SelectorOffends(dim, kind, r.error)
    ensures r.Done? ==> forall i :: i in r.value <==> Selects(dim, kind, i)
    ensures r.Done? ==> forall i, j :: 0 <= i < j < |r.value| ==> r.value[i] < r.value[j]
  {
    hide RollupOk;
    var found: seq<nat> := [];
    match kind {
      case Element(name) =>
        var e :- FindMember(dim, name);
        found := [e];
        forall i | Selects(dim, kind, i)
          ensures i in found
        {
          LookupIsTheOne(dim, name, i);
        }
      case Children(parent) =>
        var p :- FindMember(dim, parent);
        found := ChildrenOf(dim.edges, p);
        forall i
          ensures i in found <==> Selects(dim, kind, i)
        {
          if q: nat :| q < |dim.elements| && dim.elements[q].name == parent && Edge(q, i) in dim.edges {
            LookupIsTheOne(dim, parent, q);
          }
        }
      case Descendants(root) =>
        var p :- FindMember(dim, root);
        found := DescendantsOf(dim, p);
        forall i
          ensures i in found <==> Selects(dim, kind, i)
        {
          if q: nat :| q < |dim.elements| && dim.elements[q].name == root && Reaches(dim, q, i) {
            LookupIsTheOne(dim, root, q);
          }
          if Reaches(dim, p, i) { ReachedInRange(dim, p, i); }
        }
      case AttrPredicate(attribute, op, value) =>
        found :- ResolveAttrPredicate(dim, attribute, op, value);
      case _ =>
        for i := 0 to |dim.elements|
          invariant forall j: nat :: j in found <==> j < i && Selects(dim, kind, j)
        {
          var leaf := dim.elements[i].kind == Leaf;
          if kind.All? || (kind.Leaves? && leaf) || (kind.Consolidated? && !leaf) {
            found := found + [i];
          }
        }
    }
    var sorted := SortDedup(found);
    r := Done(sorted);
  }

  function FindMember(dim: Dimension, name: string): Outcome<nat> {
    match Lookup(dim, name)
    case Some(i) => Done(i)
    case None => Failed(UnknownMember)
  }

  lemma ReachedInRange(dim: Dimension, from: nat, to: nat)
    requires Reaches(dim, from, to) && from < |dim.elements|
    requires forall e :: e in dim.edges ==> e.parent < |dim.elements| && e.child < |dim.elements|
    ensures to < |dim.elements|
  {
    var path :| Descends(dim, path) && path[0] == from && path[|path| - 1] == to;
    var n := |path| - 1;
    if n > 0 { assert Edge(path[n - 1], path[n]) in dim.edges; }
  }

  method ResolveAttrPredicate(dim: Dimension, attribute: string, op: CmpOp, value: Literal)
    returns (r: Outcome<seq<nat>>)
    ensures r.Done? <==> SelectorResolves(dim, AttrPredicate(attribute, op, value))
    ensures r.Failed? ==> SelectorOffends(dim, AttrPredicate(attribute, op, value), r.error)
    ensures r.Done? ==> forall i :: i in r.value <==> Selects(dim, AttrPredicate(attribute, op, value), i)
  {
    var a := IndexOf(dim.attributes, attribute);
    if a.None? {
      return Failed(UnknownAttribute);
    }
    if value.Number? && value.parsed.None? {
      return Failed(InvalidNumber);
    }
    var found: seq<nat> := [];
    for i := 0 to |dim.elements|
      invariant forall j: nat :: j in found <==> j < i && AttributeCompares(dim, j, a.value, op, value)
    {
      if AttributeCompares(dim, i, a.value, op, value) {
        found := found + [i];
      }
    }
    r := Done(found);
  }

  // ---------------------------------------------------------------- areas

  ghost predicate AreaResolves(dims: seq<Dimension>, selectors: seq<DimSelector>) {
    forall k :: 0 <= k < |selectors| ==>
      DimPosition(dims, selectors[k].dimension).Some?
      && SelectorResolves(dims[DimPosition(dims, selectors[k].dimension).value], selectors[k].kind)
  }

  /** The first selector that cannot be resolved, and why. */
  ghost predicate AreaOffends(dims: seq<Dimension>, selectors: seq<DimSelector>, e: CompileError) {
    exists k :: SelectorAt(dims, selectors, k, e)
  }

  ghost predicate SelectorAt(dims: seq<Dimension>, selectors: seq<DimSelector>, k: nat, e: CompileError) {
    && k < |selectors| && AreaResolves(dims, selectors[..k])
    && match DimPosition(dims, selectors[k].dimension)
       case None => e == UnknownDimension
       case Some(d) => SelectorOffends(dims[d], selectors[k].kind, e)
  }

  /** One compiled dimension: free, or exactly the elements of its last selector. */
  ghost predicate Pins(dim: Dimension, selectors: seq<DimSelector>, pred: DimPredicate) {
    match LastSelector(selectors, dim.name)
    case None => pred == Any
    case Some(kind) => pred.OneOf? && forall i :: i in pred.members <==> Selects(dim, kind, i)
  }

  /** A compiled area holds exactly the coordinates the written one holds by name; compiling
      fails exactly when a name does not resolve. */
  method CompileArea(dims: seq<Dimension>, area: SourceArea) returns (r: Outcome<Area>)
    requires DistinctDims(dims)
    requires forall d :: 0 <= d < |dims| ==> DimensionOk(dims[d]) && DistinctElements(dims[d])
    ensures r.Done? <==> AreaResolves(dims, area.selectors)
    ensures r.Failed? ==> AreaOffends(dims, area.selectors, r.error)
    ensures r.Done? ==> AreaOk(r.value, dims)
    ensures r.Done? ==> forall c :: Matches(r.value, dims, c) <==> AreaHolds(dims, area, c)
  {
    hide DimensionOk, DistinctElements, SelectorResolves, Selects, Pins, AreaResolves, AreaHolds, Matches;
    var perDim: seq<DimPredicate> := seq(|dims|, d => Any);
    var sels := area.selectors;
    NothingPinned(dims);
    for k := 0 to |sels|
      invariant |perDim| == |dims| && AreaResolves(dims, sels[..k])
      invariant forall d :: 0 <= d < |dims| ==> Pins(dims[d], sels[..k], perDim[d])
    {
      OneMoreResolves(dims, sels, k);
      var pos := DimPosition(dims, sels[k].dimension);
      if pos.None? {
        assert SelectorAt(dims, sels, k, UnknownDimension);
        return Failed(UnknownDimension);
      }
      var members := ResolveSelector(dims[pos.value], sels[k].kind);
      if members.Failed? {
        assert SelectorAt(dims, sels, k, members.error);
        return Failed(members.error);
      }
      OneMorePinned(dims, sels, k, pos.value, perDim, members.value);
      perDim := perDim[pos.value := OneOf(members.value)];
    }
    assert sels[..|sels|] == sels;
    var compiled := Area(perDim, area.scope == C);
    PinsMean(dims, area, compiled);
    r := Done(compiled);
  }

  lemma NothingPinned(dims: seq<Dimension>)
    ensures AreaResolves(dims, []) && forall d :: 0 <= d < |dims| ==> Pins(dims[d], [], Any)
  {}

  lemma OneMoreResolves(dims: seq<Dimension>, sels: seq<DimSelector>, k: nat)
    requires k < |sels| && AreaResolves(dims, sels[..k])
    ensures var pos := DimPosition(dims, sels[k].dimension);
            var resolves := pos.Some? && SelectorResolves(dims[pos.value], sels[k].kind);
            (resolves <==> AreaResolves(dims, sels[..k + 1])) && (!resolves ==> !AreaResolves(dims, sels))
  {
    hide SelectorResolves;
    assert sels[..k + 1] == sels[..k] + [sels[k]];
  }

  /** The selector just resolved replaces any earlier one of its dimension. */
  lemma OneMorePinned(dims: seq<Dimension>, sels: seq<DimSelector>, k: nat, pos: nat, perDim: seq<DimPredicate>,
                      members: seq<nat>)
    requires DistinctDims(dims) && |perDim| == |dims| && k < |sels| && pos < |dims|
    requires dims[pos].name == sels[k].dimension
    requires forall d :: 0 <= d < |dims| ==> Pins(dims[d], sels[..k], perDim[d])
    requires forall i :: i in members <==> Selects(dims[pos], sels[k].kind, i)
    ensures forall d :: 0 <= d < |dims| ==> Pins(dims[d], sels[..k + 1], perDim[pos := OneOf(members)][d])
  {
    hide Selects;
    assert sels[..k + 1][..k] == sels[..k];
  }

  lemma PinsMean(dims: seq<Dimension>, area: SourceArea, compiled: Area)
    requires |compiled.perDim| == |dims| && compiled.consolidated == (area.scope == C)
    requires forall d :: 0 <= d < |dims| ==> Pins(dims[d], area.selectors, compiled.perDim[d])
    ensures AreaOk(compiled, dims)
    ensures forall c :: Matches(compiled, dims, c) <==> AreaHolds(dims, area, c)
  {
    forall d, i | 0 <= d < |dims|
      ensures MatchesDim(compiled.perDim[d], compiled.consolidated, dims[d], i) <==> DimHolds(dims[d], area, i)
    {
      assert Pins(dims[d], area.selectors, compiled.perDim[d]);
    }
    forall d | 0 <= d < |dims| && compiled.perDim[d].OneOf?
      ensures forall i :: i in compiled.perDim[d].members ==> i < |dims[d].elements|
    {
      assert Pins(dims[d], area.selectors, compiled.perDim[d]);
    }
    forall c
      ensures Matches(compiled, dims, c) <==> AreaHolds(dims, area, c)
    {
      hide MatchesDim, DimHolds;
    }
  }

  // ---------------------------------------------------------------- cell references

  function ReferencedCube(cubes: seq<Cube>, own: nat, ref: Reference): Outcome<nat>
    requires own < |cubes|
  {
    match ref.cube
    case None => Done(own)
    case Some(name) =>
      match Ordinal(cubes, name)
      case Some(o) => Done(o)
      case None => Failed(CompileError.UnknownCube)
  }

  /** One address slot: pinned by the first override of its dimension, or copied from the
      target's dimension of the same name, which only a same-cube reference may do. */
  function LowerSlot(cubes: seq<Cube>, own: nat, o: nat, ref: Reference, d: nat): Outcome<Slot>
    requires own < |cubes| && o < |cubes| && d < |cubes[o].dims|
  {
    var dim := cubes[o].dims[d];
    match FirstOverride(ref.overrides, dim.name)
    case Some(Named(m)) => var i :- FindMember(dim, m); Done(Pinned(i))
    case Some(ByAttribute(_)) => Failed(Unsupported)
    case None =>
      if o != own then Failed(Unsupported)
      else match DimPosition(cubes[own].dims, dim.name)
           case Some(p) => Done(FromTarget(p))
           case None => Failed(UnknownDimension)
  }

  function LowerSlots(cubes: seq<Cube>, own: nat, o: nat, ref: Reference, n: nat): (r: Outcome<seq<Slot>>)
    requires own < |cubes| && o < |cubes| && n <= |cubes[o].dims|
    ensures r.Done? ==> |r.value| == n
    ensures r.Done? ==> forall d :: 0 <= d < n ==> LowerSlot(cubes, own, o, ref, d) == Done(r.value[d])
    ensures r.Failed? ==> exists d :: 0 <= d < n && LowerSlot(cubes, own, o, ref, d).Failed?
  {
    if n == 0 then Done([])
    else
      var before :- LowerSlots(cubes, own, o, ref, n - 1);
      var slot :- LowerSlot(cubes, own, o, ref, n - 1);
      Done(before + [slot])
  }

  predicate OverridesKnown(dims: seq<Dimension>, overrides: seq<Override>) {
    forall k :: 0 <= k < |overrides| ==> DimPosition(dims, overrides[k].dimension).Some?
  }

  function LowerCell(cubes: seq<Cube>, own: nat, ref: Reference): Outcome<CellRef>
    requires own < |cubes|
  {
    if ref.mapped then Failed(Unsupported)
    else
      var o :- ReferencedCube(cubes, own, ref);
      if !OverridesKnown(cubes[o].dims, ref.overrides) then Failed(UnknownDimension)
      else
        var addr :- LowerSlots(cubes, own, o, ref, |cubes[o].dims|);
        Done(CellRef(o, addr))
  }

  /** The loop that lowers a reference, override by override and slot by slot. */
  method LowerCellInOrder(cubes: seq<Cube>, own: nat, ref: Reference) returns (r: Outcome<CellRef>)
    requires own < |cubes|
    ensures r == LowerCell(cubes, own, ref)
  {
    if ref.mapped {
      return Failed(Unsupported);
    }
    var o :- ReferencedCube(cubes, own, ref);
    for k := 0 to |ref.overrides|
      invariant forall j :: 0 <= j < k ==> DimPosition(cubes[o].dims, ref.overrides[j].dimension).Some?
    {
      if DimPosition(cubes[o].dims, ref.overrides[k].dimension).None? {
        return Failed(UnknownDimension);
      }
    }
    var addr: seq<Slot> := [];
    for d := 0 to |cubes[o].dims|
      invariant LowerSlots(cubes, own, o, ref, d) == Done(addr)
    {
      var slot := LowerSlot(cubes, own, o, ref, d);
      if slot.Failed? {
        SlotsFail(cubes, own, o, ref, d, |cubes[o].dims|);
        return Failed(slot.error);
      }
      addr := addr + [slot.value];
    }
    r := Done(CellRef(o, addr));
  }

  lemma {:induction false} SlotsFail(cubes: seq<Cube>, own: nat, o: nat, ref: Reference, d: nat, n: nat)
    requires own < |cubes| && o < |cubes| && d < n <= |cubes[o].dims|
    requires LowerSlots(cubes, own, o, ref, d).Done? && LowerSlot(cubes, own, o, ref, d).Failed?
    ensures LowerSlots(cubes, own, o, ref, n) == Failed(LowerSlot(cubes, own, o, ref, d).error)
  {
    hide LowerSlot;
    if d < n - 1 {
      SlotsFail(cubes, own, o, ref, d, n - 1);
    }
  }

  ghost predicate Aligned(cubes: seq<Cube>, own: nat, cell: CellRef) {
    && own < |cubes| && cell.cube < |cubes| && |cell.addr| == |cubes[cell.cube].dims|
    && forall d :: 0 <= d < |cell.addr| ==>
         match cell.addr[d]
         case Pinned(i) => i < |cubes[cell.cube].dims[d].elements|
         case FromTarget(p) => p == d && cell.cube == own
  }

  /** Every reference a cube's rules can write lowers to copied slots that stand at their own
      position exactly when the cube's dimension names are distinct. Feeder inference relies on it. */
  lemma AlignedIffDistinct(cubes: seq<Cube>, own: nat)
    requires own < |cubes|
    ensures DistinctDims(cubes[own].dims)
            <==> forall ref :: LowerCell(cubes, own, ref).Done? ==>
              Aligned(cubes, own, LowerCell(cubes, own, ref).value)
  {
    var dims := cubes[own].dims;
    if DistinctDims(dims) {
      forall ref | LowerCell(cubes, own, ref).Done?
        ensures Aligned(cubes, own, LowerCell(cubes, own, ref).value)
      {
        LoweredAligned(cubes, own, ref);
      }
    } else {
      var i, j :| 0 <= i < j < |dims| && dims[i].name == dims[j].name;
      var plain := Reference(None, [], false);
      var addr := LowerSlots(cubes, own, own, plain, |dims|);
      assert addr.Done?;
      assert LowerSlot(cubes, own, own, plain, j) == Done(addr.value[j]);
      assert !Aligned(cubes, own, LowerCell(cubes, own, plain).value);
    }
  }

  lemma LoweredAligned(cubes: seq<Cube>, own: nat, ref: Reference)
    requires own < |cubes| && DistinctDims(cubes[own].dims) && LowerCell(cubes, own, ref).Done?
    ensures Aligned(cubes, own, LowerCell(cubes, own, ref).value)
  {
    var cell := LowerCell(cubes, own, ref).value;
    forall d | 0 <= d < |cell.addr|
      ensures match cell.addr[d]
              case Pinned(i) => i < |cubes[cell.cube].dims[d].elements|
              case FromTarget(p) => p == d && cell.cube == own
    {
      assert LowerSlot(cubes, own, cell.cube, ref, d) == Done(cell.addr[d]);
    }
  }

  // ---------------------------------------------------------------- formulas

  function LowerExpr(cubes: seq<Cube>, own: nat, f: Formula): Outcome<Expr>
    requires own < |cubes|
    decreases f
  {
    match f
    case Numeral(v) => if v.Some? then Done(Num(v.value)) else Failed(InvalidNumber)
    case Quoted(_) => Failed(Unsupported)
    case CellOf(ref) => var c :- LowerCell(cubes, own, ref); Done(Read(c))
    case Minus(a) => var x :- LowerExpr(cubes, own, a); Done(Neg(x))
    case Binary(op, a, b) =>
      var x :- LowerExpr(cubes, own, a);
      var y :- LowerExpr(cubes, own, b);
      Done(Bin(op, x, y))
    case Choice(c, t, o) =>
      var k :- LowerCond(cubes, own, c);
      var x :- LowerExpr(cubes, own, t);
      (match o
       case None => Done(If(k, x, None))
       case Some(e) => var y :- LowerExpr(cubes, own, e); Done(If(k, x, Some(y))))
    case Call(func, args) => LowerCall(cubes[own].dims, func, args)
  }

  function LowerCall(dims: seq<Dimension>, func: Builtin, args: seq<Argument>): Outcome<Expr> {
    match func
    case UndefFn => Done(Undef)
    case AttrNumber =>
      if !(|args| == 2 && args[0].StrArg? && args[1].StrArg?) then Failed(Unsupported)
      else
        (match DimPosition(dims, args[0].text)
         case None => Failed(UnknownDimension)
         case Some(d) =>
           match IndexOf(dims[d].attributes, args[1].text)
           case None => Failed(UnknownAttribute)
           case Some(a) => Done(AttrNum(d, a)))
    case _ => Failed(Unsupported)
  }

  function LowerCond(cubes: seq<Cube>, own: nat, c: Condition): Outcome<Cond>
    requires own < |cubes|
    decreases c
  {
    match c
    case Both(a, b) =>
      var x :- LowerCond(cubes, own, a);
      var y :- LowerCond(cubes, own, b);
      Done(And(x, y))
    case Either(a, b) =>
      var x :- LowerCond(cubes, own, a);
      var y :- LowerCond(cubes, own, b);
      Done(Or(x, y))
    case Negation(a) => var x :- LowerCond(cubes, own, a); Done(Not(x))
    case Comparison(a, op, b) =>
      var x :- LowerExpr(cubes, own, a);
      var y :- LowerExpr(cubes, own, b);
      Done(Cmp(x, op, y))
  }

  // ---------------------------------------------------------------- what compiles, by name

  /** The cube a reference means: the rule's own, or the first of the name. */
  ghost predicate RefersTo(cubes: seq<Cube>, own: nat, ref: Reference, o: nat) {
    match ref.cube
    case None => o == own
    case Some(name) => o < |cubes| && cubes[o].name == name && forall j :: 0 <= j < o ==> cubes[j].name != name
  }

  ghost predicate HasDim(dims: seq<Dimension>, name: string) {
    exists d :: 0 <= d < |dims| && dims[d].name == name
  }

  ghost predicate HasElement(dim: Dimension, name: string) {
    exists i :: 0 <= i < |dim.elements| && dim.elements[i].name == name
  }

  ghost predicate Overridden(ref: Reference, dimension: string) {
    exists k :: FirstFor(ref.overrides, dimension, k)
  }

  /** A dimension is pinned to a known member, or left open by a reference to the rule's own cube. */
  ghost predicate DimResolves(dim: Dimension, ref: Reference, sameCube: bool) {
    if Overridden(ref, dim.name)
    then exists k :: FirstFor(ref.overrides, dim.name, k) && ref.overrides[k].member.Named?
                     && HasElement(dim, ref.overrides[k].member.name)
    else sameCube
  }

  ghost predicate DimOffends(dim: Dimension, ref: Reference, sameCube: bool, e: CompileError) {
    if Overridden(ref, dim.name)
    then exists k :: FirstFor(ref.overrides, dim.name, k)
                     && if ref.overrides[k].member.Named?
                        then !HasElement(dim, ref.overrides[k].member.name) && e == UnknownMember
                        else e == Unsupported
    else !sameCube && e == Unsupported
  }

  ghost predicate OverridesFit(dims: seq<Dimension>, ref: Reference) {
    forall k :: 0 <= k < |ref.overrides| ==> HasDim(dims, ref.overrides[k].dimension)
  }

  /** Nothing mapped, a known cube, every override of a dimension of it, and no dimension open that
      the target cannot fill. */
  ghost predicate RefResolves(cubes: seq<Cube>, own: nat, ref: Reference)
    requires own < |cubes|
  {
    !ref.mapped && exists o: nat :: RefResolvesIn(cubes, own, ref, o)
  }

  ghost predicate RefResolvesIn(cubes: seq<Cube>, own: nat, ref: Reference, o: nat)
    requires own < |cubes|
  {
    && RefersTo(cubes, own, ref, o) && o < |cubes| && OverridesFit(cubes[o].dims, ref)
    && forall d :: 0 <= d < |cubes[o].dims| ==> DimResolves(cubes[o].dims[d], ref, o == own)
  }

  ghost predicate RefOffends(cubes: seq<Cube>, own: nat, ref: Reference, e: CompileError)
    requires own < |cubes|
  {
    if ref.mapped then e == Unsupported
    else if forall o: nat :: !RefersTo(cubes, own, ref, o) then e == CompileError.UnknownCube
    else exists o: nat :: RefOffendsIn(cubes, own, ref, o, e)
  }

  /** An override of no dimension of the cube, or the first dimension that does not resolve. */
  ghost predicate RefOffendsIn(cubes: seq<Cube>, own: nat, ref: Reference, o: nat, e: CompileError)
    requires own < |cubes|
  {
    && RefersTo(cubes, own, ref, o) && o < |cubes|
    && var dims, sameCube := cubes[o].dims, o == own;
       if !OverridesFit(dims, ref) then e == UnknownDimension
       else exists d: nat :: DimOffendsFirst(dims, ref, sameCube, d, e)
  }

  ghost predicate DimOffendsFirst(dims: seq<Dimension>, ref: Reference, sameCube: bool, d: nat, e: CompileError) {
    && d < |dims| && DimOffends(dims[d], ref, sameCube, e)
    && forall j :: 0 <= j < d ==> DimResolves(dims[j], ref, sameCube)
  }

  /** A formula compiles if its numbers parse, it quotes no text, and its references, attributes
      and functions resolve; any operator and any choice will do. */
  ghost predicate FormulaResolves(cubes: seq<Cube>, own: nat, f: Formula)
    requires own < |cubes|
    decreases f
  {
    match f
    case Numeral(v) => v.Some?
    case Quoted(_) => false
    case CellOf(ref) => RefResolves(cubes, own, ref)
    case Minus(a) => FormulaResolves(cubes, own, a)
    case Binary(_, a, b) => FormulaResolves(cubes, own, a) && FormulaResolves(cubes, own, b)
    case Choice(c, t, o) =>
      && ConditionResolves(cubes, own, c) && FormulaResolves(cubes, own, t)
      && (o.Some? ==> FormulaResolves(cubes, own, o.value))
    case Call(func, args) =>
      func == UndefFn || (func == AttrNumber && AsksAttribute(args) && AttributeKnown(cubes[own].dims, args))
  }

  ghost predicate ConditionResolves(cubes: seq<Cube>, own: nat, c: Condition)
    requires own < |cubes|
    decreases c
  {
    match c
    case Both(a, b) => ConditionResolves(cubes, own, a) && ConditionResolves(cubes, own, b)
    case Either(a, b) => ConditionResolves(cubes, own, a) && ConditionResolves(cubes, own, b)
    case Negation(a) => ConditionResolves(cubes, own, a)
    case Comparison(a, _, b) => FormulaResolves(cubes, own, a) && FormulaResolves(cubes, own, b)
  }

  /** Two texts: a dimension and an attribute of it. */
  ghost predicate AsksAttribute(args: seq<Argument>) {
    |args| == 2 && args[0].StrArg? && args[1].StrArg?
  }

  ghost predicate FirstDim(dims: seq<Dimension>, name: string, d: nat) {
    d < |dims| && dims[d].name == name && forall j :: 0 <= j < d ==> dims[j].name != name
  }

  ghost predicate AttributeKnown(dims: seq<Dimension>, args: seq<Argument>)
    requires AsksAttribute(args)
  {
    exists d: nat :: FirstDim(dims, args[0].text, d) && args[1].text in dims[d].attributes
  }

  /** Why a formula does not compile: the first offence, from left to right. */
  ghost predicate Offends(cubes: seq<Cube>, own: nat, f: Formula, e: CompileError)
    requires own < |cubes|
    decreases f
  {
    match f
    case Numeral(v) => v.None? && e == InvalidNumber
    case Quoted(_) => e == Unsupported
    case CellOf(ref) => RefOffends(cubes, own, ref, e) && !RefResolves(cubes, own, ref)
    case Minus(a) => Offends(cubes, own, a, e)
    case Binary(_, a, b) =>
      Offends(cubes, own, a, e) || (FormulaResolves(cubes, own, a) && Offends(cubes, own, b, e))
    case Choice(c, t, o) =>
      || ConditionOffends(cubes, own, c, e)
      || (ConditionResolves(cubes, own, c) && Offends(cubes, own, t, e))
      || (ConditionResolves(cubes, own, c) && FormulaResolves(cubes, own, t) && o.Some?
          && Offends(cubes, own, o.value, e))
    case Call(func, args) => CallOffends(cubes[own].dims, func, args, e)
  }

  ghost predicate ConditionOffends(cubes: seq<Cube>, own: nat, c: Condition, e: CompileError)
    requires own < |cubes|
    decreases c
  {
    match c
    case Both(a, b) =>
      ConditionOffends(cubes, own, a, e) || (ConditionResolves(cubes, own, a) && ConditionOffends(cubes, own, b, e))
    case Either(a, b) =>
      ConditionOffends(cubes, own, a, e) || (ConditionResolves(cubes, own, a) && ConditionOffends(cubes, own, b, e))
    case Negation(a) => ConditionOffends(cubes, own, a, e)
    case Comparison(a, _, b) =>
      Offends(cubes, own, a, e) || (FormulaResolves(cubes, own, a) && Offends(cubes, own, b, e))
  }

  ghost predicate CallOffends(dims: seq<Dimension>, func: Builtin, args: seq<Argument>, e: CompileError) {
    match func
    case UndefFn => false
    case AttrNumber =>
      if !AsksAttribute(args) then e == Unsupported
      else if !HasDim(dims, args[0].text) then e == UnknownDimension
      else !AttributeKnown(dims, args) && e == UnknownAttribute
    case _ => e == Unsupported
  }

  lemma SlotResolves(cubes: seq<Cube>, own: nat, o: nat, ref: Reference, d: nat)
    requires own < |cubes| && o < |cubes| && d < |cubes[o].dims|
    ensures LowerSlot(cubes, own, o, ref, d).Done? <==> DimResolves(cubes[o].dims[d], ref, o == own)
    ensures forall e :: LowerSlot(cubes, own, o, ref, d) == Failed(e) <==>
              DimOffends(cubes[o].dims[d], ref, o == own, e)
  {
    var dim := cubes[o].dims[d];
    forall j, k | FirstFor(ref.overrides, dim.name, j) && FirstFor(ref.overrides, dim.name, k)
      ensures j == k
    {}
    match FirstOverride(ref.overrides, dim.name)
    case Some(Named(m)) =>
    case Some(ByAttribute(_)) =>
    case None => if o == own { assert DimPosition(cubes[own].dims, dim.name).Some?; }
  }

  lemma {:induction false} SlotsResolve(cubes: seq<Cube>, own: nat, o: nat, ref: Reference, n: nat)
    requires own < |cubes| && o < |cubes| && n <= |cubes[o].dims|
    ensures LowerSlots(cubes, own, o, ref, n).Done? <==>
              forall d :: 0 <= d < n ==> DimResolves(cubes[o].dims[d], ref, o == own)
    ensures var dims, sameCube := cubes[o].dims, o == own;
            forall e :: LowerSlots(cubes, own, o, ref, n) == Failed(e) <==>
                        exists d: nat :: d < n && DimOffendsFirst(dims, ref, sameCube, d, e)
  {
    hide LowerSlot, DimResolves, DimOffends;
    if n > 0 {
      SlotsResolve(cubes, own, o, ref, n - 1);
      SlotResolves(cubes, own, o, ref, n - 1);
      var dims, sameCube := cubes[o].dims, o == own;
      forall e | LowerSlots(cubes, own, o, ref, n) == Failed(e)
        ensures exists d: nat :: d < n && DimOffendsFirst(dims, ref, sameCube, d, e)
      {
        if LowerSlots(cubes, own, o, ref, n - 1).Done? { assert DimOffendsFirst(dims, ref, sameCube, n - 1, e); }
      }
    }
  }

  lemma RefLowers(cubes: seq<Cube>, own: nat, ref: Reference)
    requires own < |cubes|
    ensures LowerCell(cubes, own, ref).Done? <==> RefResolves(cubes, own, ref)
    ensures forall e :: LowerCell(cubes, own, ref) == Failed(e) <==>
              RefOffends(cubes, own, ref, e) && !RefResolves(cubes, own, ref)
  {
    hide LowerSlots, DimResolves, DimOffends;
    OneReferred(cubes, own, ref);
    var r := ReferencedCube(cubes, own, ref);
    if !ref.mapped && r.Done? {
      var o := r.value;
      KnownIffFit(cubes[o].dims, ref);
      SlotsResolve(cubes, own, o, ref, |cubes[o].dims|);
      assert RefersTo(cubes, own, ref, o);
      assert LowerCell(cubes, own, ref).Done? <==> RefResolvesIn(cubes, own, ref, o);
      forall e | LowerCell(cubes, own, ref) == Failed(e)
        ensures RefOffendsIn(cubes, own, ref, o, e)
      {}
    }
  }

  lemma OneReferred(cubes: seq<Cube>, own: nat, ref: Reference)
    requires own < |cubes|
    ensures forall o: nat :: RefersTo(cubes, own, ref, o) <==> ReferencedCube(cubes, own, ref) == Done(o)
    ensures ReferencedCube(cubes, own, ref).Done? ==> ReferencedCube(cubes, own, ref).value < |cubes|
    ensures ReferencedCube(cubes, own, ref).Failed? ==>
              ReferencedCube(cubes, own, ref).error == CompileError.UnknownCube
  {}

  lemma KnownIffFit(dims: seq<Dimension>, ref: Reference)
    ensures OverridesKnown(dims, ref.overrides) <==> OverridesFit(dims, ref)
  {}

  lemma CallLowers(dims: seq<Dimension>, func: Builtin, args: seq<Argument>)
    ensures LowerCall(dims, func, args).Done? <==>
              func == UndefFn || (func == AttrNumber && AsksAttribute(args) && AttributeKnown(dims, args))
    ensures forall e :: LowerCall(dims, func, args) == Failed(e) <==> CallOffends(dims, func, args, e)
  {
    if func == AttrNumber && AsksAttribute(args) {
      var p := DimPosition(dims, args[0].text);
      if p.Some? { assert FirstDim(dims, args[0].text, p.value); }
    }
  }

  /** A formula compiles exactly when everything it names resolves; when it does not, it is refused
      for its first offence. */
  lemma {:induction false} FormulaLowers(cubes: seq<Cube>, own: nat, f: Formula)
    requires own < |cubes|
    ensures LowerExpr(cubes, own, f).Done? <==> FormulaResolves(cubes, own, f)
    ensures forall e :: LowerExpr(cubes, own, f) == Failed(e) <==> Offends(cubes, own, f, e)
    decreases f
  {
    hide LowerCell, LowerCall, RefResolves, RefOffends, CallOffends, AttributeKnown;
    match f
    case Numeral(_) =>
    case Quoted(_) =>
    case CellOf(ref) => RefLowers(cubes, own, ref);
    case Minus(a) => FormulaLowers(cubes, own, a);
    case Binary(_, a, b) =>
      FormulaLowers(cubes, own, a);
      FormulaLowers(cubes, own, b);
    case Choice(c, t, o) =>
      ConditionLowers(cubes, own, c);
      FormulaLowers(cubes, own, t);
      if o.Some? { FormulaLowers(cubes, own, o.value); }
    case Call(func, args) => CallLowers(cubes[own].dims, func, args);
  }

  lemma {:induction false} ConditionLowers(cubes: seq<Cube>, own: nat, c: Condition)
    requires own < |cubes|
    ensures LowerCond(cubes, own, c).Done? <==> ConditionResolves(cubes, own, c)
    ensures forall e :: LowerCond(cubes, own, c) == Failed(e) <==> ConditionOffends(cubes, own, c, e)
    decreases c
  {
    match c
    case Both(a, b) =>
      ConditionLowers(cubes, own, a);
      ConditionLowers(cubes, own, b);
    case Either(a, b) =>
      ConditionLowers(cubes, own, a);
      ConditionLowers(cubes, own, b);
    case Negation(a) => ConditionLowers(cubes, own, a);
    case Comparison(a, _, b) =>
      FormulaLowers(cubes, own, a);
      FormulaLowers(cubes, own, b);
  }

  // ---------------------------------------------------------------- meaning is preserved

  ghost predicate SameCubes(cubes: seq<Cube>, entries: seq<Entry>) {
    |cubes| == |entries| && forall o :: 0 <= o < |cubes| ==> entries[o].cube == cubes[o]
  }

  /** The two readers give every cell, by index and by name, the same answer. */
  ghost predicate SameCells(rd: Reader, named: NamedReader, cubes: seq<Cube>)
    requires WellNamed(cubes)
  {
    forall o, c :: 0 <= o < |cubes| && InRange(cubes[o].dims, c) ==>
      rd(Cell(o, c)) == named(cubes[o].name, NamesOf(cubes[o].dims, c))
  }

  /** A lowered reference addresses the very cell the written one names. */
  lemma LoweredAddress(cubes: seq<Cube>, own: nat, ref: Reference, target: Coord)
    requires own < |cubes| && WellNamed(cubes) && InRange(cubes[own].dims, target)
    requires LowerCell(cubes, own, ref).Done?
    ensures var cell := LowerCell(cubes, own, ref).value;
            && Aligned(cubes, own, cell) && RefInTarget(cell, target)
            && InRange(cubes[cell.cube].dims, Resolve(cell, target))
            && NamesOf(cubes[cell.cube].dims, Resolve(cell, target)) ==
               NamedAddress(cubes[cell.cube].dims, ref, NamesOf(cubes[own].dims, target))
  {
    hide LowerSlot, NamedAddress, NamesOf, NamedMember, DistinctElements;
    LoweredAligned(cubes, own, ref);
    var cell := LowerCell(cubes, own, ref).value;
    var dims, t := cubes[cell.cube].dims, NamesOf(cubes[own].dims, target);
    var c := Resolve(cell, target);
    forall d | 0 <= d < |dims|
      ensures c[d] < |dims[d].elements|
      ensures NamedMember(dims[d].name, ref, t) == Some(dims[d].elements[c[d]].name)
    {
      SlotNames(cubes, own, cell.cube, ref, d, target);
    }
    AddressByMembers(dims, c, ref, t);
  }

  lemma SlotNames(cubes: seq<Cube>, own: nat, o: nat, ref: Reference, d: nat, target: Coord)
    requires own < |cubes| && o < |cubes| && d < |cubes[o].dims| && DistinctDims(cubes[own].dims)
    requires InRange(cubes[own].dims, target) && LowerSlot(cubes, own, o, ref, d).Done?
    ensures var slot, dim := LowerSlot(cubes, own, o, ref, d).value, cubes[o].dims[d];
            match slot
            case Pinned(i) =>
              && i < |dim.elements|
              && NamedMember(dim.name, ref, NamesOf(cubes[own].dims, target)) == Some(dim.elements[i].name)
            case FromTarget(p) =>
              p == d && o == own
              && NamedMember(dim.name, ref, NamesOf(cubes[own].dims, target)) == Some(dim.elements[target[d]].name)
  {}

  lemma AddressByMembers(dims: seq<Dimension>, c: Coord, ref: Reference, t: NamedCoord)
    requires DistinctDims(dims) && InRange(dims, c)
    requires forall d :: 0 <= d < |dims| ==> NamedMember(dims[d].name, ref, t) == Some(dims[d].elements[c[d]].name)
    ensures NamesOf(dims, c) == NamedAddress(dims, ref, t)
  {
    hide NamedMember;
  }

  lemma LoweredAttribute(dims: seq<Dimension>, args: seq<Argument>, target: Coord)
    requires DistinctDims(dims) && (forall d :: 0 <= d < |dims| ==> DistinctElements(dims[d])) && InRange(dims, target)
    requires LowerCall(dims, AttrNumber, args).Done?
    ensures var e := LowerCall(dims, AttrNumber, args).value;
            e.AttrNum? && e.dim < |dims|
            && NumericAttribute(dims[e.dim], target[e.dim], e.attr) ==
               NamedAttribute(dims, args[0].text, args[1].text, NamesOf(dims, target))
  {
    var d := LowerCall(dims, AttrNumber, args).value.dim;
    LookupIsTheOne(dims[d], dims[d].elements[target[d]].name, target[d]);
    assert NamesOf(dims, target)[dims[d].name] == dims[d].elements[target[d]].name;
  }

  /** Lowering a formula preserves its value at every target, whatever the cells it reads are
      worth, errors included. */
  lemma {:induction false} LoweringKeepsMeaning(rd: Reader, named: NamedReader, cubes: seq<Cube>, entries: seq<Entry>,
                                                own: nat, target: Coord, f: Formula)
    requires own < |cubes| && WellNamed(cubes) && SameCubes(cubes, entries) && InRange(cubes[own].dims, target)
    requires SameCells(rd, named, cubes) && LowerExpr(cubes, own, f).Done?
    ensures ExprOk(LowerExpr(cubes, own, f).value, own, entries)
    ensures RunExpr(rd, entries, own, target, LowerExpr(cubes, own, f).value).res ==
            Meaning(named, cubes, own, NamesOf(cubes[own].dims, target), f)
    decreases f
  {
    hide SameCells, LowerCell, LowerCall, NamedAddress, NamesOf, Aligned;
    match f
    case Numeral(_) =>
    case Quoted(_) =>
    case CellOf(ref) =>
      LoweredAddress(cubes, own, ref, target);
      CubeIsNamed(cubes, own, ref);
      SameCell(rd, named, cubes, entries, own, ref, target);
    case Minus(a) => LoweringKeepsMeaning(rd, named, cubes, entries, own, target, a);
    case Binary(_, a, b) =>
      LoweringKeepsMeaning(rd, named, cubes, entries, own, target, a);
      LoweringKeepsMeaning(rd, named, cubes, entries, own, target, b);
    case Choice(c, t, o) =>
      ConditionKeepsMeaning(rd, named, cubes, entries, own, target, c);
      LoweringKeepsMeaning(rd, named, cubes, entries, own, target, t);
      if o.Some? { LoweringKeepsMeaning(rd, named, cubes, entries, own, target, o.value); }
    case Call(func, args) =>
      CallKeepsMeaning(rd, named, cubes, entries, own, target, func, args);
  }

  lemma {:induction false} ConditionKeepsMeaning(rd: Reader, named: NamedReader, cubes: seq<Cube>,
                                                 entries: seq<Entry>, own: nat, target: Coord, c: Condition)
    requires own < |cubes| && WellNamed(cubes) && SameCubes(cubes, entries) && InRange(cubes[own].dims, target)
    requires SameCells(rd, named, cubes) && LowerCond(cubes, own, c).Done?
    ensures CondOk(LowerCond(cubes, own, c).value, own, entries)
    ensures RunCond(rd, entries, own, target, LowerCond(cubes, own, c).value).res ==
            Holds(named, cubes, own, NamesOf(cubes[own].dims, target), c)
    decreases c
  {
    hide SameCells, LowerCell, NamesOf;
    match c
    case Both(a, b) =>
      ConditionKeepsMeaning(rd, named, cubes, entries, own, target, a);
      ConditionKeepsMeaning(rd, named, cubes, entries, own, target, b);
    case Either(a, b) =>
      ConditionKeepsMeaning(rd, named, cubes, entries, own, target, a);
      ConditionKeepsMeaning(rd, named, cubes, entries, own, target, b);
    case Negation(a) => ConditionKeepsMeaning(rd, named, cubes, entries, own, target, a);
    case Comparison(a, _, b) =>
      LoweringKeepsMeaning(rd, named, cubes, entries, own, target, a);
      LoweringKeepsMeaning(rd, named, cubes, entries, own, target, b);
  }

  lemma CubeIsNamed(cubes: seq<Cube>, own: nat, ref: Reference)
    requires own < |cubes| && LowerCell(cubes, own, ref).Done?
    ensures ReferencedCube(cubes, own, ref) == Done(LowerCell(cubes, own, ref).value.cube)
  {}

  lemma SameCell(rd: Reader, named: NamedReader, cubes: seq<Cube>, entries: seq<Entry>, own: nat, ref: Reference,
                 target: Coord)
    requires own < |cubes| && WellNamed(cubes) && SameCubes(cubes, entries) && InRange(cubes[own].dims, target)
    requires SameCells(rd, named, cubes) && LowerCell(cubes, own, ref).Done?
    ensures RefOk(LowerCell(cubes, own, ref).value, own, entries)
    ensures var cell := LowerCell(cubes, own, ref).value;
            RefInTarget(cell, target) && cell.cube < |cubes|
            && rd(Cell(cell.cube, Resolve(cell, target))) ==
               named(cubes[cell.cube].name, NamedAddress(cubes[cell.cube].dims, ref, NamesOf(cubes[own].dims, target)))
  {
    hide LowerCell, NamedAddress, NamesOf;
    LoweredAddress(cubes, own, ref, target);
    var cell := LowerCell(cubes, own, ref).value;
    forall d | 0 <= d < |cell.addr|
      ensures match cell.addr[d]
              case Pinned(i) => i < |entries[cell.cube].cube.dims[d].elements|
              case FromTarget(p) => p == d && cell.cube == own
    {}
  }

  lemma CallKeepsMeaning(rd: Reader, named: NamedReader, cubes: seq<Cube>, entries: seq<Entry>, own: nat, target: Coord,
                         func: Builtin, args: seq<Argument>)
    requires own < |cubes| && WellNamed(cubes) && SameCubes(cubes, entries) && InRange(cubes[own].dims, target)
    requires LowerCall(cubes[own].dims, func, args).Done?
    ensures ExprOk(LowerCall(cubes[own].dims, func, args).value, own, entries)
    ensures RunExpr(rd, entries, own, target, LowerCall(cubes[own].dims, func, args).value).res ==
            Meaning(named, cubes, own, NamesOf(cubes[own].dims, target), Call(func, args))
  {
    hide NamesOf, NamedAttribute;
    if func == AttrNumber {
      LoweredAttribute(cubes[own].dims, args, target);
    }
  }

  // ---------------------------------------------------------------- whole documents

  /** A written rule and a compiled one mean the same: the same coordinates, the same value. */
  ghost predicate SameRule(cubes: seq<Cube>, entries: seq<Entry>, own: nat, source: SourceRule, rule: Rule)
    requires own < |cubes| && WellNamed(cubes) && SameCubes(cubes, entries)
  {
    && AreaOk(rule.area, cubes[own].dims)
    && (forall c :: Matches(rule.area, cubes[own].dims, c) <==> AreaHolds(cubes[own].dims, source.area, c))
    && LowerExpr(cubes, own, source.formula) == Done(rule.expr)
    && ExprOk(rule.expr, own, entries)
  }

  ghost predicate RuleResolves(cubes: seq<Cube>, own: nat, rule: SourceRule)
    requires own < |cubes|
  {
    AreaResolves(cubes[own].dims, rule.area.selectors) && FormulaResolves(cubes, own, rule.formula)
  }

  /** The rule's area is looked at before its formula. */
  ghost predicate RuleOffends(cubes: seq<Cube>, own: nat, rule: SourceRule, e: CompileError)
    requires own < |cubes|
  {
    || AreaOffends(cubes[own].dims, rule.area.selectors, e)
    || (AreaResolves(cubes[own].dims, rule.area.selectors) && Offends(cubes, own, rule.formula, e))
  }

  /** Rule `k` is the first that does not compile, and why. */
  ghost predicate StopsAt(cubes: seq<Cube>, own: nat, doc: seq<SourceRule>, k: nat, e: CompileError)
    requires own < |cubes|
  {
    && k < |doc| && RuleOffends(cubes, own, doc[k], e)
    && forall j :: 0 <= j < k ==> RuleResolves(cubes, own, doc[j])
  }

  /** Compiling a document lowers every rule, in author order, or fails with the first offence of the
      first rule that has one. */
  method Compile(cubes: seq<Cube>, ghost entries: seq<Entry>, own: nat, doc: seq<SourceRule>)
    returns (r: Outcome<seq<Rule>>)
    requires own < |cubes| && WellNamed(cubes) && SameCubes(cubes, entries)
    requires forall o :: 0 <= o < |cubes| ==> CubeOk(cubes[o])
    ensures r.Done? <==> forall k :: 0 <= k < |doc| ==> RuleResolves(cubes, own, doc[k])
    ensures r.Failed? ==> exists k :: StopsAt(cubes, own, doc, k, r.error)
    ensures r.Done? ==> |r.value| == |doc|
    ensures r.Done? ==> forall k :: 0 <= k < |doc| ==> SameRule(cubes, entries, own, doc[k], r.value[k])
  {
    hide DimensionOk, LowerExpr, AreaHolds, Matches, AreaOk, ExprOk, AreaResolves, FormulaResolves, Offends,
      AreaOffends;
    var rules: seq<Rule> := [];
    assert CubeOk(cubes[own]);
    for k := 0 to |doc|
      invariant |rules| == k
      invariant forall j :: 0 <= j < k ==> SameRule(cubes, entries, own, doc[j], rules[j])
      invariant forall j :: 0 <= j < k ==> RuleResolves(cubes, own, doc[j])
    {
      var area := CompileArea(cubes[own].dims, doc[k].area);
      if area.Failed? {
        assert StopsAt(cubes, own, doc, k, area.error);
        return Failed(area.error);
      }
      FormulaLowers(cubes, own, doc[k].formula);
      var expr := LowerExpr(cubes, own, doc[k].formula);
      if expr.Failed? {
        assert StopsAt(cubes, own, doc, k, expr.error);
        return Failed(expr.error);
      }
      LoweredOk(cubes, entries, own, doc[k].formula);
      rules := rules + [Rule(area.value, expr.value)];
    }
    r := Done(rules);
  }

  lemma {:induction false} LoweredOk(cubes: seq<Cube>, entries: seq<Entry>, own: nat, f: Formula)
    requires own < |cubes| && WellNamed(cubes) && SameCubes(cubes, entries) && LowerExpr(cubes, own, f).Done?
    ensures ExprOk(LowerExpr(cubes, own, f).value, own, entries)
    decreases f
  {
    match f
    case Numeral(_) =>
    case Quoted(_) =>
    case CellOf(ref) => LoweredAligned(cubes, own, ref);
    case Minus(a) => LoweredOk(cubes, entries, own, a);
    case Binary(_, a, b) =>
      LoweredOk(cubes, entries, own, a);
      LoweredOk(cubes, entries, own, b);
    case Choice(c, t, o) =>
      LoweredCondOk(cubes, entries, own, c);
      LoweredOk(cubes, entries, own, t);
      if o.Some? { LoweredOk(cubes, entries, own, o.value); }
    case Call(_, _) =>
  }

  lemma {:induction false} LoweredCondOk(cubes: seq<Cube>, entries: seq<Entry>, own: nat, c: Condition)
    requires own < |cubes| && WellNamed(cubes) && SameCubes(cubes, entries) && LowerCond(cubes, own, c).Done?
    ensures CondOk(LowerCond(cubes, own, c).value, own, entries)
    decreases c
  {
    match c
    case Both(a, b) =>
      LoweredCondOk(cubes, entries, own, a);
      LoweredCondOk(cubes, entries, own, b);
    case Either(a, b) =>
      LoweredCondOk(cubes, entries, own, a);
      LoweredCondOk(cubes, entries, own, b);
    case Negation(a) => LoweredCondOk(cubes, entries, own, a);
    case Comparison(a, _, b) =>
      LoweredOk(cubes, entries, own, a);
      LoweredOk(cubes, entries, own, b);
  }

  /** Whether rule `k` is the first, in author order, whose area holds the coordinate by name. */
  ghost predicate FirstByName(dims: seq<Dimension>, doc: seq<SourceRule>, c: Coord, k: nat) {
    k < |doc| && AreaHolds(dims, doc[k].area, c) && forall j :: 0 <= j < k ==> !AreaHolds(dims, doc[j].area, c)
  }

  /** The rule that fires at a coordinate, and the value it gives, are those of the document
      read by name. */
  lemma CompiledRuleMeans(rd: Reader, named: NamedReader, cubes: seq<Cube>, entries: seq<Entry>, own: nat,
                          doc: seq<SourceRule>, rules: seq<Rule>, target: Coord)
    requires own < |cubes| && WellNamed(cubes) && SameCubes(cubes, entries) && |rules| == |doc|
    requires forall k :: 0 <= k < |doc| ==> SameRule(cubes, entries, own, doc[k], rules[k])
    requires InRange(cubes[own].dims, target) && SameCells(rd, named, cubes)
    ensures var m := FirstMatch(rules, cubes[own].dims, target);
            && (m.None? <==> forall k :: 0 <= k < |doc| ==> !AreaHolds(cubes[own].dims, doc[k].area, target))
            && (m.Some? ==>
                 FirstByName(cubes[own].dims, doc, target, m.value)
                 && ExprOk(rules[m.value].expr, own, entries)
                 && RunExpr(rd, entries, own, target, rules[m.value].expr).res ==
                    Meaning(named, cubes, own, NamesOf(cubes[own].dims, target), doc[m.value].formula))
  {
    hide Matches, AreaHolds, LowerExpr, RunExpr, ExprOk, Meaning, NamesOf, SameCells, AreaOk;
    var dims := cubes[own].dims;
    forall k | 0 <= k < |doc|
      ensures Matches(rules[k].area, dims, target) <==> AreaHolds(dims, doc[k].area, target)
    {
      assert SameRule(cubes, entries, own, doc[k], rules[k]);
    }
    var m := FirstMatch(rules, dims, target);
    if m.Some? {
      assert SameRule(cubes, entries, own, doc[m.value], rules[m.value]);
      LoweringKeepsMeaning(rd, named, cubes, entries, own, target, doc[m.value].formula);
    }
  }
}
