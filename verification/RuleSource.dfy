/** The rules language as its authors write it, by name, and what it means by name. */
module RuleSource {
  import opened FixedPoint
  import opened CubeModel
  import opened Semantics

  // ---------------------------------------------------------------- syntax

  datatype Literal = Text(text: string) | Number(parsed: Option<Fixed>)

  datatype SelectorKind =
    | Element(name: string)
    | AttrPredicate(attribute: string, op: CmpOp, value: Literal)
    | Children(parent: string)
    | Descendants(root: string)
    | Leaves
    | Consolidated
    | All

  datatype DimSelector = DimSelector(dimension: string, kind: SelectorKind)

  datatype Scope = Unmarked | N | C

  datatype SourceArea = SourceArea(scope: Scope, selectors: seq<DimSelector>)

  datatype Member = Named(name: string) | ByAttribute(attribute: string)

  datatype Override = Override(dimension: string, member: Member)

  datatype Reference = Reference(cube: Option<string>, overrides: seq<Override>, mapped: bool)

  datatype Builtin = Attr | AttrNumber | IsLeafFn | ElementName | UndefFn

  datatype Argument = StrArg(text: string) | ExprArg(arg: Formula)

  /** A number is kept as what its text parses to, nothing when it does not. */
  datatype Formula =
    | Numeral(parsed: Option<Fixed>)
    | Quoted(text: string)
    | CellOf(ref: Reference)
    | Minus(arg: Formula)
    | Binary(op: ArithOp, left: Formula, right: Formula)
    | Choice(cond: Condition, thn: Formula, els: Option<Formula>)
    | Call(func: Builtin, args: seq<Argument>)

  datatype Condition =
    | Both(left: Condition, right: Condition)
    | Either(left: Condition, right: Condition)
    | Negation(arg: Condition)
    | Comparison(a: Formula, op: CmpOp, b: Formula)

  datatype SourceRule = SourceRule(area: SourceArea, formula: Formula)

  // ---------------------------------------------------------------- names

  function DimPosition(dims: seq<Dimension>, name: string): (r: Option<nat>)
    ensures r.Some? ==> r.value < |dims| && dims[r.value].name == name
    ensures r.Some? ==> forall d :: 0 <= d < r.value ==> dims[d].name != name
    ensures r.None? ==> forall d :: 0 <= d < |dims| ==> dims[d].name != name
  {
    if dims == [] then None
    else if dims[0].name == name then Some(0)
    else match DimPosition(dims[1..], name)
         case None => None
         case Some(d) => Some(d + 1)
  }

  function IndexOf(names: seq<string>, name: string): (r: Option<nat>)
    ensures r.Some? ==> r.value < |names| && names[r.value] == name
    ensures r.Some? ==> forall i :: 0 <= i < r.value ==> names[i] != name
    ensures r.None? ==> name !in names
  {
    if names == [] then None
    else if names[0] == name then Some(0)
    else match IndexOf(names[1..], name)
         case None => None
         case Some(i) => Some(i + 1)
  }

  function ElementNames(dim: Dimension): (r: seq<string>)
    ensures |r| == |dim.elements| && forall i :: 0 <= i < |r| ==> r[i] == dim.elements[i].name
  {
    seq(|dim.elements|, i requires 0 <= i < |dim.elements| => dim.elements[i].name)
  }

  /** The element of a dimension with a given name. */
  function Lookup(dim: Dimension, name: string): (r: Option<nat>)
    ensures r.Some? ==> r.value < |dim.elements| && dim.elements[r.value].name == name
    ensures r.Some? ==> forall i :: 0 <= i < r.value ==> dim.elements[i].name != name
    ensures r.None? ==> forall i :: 0 <= i < |dim.elements| ==> dim.elements[i].name != name
  {
    var names := ElementNames(dim);
    assert forall i :: 0 <= i < |names| ==> names[i] in names;
    IndexOf(names, name)
  }

  function CubeNames(cubes: seq<Cube>): (r: seq<string>)
    ensures |r| == |cubes| && forall o :: 0 <= o < |r| ==> r[o] == cubes[o].name
  {
    seq(|cubes|, o requires 0 <= o < |cubes| => cubes[o].name)
  }

  function Ordinal(cubes: seq<Cube>, name: string): (r: Option<nat>)
    ensures r.Some? ==> r.value < |cubes| && cubes[r.value].name == name
    ensures r.Some? ==> forall o :: 0 <= o < r.value ==> cubes[o].name != name
    ensures r.None? ==> forall o :: 0 <= o < |cubes| ==> cubes[o].name != name
  {
    var names := CubeNames(cubes);
    assert forall o :: 0 <= o < |names| ==> names[o] in names;
    IndexOf(names, name)
  }

  ghost predicate DistinctDims(dims: seq<Dimension>) {
    forall i, j :: 0 <= i < j < |dims| ==> dims[i].name != dims[j].name
  }

  ghost predicate DistinctElements(dim: Dimension) {
    forall i, j :: 0 <= i < j < |dim.elements| ==> dim.elements[i].name != dim.elements[j].name
  }

  /** Element names are unique in every dimension, and dimension names in every cube. */
  ghost predicate WellNamed(cubes: seq<Cube>) {
    forall o :: 0 <= o < |cubes| ==>
      DistinctDims(cubes[o].dims) && forall d :: 0 <= d < |cubes[o].dims| ==> DistinctElements(cubes[o].dims[d])
  }

  // ---------------------------------------------------------------- areas by name

  /** `path` descends the hierarchy one edge at a time. */
  ghost predicate Descends(dim: Dimension, path: seq<nat>) {
    |path| > 0 && forall k :: 0 <= k < |path| - 1 ==> Edge(path[k], path[k + 1]) in dim.edges
  }

  /** `to` is `from` or lies below it. */
  ghost predicate Reaches(dim: Dimension, from: nat, to: nat) {
    exists path :: Descends(dim, path) && path[0] == from && path[|path| - 1] == to
  }

  predicate TextLess(a: string, b: string) {
    b != [] && (a == [] || a[0] < b[0] || (a[0] == b[0] && TextLess(a[1..], b[1..])))
  }

  predicate CompareText(a: string, b: string, op: CmpOp) {
    match op
    case Eq => a == b
    case Ne => a != b
    case Lt => TextLess(a, b)
    case Le => a == b || TextLess(a, b)
    case Gt => TextLess(b, a)
    case Ge => a == b || TextLess(b, a)
  }

  /** `a` and `b` agree up to some place, where `a` ends or has the smaller character. */
  ghost predicate Precedes(a: string, b: string, k: nat) {
    && k <= |a| && k < |b| && a[..k] == b[..k] && (k < |a| ==> a[k] < b[k])
  }

  lemma SameHead(a: string, b: string, k: nat)
    requires Precedes(a, b, k)
    ensures k > 0 ==> a[0] == b[0]
  {
    if k > 0 { assert a[..k][0] == b[..k][0]; }
  }

  /** Texts are compared as words in a dictionary are. */
  lemma {:induction false} TextLessIsLexicographic(a: string, b: string)
    ensures TextLess(a, b) <==> exists k :: Precedes(a, b, k)
  {
    if a == [] || b == [] || a[0] != b[0] {
      if TextLess(a, b) { assert Precedes(a, b, 0); }
      if k: nat :| Precedes(a, b, k) { SameHead(a, b, k); }
    } else {
      TextLessIsLexicographic(a[1..], b[1..]);
      if k: nat :| Precedes(a[1..], b[1..], k) {
        assert a[..k + 1] == [a[0]] + a[1..][..k] && b[..k + 1] == [b[0]] + b[1..][..k];
        assert Precedes(a, b, k + 1);
      }
      if k: nat :| Precedes(a, b, k) {
        SameHead(a, b, k);
        assert a[1..][..k - 1] == a[..k][1..] && b[1..][..k - 1] == b[..k][1..];
        assert Precedes(a[1..], b[1..], k - 1);
      }
    }
  }

  /** Text comparisons are the six comparisons of that order. */
  lemma CompareTextIsSign(a: string, b: string, op: CmpOp)
    ensures CompareText(a, b, op) <==> TextSign(a, b) in Accepts(op)
  {
    TextOrder(a, b);
    TextOrder(a, a);
  }

  lemma {:induction false} TextOrder(a: string, b: string)
    ensures !(TextLess(a, b) && TextLess(b, a)) && !TextLess(a, a)
    ensures TextLess(a, b) || TextLess(b, a) || a == b
  {
    if a != [] && b != [] {
      TextOrder(a[1..], b[1..]);
      TextOrder(a[1..], a[1..]);
      assert a == [a[0]] + a[1..] && b == [b[0]] + b[1..];
    } else if a != [] {
      TextOrder(a[1..], a[1..]);
    }
  }

  /** A missing attribute or one of the other type never compares. */
  predicate AttributeCompares(dim: Dimension, i: nat, attr: nat, op: CmpOp, value: Literal) {
    && (i, attr) in dim.attributeValues
    && match (dim.attributeValues[(i, attr)], value)
       case (Text(s), Text(v)) => CompareText(s, v, op)
       case (Numeric(f), Number(Some(v))) => Compare(f, v, op)
       case _ => false
  }

  function TextSign(a: string, b: string): int {
    if TextLess(a, b) then -1 else if a == b then 0 else 1
  }

  /** The attribute's own value stands on the left of the comparison, the literal on the right. */
  lemma AttributeComparesIs(dim: Dimension, i: nat, attr: nat, op: CmpOp, value: Literal)
    ensures AttributeCompares(dim, i, attr, op, value) <==>
              && (i, attr) in dim.attributeValues
              && var held := dim.attributeValues[(i, attr)];
                 || (held.Text? && value.Text? && TextSign(held.text, value.text) in Accepts(op))
                 || (held.Numeric? && value.Number? && value.parsed.Some?
                     && Sign(held.number - value.parsed.value) in Accepts(op))
  {
    if (i, attr) in dim.attributeValues {
      var held := dim.attributeValues[(i, attr)];
      if held.Text? && value.Text? { CompareTextIsSign(held.text, value.text, op); }
    }
  }

  /** Whether element `i` is among those a selector names. */
  ghost predicate Selects(dim: Dimension, kind: SelectorKind, i: nat) {
    && i < |dim.elements|
    && match kind
       case Element(name) => dim.elements[i].name == name
       case All => true
       case Leaves => dim.elements[i].kind == Leaf
       case Consolidated => dim.elements[i].kind != Leaf
       case Children(parent) =>
         exists p: nat :: p < |dim.elements| && dim.elements[p].name == parent && Edge(p, i) in dim.edges
       case Descendants(root) =>
         exists r: nat :: r < |dim.elements| && dim.elements[r].name == root && Reaches(dim, r, i)
       case AttrPredicate(attribute, op, value) =>
         exists a: nat :: IndexOf(dim.attributes, attribute) == Some(a) && AttributeCompares(dim, i, a, op, value)
  }

  /** The last selector written for a dimension is the one that counts. */
  function LastSelector(selectors: seq<DimSelector>, dimension: string): (r: Option<SelectorKind>)
    ensures r.Some? ==> exists k :: LastFor(selectors, dimension, k) && selectors[k].kind == r.value
    ensures r.None? ==> forall k :: 0 <= k < |selectors| ==> selectors[k].dimension != dimension
  {
    if selectors == [] then None
    else
      var n := |selectors| - 1;
      if selectors[n].dimension == dimension then
        assert LastFor(selectors, dimension, n);
        Some(selectors[n].kind)
      else
        var r := LastSelector(selectors[..n], dimension);
        assert forall k :: LastFor(selectors[..n], dimension, k) ==> LastFor(selectors, dimension, k);
        r
  }

  ghost predicate LastFor(selectors: seq<DimSelector>, dimension: string, k: int) {
    && 0 <= k < |selectors| && selectors[k].dimension == dimension
    && forall j :: k < j < |selectors| ==> selectors[j].dimension != dimension
  }

  /** Whether a coordinate is in an area, by name. */
  ghost predicate AreaHolds(dims: seq<Dimension>, area: SourceArea, coord: Coord) {
    && |coord| == |dims|
    && forall d :: 0 <= d < |dims| ==> DimHolds(dims[d], area, coord[d])
  }

  ghost predicate DimHolds(dim: Dimension, area: SourceArea, i: nat) {
    match LastSelector(area.selectors, dim.name)
    case Some(kind) => Selects(dim, kind, i)
    case None => i < |dim.elements| && (dim.elements[i].kind == Leaf <==> area.scope != C)
  }

  // ---------------------------------------------------------------- formulas by name

  /** A cell's address: a member name for each dimension name. */
  type NamedCoord = map<string, string>

  type NamedReader = (string, NamedCoord) -> Result<Fixed>

  ghost function NamesOf(dims: seq<Dimension>, c: Coord): NamedCoord
    requires DistinctDims(dims) && InRange(dims, c)
  {
    map d | 0 <= d < |dims| :: dims[d].name := dims[d].elements[c[d]].name
  }

  function FirstOverride(overrides: seq<Override>, dimension: string): (r: Option<Member>)
    ensures r.Some? ==> exists k :: FirstFor(overrides, dimension, k) && overrides[k].member == r.value
    ensures r.None? ==> forall k :: 0 <= k < |overrides| ==> overrides[k].dimension != dimension
  {
    if overrides == [] then None
    else if overrides[0].dimension == dimension then
      assert FirstFor(overrides, dimension, 0);
      Some(overrides[0].member)
    else
      var r := FirstOverride(overrides[1..], dimension);
      assert forall k :: FirstFor(overrides[1..], dimension, k) ==> FirstFor(overrides, dimension, k + 1) by {
        assert forall j :: 0 <= j < |overrides| - 1 ==> overrides[1..][j] == overrides[j + 1];
      }
      r
  }

  ghost predicate FirstFor(overrides: seq<Override>, dimension: string, k: int) {
    && 0 <= k < |overrides| && overrides[k].dimension == dimension
    && forall j :: 0 <= j < k ==> overrides[j].dimension != dimension
  }

  /** The cell a reference means at a target: the target's own address, with the members the
      reference overrides; in another cube, those members alone. */
  function NamedAddress(dims: seq<Dimension>, ref: Reference, target: NamedCoord): NamedCoord {
    map d | 0 <= d < |dims| && NamedMember(dims[d].name, ref, target).Some?
      :: dims[d].name := NamedMember(dims[d].name, ref, target).value
  }

  function NamedMember(dimension: string, ref: Reference, target: NamedCoord): Option<string> {
    match FirstOverride(ref.overrides, dimension)
    case Some(Named(m)) => Some(m)
    case Some(ByAttribute(_)) => None
    case None => if dimension in target then Some(target[dimension]) else None
  }

  function NamedAttribute(dims: seq<Dimension>, dimension: string, attribute: string, target: NamedCoord): Fixed {
    match DimPosition(dims, dimension)
    case None => 0
    case Some(d) =>
      if dimension !in target then 0
      else
        match (Lookup(dims[d], target[dimension]), IndexOf(dims[d].attributes, attribute))
        case (Some(i), Some(a)) => NumericAttribute(dims[d], i, a)
        case _ => 0
  }

  /** The value of a formula at a target, every name looked up as it is met. */
  function Meaning(rd: NamedReader, cubes: seq<Cube>, own: nat, target: NamedCoord, f: Formula): Result<Fixed>
    requires own < |cubes|
    decreases f
  {
    match f
    case Numeral(v) => if v.Some? then Ok(v.value) else Ok(0)
    case Quoted(_) => Ok(0)
    case CellOf(ref) =>
      (match ref.cube
       case None => rd(cubes[own].name, NamedAddress(cubes[own].dims, ref, target))
       case Some(name) =>
         match Ordinal(cubes, name)
         case None => Ok(0)
         case Some(o) => rd(name, NamedAddress(cubes[o].dims, ref, target)))
    case Minus(a) =>
      (match Meaning(rd, cubes, own, target, a)
       case Ok(v) => Lift(Negate(v))
       case Err(e) => Err(e))
    case Binary(op, a, b) =>
      (match Meaning(rd, cubes, own, target, a)
       case Err(e) => Err(e)
       case Ok(x) =>
         match Meaning(rd, cubes, own, target, b)
         case Err(e) => Err(e)
         case Ok(y) => Lift(Arith(op, x, y)))
    case Choice(c, t, o) =>
      (match Holds(rd, cubes, own, target, c)
       case Err(e) => Err(e)
       case Ok(b) =>
         if b then Meaning(rd, cubes, own, target, t)
         else if o.Some? then Meaning(rd, cubes, own, target, o.value)
         else Ok(0))
    case Call(func, args) =>
      if func == AttrNumber && |args| == 2 && args[0].StrArg? && args[1].StrArg?
      then Ok(NamedAttribute(cubes[own].dims, args[0].text, args[1].text, target))
      else Ok(0)
  }

  function Holds(rd: NamedReader, cubes: seq<Cube>, own: nat, target: NamedCoord, c: Condition): Result<bool>
    requires own < |cubes|
    decreases c
  {
    match c
    case Both(a, b) =>
      (match Holds(rd, cubes, own, target, a)
       case Err(e) => Err(e)
       case Ok(x) => if x then Holds(rd, cubes, own, target, b) else Ok(false))
    case Either(a, b) =>
      (match Holds(rd, cubes, own, target, a)
       case Err(e) => Err(e)
       case Ok(x) => if x then Ok(true) else Holds(rd, cubes, own, target, b))
    case Negation(a) =>
      (match Holds(rd, cubes, own, target, a)
       case Err(e) => Err(e)
       case Ok(x) => Ok(!x))
    case Comparison(a, op, b) =>
      match Meaning(rd, cubes, own, target, a)
      case Err(e) => Err(e)
      case Ok(x) =>
        match Meaning(rd, cubes, own, target, b)
        case Err(e) => Err(e)
        case Ok(y) => Ok(Compare(x, y, op))
  }
}
