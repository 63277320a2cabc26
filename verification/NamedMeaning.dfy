/** The value of a written formula, said without evaluating it: members by name, numbers by exact
    arithmetic. */
module NamedMeaning {
  import opened FixedPoint
  import opened CubeModel
  import opened Semantics
  import opened CellMeaning
  import opened RuleSource
  import opened Compile

  // ---------------------------------------------------------------- names

  /** The target names a member of every dimension. */
  ghost predicate TargetOk(dims: seq<Dimension>, target: NamedCoord) {
    forall d :: 0 <= d < |dims| ==> dims[d].name in target && HasElement(dims[d], target[dims[d].name])
  }

  /** The member a reference means in a dimension: that of its first override, else the target's. */
  ghost predicate MemberIs(dimension: string, ref: Reference, target: NamedCoord, member: string) {
    if Overridden(ref, dimension)
    then exists k :: FirstFor(ref.overrides, dimension, k) && ref.overrides[k].member == Named(member)
    else dimension in target && target[dimension] == member
  }

  ghost predicate AddressIs(dims: seq<Dimension>, ref: Reference, target: NamedCoord, addr: NamedCoord) {
    && (forall n :: n in addr <==> HasDim(dims, n))
    && forall n :: n in addr ==> MemberIs(n, ref, target, addr[n])
  }

  ghost predicate FirstElement(dim: Dimension, name: string, i: nat) {
    i < |dim.elements| && dim.elements[i].name == name && forall j :: 0 <= j < i ==> dim.elements[j].name != name
  }

  ghost predicate FirstAttribute(dim: Dimension, name: string, a: nat) {
    a < |dim.attributes| && dim.attributes[a] == name && forall j :: 0 <= j < a ==> dim.attributes[j] != name
  }

  /** The number the target's member has for an attribute of its dimension. */
  ghost predicate NumberIs(dims: seq<Dimension>, dimension: string, attribute: string, target: NamedCoord, v: int) {
    exists d: nat, i: nat, a: nat ::
      && FirstDim(dims, dimension, d) && dimension in target && FirstElement(dims[d], target[dimension], i)
      && FirstAttribute(dims[d], attribute, a) && AttributeIs(dims[d], i, a, v)
  }

  // ---------------------------------------------------------------- values and failures

  ghost predicate ReadIs(rd: NamedReader, cubes: seq<Cube>, own: nat, target: NamedCoord, ref: Reference,
                         r: Result<Fixed>)
  {
    exists o: nat, addr :: ReadsAt(cubes, own, target, ref, o, addr) && rd(cubes[o].name, addr) == r
  }

  ghost predicate ReadsAt(cubes: seq<Cube>, own: nat, target: NamedCoord, ref: Reference, o: nat, addr: NamedCoord) {
    RefersTo(cubes, own, ref, o) && o < |cubes| && AddressIs(cubes[o].dims, ref, target, addr)
  }

  ghost predicate FormulaIs(rd: NamedReader, cubes: seq<Cube>, own: nat, target: NamedCoord, f: Formula, v: int)
    requires own < |cubes|
    decreases f
  {
    match f
    case Numeral(p) => p.Some? && p.value == v
    case Quoted(_) => false
    case CellOf(ref) => FitsI64(v) && ReadIs(rd, cubes, own, target, ref, Ok(v))
    case Minus(a) => FitsI64(v) && FormulaIs(rd, cubes, own, target, a, -v)
    case Binary(op, a, b) =>
      FitsI64(v) && exists x, y ::
                      FormulaIs(rd, cubes, own, target, a, x) && FormulaIs(rd, cubes, own, target, b, y)
                      && OpIs(op, x, y, v)
    case Choice(c, t, o) =>
      || (ConditionIs(rd, cubes, own, target, c, true) && FormulaIs(rd, cubes, own, target, t, v))
      || (ConditionIs(rd, cubes, own, target, c, false)
          && if o.Some? then FormulaIs(rd, cubes, own, target, o.value, v) else v == 0)
    case Call(func, args) =>
      || (func == UndefFn && v == 0)
      || (func == AttrNumber && AsksAttribute(args) && NumberIs(cubes[own].dims, args[0].text, args[1].text, target, v))
  }

  ghost predicate ConditionIs(rd: NamedReader, cubes: seq<Cube>, own: nat, target: NamedCoord, c: Condition, b: bool)
    requires own < |cubes|
    decreases c
  {
    match c
    case Both(l, r) =>
      if ConditionIs(rd, cubes, own, target, l, false) then !b
      else ConditionIs(rd, cubes, own, target, l, true) && ConditionIs(rd, cubes, own, target, r, b)
    case Either(l, r) =>
      if ConditionIs(rd, cubes, own, target, l, true) then b
      else ConditionIs(rd, cubes, own, target, l, false) && ConditionIs(rd, cubes, own, target, r, b)
    case Negation(a) => ConditionIs(rd, cubes, own, target, a, !b)
    case Comparison(l, op, r) =>
      exists x, y ::
        FormulaIs(rd, cubes, own, target, l, x) && FormulaIs(rd, cubes, own, target, r, y)
        && (b <==> Sign(x - y) in Accepts(op))
  }

  ghost predicate FormulaFails(rd: NamedReader, cubes: seq<Cube>, own: nat, target: NamedCoord, f: Formula,
                               e: CalcError)
    requires own < |cubes|
    decreases f
  {
    match f
    case CellOf(ref) => ReadIs(rd, cubes, own, target, ref, Err(e))
    case Minus(a) =>
      || FormulaFails(rd, cubes, own, target, a, e)
      || (e == RuleOverflow && FormulaIs(rd, cubes, own, target, a, I64_MIN))
    case Binary(op, a, b) =>
      || FormulaFails(rd, cubes, own, target, a, e)
      || exists x :: FormulaIs(rd, cubes, own, target, a, x)
                     && (|| FormulaFails(rd, cubes, own, target, b, e)
                         || exists y :: FormulaIs(rd, cubes, own, target, b, y) && OpFails(op, x, y, e))
    case Choice(c, t, o) =>
      || ConditionFails(rd, cubes, own, target, c, e)
      || (ConditionIs(rd, cubes, own, target, c, true) && FormulaFails(rd, cubes, own, target, t, e))
      || (ConditionIs(rd, cubes, own, target, c, false) && o.Some? && FormulaFails(rd, cubes, own, target, o.value, e))
    case _ => false
  }

  ghost predicate ConditionFails(rd: NamedReader, cubes: seq<Cube>, own: nat, target: NamedCoord, c: Condition,
                                 e: CalcError)
    requires own < |cubes|
    decreases c
  {
    match c
    case Both(l, r) =>
      || ConditionFails(rd, cubes, own, target, l, e)
      || (ConditionIs(rd, cubes, own, target, l, true) && ConditionFails(rd, cubes, own, target, r, e))
    case Either(l, r) =>
      || ConditionFails(rd, cubes, own, target, l, e)
      || (ConditionIs(rd, cubes, own, target, l, false) && ConditionFails(rd, cubes, own, target, r, e))
    case Negation(a) => ConditionFails(rd, cubes, own, target, a, e)
    case Comparison(l, _, r) =>
      || FormulaFails(rd, cubes, own, target, l, e)
      || ((exists x :: FormulaIs(rd, cubes, own, target, l, x)) && FormulaFails(rd, cubes, own, target, r, e))
  }

  // ---------------------------------------------------------------- they are the formula's meaning

  lemma MemberNamed(dims: seq<Dimension>, ref: Reference, target: NamedCoord, n: string)
    requires HasDim(dims, n)
    requires forall d :: 0 <= d < |dims| ==> DimResolves(dims[d], ref, dims[d].name in target)
    ensures NamedMember(n, ref, target).Some?
    ensures forall m :: MemberIs(n, ref, target, m) <==> NamedMember(n, ref, target) == Some(m)
  {
    hide HasElement;
    var d :| 0 <= d < |dims| && dims[d].name == n;
    assert DimResolves(dims[d], ref, dims[d].name in target);
    forall j, k | FirstFor(ref.overrides, n, j) && FirstFor(ref.overrides, n, k)
      ensures j == k
    {}
  }

  lemma AddressNamed(dims: seq<Dimension>, ref: Reference, target: NamedCoord)
    requires forall d :: 0 <= d < |dims| ==> DimResolves(dims[d], ref, dims[d].name in target)
    ensures forall addr :: AddressIs(dims, ref, target, addr) <==> addr == NamedAddress(dims, ref, target)
  {
    hide DimResolves, MemberIs, NamedMember;
    var named := NamedAddress(dims, ref, target);
    forall n | HasDim(dims, n)
      ensures n in named && NamedMember(n, ref, target) == Some(named[n])
      ensures forall m :: MemberIs(n, ref, target, m) <==> NamedMember(n, ref, target) == Some(m)
    {
      MemberNamed(dims, ref, target, n);
    }
    forall addr | AddressIs(dims, ref, target, addr)
      ensures addr == named
    {
      assert forall n :: n in addr <==> n in named;
    }
  }

  lemma RefNamed(rd: NamedReader, cubes: seq<Cube>, own: nat, target: NamedCoord, ref: Reference)
    requires own < |cubes| && TargetOk(cubes[own].dims, target) && RefResolves(cubes, own, ref)
    ensures forall r :: ReadIs(rd, cubes, own, target, ref, r) <==> Meaning(rd, cubes, own, target, CellOf(ref)) == r
  {
    hide DimResolves, AddressIs, NamedAddress, HasElement;
    OneReferred(cubes, own, ref);
    var o: nat :| RefResolvesIn(cubes, own, ref, o);
    forall d | 0 <= d < |cubes[o].dims|
      ensures DimResolves(cubes[o].dims[d], ref, cubes[o].dims[d].name in target)
    {
      OpenWhereTarget(cubes, own, o, ref, d, target);
    }
    AddressNamed(cubes[o].dims, ref, target);
    assert ReadsAt(cubes, own, target, ref, o, NamedAddress(cubes[o].dims, ref, target));
  }

  lemma OpenWhereTarget(cubes: seq<Cube>, own: nat, o: nat, ref: Reference, d: nat, target: NamedCoord)
    requires own < |cubes| && o < |cubes| && d < |cubes[o].dims| && TargetOk(cubes[own].dims, target)
    requires DimResolves(cubes[o].dims[d], ref, o == own)
    ensures DimResolves(cubes[o].dims[d], ref, cubes[o].dims[d].name in target)
  {
    hide HasElement;
  }

  lemma NumberNamed(dims: seq<Dimension>, args: seq<Argument>, target: NamedCoord)
    requires TargetOk(dims, target) && AsksAttribute(args) && AttributeKnown(dims, args)
    ensures forall v: int :: NumberIs(dims, args[0].text, args[1].text, target, v) <==>
              NamedAttribute(dims, args[0].text, args[1].text, target) == v
  {
    hide AttributeIs, NumericAttribute;
    var dimension, attribute := args[0].text, args[1].text;
    var d := DimPosition(dims, dimension).value;
    var i, a := Lookup(dims[d], target[dimension]).value, IndexOf(dims[d].attributes, attribute).value;
    assert FirstDim(dims, dimension, d) && FirstElement(dims[d], target[dimension], i)
             && FirstAttribute(dims[d], attribute, a);
    forall v: int
      ensures AttributeIs(dims[d], i, a, v) <==> NumericAttribute(dims[d], i, a) == v
    {
      NumberThere(dims[d], i, a, v);
    }
  }

  lemma NumberThere(dim: Dimension, i: nat, a: nat, v: int)
    ensures AttributeIs(dim, i, a, v) <==> NumericAttribute(dim, i, a) == v
  {}

  /** A formula whose names resolve means exactly the value, or exactly the failure, that exact
      arithmetic on the members it names gives. */
  lemma {:induction false} MeaningIsExact(rd: NamedReader, cubes: seq<Cube>, own: nat, target: NamedCoord, f: Formula)
    requires own < |cubes| && TargetOk(cubes[own].dims, target) && FormulaResolves(cubes, own, f)
    ensures var r := Meaning(rd, cubes, own, target, f);
            (forall v: int :: FormulaIs(rd, cubes, own, target, f, v) <==> r.Ok? && r.value == v)
            && (forall e :: FormulaFails(rd, cubes, own, target, f, e) <==> r == Err(e))
    decreases f, 1
  {
    hide OpIs, OpFails, TargetOk, RefResolves, AttributeKnown, ReadIs, NumberIs, NamedAddress, NamedAttribute;
    match f
    case Numeral(_) =>
    case Quoted(_) =>
    case CellOf(ref) =>
      RefNamed(rd, cubes, own, target, ref);
      var r := Meaning(rd, cubes, own, target, f);
      assert ReadIs(rd, cubes, own, target, ref, r);
    case Minus(a) =>
      MeaningIsExact(rd, cubes, own, target, a);
      var r := Meaning(rd, cubes, own, target, a);
      if r.Ok? { NegateIsExact(r.value); }
    case Binary(op, a, b) =>
      MeaningIsExact(rd, cubes, own, target, a);
      MeaningIsExact(rd, cubes, own, target, b);
      BinaryIsExact(rd, cubes, own, target, op, a, b);
    case Choice(c, t, o) =>
      ConditionIsExact(rd, cubes, own, target, c);
      MeaningIsExact(rd, cubes, own, target, t);
      if o.Some? { MeaningIsExact(rd, cubes, own, target, o.value); }
    case Call(func, args) =>
      if func == AttrNumber { NumberNamed(cubes[own].dims, args, target); }
  }

  lemma BinaryIsExact(rd: NamedReader, cubes: seq<Cube>, own: nat, target: NamedCoord, op: ArithOp, a: Formula,
                      b: Formula)
    requires own < |cubes|
    requires var x := Meaning(rd, cubes, own, target, a);
             (forall v: int :: FormulaIs(rd, cubes, own, target, a, v) <==> x.Ok? && x.value == v)
             && (forall e :: FormulaFails(rd, cubes, own, target, a, e) <==> x == Err(e))
    requires var y := Meaning(rd, cubes, own, target, b);
             (forall v: int :: FormulaIs(rd, cubes, own, target, b, v) <==> y.Ok? && y.value == v)
             && (forall e :: FormulaFails(rd, cubes, own, target, b, e) <==> y == Err(e))
    ensures var r := Meaning(rd, cubes, own, target, Binary(op, a, b));
            (forall v: int :: FormulaIs(rd, cubes, own, target, Binary(op, a, b), v) <==> r.Ok? && r.value == v)
            && (forall e :: FormulaFails(rd, cubes, own, target, Binary(op, a, b), e) <==> r == Err(e))
  {
    hide OpIs, OpFails, Arith, Lift;
    var x, y := Meaning(rd, cubes, own, target, a), Meaning(rd, cubes, own, target, b);
    var r := Meaning(rd, cubes, own, target, Binary(op, a, b));
    if x.Ok? {
      assert FormulaIs(rd, cubes, own, target, a, x.value);
      if y.Ok? {
        assert FormulaIs(rd, cubes, own, target, b, y.value);
        assert r == Lift(Arith(op, x.value, y.value));
        OpIsArith(op, x.value, y.value);
      } else {
        assert r == y;
      }
    } else {
      assert r == x;
    }
  }

  lemma {:induction false} ConditionIsExact(rd: NamedReader, cubes: seq<Cube>, own: nat, target: NamedCoord,
                                            c: Condition)
    requires own < |cubes| && TargetOk(cubes[own].dims, target) && ConditionResolves(cubes, own, c)
    ensures var r := Holds(rd, cubes, own, target, c);
            (forall b :: ConditionIs(rd, cubes, own, target, c, b) <==> r == Ok(b))
            && (forall e :: ConditionFails(rd, cubes, own, target, c, e) <==> r == Err(e))
    decreases c, 1
  {
    hide TargetOk;
    match c
    case Both(l, r) =>
      ConditionIsExact(rd, cubes, own, target, l);
      ConditionIsExact(rd, cubes, own, target, r);
    case Either(l, r) =>
      ConditionIsExact(rd, cubes, own, target, l);
      ConditionIsExact(rd, cubes, own, target, r);
    case Negation(a) => ConditionIsExact(rd, cubes, own, target, a);
    case Comparison(l, op, r) =>
      MeaningIsExact(rd, cubes, own, target, l);
      MeaningIsExact(rd, cubes, own, target, r);
      var x, y := Meaning(rd, cubes, own, target, l), Meaning(rd, cubes, own, target, r);
      if x.Ok? {
        assert FormulaIs(rd, cubes, own, target, l, x.value);
        if y.Ok? {
          assert FormulaIs(rd, cubes, own, target, r, y.value);
          CompareIsSign(x.value, y.value, op);
        }
      }
  }

  lemma TargetNames(dims: seq<Dimension>, target: Coord)
    requires DistinctDims(dims) && InRange(dims, target)
    ensures TargetOk(dims, NamesOf(dims, target))
  {
    forall d | 0 <= d < |dims|
      ensures dims[d].name in NamesOf(dims, target) && HasElement(dims[d], NamesOf(dims, target)[dims[d].name])
    {
      assert NamesOf(dims, target)[dims[d].name] == dims[d].elements[target[d]].name;
    }
  }

  /** Compiled and run at a coordinate, a formula gives exactly what it says of the members there. */
  lemma CompiledIsExact(rd: Reader, named: NamedReader, cubes: seq<Cube>, entries: seq<Entry>, own: nat, target: Coord,
                        f: Formula)
    requires own < |cubes| && WellNamed(cubes) && SameCubes(cubes, entries) && InRange(cubes[own].dims, target)
    requires SameCells(rd, named, cubes) && FormulaResolves(cubes, own, f)
    ensures LowerExpr(cubes, own, f).Done? && ExprOk(LowerExpr(cubes, own, f).value, own, entries)
    ensures var r := RunExpr(rd, entries, own, target, LowerExpr(cubes, own, f).value).res;
            var names := NamesOf(cubes[own].dims, target);
            (forall v: int :: FormulaIs(named, cubes, own, names, f, v) <==> r.Ok? && r.value == v)
            && (forall e :: FormulaFails(named, cubes, own, names, f, e) <==> r == Err(e))
  {
    hide FormulaIs, FormulaFails, RunExpr, LowerExpr, Meaning, NamesOf, SameCells, TargetOk, FormulaResolves, ExprOk,
      Offends;
    FormulaLowers(cubes, own, f);
    TargetNames(cubes[own].dims, target);
    LoweringKeepsMeaning(rd, named, cubes, entries, own, target, f);
    MeaningIsExact(named, cubes, own, NamesOf(cubes[own].dims, target), f);
  }
}
