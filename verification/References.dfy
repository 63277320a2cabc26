/** The cubes a rule names outside its own: how they are collected for the cache key, and
    what a set of cubes closed under naming decides. */
module References {
  import opened CubeModel
  import opened Rollups
  import opened Semantics
  import opened Evaluation
  import opened Sparse
  import opened RuleSource
  import opened Compile

  // ---------------------------------------------------------------- collecting

  function RefCubes(f: Formula, target: string): seq<string>
    decreases f
  {
    match f
    case Numeral(_) => []
    case Quoted(_) => []
    case CellOf(ref) => if ref.cube.Some? && ref.cube.value != target then [ref.cube.value] else []
    case Minus(a) => RefCubes(a, target)
    case Binary(_, a, b) => RefCubes(a, target) + RefCubes(b, target)
    case Choice(c, t, o) =>
      CondCubes(c, target) + RefCubes(t, target) + (if o.Some? then RefCubes(o.value, target) else [])
    case Call(_, args) => ArgCubes(f, |args|, target)
  }

  function CondCubes(c: Condition, target: string): seq<string>
    decreases c
  {
    match c
    case Both(a, b) => CondCubes(a, target) + CondCubes(b, target)
    case Either(a, b) => CondCubes(a, target) + CondCubes(b, target)
    case Negation(a) => CondCubes(a, target)
    case Comparison(a, _, b) => RefCubes(a, target) + RefCubes(b, target)
  }

  /** From the first `n` arguments of a call. */
  function ArgCubes(call: Formula, n: nat, target: string): seq<string>
    requires call.Call? && n <= |call.args|
    decreases call, n
  {
    if n == 0 then []
    else
      var last := call.args[n - 1];
      ArgCubes(call, n - 1, target) + (if last.ExprArg? then RefCubes(last.arg, target) else [])
  }

  method CollectRefCubes(f: Formula, target: string, out: seq<string>) returns (r: seq<string>)
    ensures r == out + RefCubes(f, target)
    decreases f
  {
    r := out;
    match f
    case Numeral(_) =>
    case Quoted(_) =>
    case CellOf(ref) =>
      if ref.cube.Some? && ref.cube.value != target { r := r + [ref.cube.value]; }
    case Minus(a) => r := CollectRefCubes(a, target, r);
    case Binary(_, a, b) =>
      r := CollectRefCubes(a, target, r);
      r := CollectRefCubes(b, target, r);
    case Choice(c, t, o) =>
      r := CollectCondCubes(c, target, r);
      r := CollectRefCubes(t, target, r);
      if o.Some? { r := CollectRefCubes(o.value, target, r); }
    case Call(_, args) =>
      for i := 0 to |args|
        invariant r == out + ArgCubes(f, i, target)
      {
        if args[i].ExprArg? { r := CollectRefCubes(args[i].arg, target, r); }
      }
  }

  method CollectCondCubes(c: Condition, target: string, out: seq<string>) returns (r: seq<string>)
    ensures r == out + CondCubes(c, target)
    decreases c
  {
    match c
    case Both(a, b) =>
      r := CollectCondCubes(a, target, out);
      r := CollectCondCubes(b, target, r);
    case Either(a, b) =>
      r := CollectCondCubes(a, target, out);
      r := CollectCondCubes(b, target, r);
    case Negation(a) => r := CollectCondCubes(a, target, out);
    case Comparison(a, _, b) =>
      r := CollectRefCubes(a, target, out);
      r := CollectRefCubes(b, target, r);
  }

  ghost predicate NamedBy(doc: seq<SourceRule>, target: string, name: string) {
    exists k :: 0 <= k < |doc| && name in RefCubes(doc[k].formula, target)
  }

  /** The versions, now, of the other cubes the target's rules name; a name no cube bears is
      skipped. */
  method CrossCubeDepVersions(doc: seq<SourceRule>, target: string, versions: map<string, nat>)
    returns (deps: map<string, nat>)
    ensures forall c :: c in deps <==> NamedBy(doc, target, c) && c in versions
    ensures forall c :: c in deps ==> deps[c] == versions[c]
    ensures target !in deps
  {
    var names: seq<string> := [];
    for k := 0 to |doc|
      invariant forall c :: c in names <==> NamedBy(doc[..k], target, c)
    {
      var before := names;
      names := CollectRefCubes(doc[k].formula, target, names);
      assert doc[..k + 1] == doc[..k] + [doc[k]];
      OneMoreRule(doc[..k], doc[k], target);
    }
    assert doc[..|doc|] == doc;
    forall k | 0 <= k < |doc|
      ensures target !in RefCubes(doc[k].formula, target)
    {
      NeverSelf(doc[k].formula, target);
    }
    deps := map c | c in names && c in versions :: versions[c];
  }

  lemma OneMoreRule(doc: seq<SourceRule>, rule: SourceRule, target: string)
    ensures forall c :: NamedBy(doc + [rule], target, c) <==>
              NamedBy(doc, target, c) || c in RefCubes(rule.formula, target)
  {
    hide RefCubes;
    forall c
      ensures NamedBy(doc + [rule], target, c) <==> NamedBy(doc, target, c) || c in RefCubes(rule.formula, target)
    {
      assert (doc + [rule])[|doc|] == rule;
      if NamedBy(doc, target, c) {
        var k :| 0 <= k < |doc| && c in RefCubes(doc[k].formula, target);
        assert (doc + [rule])[k] == doc[k];
      }
    }
  }

  lemma {:induction false} NeverSelf(f: Formula, target: string)
    ensures target !in RefCubes(f, target)
    decreases f
  {
    match f
    case Numeral(_) =>
    case Quoted(_) =>
    case CellOf(_) =>
    case Minus(a) => NeverSelf(a, target);
    case Binary(_, a, b) =>
      NeverSelf(a, target);
      NeverSelf(b, target);
    case Choice(c, t, o) =>
      CondNeverSelf(c, target);
      NeverSelf(t, target);
      if o.Some? { NeverSelf(o.value, target); }
    case Call(_, args) => ArgsNeverSelf(f, |args|, target);
  }

  lemma {:induction false} CondNeverSelf(c: Condition, target: string)
    ensures target !in CondCubes(c, target)
    decreases c
  {
    match c
    case Both(a, b) =>
      CondNeverSelf(a, target);
      CondNeverSelf(b, target);
    case Either(a, b) =>
      CondNeverSelf(a, target);
      CondNeverSelf(b, target);
    case Negation(a) => CondNeverSelf(a, target);
    case Comparison(a, _, b) =>
      NeverSelf(a, target);
      NeverSelf(b, target);
  }

  lemma {:induction false} ArgsNeverSelf(call: Formula, n: nat, target: string)
    requires call.Call? && n <= |call.args|
    ensures target !in ArgCubes(call, n, target)
    decreases call, n
  {
    if n > 0 {
      ArgsNeverSelf(call, n - 1, target);
      if call.args[n - 1].ExprArg? { NeverSelf(call.args[n - 1].arg, target); }
    }
  }

  // ---------------------------------------------------------------- exactly what is written is collected

  datatype Node = OfFormula(f: Formula) | OfCondition(c: Condition)

  /** `child` stands directly in `n`: an operand, a branch, a condition, or an argument of a call. */
  ghost predicate StandsIn(child: Node, n: Node) {
    match n
    case OfFormula(f) =>
      (match f
       case Minus(a) => child == OfFormula(a)
       case Binary(_, a, b) => child == OfFormula(a) || child == OfFormula(b)
       case Choice(c, t, o) =>
         child == OfCondition(c) || child == OfFormula(t) || (o.Some? && child == OfFormula(o.value))
       case Call(_, args) => exists k :: 0 <= k < |args| && args[k].ExprArg? && child == OfFormula(args[k].arg)
       case _ => false)
    case OfCondition(c) =>
      match c
      case Both(a, b) => child == OfCondition(a) || child == OfCondition(b)
      case Either(a, b) => child == OfCondition(a) || child == OfCondition(b)
      case Negation(a) => child == OfCondition(a)
      case Comparison(a, _, b) => child == OfFormula(a) || child == OfFormula(b)
  }

  /** A way down from `n`, one node at a time, to a reference to the cube. */
  ghost predicate Mentions(n: Node, path: seq<Node>, name: string) {
    && |path| > 0 && path[0] == n
    && (forall i, j :: 0 <= i && j == i + 1 < |path| ==> StandsIn(path[j], path[i]))
    && IsReference(path[|path| - 1], name)
  }

  ghost predicate IsReference(n: Node, name: string) {
    n.OfFormula? && n.f.CellOf? && n.f.ref.cube == Some(name)
  }

  function NodeCubes(n: Node, target: string): seq<string> {
    match n
    case OfFormula(f) => RefCubes(f, target)
    case OfCondition(c) => CondCubes(c, target)
  }

  /** A formula's collected cubes are exactly the others it mentions, wherever in it. */
  lemma {:induction false} CollectsWhatIsMentioned(f: Formula, target: string, name: string)
    ensures name in RefCubes(f, target) <==> name != target && exists path :: Mentions(OfFormula(f), path, name)
  {
    hide RefCubes;
    if name in RefCubes(f, target) {
      NeverSelf(f, target);
      var path := MentionOf(f, target, name);
    }
    forall path | name != target && Mentions(OfFormula(f), path, name)
      ensures name in RefCubes(f, target)
    {
      MentionedCollected(path, target, name);
    }
  }

  lemma {:induction false} MentionOf(f: Formula, target: string, name: string) returns (path: seq<Node>)
    requires name in RefCubes(f, target)
    ensures Mentions(OfFormula(f), path, name)
    decreases f
  {
    var n := OfFormula(f);
    match f
    case CellOf(_) => path := [n];
    case Minus(a) =>
      var rest := MentionOf(a, target, name);
      path := Longer(n, OfFormula(a), rest, name);
    case Binary(_, a, b) =>
      var x := if name in RefCubes(a, target) then a else b;
      var rest := MentionOf(x, target, name);
      path := Longer(n, OfFormula(x), rest, name);
    case Choice(c, t, o) =>
      if name in CondCubes(c, target) {
        var rest := MentionIn(c, target, name);
        path := Longer(n, OfCondition(c), rest, name);
      } else {
        var x := if name in RefCubes(t, target) then t else o.value;
        var rest := MentionOf(x, target, name);
        path := Longer(n, OfFormula(x), rest, name);
      }
    case Call(_, args) =>
      var k := WhichArg(f, |args|, target, name);
      var rest := MentionOf(args[k].arg, target, name);
      path := Longer(n, OfFormula(args[k].arg), rest, name);
  }

  lemma {:induction false} MentionIn(c: Condition, target: string, name: string) returns (path: seq<Node>)
    requires name in CondCubes(c, target)
    ensures Mentions(OfCondition(c), path, name)
    decreases c
  {
    var n := OfCondition(c);
    match c
    case Both(a, b) =>
      var x := if name in CondCubes(a, target) then a else b;
      var rest := MentionIn(x, target, name);
      path := Longer(n, OfCondition(x), rest, name);
    case Either(a, b) =>
      var x := if name in CondCubes(a, target) then a else b;
      var rest := MentionIn(x, target, name);
      path := Longer(n, OfCondition(x), rest, name);
    case Negation(a) =>
      var rest := MentionIn(a, target, name);
      path := Longer(n, OfCondition(a), rest, name);
    case Comparison(a, _, b) =>
      var x := if name in RefCubes(a, target) then a else b;
      var rest := MentionOf(x, target, name);
      path := Longer(n, OfFormula(x), rest, name);
  }

  lemma Longer(n: Node, child: Node, rest: seq<Node>, name: string) returns (path: seq<Node>)
    requires StandsIn(child, n) && Mentions(child, rest, name)
    ensures Mentions(n, path, name)
  {
    hide StandsIn;
    path := [n] + rest;
  }

  lemma {:induction false} WhichArg(call: Formula, n: nat, target: string, name: string) returns (k: nat)
    requires call.Call? && n <= |call.args| && name in ArgCubes(call, n, target)
    ensures k < n && call.args[k].ExprArg? && name in RefCubes(call.args[k].arg, target)
  {
    hide RefCubes;
    k := n - 1;
    if !(call.args[k].ExprArg? && name in RefCubes(call.args[k].arg, target)) {
      k := WhichArg(call, n - 1, target, name);
    }
  }

  lemma {:induction false} ArgCollected(call: Formula, n: nat, k: nat, target: string, name: string)
    requires call.Call? && k < n <= |call.args| && call.args[k].ExprArg? && name in RefCubes(call.args[k].arg, target)
    ensures name in ArgCubes(call, n, target)
  {
    hide RefCubes;
    if k < n - 1 { ArgCollected(call, n - 1, k, target, name); }
  }

  lemma {:induction false} MentionedCollected(path: seq<Node>, target: string, name: string)
    requires |path| > 0 && Mentions(path[0], path, name) && name != target
    ensures name in NodeCubes(path[0], target)
    decreases |path|
  {
    if |path| > 1 {
      MentionedCollected(path[1..], target, name);
      assert StandsIn(path[1], path[0]);
      if path[0].OfFormula? && path[0].f.Call? {
        var f := path[0].f;
        var k: nat :| k < |f.args| && f.args[k].ExprArg? && path[1] == OfFormula(f.args[k].arg);
        ArgCollected(f, |f.args|, k, target, name);
      }
    }
  }

  // ---------------------------------------------------------------- the compiled rule reads no other cube

  /** Every cell reference of a compiled formula is to a cube of `s`. */
  predicate ReadsWithin(e: Expr, s: set<nat>)
    decreases e
  {
    match e
    case Num(_) => true
    case Undef => true
    case AttrNum(_, _) => true
    case Read(cell) => cell.cube in s
    case Neg(a) => ReadsWithin(a, s)
    case Bin(_, a, b) => ReadsWithin(a, s) && ReadsWithin(b, s)
    case If(c, t, o) => CondWithin(c, s) && ReadsWithin(t, s) && (o.Some? ==> ReadsWithin(o.value, s))
  }

  predicate CondWithin(c: Cond, s: set<nat>)
    decreases c
  {
    match c
    case And(a, b) => CondWithin(a, s) && CondWithin(b, s)
    case Or(a, b) => CondWithin(a, s) && CondWithin(b, s)
    case Not(a) => CondWithin(a, s)
    case Cmp(a, _, b) => ReadsWithin(a, s) && ReadsWithin(b, s)
  }

  /** The ordinals of the target and of the cubes with a given name. */
  ghost function Bearing(cubes: seq<Cube>, own: nat, names: seq<string>): set<nat>
    requires own < |cubes|
  {
    set o | 0 <= o < |cubes| && (o == own || cubes[o].name == cubes[own].name || cubes[o].name in names)
  }

  ghost predicate Covers(names: seq<string>, more: seq<string>) {
    forall n :: n in more ==> n in names
  }

  /** What is collected for the key names every other cube the compiled formula refers to. */
  lemma {:induction false} CollectedCoversCompiled(cubes: seq<Cube>, own: nat, f: Formula, names: seq<string>)
    requires own < |cubes| && LowerExpr(cubes, own, f).Done?
    requires Covers(names, RefCubes(f, cubes[own].name))
    ensures ReadsWithin(LowerExpr(cubes, own, f).value, Bearing(cubes, own, names))
    decreases f
  {
    hide LowerCell, LowerCall;
    match f
    case Numeral(_) =>
    case Quoted(_) =>
    case CellOf(ref) =>
      CellCovered(cubes, own, ref, names);
    case Minus(a) => CollectedCoversCompiled(cubes, own, a, names);
    case Binary(_, a, b) =>
      CollectedCoversCompiled(cubes, own, a, names);
      CollectedCoversCompiled(cubes, own, b, names);
    case Choice(c, t, o) =>
      CollectedCoversCond(cubes, own, c, names);
      CollectedCoversCompiled(cubes, own, t, names);
      if o.Some? { CollectedCoversCompiled(cubes, own, o.value, names); }
    case Call(func, args) => CallReadsNothing(cubes[own].dims, func, args, Bearing(cubes, own, names));
  }

  lemma {:induction false} CollectedCoversCond(cubes: seq<Cube>, own: nat, c: Condition, names: seq<string>)
    requires own < |cubes| && LowerCond(cubes, own, c).Done?
    requires Covers(names, CondCubes(c, cubes[own].name))
    ensures CondWithin(LowerCond(cubes, own, c).value, Bearing(cubes, own, names))
    decreases c
  {
    hide LowerCell, LowerCall;
    match c
    case Both(a, b) =>
      CollectedCoversCond(cubes, own, a, names);
      CollectedCoversCond(cubes, own, b, names);
    case Either(a, b) =>
      CollectedCoversCond(cubes, own, a, names);
      CollectedCoversCond(cubes, own, b, names);
    case Negation(a) => CollectedCoversCond(cubes, own, a, names);
    case Comparison(a, _, b) =>
      CollectedCoversCompiled(cubes, own, a, names);
      CollectedCoversCompiled(cubes, own, b, names);
  }

  lemma CellCovered(cubes: seq<Cube>, own: nat, ref: Reference, names: seq<string>)
    requires own < |cubes| && LowerCell(cubes, own, ref).Done?
    requires Covers(names, RefCubes(CellOf(ref), cubes[own].name))
    ensures LowerCell(cubes, own, ref).value.cube in Bearing(cubes, own, names)
  {
    hide LowerSlots, OverridesKnown;
  }

  lemma CallReadsNothing(dims: seq<Dimension>, func: Builtin, args: seq<Argument>, s: set<nat>)
    requires LowerCall(dims, func, args).Done?
    ensures ReadsWithin(LowerCall(dims, func, args).value, s)
  {}

  // ---------------------------------------------------------------- a closed set of cubes decides its cells

  /** Rules of cubes in `s` refer to cubes in `s` only. */
  ghost predicate ClosedSet(env: Env, s: set<nat>) {
    forall o, k :: o in s && o < |env.entries| && 0 <= k < |RulesOf(env.entries[o])| ==>
      ReadsWithin(RulesOf(env.entries[o])[k].expr, s)
  }

  /** The same rules but for how their areas list the elements. */
  ghost predicate SameRules(dims: seq<Dimension>, a: RuleSet, b: RuleSet) {
    || a == b
    || (a.Compiled? && b.Compiled? && |a.rules| == |b.rules|
        && forall k :: 0 <= k < |a.rules| ==> AlikeRules(dims, a.rules[k], b.rules[k]))
  }

  ghost predicate AlikeRules(dims: seq<Dimension>, a: Rule, b: Rule) {
    a.expr == b.expr && forall c :: Matches(a.area, dims, c) <==> Matches(b.area, dims, c)
  }

  lemma SameMatch(a: Entry, b: Entry, c: Coord)
    requires a.cube == b.cube && SameRules(a.cube.dims, a.rules, b.rules)
    ensures a.rules.Broken? <==> b.rules.Broken?
    ensures |RulesOf(a)| == |RulesOf(b)| && forall k :: 0 <= k < |RulesOf(a)| ==>
              RulesOf(a)[k].expr == RulesOf(b)[k].expr
    ensures FirstMatch(RulesOf(a), a.cube.dims, c) == FirstMatch(RulesOf(b), b.cube.dims, c)
  {
    hide Matches;
    assert forall k :: 0 <= k < |RulesOf(a)| ==> AlikeRules(a.cube.dims, RulesOf(a)[k], RulesOf(b)[k]);
  }

  ghost predicate SameOn(a: Env, b: Env, s: set<nat>) {
    && |a.entries| == |b.entries| && a.overlay == b.overlay && a.mask == b.mask
    && forall o :: o in s && o < |a.entries| ==>
         a.entries[o].cube == b.entries[o].cube && a.entries[o].fed == b.entries[o].fed
         && SameRules(a.entries[o].cube.dims, a.entries[o].rules, b.entries[o].rules)
  }

  lemma {:induction false} ExprStays(rd: Reader, a: seq<Entry>, b: seq<Entry>, own: nat, t: Coord, e: Expr, s: set<nat>)
    requires own < |a| && own < |b| && a[own].cube == b[own].cube && |t| == |a[own].cube.dims|
    requires ExprOk(e, own, a) && ExprOk(e, own, b) && ReadsWithin(e, s)
    ensures RunExpr(rd, a, own, t, e) == RunExpr(rd, b, own, t, e)
    ensures forall c :: c in RunExpr(rd, a, own, t, e).log ==> c.cube in s
    decreases e
  {
    match e
    case Num(_) =>
    case Undef =>
    case AttrNum(_, _) =>
    case Read(_) =>
    case Neg(x) => ExprStays(rd, a, b, own, t, x, s);
    case Bin(_, x, y) =>
      ExprStays(rd, a, b, own, t, x, s);
      ExprStays(rd, a, b, own, t, y, s);
    case If(c, x, o) =>
      CondStays(rd, a, b, own, t, c, s);
      ExprStays(rd, a, b, own, t, x, s);
      if o.Some? { ExprStays(rd, a, b, own, t, o.value, s); }
  }

  lemma {:induction false} CondStays(rd: Reader, a: seq<Entry>, b: seq<Entry>, own: nat, t: Coord, c: Cond, s: set<nat>)
    requires own < |a| && own < |b| && a[own].cube == b[own].cube && |t| == |a[own].cube.dims|
    requires CondOk(c, own, a) && CondOk(c, own, b) && CondWithin(c, s)
    ensures RunCond(rd, a, own, t, c) == RunCond(rd, b, own, t, c)
    ensures forall x :: x in RunCond(rd, a, own, t, c).log ==> x.cube in s
    decreases c
  {
    match c
    case And(x, y) =>
      CondStays(rd, a, b, own, t, x, s);
      CondStays(rd, a, b, own, t, y, s);
    case Or(x, y) =>
      CondStays(rd, a, b, own, t, x, s);
      CondStays(rd, a, b, own, t, y, s);
    case Not(x) => CondStays(rd, a, b, own, t, x, s);
    case Cmp(x, _, y) =>
      ExprStays(rd, a, b, own, t, x, s);
      ExprStays(rd, a, b, own, t, y, s);
  }

  lemma {:induction false} SumStays(rd: Reader, o: nat, items: seq<Item>)
    ensures forall c :: c in RunSum(rd, o, items).log ==> c.cube == o
  {
    if items != [] { SumStays(rd, o, items[..|items| - 1]); }
  }

  lemma ComputeStays(a: Env, b: Env, s: set<nat>, rd: Reader, c: Cell)
    requires EnvOk(a) && EnvOk(b) && SameOn(a, b, s) && ClosedSet(a, s) && c.cube in s
    ensures Compute(a, rd, c) == Compute(b, rd, c)
    ensures forall e :: e in Compute(a, rd, c).log ==> e.cube in s
  {
    hide RunExpr, RunSum, ExprOk, ReadsWithin, DenseItems, SparseItems, CheckedProduct, Denies, AreaOk, AllLeaf,
      SameRules, FirstMatch, RulesOf;
    if c.cube < |a.entries| {
      assert EntryOk(a.entries, c.cube) && EntryOk(b.entries, c.cube);
      var entry := a.entries[c.cube];
      SameMatch(entry, b.entries[c.cube], c.coord);
      var m := FirstMatch(RulesOf(entry), entry.cube.dims, c.coord);
      if m.Some? {
        ExprStays(rd, a.entries, b.entries, c.cube, c.coord, RulesOf(entry)[m.value].expr, s);
      } else if InRange(entry.cube.dims, c.coord) {
        SumStays(rd, c.cube, RollupItems(a, c.cube, PerDim(entry.cube.dims, c.coord)));
      }
    }
  }

  lemma {:induction false} ClosedCubesDecideUnder(a: Env, b: Env, s: set<nat>, stack: set<Cell>, c: Cell)
    requires EnvOk(a) && EnvOk(b) && SameOn(a, b, s) && ClosedSet(a, s) && c.cube in s
    ensures Eval(a, stack, c) == Eval(b, stack, c)
    decreases Universe(a) - stack
  {
    hide Eval, EnvOk, Universe, Compute, Under, ClosedSet;
    EvalUnfold(a, stack, c);
    EvalUnfold(b, stack, c);
    if c !in stack {
      var ra, rb := Under(a, stack + {c}), Under(b, stack + {c});
      ComputeStays(a, b, s, ra, c);
      forall e | e in Compute(b, ra, c).log
        ensures ra(e) == rb(e)
      {
        if c !in Universe(a) { OutsideConsultsNothing(a, ra, c); }
        OneFewer(Universe(a), stack, c);
        ClosedCubesDecideUnder(a, b, s, stack + {c}, e);
        UnderIs(a, stack + {c}, e);
        UnderIs(b, stack + {c}, e);
      }
      ComputeExt(b, ra, rb, c);
    }
  }

  ghost predicate SameWithoutLicense(a: Env, b: Env, s: set<nat>) {
    && |a.entries| == |b.entries| && a.overlay == b.overlay && a.mask == b.mask
    && forall o :: o in s && o < |a.entries| ==>
         a.entries[o].cube == b.entries[o].cube
         && SameRules(a.entries[o].cube.dims, a.entries[o].rules, b.entries[o].rules)
  }

  /** In two registries built from snapshots that agree on a set of cubes closed under
      naming, every cell of those cubes has one value, whatever the other cubes hold and
      whichever of the two licensed which rollups. */
  lemma ClosedCubesDecide(a: Env, b: Env, s: set<nat>, c: Cell)
    requires EnvOk(a) && EnvOk(b) && Licensed(a) && Licensed(b)
    requires SameWithoutLicense(a, b, s) && ClosedSet(a, s) && c.cube in s
    ensures Eval(a, {}, c) == Eval(b, {}, c)
  {
    hide Eval, EnvOk, Licensed, ReadsWithin, SameRules;
    DenseEnv(a);
    DenseEnv(b);
    SparseIsDense(a, {}, c);
    SparseIsDense(b, {}, c);
    forall o | o in s && o < |a.entries|
      ensures Dense(a).entries[o] == a.entries[o].(fed := None) && Dense(b).entries[o] == b.entries[o].(fed := None)
      ensures RulesOf(Dense(a).entries[o]) == RulesOf(a.entries[o])
    {
      assert a.entries[o].cube == b.entries[o].cube;
    }
    ClosedCubesDecideUnder(Dense(a), Dense(b), s, {}, c);
  }
}
