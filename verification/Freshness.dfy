/** Freshness of values: what the versions a cellset was computed at say about its cells. */
module Freshness {
  import opened CubeModel
  import opened Semantics
  import opened Sparse
  import opened RuleSource
  import opened Compile
  import opened References
  import opened Registry
  import opened CacheProtocol

  // ---------------------------------------------------------------- compiling looks at named cubes only

  /** The same cubes by name, and by content for those in `s`. */
  ghost predicate AgreeOn(a: seq<Cube>, b: seq<Cube>, s: set<nat>) {
    && |a| == |b| && (forall o :: 0 <= o < |a| ==> a[o].name == b[o].name)
    && forall o :: o in s && o < |a| ==> a[o] == b[o]
  }

  lemma {:induction false} SameSlots(a: seq<Cube>, b: seq<Cube>, own: nat, o: nat, ref: Reference, n: nat)
    requires own < |a| == |b| && o < |a| && a[own] == b[own] && a[o] == b[o] && n <= |a[o].dims|
    ensures LowerSlots(a, own, o, ref, n) == LowerSlots(b, own, o, ref, n)
  {
    hide LowerSlot;
    if n > 0 {
      SameSlots(a, b, own, o, ref, n - 1);
      SameSlot(a, b, own, o, ref, n - 1);
    }
  }

  lemma SameSlot(a: seq<Cube>, b: seq<Cube>, own: nat, o: nat, ref: Reference, d: nat)
    requires own < |a| == |b| && o < |a| && a[own] == b[own] && a[o] == b[o] && d < |a[o].dims|
    ensures LowerSlot(a, own, o, ref, d) == LowerSlot(b, own, o, ref, d)
  {}

  lemma SameLoweredCell(a: seq<Cube>, b: seq<Cube>, own: nat, ref: Reference, names: seq<string>, s: set<nat>)
    requires own < |a| && own in s && AgreeOn(a, b, s) && Bearing(a, own, names) <= s
    requires Covers(names, RefCubes(CellOf(ref), a[own].name))
    ensures LowerCell(a, own, ref) == LowerCell(b, own, ref)
  {
    hide LowerSlots;
    assert CubeNames(a) == CubeNames(b);
    var o := ReferencedCube(a, own, ref);
    if !ref.mapped && o.Done? {
      assert o.value in Bearing(a, own, names);
      SameSlots(a, b, own, o.value, ref, |a[o.value].dims|);
    }
  }

  lemma {:induction false} SameLowering(a: seq<Cube>, b: seq<Cube>, own: nat, f: Formula, names: seq<string>,
                                        s: set<nat>)
    requires own < |a| && own in s && AgreeOn(a, b, s) && Bearing(a, own, names) <= s
    requires Covers(names, RefCubes(f, a[own].name))
    ensures LowerExpr(a, own, f) == LowerExpr(b, own, f)
    decreases f
  {
    hide LowerCell, LowerCall, Bearing;
    match f
    case Numeral(_) =>
    case Quoted(_) =>
    case CellOf(ref) => SameLoweredCell(a, b, own, ref, names, s);
    case Minus(x) => SameLowering(a, b, own, x, names, s);
    case Binary(_, x, y) =>
      SameLowering(a, b, own, x, names, s);
      SameLowering(a, b, own, y, names, s);
    case Choice(c, t, o) =>
      SameLoweredCond(a, b, own, c, names, s);
      SameLowering(a, b, own, t, names, s);
      if o.Some? { SameLowering(a, b, own, o.value, names, s); }
    case Call(_, _) =>
  }

  lemma {:induction false} SameLoweredCond(a: seq<Cube>, b: seq<Cube>, own: nat, c: Condition, names: seq<string>,
                                           s: set<nat>)
    requires own < |a| && own in s && AgreeOn(a, b, s) && Bearing(a, own, names) <= s
    requires Covers(names, CondCubes(c, a[own].name))
    ensures LowerCond(a, own, c) == LowerCond(b, own, c)
    decreases c
  {
    hide LowerCell, LowerCall, Bearing;
    match c
    case Both(x, y) =>
      SameLoweredCond(a, b, own, x, names, s);
      SameLoweredCond(a, b, own, y, names, s);
    case Either(x, y) =>
      SameLoweredCond(a, b, own, x, names, s);
      SameLoweredCond(a, b, own, y, names, s);
    case Negation(x) => SameLoweredCond(a, b, own, x, names, s);
    case Comparison(x, _, y) =>
      SameLowering(a, b, own, x, names, s);
      SameLowering(a, b, own, y, names, s);
  }

  /** Every cube a document names lies in the set. */
  ghost predicate DocWithin(cubes: seq<Cube>, own: nat, doc: seq<SourceRule>, s: set<nat>)
    requires own < |cubes|
  {
    forall k :: 0 <= k < |doc| ==> Bearing(cubes, own, RefCubes(doc[k].formula, cubes[own].name)) <= s
  }

  lemma SameFormula(a: seq<Cube>, b: seq<Cube>, own: nat, doc: seq<SourceRule>, s: set<nat>, k: nat)
    requires own < |a| && own in s && AgreeOn(a, b, s) && DocWithin(a, own, doc, s) && k < |doc|
    ensures LowerExpr(a, own, doc[k].formula) == LowerExpr(b, own, doc[k].formula)
  {
    hide LowerExpr, Bearing;
    SameLowering(a, b, own, doc[k].formula, RefCubes(doc[k].formula, a[own].name), s);
  }

  /** A document compiles to the same rules against cubes that agree where it looks. */
  lemma SameCompiled(a: seq<Cube>, ea: seq<Entry>, b: seq<Cube>, eb: seq<Entry>, own: nat, doc: seq<SourceRule>,
                     s: set<nat>)
    requires own < |a| && own in s && AgreeOn(a, b, s) && DocWithin(a, own, doc, s)
    requires WellNamed(a) && WellNamed(b) && SameCubes(a, ea) && SameCubes(b, eb)
    requires RulesFrom(a, ea, own, doc) && RulesFrom(b, eb, own, doc)
    ensures SameRules(a[own].dims, ea[own].rules, eb[own].rules)
  {
    hide LowerExpr, Bearing, WellNamed, AreaResolves, FormulaResolves, Offends, Matches, AreaHolds, AreaOk, ExprOk;
    forall k | 0 <= k < |doc|
      ensures LowerExpr(a, own, doc[k].formula) == LowerExpr(b, own, doc[k].formula)
    {
      SameFormula(a, b, own, doc, s, k);
    }
    forall k | 0 <= k < |doc|
      ensures RuleResolves(a, own, doc[k]) <==> RuleResolves(b, own, doc[k])
    {
      FormulaLowers(a, own, doc[k].formula);
      FormulaLowers(b, own, doc[k].formula);
    }
    assert DocCompiles(a, own, doc) <==> DocCompiles(b, own, doc);
    if DocCompiles(a, own, doc) {
      forall k | 0 <= k < |doc|
        ensures AlikeRules(a[own].dims, ea[own].rules.rules[k], eb[own].rules.rules[k])
      {
        assert SameRule(a, ea, own, doc[k], ea[own].rules.rules[k])
                 && SameRule(b, eb, own, doc[k], eb[own].rules.rules[k]);
      }
    }
  }

  lemma {:induction false} ReadsMore(e: Expr, s: set<nat>, more: set<nat>)
    requires ReadsWithin(e, s) && s <= more
    ensures ReadsWithin(e, more)
    decreases e
  {
    match e
    case Neg(a) => ReadsMore(a, s, more);
    case Bin(_, a, b) =>
      ReadsMore(a, s, more);
      ReadsMore(b, s, more);
    case If(c, t, o) =>
      CondReadsMore(c, s, more);
      ReadsMore(t, s, more);
      if o.Some? { ReadsMore(o.value, s, more); }
    case _ =>
  }

  lemma {:induction false} CondReadsMore(c: Cond, s: set<nat>, more: set<nat>)
    requires CondWithin(c, s) && s <= more
    ensures CondWithin(c, more)
    decreases c
  {
    match c
    case And(a, b) =>
      CondReadsMore(a, s, more);
      CondReadsMore(b, s, more);
    case Or(a, b) =>
      CondReadsMore(a, s, more);
      CondReadsMore(b, s, more);
    case Not(a) => CondReadsMore(a, s, more);
    case Cmp(a, _, b) =>
      ReadsMore(a, s, more);
      ReadsMore(b, s, more);
  }

  /** Registries of the same documents over cubes that agree on a set closed under naming give
      every cell of those cubes one value. */
  lemma SameDocsDecide(a: seq<Cube>, b: seq<Cube>, da: seq<seq<SourceRule>>, db: seq<seq<SourceRule>>, ea: Env,
                       eb: Env, s: set<nat>, c: Cell)
    requires IsRegistry(a, da, ea.entries) && IsRegistry(b, db, eb.entries) && AgreeOn(a, b, s)
    requires EnvOk(ea) && EnvOk(eb) && Licensed(ea) && Licensed(eb) && ea.overlay == eb.overlay && ea.mask == eb.mask
    requires forall o :: o in s && o < |a| ==> da[o] == db[o] && DocWithin(a, o, da[o], s)
    requires c.cube in s
    ensures Eval(ea, {}, c) == Eval(eb, {}, c)
  {
    hide Eval, EnvOk, Licensed, RulesFrom, WellNamed, CubeOk, DocWithin, SameRules, ReadsWithin;
    forall o | o in s && o < |a|
      ensures SameRules(a[o].dims, ea.entries[o].rules, eb.entries[o].rules)
    {
      assert RulesFrom(a, ea.entries, o, da[o]) && RulesFrom(b, eb.entries, o, db[o]);
      SameCompiled(a, ea.entries, b, eb.entries, o, da[o], s);
    }
    forall o, k | o in s && o < |ea.entries| && 0 <= k < |RulesOf(ea.entries[o])|
      ensures ReadsWithin(RulesOf(ea.entries[o])[k].expr, s)
    {
      assert RulesFrom(a, ea.entries, o, da[o]);
      RuleStaysWithin(a, ea.entries, o, da[o], s, k);
    }
    ClosedCubesDecide(ea, eb, s, c);
  }

  lemma RuleStaysWithin(cubes: seq<Cube>, entries: seq<Entry>, own: nat, doc: seq<SourceRule>, s: set<nat>, k: nat)
    requires own < |cubes| && WellNamed(cubes) && SameCubes(cubes, entries) && RulesFrom(cubes, entries, own, doc)
    requires DocWithin(cubes, own, doc, s) && k < |RulesOf(entries[own])|
    ensures ReadsWithin(RulesOf(entries[own])[k].expr, s)
  {
    hide LowerExpr, Bearing, WellNamed, AreaResolves, Matches, AreaHolds, AreaOk, ExprOk, ReadsWithin;
    assert SameRule(cubes, entries, own, doc[k], RulesOf(entries[own])[k]);
    var names := RefCubes(doc[k].formula, cubes[own].name);
    CollectedCoversCompiled(cubes, own, doc[k].formula, names);
    ReadsMore(RulesOf(entries[own])[k].expr, Bearing(cubes, own, names), s);
  }

  // ---------------------------------------------------------------- registries at versions

  /** What each cube holds at each of its versions. */
  type Contents = (string, nat) -> Cube

  ghost predicate Named(contents: Contents) {
    forall c, v :: contents(c, v).name == c
  }

  /** The cubes there are, each once, in the order a registry lists them. */
  ghost predicate InOrder(cfg: Config, names: seq<string>) {
    (forall i, j :: 0 <= i < j < |names| ==> names[i] != names[j]) && (forall n :: n in names <==> n in cfg.cubes)
  }

  function CubesAt(contents: Contents, names: seq<string>, v: Versions): (r: seq<Cube>)
    requires forall n :: n in names ==> n in v
    ensures |r| == |names| && forall o :: 0 <= o < |names| ==> r[o] == contents(names[o], v[names[o]])
  {
    seq(|names|, o requires 0 <= o < |names| => contents(names[o], v[names[o]]))
  }

  function DocsAt(cfg: Config, names: seq<string>, v: Versions): (r: seq<seq<SourceRule>>)
    requires forall n :: n in names ==> n in v
    ensures |r| == |names| && forall o :: 0 <= o < |names| ==> r[o] == cfg.rules(names[o], v[names[o]])
  {
    seq(|names|, o requires 0 <= o < |names| => cfg.rules(names[o], v[names[o]]))
  }

  /** A registry of every cube at the given version. */
  ghost predicate ServedAt(cfg: Config, contents: Contents, names: seq<string>, v: Versions, env: Env) {
    && (forall n :: n in names ==> n in v)
    && IsRegistry(CubesAt(contents, names, v), DocsAt(cfg, names, v), env.entries) && EnvOk(env) && Licensed(env)
  }

  /** Each cube at the newer of two versions. */
  function Newest(a: Versions, b: Versions): Versions {
    map c | c in a :: if c in b && b[c] > a[c] then b[c] else a[c]
  }

  /** Where the target's rules name a set closed under naming, the values returned, cached or
      computed, are those of a registry no cube of which is older than when the read began. */
  lemma ReturnedValuesAreFresh(cfg: Config, contents: Contents, names: seq<string>, v0: Versions, s: State, id: nat,
                               o: nat, a: Env, b: Env, coord: Coord)
    requires Named(contents) && InOrder(cfg, names) && v0.Keys == cfg.cubes && Reachable(cfg, v0, s)
    requires id in s.readers && s.readers[id].phase.Returned?
    requires s.readers[id].target in s.readers[id].phase.cells
    requires ClosedRefs(cfg, s.readers[id].phase.cells, s.readers[id].target)
    requires ServedAt(cfg, contents, names, s.readers[id].phase.cells, a)
    requires ServedAt(cfg, contents, names, Newest(s.readers[id].phase.cells, s.readers[id].began), b)
    requires a.overlay == b.overlay && a.mask == b.mask
    requires o < |names| && names[o] == s.readers[id].target
    ensures var r := s.readers[id];
            var newest := Newest(r.phase.cells, r.began);
            && newest.Keys == r.began.Keys == cfg.cubes && NoOlder(newest, r.began) && newest[r.target] == r.version
    ensures Eval(a, {}, Cell(o, coord)) == Eval(b, {}, Cell(o, coord))
  {
    hide Reachable, ServedAt, Eval, InOrder, Named, ClosedRefs, Refs, Exec;
    ReturnedIsFresh(cfg, v0, s, id);
    var r := s.readers[id];
    var cells, newest := r.phase.cells, Newest(r.phase.cells, r.began);
    forall c | c == r.target || (c in Refs(cfg, r.target, r.version) && c in cells)
      ensures newest[c] == cells[c]
    {
      assert c != r.target ==> c in Referenced(cfg, r);
    }
    SameWhereNamed(cfg, contents, names, cells, newest, r.target, o, a, b, coord);
  }

  lemma SameWhereNamed(cfg: Config, contents: Contents, names: seq<string>, v: Versions, w: Versions, target: string,
                       o: nat, a: Env, b: Env, coord: Coord)
    requires Named(contents) && InOrder(cfg, names) && v.Keys == w.Keys == cfg.cubes
    requires o < |names| && names[o] == target && target in v && ClosedRefs(cfg, v, target)
    requires forall c :: c == target || (c in Refs(cfg, target, v[target]) && c in v) ==> w[c] == v[c]
    requires ServedAt(cfg, contents, names, v, a) && ServedAt(cfg, contents, names, w, b)
    requires a.overlay == b.overlay && a.mask == b.mask
    ensures Eval(a, {}, Cell(o, coord)) == Eval(b, {}, Cell(o, coord))
  {
    hide EnvOk, Licensed, Eval, IsRegistry, DocWithin, Refs, ClosedRefs, Named, InOrder;
    var members := Members(names, Refs(cfg, target, v[target]) + {target});
    var ca, cb := CubesAt(contents, names, v), CubesAt(contents, names, w);
    var da, db := DocsAt(cfg, names, v), DocsAt(cfg, names, w);
    SameMembers(cfg, contents, names, v, w, target, members);
    forall i | i in members && i < |ca|
      ensures DocWithin(ca, i, da[i], members)
    {
      NamedWithin(cfg, contents, names, v, target, i, members);
    }
    SameDocsDecide(ca, cb, da, db, a, b, members, Cell(o, coord));
  }

  /** The places of the listed names that lie in a set. */
  ghost function Members(names: seq<string>, s: set<string>): (r: set<nat>)
    ensures forall i: nat :: i in r <==> i < |names| && names[i] in s
  {
    set i | 0 <= i < |names| && names[i] in s
  }

  lemma SameMembers(cfg: Config, contents: Contents, names: seq<string>, v: Versions, w: Versions, target: string,
                    s: set<nat>)
    requires Named(contents) && (forall n :: n in names ==> n in v && n in w) && target in v
    requires forall c :: c == target || (c in Refs(cfg, target, v[target]) && c in v) ==> c in w && w[c] == v[c]
    requires s == Members(names, Refs(cfg, target, v[target]) + {target})
    ensures AgreeOn(CubesAt(contents, names, v), CubesAt(contents, names, w), s)
    ensures forall i :: i in s ==> DocsAt(cfg, names, v)[i] == DocsAt(cfg, names, w)[i]
  {
    hide Refs;
    forall i | 0 <= i < |names|
      ensures names[i] in v && CubesAt(contents, names, v)[i].name == CubesAt(contents, names, w)[i].name
      ensures i in s ==> w[names[i]] == v[names[i]]
    {
      assert names[i] in names;
    }
  }

  lemma NamedWithin(cfg: Config, contents: Contents, names: seq<string>, v: Versions, target: string, i: nat,
                    s: set<nat>)
    requires Named(contents) && InOrder(cfg, names) && v.Keys == cfg.cubes && target in v && ClosedRefs(cfg, v, target)
    requires i < |names| && names[i] in Refs(cfg, target, v[target]) + {target}
    requires forall j: nat :: j in s <==> j < |names| && names[j] in Refs(cfg, target, v[target]) + {target}
    ensures (forall n :: n in names ==> n in v)
              && DocWithin(CubesAt(contents, names, v), i, DocsAt(cfg, names, v)[i], s)
  {
    hide Refs, RefCubes;
    var cubes, doc := CubesAt(contents, names, v), DocsAt(cfg, names, v)[i];
    forall k, j | 0 <= k < |doc| && j in Bearing(cubes, i, RefCubes(doc[k].formula, cubes[i].name))
      ensures j in s
    {
      assert names[j] in names && names[i] in names;
      assert cubes[j].name == names[j] && cubes[i].name == names[i];
      assert names[j] in RefCubes(doc[k].formula, names[i]) ==> NamedBy(doc, names[i], names[j]);
    }
  }
}
