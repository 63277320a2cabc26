/** Registries built from snapshots: every cube with its rules compiled against all of them. */
module Registry {
  import opened CubeModel
  import opened Sparse
  import opened Gate
  import opened RuleSource
  import opened Compile

  /** Exactly when compiling the document succeeds. */
  ghost predicate DocCompiles(cubes: seq<Cube>, own: nat, doc: seq<SourceRule>)
    requires own < |cubes|
  {
    forall k :: 0 <= k < |doc| ==> RuleResolves(cubes, own, doc[k])
  }

  /** A cube's rule set is its document compiled, or broken when it does not compile. */
  ghost predicate RulesFrom(cubes: seq<Cube>, entries: seq<Entry>, own: nat, doc: seq<SourceRule>)
    requires own < |cubes| && WellNamed(cubes) && SameCubes(cubes, entries)
  {
    if DocCompiles(cubes, own, doc) then
      && entries[own].rules.Compiled? && |entries[own].rules.rules| == |doc|
      && forall k :: 0 <= k < |doc| ==> SameRule(cubes, entries, own, doc[k], entries[own].rules.rules[k])
    else entries[own].rules == Broken
  }

  ghost predicate CubesOk(cubes: seq<Cube>) {
    WellNamed(cubes) && forall o :: 0 <= o < |cubes| ==> CubeOk(cubes[o])
  }

  ghost predicate IsRegistry(cubes: seq<Cube>, docs: seq<seq<SourceRule>>, entries: seq<Entry>) {
    && |docs| == |cubes| && CubesOk(cubes) && SameCubes(cubes, entries)
    && forall o :: 0 <= o < |cubes| ==> RulesFrom(cubes, entries, o, docs[o])
  }

  /** What compilation establishes is what evaluation, inference and the gate assume. */
  lemma RegistryIsOk(cubes: seq<Cube>, docs: seq<seq<SourceRule>>, env: Env)
    requires IsRegistry(cubes, docs, env.entries) && (env.overlay.Some? ==> env.overlay.value.scope != 0)
    requires forall o :: 0 <= o < |env.entries| && env.entries[o].fed.Some? ==>
               forall c :: c in env.entries[o].fed.value ==> AllLeaf(env.entries[o].cube.dims, c)
    ensures EnvOk(env)
  {
    hide CubeOk, AreaResolves, LowerExpr, AreaOk, ExprOk, AllLeaf, WellNamed, Matches, AreaHolds;
    forall o | 0 <= o < |env.entries|
      ensures EntryOk(env.entries, o)
    {
      assert RulesFrom(cubes, env.entries, o, docs[o]) && CubeOk(cubes[o]);
      forall k | 0 <= k < |RulesOf(env.entries[o])|
        ensures AreaOk(RulesOf(env.entries[o])[k].area, env.entries[o].cube.dims)
        ensures ExprOk(RulesOf(env.entries[o])[k].expr, o, env.entries)
      {
        assert SameRule(cubes, env.entries, o, docs[o][k], RulesOf(env.entries[o])[k]);
      }
    }
  }

  lemma SameRuleAgain(cubes: seq<Cube>, a: seq<Entry>, b: seq<Entry>, own: nat, source: SourceRule, rule: Rule)
    requires own < |cubes| && WellNamed(cubes) && SameCubes(cubes, a) && SameCubes(cubes, b)
    requires SameRule(cubes, a, own, source, rule)
    ensures SameRule(cubes, b, own, source, rule)
  {
    hide LowerExpr, AreaOk, ExprOk, WellNamed, Matches, AreaHolds;
    LoweredOk(cubes, b, own, source.formula);
  }

  /** Rule sets do not depend on one another: compiling looks at cubes only. */
  lemma RulesFromCubes(cubes: seq<Cube>, a: seq<Entry>, b: seq<Entry>, own: nat, doc: seq<SourceRule>)
    requires own < |cubes| && WellNamed(cubes) && SameCubes(cubes, a) && SameCubes(cubes, b)
    requires a[own].rules == b[own].rules && RulesFrom(cubes, a, own, doc)
    ensures RulesFrom(cubes, b, own, doc)
  {
    hide DocCompiles, SameRule, WellNamed;
    if DocCompiles(cubes, own, doc) {
      forall k | 0 <= k < |doc|
        ensures SameRule(cubes, b, own, doc[k], b[own].rules.rules[k])
      {
        SameRuleAgain(cubes, a, b, own, doc[k], a[own].rules.rules[k]);
      }
    }
  }

  function Bare(cubes: seq<Cube>): (r: seq<Entry>)
    ensures |r| == |cubes| && forall o :: 0 <= o < |cubes| ==> r[o] == Entry(cubes[o], NoModel, None)
  {
    seq(|cubes|, o requires 0 <= o < |cubes| => Entry(cubes[o], NoModel, None))
  }

  /** The registry of a query: all rules compiled, then the gate run cube by cube. */
  method BuildRegistry(cubes: seq<Cube>, docs: seq<seq<SourceRule>>) returns (env: Env)
    requires CubesOk(cubes) && |docs| == |cubes|
    ensures IsRegistry(cubes, docs, env.entries) && EnvOk(env) && Licensed(env)
    ensures env.overlay.None? && env.mask.None?
    ensures EnvOk(Base(env))
    ensures forall o :: 0 <= o < |cubes| ==> (env.entries[o].fed.Some? <==> MayLicense(Base(env), o))
  {
    hide CubeOk, RulesFrom, EnvOk, Licensed, WellNamed, Base, MayLicense;
    var entries := Bare(cubes);
    for o := 0 to |cubes|
      invariant SameCubes(cubes, entries)
      invariant forall k :: 0 <= k < o ==> RulesFrom(cubes, entries, k, docs[k])
      invariant forall k :: 0 <= k < |entries| ==> entries[k].fed.None?
    {
      ghost var before := entries;
      var compiled := Compile.Compile(cubes, entries, o, docs[o]);
      var rules := match compiled case Done(rs) => Compiled(rs) case Failed(_) => Broken;
      entries := entries[o := entries[o].(rules := rules)];
      forall k | 0 <= k < o
        ensures RulesFrom(cubes, entries, k, docs[k])
      {
        RulesFromCubes(cubes, before, entries, k, docs[k]);
      }
      OneCompiled(cubes, before, entries, o, docs[o], compiled);
    }
    var base := Env(entries, None, None);
    RegistryIsOk(cubes, docs, base);
    env := FromSnaps(base);
    SameButLicense(cubes, docs, base, env);
  }

  lemma OneCompiled(cubes: seq<Cube>, before: seq<Entry>, entries: seq<Entry>, o: nat, doc: seq<SourceRule>,
                    compiled: Outcome<seq<Rule>>)
    requires o < |cubes| && CubesOk(cubes) && SameCubes(cubes, before) && SameCubes(cubes, entries)
    requires entries[o].rules == (match compiled case Done(rs) => Compiled(rs) case Failed(_) => Broken)
    requires compiled.Done? <==> DocCompiles(cubes, o, doc)
    requires compiled.Done? ==> |compiled.value| == |doc|
    requires compiled.Done? ==> forall k :: 0 <= k < |doc| ==> SameRule(cubes, before, o, doc[k], compiled.value[k])
    ensures RulesFrom(cubes, entries, o, doc)
  {
    hide SameRule, DocCompiles, WellNamed, CubeOk;
    if compiled.Done? {
      forall k | 0 <= k < |doc|
        ensures SameRule(cubes, entries, o, doc[k], compiled.value[k])
      {
        SameRuleAgain(cubes, before, entries, o, doc[k], compiled.value[k]);
      }
    }
  }

  lemma SameButLicense(cubes: seq<Cube>, docs: seq<seq<SourceRule>>, base: Env, env: Env)
    requires EnvOk(env) && IsRegistry(cubes, docs, base.entries) && Base(env) == base
    ensures IsRegistry(cubes, docs, env.entries)
  {
    hide RulesFrom, WellNamed, CubeOk, EnvOk;
    assert |base.entries| == |env.entries|;
    forall o | 0 <= o < |env.entries|
      ensures env.entries[o].cube == cubes[o] && env.entries[o].rules == base.entries[o].rules
    {
      assert base.entries[o] == env.entries[o].(fed := None);
    }
    forall o | 0 <= o < |cubes|
      ensures RulesFrom(cubes, env.entries, o, docs[o])
    {
      RulesFromCubes(cubes, base.entries, env.entries, o, docs[o]);
    }
  }
}
