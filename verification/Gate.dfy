/** The completeness gate: inference checked against the densely evaluated truth, once per
    registry, before any rollup may be read sparsely. */
module Gate {
  import opened FixedPoint
  import opened CubeModel
  import opened Rollups
  import opened Semantics
  import opened Evaluation
  import opened Engine
  import opened Sparse
  import opened Walks
  import opened Feeders
  import opened FeederSoundness

  datatype Diagnostics = Diagnostics(underFed: set<Coord>, overFed: set<Coord>, erroring: map<Coord, CalcError>)

  /** A base registry: stored values and rules only, every rollup dense. */
  ghost predicate IsBase(env: Env) {
    && EnvOk(env) && env.overlay.None? && env.mask.None?
    && forall o :: 0 <= o < |env.entries| ==> env.entries[o].fed.None?
  }

  /** Some rule's area holds the leaf. */
  ghost predicate Targeted(base: Env, o: nat, t: Coord)
    requires EnvOk(base) && o < |base.entries|
  {
    TargetedUpTo(base, o, |RulesOf(base.entries[o])|, t)
  }

  ghost predicate TargetedUpTo(base: Env, o: nat, n: nat, t: Coord)
    requires EnvOk(base) && o < |base.entries| && n <= |RulesOf(base.entries[o])|
  {
    EntryParts(base, o);
    exists k :: 0 <= k < n && TargetedBy(base, o, k, t)
  }

  ghost predicate TargetedBy(base: Env, o: nat, k: nat, t: Coord)
    requires EnvOk(base) && o < |base.entries| && k < |RulesOf(base.entries[o])|
  {
    EntryParts(base, o);
    InProduct(AreaLeafDims(base.entries[o].cube.dims, RulesOf(base.entries[o])[k].area), t)
  }

  ghost function Truth(base: Env, o: nat, t: Coord): Result<Fixed>
    requires EnvOk(base)
  {
    Eval(base, {}, Cell(o, t))
  }

  /** What validation reports of one coordinate. */
  ghost predicate ReportedRight(base: Env, o: nat, index: set<Coord>, t: Coord, targeted: bool, checked: bool,
                                d: Diagnostics)
    requires EnvOk(base)
  {
    var v := Truth(base, o, t);
    && (t in d.underFed <==> targeted && v.Ok? && v != Ok(0) && t !in index)
    && (t in d.overFed <==> checked && v == Ok(0))
    && (t in d.erroring <==> (targeted || checked) && v.Err?)
    && (t in d.erroring ==> v == Err(d.erroring[t]))
  }

  /** Right about the targets of the first `k` rules. */
  ghost predicate RightUpTo(base: Env, o: nat, index: set<Coord>, k: nat, d: Diagnostics)
    requires EnvOk(base) && o < |base.entries| && k <= |RulesOf(base.entries[o])|
  {
    forall t :: ReportedRight(base, o, index, t, TargetedUpTo(base, o, k, t), false, d)
  }

  /** Validation reports exactly the targets that are not zero and not fed, the fed
      coordinates that are zero, and those of either kind that fail to evaluate. */
  method ValidateFeeders(base: Env, o: nat, index: set<Coord>) returns (d: Diagnostics)
    requires IsBase(base) && o < |base.entries|
    ensures forall t :: ReportedRight(base, o, index, t, Targeted(base, o, t), t in index, d)
  {
    hide ReportedRight, EnvOk, TargetedUpTo, TargetedBy, Truth, IsBase, MemoOk;
    BaseParts(base);
    EntryParts(base, o);
    var rules := RulesOf(base.entries[o]);
    var engine := new CalcEngine(base, map[]);
    NoMemo(base);
    d := Diagnostics({}, {}, map[]);
    NothingReported(base, o, index);
    for k := 0 to |rules|
      invariant fresh(engine) && engine.env == base && MemoOk(base, engine.memo, {})
      invariant RightUpTo(base, o, index, k, d)
    {
      d := ValidateRule(engine, base, o, k, index, d);
    }
    var todo := index;
    while todo != {}
      invariant fresh(engine) && engine.env == base && MemoOk(base, engine.memo, {})
      invariant todo <= index
      invariant forall t :: ReportedRight(base, o, index, t, Targeted(base, o, t), t in index - todo, d)
    {
      var t :| t in todo;
      var v := ReadTop(engine, base, o, t);
      forall x
        ensures ReportedRight(base, o, index, x, Targeted(base, o, x), x in index - (todo - {t}), ReportFed(d, t, v))
      {
        FedReported(base, o, index, x, t, Targeted(base, o, x), x in index - todo, d);
      }
      d, todo := ReportFed(d, t, v), todo - {t};
    }
  }

  /** Every target leaf of one rule, evaluated and reported. */
  method ValidateRule(engine: CalcEngine, base: Env, o: nat, k: nat, index: set<Coord>, before: Diagnostics)
    returns (d: Diagnostics)
    requires EnvOk(base) && o < |base.entries| && k < |RulesOf(base.entries[o])|
    requires engine.env == base && MemoOk(base, engine.memo, {})
    requires RightUpTo(base, o, index, k, before)
    modifies engine`memo
    ensures MemoOk(base, engine.memo, {})
    ensures RightUpTo(base, o, index, k + 1, d)
  {
    hide ReportedRight, EnvOk, TargetedUpTo, TargetedBy, Truth, MemoOk, Nth, Size, Reached, AreaLeafDims;
    EntryParts(base, o);
    var lists := AreaLeafDims(base.entries[o].cube.dims, RulesOf(base.entries[o])[k].area);
    d := before;
    var walk := new CoordWalk(lists);
    var more, t := walk.NextCoord();
    ghost var n: nat := 0;
    ReachedEnds(base, o, k, lists);
    while more
      invariant walk.Valid() && walk.lists == lists && fresh(walk)
      invariant n <= Size(Lens(lists))
      invariant more ==> n < Size(Lens(lists)) && t == Nth(lists, n) && walk.Emitted() == n + 1
      invariant !more ==> n == Size(Lens(lists))
      invariant MemoOk(base, engine.memo, {})
      invariant forall x :: ReportedRight(base, o, index, x, TargetedUpTo(base, o, k, x)
                                          || Reached(lists, n, x), false, d)
      decreases Size(Lens(lists)) - n
    {
      var v := ReadTop(engine, base, o, t);
      forall x
        ensures ReportedRight(base, o, index, x, TargetedUpTo(base, o, k, x) || Reached(lists, n + 1, x), false,
                              ReportTarget(d, index, t, v))
      {
        TargetReported(base, o, index, x, t, TargetedUpTo(base, o, k, x) || Reached(lists, n, x), d);
        ReachedStep(lists, n, x);
      }
      d, n := ReportTarget(d, index, t, v), n + 1;
      more, t := walk.NextCoord();
    }
    var next := k + 1;
    forall x
      ensures ReportedRight(base, o, index, x, TargetedUpTo(base, o, next, x), false, d)
    {
      assert TargetedUpTo(base, o, next, x) == (TargetedUpTo(base, o, k, x) || Reached(lists, Size(Lens(lists)), x));
    }
  }

  function ReportTarget(d: Diagnostics, index: set<Coord>, t: Coord, v: Result<Fixed>): Diagnostics {
    match v
    case Ok(x) => if x != 0 && t !in index then d.(underFed := d.underFed + {t}) else d
    case Err(e) => if t in d.erroring then d else d.(erroring := d.erroring[t := e])
  }

  function ReportFed(d: Diagnostics, t: Coord, v: Result<Fixed>): Diagnostics {
    match v
    case Ok(x) => if x == 0 then d.(overFed := d.overFed + {t}) else d
    case Err(e) => if t in d.erroring then d else d.(erroring := d.erroring[t := e])
  }

  lemma TargetReported(base: Env, o: nat, index: set<Coord>, x: Coord, t: Coord, targeted: bool, d: Diagnostics)
    requires EnvOk(base) && ReportedRight(base, o, index, x, targeted, false, d)
    ensures ReportedRight(base, o, index, x, targeted || x == t, false, ReportTarget(d, index, t, Truth(base, o, t)))
  {
    hide Truth, EnvOk;
  }

  lemma FedReported(base: Env, o: nat, index: set<Coord>, x: Coord, t: Coord, targeted: bool, checked: bool,
                    d: Diagnostics)
    requires EnvOk(base) && ReportedRight(base, o, index, x, targeted, checked, d)
    ensures ReportedRight(base, o, index, x, targeted, checked || x == t, ReportFed(d, t, Truth(base, o, t)))
  {
    hide Truth, EnvOk;
  }

  ghost predicate Reached(lists: seq<seq<nat>>, n: nat, x: Coord)
    requires n <= Size(Lens(lists))
  {
    exists m :: 0 <= m < n && Nth(lists, m) == x
  }

  lemma ReachedStep(lists: seq<seq<nat>>, n: nat, x: Coord)
    requires n < Size(Lens(lists))
    ensures Reached(lists, n + 1, x) <==> Reached(lists, n, x) || x == Nth(lists, n)
  {}

  lemma ReachedEnds(base: Env, o: nat, k: nat, lists: seq<seq<nat>>)
    requires EnvOk(base) && o < |base.entries| && k < |RulesOf(base.entries[o])|
    requires (EntryParts(base, o); lists == AreaLeafDims(base.entries[o].cube.dims, RulesOf(base.entries[o])[k].area))
    ensures forall x :: !Reached(lists, 0, x)
    ensures forall x :: TargetedUpTo(base, o, k + 1, x) <==>
              TargetedUpTo(base, o, k, x) || Reached(lists, Size(Lens(lists)), x)
  {
    hide EnvOk, AreaLeafDims, InProduct, Size, Nth;
    EntryParts(base, o);
    NthIsExact(lists);
    forall x
      ensures TargetedBy(base, o, k, x) <==> Reached(lists, Size(Lens(lists)), x)
    {}
    forall x
      ensures TargetedUpTo(base, o, k + 1, x) <==> TargetedUpTo(base, o, k, x) || TargetedBy(base, o, k, x)
    {
      hide TargetedBy;
    }
  }

  lemma BaseParts(base: Env)
    requires IsBase(base)
    ensures EnvOk(base) && base.overlay.None? && base.mask.None?
  {}

  lemma NothingReported(base: Env, o: nat, index: set<Coord>)
    requires EnvOk(base) && o < |base.entries|
    ensures RightUpTo(base, o, index, 0, Diagnostics({}, {}, map[]))
  {}

  /** One top-level read through the engine. */
  method ReadTop(engine: CalcEngine, base: Env, o: nat, t: Coord) returns (v: Result<Fixed>)
    requires EnvOk(base) && engine.env == base && MemoOk(base, engine.memo, {})
    modifies engine`memo
    ensures MemoOk(base, engine.memo, {}) && v == Truth(base, o, t)
  {
    hide EnvOk, MemoOk, Eval;
    v := engine.Value(Cell(o, t), {});
  }

  // ---------------------------------------------------------------- the gate

  datatype Doubt = NoRules | OpaqueRule | UnderFed | Erroring

  datatype FedGate = Safe(fed: seq<Coord>) | StayDense(why: Doubt)

  /** Inference localized every rule, and every target leaf has a value, fed unless it is zero. */
  ghost predicate Clean(base: Env, o: nat, fed: set<Coord>)
    requires EnvOk(base) && o < |base.entries|
  {
    EntryParts(base, o);
    var dims, rules := base.entries[o].cube.dims, RulesOf(base.entries[o]);
    && (forall k :: 0 <= k < |rules| ==> !Classify(dims, rules[k], o).Opaque?)
    && (forall t :: Targeted(base, o, t) ==> Truth(base, o, t).Ok? && (Truth(base, o, t) == Ok(0) || t in fed))
    && (forall t :: t in fed ==> Truth(base, o, t).Ok?)
  }

  /** The inferred feeders: closed under the rules, and below everything that is. */
  ghost predicate Inferred(base: Env, o: nat, fed: set<Coord>)
    requires EnvOk(base) && o < |base.entries|
  {
    EntryParts(base, o);
    Closed(base.entries[o].cube, RulesOf(base.entries[o]), o, fed)
    && forall other: set<Coord> :: Closed(base.entries[o].cube, RulesOf(base.entries[o]), o, other) ==> fed <= other
  }

  ghost predicate MayLicense(base: Env, o: nat)
    requires EnvOk(base) && o < |base.entries|
  {
    && base.entries[o].rules.Compiled?
    && (RulesOf(base.entries[o]) == [] || exists fed :: Inferred(base, o, fed) && Clean(base, o, fed))
  }

  /** Every targeted leaf has a value, and what no rule matches of them is fed or zero; so have the fed. */
  ghost predicate Valued(base: Env, o: nat, fed: set<Coord>)
    requires EnvOk(base) && o < |base.entries|
  {
    var dims, rules := base.entries[o].cube.dims, RulesOf(base.entries[o]);
    && (forall t :: Targeted(base, o, t) ==>
          Truth(base, o, t).Ok? && (FirstMatch(rules, dims, t).Some? || t in fed || Truth(base, o, t) == Ok(0)))
    && (forall t :: t in fed ==> Truth(base, o, t).Ok?)
  }

  /** Since inference is sound, the gate turns down nothing it could license: where inference analyses
      every rule and no rule is driven by an overridden consolidation without leaves, a cube stays dense
      only for a leaf that fails, or one no rule matches that is not zero. */
  lemma GateOpens(base: Env, o: nat)
    requires IsBase(base) && EnvOk(base) && o < |base.entries| && base.entries[o].rules.Compiled?
    requires NoChildlessOverride(base, o)
    requires (EntryParts(base, o);
             forall k :: 0 <= k < |RulesOf(base.entries[o])| ==>
               !Classify(base.entries[o].cube.dims, RulesOf(base.entries[o])[k], o).Opaque?)
    ensures MayLicense(base, o) <==>
              RulesOf(base.entries[o]) == [] || exists fed :: Inferred(base, o, fed) && Valued(base, o, fed)
  {
    hide EnvOk, IsBase, NoChildlessOverride, Closed, Classify, Targeted, Truth, Valued, Clean, Inferred;
    forall fed | Inferred(base, o, fed)
      ensures Clean(base, o, fed) <==> Valued(base, o, fed)
    {
      CleanIffValued(base, o, fed);
    }
  }

  lemma CleanIffValued(base: Env, o: nat, fed: set<Coord>)
    requires IsBase(base) && EnvOk(base) && o < |base.entries| && Inferred(base, o, fed)
    requires NoChildlessOverride(base, o)
    requires (EntryParts(base, o);
             forall k :: 0 <= k < |RulesOf(base.entries[o])| ==>
               !Classify(base.entries[o].cube.dims, RulesOf(base.entries[o])[k], o).Opaque?)
    ensures Clean(base, o, fed) <==> Valued(base, o, fed)
  {
    hide EnvOk, NoChildlessOverride, Closed, Classify, Targeted, FirstMatch;
    EntryParts(base, o);
    BaseParts(base);
    var dims, rules := base.entries[o].cube.dims, RulesOf(base.entries[o]);
    forall t | Targeted(base, o, t) && Truth(base, o, t).Ok? && FirstMatch(rules, dims, t).Some?
      ensures Truth(base, o, t) == Ok(0) || t in fed
    {
      if Truth(base, o, t) != Ok(0) { MatchedIsFed(base, o, fed, t); }
    }
  }

  lemma MatchedIsFed(base: Env, o: nat, fed: set<Coord>, t: Coord)
    requires EnvOk(base) && base.mask.None? && base.overlay.None? && o < |base.entries| && Inferred(base, o, fed)
    requires NoChildlessOverride(base, o) && Targeted(base, o, t) && Truth(base, o, t).Ok? && Truth(base, o, t) != Ok(0)
    requires FirstMatch(RulesOf(base.entries[o]), base.entries[o].cube.dims, t).Some?
    requires (EntryParts(base, o);
             forall k :: 0 <= k < |RulesOf(base.entries[o])| ==>
               !Classify(base.entries[o].cube.dims, RulesOf(base.entries[o])[k], o).Opaque?)
    ensures t in fed
  {
    hide EnvOk, NoChildlessOverride, Closed, Classify, FirstMatch, Compute, Eval, Bounded, Within, RunExpr, InProduct,
      AreaLeafDims;
    EntryParts(base, o);
    var dims, rules := base.entries[o].cube.dims, RulesOf(base.entries[o]);
    var k :| 0 <= k < |rules| && TargetedBy(base, o, k, t);
    AreaLeavesAreLeaves(dims, rules[k].area, t);
    AllLeafInRange(dims, t);
    SameValue(base, {}, Cell(o, t));
    var n: nat :| OkAt(base, n, Cell(o, t));
    BoundedUnfold(base, n, Cell(o, t));
    LeafRun(base, Within(base, n - 1), o, t);
    RuleFeeds(base, o, fed, n - 1, FirstMatch(rules, dims, t).value, t);
  }

  method ListOf(s: set<Coord>) returns (r: seq<Coord>)
    ensures forall c :: c in r <==> c in s
  {
    r := [];
    var todo := s;
    while todo != {}
      invariant todo <= s
      invariant forall c :: c in r <==> c in s - todo
    {
      var c :| c in todo;
      r, todo := r + [c], todo - {c};
    }
  }

  /** A cube is licensed exactly when it has rules that compiled and either there are none or
      inference leaves no doubt; the license then names the inferred feeders. */
  method SafeFedSet(base: Env, o: nat) returns (gate: FedGate)
    requires IsBase(base) && EnvOk(base) && o < |base.entries|
    ensures gate.Safe? ==> base.entries[o].rules.Compiled? && Complete(base, o, gate.fed)
    ensures gate.Safe? ==> forall c :: c in gate.fed ==> AllLeaf(base.entries[o].cube.dims, c)
    ensures gate.Safe? <==> MayLicense(base, o)
    ensures gate.Safe? && RulesOf(base.entries[o]) != [] ==> Inferred(base, o, set c | c in gate.fed)
  {
    hide EnvOk, IsBase, Truth, Targeted, Classify, Closed, Complete, AllLeaf;
    EntryParts(base, o);
    var cube, rules := base.entries[o].cube, RulesOf(base.entries[o]);
    if !base.entries[o].rules.Compiled? {
      return StayDense(NoRules);
    }
    if rules == [] {
      CompleteWithoutRules(base, o);
      return Safe([]);
    }
    var fed, opaqueIds := InferFeeders(cube, rules, o);
    assert Inferred(base, o, fed);
    OnlyInferred(base, o, fed);
    if opaqueIds != [] {
      assert opaqueIds[0] in opaqueIds;
      return StayDense(OpaqueRule);
    }
    var d := ValidateFeeders(base, o, fed);
    CleanIff(base, o, fed, d);
    if d.underFed != {} {
      return StayDense(UnderFed);
    }
    if d.erroring != map[] {
      assert d.erroring.Keys != {};
      return StayDense(Erroring);
    }
    var coords := ListOf(fed);
    assert forall k :: 0 <= k < |rules| ==> !Classify(cube.dims, rules[k], o).Opaque? by {
      assert forall k: nat :: k < |rules| ==> k !in opaqueIds;
    }
    CleanIsComplete(base, o, fed, coords);
    assert (set c | c in coords) == fed;
    gate := Safe(coords);
  }

  lemma CompleteWithoutRules(base: Env, o: nat)
    requires EnvOk(base) && o < |base.entries| && RulesOf(base.entries[o]) == []
    ensures Complete(base, o, [])
  {
    hide EnvOk;
  }

  lemma OnlyInferred(base: Env, o: nat, fed: set<Coord>)
    requires EnvOk(base) && o < |base.entries| && Inferred(base, o, fed)
    ensures forall other :: Inferred(base, o, other) ==> other == fed
  {
    hide EnvOk, Closed;
  }

  lemma CleanIff(base: Env, o: nat, fed: set<Coord>, d: Diagnostics)
    requires EnvOk(base) && o < |base.entries|
    requires forall t :: ReportedRight(base, o, fed, t, Targeted(base, o, t), t in fed, d)
    requires (EntryParts(base, o); var dims, rules := base.entries[o].cube.dims, RulesOf(base.entries[o]);
             forall k :: 0 <= k < |rules| ==> !Classify(dims, rules[k], o).Opaque?)
    ensures Clean(base, o, fed) <==> d.underFed == {} && d.erroring == map[]
  {
    hide EnvOk, Truth, Targeted, Classify;
    if Clean(base, o, fed) {
      forall t
        ensures t !in d.underFed && t !in d.erroring
      {
        assert ReportedRight(base, o, fed, t, Targeted(base, o, t), t in fed, d);
      }
      assert d.erroring.Keys == {};
    }
    if d.underFed == {} && d.erroring == map[] {
      forall t
        ensures Targeted(base, o, t) ==> Truth(base, o, t).Ok? && (Truth(base, o, t) == Ok(0) || t in fed)
        ensures t in fed ==> Truth(base, o, t).Ok?
      {
        assert ReportedRight(base, o, fed, t, Targeted(base, o, t), t in fed, d);
      }
    }
  }

  lemma CleanIsComplete(base: Env, o: nat, fed: set<Coord>, coords: seq<Coord>)
    requires EnvOk(base) && o < |base.entries| && Clean(base, o, fed)
    requires forall c :: c in coords <==> c in fed
    ensures Complete(base, o, coords)
  {
    hide EnvOk, Eval, Classify, Matches;
    EntryParts(base, o);
    var dims, rules := base.entries[o].cube.dims, RulesOf(base.entries[o]);
    forall c | AllLeaf(dims, c) && FirstMatch(rules, dims, c).Some?
      ensures Eval(base, {}, Cell(o, c)).Ok? && (Eval(base, {}, Cell(o, c)) != Ok(0) ==> c in coords)
    {
      MatchedLeafInArea(dims, rules[FirstMatch(rules, dims, c).value].area, c);
      assert TargetedBy(base, o, FirstMatch(rules, dims, c).value, c);
      assert Targeted(base, o, c);
      assert Truth(base, o, c) == Eval(base, {}, Cell(o, c));
    }
  }

  // ---------------------------------------------------------------- the registry

  /** The gate runs cube by cube against a registry with every license still withheld. */
  method FromSnaps(base: Env) returns (env: Env)
    requires IsBase(base)
    ensures EnvOk(env) && Base(env) == base && Licensed(env)
    ensures env.overlay.None? && env.mask.None?
    ensures |env.entries| == |base.entries|
    ensures forall o :: 0 <= o < |base.entries| ==> (env.entries[o].fed.Some? <==> MayLicense(base, o))
  {
    hide EnvOk, Complete, IsBase, AllLeaf, MayLicense;
    BaseParts(base);
    var entries: seq<Entry> := [];
    for o := 0 to |base.entries|
      invariant |entries| == o
      invariant forall k :: 0 <= k < o ==> entries[k].(fed := None) == base.entries[k].(fed := None)
      invariant forall k :: 0 <= k < o ==> LicenseOk(base, k, entries[k].fed)
      invariant forall k :: 0 <= k < o ==> (entries[k].fed.Some? <==> MayLicense(base, k))
    {
      var gate := SafeFedSet(base, o);
      var fed := match gate case Safe(cs) => Some(cs) case StayDense(_) => None;
      entries := entries + [base.entries[o].(fed := fed)];
    }
    env := Env(entries, None, None);
    LicensedRegistry(base, env);
  }

  ghost predicate LicenseOk(base: Env, o: nat, fed: Option<seq<Coord>>)
    requires EnvOk(base) && o < |base.entries|
  {
    fed.Some? ==>
      && !base.entries[o].rules.Broken? && Complete(base, o, fed.value)
      && forall c :: c in fed.value ==> AllLeaf(base.entries[o].cube.dims, c)
  }

  lemma LicensedRegistry(base: Env, env: Env)
    requires IsBase(base) && EnvOk(base) && env.overlay.None? && env.mask.None? && |env.entries| == |base.entries|
    requires forall k :: 0 <= k < |env.entries| ==> env.entries[k].(fed := None) == base.entries[k].(fed := None)
    requires forall k :: 0 <= k < |env.entries| ==> LicenseOk(base, k, env.entries[k].fed)
    ensures EnvOk(env) && Base(env) == base && Licensed(env)
  {
    hide Complete, CubeOk, ExprOk, AreaOk, AllLeaf;
    forall o | 0 <= o < |env.entries|
      ensures env.entries[o].cube == base.entries[o].cube && env.entries[o].rules == base.entries[o].rules
      ensures CubeOk(env.entries[o].cube)
    {
      assert env.entries[o].(fed := None) == base.entries[o].(fed := None);
      assert EntryOk(base.entries, o);
    }
    forall o, c | 0 <= o < |env.entries| && env.entries[o].fed.Some? && c in env.entries[o].fed.value
      ensures AllLeaf(env.entries[o].cube.dims, c)
    {
      assert LicenseOk(base, o, env.entries[o].fed);
    }
    ShapeOk(base, env);
    BaseEnv(env);
    assert Base(env).entries == base.entries by {
      forall o | 0 <= o < |env.entries|
        ensures Base(env).entries[o] == base.entries[o]
      {}
    }
    assert Base(env) == base;
    forall o | 0 <= o < |env.entries| && env.entries[o].fed.Some?
      ensures !env.entries[o].rules.Broken? && Complete(Base(env), o, env.entries[o].fed.value)
    {
      assert LicenseOk(base, o, env.entries[o].fed);
    }
  }

  /** What a caller attaches to a registry for one query. */
  function View(env: Env, overlay: Option<Overlay>, mask: Option<Mask>): Env {
    env.(overlay := overlay, mask := mask)
  }

  lemma ViewOk(env: Env, overlay: Option<Overlay>, mask: Option<Mask>)
    requires EnvOk(env) && (overlay.Some? ==> overlay.value.scope != 0)
    ensures EnvOk(View(env, overlay, mask)) && Base(View(env, overlay, mask)) == Base(env)
    ensures Universe(View(env, overlay, mask)) == Universe(env)
    ensures Licensed(env) ==> Licensed(View(env, overlay, mask))
  {
    hide Complete, ExprOk, CubeOk, AreaOk;
    var v := View(env, overlay, mask);
    forall o | 0 <= o < |v.entries|
      ensures EntryOk(v.entries, o)
    {
      assert EntryOk(env.entries, o);
    }
  }

  /** Every read of a registry the gate has licensed, under any overlay and mask, is the read
      of the same registry with all rollups dense. */
  lemma GatedReadsAreDense(env: Env, overlay: Option<Overlay>, mask: Option<Mask>, c: Cell)
    requires EnvOk(env) && Licensed(env) && (overlay.Some? ==> overlay.value.scope != 0)
    ensures EnvOk(View(env, overlay, mask)) && EnvOk(Dense(View(env, overlay, mask)))
    ensures Eval(View(env, overlay, mask), {}, c) == Eval(Dense(View(env, overlay, mask)), {}, c)
  {
    hide EnvOk, Licensed, Eval, Base, Universe;
    ViewOk(env, overlay, mask);
    DenseEnv(View(env, overlay, mask));
    SparseIsDense(View(env, overlay, mask), {}, c);
  }
}
