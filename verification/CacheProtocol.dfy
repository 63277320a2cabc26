/** The read-through protocol around the view cache, step by step and under every interleaving
    with writers: what is keyed, when siblings are read, when an entry is stored. */
module CacheProtocol {
  import opened CubeModel
  import opened RuleSource
  import opened References

  type Versions = map<string, nat>

  /** The cubes there are, and the rules each has at each of its versions. */
  datatype Config = Config(cubes: set<string>, rules: (string, nat) -> seq<SourceRule>)

  /** The other cubes that the rules of `c` at version `v` name directly. */
  function Refs(cfg: Config, c: string, v: nat): (r: set<string>)
    ensures forall d :: d in r <==> NamedBy(cfg.rules(c, v), c, d)
    ensures c !in r
  {
    var doc := cfg.rules(c, v);
    var r := set k, d | 0 <= k < |doc| && d in RefCubes(doc[k].formula, c) :: d;
    assert c !in r by {
      forall k | 0 <= k < |doc|
        ensures c !in RefCubes(doc[k].formula, c)
      {
        NeverSelf(doc[k].formula, c);
      }
    }
    r
  }

  datatype Key = Key(target: string, version: nat, deps: Versions)

  /** A cellset is represented by the version it read each cube at. */
  datatype Phase = Keying | Snapping | Returned(cells: Versions, toStore: bool)

  /** `began` remembers the versions current when the read began. */
  datatype Reader = Reader(target: string, version: nat, began: Versions, deps: Versions, snaps: Versions, phase: Phase)

  datatype State = State(versions: Versions, readers: map<nat, Reader>, cache: map<Key, Versions>)

  datatype Step =
    | Write(cube: string)
    | Begin(id: nat, target: string)
    | Observe(id: nat, cube: string)
    | Hit(id: nat)
    | Miss(id: nat)
    | Snap(id: nat, cube: string)
    | Finish(id: nat)
    | Store(id: nat)
    | Evict(key: Key)

  function KeyOf(r: Reader): Key { Key(r.target, r.version, r.deps) }

  function Referenced(cfg: Config, r: Reader): set<string> {
    Refs(cfg, r.target, r.version) * cfg.cubes
  }

  predicate Enabled(cfg: Config, s: State, step: Step) {
    match step
    case Write(c) => c in s.versions
    case Begin(id, t) => id !in s.readers && t in s.versions
    case Observe(id, c) =>
      id in s.readers && s.readers[id].phase == Keying && c in Referenced(cfg, s.readers[id]) && c in s.versions
    case Hit(id) => KeyReady(cfg, s, id) && KeyOf(s.readers[id]) in s.cache
    case Miss(id) => KeyReady(cfg, s, id) && KeyOf(s.readers[id]) !in s.cache
    case Snap(id, c) =>
      id in s.readers && s.readers[id].phase == Snapping && c in s.versions && c != s.readers[id].target
    case Finish(id) =>
      id in s.readers && s.readers[id].phase == Snapping
        && s.readers[id].snaps.Keys == cfg.cubes - {s.readers[id].target}
    case Store(id) => id in s.readers && s.readers[id].phase.Returned? && s.readers[id].phase.toStore
    case Evict(k) => k in s.cache
  }

  predicate KeyReady(cfg: Config, s: State, id: nat) {
    id in s.readers && s.readers[id].phase == Keying && s.readers[id].deps.Keys == Referenced(cfg, s.readers[id])
  }

  function Observed(r: Reader, c: string, v: nat): Reader { r.(deps := r.deps[c := v]) }

  function Snapped(r: Reader, c: string, v: nat): Reader { r.(snaps := r.snaps[c := v]) }

  function Finished(r: Reader): Reader { r.(phase := Returned(r.snaps[r.target := r.version], true)) }

  function Served(r: Reader, cells: Versions): Reader { r.(phase := Returned(cells, false)) }

  function Apply(cfg: Config, s: State, step: Step): State
    requires Enabled(cfg, s, step)
  {
    match step
    case Write(c) => s.(versions := s.versions[c := s.versions[c] + 1])
    case Begin(id, t) => s.(readers := s.readers[id := Reader(t, s.versions[t], s.versions, map[], map[], Keying)])
    case Observe(id, c) => s.(readers := s.readers[id := Observed(s.readers[id], c, s.versions[c])])
    case Hit(id) => s.(readers := s.readers[id := Served(s.readers[id], s.cache[KeyOf(s.readers[id])])])
    case Miss(id) => s.(readers := s.readers[id := s.readers[id].(phase := Snapping)])
    case Snap(id, c) => s.(readers := s.readers[id := Snapped(s.readers[id], c, s.versions[c])])
    case Finish(id) => s.(readers := s.readers[id := Finished(s.readers[id])])
    case Store(id) =>
      var r := s.readers[id];
      s.(cache := s.cache[KeyOf(r) := r.phase.cells], readers := s.readers[id := Served(r, r.phase.cells)])
    case Evict(k) => s.(cache := s.cache - {k})
  }

  /** The state after a run from versions `v0`, if every step of it could be taken. */
  function Exec(cfg: Config, v0: Versions, steps: seq<Step>): Option<State> {
    if steps == [] then Some(State(v0, map[], map[]))
    else
      match Exec(cfg, v0, steps[..|steps| - 1])
      case None => None
      case Some(s) =>
        var step := steps[|steps| - 1];
        if Enabled(cfg, s, step) then Some(Apply(cfg, s, step)) else None
  }

  ghost predicate Reachable(cfg: Config, v0: Versions, s: State) {
    exists steps :: Exec(cfg, v0, steps) == Some(s)
  }

  // ---------------------------------------------------------------- the invariant

  ghost predicate NoOlder(a: Versions, b: Versions) {
    forall c :: c in a && c in b ==> a[c] >= b[c]
  }

  ghost predicate CellsRight(cfg: Config, cells: Versions, key: Key) {
    && cells.Keys == cfg.cubes && key.target in cells && cells[key.target] == key.version
    && key.deps.Keys <= cfg.cubes && NoOlder(cells, key.deps)
  }

  ghost predicate ReaderRight(cfg: Config, versions: Versions, r: Reader) {
    && r.target in cfg.cubes && r.began.Keys == cfg.cubes && r.version == r.began[r.target]
    && NoOlder(versions, r.began) && NoOlder(versions, r.deps) && NoOlder(versions, r.snaps)
    && r.deps.Keys <= Referenced(cfg, r) && NoOlder(r.deps, r.began)
    && r.snaps.Keys <= cfg.cubes - {r.target} && NoOlder(r.snaps, r.deps)
    && (r.phase == Keying ==> r.snaps == map[])
    && (r.phase != Keying ==> r.deps.Keys == Referenced(cfg, r))
    && (r.phase.Returned? ==> CellsRight(cfg, r.phase.cells, KeyOf(r)))
  }

  ghost predicate ReadersRight(cfg: Config, versions: Versions, readers: map<nat, Reader>) {
    forall id :: id in readers ==> ReaderRight(cfg, versions, readers[id])
  }

  ghost predicate CacheRight(cfg: Config, cache: map<Key, Versions>) {
    forall k :: k in cache ==> CellsRight(cfg, cache[k], k)
  }

  ghost predicate Inv(cfg: Config, s: State) {
    s.versions.Keys == cfg.cubes && ReadersRight(cfg, s.versions, s.readers) && CacheRight(cfg, s.cache)
  }

  lemma WriteKeeps(cfg: Config, versions: Versions, readers: map<nat, Reader>, c: string)
    requires c in versions && versions.Keys == cfg.cubes && ReadersRight(cfg, versions, readers)
    ensures ReadersRight(cfg, versions[c := versions[c] + 1], readers)
  {
    hide CellsRight, Referenced, KeyOf, NoOlder;
    forall id | id in readers
      ensures ReaderRight(cfg, versions[c := versions[c] + 1], readers[id])
    {
      var r := readers[id];
      assert ReaderRight(cfg, versions, r);
      StillNoOlder(versions, c, r.began);
      StillNoOlder(versions, c, r.deps);
      StillNoOlder(versions, c, r.snaps);
    }
  }

  lemma StillNoOlder(versions: Versions, c: string, than: Versions)
    requires c in versions && NoOlder(versions, than)
    ensures NoOlder(versions[c := versions[c] + 1], than)
  {}

  lemma ObserveKeeps(cfg: Config, versions: Versions, r: Reader, c: string)
    requires ReaderRight(cfg, versions, r) && versions.Keys == cfg.cubes
    requires r.phase == Keying && c in Referenced(cfg, r)
    ensures ReaderRight(cfg, versions, Observed(r, c, versions[c]))
  {
    hide CellsRight;
  }

  lemma SnapKeeps(cfg: Config, versions: Versions, r: Reader, c: string)
    requires ReaderRight(cfg, versions, r) && versions.Keys == cfg.cubes
    requires r.phase == Snapping && c in cfg.cubes && c != r.target
    ensures ReaderRight(cfg, versions, Snapped(r, c, versions[c]))
  {
    hide CellsRight;
  }

  lemma FinishKeeps(cfg: Config, versions: Versions, r: Reader)
    requires ReaderRight(cfg, versions, r)
    requires r.phase == Snapping && r.snaps.Keys == cfg.cubes - {r.target}
    ensures ReaderRight(cfg, versions, Finished(r))
  {
    assert r.target !in Refs(cfg, r.target, r.version);
    assert r.target !in r.deps;
  }

  lemma ServeKeeps(cfg: Config, versions: Versions, r: Reader, cells: Versions)
    requires ReaderRight(cfg, versions, r) && r.deps.Keys == Referenced(cfg, r)
    requires CellsRight(cfg, cells, KeyOf(r))
    ensures ReaderRight(cfg, versions, Served(r, cells))
  {
    hide CellsRight;
  }

  lemma MissKeeps(cfg: Config, versions: Versions, r: Reader)
    requires ReaderRight(cfg, versions, r) && r.phase == Keying && r.deps.Keys == Referenced(cfg, r)
    ensures ReaderRight(cfg, versions, r.(phase := Snapping))
  {}

  lemma BeginKeeps(cfg: Config, versions: Versions, target: string)
    requires versions.Keys == cfg.cubes && target in versions
    ensures ReaderRight(cfg, versions, Reader(target, versions[target], versions, map[], map[], Keying))
  {}

  lemma StoreKeeps(cfg: Config, versions: Versions, cache: map<Key, Versions>, r: Reader)
    requires ReaderRight(cfg, versions, r) && r.phase.Returned? && CacheRight(cfg, cache)
    ensures CacheRight(cfg, cache[KeyOf(r) := r.phase.cells])
    ensures ReaderRight(cfg, versions, Served(r, r.phase.cells))
  {
    hide CellsRight;
  }

  lemma StepKeepsInv(cfg: Config, s: State, step: Step)
    requires Inv(cfg, s) && Enabled(cfg, s, step)
    ensures Inv(cfg, Apply(cfg, s, step))
  {
    hide ReaderRight, CellsRight, Referenced;
    match step
    case Write(c) => WriteKeeps(cfg, s.versions, s.readers, c);
    case Evict(k) =>
    case Begin(id, t) =>
      BeginKeeps(cfg, s.versions, t);
    case Observe(id, c) => ObserveKeeps(cfg, s.versions, s.readers[id], c);
    case Hit(id) => ServeKeeps(cfg, s.versions, s.readers[id], s.cache[KeyOf(s.readers[id])]);
    case Miss(id) => MissKeeps(cfg, s.versions, s.readers[id]);
    case Snap(id, c) => SnapKeeps(cfg, s.versions, s.readers[id], c);
    case Finish(id) => FinishKeeps(cfg, s.versions, s.readers[id]);
    case Store(id) => StoreKeeps(cfg, s.versions, s.cache, s.readers[id]);
  }

  lemma {:induction false} ReachableInv(cfg: Config, v0: Versions, steps: seq<Step>)
    requires v0.Keys == cfg.cubes && Exec(cfg, v0, steps).Some?
    ensures Inv(cfg, Exec(cfg, v0, steps).value)
  {
    hide Inv, Enabled, Apply;
    if steps == [] {
      InitInv(cfg, v0);
    } else {
      ReachableInv(cfg, v0, steps[..|steps| - 1]);
      StepKeepsInv(cfg, Exec(cfg, v0, steps[..|steps| - 1]).value, steps[|steps| - 1]);
    }
  }

  lemma InitInv(cfg: Config, v0: Versions)
    requires v0.Keys == cfg.cubes
    ensures Inv(cfg, State(v0, map[], map[]))
  {}

  // ---------------------------------------------------------------- freshness

  /** The rules of `a`, taken at the version it was read at, name `b`. */
  ghost predicate Link(cfg: Config, cells: Versions, a: string, b: string) {
    a in cells && b in cells && b in Refs(cfg, a, cells[a])
  }

  /** `path` follows direct references, each cube's rules taken at the version it was read at. */
  ghost predicate Follows(cfg: Config, cells: Versions, path: seq<string>) {
    && |path| > 0 && path[0] in cells
    && forall i, j :: 0 <= i && j == i + 1 < |path| ==> Link(cfg, cells, path[i], path[j])
  }

  /** The cubes an evaluation of the target can consult. */
  ghost predicate Consults(cfg: Config, cells: Versions, target: string, c: string) {
    exists path :: Follows(cfg, cells, path) && path[0] == target && path[|path| - 1] == c
  }

  /** What the target's rules name is closed under naming, among the cubes there are and at the
      versions they were read at. */
  ghost predicate ClosedRefs(cfg: Config, cells: Versions, target: string)
    requires target in cells
  {
    forall d :: d in Refs(cfg, target, cells[target]) && d in cells ==>
      Refs(cfg, d, cells[d]) * cells.Keys <= Refs(cfg, target, cells[target]) + {target}
  }

  /** Every cellset returned, cached or computed, was computed at exactly the target version
      keyed, and at versions of the cubes its rules name no older than the reader saw when it
      built its key, nor than those current when its read began. */
  lemma ReturnedIsFresh(cfg: Config, v0: Versions, s: State, id: nat)
    requires v0.Keys == cfg.cubes && Reachable(cfg, v0, s)
    requires id in s.readers && s.readers[id].phase.Returned?
    ensures var r := s.readers[id];
            var cells := r.phase.cells;
            && cells.Keys == r.began.Keys == cfg.cubes && r.target in cfg.cubes
            && cells[r.target] == r.version == r.began[r.target]
            && (forall c :: c in Referenced(cfg, r) ==> c in r.deps && cells[c] >= r.deps[c] >= r.began[c])
            && (ClosedRefs(cfg, cells, r.target) ==>
                  forall c :: Consults(cfg, cells, r.target, c) ==> c in cells && cells[c] >= r.began[c])
  {
    hide Exec, Consults, ClosedRefs, Refs;
    var steps :| Exec(cfg, v0, steps) == Some(s);
    ReachableInv(cfg, v0, steps);
    var r := s.readers[id];
    assert ReaderRight(cfg, s.versions, r);
    var cells := r.phase.cells;
    if ClosedRefs(cfg, cells, r.target) {
      forall c | Consults(cfg, cells, r.target, c)
        ensures c in cells && cells[c] >= r.began[c]
      {
        ConsultsDirect(cfg, cells, r.target, c);
        assert c != r.target ==> c in Referenced(cfg, r);
      }
    }
  }

  lemma ConsultsDirect(cfg: Config, cells: Versions, target: string, c: string)
    requires target in cells && ClosedRefs(cfg, cells, target) && Consults(cfg, cells, target, c)
    ensures c in cells && c in Refs(cfg, target, cells[target]) + {target}
  {
    hide ClosedRefs, Refs;
    var path :| Follows(cfg, cells, path) && path[0] == target && path[|path| - 1] == c;
    StaysDirect(cfg, cells, target, path, |path| - 1);
  }

  lemma {:induction false} StaysDirect(cfg: Config, cells: Versions, target: string, path: seq<string>, i: nat)
    requires target in cells && ClosedRefs(cfg, cells, target)
    requires Follows(cfg, cells, path) && path[0] == target && i < |path|
    ensures path[i] in cells && path[i] in Refs(cfg, target, cells[target]) + {target}
  {
    if i > 0 {
      StaysDirect(cfg, cells, target, path, i - 1);
      assert Link(cfg, cells, path[i - 1], path[i]);
    }
  }

  // ---------------------------------------------------------------- and no more than that

  lemma Extend(cfg: Config, v0: Versions, s: State, step: Step)
    requires Reachable(cfg, v0, s) && Enabled(cfg, s, step)
    ensures Reachable(cfg, v0, Apply(cfg, s, step))
  {
    hide Enabled, Apply;
    var steps :| Exec(cfg, v0, steps) == Some(s);
    var more := steps + [step];
    assert more[..|more| - 1] == steps;
    assert Exec(cfg, v0, more) == Some(Apply(cfg, s, step));
  }

  function Current(s: State, names: set<string>): (r: Versions)
    ensures forall c :: c in r <==> c in names && c in s.versions
    ensures forall c :: c in r ==> r[c] == s.versions[c]
  {
    map c | c in names && c in s.versions :: s.versions[c]
  }

  function WithDeps(s: State, id: nat, deps: Versions): State
    requires id in s.readers
  {
    s.(readers := s.readers[id := s.readers[id].(deps := deps)])
  }

  function WithSnaps(s: State, id: nat, snaps: Versions): State
    requires id in s.readers
  {
    s.(readers := s.readers[id := s.readers[id].(snaps := snaps)])
  }

  /** With no writer about, a reader observes every dependency at its current version. */
  lemma {:induction false} ObserveAll(cfg: Config, v0: Versions, s: State, id: nat, todo: set<string>)
    returns (t: State)
    requires Reachable(cfg, v0, s) && id in s.readers && s.readers[id].phase == Keying
    requires todo <= Referenced(cfg, s.readers[id]) && cfg.cubes == s.versions.Keys
    requires s.readers[id].deps == Current(s, Referenced(cfg, s.readers[id]) - todo)
    ensures Reachable(cfg, v0, t) && t == WithDeps(s, id, Current(s, Referenced(cfg, s.readers[id])))
    decreases todo
  {
    hide Reachable, Current, Refs;
    var named := Referenced(cfg, s.readers[id]);
    if todo == {} {
      t := s;
      assert named - todo == named;
      assert t.readers == s.readers[id := s.readers[id]];
    } else {
      var c :| c in todo;
      Extend(cfg, v0, s, Observe(id, c));
      assert s.readers[id].deps[c := s.versions[c]] == Current(s, named - (todo - {c}));
      t := ObserveAll(cfg, v0, Apply(cfg, s, Observe(id, c)), id, todo - {c});
      assert Current(Apply(cfg, s, Observe(id, c)), named) == Current(s, named);
    }
  }

  lemma {:induction false} SnapAll(cfg: Config, v0: Versions, s: State, id: nat, todo: set<string>) returns (t: State)
    requires Reachable(cfg, v0, s) && id in s.readers && s.readers[id].phase == Snapping
    requires cfg.cubes == s.versions.Keys && todo <= cfg.cubes - {s.readers[id].target}
    requires s.readers[id].snaps == Current(s, cfg.cubes - {s.readers[id].target} - todo)
    ensures Reachable(cfg, v0, t) && t == WithSnaps(s, id, Current(s, cfg.cubes - {s.readers[id].target}))
    decreases todo
  {
    hide Reachable, Current;
    var others := cfg.cubes - {s.readers[id].target};
    if todo == {} {
      t := s;
      assert others - todo == others;
      assert t.readers == s.readers[id := s.readers[id]];
    } else {
      var c :| c in todo;
      Extend(cfg, v0, s, Snap(id, c));
      assert s.readers[id].snaps[c := s.versions[c]] == Current(s, others - (todo - {c}));
      t := SnapAll(cfg, v0, Apply(cfg, s, Snap(id, c)), id, todo - {c});
      assert Current(Apply(cfg, s, Snap(id, c)), others) == Current(s, others);
    }
  }

  /** A reader that has built its key with no writer about. */
  function Keyed(cfg: Config, versions: Versions, target: string): Reader
    requires target in versions && versions.Keys == cfg.cubes
  {
    var named := Refs(cfg, target, versions[target]) * cfg.cubes;
    Reader(target, versions[target], versions, map c | c in named :: versions[c], map[], Keying)
  }

  lemma BuildKey(cfg: Config, v0: Versions, s: State, id: nat, target: string) returns (t: State)
    requires Reachable(cfg, v0, s) && id !in s.readers
    requires s.versions.Keys == cfg.cubes && target in s.versions
    ensures Reachable(cfg, v0, t)
    ensures t == s.(readers := s.readers[id := Keyed(cfg, s.versions, target)])
  {
    hide Reachable;
    Extend(cfg, v0, s, Begin(id, target));
    var s1 := Apply(cfg, s, Begin(id, target));
    t := ObserveAll(cfg, v0, s1, id, Referenced(cfg, s1.readers[id]));
    assert Current(s1, Referenced(cfg, s1.readers[id])) == Keyed(cfg, s.versions, target).deps;
  }

  /** A read that misses with no writer about leaves the current versions in the cache. */
  lemma Fill(cfg: Config, v0: Versions, s: State, id: nat) returns (t: State)
    requires Reachable(cfg, v0, s) && s.versions.Keys == cfg.cubes && id in s.readers
    requires s.readers[id].target in s.versions
    requires s.readers[id] == Keyed(cfg, s.versions, s.readers[id].target)
    requires KeyOf(s.readers[id]) !in s.cache
    ensures Reachable(cfg, v0, t) && t.versions == s.versions && t.readers.Keys == s.readers.Keys
    ensures t.cache == s.cache[KeyOf(s.readers[id]) := s.versions]
  {
    hide Reachable, Current, Refs;
    Extend(cfg, v0, s, Miss(id));
    var s1 := Apply(cfg, s, Miss(id));
    t := SnapAndStore(cfg, v0, s1, id);
  }

  lemma SnapAndStore(cfg: Config, v0: Versions, s: State, id: nat) returns (t: State)
    requires Reachable(cfg, v0, s) && s.versions.Keys == cfg.cubes && id in s.readers
    requires s.readers[id].phase == Snapping && s.readers[id].snaps == map[]
    requires s.readers[id].target in s.versions && s.readers[id].version == s.versions[s.readers[id].target]
    ensures Reachable(cfg, v0, t) && t.versions == s.versions && t.readers.Keys == s.readers.Keys
    ensures t.cache == s.cache[KeyOf(s.readers[id]) := s.versions]
  {
    hide Reachable, Current, Refs;
    var target := s.readers[id].target;
    var others := cfg.cubes - {target};
    assert Current(s, others - others) == map[];
    var s2 := SnapAll(cfg, v0, s, id, others);
    var snaps := Current(s, others);
    assert s2 == WithSnaps(s, id, snaps) && snaps.Keys == others;
    Extend(cfg, v0, s2, Finish(id));
    assert snaps[target := s.versions[target]] == s.versions;
    var s3 := Apply(cfg, s2, Finish(id));
    Extend(cfg, v0, s3, Store(id));
    t := Apply(cfg, s3, Store(id));
  }

  /** A cube the target's rules do not name can be served stale: one reader fills the cache, a
      writer bumps the cube, and a second reader, whose key has not changed, hits. */
  lemma UnnamedCanBeStale(cfg: Config, v0: Versions, target: string, d: string) returns (s: State)
    requires v0.Keys == cfg.cubes && target in cfg.cubes && d in cfg.cubes
    requires d != target && d !in Refs(cfg, target, v0[target])
    ensures Reachable(cfg, v0, s) && 1 in s.readers && s.readers[1].phase.Returned?
    ensures s.readers[1].target == target && s.readers[1].version == v0[target]
    ensures d in s.readers[1].began && d in s.readers[1].phase.cells
    ensures s.readers[1].phase.cells[d] < s.readers[1].began[d]
  {
    hide Reachable, Exec;
    var init := State(v0, map[], map[]);
    Start(cfg, v0);
    var s1 := BuildKey(cfg, v0, init, 0, target);
    var s2 := Fill(cfg, v0, s1, 0);
    Extend(cfg, v0, s2, Write(d));
    var s3 := Apply(cfg, s2, Write(d));
    var s4 := BuildKey(cfg, v0, s3, 1, target);
    assert KeyOf(s4.readers[1]) == KeyOf(s1.readers[0]);
    Extend(cfg, v0, s4, Hit(1));
    s := Apply(cfg, s4, Hit(1));
  }

  lemma Start(cfg: Config, v0: Versions)
    ensures Reachable(cfg, v0, State(v0, map[], map[]))
  {
    assert Exec(cfg, v0, []) == Some(State(v0, map[], map[]));
  }

  ghost predicate NeverStale(cfg: Config, v0: Versions, target: string, d: string)
    requires target in v0
  {
    forall s, id :: Reachable(cfg, v0, s) && id in s.readers && s.readers[id].phase.Returned?
      && s.readers[id].target == target && s.readers[id].version == v0[target]
      && d in s.readers[id].phase.cells && d in s.readers[id].began
      ==> s.readers[id].phase.cells[d] >= s.readers[id].began[d]
  }

  /** Exactly the target and the cubes its rules name are always served fresh. */
  lemma FreshIffNamed(cfg: Config, v0: Versions, target: string, d: string)
    requires v0.Keys == cfg.cubes && target in cfg.cubes && d in cfg.cubes
    ensures NeverStale(cfg, v0, target, d) <==> d == target || d in Refs(cfg, target, v0[target])
  {
    hide Exec, Follows;
    if d == target || d in Refs(cfg, target, v0[target]) {
      forall s, id | Reachable(cfg, v0, s) && id in s.readers && s.readers[id].phase.Returned?
        && s.readers[id].target == target && s.readers[id].version == v0[target]
        && d in s.readers[id].phase.cells && d in s.readers[id].began
        ensures s.readers[id].phase.cells[d] >= s.readers[id].began[d]
      {
        ReturnedIsFresh(cfg, v0, s, id);
      }
    } else {
      var s := UnnamedCanBeStale(cfg, v0, target, d);
    }
  }
}
