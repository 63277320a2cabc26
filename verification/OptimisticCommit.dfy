/** Optimistic commits under contention: what a name-addressed write and a rule update put into
    the engine when other writers commit between their steps. */
module OptimisticCommit {
  import opened FixedPoint
  import opened CubeModel
  import opened RuleSource

  // ---------------------------------------------------------------- the engine

  /** What a version of a cube holds. */
  datatype Content = Content(
    dims: seq<Dimension>, leaves: map<Coord, Fixed>, sandboxes: map<string, map<Coord, Fixed>>, rules: seq<SourceRule>)

  datatype Published = Published(version: nat, content: Content)

  /** Versions are minted from one counter for all cubes; `last` is the latest. */
  datatype Engine = Engine(cubes: map<string, Published>, last: nat)

  ghost predicate EngineOk(e: Engine) {
    forall c :: c in e.cubes ==> e.cubes[c].version <= e.last
  }

  /** Another writer's commit: it creates a cube, changes one in any way at all, or drops it. */
  datatype Edit = Edit(cube: string, content: Option<Content>)

  function Publish(e: Engine, cube: string, content: Content): Engine {
    Engine(e.cubes[cube := Published(e.last + 1, content)], e.last + 1)
  }

  function After(e: Engine, edits: seq<Edit>): Engine
    decreases |edits|
  {
    if edits == [] then e
    else
      var before := After(e, edits[..|edits| - 1]);
      var edit := edits[|edits| - 1];
      if edit.content.Some? then Publish(before, edit.cube, edit.content.value)
      else before.(cubes := before.cubes - {edit.cube})
  }

  datatype Refusal = Conflict | NoSuchCube | Rejected | Unresolved | DoesNotCompile | Aborted

  datatype Commit = Landed(engine: Engine) | Refused(why: Refusal)

  function Commits(e: Engine, cube: string, base: Option<nat>, change: Content -> Option<Content>): Commit {
    if cube !in e.cubes then Refused(NoSuchCube)
    else if base.Some? && base.value != e.cubes[cube].version then Refused(Conflict)
    else
      match change(e.cubes[cube].content)
      case None => Refused(Rejected)
      case Some(c) => Landed(Publish(e, cube, c))
  }

  /** Later states of an engine: a cube still at an old version holds what it held then. */
  ghost predicate Follows(a: Engine, b: Engine) {
    && a.last <= b.last
    && forall c :: c in b.cubes ==> (c in a.cubes && a.cubes[c] == b.cubes[c]) || b.cubes[c].version > a.last
  }

  lemma {:induction false} AfterFollows(e: Engine, edits: seq<Edit>)
    requires EngineOk(e)
    ensures EngineOk(After(e, edits)) && Follows(e, After(e, edits))
    decreases |edits|
  {
    if edits != [] { AfterFollows(e, edits[..|edits| - 1]); }
  }

  lemma FollowsTrans(a: Engine, b: Engine, c: Engine)
    requires EngineOk(a) && EngineOk(b) && Follows(a, b) && Follows(b, c)
    ensures Follows(a, c)
  {}

  /** A cube seen at one version twice was there, and the same, at every moment between. */
  lemma SameBetween(a: Engine, b: Engine, c: Engine, cube: string)
    requires EngineOk(a) && EngineOk(b) && EngineOk(c) && Follows(a, b) && Follows(b, c)
    requires cube in a.cubes && cube in c.cubes && a.cubes[cube].version == c.cubes[cube].version
    ensures cube in b.cubes && a.cubes[cube] == b.cubes[cube] == c.cubes[cube]
  {}

  // ---------------------------------------------------------------- writes by name

  datatype NamedWrite = NamedWrite(address: NamedCoord, value: Fixed)

  datatype Write = Write(coord: Coord, value: Fixed)

  function ResolveFrom(dims: seq<Dimension>, address: NamedCoord, n: nat): (r: Option<Coord>)
    requires n <= |dims|
    ensures r.Some? ==> |r.value| == n
  {
    if n == 0 then Some([])
    else
      match ResolveFrom(dims, address, n - 1)
      case None => None
      case Some(front) =>
        if dims[n - 1].name !in address then None
        else
          match Lookup(dims[n - 1], address[dims[n - 1].name])
          case None => None
          case Some(i) => Some(front + [i])
  }

  /** The coordinate a full address names. */
  function ResolveAddress(dims: seq<Dimension>, address: NamedCoord): Option<Coord> {
    if |address| != |dims| then None else ResolveFrom(dims, address, |dims|)
  }

  function BuildWrites(dims: seq<Dimension>, request: seq<NamedWrite>): (r: Option<seq<Write>>)
    ensures r.Some? ==> |r.value| == |request|
  {
    if request == [] then Some([])
    else
      var n := |request| - 1;
      match BuildWrites(dims, request[..n])
      case None => None
      case Some(front) =>
        match ResolveAddress(dims, request[n].address)
        case None => None
        case Some(c) => if AllLeaf(dims, c) then Some(front + [Write(c, request[n].value)]) else None
  }

  function Staged(leaves: map<Coord, Fixed>, writes: seq<Write>): map<Coord, Fixed> {
    if writes == [] then leaves
    else
      var w := writes[|writes| - 1];
      Staged(leaves, writes[..|writes| - 1])[w.coord := w.value]
  }

  /** A batch goes in whole or not at all, into the base or into a sandbox that exists. */
  function Apply(writes: seq<Write>, sandbox: Option<string>): Content -> Option<Content> {
    (c: Content) =>
      if exists w :: w in writes && !AllLeaf(c.dims, w.coord) then None
      else if sandbox.None? then Some(c.(leaves := Staged(c.leaves, writes)))
      else if sandbox.value !in c.sandboxes then None
      else Some(c.(sandboxes := c.sandboxes[sandbox.value := Staged(c.sandboxes[sandbox.value], writes)]))
  }

  // ---------------------------------------------------------------- resolve, commit, retry

  /** `at` is the engine at the instant of the commit. */
  datatype WriteResult =
    | Wrote(at: Engine, writes: seq<Write>)
    | NothingToWrite(version: nat)
    | WriteFailed(why: Refusal)

  datatype Outcome = Outcome(engine: Engine, clock: nat, result: WriteResult)

  /** What other writers commit in the moment before each of our steps. */
  type Others = nat -> seq<Edit>

  function CommitRun(e: Engine, others: Others, clock: nat, cube: string, request: seq<NamedWrite>,
                          sandbox: Option<string>, tries: nat): Outcome
    decreases tries
  {
    if tries == 0 then Outcome(e, clock, WriteFailed(Conflict))
    else
      var seen := After(e, others(clock));
      if cube !in seen.cubes then Outcome(seen, clock + 1, WriteFailed(NoSuchCube))
      else
        match BuildWrites(seen.cubes[cube].content.dims, request)
        case None => Outcome(seen, clock + 1, WriteFailed(Unresolved))
        case Some(writes) =>
          if writes == [] then Outcome(seen, clock + 1, NothingToWrite(seen.cubes[cube].version))
          else
            var at := After(seen, others(clock + 1));
            match Commits(at, cube, Some(seen.cubes[cube].version), Apply(writes, sandbox))
            case Landed(done) => Outcome(done, clock + 2, Wrote(at, writes))
            case Refused(why) =>
              if why == Conflict then CommitRun(at, others, clock + 2, cube, request, sandbox, tries - 1)
              else Outcome(at, clock + 2, WriteFailed(why))
  }

  lemma {:induction false} ResolvedFrom(dims: seq<Dimension>, address: NamedCoord, n: nat)
    requires n <= |dims| && ResolveFrom(dims, address, n).Some?
    ensures var c := ResolveFrom(dims, address, n).value;
            forall d :: 0 <= d < n ==> dims[d].name in address && Lookup(dims[d], address[dims[d].name]) == Some(c[d])
  {
    if n > 0 { ResolvedFrom(dims, address, n - 1); }
  }

  /** A resolved coordinate bears the very names it was asked for. */
  lemma ResolvedIsNamed(dims: seq<Dimension>, address: NamedCoord)
    requires DistinctDims(dims) && ResolveAddress(dims, address).Some?
    ensures var c := ResolveAddress(dims, address).value;
            InRange(dims, c) && NamesOf(dims, c) == address
  {
    hide ResolveFrom, NamesOf;
    ResolvedFrom(dims, address, |dims|);
    SameNames(dims, ResolveAddress(dims, address).value, address);
  }

  lemma SameNames(dims: seq<Dimension>, c: Coord, address: NamedCoord)
    requires DistinctDims(dims) && InRange(dims, c) && |address| == |dims|
    requires forall d :: 0 <= d < |dims| ==>
               dims[d].name in address && dims[d].elements[c[d]].name == address[dims[d].name]
    ensures NamesOf(dims, c) == address
  {
    hide NamesOf;
    EveryNameIsADim(dims, address);
    forall n | n in address
      ensures n in NamesOf(dims, c) && NamesOf(dims, c)[n] == address[n]
    {
      var d := NameOfDim(dims, n);
      NameAt(dims, c, d);
    }
    NamesAreDims(dims, c);
  }

  lemma NameAt(dims: seq<Dimension>, c: Coord, d: nat)
    requires DistinctDims(dims) && InRange(dims, c) && d < |dims|
    ensures dims[d].name in NamesOf(dims, c) && NamesOf(dims, c)[dims[d].name] == dims[d].elements[c[d]].name
  {}

  lemma NamesAreDims(dims: seq<Dimension>, c: Coord)
    requires DistinctDims(dims) && InRange(dims, c)
    ensures NamesOf(dims, c).Keys == DimNames(dims, |dims|)
  {}

  lemma NameOfDim(dims: seq<Dimension>, n: string) returns (d: nat)
    requires n in DimNames(dims, |dims|)
    ensures d < |dims| && dims[d].name == n
  {
    d :| 0 <= d < |dims| && dims[d].name == n;
  }

  lemma EveryNameIsADim(dims: seq<Dimension>, address: NamedCoord)
    requires DistinctDims(dims) && |address| == |dims|
    requires forall d :: 0 <= d < |dims| ==> dims[d].name in address
    ensures address.Keys == DimNames(dims, |dims|)
  {
    DimNameCount(dims, |dims|);
    assert |address.Keys| == |address|;
    SubsetSameSize(DimNames(dims, |dims|), address.Keys);
  }

  ghost function DimNames(dims: seq<Dimension>, n: nat): set<string>
    requires n <= |dims|
  {
    set d | 0 <= d < n :: dims[d].name
  }

  lemma {:induction false} DimNameCount(dims: seq<Dimension>, n: nat)
    requires n <= |dims| && DistinctDims(dims)
    ensures |DimNames(dims, n)| == n
  {
    if n > 0 {
      DimNameCount(dims, n - 1);
      assert DimNames(dims, n) == DimNames(dims, n - 1) + {dims[n - 1].name};
    }
  }

  lemma SubsetSameSize<T>(a: set<T>, b: set<T>)
    requires a <= b && |a| == |b|
    ensures a == b
  {
    assert |b - a| == |b| - |a|;
  }

  lemma {:induction false} BuiltWrites(dims: seq<Dimension>, request: seq<NamedWrite>, k: nat)
    requires BuildWrites(dims, request).Some? && k < |request|
    ensures var w := BuildWrites(dims, request).value[k];
            && ResolveAddress(dims, request[k].address) == Some(w.coord)
            && w.value == request[k].value && AllLeaf(dims, w.coord)
  {
    var n := |request| - 1;
    if k < n { BuiltWrites(dims, request[..n], k); }
  }

  /** The address has a member for every dimension and no more, each the name of a leaf. */
  ghost predicate NamesLeaf(dims: seq<Dimension>, address: NamedCoord) {
    && |address| == |dims|
    && forall d :: 0 <= d < |dims| ==> dims[d].name in address && IsLeafName(dims[d], address[dims[d].name])
  }

  /** The first element of the name is a leaf. */
  ghost predicate IsLeafName(dim: Dimension, name: string) {
    exists i: nat ::
      IsLeaf(dim, i) && dim.elements[i].name == name && forall j :: 0 <= j < i ==> dim.elements[j].name != name
  }

  ghost predicate AllNameLeaves(dims: seq<Dimension>, request: seq<NamedWrite>) {
    forall k :: 0 <= k < |request| ==> NamesLeaf(dims, request[k].address)
  }

  lemma {:induction false} ResolvesFrom(dims: seq<Dimension>, address: NamedCoord, n: nat)
    requires n <= |dims|
    ensures ResolveFrom(dims, address, n).Some? <==>
              forall d :: 0 <= d < n ==> dims[d].name in address && Lookup(dims[d], address[dims[d].name]).Some?
  {
    if n > 0 { ResolvesFrom(dims, address, n - 1); }
  }

  lemma LeafNamed(dim: Dimension, name: string)
    ensures IsLeafName(dim, name) <==> Lookup(dim, name).Some? && IsLeaf(dim, Lookup(dim, name).value)
  {}

  /** An address resolves to a leaf coordinate exactly when it names one. */
  lemma ResolvesToLeaf(dims: seq<Dimension>, address: NamedCoord)
    ensures NamesLeaf(dims, address) <==>
              ResolveAddress(dims, address).Some? && AllLeaf(dims, ResolveAddress(dims, address).value)
  {
    hide IsLeafName, IsLeaf, ResolveFrom;
    ResolvesFrom(dims, address, |dims|);
    if ResolveFrom(dims, address, |dims|).Some? { ResolvedFrom(dims, address, |dims|); }
    forall d | 0 <= d < |dims| && dims[d].name in address
      ensures IsLeafName(dims[d], address[dims[d].name]) <==>
                Lookup(dims[d], address[dims[d].name]).Some?
                && IsLeaf(dims[d], Lookup(dims[d], address[dims[d].name]).value)
    {
      LeafNamed(dims[d], address[dims[d].name]);
    }
  }

  /** A request can be built exactly when every address in it names a leaf. */
  lemma {:induction false} BuildsIffNamed(dims: seq<Dimension>, request: seq<NamedWrite>)
    ensures BuildWrites(dims, request).Some? <==> AllNameLeaves(dims, request)
  {
    hide NamesLeaf, ResolveAddress;
    if request != [] {
      var n := |request| - 1;
      BuildsIffNamed(dims, request[..n]);
      ResolvesToLeaf(dims, request[n].address);
    }
  }

  function LastWrite(writes: seq<Write>, c: Coord): (r: Option<nat>)
    ensures r.Some? ==> r.value < |writes| && writes[r.value].coord == c
    ensures r.Some? ==> forall k :: r.value < k < |writes| ==> writes[k].coord != c
    ensures r.None? ==> forall k :: 0 <= k < |writes| ==> writes[k].coord != c
  {
    if writes == [] then None
    else
      var n := |writes| - 1;
      if writes[n].coord == c then Some(n) else LastWrite(writes[..n], c)
  }

  /** The last write of a batch to a coordinate is what it holds; with no write, what it held. */
  lemma {:induction false} StagedHolds(leaves: map<Coord, Fixed>, writes: seq<Write>, c: Coord)
    ensures match LastWrite(writes, c)
            case Some(k) => c in Staged(leaves, writes) && Staged(leaves, writes)[c] == writes[k].value
            case None =>
              && (c in Staged(leaves, writes) <==> c in leaves)
              && (c in leaves ==> Staged(leaves, writes)[c] == leaves[c])
  {
    if writes != [] { StagedHolds(leaves, writes[..|writes| - 1], c); }
  }

  /** What the request's cube and store hold, base or sandbox. */
  function Values(c: Content, sandbox: Option<string>): map<Coord, Fixed> {
    if sandbox.None? then c.leaves else if sandbox.value in c.sandboxes then c.sandboxes[sandbox.value] else map[]
  }

  /** What the loop guarantees, whatever the others do. */
  lemma {:induction false} CommitsWhatItResolved(e: Engine, others: Others, clock: nat, cube: string,
                                                 request: seq<NamedWrite>, sandbox: Option<string>, tries: nat)
    requires EngineOk(e)
    ensures var o := CommitRun(e, others, clock, cube, request, sandbox, tries);
            o.result.Wrote? ==>
              && EngineOk(o.result.at) && Follows(e, o.result.at) && cube in o.result.at.cubes
              && BuildWrites(o.result.at.cubes[cube].content.dims, request) == Some(o.result.writes)
              && o.result.writes != []
              && Commits(o.result.at, cube, None, Apply(o.result.writes, sandbox)) == Landed(o.engine)
    ensures var o := CommitRun(e, others, clock, cube, request, sandbox, tries);
            !o.result.Wrote? ==>
              EngineOk(o.engine) && Follows(e, o.engine) && OnlyOthers(e, others, clock, o.engine, o.clock)
    ensures var o := CommitRun(e, others, clock, cube, request, sandbox, tries);
            o.result == WriteFailed(Conflict) ==> o.engine.last >= e.last + tries
    ensures AnsweredRight(CommitRun(e, others, clock, cube, request, sandbox, tries), cube, request, sandbox)
    decreases tries
  {
    hide BuildWrites, Apply, After, OnlyOthers, AnsweredRight;
    AnswersAreRight(e, others, clock, cube, request, sandbox, tries);
    if tries == 0 {
      NobodyYet(e, others, clock);
    } else {
      var seen := After(e, others(clock));
      AfterFollows(e, others(clock));
      OneMoment(e, others, clock);
      if cube in seen.cubes {
        var built := BuildWrites(seen.cubes[cube].content.dims, request);
        if built.Some? && built.value != [] {
          var at := After(seen, others(clock + 1));
          AfterFollows(seen, others(clock + 1));
          FollowsTrans(e, seen, at);
          TwoMoments(e, others, clock);
          var r := Commits(at, cube, Some(seen.cubes[cube].version), Apply(built.value, sandbox));
          if r == Refused(Conflict) {
            CommitsWhatItResolved(at, others, clock + 2, cube, request, sandbox, tries - 1);
            var o := CommitRun(at, others, clock + 2, cube, request, sandbox, tries - 1);
            if o.result.Wrote? { FollowsTrans(e, at, o.result.at); }
            if !o.result.Wrote? {
              FollowsTrans(e, at, o.engine);
              MomentsJoin(e, others, clock, at, clock + 2, o.engine, o.clock);
            }
          }
        }
      }
    }
  }

  ghost predicate SandboxThere(c: Content, sandbox: Option<string>) {
    sandbox.Some? ==> sandbox.value in c.sandboxes
  }

  /** What a request that wrote nothing is answered is so at that moment: there is nothing to write, no
      such cube, an address that names no leaf, or no such sandbox. */
  ghost predicate AnsweredRight(o: Outcome, cube: string, request: seq<NamedWrite>, sandbox: Option<string>) {
    match o.result
    case Wrote(_, _) => true
    case NothingToWrite(v) => request == [] && cube in o.engine.cubes && o.engine.cubes[cube].version == v
    case WriteFailed(why) =>
      match why
      case NoSuchCube => cube !in o.engine.cubes
      case Unresolved => cube in o.engine.cubes && !AllNameLeaves(o.engine.cubes[cube].content.dims, request)
      case Rejected => cube in o.engine.cubes && !SandboxThere(o.engine.cubes[cube].content, sandbox)
      case Conflict => true
      case _ => false
  }

  lemma {:induction false} AnswersAreRight(e: Engine, others: Others, clock: nat, cube: string,
                                           request: seq<NamedWrite>, sandbox: Option<string>, tries: nat)
    requires EngineOk(e)
    ensures AnsweredRight(CommitRun(e, others, clock, cube, request, sandbox, tries), cube, request, sandbox)
    decreases tries
  {
    hide BuildWrites, Apply, After, AllNameLeaves, SandboxThere;
    if tries > 0 {
      var seen := After(e, others(clock));
      AfterFollows(e, others(clock));
      if cube in seen.cubes {
        BuildsIffNamed(seen.cubes[cube].content.dims, request);
        var built := BuildWrites(seen.cubes[cube].content.dims, request);
        if built.Some? && built.value != [] {
          var at := After(seen, others(clock + 1));
          AfterFollows(seen, others(clock + 1));
          var r := Commits(at, cube, Some(seen.cubes[cube].version), Apply(built.value, sandbox));
          if r == Refused(Conflict) {
            AnswersAreRight(at, others, clock + 2, cube, request, sandbox, tries - 1);
          } else if cube in at.cubes {
            assert at.cubes[cube] == seen.cubes[cube];
            GoesIn(at.cubes[cube].content, request, built.value, sandbox);
          }
        }
      }
    }
  }

  /** A batch built against a content goes into it exactly when its sandbox is there. */
  lemma GoesIn(c: Content, request: seq<NamedWrite>, writes: seq<Write>, sandbox: Option<string>)
    requires BuildWrites(c.dims, request) == Some(writes)
    ensures Apply(writes, sandbox)(c).Some? <==> SandboxThere(c, sandbox)
  {
    hide BuildWrites, Staged, AllLeaf;
    forall w | w in writes
      ensures AllLeaf(c.dims, w.coord)
    {
      var k :| 0 <= k < |writes| && writes[k] == w;
      BuiltWrites(c.dims, request, k);
    }
  }

  ghost predicate Quiet(others: Others, clock: nat) {
    forall k :: clock <= k ==> others(k) == []
  }

  /** With nobody else about, a request is written exactly when its cube and sandbox are there, it is
      not empty, and every address names a leaf. */
  lemma QuietRequestIsWritten(e: Engine, others: Others, clock: nat, cube: string, request: seq<NamedWrite>,
                              sandbox: Option<string>, tries: nat)
    requires EngineOk(e) && Quiet(others, clock) && tries > 0
    ensures var o := CommitRun(e, others, clock, cube, request, sandbox, tries);
            && (o.result.Wrote? <==>
                  && cube in e.cubes && request != [] && AllNameLeaves(e.cubes[cube].content.dims, request)
                  && SandboxThere(e.cubes[cube].content, sandbox))
            && (o.result.Wrote? ==> o.result.at == e)
            && (!o.result.Wrote? ==> o.engine == e)
  {
    hide BuildWrites, Apply, AllNameLeaves, SandboxThere;
    assert After(e, others(clock)) == e && After(e, others(clock + 1)) == e;
    if cube in e.cubes {
      var content := e.cubes[cube].content;
      BuildsIffNamed(content.dims, request);
      var built := BuildWrites(content.dims, request);
      if built.Some? { GoesIn(content, request, built.value, sandbox); }
    }
  }

  /** The engine after all the others' commits of moments `from` up to `to`, and no other. */
  ghost predicate OnlyOthers(e: Engine, others: Others, from: nat, later: Engine, to: nat)
    decreases to - from
  {
    from <= to && if from == to then later == e else OnlyOthers(After(e, others(from)), others, from + 1, later, to)
  }

  lemma NobodyYet(e: Engine, others: Others, clock: nat)
    ensures OnlyOthers(e, others, clock, e, clock)
  {}

  lemma OneMoment(e: Engine, others: Others, clock: nat)
    ensures OnlyOthers(e, others, clock, After(e, others(clock)), clock + 1)
  {}

  lemma TwoMoments(e: Engine, others: Others, clock: nat)
    ensures OnlyOthers(e, others, clock, After(After(e, others(clock)), others(clock + 1)), clock + 2)
  {
    OneMoment(After(e, others(clock)), others, clock + 1);
  }

  lemma {:induction false} MomentsJoin(a: Engine, others: Others, from: nat, b: Engine, mid: nat, c: Engine, to: nat)
    requires OnlyOthers(a, others, from, b, mid) && OnlyOthers(b, others, mid, c, to)
    ensures OnlyOthers(a, others, from, c, to)
    decreases mid - from
  {
    hide After;
    if from != mid { MomentsJoin(After(a, others(from)), others, from + 1, b, mid, c, to); }
  }

  /** A write request that lands wrote, for each name it was given, the cell that name denotes
      at the instant of the commit; the last value given for a cell is the one it holds, and
      every other cell, and every other cube, is as the other writers left it. */
  lemma WritesLandWhereNamed(e: Engine, others: Others, clock: nat, cube: string, request: seq<NamedWrite>,
                             sandbox: Option<string>)
    requires EngineOk(e)
    ensures var o := CommitRun(e, others, clock, cube, request, sandbox, RESOLVE_RETRY_LIMIT);
            o.result.Wrote? ==>
              && Follows(e, o.result.at)
              && LandedWhereNamed(o.result.at, o.engine, cube, request, o.result.writes, sandbox)
    ensures var o := CommitRun(e, others, clock, cube, request, sandbox, RESOLVE_RETRY_LIMIT);
            !o.result.Wrote? ==> OnlyOthers(e, others, clock, o.engine, o.clock)
    ensures var o := CommitRun(e, others, clock, cube, request, sandbox, RESOLVE_RETRY_LIMIT);
            o.result == WriteFailed(Conflict) ==> o.engine.last >= e.last + RESOLVE_RETRY_LIMIT
  {
    hide CommitRun, OnlyOthers, BuildWrites, Staged;
    CommitsWhatItResolved(e, others, clock, cube, request, sandbox, RESOLVE_RETRY_LIMIT);
    var o := CommitRun(e, others, clock, cube, request, sandbox, RESOLVE_RETRY_LIMIT);
    if o.result.Wrote? {
      Landing(o.result.at, o.engine, cube, request, o.result.writes, sandbox);
    }
  }

  ghost predicate LandedWhereNamed(at: Engine, now: Engine, cube: string, request: seq<NamedWrite>, writes: seq<Write>,
                                   sandbox: Option<string>)
  {
    && cube in at.cubes && |writes| == |request| > 0
    && now.cubes.Keys == at.cubes.Keys && (forall c :: c in at.cubes && c != cube ==> now.cubes[c] == at.cubes[c])
    && (var dims := at.cubes[cube].content.dims;
        var before := Values(at.cubes[cube].content, sandbox);
        var after := Values(now.cubes[cube].content, sandbox);
        && now.cubes[cube].content.dims == dims && now.cubes[cube].version == now.last == at.last + 1
        && RestKept(at.cubes[cube].content, now.cubes[cube].content, sandbox)
        && (DistinctDims(dims) ==> forall k :: 0 <= k < |request| ==> Names(dims, writes[k], request[k]))
        && (forall c :: HoldsLast(before, after, writes, c)))
  }

  /** Only the base leaves, or only those of the sandbox, may differ. */
  ghost predicate RestKept(before: Content, after: Content, sandbox: Option<string>) {
    && after.rules == before.rules
    && (sandbox.None? ==> after.sandboxes == before.sandboxes)
    && (sandbox.Some? ==>
          && after.leaves == before.leaves && after.sandboxes.Keys == before.sandboxes.Keys
          && forall s :: s in before.sandboxes && s != sandbox.value ==> after.sandboxes[s] == before.sandboxes[s])
  }

  ghost predicate Names(dims: seq<Dimension>, w: Write, asked: NamedWrite)
    requires DistinctDims(dims)
  {
    AllLeaf(dims, w.coord) && InRange(dims, w.coord) && NamesOf(dims, w.coord) == asked.address
      && w.value == asked.value
  }

  ghost predicate HoldsLast(before: map<Coord, Fixed>, after: map<Coord, Fixed>, writes: seq<Write>, c: Coord) {
    match LastWrite(writes, c)
    case Some(k) => c in after && after[c] == writes[k].value
    case None => (c in after <==> c in before) && (c in before ==> after[c] == before[c])
  }

  lemma Landing(at: Engine, now: Engine, cube: string, request: seq<NamedWrite>, writes: seq<Write>,
                sandbox: Option<string>)
    requires cube in at.cubes && BuildWrites(at.cubes[cube].content.dims, request) == Some(writes) && writes != []
    requires Commits(at, cube, None, Apply(writes, sandbox)) == Landed(now)
    ensures LandedWhereNamed(at, now, cube, request, writes, sandbox)
  {
    hide BuildWrites, Staged, LastWrite;
    var dims := at.cubes[cube].content.dims;
    var before := Values(at.cubes[cube].content, sandbox);
    if DistinctDims(dims) {
      forall k | 0 <= k < |request|
        ensures Names(dims, writes[k], request[k])
      {
        BuiltWrites(dims, request, k);
        ResolvedIsNamed(dims, request[k].address);
      }
    }
    forall c
      ensures HoldsLast(before, Staged(before, writes), writes, c)
    {
      StagedHolds(before, writes, c);
    }
  }

  const RESOLVE_RETRY_LIMIT: nat := 8

  // ---------------------------------------------------------------- validate, commit, retry

  type Source = seq<SourceRule>

  /** A sibling's snapshot, with the name it was asked for by. */
  datatype Caught = Caught(name: string, snap: Published)

  /** Whether a source compiles against a target, given the names listed and the snapshots caught:
      the n-th name is taken to be that of the n-th snapshot. */
  type Compiler = (seq<string>, seq<Published>, Content, Source) -> bool

  /** The order in which the engine lists its cubes. */
  type Lister = set<string> -> seq<string>

  ghost predicate ListsAll(list: Lister) {
    forall s, n :: n in list(s) <==> n in s
  }

  datatype Request = Request(cube: string, source: Source, list: Lister, compiles: Compiler)

  datatype PutResult = Stored(at: Engine, base: Option<nat>) | PutFailed(why: Refusal)

  datatype PutOutcome = PutOutcome(engine: Engine, clock: nat, result: PutResult)

  function SetRules(source: Source): Content -> Option<Content> {
    (c: Content) => Some(c.(rules := source))
  }

  function VersionOf(e: Engine, cube: string): Option<nat> {
    if cube in e.cubes then Some(e.cubes[cube].version) else None
  }

  datatype Captured = Captured(engine: Engine, caught: seq<Caught>)

  /** The first `n` names snapshotted one after another, others committing before each; one
      dropped meanwhile leaves nothing. */
  function Capture(e: Engine, others: Others, clock: nat, names: seq<string>, n: nat): Captured
    requires n <= |names|
  {
    if n == 0 then Captured(e, [])
    else
      var before := Capture(e, others, clock, names, n - 1);
      var now := After(before.engine, others(clock + n - 1));
      Captured(now, before.caught + CaughtNow(now, names[n - 1]))
  }

  function CaughtNow(e: Engine, name: string): seq<Caught> {
    if name in e.cubes then [Caught(name, e.cubes[name])] else []
  }

  function Snaps(caught: seq<Caught>): (r: seq<Published>)
    ensures |r| == |caught| && forall k :: 0 <= k < |r| ==> r[k] == caught[k].snap
  {
    seq(|caught|, k requires 0 <= k < |caught| => caught[k].snap)
  }

  /** One round, with other writers before each of its steps: base version, names, each sibling,
      target, commit. A target that was not there when the names were listed aborts the compiler. */
  function Round(e: Engine, others: Others, clock: nat, p: Request): PutOutcome {
    var e0 := After(e, others(clock));
    var e1 := After(e0, others(clock + 1));
    var names := p.list(e1.cubes.Keys);
    var c := Capture(e1, others, clock + 2, names, |names|);
    var later := clock + 2 + |names|;
    Store(After(c.engine, others(later)), others, later + 1, VersionOf(e0, p.cube), names, c.caught, p)
  }

  /** The end of a round: the target's snapshot is the engine's, and then the commit. */
  function Store(e: Engine, others: Others, clock: nat, base: Option<nat>, names: seq<string>, caught: seq<Caught>,
                 p: Request)
    : PutOutcome
  {
    if p.cube !in e.cubes then PutOutcome(e, clock, PutFailed(NoSuchCube))
    else if p.cube !in names then PutOutcome(e, clock, PutFailed(Aborted))
    else if !p.compiles(names, Snaps(caught), e.cubes[p.cube].content, p.source) then
      PutOutcome(e, clock, PutFailed(DoesNotCompile))
    else
      var at := After(e, others(clock));
      match Commits(at, p.cube, base, SetRules(p.source))
      case Landed(done) => PutOutcome(done, clock + 1, Stored(at, base))
      case Refused(why) => PutOutcome(at, clock + 1, PutFailed(why))
  }

  function PutRun(e: Engine, others: Others, clock: nat, p: Request, tries: nat): PutOutcome
    decreases tries
  {
    if tries == 0 then PutOutcome(e, clock, PutFailed(Conflict))
    else
      var o := Round(e, others, clock, p);
      if o.result == PutFailed(Conflict) then PutRun(o.engine, others, o.clock, p, tries - 1) else o
  }

  /** The source compiles against the target as it is at the commit; the target is among the
      snapshots caught, and every snapshot of it is that of the commit. */
  ghost predicate CompiledAt(at: Engine, p: Request) {
    p.cube in at.cubes && exists names, caught :: CompiledWith(at, p, names, caught)
  }

  ghost predicate CompiledWith(at: Engine, p: Request, names: seq<string>, caught: seq<Caught>)
    requires p.cube in at.cubes
  {
    && p.cube in names && Caught(p.cube, at.cubes[p.cube]) in caught
    && (forall x :: x in caught && x.name == p.cube ==> x.snap == at.cubes[p.cube])
    && p.compiles(names, Snaps(caught), at.cubes[p.cube].content, p.source)
  }

  lemma {:induction false} CaptureFollows(e: Engine, others: Others, clock: nat, names: seq<string>, n: nat)
    requires EngineOk(e) && n <= |names|
    ensures EngineOk(Capture(e, others, clock, names, n).engine)
              && Follows(e, Capture(e, others, clock, names, n).engine)
  {
    hide After;
    if n > 0 {
      CaptureFollows(e, others, clock, names, n - 1);
      var before := Capture(e, others, clock, names, n - 1).engine;
      AfterFollows(before, others(clock + n - 1));
      FollowsTrans(e, before, After(before, others(clock + n - 1)));
    }
  }

  /** A cube at one version before and after the capture is caught at it, if it is asked for. */
  lemma {:induction false} CaughtSame(e: Engine, others: Others, clock: nat, names: seq<string>, n: nat, at: Engine,
                                      cube: string)
    requires EngineOk(e) && EngineOk(at) && n <= |names| && Follows(Capture(e, others, clock, names, n).engine, at)
    requires cube in e.cubes && cube in at.cubes && e.cubes[cube].version == at.cubes[cube].version
    ensures var caught := Capture(e, others, clock, names, n).caught;
            && (forall x :: x in caught && x.name == cube ==> x.snap == at.cubes[cube])
            && (cube in names[..n] ==> Caught(cube, at.cubes[cube]) in caught)
  {
    hide After;
    if n > 0 {
      hide EngineOk, Follows, CaughtNow;
      CaptureFollows(e, others, clock, names, n - 1);
      CaptureFollows(e, others, clock, names, n);
      var before, now := Capture(e, others, clock, names, n - 1), Capture(e, others, clock, names, n);
      AfterFollows(before.engine, others(clock + n - 1));
      FollowsTrans(before.engine, now.engine, at);
      CaughtSame(e, others, clock, names, n - 1, at, cube);
      SameBetween(e, now.engine, at, cube);
      assert names[..n] == names[..n - 1] + [names[n - 1]];
      CaughtNowSame(now.engine, names[n - 1], at, cube);
      assert now.caught == before.caught + CaughtNow(now.engine, names[n - 1]);
    }
  }

  lemma CaughtNowSame(now: Engine, name: string, at: Engine, cube: string)
    requires cube in now.cubes && cube in at.cubes && now.cubes[cube] == at.cubes[cube]
    ensures forall x :: x in CaughtNow(now, name) && x.name == cube ==> x.snap == at.cubes[cube]
    ensures name == cube ==> Caught(cube, at.cubes[cube]) in CaughtNow(now, name)
  {}

  ghost predicate StoredRight(o: PutOutcome, p: Request) {
    o.result.Stored? ==>
      && p.cube in o.result.at.cubes
      && o.engine == Publish(o.result.at, p.cube, o.result.at.cubes[p.cube].content.(rules := p.source))
      && (o.result.base.Some? ==> CompiledAt(o.result.at, p))
  }

  lemma RoundStoresCompiled(e: Engine, others: Others, clock: nat, p: Request)
    requires EngineOk(e) && ListsAll(p.list)
    ensures EngineOk(Round(e, others, clock, p).engine) || Round(e, others, clock, p).result.Stored?
    ensures StoredRight(Round(e, others, clock, p), p)
  {
    hide After, Capture, CompiledAt, EngineOk, Follows;
    var e0 := After(e, others(clock));
    AfterFollows(e, others(clock));
    var e1 := After(e0, others(clock + 1));
    AfterFollows(e0, others(clock + 1));
    var names := p.list(e1.cubes.Keys);
    var c := Capture(e1, others, clock + 2, names, |names|);
    CaptureFollows(e1, others, clock + 2, names, |names|);
    var later := clock + 2 + |names|;
    var e2 := After(c.engine, others(later));
    AfterFollows(c.engine, others(later));
    var at := After(e2, others(later + 1));
    AfterFollows(e2, others(later + 1));
    if p.cube in e0.cubes && p.cube in at.cubes && e0.cubes[p.cube].version == at.cubes[p.cube].version {
      Sandwich(e0, e1, c.engine, e2, at, others, clock + 2, p);
    }
  }

  /** Whenever the cube was there as the base version was read, a source that is stored compiled
      against the very target it is stored with. */
  lemma {:induction false} StoredSourceCompiled(e: Engine, others: Others, clock: nat, p: Request, tries: nat)
    requires EngineOk(e) && ListsAll(p.list)
    ensures StoredRight(PutRun(e, others, clock, p, tries), p)
    decreases tries
  {
    hide Round, EngineOk, CompiledAt;
    if tries > 0 {
      RoundStoresCompiled(e, others, clock, p);
      var o := Round(e, others, clock, p);
      if o.result == PutFailed(Conflict) { StoredSourceCompiled(o.engine, others, o.clock, p, tries - 1); }
    }
  }

  /** What a source that was not stored is answered is so at that moment. */
  ghost predicate PutAnsweredRight(o: PutOutcome, p: Request) {
    match o.result
    case Stored(_, _) => true
    case PutFailed(why) =>
      match why
      case NoSuchCube => p.cube !in o.engine.cubes
      case DoesNotCompile => p.cube in o.engine.cubes && FailsToCompile(p, o.engine.cubes[p.cube].content)
      case Aborted => p.cube in o.engine.cubes && NewerThanListing(p.cube, o.engine)
      case Conflict => true
      case _ => false
  }

  ghost predicate FailsToCompile(p: Request, content: Content) {
    exists names, snaps :: !p.compiles(names, snaps, content, p.source)
  }

  /** The cube was not there as the names were listed. */
  ghost predicate NewerThanListing(cube: string, now: Engine) {
    exists listed :: Follows(listed, now) && cube !in listed.cubes
  }

  lemma RoundAnswers(e: Engine, others: Others, clock: nat, p: Request)
    requires EngineOk(e) && ListsAll(p.list)
    ensures var o := Round(e, others, clock, p);
            && PutAnsweredRight(o, p)
            && (o.result.PutFailed? ==> EngineOk(o.engine) && Follows(e, o.engine))
            && (o.result == PutFailed(Conflict) ==> o.engine.last > e.last)
  {
    hide After, Capture, EngineOk, PutAnsweredRight, Store;
    var e0 := After(e, others(clock));
    AfterFollows(e, others(clock));
    var e1 := After(e0, others(clock + 1));
    AfterFollows(e0, others(clock + 1));
    var names := p.list(e1.cubes.Keys);
    var c := Capture(e1, others, clock + 2, names, |names|);
    CaptureFollows(e1, others, clock + 2, names, |names|);
    var later := clock + 2 + |names|;
    var e2 := After(c.engine, others(later));
    AfterFollows(c.engine, others(later));
    FollowsTrans(e1, c.engine, e2);
    FollowsTrans(e0, e1, e2);
    StoreAnswers(e0, e1, e2, others, later + 1, names, c.caught, p);
    var o := Round(e, others, clock, p);
    if o.result.PutFailed? {
      FollowsTrans(e0, e2, o.engine);
      FollowsTrans(e, e0, o.engine);
    }
  }

  /** `e0` is the engine as the base version was read, `e1` as the names were listed. */
  lemma StoreAnswers(e0: Engine, e1: Engine, e2: Engine, others: Others, clock: nat, names: seq<string>,
                     caught: seq<Caught>, p: Request)
    requires EngineOk(e0) && EngineOk(e1) && EngineOk(e2) && Follows(e0, e2) && Follows(e1, e2)
    requires p.cube in names <==> p.cube in e1.cubes
    ensures var o := Store(e2, others, clock, VersionOf(e0, p.cube), names, caught, p);
            && PutAnsweredRight(o, p)
            && (o.result.PutFailed? ==> EngineOk(o.engine) && Follows(e2, o.engine))
            && (o.result == PutFailed(Conflict) ==> o.engine.last > e0.last)
  {
    hide After;
    AfterFollows(e2, others(clock));
    var at := After(e2, others(clock));
    FollowsTrans(e0, e2, at);
  }

  /** A source that is not stored is refused for what is so then; giving up takes a lost race in every
      round. */
  lemma {:induction false} PutAnswersAreRight(e: Engine, others: Others, clock: nat, p: Request, tries: nat)
    requires EngineOk(e) && ListsAll(p.list)
    ensures PutAnsweredRight(PutRun(e, others, clock, p, tries), p)
    ensures var o := PutRun(e, others, clock, p, tries);
            o.result == PutFailed(Conflict) ==> o.engine.last >= e.last + tries
    decreases tries
  {
    hide Round, EngineOk, FailsToCompile, NewerThanListing;
    if tries > 0 {
      RoundAnswers(e, others, clock, p);
      var o := Round(e, others, clock, p);
      if o.result == PutFailed(Conflict) { PutAnswersAreRight(o.engine, others, o.clock, p, tries - 1); }
    }
  }

  /** Every name listed, with its cube as it is. */
  ghost predicate CaughtAll(e: Engine, names: seq<string>, caught: seq<Caught>) {
    && |caught| == |names|
    && forall k :: 0 <= k < |names| ==> names[k] in e.cubes && caught[k] == Caught(names[k], e.cubes[names[k]])
  }

  /** With nobody else about, a source is stored exactly when its cube is there and it compiles against
      it and its siblings as they are. */
  lemma QuietSourceIsStored(e: Engine, others: Others, clock: nat, p: Request, tries: nat)
    requires EngineOk(e) && ListsAll(p.list) && Quiet(others, clock) && tries > 0
    ensures var o, names := PutRun(e, others, clock, p, tries), p.list(e.cubes.Keys);
            exists caught :: CaughtAll(e, names, caught)
              && (o.result.Stored? <==>
                    p.cube in e.cubes && p.compiles(names, Snaps(caught), e.cubes[p.cube].content, p.source))
              && (o.result.Stored? ==> o.result.at == e)
              && (!o.result.Stored? ==> o.engine == e)
  {
    hide Capture, After, CaughtAll, Quiet;
    var names := p.list(e.cubes.Keys);
    var captured := Capture(e, others, clock + 2, names, |names|);
    var caught := captured.caught;
    QuietCaptured(e, others, clock, p);
    QuietAfter(e, others, clock, clock);
    QuietAfter(e, others, clock, clock + 1);
    QuietAfter(e, others, clock, clock + 2 + |names|);
    QuietAfter(e, others, clock, clock + 2 + |names| + 1);
    assert CaughtAll(e, names, caught);
  }

  lemma QuietAfter(e: Engine, others: Others, clock: nat, k: nat)
    requires Quiet(others, clock) && clock <= k
    ensures After(e, others(k)) == e
  {}

  lemma QuietCaptured(e: Engine, others: Others, clock: nat, p: Request)
    requires ListsAll(p.list) && Quiet(others, clock)
    ensures var names := p.list(e.cubes.Keys);
            var captured := Capture(e, others, clock + 2, names, |names|);
            captured.engine == e && CaughtAll(e, names, captured.caught)
  {
    hide Capture;
    var names := p.list(e.cubes.Keys);
    QuietCapture(e, others, clock + 2, names, |names|);
    assert names[..|names|] == names && forall k :: 0 <= k < |names| ==> names[k] in names;
  }

  /** Nothing happened to the target between two sights of one version of it. */
  lemma Sandwich(e0: Engine, e1: Engine, e1After: Engine, e2: Engine, at: Engine, others: Others, clock: nat,
                 p: Request)
    requires EngineOk(e0) && EngineOk(e1) && EngineOk(e1After) && EngineOk(e2) && EngineOk(at) && ListsAll(p.list)
    requires Follows(e0, e1) && Follows(e1, e1After) && Follows(e1After, e2) && Follows(e2, at)
    requires var names := p.list(e1.cubes.Keys); e1After == Capture(e1, others, clock, names, |names|).engine
    requires p.cube in e0.cubes && p.cube in at.cubes && e0.cubes[p.cube].version == at.cubes[p.cube].version
    ensures p.cube in e2.cubes && e2.cubes[p.cube] == at.cubes[p.cube]
    ensures var names := p.list(e1.cubes.Keys);
            p.compiles(names, Snaps(Capture(e1, others, clock, names, |names|).caught), at.cubes[p.cube].content,
                       p.source) ==>
              CompiledAt(at, p)
  {
    hide Capture, EngineOk, Follows, After;
    var names := p.list(e1.cubes.Keys);
    FollowsTrans(e1After, e2, at);
    FollowsTrans(e1, e1After, at);
    FollowsTrans(e0, e1, e1After);
    FollowsTrans(e0, e1After, e2);
    SameBetween(e0, e1, at, p.cube);
    SameBetween(e0, e2, at, p.cube);
    CaughtSame(e1, others, clock, names, |names|, at, p.cube);
    assert names[..|names|] == names;
    assert p.compiles(names, Snaps(Capture(e1, others, clock, names, |names|).caught), at.cubes[p.cube].content,
                      p.source) ==>
        CompiledWith(at, p, names, Capture(e1, others, clock, names, |names|).caught);
  }

  /** The source compiles against one content of the cube and not against another, whatever its
      siblings. */
  ghost predicate Tells(p: Request, good: Content, bad: Content) {
    forall names, snaps :: p.compiles(names, snaps, good, p.source) && !p.compiles(names, snaps, bad, p.source)
  }

  lemma {:induction false} QuietCapture(e: Engine, others: Others, clock: nat, names: seq<string>, n: nat)
    requires n <= |names| && forall k :: clock <= k < clock + n ==> others(k) == []
    ensures Capture(e, others, clock, names, n).engine == e
    ensures (forall k :: 0 <= k < n ==> names[k] in e.cubes) ==>
              CaughtAll(e, names[..n], Capture(e, others, clock, names, n).caught)
  {
    if n > 0 { QuietCapture(e, others, clock, names, n - 1); }
  }

  /** Nothing is checked at the commit when the cube was not there as the base version was
      read: created, compiled against, and changed before the commit, it is given a source
      that compiles against nothing it holds. */
  lemma AbsentBaseIsUnchecked(e: Engine, p: Request, good: Content, bad: Content, tries: nat) returns (others: Others)
    requires EngineOk(e) && ListsAll(p.list) && p.cube !in e.cubes && tries > 0 && Tells(p, good, bad)
    ensures others(0) == []
    ensures var o := PutRun(e, others, 0, p, tries);
            o.result.Stored? && !CompiledAt(o.result.at, p)
  {
    hide Capture;
    var create, change := Edit(p.cube, Some(good)), Edit(p.cube, Some(bad));
    var e1 := Publish(e, p.cube, good);
    var names := p.list(e1.cubes.Keys);
    var last := 3 + |names|;
    others := (k: nat) => if k == 1 then [create] else if k == last then [change] else [];
    OneEdit(e, create);
    QuietCapture(e1, others, 2, names, |names|);
    OneEdit(e1, change);
    assert After(After(e, others(0)), others(1)) == e1;
    assert After(e1, others(last)) == Publish(e1, p.cube, bad);
    assert After(e1, others(2 + |names|)) == e1;
  }

  lemma OneEdit(e: Engine, edit: Edit)
    requires edit.content.Some?
    ensures After(e, []) == e && After(e, [edit]) == Publish(e, edit.cube, edit.content.value)
  {
    assert [edit][..0] == [];
  }

  const RULE_VALIDATE_RETRY_LIMIT: nat := 8

  /** However the others interleave with one round, a source it stores compiled. */
  ghost predicate NeverStoresUncompiled(e: Engine, p: Request) {
    forall others: Others | others(0) == [] ::
      var o := PutRun(e, others, 0, p, 1);
      o.result.Stored? ==> CompiledAt(o.result.at, p)
  }

  /** For a source that some contents of the cube suit and others do not, exactly the presence
      of the cube when its version is read makes the round safe. */
  lemma SafeIffPresent(e: Engine, p: Request, good: Content, bad: Content)
    requires EngineOk(e) && ListsAll(p.list) && Tells(p, good, bad)
    ensures NeverStoresUncompiled(e, p) <==> p.cube in e.cubes
  {
    hide CompiledAt, Capture, Tells;
    if p.cube in e.cubes {
      forall others: Others | others(0) == []
        ensures var o := PutRun(e, others, 0, p, 1);
                o.result.Stored? ==> CompiledAt(o.result.at, p)
      {
        StoredSourceCompiled(e, others, 0, p, 1);
      }
    } else {
      var others := AbsentBaseIsUnchecked(e, p, good, bad, 1);
    }
  }

  lemma CommitFacts(e: Engine, others: Others, clock: nat, cube: string, request: seq<NamedWrite>,
                    sandbox: Option<string>)
    ensures var o := CommitRun(e, others, clock, cube, request, sandbox, RESOLVE_RETRY_LIMIT);
            EngineOk(e) ==>
              && AnsweredRight(o, cube, request, sandbox)
              && (o.result.Wrote? ==>
                    LandedWhereNamed(o.result.at, o.engine, cube, request, o.result.writes, sandbox))
  {
    hide CommitRun, EngineOk, AnsweredRight, LandedWhereNamed, OnlyOthers, Follows;
    if EngineOk(e) {
      AnswersAreRight(e, others, clock, cube, request, sandbox, RESOLVE_RETRY_LIMIT);
      WritesLandWhereNamed(e, others, clock, cube, request, sandbox);
    }
  }

  // ---------------------------------------------------------------- the loops

  /** The engine the handlers share with other writers. */
  class Server {
    var engine: Engine
    var clock: nat
    const others: Others

    constructor (e: Engine, others: Others)
      ensures engine == e && clock == 0 && this.others == others
    {
      engine, clock := e, 0;
      this.others := others;
    }

    /** Other writers commit whatever they commit at this moment. */
    method Yield()
      modifies this
      ensures engine == After(old(engine), others(old(clock))) && clock == old(clock) + 1
    {
      engine, clock := After(engine, others(clock)), clock + 1;
    }

    method CommitResolved(cube: string, request: seq<NamedWrite>, sandbox: Option<string>) returns (r: WriteResult)
      modifies this
      ensures Outcome(engine, clock, r) ==
              CommitRun(old(engine), others, old(clock), cube, request, sandbox, RESOLVE_RETRY_LIMIT)
      ensures old(EngineOk(engine)) ==> AnsweredRight(Outcome(engine, clock, r), cube, request, sandbox)
      ensures old(EngineOk(engine)) && r.Wrote? ==> LandedWhereNamed(r.at, engine, cube, request, r.writes, sandbox)
    {
      hide After, BuildWrites, Apply, EngineOk, AnsweredRight, LandedWhereNamed, OnlyOthers;
      CommitFacts(engine, others, clock, cube, request, sandbox);
      for i := 0 to RESOLVE_RETRY_LIMIT
        invariant CommitRun(engine, others, clock, cube, request, sandbox, RESOLVE_RETRY_LIMIT - i) ==
                  CommitRun(old(engine), others, old(clock), cube, request, sandbox, RESOLVE_RETRY_LIMIT)
      {
        Yield();
        if cube !in engine.cubes { return WriteFailed(NoSuchCube); }
        var snap := engine.cubes[cube];
        var built := BuildWrites(snap.content.dims, request);
        if built.None? { return WriteFailed(Unresolved); }
        if built.value == [] { return NothingToWrite(snap.version); }
        Yield();
        var commit := Commits(engine, cube, Some(snap.version), Apply(built.value, sandbox));
        if commit.Landed? {
          r := Wrote(engine, built.value);
          engine := commit.engine;
          return;
        }
        if commit.why != Conflict { return WriteFailed(commit.why); }
      }
      r := WriteFailed(Conflict);
    }

    /** `compile_source`'s snapshots, one cube after another. */
    method CaptureAll(names: seq<string>) returns (caught: seq<Caught>)
      modifies this
      ensures Captured(engine, caught) == Capture(old(engine), others, old(clock), names, |names|)
      ensures clock == old(clock) + |names|
    {
      hide After;
      caught := [];
      for j := 0 to |names|
        invariant clock == old(clock) + j
        invariant Captured(engine, caught) == Capture(old(engine), others, old(clock), names, j)
      {
        Yield();
        if names[j] in engine.cubes { caught := caught + [Caught(names[j], engine.cubes[names[j]])]; }
      }
    }

    method PutRound(p: Request) returns (r: PutResult)
      modifies this
      ensures PutOutcome(engine, clock, r) == Round(old(engine), others, old(clock), p)
    {
      hide After, SetRules, Capture, Commits;
      Yield();
      var base := VersionOf(engine, p.cube);
      Yield();
      var names := p.list(engine.cubes.Keys);
      var caught := CaptureAll(names);
      Yield();
      if p.cube !in engine.cubes { return PutFailed(NoSuchCube); }
      if p.cube !in names { return PutFailed(Aborted); }
      if !p.compiles(names, Snaps(caught), engine.cubes[p.cube].content, p.source) { return PutFailed(DoesNotCompile); }
      Yield();
      var commit := Commits(engine, p.cube, base, SetRules(p.source));
      if commit.Refused? { return PutFailed(commit.why); }
      r := Stored(engine, base);
      engine := commit.engine;
    }

    method PutRules(p: Request) returns (r: PutResult)
      modifies this
      ensures PutOutcome(engine, clock, r) == PutRun(old(engine), others, old(clock), p, RULE_VALIDATE_RETRY_LIMIT)
      ensures old(EngineOk(engine)) && ListsAll(p.list) ==>
                StoredRight(PutOutcome(engine, clock, r), p) && PutAnsweredRight(PutOutcome(engine, clock, r), p)
    {
      hide Round, EngineOk, StoredRight, PutAnsweredRight;
      if EngineOk(engine) && ListsAll(p.list) {
        StoredSourceCompiled(engine, others, clock, p, RULE_VALIDATE_RETRY_LIMIT);
        PutAnswersAreRight(engine, others, clock, p, RULE_VALIDATE_RETRY_LIMIT);
      }
      for i := 0 to RULE_VALIDATE_RETRY_LIMIT
        invariant PutRun(engine, others, clock, p, RULE_VALIDATE_RETRY_LIMIT - i) ==
                  PutRun(old(engine), others, old(clock), p, RULE_VALIDATE_RETRY_LIMIT)
      {
        r := PutRound(p);
        if r != PutFailed(Conflict) { return; }
      }
      r := PutFailed(Conflict);
    }
  }
}
