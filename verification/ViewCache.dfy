/** The bounded cache pool: a hash map with access ticks and a running byte count, which
    behaves as a list ordered by recency. */
module ViewCache {
  import opened FixedPoint
  import opened CubeModel
  import opened Rollups
  import opened RuleSource

  // ---------------------------------------------------------------- keys

  datatype AxisSpec = AxisSpec(dimension: string, members: seq<string>)

  datatype ViewShape = ViewShape(
    rows: seq<AxisSpec>,
    columns: seq<AxisSpec>,
    context: seq<(string, string)>,
    suppressZeroRows: bool,
    suppressZeroColumns: bool)

  datatype MaskKey = Unmasked | Masked(denied: set<(nat, nat)>)

  datatype Key = Key(
    cube: string,
    version: nat,
    depVersions: seq<(string, nat)>,
    shape: ViewShape,
    sandboxScope: Option<nat>,
    mask: MaskKey)

  /** One read: the dependencies as collected, the mask as its denied pairs, if there is one. */
  datatype ViewRead = ViewRead(
    cube: string,
    version: nat,
    depVersions: seq<(string, nat)>,
    shape: ViewShape,
    sandbox: Option<nat>,
    mask: Option<set<(nat, nat)>>)

  type Cellset = seq<Fixed>

  predicate PairLess(a: (string, nat), b: (string, nat)) {
    TextLess(a.0, b.0) || (a.0 == b.0 && a.1 < b.1)
  }

  function InsertPair(p: (string, nat), s: seq<(string, nat)>): (r: seq<(string, nat)>)
    ensures forall x :: x in r <==> x in s || x == p
  {
    if s == [] then [p]
    else if s[0] == p then s
    else if PairLess(p, s[0]) then [p] + s
    else [s[0]] + InsertPair(p, s[1..])
  }

  /** Sorted by name and version, without duplicates. */
  function SortPairs(s: seq<(string, nat)>): (r: seq<(string, nat)>)
    ensures forall x :: x in r <==> x in s
  {
    if s == [] then [] else InsertPair(s[0], SortPairs(s[1..]))
  }

  function BuildKey(read: ViewRead): Key {
    Key(read.cube, read.version, SortPairs(read.depVersions), read.shape,
        match read.sandbox case None => None case Some(created) => Some(if created < 1 then 1 else created),
        match read.mask
        case Some(denied) => if denied == {} then Unmasked else Masked(denied)
        case None => Unmasked)
  }

  lemma {:induction false} TextOrderTrans(a: string, b: string, c: string)
    requires TextLess(a, b) && TextLess(b, c)
    ensures TextLess(a, c)
  {
    if a != [] && b != [] && c != [] && a[0] == b[0] == c[0] {
      TextOrderTrans(a[1..], b[1..], c[1..]);
    }
  }

  lemma PairOrder(a: (string, nat), b: (string, nat), c: (string, nat))
    ensures !(PairLess(a, b) && PairLess(b, a)) && !PairLess(a, a)
    ensures PairLess(a, b) || PairLess(b, a) || a == b
    ensures PairLess(a, b) && PairLess(b, c) ==> PairLess(a, c)
  {
    TextOrder(a.0, b.0);
    TextOrder(a.0, a.0);
    if TextLess(a.0, b.0) && TextLess(b.0, c.0) { TextOrderTrans(a.0, b.0, c.0); }
  }

  ghost predicate Increasing(s: seq<(string, nat)>) {
    forall i, j :: 0 <= i < j < |s| ==> PairLess(s[i], s[j])
  }

  lemma {:induction false} InsertIncreasing(p: (string, nat), s: seq<(string, nat)>)
    requires Increasing(s)
    ensures Increasing(InsertPair(p, s))
  {
    hide PairLess;
    if s != [] && s[0] != p {
      PairOrder(p, s[0], s[0]);
      if PairLess(p, s[0]) {
        forall j | 0 <= j < |s|
          ensures PairLess(p, s[j])
        {
          PairOrder(p, s[0], s[j]);
        }
      } else {
        InsertIncreasing(p, s[1..]);
        var rest := InsertPair(p, s[1..]);
        forall j | 0 <= j < |rest|
          ensures PairLess(s[0], rest[j])
        {
          assert rest[j] in rest;
          if rest[j] != p {
            var k :| 0 <= k < |s[1..]| && s[1..][k] == rest[j];
          }
        }
      }
    }
  }

  lemma {:induction false} SortIncreasing(s: seq<(string, nat)>)
    ensures Increasing(SortPairs(s))
  {
    if s != [] {
      SortIncreasing(s[1..]);
      InsertIncreasing(s[0], SortPairs(s[1..]));
    }
  }

  lemma {:induction false} IncreasingIsUnique(a: seq<(string, nat)>, b: seq<(string, nat)>)
    requires Increasing(a) && Increasing(b) && forall x :: x in a <==> x in b
    ensures a == b
  {
    hide PairLess;
    assert |a| > 0 ==> a[0] in b;
    assert |b| > 0 ==> b[0] in a;
    if a != [] && b != [] {
      assert a[0] in b && b[0] in a;
      var i :| 0 <= i < |b| && b[i] == a[0];
      var j :| 0 <= j < |a| && a[j] == b[0];
      PairOrder(a[0], b[0], a[0]);
      assert a[0] == b[0];
      forall x
        ensures x in a[1..] <==> x in b[1..]
      {
        TailMembers(a, x);
        TailMembers(b, x);
      }
      IncreasingIsUnique(a[1..], b[1..]);
      assert a == [a[0]] + a[1..] && b == [b[0]] + b[1..];
    }
  }

  lemma TailMembers(a: seq<(string, nat)>, x: (string, nat))
    requires a != [] && Increasing(a)
    ensures x in a[1..] <==> x in a && x != a[0]
  {
    hide PairLess;
    PairOrder(a[0], a[0], a[0]);
    assert a == [a[0]] + a[1..];
    assert forall k :: 0 <= k < |a[1..]| ==> a[1..][k] == a[k + 1];
  }

  /** Both of the base, or of one sandbox; the first two ids are not told apart. */
  predicate SameSandbox(a: ViewRead, b: ViewRead) {
    match (a.sandbox, b.sandbox)
    case (None, None) => true
    case (Some(x), Some(y)) => x == y || (x <= 1 && y <= 1)
    case _ => false
  }

  /** Two reads share a key exactly when they agree on everything a cellset depends on: the order
      in which dependencies were collected, and an empty mask, make no difference. */
  lemma KeyIsLossless(a: ViewRead, b: ViewRead)
    ensures BuildKey(a) == BuildKey(b) <==>
              && a.cube == b.cube && a.version == b.version && a.shape == b.shape
              && (forall d :: d in a.depVersions <==> d in b.depVersions)
              && SameSandbox(a, b)
              && (if a.mask.Some? then a.mask.value else {}) == (if b.mask.Some? then b.mask.value else {})
  {
    var x, y := SortPairs(a.depVersions), SortPairs(b.depVersions);
    SortIncreasing(a.depVersions);
    SortIncreasing(b.depVersions);
    if forall d :: d in a.depVersions <==> d in b.depVersions {
      IncreasingIsUnique(x, y);
    }
    if x == y {
      assert forall d :: d in a.depVersions <==> d in x;
      assert forall d :: d in b.depVersions <==> d in y;
    }
  }

  // ---------------------------------------------------------------- the list it behaves as

  /** One cached value, least recently used first. */
  datatype Slot = Slot(key: Key, value: Cellset, bytes: nat)

  type Lru = seq<Slot>

  function Without(s: Lru, key: Key): (r: Lru)
    ensures forall x :: x in r <==> x in s && x.key != key
  {
    if s == [] then [] else (if s[0].key == key then [] else [s[0]]) + Without(s[1..], key)
  }

  function Find(s: Lru, key: Key): (r: Option<Slot>)
    ensures r.Some? ==> r.value in s && r.value.key == key
    ensures r.None? ==> forall x :: x in s ==> x.key != key
  {
    if s == [] then None else if s[0].key == key then Some(s[0]) else Find(s[1..], key)
  }

  function Bytes(s: Lru): nat {
    if s == [] then 0 else s[0].bytes + Bytes(s[1..])
  }

  predicate Fits(s: Lru, bytes: nat, cap: nat, budget: nat) {
    |s| + 1 <= cap && Bytes(s) + bytes <= budget
  }

  /** Drop from the old end until the newcomer fits. */
  function Evicted(s: Lru, bytes: nat, cap: nat, budget: nat): Lru {
    if s == [] || Fits(s, bytes, cap, budget) then s else Evicted(s[1..], bytes, cap, budget)
  }

  function AfterGet(s: Lru, key: Key): Lru {
    match Find(s, key)
    case None => s
    case Some(x) => Without(s, key) + [x]
  }

  function AfterInsert(s: Lru, x: Slot, cap: nat, budget: nat): Lru {
    if cap == 0 then s else Evicted(Without(s, x.key), x.bytes, cap, budget) + [x]
  }

  /** At most `cap` entries, and within budget unless a single entry is alone. */
  ghost predicate Within(s: Lru, cap: nat, budget: nat) {
    |s| <= cap && (Bytes(s) <= budget || |s| <= 1)
  }

  ghost predicate Unique(s: Lru) {
    forall i, j :: 0 <= i < j < |s| ==> s[i].key != s[j].key
  }

  /** What is evicted is the least recently used, and no more of it than the newcomer needs:
      the survivors are the longest recent end that leaves room. */
  lemma {:induction false} EvictionIsLeast(s: Lru, bytes: nat, cap: nat, budget: nat)
    ensures var k := |s| - |Evicted(s, bytes, cap, budget)|;
            && k >= 0 && Evicted(s, bytes, cap, budget) == s[k..]
            && (forall j :: 0 <= j < k ==> !Fits(s[j..], bytes, cap, budget))
            && (k < |s| ==> Fits(s[k..], bytes, cap, budget))
  {
    if s != [] && !Fits(s, bytes, cap, budget) {
      EvictionIsLeast(s[1..], bytes, cap, budget);
      var rest := Evicted(s[1..], bytes, cap, budget);
      var k := |s| - |rest|;
      assert s[1..][k - 1..] == s[k..];
      forall j | 0 <= j < k
        ensures !Fits(s[j..], bytes, cap, budget)
      {
        if j == 0 { assert s[0..] == s; } else { assert s[1..][j - 1..] == s[j..]; }
      }
    } else {
      assert s[0..] == s;
    }
  }

  /** The list without the key's slot, the others in their order. */
  ghost predicate Drops(s: Lru, key: Key, rest: Lru) {
    if forall x :: x in s ==> x.key != key then rest == s
    else exists p :: 0 <= p < |s| && s[p].key == key && rest == s[..p] + s[p + 1..]
  }

  lemma {:induction false} WithoutDrops(s: Lru, key: Key)
    requires Unique(s)
    ensures Drops(s, key, Without(s, key))
  {
    if p: nat :| p < |s| && s[p].key == key {
      WithoutAt(s, p);
      assert s[p] in s;
    } else {
      NothingRemoved(s, key);
    }
  }

  lemma {:induction false} WithoutAt(s: Lru, p: nat)
    requires Unique(s) && p < |s|
    ensures Without(s, s[p].key) == s[..p] + s[p + 1..]
  {
    hide Unique, Without;
    UniqueTail(s);
    WithoutUnfold(s, s[p].key);
    var rest := s[1..];
    if p == 0 {
      NothingRemoved(rest, s[0].key);
    } else {
      WithoutAt(rest, p - 1);
      assert rest[p - 1] == s[p];
      Spliced(s, p);
    }
  }

  lemma WithoutUnfold(s: Lru, key: Key)
    requires s != []
    ensures Without(s, key) == if s[0].key == key then Without(s[1..], key) else [s[0]] + Without(s[1..], key)
  {}

  lemma Spliced(s: Lru, p: nat)
    requires 0 < p < |s|
    ensures s[..p] + s[p + 1..] == [s[0]] + (s[1..][..p - 1] + s[1..][p..])
  {}

  /** A hit moves the key's slot to the young end and does nothing else. */
  lemma GetIsExact(s: Lru, key: Key)
    requires Unique(s)
    ensures if forall x :: x in s ==> x.key != key then AfterGet(s, key) == s
            else exists x, rest :: x in s && x.key == key && Drops(s, key, rest) && AfterGet(s, key) == rest + [x]
  {
    hide Without, Find, Drops;
    WithoutDrops(s, key);
    if Find(s, key).Some? { assert AfterGet(s, key) == Without(s, key) + [Find(s, key).value]; }
  }

  /** What an insertion keeps is all of the longest recent end that leaves room. */
  ghost predicate KeepsRecent(older: Lru, kept: Lru, bytes: nat, cap: nat, budget: nat) {
    && |kept| <= |older| && kept == older[|older| - |kept|..] && (kept != [] ==> Fits(kept, bytes, cap, budget))
    && forall j :: 0 <= j < |older| - |kept| ==> !Fits(older[j..], bytes, cap, budget)
  }

  lemma InsertIsExact(s: Lru, x: Slot, cap: nat, budget: nat)
    requires Unique(s) && cap > 0
    ensures exists older, kept ::
              Drops(s, x.key, older) && KeepsRecent(older, kept, x.bytes, cap, budget)
              && AfterInsert(s, x, cap, budget) == kept + [x]
  {
    hide Without, Evicted, Drops, Fits;
    var older := Without(s, x.key);
    WithoutDrops(s, x.key);
    EvictionIsLeast(older, x.bytes, cap, budget);
    var kept := Evicted(older, x.bytes, cap, budget);
    assert KeepsRecent(older, kept, x.bytes, cap, budget);
    assert AfterInsert(s, x, cap, budget) == kept + [x];
  }

  lemma {:induction false} BytesAppend(s: Lru, x: Slot)
    ensures Bytes(s + [x]) == Bytes(s) + x.bytes
  {
    if s != [] {
      assert (s + [x])[1..] == s[1..] + [x];
      BytesAppend(s[1..], x);
    }
  }

  lemma {:induction false} WithoutUnique(s: Lru, key: Key)
    requires Unique(s)
    ensures Unique(Without(s, key)) && |Without(s, key)| <= |s| && Bytes(Without(s, key)) <= Bytes(s)
    ensures match Find(s, key)
            case None => Without(s, key) == s
            case Some(x) => |Without(s, key)| == |s| - 1 && Bytes(Without(s, key)) + x.bytes == Bytes(s)
  {
    if s != [] {
      hide Unique;
      UniqueTail(s);
      if s[0].key == key {
        NothingRemoved(s[1..], key);
        assert Without(s, key) == s[1..];
      } else {
        var rest := Without(s[1..], key);
        WithoutUnique(s[1..], key);
        HeadStaysUnique(s, rest);
        assert Without(s, key) == [s[0]] + rest && ([s[0]] + rest)[1..] == rest;
      }
    }
  }

  lemma UniqueTail(s: Lru)
    requires s != [] && Unique(s)
    ensures Unique(s[1..]) && forall i :: 0 <= i < |s[1..]| ==> s[1..][i].key != s[0].key
  {}

  lemma HeadStaysUnique(s: Lru, rest: Lru)
    requires s != [] && Unique(s) && Unique(rest) && forall x :: x in rest ==> x in s[1..]
    ensures Unique([s[0]] + rest)
  {
    forall i | 0 <= i < |rest|
      ensures rest[i].key != s[0].key
    {
      assert rest[i] in s[1..];
      var j :| 0 <= j < |s[1..]| && s[1..][j] == rest[i];
    }
  }

  lemma {:induction false} NothingRemoved(s: Lru, key: Key)
    requires forall i :: 0 <= i < |s| ==> s[i].key != key
    ensures Without(s, key) == s
  {
    if s != [] {
      NothingRemoved(s[1..], key);
    }
  }

  lemma GetStaysWithin(s: Lru, key: Key, cap: nat, budget: nat)
    requires Unique(s) && Within(s, cap, budget)
    ensures Unique(AfterGet(s, key)) && Within(AfterGet(s, key), cap, budget)
  {
    hide Bytes, Without, Find;
    WithoutUnique(s, key);
    if Find(s, key).Some? {
      BytesAppend(Without(s, key), Find(s, key).value);
      NotAmong(Without(s, key), Find(s, key).value);
    }
  }

  lemma InsertStaysWithin(s: Lru, x: Slot, cap: nat, budget: nat)
    requires Unique(s) && Within(s, cap, budget)
    ensures Unique(AfterInsert(s, x, cap, budget)) && Within(AfterInsert(s, x, cap, budget), cap, budget)
  {
    hide Bytes, Without, Find, Evicted;
    WithoutUnique(s, x.key);
    var older := Without(s, x.key);
    var kept := Evicted(older, x.bytes, cap, budget);
    EvictionIsLeast(older, x.bytes, cap, budget);
    BytesAppend(kept, x);
    NotAmong(kept, x);
    NoBytes(kept);
  }

  lemma NoBytes(s: Lru)
    ensures s == [] ==> Bytes(s) == 0
  {}

  lemma NotAmong(s: Lru, x: Slot)
    requires Unique(s) && forall y :: y in s ==> y.key != x.key
    ensures Unique(s + [x])
  {
    assert forall i :: 0 <= i < |s| ==> s[i] in s;
  }

  // ---------------------------------------------------------------- whole runs

  datatype Op = Get(key: Key) | Insert(slot: Slot)

  function After(ops: seq<Op>, cap: nat, budget: nat): Lru {
    if ops == [] then []
    else
      var s, op := After(ops[..|ops| - 1], cap, budget), ops[|ops| - 1];
      match op
      case Get(k) => AfterGet(s, k)
      case Insert(x) => AfterInsert(s, x, cap, budget)
  }

  /** The slot last inserted under a key. */
  function LastInserted(ops: seq<Op>, key: Key): Option<Slot> {
    if ops == [] then None
    else
      var op := ops[|ops| - 1];
      if op.Insert? && op.slot.key == key then Some(op.slot) else LastInserted(ops[..|ops| - 1], key)
  }

  lemma NothingHeld(cap: nat, budget: nat)
    ensures Within([], cap, budget)
  {}

  /** Over every run of gets and inserts both bounds hold, each key has one slot, and a hit is
      what was last inserted under its key. */
  lemma {:induction false} RunsStayWithin(ops: seq<Op>, cap: nat, budget: nat)
    ensures var s := After(ops, cap, budget);
            Unique(s) && Within(s, cap, budget) && forall x :: x in s ==> LastInserted(ops, x.key) == Some(x)
  {
    hide Without, Bytes, Evicted;
    if ops == [] {
      NothingHeld(cap, budget);
    } else {
      var before, op := ops[..|ops| - 1], ops[|ops| - 1];
      RunsStayWithin(before, cap, budget);
      var s := After(before, cap, budget);
      match op {
        case Get(k) =>
          GetStaysWithin(s, k, cap, budget);
        case Insert(x) =>
          InsertStaysWithin(s, x, cap, budget);
          var older := Without(s, x.key);
          EvictionIsLeast(older, x.bytes, cap, budget);
          assert forall y :: y in Evicted(older, x.bytes, cap, budget) ==> y in older;
      }
    }
  }

  /** When a key was last asked for or inserted, counting from one. */
  function LastUse(ops: seq<Op>, key: Key): nat {
    if ops == [] then 0
    else
      var op := ops[|ops| - 1];
      if (if op.Get? then op.key else op.slot.key) == key then |ops| else LastUse(ops[..|ops| - 1], key)
  }

  ghost predicate UsedBefore(ops: seq<Op>, x: Slot, y: Slot) {
    LastUse(ops, x.key) < LastUse(ops, y.key)
  }

  ghost predicate ByLastUse(ops: seq<Op>, s: Lru) {
    forall i, j :: 0 <= i < j < |s| ==> UsedBefore(ops, s[i], s[j])
  }

  lemma {:induction false} OrderWithout(ops: seq<Op>, s: Lru, key: Key)
    requires ByLastUse(ops, s)
    ensures ByLastUse(ops, Without(s, key))
  {
    hide UsedBefore;
    if s != [] {
      var rest := Without(s[1..], key);
      OrderWithout(ops, s[1..], key);
      forall i | 0 <= i < |rest|
        ensures UsedBefore(ops, s[0], rest[i])
      {
        assert rest[i] in s[1..];
        var j :| 0 <= j < |s[1..]| && s[1..][j] == rest[i];
        assert s[j + 1] == rest[i];
      }
      assert Without(s, key) == if s[0].key == key then rest else [s[0]] + rest;
    }
  }

  /** One more use of a key: its slot moves to the recent end, the others keep their order. */
  lemma OrderAppend(before: seq<Op>, op: Op, s: Lru, x: Slot)
    requires ByLastUse(before, s) && (if op.Get? then op.key else op.slot.key) == x.key
    requires forall y :: y in s ==> y.key != x.key
    ensures ByLastUse(before + [op], s + [x])
  {
    var ops := before + [op];
    assert ops[..|ops| - 1] == before;
    forall y | y in s
      ensures LastUse(ops, y.key) == LastUse(before, y.key) <= |before|
    {
      UsedInTime(before, y.key);
    }
    forall i, j | 0 <= i < j < |s + [x]|
      ensures UsedBefore(ops, (s + [x])[i], (s + [x])[j])
    {
      assert s[i] in s;
      if j < |s| { assert s[j] in s && UsedBefore(before, s[i], s[j]); }
    }
  }

  lemma {:induction false} UsedInTime(ops: seq<Op>, key: Key)
    ensures LastUse(ops, key) <= |ops|
  {
    if ops != [] { UsedInTime(ops[..|ops| - 1], key); }
  }

  lemma OrderOfOthers(before: seq<Op>, op: Op, s: Lru)
    requires ByLastUse(before, s) && forall y :: y in s ==> y.key != (if op.Get? then op.key else op.slot.key)
    ensures ByLastUse(before + [op], s)
  {
    var ops := before + [op];
    assert ops[..|ops| - 1] == before;
    forall i, j | 0 <= i < j < |s|
      ensures UsedBefore(ops, s[i], s[j])
    {
      assert s[i] in s && s[j] in s && UsedBefore(before, s[i], s[j]);
    }
  }

  /** In every run the list is in the order of last use: with `EvictionIsLeast`, each victim is
      the entry whose last use lies furthest back. */
  lemma {:induction false} RunsStayOrdered(ops: seq<Op>, cap: nat, budget: nat)
    ensures ByLastUse(ops, After(ops, cap, budget))
  {
    hide Without, Bytes, Evicted, ByLastUse, LastUse, Find;
    if ops == [] {
      NothingOrdered();
    } else {
      var before, op := ops[..|ops| - 1], ops[|ops| - 1];
      assert ops == before + [op];
      RunsStayOrdered(before, cap, budget);
      RunsStayWithin(before, cap, budget);
      var s := After(before, cap, budget);
      match op {
        case Get(k) =>
          OrderWithout(before, s, k);
          if Find(s, k).Some? {
            OrderAppend(before, op, Without(s, k), Find(s, k).value);
          } else {
            OrderOfOthers(before, op, s);
          }
        case Insert(x) =>
          var older := Without(s, x.key);
          OrderWithout(before, s, x.key);
          EvictionIsLeast(older, x.bytes, cap, budget);
          var kept := Evicted(older, x.bytes, cap, budget);
          if cap == 0 {
            assert s == [];
            OrderOfOthers(before, op, s);
          } else {
            OrderOfSuffix(before, older, |older| - |kept|);
            OrderAppend(before, op, kept, x);
          }
      }
    }
  }

  lemma NothingOrdered()
    ensures ByLastUse([], [])
  {}

  lemma OrderOfSuffix(ops: seq<Op>, s: Lru, k: nat)
    requires ByLastUse(ops, s) && k <= |s|
    ensures ByLastUse(ops, s[k..])
  {
    hide UsedBefore;
  }

  // ---------------------------------------------------------------- the pool

  function SatAdd(a: nat, b: nat): nat {
    if a + b > USIZE_MAX then USIZE_MAX else a + b
  }

  /** The saturating byte count is exact for every charge that passes the budget test, if and
      only if the budget leaves the top of the machine word unused. */
  lemma ChargesAreExact(budget: nat)
    requires budget <= USIZE_MAX
    ensures budget < USIZE_MAX <==>
              forall a: nat, b: nat :: a <= USIZE_MAX && b <= USIZE_MAX && SatAdd(a, b) <= budget ==>
                SatAdd(a, b) == a + b
  {
    assert SatAdd(USIZE_MAX, 1) == USIZE_MAX;
  }

  datatype Cached = Cached(value: Cellset, tick: nat, bytes: nat)

  /** The map, byte count and clock hold exactly the list: one entry per slot, the bytes summed,
      the ticks distinct and in the list's order. */
  ghost predicate Represents(entries: map<Key, Cached>, bytes: nat, tick: nat, s: Lru) {
    && Unique(s) && bytes == Bytes(s)
    && (forall k :: k in entries ==> Find(s, k).Some?)
    && (forall x :: x in s ==> Holds(entries, tick, x))
    && Ticks(entries, s)
  }

  ghost predicate Holds(entries: map<Key, Cached>, tick: nat, x: Slot) {
    && x.key in entries && entries[x.key].value == x.value && entries[x.key].bytes == x.bytes
    && entries[x.key].tick <= tick
  }

  ghost predicate Ticks(entries: map<Key, Cached>, s: Lru) {
    forall i, j :: 0 <= i < j < |s| && s[i].key in entries && s[j].key in entries ==>
      entries[s[i].key].tick < entries[s[j].key].tick
  }

  /** Older, or not in the map at all. */
  ghost predicate Before(entries: map<Key, Cached>, x: Slot, y: Slot) {
    x.key in entries && y.key in entries ==> entries[x.key].tick < entries[y.key].tick
  }

  lemma TicksTail(entries: map<Key, Cached>, s: Lru)
    requires s != [] && Ticks(entries, s)
    ensures Ticks(entries, s[1..]) && forall y :: y in s[1..] ==> Before(entries, s[0], y)
  {
    forall y | y in s[1..]
      ensures Before(entries, s[0], y)
    {
      var j :| 0 <= j < |s[1..]| && s[1..][j] == y;
      assert s[j + 1] == y;
    }
  }

  lemma TicksCons(entries: map<Key, Cached>, x: Slot, rest: Lru)
    requires Ticks(entries, rest) && forall y :: y in rest ==> Before(entries, x, y)
    ensures Ticks(entries, [x] + rest)
  {
    var s := [x] + rest;
    forall i, j | 0 <= i < j < |s| && s[i].key in entries && s[j].key in entries
      ensures entries[s[i].key].tick < entries[s[j].key].tick
    {
      assert s[j] == rest[j - 1] && rest[j - 1] in rest;
      if i == 0 { assert Before(entries, x, rest[j - 1]); }
    }
  }

  lemma {:induction false} TicksWithout(entries: map<Key, Cached>, s: Lru, key: Key)
    requires Ticks(entries, s)
    ensures Ticks(entries, Without(s, key))
  {
    hide Ticks, Before;
    if s == [] {
      NoTicks(entries);
    } else {
      TicksTail(entries, s);
      TicksWithout(entries, s[1..], key);
      var rest := Without(s[1..], key);
      TicksCons(entries, s[0], rest);
      assert Without(s, key) == if s[0].key == key then rest else [s[0]] + rest;
    }
  }

  lemma NoTicks(entries: map<Key, Cached>)
    ensures Ticks(entries, [])
  {}

  lemma RemoveRepresents(entries: map<Key, Cached>, bytes: nat, tick: nat, s: Lru, key: Key)
    requires Represents(entries, bytes, tick, s)
    ensures key in entries ==>
              bytes >= entries[key].bytes
              && Represents(entries - {key}, bytes - entries[key].bytes, tick, Without(s, key))
    ensures key !in entries ==> Without(s, key) == s
  {
    hide Without, Bytes, Find;
    WithoutUnique(s, key);
    TicksWithout(entries, s, key);
    assert Find(s, key).Some? ==> Holds(entries, tick, Find(s, key).value);
    if key in entries {
      var less, rest := entries - {key}, Without(s, key);
      assert Holds(entries, tick, Find(s, key).value);
      forall k | k in less
        ensures Find(rest, k).Some?
      {
        assert Find(s, k).value in rest;
      }
      forall x | x in rest
        ensures Holds(less, tick, x)
      {
        assert Holds(entries, tick, x);
      }
    }
  }

  /** A new slot at the young end, under a tick later than all others. */
  lemma AppendRepresents(entries: map<Key, Cached>, bytes: nat, tick: nat, s: Lru, x: Slot)
    requires Represents(entries, bytes, tick, s) && x.key !in entries
    ensures Represents(entries[x.key := Cached(x.value, tick + 1, x.bytes)], bytes + x.bytes, tick + 1, s + [x])
  {
    hide Bytes, Find, Unique, Ticks;
    BytesAppend(s, x);
    var more, next := entries[x.key := Cached(x.value, tick + 1, x.bytes)], s + [x];
    forall y | y in s
      ensures y.key != x.key && Holds(entries, tick, y) && Holds(more, tick + 1, y)
    {}
    NotAmong(s, x);
    FoundAfter(entries, s, x);
    TicksAfter(entries, tick, s, x);
  }

  lemma FoundAfter(entries: map<Key, Cached>, s: Lru, x: Slot)
    requires forall k :: k in entries ==> Find(s, k).Some?
    ensures forall k :: k in entries || k == x.key ==> Find(s + [x], k).Some?
  {
    hide Find;
    assert x in s + [x];
    forall k | k in entries
      ensures Find(s + [x], k).Some?
    {
      assert Find(s, k).value in s + [x];
    }
  }

  lemma TicksAfter(entries: map<Key, Cached>, tick: nat, s: Lru, x: Slot)
    requires Ticks(entries, s) && forall y :: y in s ==> y.key != x.key && Holds(entries, tick, y)
    ensures Ticks(entries[x.key := Cached(x.value, tick + 1, x.bytes)], s + [x])
  {
    assert forall i :: 0 <= i < |s| ==> s[i] in s && (s + [x])[i] == s[i];
  }

  lemma OldestHasLeastTick(entries: map<Key, Cached>, bytes: nat, tick: nat, s: Lru, victim: Key)
    requires Represents(entries, bytes, tick, s) && victim in entries
    requires forall k :: k in entries ==> entries[victim].tick <= entries[k].tick
    ensures s != [] && victim == s[0].key && Without(s, victim) == s[1..]
  {
    hide Bytes, Find, Without;
    LeastIsFirst(entries, bytes, tick, s, victim);
    WithoutFirst(s);
  }

  lemma LeastIsFirst(entries: map<Key, Cached>, bytes: nat, tick: nat, s: Lru, victim: Key)
    requires Represents(entries, bytes, tick, s) && victim in entries
    requires forall k :: k in entries ==> entries[victim].tick <= entries[k].tick
    ensures s != [] && victim == s[0].key
  {
    hide Bytes, Find, Unique;
    var x := Find(s, victim).value;
    assert x in s && s[0] in s;
    assert Holds(entries, tick, s[0]) && Holds(entries, tick, x);
    var j :| 0 <= j < |s| && s[j] == x;
  }

  lemma WithoutFirst(s: Lru)
    requires s != [] && Unique(s)
    ensures Without(s, s[0].key) == s[1..]
  {
    hide Unique, Without;
    WithoutAt(s, 0);
    assert s[..0] + s[1..] == s[1..];
  }

  ghost function KeySet(s: Lru): (r: set<Key>)
    ensures forall k :: k in r <==> Find(s, k).Some?
  {
    if s == [] then {} else {s[0].key} + KeySet(s[1..])
  }

  lemma {:induction false} KeySetSize(s: Lru)
    requires Unique(s)
    ensures |KeySet(s)| == |s|
  {
    hide Find;
    if s != [] {
      KeySetSize(s[1..]);
      NotFound(s[1..], s[0].key);
      assert KeySet(s) == {s[0].key} + KeySet(s[1..]);
    }
  }

  lemma {:induction false} NotFound(s: Lru, key: Key)
    requires forall i :: 0 <= i < |s| ==> s[i].key != key
    ensures Find(s, key).None?
  {
    if s != [] {
      NotFound(s[1..], key);
    }
  }

  lemma SameSize(entries: map<Key, Cached>, bytes: nat, tick: nat, s: Lru)
    requires Represents(entries, bytes, tick, s)
    ensures |entries| == |s|
  {
    hide Bytes, Find, KeySet;
    KeySetSize(s);
    forall k
      ensures k in entries.Keys <==> k in KeySet(s)
    {
      HitIff(entries, bytes, tick, s, k);
    }
    assert entries.Keys == KeySet(s);
  }

  class Pool {
    var entries: map<Key, Cached>
    const cap: nat
    const byteBudget: nat
    var bytes: nat
    var tick: nat
    /** The entries, least recently used first. */
    ghost var lru: Lru

    ghost predicate Valid()
      reads this
    {
      byteBudget < USIZE_MAX && Represents(entries, bytes, tick, lru) && Within(lru, cap, byteBudget)
    }

    constructor (cap: nat, byteBudget: nat)
      requires byteBudget < USIZE_MAX
      ensures Valid() && this.cap == cap && this.byteBudget == byteBudget && lru == []
    {
      this.entries, this.cap, this.byteBudget, this.bytes, this.tick, this.lru := map[], cap, byteBudget, 0, 0, [];
    }

    method Get(key: Key) returns (r: Option<Cellset>)
      requires Valid()
      modifies this`entries, this`tick, this`lru
      ensures Valid() && lru == AfterGet(old(lru), key)
      ensures r == (match Find(old(lru), key) case Some(x) => Some(x.value) case None => None)
    {
      hide Bytes, Without, Find, Represents;
      RemoveRepresents(entries, bytes, tick, lru, key);
      HitIff(entries, bytes, tick, lru, key);
      if cap == 0 || key !in entries {
        return None;
      }
      ghost var x := Find(lru, key).value;
      ghost var rest := Without(lru, key);
      AppendRepresents(entries - {key}, bytes - entries[key].bytes, tick, rest, x);
      GetStaysWithin(lru, key, cap, byteBudget);
      tick := tick + 1;
      ghost var was := entries;
      entries := entries[key := entries[key].(tick := tick)];
      assert entries == (was - {key})[key := Cached(x.value, tick, x.bytes)];
      lru := rest + [x];
      r := Some(entries[key].value);
    }

    /** Remove a key, keeping the byte count in step. */
    method Remove(key: Key)
      requires Represents(entries, bytes, tick, lru)
      modifies this`entries, this`bytes, this`lru
      ensures Represents(entries, bytes, tick, lru) && lru == Without(old(lru), key)
      ensures entries == old(entries) - {key}
    {
      hide Represents, Without;
      RemoveRepresents(entries, bytes, tick, lru, key);
      if key in entries {
        bytes := bytes - entries[key].bytes;
        entries := entries - {key};
      }
      lru := Without(lru, key);
    }

    /** Evict the entry with the least tick, which is the least recently used. */
    method EvictOne() returns (evicted: bool)
      requires Represents(entries, bytes, tick, lru)
      modifies this`entries, this`bytes, this`lru
      ensures Represents(entries, bytes, tick, lru)
      ensures evicted <==> old(lru) != []
      ensures lru == (if evicted then old(lru)[1..] else old(lru))
      ensures entries.Keys <= old(entries.Keys)
    {
      hide Represents, Without;
      SameSize(entries, bytes, tick, lru);
      if |entries| == 0 {
        return false;
      }
      assert entries.Keys != {};
      var victim :| victim in entries.Keys;
      var todo := entries.Keys - {victim};
      while todo != {}
        invariant victim in entries && todo <= entries.Keys
        invariant forall k :: k in entries.Keys - todo ==> entries[victim].tick <= entries[k].tick
      {
        var k :| k in todo;
        if entries[k].tick < entries[victim].tick {
          victim := k;
        }
        todo := todo - {k};
      }
      OldestHasLeastTick(entries, bytes, tick, lru, victim);
      Remove(victim);
      evicted := true;
    }

    method Insert(key: Key, value: Cellset, size: nat)
      requires Valid() && size <= USIZE_MAX
      modifies this`entries, this`bytes, this`tick, this`lru
      ensures Valid() && lru == AfterInsert(old(lru), Slot(key, value, size), cap, byteBudget)
    {
      hide Represents, Without, Bytes, Evicted, Find;
      if cap == 0 {
        return;
      }
      ghost var x := Slot(key, value, size);
      RepresentsUnique(entries, bytes, tick, lru);
      InsertStaysWithin(lru, x, cap, byteBudget);
      var now := tick + 1;
      Remove(key);
      ghost var older := lru;
      SameSize(entries, bytes, tick, lru);
      RepresentsUnique(entries, bytes, tick, lru);
      while (|entries| + 1 > cap || SatAdd(bytes, size) > byteBudget) && |entries| > 0
        invariant Represents(entries, bytes, tick, lru) && key !in entries && now == tick + 1
        invariant |entries| == |lru| && bytes == Bytes(lru)
        invariant Evicted(lru, size, cap, byteBudget) == Evicted(older, size, cap, byteBudget)
        decreases |entries|
      {
        EvictedUnfold(lru, size, cap, byteBudget);
        var evicted := EvictOne();
        if !evicted {
          break;
        }
        SameSize(entries, bytes, tick, lru);
        RepresentsUnique(entries, bytes, tick, lru);
      }
      EvictedUnfold(lru, size, cap, byteBudget);
      NoBytes(lru);
      AppendRepresents(entries, bytes, tick, lru, x);
      bytes := SatAdd(bytes, size);
      tick := now;
      entries := entries[key := Cached(value, tick, size)];
      lru := lru + [x];
    }
  }

  lemma RepresentsUnique(entries: map<Key, Cached>, bytes: nat, tick: nat, s: Lru)
    requires Represents(entries, bytes, tick, s)
    ensures Unique(s) && bytes == Bytes(s)
  {}

  lemma HitIff(entries: map<Key, Cached>, bytes: nat, tick: nat, s: Lru, key: Key)
    requires Represents(entries, bytes, tick, s)
    ensures Unique(s)
    ensures key in entries <==> Find(s, key).Some?
    ensures key in entries ==>
              entries[key].value == Find(s, key).value.value && entries[key].bytes == Find(s, key).value.bytes
  {
    hide Find, Bytes;
    if Find(s, key).Some? {
      assert Holds(entries, tick, Find(s, key).value);
    }
  }

  lemma EvictedUnfold(s: Lru, bytes: nat, cap: nat, budget: nat)
    ensures Evicted(s, bytes, cap, budget) ==
            if s == [] || Fits(s, bytes, cap, budget) then s else Evicted(s[1..], bytes, cap, budget)
  {}

  // ---------------------------------------------------------------- the read-through cache

  const ADHOC_SUBCAP_DIVISOR: nat := 4
  const MAX_CACHE_CELLS: nat := 1048576
  const APPROX_BYTES_PER_CELL: nat := 48

  function SatMul(a: nat, b: nat): nat {
    if a * b > USIZE_MAX then USIZE_MAX else a * b
  }

  /** In proportion to the cells, but never nothing, and within the machine word. */
  function ApproxBytes(cells: Cellset): (n: nat)
    ensures APPROX_BYTES_PER_CELL <= n <= USIZE_MAX
    ensures 0 < |cells| && n < USIZE_MAX ==> n == |cells| * APPROX_BYTES_PER_CELL
    ensures n == USIZE_MAX ==> |cells| * APPROX_BYTES_PER_CELL >= USIZE_MAX
    ensures cells == [] ==> n == APPROX_BYTES_PER_CELL
  {
    var n := SatMul(|cells|, APPROX_BYTES_PER_CELL);
    if n < APPROX_BYTES_PER_CELL then APPROX_BYTES_PER_CELL else n
  }

  datatype Computed = Ready(cells: Cellset) | Unavailable(error: CalcError)

  /** Every resident cellset is what its key computes to. */
  ghost predicate Truthful(s: Lru, compute: Key -> Computed) {
    forall x :: x in s ==> compute(x.key) == Ready(x.value)
  }

  /** A hit makes its entry the most recent; a miss stores what it computed, unless that failed
      or is over the size limit for one entry. */
  function AfterRead(enabled: bool, s: Lru, key: Key, compute: Key -> Computed, cap: nat, budget: nat): Lru {
    if !enabled then s
    else if Find(s, key).Some? then AfterGet(s, key)
    else
      match compute(key)
      case Unavailable(_) => s
      case Ready(cells) =>
        if |cells| > MAX_CACHE_CELLS then s
        else AfterInsert(s, Slot(key, cells, ApproxBytes(cells)), cap, budget)
  }

  /** What a read of an enabled cache computed, if it did not fail and is small enough, the next read of
      the same key finds. */
  lemma ReadIsRemembered(s: Lru, key: Key, compute: Key -> Computed, cap: nat, budget: nat)
    requires Unique(s) && Truthful(s, compute) && cap > 0
    ensures var found := Find(AfterRead(true, s, key, compute, cap, budget), key);
            if compute(key).Ready? && (|compute(key).cells| <= MAX_CACHE_CELLS || Find(s, key).Some?)
            then found.Some? && found.value.value == compute(key).cells
            else found.None?
  {
    hide Without, Find, Evicted, ApproxBytes;
    if Find(s, key).Some? {
      AtYoungEnd(Without(s, key), Find(s, key).value);
    } else if compute(key).Ready? && |compute(key).cells| <= MAX_CACHE_CELLS {
      var x := Slot(key, compute(key).cells, ApproxBytes(compute(key).cells));
      EvictionIsLeast(Without(s, key), x.bytes, cap, budget);
      AtYoungEnd(Evicted(Without(s, key), x.bytes, cap, budget), x);
    }
  }

  lemma AtYoungEnd(s: Lru, x: Slot)
    requires forall y :: y in s ==> y.key != x.key
    ensures Find(s + [x], x.key) == Some(x)
  {
    hide Find;
    assert x in s + [x];
  }

  function AtLeastOne(n: nat): nat { if n < 1 then 1 else n }

  class ViewCache {
    const saved: Pool
    const adhoc: Pool
    const enabled: bool
    var hits: nat
    var misses: nat

    ghost predicate Valid()
      reads this, saved, adhoc
    {
      saved != adhoc && saved.Valid() && adhoc.Valid()
    }

    constructor (capacity: nat, byteBudget: nat)
      requires byteBudget < USIZE_MAX
      ensures Valid() && fresh(saved) && fresh(adhoc) && saved.lru == [] && adhoc.lru == []
      ensures (enabled <==> capacity > 0) && hits == 0 && misses == 0
      ensures saved.cap == capacity && saved.byteBudget == byteBudget
      ensures capacity == 0 ==> adhoc.cap == 0
      ensures capacity > 0 ==> adhoc.cap > 0 && adhoc.cap <= capacity && adhoc.byteBudget > 0
      ensures capacity >= ADHOC_SUBCAP_DIVISOR ==>
                ADHOC_SUBCAP_DIVISOR * adhoc.cap <= capacity < ADHOC_SUBCAP_DIVISOR * (adhoc.cap + 1)
      ensures capacity > 0 && byteBudget >= ADHOC_SUBCAP_DIVISOR ==>
                ADHOC_SUBCAP_DIVISOR * adhoc.byteBudget <= byteBudget
                < ADHOC_SUBCAP_DIVISOR * (adhoc.byteBudget + 1)
    {
      var subCap := if capacity == 0 then 0 else AtLeastOne(capacity / ADHOC_SUBCAP_DIVISOR);
      var subBytes := if capacity == 0 then 0 else AtLeastOne(byteBudget / ADHOC_SUBCAP_DIVISOR);
      saved := new Pool(capacity, byteBudget);
      adhoc := new Pool(subCap, subBytes);
      enabled := capacity > 0;
      hits, misses := 0, 0;
    }

    /** When a cellset is a function of its key, reading through the cache returns exactly what
        computing afresh would, error included, and touches only the read's own pool. */
    method GetOrCompute(read: ViewRead, isAdhoc: bool, compute: Key -> Computed) returns (r: Computed)
      requires Valid() && Truthful(saved.lru, compute) && Truthful(adhoc.lru, compute)
      modifies saved, adhoc, this`hits, this`misses
      ensures Valid() && Truthful(saved.lru, compute) && Truthful(adhoc.lru, compute)
      ensures r == compute(BuildKey(read))
      ensures isAdhoc ==> saved.lru == old(saved.lru)
      ensures !isAdhoc ==> adhoc.lru == old(adhoc.lru)
      ensures isAdhoc ==> adhoc.lru == AfterRead(enabled, old(adhoc.lru), BuildKey(read), compute, adhoc.cap,
                                                 adhoc.byteBudget)
      ensures !isAdhoc ==> saved.lru == AfterRead(enabled, old(saved.lru), BuildKey(read), compute, saved.cap,
                                                  saved.byteBudget)
      ensures var hit := enabled && Find(if isAdhoc then old(adhoc.lru) else old(saved.lru), BuildKey(read)).Some?;
              hits == old(hits) + (if hit then 1 else 0) && misses == old(misses) + (if enabled && !hit then 1 else 0)
    {
      hide Represents, Within, Evicted, Without, Find, SatMul;
      var key := BuildKey(read);
      if !enabled {
        return compute(key);
      }
      var pool := if isAdhoc then adhoc else saved;
      ghost var before := pool.lru;
      var hit := pool.Get(key);
      StaysTruthful(before, key, Slot(key, [], 0), pool.cap, pool.byteBudget, compute);
      if hit.Some? {
        hits := hits + 1;
        return Ready(hit.value);
      }
      misses := misses + 1;
      r := compute(key);
      if r.Ready? && |r.cells| <= MAX_CACHE_CELLS {
        StaysTruthful(pool.lru, key, Slot(key, r.cells, ApproxBytes(r.cells)), pool.cap, pool.byteBudget, compute);
        pool.Insert(key, r.cells, ApproxBytes(r.cells));
      }
    }
  }

  lemma StaysTruthful(s: Lru, key: Key, x: Slot, cap: nat, budget: nat, compute: Key -> Computed)
    requires Truthful(s, compute)
    ensures Truthful(AfterGet(s, key), compute)
    ensures Find(s, key).Some? ==> compute(key) == Ready(Find(s, key).value.value)
    ensures compute(x.key) == Ready(x.value) ==> Truthful(AfterInsert(s, x, cap, budget), compute)
  {
    hide Without, Find, Evicted;
    EvictionIsLeast(Without(s, x.key), x.bytes, cap, budget);
  }
}
