/** The sparse scan and the dense walk of a rollup add up to the same total whenever the
    leaves the scan leaves out are worth nothing. */
module RollupSums {
  import opened FixedPoint
  import opened CubeModel
  import opened Rollups
  import opened Semantics

  ghost predicate Distinct(items: seq<Item>) {
    forall i, j :: 0 <= i < j < |items| ==> items[i].coord != items[j].coord
  }

  ghost predicate Ascending(perDim: seq<seq<Contribution>>) {
    forall d, j, k :: 0 <= d < |perDim| && 0 <= j < k < |perDim[d]| ==> perDim[d][j].leaf < perDim[d][k].leaf
  }

  // ---------------------------------------------------------------- the dense walk

  lemma WeightOfIs(cs: seq<Contribution>, k: nat)
    requires k < |cs| && forall i, j :: 0 <= i < j < |cs| ==> cs[i].leaf < cs[j].leaf
    ensures WeightOf(cs, cs[k].leaf) == Some(cs[k].weight)
  {
    var w := WeightOf(cs, cs[k].leaf);
    assert w.Some?;
    var j :| 0 <= j < |cs| && cs[j] == Contribution(cs[k].leaf, w.value);
    assert j == k;
  }

  lemma {:induction false} ItemWeight(perDim: seq<seq<Contribution>>, ds: seq<nat>)
    requires Ascending(perDim) && InBox(Lens(perDim), ds)
    ensures CellWeight(perDim, ItemAt(perDim, ds).coord) == Some(ItemAt(perDim, ds).weight)
  {
    if perDim != [] {
      assert Lens(perDim)[1..] == Lens(perDim[1..]);
      ItemWeight(perDim[1..], ds[1..]);
      WeightOfIs(perDim[0], ds[0]);
      var item := ItemAt(perDim, ds);
      assert item.coord[1..] == ItemAt(perDim[1..], ds[1..]).coord;
    }
  }

  lemma {:induction false} FindDigits(perDim: seq<seq<Contribution>>, coord: Coord) returns (ds: seq<nat>)
    requires |coord| == |perDim| && CellWeight(perDim, coord).Some?
    ensures InBox(Lens(perDim), ds)
    ensures ItemAt(perDim, ds) == Item(coord, CellWeight(perDim, coord).value)
  {
    if perDim == [] {
      ds := [];
    } else {
      hide ItemAt, InBox;
      var w := WeightOf(perDim[0], coord[0]).value;
      var k :| 0 <= k < |perDim[0]| && perDim[0][k] == Contribution(coord[0], w);
      var rest := FindDigits(perDim[1..], coord[1..]);
      ds := [k] + rest;
      OneMoreDigit(perDim, k, rest);
      assert coord == [coord[0]] + coord[1..];
    }
  }

  lemma OneMoreDigit(perDim: seq<seq<Contribution>>, k: nat, rest: seq<nat>)
    requires perDim != [] && k < |perDim[0]| && InBox(Lens(perDim[1..]), rest)
    ensures InBox(Lens(perDim), [k] + rest)
    ensures var item, c := ItemAt(perDim[1..], rest), perDim[0][k];
            ItemAt(perDim, [k] + rest) == Item([c.leaf] + item.coord, c.weight * item.weight)
  {
    var ds := [k] + rest;
    forall d | 0 <= d < |perDim|
      ensures ds[d] < Lens(perDim)[d]
    {
      if d > 0 { assert ds[d] == rest[d - 1] && rest[d - 1] < Lens(perDim[1..])[d - 1]; }
    }
    assert ds[1..] == rest;
  }

  lemma SameItemSameDigits(perDim: seq<seq<Contribution>>, a: seq<nat>, b: seq<nat>)
    requires Ascending(perDim) && InBox(Lens(perDim), a) && InBox(Lens(perDim), b)
    requires ItemAt(perDim, a).coord == ItemAt(perDim, b).coord
    ensures a == b
  {
    forall d | 0 <= d < |perDim|
      ensures a[d] == b[d]
    {
      assert ItemAt(perDim, a).coord[d] == perDim[d][a[d]].leaf;
      assert ItemAt(perDim, b).coord[d] == perDim[d][b[d]].leaf;
    }
  }

  /** The dense walk visits exactly the leaf coordinates of the rollup, each once and with
      its net weight. */
  lemma DenseIsExact(perDim: seq<seq<Contribution>>)
    requires Ascending(perDim)
    ensures Distinct(DenseItems(perDim))
    ensures forall item: Item :: |item.coord| == |perDim| ==>
              (item in DenseItems(perDim) <==> CellWeight(perDim, item.coord) == Some(item.weight))
    ensures forall item :: item in DenseItems(perDim) ==> |item.coord| == |perDim|
  {
    hide Digits, ItemAt, CellWeight, Undigits, Size;
    var lens, items := Lens(perDim), DenseItems(perDim);
    forall i, j | 0 <= i < j < |items|
      ensures items[i].coord != items[j].coord
    {
      if items[i].coord == items[j].coord {
        SameItemSameDigits(perDim, Digits(lens, i), Digits(lens, j));
        UndigitsOfDigits(lens, i);
        UndigitsOfDigits(lens, j);
      }
    }
    forall item | item in items
      ensures |item.coord| == |perDim| && CellWeight(perDim, item.coord) == Some(item.weight)
    {
      var n :| 0 <= n < |items| && items[n] == item;
      ItemWeight(perDim, Digits(lens, n));
    }
    forall item: Item | |item.coord| == |perDim| && CellWeight(perDim, item.coord) == Some(item.weight)
      ensures item in items
    {
      var ds := FindDigits(perDim, item.coord);
      DigitsOfUndigits(lens, ds);
      assert items[Undigits(lens, ds)] == item;
    }
  }

  // ---------------------------------------------------------------- the sparse scan

  /** The scan picks out exactly the scanned coordinates of the rollup, each once and with
      its net weight. */
  lemma {:induction false} SparseIsExact(perDim: seq<seq<Contribution>>, coords: seq<Coord>)
    requires forall c :: c in coords ==> |c| == |perDim|
    ensures Distinct(SparseItems(perDim, coords))
    ensures forall item: Item :: item in SparseItems(perDim, coords) <==>
              item.coord in coords && CellWeight(perDim, item.coord) == Some(item.weight)
  {
    hide CellWeight, SparseItems, CoordsOf, Distinct;
    if coords == [] {
      NoItems(perDim);
    } else {
      var last, before := coords[|coords| - 1], coords[..|coords| - 1];
      SparseIsExact(perDim, before);
      SparseUnfold(perDim, coords);
      assert coords == before + [last];
      var w, items := CellWeight(perDim, last), SparseItems(perDim, before);
      CoordsHas(items, last);
      if w.Some? && last !in CoordsOf(items) {
        OneMoreItem(items, Item(last, w.value));
      }
    }
  }

  lemma NoItems(perDim: seq<seq<Contribution>>)
    ensures SparseItems(perDim, []) == [] && Distinct([])
  {}

  lemma OneMoreItem(items: seq<Item>, x: Item)
    requires Distinct(items) && forall i :: 0 <= i < |items| ==> items[i].coord != x.coord
    ensures Distinct(items + [x])
    ensures forall item :: item in items + [x] <==> item in items || item == x
  {}

  lemma CoordsHas(items: seq<Item>, c: Coord)
    ensures c in CoordsOf(items) <==> exists i :: 0 <= i < |items| && items[i].coord == c
  {
    if c in CoordsOf(items) {
      var i :| 0 <= i < |items| && CoordsOf(items)[i] == c;
      assert items[i].coord == c;
    }
    if i :| 0 <= i < |items| && items[i].coord == c {
      assert CoordsOf(items)[i] == c;
    }
  }

  // ---------------------------------------------------------------- sums

  function Weighted(rd: Reader, o: nat, item: Item): int {
    match rd(Cell(o, item.coord))
    case Ok(v) => item.weight * v
    case Err(_) => 0
  }

  function SumItems(rd: Reader, o: nat, items: seq<Item>): int {
    if items == [] then 0 else SumItems(rd, o, items[..|items| - 1]) + Weighted(rd, o, items[|items| - 1])
  }

  lemma {:induction false} SumOfValues(rd: Reader, o: nat, items: seq<Item>)
    requires forall item :: item in items ==> rd(Cell(o, item.coord)).Ok?
    ensures RunSum(rd, o, items).res == Ok(SumItems(rd, o, items))
  {
    if items != [] {
      SumOfValues(rd, o, items[..|items| - 1]);
      assert items[|items| - 1] in items;
    }
  }

  /** A sum that has a value consulted every item. */
  lemma {:induction false} SumConsultsAll(rd: Reader, o: nat, items: seq<Item>)
    requires RunSum(rd, o, items).res.Ok?
    ensures forall item :: item in items ==> Cell(o, item.coord) in RunSum(rd, o, items).log
  {
    if items != [] {
      var before := items[..|items| - 1];
      SumConsultsAll(rd, o, before);
      assert items == before + [items[|items| - 1]];
    }
  }

  lemma {:induction false} SumAgree(a: Reader, b: Reader, o: nat, items: seq<Item>)
    requires forall item :: item in items ==> a(Cell(o, item.coord)) == b(Cell(o, item.coord))
    ensures SumItems(a, o, items) == SumItems(b, o, items)
  {
    if items != [] {
      SumAgree(a, b, o, items[..|items| - 1]);
      assert items[|items| - 1] in items;
    }
  }

  function Without(items: seq<Item>, k: nat): seq<Item>
    requires k < |items|
  {
    items[..k] + items[k + 1..]
  }

  lemma PickOut(items: seq<Item>, x: Item) returns (k: nat)
    requires Distinct(items) && x in items
    ensures k < |items| && items[k] == x && Distinct(Without(items, k)) && x !in Without(items, k)
    ensures forall item :: item in items <==> item in Without(items, k) || item == x
  {
    k :| 0 <= k < |items| && items[k] == x;
    assert items == items[..k] + [x] + items[k + 1..];
  }

  lemma {:induction false} SumWithout(rd: Reader, o: nat, items: seq<Item>, k: nat)
    requires k < |items|
    ensures SumItems(rd, o, items) == SumItems(rd, o, Without(items, k)) + Weighted(rd, o, items[k])
  {
    hide Weighted;
    var n := |items| - 1;
    var rest := Without(items, k);
    if k == n {
      assert rest == items[..n];
    } else {
      SumWithout(rd, o, items[..n], k);
      assert rest[..|rest| - 1] == Without(items[..n], k);
      assert rest[|rest| - 1] == items[n] && items[..n][k] == items[k];
    }
  }

  /** Leaving out items worth nothing does not change a sum; nor does the order. */
  lemma {:induction false} SumOfPart(rd: Reader, o: nat, all: seq<Item>, part: seq<Item>)
    requires Distinct(all) && Distinct(part)
    requires forall item :: item in part ==> item in all
    requires forall item :: item in all && item !in part ==> Weighted(rd, o, item) == 0
    ensures SumItems(rd, o, all) == SumItems(rd, o, part)
  {
    hide Weighted, Without;
    if all != [] {
      var x, fewer := all[|all| - 1], all[..|all| - 1];
      assert all == fewer + [x] && x in all;
      assert x !in fewer;
      if x in part {
        var k := PickOut(part, x);
        SumWithout(rd, o, part, k);
        forall item | item in Without(part, k)
          ensures item in fewer
        {
          assert item in part && item in all;
        }
        SumOfPart(rd, o, fewer, Without(part, k));
      } else {
        SumOfPart(rd, o, fewer, part);
      }
    }
  }

  // ---------------------------------------------------------------- which leaves count, and in which order

  ghost predicate HasLeaf(cs: seq<Contribution>, leaf: nat) {
    exists k :: 0 <= k < |cs| && cs[k].leaf == leaf
  }

  /** A leaf coordinate every dimension of the rollup has. */
  ghost predicate Contributes(perDim: seq<seq<Contribution>>, x: Coord) {
    |x| == |perDim| && forall d :: 0 <= d < |perDim| ==> HasLeaf(perDim[d], x[d])
  }

  lemma {:induction false} ContributesIffWeighs(perDim: seq<seq<Contribution>>, x: Coord)
    requires |x| == |perDim|
    ensures Contributes(perDim, x) <==> CellWeight(perDim, x).Some?
  {
    if perDim != [] {
      ContributesIffWeighs(perDim[1..], x[1..]);
      var w := WeightOf(perDim[0], x[0]);
      assert HasLeaf(perDim[0], x[0]) <==> w.Some?;
      assert Contributes(perDim, x) <==> HasLeaf(perDim[0], x[0]) && Contributes(perDim[1..], x[1..]) by {
        if HasLeaf(perDim[0], x[0]) && Contributes(perDim[1..], x[1..]) {
          forall d | 0 <= d < |perDim|
            ensures HasLeaf(perDim[d], x[d])
          {
            if d > 0 { assert HasLeaf(perDim[1..][d - 1], x[1..][d - 1]); }
          }
        }
        if Contributes(perDim, x) {
          assert forall d :: 0 <= d < |perDim[1..]| ==> HasLeaf(perDim[1..][d], x[1..][d]);
        }
      }
    }
  }

  /** Before in the order that compares the last dimension first. */
  predicate ColexLess(a: Coord, b: Coord) {
    && a != [] && b != []
    && (ColexLess(a[1..], b[1..]) || (a[1..] == b[1..] && a[0] < b[0]))
  }

  lemma {:induction false} ColexAsymmetric(a: Coord, b: Coord)
    requires ColexLess(a, b)
    ensures !ColexLess(b, a) && a != b
  {
    if ColexLess(a[1..], b[1..]) { ColexAsymmetric(a[1..], b[1..]); }
  }

  lemma {:induction false} DigitsOrder(lens: seq<nat>, n: nat, m: nat)
    requires n < m < Size(lens)
    ensures ColexLess(Digits(lens, n), Digits(lens, m))
  {
    if lens != [] {
      hide Low, High, Size, Digits;
      DigitsUnfold(lens, n);
      DigitsUnfold(lens, m);
      HighOrder(lens[0], n, m);
      var a, b := Digits(lens, n), Digits(lens, m);
      assert a[1..] == Digits(lens[1..], High(lens[0], n)) && b[1..] == Digits(lens[1..], High(lens[0], m));
      if High(lens[0], n) < High(lens[0], m) { DigitsOrder(lens[1..], High(lens[0], n), High(lens[0], m)); }
    }
  }

  lemma HighOrder(l: nat, n: nat, m: nat)
    requires l > 0 && n < m
    ensures High(l, n) < High(l, m) || (High(l, n) == High(l, m) && Low(l, n) < Low(l, m))
  {
    hide Low, High;
    LowHigh(l, n);
    LowHigh(l, m);
    if High(l, m) < High(l, n) {
      MulMonotone(High(l, m) + 1, High(l, n), l);
    }
  }

  lemma {:induction false} ItemOrder(perDim: seq<seq<Contribution>>, a: seq<nat>, b: seq<nat>)
    requires Ascending(perDim) && InBox(Lens(perDim), a) && InBox(Lens(perDim), b) && ColexLess(a, b)
    ensures ColexLess(ItemAt(perDim, a).coord, ItemAt(perDim, b).coord)
  {
    var x, y := ItemAt(perDim, a).coord, ItemAt(perDim, b).coord;
    assert Lens(perDim)[1..] == Lens(perDim[1..]);
    assert x[1..] == ItemAt(perDim[1..], a[1..]).coord && y[1..] == ItemAt(perDim[1..], b[1..]).coord;
    if ColexLess(a[1..], b[1..]) { ItemOrder(perDim[1..], a[1..], b[1..]); }
  }

  /** The dense walk goes through the leaves with the last dimension slowest. */
  lemma DenseOrder(perDim: seq<seq<Contribution>>)
    requires Ascending(perDim)
    ensures var items := DenseItems(perDim);
            forall i, j :: 0 <= i < j < |items| ==> ColexLess(items[i].coord, items[j].coord)
  {
    hide Digits, ItemAt, Size, ColexLess, InBox;
    var lens, items := Lens(perDim), DenseItems(perDim);
    forall i, j | 0 <= i < j < |items|
      ensures ColexLess(items[i].coord, items[j].coord)
    {
      DigitsOrder(lens, i, j);
      ItemOrder(perDim, Digits(lens, i), Digits(lens, j));
    }
  }

  // ---------------------------------------------------------------- the first failure

  ghost predicate FailsAt(rd: Reader, o: nat, items: seq<Item>, k: nat, x: CalcError) {
    && k < |items| && rd(Cell(o, items[k].coord)) == Err(x)
    && forall j :: 0 <= j < k ==> rd(Cell(o, items[j].coord)).Ok?
  }

  /** A sum fails as its first failing item does. */
  lemma {:induction false} SumFails(rd: Reader, o: nat, items: seq<Item>, x: CalcError)
    ensures RunSum(rd, o, items).res == Err(x) <==> exists k :: FailsAt(rd, o, items, k, x)
  {
    if items != [] {
      var n := |items| - 1;
      SumFails(rd, o, items[..n], x);
      var before := RunSum(rd, o, items[..n]).res;
      if k: nat :| FailsAt(rd, o, items[..n], k, x) {
        assert FailsAt(rd, o, items, k, x);
      }
      if before.Ok? {
        SumConsultsAll(rd, o, items[..n]);
        SumOk(rd, o, items[..n]);
        assert forall j :: 0 <= j < n ==> items[..n][j] in items[..n];
        if rd(Cell(o, items[n].coord)) == Err(x) { assert FailsAt(rd, o, items, n, x); }
      }
      if k: nat :| FailsAt(rd, o, items, k, x) {
        if k < n {
          assert FailsAt(rd, o, items[..n], k, x);
        } else {
          forall item | item in items[..n]
            ensures rd(Cell(o, item.coord)).Ok?
          {
            var j :| 0 <= j < n && items[..n][j] == item;
            assert rd(Cell(o, items[j].coord)).Ok?;
          }
          SumOfValues(rd, o, items[..n]);
        }
      }
    }
  }

  lemma {:induction false} SumOk(rd: Reader, o: nat, items: seq<Item>)
    requires RunSum(rd, o, items).res.Ok?
    ensures forall item :: item in items ==> rd(Cell(o, item.coord)).Ok?
  {
    if items != [] {
      SumOk(rd, o, items[..|items| - 1]);
      assert items == items[..|items| - 1] + [items[|items| - 1]];
    }
  }

  /** Of the leaves of the rollup, the first in the order of the dense walk that fails. */
  ghost predicate DenseFailure(rd: Reader, o: nat, perDim: seq<seq<Contribution>>, y: Coord, x: CalcError) {
    && Contributes(perDim, y) && rd(Cell(o, y)) == Err(x)
    && forall z :: Contributes(perDim, z) && ColexLess(z, y) ==> rd(Cell(o, z)).Ok?
  }

  lemma DenseFails(rd: Reader, o: nat, perDim: seq<seq<Contribution>>, x: CalcError)
    requires Ascending(perDim)
    ensures RunSum(rd, o, DenseItems(perDim)).res == Err(x) <==> exists y :: DenseFailure(rd, o, perDim, y, x)
  {
    hide DenseItems, ColexLess, Contributes, CellWeight, RunSum;
    var items := DenseItems(perDim);
    SumFails(rd, o, items, x);
    DenseOrder(perDim);
    DenseListing(perDim);
    if k: nat :| FailsAt(rd, o, items, k, x) {
      var y := items[k].coord;
      assert items[k] in items;
      forall z | Contributes(perDim, z) && ColexLess(z, y)
        ensures rd(Cell(o, z)).Ok?
      {
        var j :| 0 <= j < |items| && items[j].coord == z;
        ColexAsymmetric(z, y);
        assert j < k;
      }
      assert DenseFailure(rd, o, perDim, y, x);
    }
    if y :| DenseFailure(rd, o, perDim, y, x) {
      var k :| 0 <= k < |items| && items[k].coord == y;
      forall j | 0 <= j < k
        ensures rd(Cell(o, items[j].coord)).Ok?
      {
        assert items[j] in items && ColexLess(items[j].coord, y);
      }
      assert FailsAt(rd, o, items, k, x);
    }
  }

  lemma DenseListing(perDim: seq<seq<Contribution>>)
    requires Ascending(perDim)
    ensures var items := DenseItems(perDim);
            && (forall item :: item in items ==> Contributes(perDim, item.coord))
            && (forall y :: Contributes(perDim, y) ==> exists k :: 0 <= k < |items| && items[k].coord == y)
  {
    hide DenseItems, CellWeight, HasLeaf;
    var items := DenseItems(perDim);
    DenseIsExact(perDim);
    forall item | item in items
      ensures Contributes(perDim, item.coord)
    {
      ContributesIffWeighs(perDim, item.coord);
    }
    forall y | Contributes(perDim, y)
      ensures exists k :: 0 <= k < |items| && items[k].coord == y
    {
      ContributesIffWeighs(perDim, y);
      assert Item(y, CellWeight(perDim, y).value) in items;
    }
  }

  /** Of the scanned leaves of the rollup, the first that fails. */
  ghost predicate ScanFailure(rd: Reader, o: nat, perDim: seq<seq<Contribution>>, coords: seq<Coord>, k: nat,
                              x: CalcError)
  {
    && k < |coords| && Contributes(perDim, coords[k]) && rd(Cell(o, coords[k])) == Err(x)
    && forall j :: 0 <= j < k && Contributes(perDim, coords[j]) ==> rd(Cell(o, coords[j])).Ok?
  }

  lemma {:induction false} SparseFails(rd: Reader, o: nat, perDim: seq<seq<Contribution>>, coords: seq<Coord>,
                                       x: CalcError)
    requires forall c :: c in coords ==> |c| == |perDim|
    ensures RunSum(rd, o, SparseItems(perDim, coords)).res == Err(x)
            <==> exists k :: ScanFailure(rd, o, perDim, coords, k, x)
  {
    hide SparseItems, ScanFailure, RunSum, Contributes;
    if coords == [] {
      NothingScanned(rd, o, perDim, x);
    } else {
      SparseFails(rd, o, perDim, coords[..|coords| - 1], x);
      ScannedOk(rd, o, perDim, coords[..|coords| - 1]);
      OneMoreItemFails(rd, o, perDim, coords, x);
      OneMoreScanned(rd, o, perDim, coords, x);
    }
  }

  ghost predicate AllScanned(rd: Reader, o: nat, perDim: seq<seq<Contribution>>, coords: seq<Coord>) {
    forall j :: 0 <= j < |coords| && Contributes(perDim, coords[j]) ==> rd(Cell(o, coords[j])).Ok?
  }

  lemma OneMoreScanned(rd: Reader, o: nat, perDim: seq<seq<Contribution>>, coords: seq<Coord>, x: CalcError)
    requires coords != []
    ensures var n := |coords| - 1;
            (exists k :: ScanFailure(rd, o, perDim, coords, k, x))
            <==> || (exists k :: ScanFailure(rd, o, perDim, coords[..n], k, x))
                 || (AllScanned(rd, o, perDim, coords[..n]) && Contributes(perDim, coords[n])
                     && rd(Cell(o, coords[n])) == Err(x))
  {
    hide Contributes;
    var n := |coords| - 1;
    if k: nat :| ScanFailure(rd, o, perDim, coords[..n], k, x) {
      assert ScanFailure(rd, o, perDim, coords, k, x);
    }
    if k: nat :| ScanFailure(rd, o, perDim, coords, k, x) {
      if k < n { assert ScanFailure(rd, o, perDim, coords[..n], k, x); }
    }
    if AllScanned(rd, o, perDim, coords[..n]) && Contributes(perDim, coords[n]) && rd(Cell(o, coords[n])) == Err(x) {
      forall j | 0 <= j < n && Contributes(perDim, coords[j])
        ensures rd(Cell(o, coords[j])).Ok?
      {
        assert coords[..n][j] == coords[j];
      }
      assert ScanFailure(rd, o, perDim, coords, n, x);
    }
  }

  lemma OneMoreItemFails(rd: Reader, o: nat, perDim: seq<seq<Contribution>>, coords: seq<Coord>, x: CalcError)
    requires (forall c :: c in coords ==> |c| == |perDim|) && coords != []
    ensures var n := |coords| - 1;
            var before := RunSum(rd, o, SparseItems(perDim, coords[..n])).res;
            RunSum(rd, o, SparseItems(perDim, coords)).res == Err(x)
            <==> before == Err(x) || (before.Ok? && Contributes(perDim, coords[n]) && rd(Cell(o, coords[n])) == Err(x))
  {
    hide SparseItems, CoordsOf, Contributes, CellWeight;
    var n := |coords| - 1;
    var items := SparseItems(perDim, coords[..n]);
    SparseUnfold(perDim, coords);
    ContributesIffWeighs(perDim, coords[n]);
    if RunSum(rd, o, items).res.Ok? && coords[n] in CoordsOf(items) {
      CoordsHas(items, coords[n]);
      SumOk(rd, o, items);
    } else if coords[n] !in CoordsOf(items) && CellWeight(perDim, coords[n]).Some? {
      var more := items + [Item(coords[n], CellWeight(perDim, coords[n]).value)];
      assert more[..|more| - 1] == items;
    }
  }

  lemma NothingScanned(rd: Reader, o: nat, perDim: seq<seq<Contribution>>, x: CalcError)
    ensures RunSum(rd, o, SparseItems(perDim, [])).res != Err(x)
    ensures forall k :: !ScanFailure(rd, o, perDim, [], k, x)
  {}

  lemma ScannedOk(rd: Reader, o: nat, perDim: seq<seq<Contribution>>, coords: seq<Coord>)
    requires forall c :: c in coords ==> |c| == |perDim|
    ensures RunSum(rd, o, SparseItems(perDim, coords)).res.Ok? <==> AllScanned(rd, o, perDim, coords)
  {
    hide SparseItems, CellWeight, RunSum, Contributes;
    SparseIsExact(perDim, coords);
    var items := SparseItems(perDim, coords);
    if RunSum(rd, o, items).res.Ok? {
      SumOk(rd, o, items);
      forall j | 0 <= j < |coords| && Contributes(perDim, coords[j])
        ensures rd(Cell(o, coords[j])).Ok?
      {
        ContributesIffWeighs(perDim, coords[j]);
        assert Item(coords[j], CellWeight(perDim, coords[j]).value) in items;
      }
    }
    if AllScanned(rd, o, perDim, coords) {
      forall item | item in items
        ensures rd(Cell(o, item.coord)).Ok?
      {
        ContributesIffWeighs(perDim, item.coord);
        var j :| 0 <= j < |coords| && coords[j] == item.coord;
      }
      SumOfValues(rd, o, items);
    }
  }
}
