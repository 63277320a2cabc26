/** Enumerating the leaf space of a consolidated coordinate: the dense mixed-radix walk,
    the sparse scan, and the arithmetic that makes them comparable. */
module Rollups {
  import opened FixedPoint
  import opened CubeModel

  const USIZE_MAX: nat := 0xFFFF_FFFF_FFFF_FFFF

  // ---------------------------------------------------------------- mixed-radix numbers

  function Lens<T>(lists: seq<seq<T>>): (r: seq<nat>)
    ensures |r| == |lists| && forall d :: 0 <= d < |lists| ==> r[d] == |lists[d]|
  {
    seq(|lists|, d requires 0 <= d < |lists| => |lists[d]|)
  }

  function Size(lens: seq<nat>): nat {
    if lens == [] then 1 else lens[0] * Size(lens[1..])
  }

  ghost predicate InBox(lens: seq<nat>, ds: seq<nat>) {
    |ds| == |lens| && forall d :: 0 <= d < |lens| ==> ds[d] < lens[d]
  }

  function Low(l: nat, n: nat): (r: nat)
    requires l > 0
    ensures r < l
  {
    n % l
  }

  function High(l: nat, n: nat): nat
    requires l > 0
  {
    n / l
  }

  /** The digits of `n`, first dimension fastest: the order of the dense rollup. */
  function Digits(lens: seq<nat>, n: nat): (ds: seq<nat>)
    requires n < Size(lens)
    ensures InBox(lens, ds)
  {
    if lens == [] then []
    else
      DigitStep(lens[0], Size(lens[1..]), n);
      [Low(lens[0], n)] + Digits(lens[1..], High(lens[0], n))
  }

  lemma DigitStep(l: nat, rest: nat, n: nat)
    requires n < l * rest
    ensures l > 0 && High(l, n) < rest
  {
    assert l * rest > 0;
    assert l > 0;
    assert l * (n / l) <= n;
    CancelFactor(l, n / l, rest);
  }

  lemma CancelFactor(l: nat, a: nat, b: nat)
    requires l * a < l * b
    ensures a < b
  {
    if b <= a { MulMonotone(b, a, l); }
  }

  function Undigits(lens: seq<nat>, ds: seq<nat>): (n: nat)
    requires InBox(lens, ds)
    ensures n < Size(lens)
  {
    if lens == [] then 0
    else
      var rest := Undigits(lens[1..], ds[1..]);
      assert ds[0] + lens[0] * rest < lens[0] * Size(lens[1..]) by {
        MulMonotone(rest + 1, Size(lens[1..]), lens[0]);
        assert (rest + 1) * lens[0] == lens[0] * rest + lens[0];
        assert Size(lens[1..]) * lens[0] == lens[0] * Size(lens[1..]);
      }
      ds[0] + lens[0] * rest
  }

  lemma DivMod(l: nat, d: nat, k: nat)
    requires d < l
    ensures Low(l, d + l * k) == d && High(l, d + l * k) == k
  {
    var n := d + l * k;
    var q := n / l;
    assert n == l * q + n % l;
    assert l * (k - q) == l * k - l * q;
    SmallMultiple(l, k - q);
  }

  lemma SmallMultiple(l: nat, x: int)
    requires 0 - l < l * x < l
    ensures x == 0
  {
    AbsProduct(l, x);
    if x != 0 {
      MulMonotone(1, Abs(x), l);
    }
  }

  /** Decoding is a bijection between the numbers below `Size` and the digit vectors. */
  lemma {:induction false} DigitsOfUndigits(lens: seq<nat>, ds: seq<nat>)
    requires InBox(lens, ds)
    ensures Digits(lens, Undigits(lens, ds)) == ds
  {
    if lens != [] {
      DigitsOfUndigits(lens[1..], ds[1..]);
      DivMod(lens[0], ds[0], Undigits(lens[1..], ds[1..]));
      assert ds == [ds[0]] + ds[1..];
    }
  }

  lemma {:induction false} UndigitsOfDigits(lens: seq<nat>, n: nat)
    requires n < Size(lens)
    ensures Undigits(lens, Digits(lens, n)) == n
  {
    if lens != [] {
      hide Low, High, Size;
      DigitsUnfold(lens, n);
      var ds := Digits(lens, n);
      assert ds[1..] == Digits(lens[1..], High(lens[0], n));
      UndigitsOfDigits(lens[1..], High(lens[0], n));
      LowHigh(lens[0], n);
    }
  }

  lemma LowHigh(l: nat, n: nat)
    requires l > 0
    ensures n == Low(l, n) + l * High(l, n)
  {}

  lemma DigitsUnfold(lens: seq<nat>, n: nat)
    requires lens != [] && n < Size(lens)
    ensures lens[0] > 0 && High(lens[0], n) < Size(lens[1..])
    ensures Digits(lens, n) == [Low(lens[0], n)] + Digits(lens[1..], High(lens[0], n))
  {
    DigitStep(lens[0], Size(lens[1..]), n);
  }

  /** The product of the lengths, or nothing once a prefix of it leaves the machine word. */
  function CheckedProduct(lens: seq<nat>): (r: Option<nat>)
    ensures r.Some? ==> r.value == Size(lens)
  {
    CheckedFrom(1, lens)
  }

  function CheckedFrom(total: nat, lens: seq<nat>): (r: Option<nat>)
    ensures r.Some? ==> r.value == total * Size(lens)
    decreases lens
  {
    if lens == [] then Some(total)
    else if total * lens[0] > USIZE_MAX then None
    else
      assert total * lens[0] * Size(lens[1..]) == total * (lens[0] * Size(lens[1..]));
      CheckedFrom(total * lens[0], lens[1..])
  }

  ghost predicate PrefixTooLarge(total: nat, lens: seq<nat>) {
    exists k :: 0 < k <= |lens| && Size(lens[..k]) * total > USIZE_MAX
  }

  /** Exactly the lists with a prefix too large to count are refused, even when a later
      empty dimension makes the whole product zero. */
  lemma {:induction false} CheckedFromNone(total: nat, lens: seq<nat>)
    ensures CheckedFrom(total, lens).None? <==> PrefixTooLarge(total, lens)
    decreases lens
  {
    if lens != [] {
      var t, rest := total * lens[0], lens[1..];
      CheckedFromNone(t, rest);
      PrefixStep(total, lens, 1);
      assert Size(rest[..0]) == 1;
      if PrefixTooLarge(t, rest) {
        var k :| 0 < k <= |rest| && Size(rest[..k]) * t > USIZE_MAX;
        PrefixStep(total, lens, k + 1);
      }
      if PrefixTooLarge(total, lens) {
        var k :| 0 < k <= |lens| && Size(lens[..k]) * total > USIZE_MAX;
        PrefixStep(total, lens, k);
      }
    }
  }

  lemma PrefixStep(total: nat, lens: seq<nat>, k: nat)
    requires 0 < k <= |lens|
    ensures Size(lens[..k]) * total == Size(lens[1..][..k - 1]) * (total * lens[0])
  {
    assert lens[..k][1..] == lens[1..][..k - 1];
    Regroup(lens[0], Size(lens[1..][..k - 1]), total);
  }

  lemma Regroup(a: nat, b: nat, c: nat)
    ensures (a * b) * c == b * (c * a)
  {}

  // ---------------------------------------------------------------- items

  datatype Item = Item(coord: Coord, weight: int)

  function PerDim(dims: seq<Dimension>, coord: Coord): (r: seq<seq<Contribution>>)
    requires InRange(dims, coord)
    requires forall d :: 0 <= d < |dims| ==> |dims[d].rollup| == |dims[d].elements|
    ensures |r| == |dims| && forall d :: 0 <= d < |dims| ==> r[d] == dims[d].rollup[coord[d]]
  {
    seq(|dims|, d requires 0 <= d < |dims| => dims[d].rollup[coord[d]])
  }

  function ItemAt(perDim: seq<seq<Contribution>>, ds: seq<nat>): (item: Item)
    requires InBox(Lens(perDim), ds)
    ensures |item.coord| == |perDim|
    ensures forall d :: 0 <= d < |perDim| ==> item.coord[d] == perDim[d][ds[d]].leaf
  {
    if perDim == [] then Item([], 1)
    else
      var rest := ItemAt(perDim[1..], ds[1..]);
      var c := perDim[0][ds[0]];
      Item([c.leaf] + rest.coord, c.weight * rest.weight)
  }

  function DenseItems(perDim: seq<seq<Contribution>>): (items: seq<Item>) {
    var lens := Lens(perDim);
    seq(Size(lens), n requires 0 <= n < Size(lens) => ItemAt(perDim, Digits(lens, n)))
  }

  /** The in-place decoding of one leaf coordinate of the dense walk, and of its weight. */
  method Decode(perDim: seq<seq<Contribution>>, n: nat) returns (combo: Coord, weight: int)
    requires n < Size(Lens(perDim))
    ensures Item(combo, weight) == ItemAt(perDim, Digits(Lens(perDim), n))
  {
    hide Digits, ItemAt, Size, ToGo, Low, High;
    var rem: nat := n;
    combo, weight := [], 1;
    ToGoEnds(perDim, n);
    for d := 0 to |perDim|
      invariant ToGo(perDim, n, d, combo, weight, rem)
    {
      ToGoStep(perDim, n, d, combo, weight, rem);
      var len := |perDim[d]|;
      var w := perDim[d][Low(len, rem)];
      combo, weight, rem := combo + [w.leaf], weight * w.weight, High(len, rem);
    }
    ToGoDone(perDim, n, combo, weight, rem);
  }

  /** The first `d` dimensions are decoded, and `rem` still encodes the rest. */
  ghost predicate ToGo(perDim: seq<seq<Contribution>>, n: nat, d: nat, combo: Coord, weight: int, rem: nat)
    requires n < Size(Lens(perDim))
  {
    && d <= |perDim| && rem < Size(Lens(perDim[d..]))
    && var item, rest := ItemAt(perDim, Digits(Lens(perDim), n)), ItemAt(perDim[d..], Digits(Lens(perDim[d..]), rem));
       item.coord == combo + rest.coord && item.weight == weight * rest.weight
  }

  lemma ToGoEnds(perDim: seq<seq<Contribution>>, n: nat)
    requires n < Size(Lens(perDim))
    ensures ToGo(perDim, n, 0, [], 1, n)
  {
    assert perDim[0..] == perDim;
  }

  lemma ToGoDone(perDim: seq<seq<Contribution>>, n: nat, combo: Coord, weight: int, rem: nat)
    requires n < Size(Lens(perDim)) && ToGo(perDim, n, |perDim|, combo, weight, rem)
    ensures Item(combo, weight) == ItemAt(perDim, Digits(Lens(perDim), n))
  {
    assert perDim[|perDim|..] == [];
  }

  lemma ToGoStep(perDim: seq<seq<Contribution>>, n: nat, d: nat, combo: Coord, weight: int, rem: nat)
    requires n < Size(Lens(perDim)) && d < |perDim| && ToGo(perDim, n, d, combo, weight, rem)
    ensures |perDim[d]| > 0
    ensures var w := perDim[d][Low(|perDim[d]|, rem)];
            ToGo(perDim, n, d + 1, combo + [w.leaf], weight * w.weight, High(|perDim[d]|, rem))
  {
    hide Digits, ItemAt, Size, Low, High;
    var rest := perDim[d..];
    assert rest[1..] == perDim[d + 1..] && rest[0] == perDim[d];
    ItemUnfold(rest, rem);
    var w := perDim[d][Low(|perDim[d]|, rem)];
    Associate(weight, w.weight, ItemAt(perDim[d + 1..], Digits(Lens(perDim[d + 1..]), High(|perDim[d]|, rem))).weight);
  }

  lemma Associate(a: int, b: int, c: int)
    ensures (a * b) * c == a * (b * c)
  {}

  lemma ItemUnfold(perDim: seq<seq<Contribution>>, n: nat)
    requires perDim != [] && n < Size(Lens(perDim))
    ensures |perDim[0]| > 0 && High(|perDim[0]|, n) < Size(Lens(perDim[1..]))
    ensures var w := perDim[0][Low(|perDim[0]|, n)];
            var rest := ItemAt(perDim[1..], Digits(Lens(perDim[1..]), High(|perDim[0]|, n)));
            ItemAt(perDim, Digits(Lens(perDim), n)) == Item([w.leaf] + rest.coord, w.weight * rest.weight)
  {
    hide Low, High;
    var lens := Lens(perDim);
    assert lens[1..] == Lens(perDim[1..]);
    DigitStep(lens[0], Size(lens[1..]), n);
    assert Digits(lens, n)[1..] == Digits(lens[1..], High(lens[0], n));
  }

  function WeightOf(cs: seq<Contribution>, leaf: nat): (r: Option<int>)
    ensures r.Some? ==> exists k :: 0 <= k < |cs| && cs[k] == Contribution(leaf, r.value)
    ensures r.None? ==> forall k :: 0 <= k < |cs| ==> cs[k].leaf != leaf
  {
    if cs == [] then None
    else if cs[0].leaf == leaf then Some(cs[0].weight)
    else WeightOf(cs[1..], leaf)
  }

  /** The net weight of a leaf coordinate in a rollup, or nothing outside it. */
  function CellWeight(perDim: seq<seq<Contribution>>, coord: Coord): Option<int>
    requires |coord| == |perDim|
  {
    if perDim == [] then Some(1)
    else
      match WeightOf(perDim[0], coord[0])
      case None => None
      case Some(w) =>
        match CellWeight(perDim[1..], coord[1..])
        case None => None
        case Some(v) => Some(w * v)
  }

  function CoordsOf(items: seq<Item>): (r: seq<Coord>)
    ensures |r| == |items| && forall i :: 0 <= i < |items| ==> r[i] == items[i].coord
  {
    seq(|items|, i requires 0 <= i < |items| => items[i].coord)
  }

  /** The scanned coordinates that lie in the rollup, each the first time it is seen. */
  function SparseItems(perDim: seq<seq<Contribution>>, coords: seq<Coord>): seq<Item>
    requires forall c :: c in coords ==> |c| == |perDim|
  {
    if coords == [] then []
    else
      var last := coords[|coords| - 1];
      var before := SparseItems(perDim, coords[..|coords| - 1]);
      match CellWeight(perDim, last)
      case Some(w) => if last in CoordsOf(before) then before else before + [Item(last, w)]
      case None => before
  }

  lemma SparseUnfold(perDim: seq<seq<Contribution>>, coords: seq<Coord>)
    requires (forall c :: c in coords ==> |c| == |perDim|) && coords != []
    ensures var last, before := coords[|coords| - 1], SparseItems(perDim, coords[..|coords| - 1]);
            var w := CellWeight(perDim, last);
            SparseItems(perDim, coords) ==
            if w.Some? && last !in CoordsOf(before) then before + [Item(last, w.value)] else before
  {}

  lemma CoordsPush(items: seq<Item>, item: Item)
    ensures CoordsOf(items + [item]) == CoordsOf(items) + [item.coord]
  {}
}
