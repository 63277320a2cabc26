/** Walking a product of element lists without ever building it: the odometer that visits
    coordinates in lexicographic order, and the search that decodes a running number. */
module Walks {
  import opened FixedPoint
  import opened CubeModel
  import opened Rollups

  ghost predicate InProduct(lists: seq<seq<nat>>, c: Coord) {
    |c| == |lists| && forall d :: 0 <= d < |lists| ==> c[d] in lists[d]
  }

  function Pick(lists: seq<seq<nat>>, ds: seq<nat>): (c: Coord)
    requires InBox(Lens(lists), ds)
    ensures |c| == |lists| && forall d :: 0 <= d < |lists| ==> c[d] == lists[d][ds[d]]
  {
    seq(|lists|, d requires 0 <= d < |lists| => lists[d][ds[d]])
  }

  // ---------------------------------------------------------------- last dimension fastest

  /** The number an odometer reading stands for, last dimension fastest. */
  function Reading(lens: seq<nat>, ds: seq<nat>): nat
    requires |ds| == |lens|
  {
    if lens == [] then 0 else ds[0] * Size(lens[1..]) + Reading(lens[1..], ds[1..])
  }

  lemma {:induction false} ReadingBound(lens: seq<nat>, ds: seq<nat>)
    requires InBox(lens, ds)
    ensures Reading(lens, ds) < Size(lens)
  {
    if lens != [] {
      ReadingBound(lens[1..], ds[1..]);
      HigherDigit(ds[0], lens[0], Size(lens[1..]), Reading(lens[1..], ds[1..]));
    }
  }

  /** A higher leading digit outweighs any remainder. */
  lemma HigherDigit(a: nat, b: nat, s: nat, r: nat)
    requires a < b && r < s
    ensures a * s + r < b * s
  {
    MulMonotone(a + 1, b, s);
    assert (a + 1) * s == a * s + s;
  }

  /** Distinct readings stand for distinct numbers, in lexicographic order. */
  lemma {:induction false} ReadingOrder(lens: seq<nat>, a: seq<nat>, b: seq<nat>)
    requires InBox(lens, a) && InBox(lens, b)
    ensures Reading(lens, a) < Reading(lens, b) <==> LexLess(a, b)
    ensures Reading(lens, a) == Reading(lens, b) <==> a == b
  {
    if lens != [] {
      hide Size, Reading;
      ReadingUnfold(lens, a);
      ReadingUnfold(lens, b);
      var s := Size(lens[1..]);
      ReadingOrder(lens[1..], a[1..], b[1..]);
      ReadingBound(lens[1..], a[1..]);
      ReadingBound(lens[1..], b[1..]);
      assert a == [a[0]] + a[1..] && b == [b[0]] + b[1..];
      if a[0] < b[0] {
        HigherDigit(a[0], b[0], s, Reading(lens[1..], a[1..]));
      } else if b[0] < a[0] {
        HigherDigit(b[0], a[0], s, Reading(lens[1..], b[1..]));
      }
    }
  }

  lemma ReadingUnfold(lens: seq<nat>, ds: seq<nat>)
    requires lens != [] && |ds| == |lens|
    ensures Reading(lens, ds) == ds[0] * Size(lens[1..]) + Reading(lens[1..], ds[1..])
  {}

  predicate LexLess(a: seq<nat>, b: seq<nat>)
    requires |a| == |b|
  {
    a != [] && (a[0] < b[0] || (a[0] == b[0] && LexLess(a[1..], b[1..])))
  }

  lemma {:induction false} Bump(lens: seq<nat>, ds: seq<nat>, d: nat, x: nat)
    requires |ds| == |lens| && d < |ds|
    ensures Reading(lens, ds[d := x]) == Reading(lens, ds) + (x - ds[d]) * Size(lens[d + 1..])
  {
    if d == 0 {
      assert ds[0 := x][1..] == ds[1..];
      assert x * Size(lens[1..]) == ds[0] * Size(lens[1..]) + (x - ds[0]) * Size(lens[1..]);
    } else {
      Bump(lens[1..], ds[1..], d - 1, x);
      assert ds[d := x][1..] == ds[1..][d - 1 := x];
      assert lens[1..][d..] == lens[d + 1..];
    }
  }

  lemma {:induction false} ReadingZero(lens: seq<nat>, ds: seq<nat>)
    requires |ds| == |lens| && forall d :: 0 <= d < |ds| ==> ds[d] == 0
    ensures Reading(lens, ds) == 0
  {
    if lens != [] {
      ReadingZero(lens[1..], ds[1..]);
      assert 0 * Size(lens[1..]) == 0;
    }
  }

  /** The reading a number stands for. */
  function Odometer(lens: seq<nat>, n: nat): (ds: seq<nat>)
    requires n < Size(lens)
    ensures InBox(lens, ds) && Reading(lens, ds) == n
  {
    if lens == [] then []
    else
      var s := Size(lens[1..]);
      assert s > 0 && lens[0] * s == s * lens[0];
      DigitStep(s, lens[0], n);
      assert n == High(s, n) * s + Low(s, n);
      [High(s, n)] + Odometer(lens[1..], Low(s, n))
  }

  /** The `n`-th coordinate of the product in lexicographic order. */
  function Nth(lists: seq<seq<nat>>, n: nat): Coord
    requires n < Size(Lens(lists))
  {
    Pick(lists, Odometer(Lens(lists), n))
  }

  lemma NthAt(lists: seq<seq<nat>>, ds: seq<nat>)
    requires InBox(Lens(lists), ds)
    ensures Reading(Lens(lists), ds) < Size(Lens(lists))
    ensures Nth(lists, Reading(Lens(lists), ds)) == Pick(lists, ds)
  {
    ReadingBound(Lens(lists), ds);
    ReadingOrder(Lens(lists), ds, Odometer(Lens(lists), Reading(Lens(lists), ds)));
  }

  ghost predicate AscendingLists(lists: seq<seq<nat>>) {
    forall d, j, k :: 0 <= d < |lists| && 0 <= j < k < |lists[d]| ==> lists[d][j] < lists[d][k]
  }

  /** The numbered coordinates are exactly those of the product, and over ascending lists
      they come in strict lexicographic order, so each comes once. */
  lemma NthIsExact(lists: seq<seq<nat>>)
    ensures forall c: Coord :: InProduct(lists, c) <==> exists n :: 0 <= n < Size(Lens(lists)) && Nth(lists, n) == c
    ensures AscendingLists(lists) ==>
              forall n, m :: 0 <= n < m < Size(Lens(lists)) ==> LexLess(Nth(lists, n), Nth(lists, m))
  {
    hide Size, Reading, Odometer;
    forall c: Coord | InProduct(lists, c)
      ensures exists n :: 0 <= n < Size(Lens(lists)) && Nth(lists, n) == c
    {
      var ds := IndicesOf(lists, c);
      NthAt(lists, ds);
    }
    if AscendingLists(lists) {
      forall n, m | 0 <= n < m < Size(Lens(lists))
        ensures LexLess(Nth(lists, n), Nth(lists, m))
      {
        var a, b := Odometer(Lens(lists), n), Odometer(Lens(lists), m);
        ReadingOrder(Lens(lists), a, b);
        PickOrder(lists, a, b);
      }
    }
  }

  lemma IndicesOf(lists: seq<seq<nat>>, c: Coord) returns (ds: seq<nat>)
    requires InProduct(lists, c)
    ensures InBox(Lens(lists), ds) && Pick(lists, ds) == c
  {
    ds := seq(|lists|, d requires 0 <= d < |lists| => IndexIn(lists[d], c[d]));
  }

  ghost function IndexIn(s: seq<nat>, x: nat): (k: nat)
    requires x in s
    ensures k < |s| && s[k] == x
  {
    var k: nat :| k < |s| && s[k] == x; k
  }

  lemma {:induction false} PickOrder(lists: seq<seq<nat>>, a: seq<nat>, b: seq<nat>)
    requires AscendingLists(lists) && InBox(Lens(lists), a) && InBox(Lens(lists), b) && LexLess(a, b)
    ensures LexLess(Pick(lists, a), Pick(lists, b))
  {
    var rest := lists[1..];
    assert Lens(lists)[1..] == Lens(rest);
    assert Pick(lists, a)[1..] == Pick(rest, a[1..]) && Pick(lists, b)[1..] == Pick(rest, b[1..]);
    if a[0] == b[0] {
      PickOrder(rest, a[1..], b[1..]);
    }
  }

  /** A streaming walk of the product; it keeps only the position of the next coordinate. */
  class CoordWalk {
    const lists: seq<seq<nat>>
    var pos: Option<seq<nat>>

    ghost predicate Valid()
      reads this
    {
      pos.Some? ==> InBox(Lens(lists), pos.value)
    }

    /** How many coordinates have come out. */
    ghost function Emitted(): nat
      requires Valid()
      reads this
    {
      if pos.Some? then Reading(Lens(lists), pos.value) else Size(Lens(lists))
    }

    constructor (lists: seq<seq<nat>>)
      ensures this.lists == lists && Valid() && Emitted() == 0
    {
      this.lists := lists;
      if exists d :: 0 <= d < |lists| && lists[d] == [] {
        pos := None;
        EmptyList(lists);
      } else {
        pos := Some(seq(|lists|, d => 0));
        ReadingZero(Lens(lists), seq(|lists|, d => 0));
      }
    }

    method NextCoord() returns (more: bool, out: Coord)
      requires Valid()
      modifies this`pos
      ensures Valid()
      ensures more <==> old(Emitted()) < Size(Lens(lists))
      ensures more ==> out == Nth(lists, old(Emitted())) && Emitted() == old(Emitted()) + 1
      ensures !more ==> Emitted() == old(Emitted())
    {
      hide Size, Reading, Nth;
      if pos.None? {
        return false, [];
      }
      ghost var lens := Lens(lists);
      var p: seq<nat> := pos.value;
      NthAt(lists, p);
      ghost var n := Reading(lens, p);
      out := Pick(lists, p);
      more := true;
      SizeNone(lens);
      var d: nat, done := |lists|, false;
      while !done
        invariant d <= |lists| && InBox(lens, p) && Valid()
        invariant !done ==> forall j :: d <= j < |p| ==> p[j] == 0
        invariant !done ==> Reading(lens, p) + Size(lens[d..]) == n + 1
        invariant done ==> Emitted() == n + 1
        decreases !done, d
      {
        if d == 0 {
          ReadingZero(lens, p);
          assert lens[0..] == lens;
          pos := None;
          done := true;
        } else {
          d := d - 1;
          SizeStep(lens, d);
          Carry(lens, p, d);
          if p[d] + 1 < |lists[d]| {
            p := p[d := p[d] + 1];
            pos := Some(p);
            done := true;
          } else {
            p := p[d := 0];
          }
        }
      }
    }
  }

  lemma SizeNone(lens: seq<nat>)
    ensures Size(lens[|lens|..]) == 1
  {}

  lemma SizeStep(lens: seq<nat>, d: nat)
    requires d < |lens|
    ensures Size(lens[d..]) == lens[d] * Size(lens[d + 1..])
  {
    assert lens[d..][1..] == lens[d + 1..];
  }

  /** One tick of wheel `d`: either it moves on, or it rolls over and the carry grows. */
  lemma Carry(lens: seq<nat>, p: seq<nat>, d: nat)
    requires InBox(lens, p) && d < |lens|
    ensures Reading(lens, p[d := p[d] + 1]) == Reading(lens, p) + Size(lens[d + 1..])
    ensures p[d] + 1 == lens[d] ==> Reading(lens, p[d := 0]) + Size(lens[d..]) == Reading(lens, p) + Size(lens[d + 1..])
  {
    hide Size, Reading;
    var s := Size(lens[d + 1..]);
    Bump(lens, p, d, p[d] + 1);
    Bump(lens, p, d, 0);
    SizeStep(lens, d);
    var k: int := p[d];
    assert (0 - k) * s + (k + 1) * s == s;
  }

  lemma {:induction false} EmptyList(lists: seq<seq<nat>>)
    requires exists d :: 0 <= d < |lists| && lists[d] == []
    ensures Size(Lens(lists)) == 0
  {
    var lens := Lens(lists);
    var d :| 0 <= d < |lists| && lists[d] == [];
    ZeroFactor(lens, d);
  }

  lemma {:induction false} ZeroFactor(lens: seq<nat>, d: nat)
    requires d < |lens| && lens[d] == 0
    ensures Size(lens) == 0
  {
    if d > 0 {
      ZeroFactor(lens[1..], d - 1);
      assert lens[0] * 0 == 0;
    } else {
      assert 0 * Size(lens[1..]) == 0;
    }
  }

  // ---------------------------------------------------------------- counting and searching

  method CountProduct(lists: seq<seq<nat>>) returns (r: Option<nat>)
    ensures r == CheckedProduct(Lens(lists))
  {
    var lens, total: nat := Lens(lists), 1;
    for d := 0 to |lists|
      invariant CheckedFrom(total, lens[d..]) == CheckedProduct(lens)
    {
      assert lens[d..][1..] == lens[d + 1..];
      if total * |lists[d]| > USIZE_MAX {
        return None;
      }
      total := total * |lists[d]|;
    }
    r := Some(total);
  }

  /** Whether some coordinate of the product satisfies `pred`, by decoding a running number
      first dimension fastest. */
  method CartesianAny(lists: seq<seq<nat>>, pred: Coord -> bool) returns (found: bool)
    ensures found <==> exists c :: InProduct(lists, c) && pred(c)
  {
    hide Size, Digits, Undigits, Low, High;
    var lens := Lens(lists);
    for n := 0 to Size(lens)
      invariant forall m :: 0 <= m < n ==> !pred(Pick(lists, Digits(lens, m)))
    {
      var coord := DecodePick(lists, n);
      if pred(coord) {
        return true;
      }
    }
    forall c | InProduct(lists, c)
      ensures !pred(c)
    {
      var ds := IndicesOf(lists, c);
      DigitsOfUndigits(lens, ds);
    }
    found := false;
  }

  method DecodePick(lists: seq<seq<nat>>, n: nat) returns (coord: Coord)
    requires n < Size(Lens(lists))
    ensures coord == Pick(lists, Digits(Lens(lists), n))
  {
    hide Size, Digits, Low, High;
    var rem: nat := n;
    ghost var lens, ds := Lens(lists), Digits(Lens(lists), n);
    coord := [];
    assert lens[0..] == lens && ds[0..] == ds;
    for d := 0 to |lists|
      invariant rem < Size(lens[d..]) && |coord| == d && |ds| == |lens|
      invariant ds[d..] == Digits(lens[d..], rem)
      invariant forall j :: 0 <= j < d ==> coord[j] == lists[j][ds[j]]
    {
      DigitsUnfold(lens[d..], rem);
      assert lens[d..][1..] == lens[d + 1..] && ds[d..][1..] == ds[d + 1..] && ds[d..][0] == ds[d];
      coord := coord + [lists[d][Low(|lists[d]|, rem)]];
      rem := High(|lists[d]|, rem);
    }
  }
}
