/** Exact fixed-point arithmetic of the rule path: scaled 64-bit values, checked
    addition and subtraction, and multiplication and division rounded half to even. */
module FixedPoint {

  const I64_MIN: int := -0x8000_0000_0000_0000
  const I64_MAX: int := 0x7FFF_FFFF_FFFF_FFFF
  const I128_MIN: int := -0x8000_0000_0000_0000_0000_0000_0000_0000
  const I128_MAX: int := 0x7FFF_FFFF_FFFF_FFFF_FFFF_FFFF_FFFF_FFFF
  const SCALE: int := 10_000

  predicate FitsI64(x: int) { I64_MIN <= x <= I64_MAX }

  predicate FitsI128(x: int) { I128_MIN <= x <= I128_MAX }

  /** A stored value: the real value times `SCALE`, held in a signed 64-bit word. */
  type Fixed = x: int | FitsI64(x)

  datatype ArithOp = Add | Sub | Mul | Div

  datatype CmpOp = Eq | Ne | Lt | Le | Gt | Ge

  datatype ArithResult = Value(value: Fixed) | DivByZero | Overflow

  function Abs(x: int): nat { if x < 0 then -x else x }

  /** Division and remainder of the source's machine integers: toward zero. */
  function TruncQuot(num: int, den: int): int
    requires den != 0
  {
    var q := Abs(num) / Abs(den);
    if (num < 0) != (den < 0) then -q else q
  }

  function TruncRem(num: int, den: int): int
    requires den != 0
  {
    var r := Abs(num) % Abs(den);
    if num < 0 then -r else r
  }

  function DivRoundHalfEven(num: int, den: int): int
    requires den != 0
  {
    var q := TruncQuot(num, den);
    var r := TruncRem(num, den);
    if r == 0 then q
    else
      var twice := 2 * Abs(r);
      var roundAway := twice > Abs(den) || (twice == Abs(den) && q % 2 != 0);
      if !roundAway then q
      else if (num < 0) != (den < 0) then q - 1 else q + 1
  }

  function ToFixed(scaled: int): ArithResult {
    if FitsI64(scaled) then Value(scaled) else Overflow
  }

  function Arith(op: ArithOp, a: Fixed, b: Fixed): ArithResult {
    match op
    case Add => ToFixed(a + b)
    case Sub => ToFixed(a - b)
    case Mul => ToFixed(DivRoundHalfEven(a * b, SCALE))
    case Div => if b == 0 then DivByZero else ToFixed(DivRoundHalfEven(a * SCALE, b))
  }

  function Negate(a: Fixed): ArithResult { ToFixed(0 - a) }

  predicate Compare(a: Fixed, b: Fixed, op: CmpOp) {
    match op
    case Eq => a == b
    case Ne => a != b
    case Lt => a < b
    case Le => a <= b
    case Gt => a > b
    case Ge => a >= b
  }

  /** Negation loses exactly the most negative value, which has no opposite in 64 bits. */
  lemma NegateIsExact(a: Fixed)
    ensures Negate(a) == Overflow <==> a == I64_MIN
    ensures Negate(a).Value? ==> Negate(a).value == -a
  {
    assert FitsI64(a);
  }

  function Sign(x: int): int { if x < 0 then -1 else if x == 0 then 0 else 1 }

  /** The signs of the difference for which a comparison holds. */
  function Accepts(op: CmpOp): set<int> {
    match op
    case Eq => {0}
    case Ne => {-1, 1}
    case Lt => {-1}
    case Le => {-1, 0}
    case Gt => {1}
    case Ge => {0, 1}
  }

  lemma CompareIsSign(a: Fixed, b: Fixed, op: CmpOp)
    ensures Compare(a, b, op) <==> Sign(a - b) in Accepts(op)
  {}

  // ---------------------------------------------------------------- rounding

  /** `q` is a nearest integer to `num/den`, and an even one when two are equally near. */
  ghost predicate IsHalfEven(num: int, den: int, q: int) {
    && 2 * Abs(num - q * den) <= Abs(den)
    && (2 * Abs(num - q * den) == Abs(den) ==> q % 2 == 0)
  }

  lemma TruncParts(num: int, den: int)
    requires den != 0
    ensures num == TruncQuot(num, den) * den + TruncRem(num, den)
    ensures Abs(TruncRem(num, den)) < Abs(den)
    ensures if num < 0 then TruncRem(num, den) <= 0 else TruncRem(num, den) >= 0
  {
    var n: int, d: int := Abs(num), Abs(den);
    var k: int := n / d;
    assert n == k * d + n % d;
    assert (-k) * d == -(k * d) && (-k) * (-d) == k * d && k * (-d) == -(k * d);
  }

  lemma RoundsHalfEven(num: int, den: int)
    requires den != 0
    ensures IsHalfEven(num, den, DivRoundHalfEven(num, den))
  {
    hide TruncQuot, TruncRem;
    var q, r := TruncQuot(num, den), TruncRem(num, den);
    TruncParts(num, den);
    StepOff(q, den);
    assert q % 2 != 0 ==> (q + 1) % 2 == 0 && (q - 1) % 2 == 0;
  }

  lemma StepOff(q: int, den: int)
    ensures (q + 1) * den == q * den + den && (q - 1) * den == q * den - den
  {}

  /** Nothing else satisfies the rounding contract: `DivRoundHalfEven` is the
      only rounding that meets it. */
  lemma HalfEvenIsUnique(num: int, den: int, p: int, q: int)
    requires den != 0
    requires IsHalfEven(num, den, p) && IsHalfEven(num, den, q)
    ensures p == q
  {
    var d: int, k := Abs(den), q - p;
    var x, y := num - p * den, num - q * den;
    assert x - y == k * den by {
      assert (q - p) * den == q * den - p * den;
    }
    if k != 0 {
      AbsProduct(k, den);
      MulMonotone(1, Abs(k), d);
      // Both are exactly half a unit away, on either side: one of them is odd.
      assert Abs(k) * d <= d;
      if Abs(k) >= 2 {
        MulMonotone(2, Abs(k), d);
        assert false;
      }
    }
  }

  lemma MulMonotone(a: nat, b: nat, c: nat)
    requires a <= b
    ensures a * c <= b * c
  {
    assert b * c == a * c + (b - a) * c;
  }

  lemma AbsProduct(a: int, b: int)
    ensures Abs(a * b) == Abs(a) * Abs(b)
  {
    if a >= 0 && b >= 0 {
    } else if a < 0 && b < 0 {
      assert a * b == (-a) * (-b);
    } else if a < 0 {
      assert a * b == -((-a) * b);
      assert (-a) * b >= 0;
    } else {
      assert a * b == -(a * (-b));
      assert a * (-b) >= 0;
    }
  }

  /** The exact value an operation rounds, as a fraction over a positive or negative denominator. */
  function ExactNum(op: ArithOp, a: int, b: int): int {
    match op
    case Add => a + b
    case Sub => a - b
    case Mul => a * b
    case Div => a * SCALE
  }

  function ExactDen(op: ArithOp, b: int): int {
    match op
    case Add | Sub => 1
    case Mul => SCALE
    case Div => b
  }

  /** Rule arithmetic fails exactly on a zero divisor or when the correctly rounded
      result leaves 64 bits; otherwise it is that rounded result. No 128-bit
      intermediate overflows. */
  lemma ArithIsExact(op: ArithOp, a: Fixed, b: Fixed)
    ensures FitsI128(ExactNum(op, a, b))
    ensures Arith(op, a, b) == DivByZero <==> op == Div && b == 0
    ensures !(op == Div && b == 0) ==>
              exists q :: IsHalfEven(ExactNum(op, a, b), ExactDen(op, b), q)
                       && Arith(op, a, b) == (if FitsI64(q) then Value(q) else Overflow)
  {
    ProductFits(a, b);
    assert FitsI64(a) && FitsI64(b);
    if !(op == Div && b == 0) {
      var num, den := ExactNum(op, a, b), ExactDen(op, b);
      var q := if op == Add || op == Sub then num else DivRoundHalfEven(num, den);
      if op == Mul || op == Div {
        RoundsHalfEven(num, den);
      }
      assert IsHalfEven(num, den, q);
    }
  }

  lemma ProductFits(a: Fixed, b: Fixed)
    ensures FitsI128(a * b)
    ensures FitsI128(a * SCALE)
  {
    var m: nat := 0x8000_0000_0000_0000;
    assert FitsI64(a) && FitsI64(b);
    AbsProduct(a, b);
    AbsProduct(a, SCALE);
    MulMonotone(Abs(a), m, Abs(b));
    MulMonotone(Abs(b), m, m);
    MulMonotone(Abs(a), m, SCALE);
  }

  lemma ZeroRounds(den: int)
    requires den != 0
    ensures DivRoundHalfEven(0, den) == 0
  {
    assert 0 / Abs(den) == 0 && 0 % Abs(den) == 0;
  }
}
