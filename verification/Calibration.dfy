// server/DAC.cpp: linear calibration between voltages and DAC codes.  Every arithmetic result
// goes through a rounding function; exact arithmetic is the identity rounding.
module Calibration {
  type Rounding = real -> real

  datatype Calibration = Calibration(vMin: real, vMax: real, dacMin: nat, dacMax: nat)

  predicate Between(x: real, a: real, b: real) {
    a <= x <= b || b <= x <= a
  }

  function Min(a: int, b: int): int { if a <= b then a else b }
  function Max(a: int, b: int): int { if a <= b then b else a }
  function Abs(x: real): real { if x < 0.0 then -x else x }

  /** Conversion of a float to an integer: toward zero. */
  function Truncate(x: real): int {
    if x >= 0.0 then x.Floor else -(-x).Floor
  }

  function Slope(rnd: Rounding, xMin: real, xMax: real, yMin: real, yMax: real): real
    requires rnd(xMax - xMin) != 0.0
  {
    rnd(rnd(yMax - yMin) / rnd(xMax - xMin))
  }

  // A named product, so that equal factors are seen to give equal products.
  function Times(a: real, b: real): real { a * b }

  function Interpolate(rnd: Rounding, x: real, xMin: real, xMax: real, yMin: real, yMax: real): real
    requires rnd(xMax - xMin) != 0.0
  {
    rnd(rnd(Times(Slope(rnd, xMin, xMax, yMin, yMax), rnd(x - xMin))) + yMin)
  }

  function VoltageToDac(rnd: Rounding, cal: Calibration, v: real): int
    requires rnd(cal.vMax - cal.vMin) != 0.0
  {
    Truncate(Interpolate(rnd, v, cal.vMin, cal.vMax, cal.dacMin as real, cal.dacMax as real))
  }

  function DacToVoltage(rnd: Rounding, cal: Calibration, d: nat): real
    requires rnd(cal.dacMax as real - cal.dacMin as real) != 0.0
  {
    Interpolate(rnd, d as real, cal.dacMin as real, cal.dacMax as real, cal.vMin, cal.vMax)
  }

  predicate VoltageInRange(cal: Calibration, v: real) {
    Between(v, cal.vMin, cal.vMax)
  }

  predicate CodeInRange(cal: Calibration, code: int) {
    Min(cal.dacMin, cal.dacMax) <= code <= Max(cal.dacMin, cal.dacMax)
  }

  // ---- exact arithmetic

  function Exact(): Rounding { x => x }

  /** The line through (xMin, yMin) and (xMax, yMax). */
  function Line(x: real, xMin: real, xMax: real, yMin: real, yMax: real): real
    requires xMin != xMax
  {
    (yMax - yMin) / (xMax - xMin) * (x - xMin) + yMin
  }

  lemma ExactLine(x: real, xMin: real, xMax: real, yMin: real, yMax: real)
    requires xMin != xMax
    ensures Interpolate(Exact(), x, xMin, xMax, yMin, yMax) == Line(x, xMin, xMax, yMin, yMax)
  {
  }

  lemma Cancel(a: real, b: real, t: real)
    requires a != 0.0 && b != 0.0
    ensures a / b * (b / a * t) == t
  {
    assert a / b * (b / a) == 1.0 by {
      assert a / b * b == a;
      assert b / a * a == b;
    }
    assert a / b * (b / a * t) == (a / b * (b / a)) * t;
  }

  /** The codes inside the range come back from a voltage unchanged. */
  lemma CodeRoundTrip(cal: Calibration, d: nat)
    requires cal.vMin != cal.vMax && cal.dacMin != cal.dacMax
    ensures VoltageToDac(Exact(), cal, DacToVoltage(Exact(), cal, d)) == d
  {
    var t := d as real - cal.dacMin as real;
    Cancel(cal.dacMax as real - cal.dacMin as real, cal.vMax - cal.vMin, t);
  }

  lemma Scale(r: real, a: real, b: real)
    requires r >= 0.0 && a <= b
    ensures r * a <= r * b && a * r <= b * r
  {
  }

  lemma ScaleDown(r: real, a: real, b: real)
    requires r <= 0.0 && a <= b
    ensures r * b <= r * a
  {
    Scale(-r, a, b);
  }

  lemma Distribute(r: real, a: real, b: real)
    ensures r * (a - b) == r * a - r * b
  {
  }

  lemma TruncateMonotone(x: real, y: real)
    requires x <= y
    ensures Truncate(x) <= Truncate(y)
  {
  }

  lemma TruncateBetween(x: real, lo: int, hi: int)
    requires lo as real <= x <= hi as real
    ensures lo <= Truncate(x) <= hi
  {
    TruncateMonotone(lo as real, x);
    TruncateMonotone(x, hi as real);
  }

  /** Interpolating a point between the ends lands between the images of the ends. */
  lemma InterpolateBetween(x: real, xMin: real, xMax: real, yMin: real, yMax: real)
    requires xMin != xMax && Between(x, xMin, xMax)
    ensures Between(Line(x, xMin, xMax, yMin, yMax), yMin, yMax)
  {
    var w, h := xMax - xMin, yMax - yMin;
    var r := (x - xMin) / w;
    assert 0.0 <= r <= 1.0 by {
      assert r * w == x - xMin;
    }
    assert h / w * (x - xMin) == h * r;
    if h >= 0.0 {
      Scale(h, r, 1.0);
    } else {
      Scale(-h, r, 1.0);
    }
  }

  /** A voltage in range comes back less than one code step away. */
  lemma VoltageRoundTrip(cal: Calibration, v: real)
    requires cal.vMin != cal.vMax && cal.dacMin != cal.dacMax && VoltageInRange(cal, v)
    ensures CodeInRange(cal, VoltageToDac(Exact(), cal, v))
    ensures Abs(DacToVoltage(Exact(), cal, VoltageToDac(Exact(), cal, v)) - v) <
            Abs(cal.vMax - cal.vMin) / Abs(cal.dacMax as real - cal.dacMin as real)
  {
    var dMin, dMax := cal.dacMin as real, cal.dacMax as real;
    var z := Line(v, cal.vMin, cal.vMax, dMin, dMax);
    ExactLine(v, cal.vMin, cal.vMax, dMin, dMax);
    InterpolateBetween(v, cal.vMin, cal.vMax, dMin, dMax);
    TruncateBetween(z, Min(cal.dacMin, cal.dacMax), Max(cal.dacMin, cal.dacMax));
    ExactLine(Truncate(z) as real, dMin, dMax, cal.vMin, cal.vMax);
    BackDistance(v, cal.vMin, cal.vMax, dMin, dMax, Truncate(z) as real);
  }

  /** Going back along a line from a point less than one unit below. */
  lemma BackDistance(x: real, xMin: real, xMax: real, yMin: real, yMax: real, y: real)
    requires xMin != xMax && yMin != yMax
    requires 0.0 <= Line(x, xMin, xMax, yMin, yMax) - y < 1.0
    ensures Abs(Line(y, yMin, yMax, xMin, xMax) - x) < Abs(xMax - xMin) / Abs(yMax - yMin)
  {
    var w, h, t := xMax - xMin, yMax - yMin, x - xMin;
    var lost := Line(x, xMin, xMax, yMin, yMax) - y;
    Cancel(w, h, t);
    Distribute(w / h, h / w * t, lost);
    assert y - yMin == h / w * t - lost;
    QuotientSign(w, h);
    LostStep(w / h, lost);
  }

  lemma LostStep(k: real, lost: real)
    requires k != 0.0 && 0.0 <= lost < 1.0
    ensures Abs(k * lost) < Abs(k)
  {
    if k > 0.0 {
      assert k * lost < k;
    } else {
      assert -k * lost < -k;
    }
  }

  lemma QuotientSign(a: real, b: real)
    requires b != 0.0
    ensures Abs(a / b) == Abs(a) / Abs(b)
    ensures a != 0.0 ==> (a / b > 0.0 <==> (a > 0.0 <==> b > 0.0)) && a / b != 0.0
  {
    assert a / b * b == a;
  }

  /** The conversion keeps the order of voltages if both ends rise or both fall, and else
      reverses it. */
  lemma ConversionMonotone(cal: Calibration, v: real, v': real)
    requires cal.vMin != cal.vMax && cal.dacMin != cal.dacMax && v <= v'
    ensures (cal.vMin < cal.vMax <==> cal.dacMin < cal.dacMax) ==>
              VoltageToDac(Exact(), cal, v) <= VoltageToDac(Exact(), cal, v')
    ensures (cal.vMin < cal.vMax <==> cal.dacMax < cal.dacMin) ==>
              VoltageToDac(Exact(), cal, v') <= VoltageToDac(Exact(), cal, v)
  {
    var dMin, dMax := cal.dacMin as real, cal.dacMax as real;
    ExactLine(v, cal.vMin, cal.vMax, dMin, dMax);
    ExactLine(v', cal.vMin, cal.vMax, dMin, dMax);
    LineMonotone(v, v', cal.vMin, cal.vMax, dMin, dMax);
  }

  lemma LineMonotone(x: real, x': real, xMin: real, xMax: real, yMin: real, yMax: real)
    requires xMin != xMax && yMin != yMax && x <= x'
    ensures (xMin < xMax <==> yMin < yMax) ==>
              Truncate(Line(x, xMin, xMax, yMin, yMax)) <= Truncate(Line(x', xMin, xMax, yMin, yMax))
    ensures (xMin < xMax <==> yMax < yMin) ==>
              Truncate(Line(x', xMin, xMax, yMin, yMax)) <= Truncate(Line(x, xMin, xMax, yMin, yMax))
  {
    var k := (yMax - yMin) / (xMax - xMin);
    QuotientSign(yMax - yMin, xMax - xMin);
    var z, z' := Line(x, xMin, xMax, yMin, yMax), Line(x', xMin, xMax, yMin, yMax);
    if k > 0.0 {
      Scale(k, x - xMin, x' - xMin);
      TruncateMonotone(z, z');
    } else {
      ScaleDown(k, x - xMin, x' - xMin);
      TruncateMonotone(z', z);
    }
  }

  // ---- rounded arithmetic

  predicate Ordered(rnd: Rounding, x: real, y: real) { x <= y ==> rnd(x) <= rnd(y) }
  predicate Fixed(rnd: Rounding, n: int) { rnd(n as real) == n as real }
  predicate Near(rnd: Rounding, x: real) { 16777216.0 * Abs(rnd(x) - x) <= Abs(x) }

  /** What is used of binary32 rounding (section 4.3 of IEEE 754-2008): it keeps the order, fixes
      the integers up to 2^24, and is off by at most one part in 2^24 (no underflow). */
  ghost predicate Rounds(rnd: Rounding) {
    && (forall x, y :: Ordered(rnd, x, y))
    && (forall n :: -0x100_0000 <= n <= 0x100_0000 ==> Fixed(rnd, n))
    && (forall x :: Near(rnd, x))
  }

  lemma RoundedNonZero(rnd: Rounding, x: real)
    requires Rounds(rnd) && x != 0.0
    ensures rnd(x) != 0.0
  {
    assert Near(rnd, x);
  }

  lemma RoundedMagnitude(rnd: Rounding, x: real)
    requires Rounds(rnd)
    ensures x >= 0.0 ==> rnd(x) >= 0.0
    ensures x <= 0.0 ==> rnd(x) <= 0.0
    ensures 16777216.0 * Abs(rnd(x)) <= 16777217.0 * Abs(x)
  {
    assert Fixed(rnd, 0) && Near(rnd, x) && Ordered(rnd, 0.0, x) && Ordered(rnd, x, 0.0);
  }

  lemma AbsProduct(a: real, b: real)
    ensures Abs(a * b) == Abs(a) * Abs(b)
  {
  }

  lemma ProductSign(a: real, b: real)
    ensures (a >= 0.0 && b >= 0.0) || (a <= 0.0 && b <= 0.0) ==> a * b >= 0.0
    ensures (a >= 0.0 && b <= 0.0) || (a <= 0.0 && b >= 0.0) ==> a * b <= 0.0
  {
  }

  lemma StretchedProduct(s: real, d: real, q: real, w: real)
    requires 0.0 <= d <= w && 0.0 <= s && 16777216.0 * s <= 16777217.0 * q
    ensures 16777216.0 * (s * d) <= 16777217.0 * (q * w)
  {
    Scale(s, d, w);
    var stretched, bound := 16777216.0 * s, 16777217.0 * q;
    Scale(w, stretched, bound);
    assert stretched * w == 16777216.0 * (s * w);
    assert bound * w == 16777217.0 * (q * w);
  }

  /** The rounded slope s times an offset d no longer than the range w overshoots the height h of
      the range by two rounding errors at most, and lies on the side of the exact product. */
  lemma RoundedRise(rnd: Rounding, q: real, s: real, w: real, d: real, h: real)
    requires Rounds(rnd) && s == rnd(q) && h <= 65535.0 && Abs(q) * Abs(w) == h && Abs(d) <= Abs(w)
    ensures Abs(rnd(Times(s, d))) <= h + 0.02
    ensures (q >= 0.0 && d >= 0.0) || (q <= 0.0 && d <= 0.0) ==> rnd(Times(s, d)) >= 0.0
    ensures (q >= 0.0 && d <= 0.0) || (q <= 0.0 && d >= 0.0) ==> rnd(Times(s, d)) <= 0.0
  {
    RoundedMagnitude(rnd, q);
    StretchedProduct(Abs(s), Abs(d), Abs(q), Abs(w));
    AbsProduct(s, d);
    var x := Times(s, d);
    RoundedOvershoot(rnd, x, h);
    ProductSign(s, d);
    RoundedMagnitude(rnd, x);
  }

  lemma RoundedOvershoot(rnd: Rounding, x: real, h: real)
    requires Rounds(rnd) && h <= 65535.0 && 16777216.0 * Abs(x) <= 16777217.0 * h
    ensures Abs(rnd(x)) <= h + 0.02
  {
    RoundedMagnitude(rnd, x);
  }

  /** Both codes fit the source's uint16_t, and the voltages at the ends differ. */
  predicate Proper(cal: Calibration) {
    cal.vMin != cal.vMax && cal.dacMin < 0x1_0000 && cal.dacMax < 0x1_0000
  }

  /** The rise computed for a voltage in range, before yMin is added. */
  lemma RiseOfVoltage(rnd: Rounding, cal: Calibration, v: real) returns (rise: real)
    requires Rounds(rnd) && Proper(cal) && VoltageInRange(cal, v)
    ensures rnd(cal.vMax - cal.vMin) != 0.0
    ensures rnd(rise + cal.dacMin as real) ==
            Interpolate(rnd, v, cal.vMin, cal.vMax, cal.dacMin as real, cal.dacMax as real)
    ensures cal.dacMin <= cal.dacMax ==> 0.0 <= rise <= cal.dacMax as real - cal.dacMin as real + 0.02
    ensures cal.dacMin >= cal.dacMax ==> cal.dacMax as real - cal.dacMin as real - 0.02 <= rise <= 0.0
  {
    var h := cal.dacMax as real - cal.dacMin as real;
    var w, d := rnd(cal.vMax - cal.vMin), rnd(v - cal.vMin);
    RoundedNonZero(rnd, cal.vMax - cal.vMin);
    assert Fixed(rnd, 0) && Ordered(rnd, 0.0, v - cal.vMin) && Ordered(rnd, v - cal.vMin, 0.0);
    assert Ordered(rnd, v - cal.vMin, cal.vMax - cal.vMin) && Ordered(rnd, cal.vMax - cal.vMin, v - cal.vMin);
    assert Fixed(rnd, cal.dacMax - cal.dacMin) && (cal.dacMax - cal.dacMin) as real == h;
    var q := h / w;
    QuotientSign(h, w);
    assert Abs(q) * Abs(w) == Abs(h);
    var s := Slope(rnd, cal.vMin, cal.vMax, cal.dacMin as real, cal.dacMax as real);
    RoundedRise(rnd, q, s, w, d, Abs(h));
    rise := rnd(Times(s, d));
  }

  /** A voltage in range gives a code in range, or, when the codes fall to an end above 0, at
      worst the code just below that end. */
  lemma RoundedCodeNearRange(rnd: Rounding, cal: Calibration, v: real)
    requires Rounds(rnd) && Proper(cal) && VoltageInRange(cal, v)
    ensures rnd(cal.vMax - cal.vMin) != 0.0
    ensures cal.dacMin <= cal.dacMax || cal.dacMax == 0 ==> CodeInRange(cal, VoltageToDac(rnd, cal, v))
    ensures cal.dacMax <= cal.dacMin ==> cal.dacMax - 1 <= VoltageToDac(rnd, cal, v) <= cal.dacMin
  {
    var rise := RiseOfVoltage(rnd, cal, v);
    var sum := rise + cal.dacMin as real;
    var y := rnd(sum);
    assert Fixed(rnd, cal.dacMin) && Near(rnd, sum);
    assert Ordered(rnd, sum, cal.dacMin as real) && Ordered(rnd, cal.dacMin as real, sum);
    if cal.dacMin <= cal.dacMax {
      assert cal.dacMin as real <= y < cal.dacMax as real + 1.0;
    } else {
      assert cal.dacMax as real - 1.0 < y <= cal.dacMin as real;
    }
  }
}
