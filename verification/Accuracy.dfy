// server/DAC.cpp: how far the rounded conversion is from the exact line.
module Accuracy {
  import opened Calibration

  /** Where a voltage lies on the line, in codes. */
  function Position(cal: Calibration, v: real): real
    requires cal.vMin != cal.vMax
  {
    Line(v, cal.vMin, cal.vMax, cal.dacMin as real, cal.dacMax as real)
  }

  /** Where the computation puts it. */
  function Computed(rnd: Rounding, cal: Calibration, v: real): real
    requires rnd(cal.vMax - cal.vMin) != 0.0
  {
    Interpolate(rnd, v, cal.vMin, cal.vMax, cal.dacMin as real, cal.dacMax as real)
  }

  // Every step below is off by a few parts in 2^24 of the exact magnitude.
  const N := 16777216.0

  /** The quotient by a rounded width. */
  lemma RoundedQuotient(h: real, w: real, w': real)
    requires w != 0.0 && w' != 0.0 && N * Abs(w' - w) <= Abs(w)
    ensures N * Abs(h / w' - h / w) <= 1.01 * Abs(h / w)
  {
    var q, q' := h / w, h / w';
    assert q * w == h && q' * w' == h;
    assert (q' - q) * w' == q * (w - w') by {
      assert (q' - q) * w' == q' * w' - q * w';
      assert q * (w - w') == q * w - q * w';
    }
    AbsProduct(q' - q, w');
    AbsProduct(q, w - w');
    QuotientBound(Abs(q), Abs(w), Abs(w'), Abs(q' - q), Abs(w - w'));
  }

  lemma QuotientBound(q: real, w: real, w': real, dq: real, dw: real)
    requires q >= 0.0 && w > 0.0 && w' > 0.0 && dq >= 0.0
    requires N * dw <= w && w - dw <= w' && dq * w' == q * dw
    ensures N * dq <= 1.01 * q
  {
    assert N * dw <= 1.01 * w';
    Scale(q, N * dw, 1.01 * w');
    assert q * (N * dw) == N * dq * w';
    assert q * (1.01 * w') == 1.01 * q * w';
    assert (1.01 * q - N * dq) * w' == 1.01 * q * w' - N * dq * w';
    CancelPositive(1.01 * q - N * dq, w');
  }

  lemma CancelPositive(x: real, w: real)
    requires w > 0.0 && x * w >= 0.0
    ensures x >= 0.0
  {
  }

  /** The relative error of x against x0. */
  lemma Relative(x: real, x0: real, k: real) returns (e: real)
    requires x0 != 0.0 && N * Abs(x - x0) <= k * Abs(x0)
    ensures x == x0 + x0 * e && N * Abs(e) <= k
  {
    e := (x - x0) / x0;
    assert e * x0 == x - x0;
    AbsProduct(e, x0);
    CancelBound(Abs(e), Abs(x0), Abs(x - x0), k);
  }

  lemma CancelBound(e: real, x0: real, d: real, k: real)
    requires x0 > 0.0 && d == e * x0 && N * d <= k * x0
    ensures N * e <= k
  {
    assert (k - N * e) * x0 == k * x0 - N * (e * x0);
    CancelPositive(k - N * e, x0);
  }

  lemma ErrorsAdd(e: real, f: real)
    requires N * Abs(e) <= 2.02 && N * Abs(f) <= 1.0
    ensures N * Abs(e + f + e * f) <= 3.03
  {
    AbsProduct(e, f);
    ProductSmall(Abs(e), Abs(f), Abs(e * f), 1.0);
    SumSmall(e, f, e * f);
  }

  lemma ProductSmall(m: real, n: real, p: real, k: real)
    requires m >= 0.0 && p == m * n && N * n <= k
    ensures N * p <= m * k
  {
    Scale(m, N * n, k);
  }

  lemma SumSmall(e: real, f: real, t: real)
    requires N * Abs(e) <= 2.02 && N * Abs(f) <= 1.0 && N * Abs(t) <= Abs(e)
    ensures N * Abs(e + f + t) <= 3.03
  {
  }

  lemma ErrorOfProduct(p: real, g: real)
    requires N * Abs(g) <= 3.03
    ensures N * Abs(Times(p, g)) <= 3.03 * Abs(p)
  {
    AbsProduct(p, g);
    ProductSmall(Abs(p), Abs(g), Abs(Times(p, g)), 3.03);
  }

  lemma Expand(s0: real, e: real, d0: real, f: real)
    ensures Times(s0 + s0 * e, d0 + d0 * f) - Times(s0, d0) == Times(Times(s0, d0), e + f + e * f)
  {
  }

  lemma ProductOfErrors(s0: real, e: real, d0: real, f: real)
    requires N * Abs(e) <= 2.02 && N * Abs(f) <= 1.0
    ensures N * Abs(Times(s0 + s0 * e, d0 + d0 * f) - Times(s0, d0)) <= 3.03 * Abs(Times(s0, d0))
  {
    ErrorsAdd(e, f);
    ErrorOfProduct(Times(s0, d0), e + f + e * f);
    Expand(s0, e, d0, f);
  }

  lemma RoundedProduct(s: real, s0: real, d: real, d0: real)
    requires N * Abs(s - s0) <= 2.02 * Abs(s0) && N * Abs(d - d0) <= Abs(d0)
    ensures N * Abs(Times(s, d) - Times(s0, d0)) <= 3.03 * Abs(Times(s0, d0))
  {
    if s0 == 0.0 {
      assert s == 0.0;
    } else if d0 == 0.0 {
      assert d == 0.0;
    } else {
      var e := Relative(s, s0, 2.02);
      var f := Relative(d, d0, 1.0);
      ProductOfErrors(s0, e, d0, f);
    }
  }

  lemma PositionIsRise(cal: Calibration, v: real)
    requires cal.vMin != cal.vMax
    ensures var h, w := cal.dacMax as real - cal.dacMin as real, cal.vMax - cal.vMin;
      Position(cal, v) - cal.dacMin as real == Times(h / w, v - cal.vMin)
  {
  }

  lemma RoundedSlope(rnd: Rounding, cal: Calibration)
    requires Rounds(rnd) && Proper(cal)
    ensures rnd(cal.vMax - cal.vMin) != 0.0
    ensures var h, w := cal.dacMax as real - cal.dacMin as real, cal.vMax - cal.vMin;
      N * Abs(Slope(rnd, cal.vMin, cal.vMax, cal.dacMin as real, cal.dacMax as real) - h / w) <= 2.02 * Abs(h / w)
  {
    var h, w := cal.dacMax as real - cal.dacMin as real, cal.vMax - cal.vMin;
    assert Near(rnd, w);
    RoundedNonZero(rnd, w);
    assert Fixed(rnd, cal.dacMax - cal.dacMin) && (cal.dacMax - cal.dacMin) as real == h;
    RoundedQuotient(h, w, rnd(w));
    assert Near(rnd, h / rnd(w));
  }

  /** The rise, before the offset is added. */
  lemma RoundedRiseNear(rnd: Rounding, cal: Calibration, v: real) returns (rise: real)
    requires Rounds(rnd) && Proper(cal)
    ensures rnd(cal.vMax - cal.vMin) != 0.0
    ensures rnd(rise + cal.dacMin as real) == Computed(rnd, cal, v)
    ensures N * Abs(rise - (Position(cal, v) - cal.dacMin as real)) <= 4.04 * Abs(Position(cal, v) - cal.dacMin as real)
  {
    RoundedSlope(rnd, cal);
    PositionIsRise(cal, v);
    var s := Slope(rnd, cal.vMin, cal.vMax, cal.dacMin as real, cal.dacMax as real);
    var s0 := (cal.dacMax as real - cal.dacMin as real) / (cal.vMax - cal.vMin);
    rise := rnd(Times(s, rnd(v - cal.vMin)));
    RoundedTimes(rnd, s, s0, v - cal.vMin);
  }

  lemma RoundedTimes(rnd: Rounding, s: real, s0: real, d: real)
    requires Rounds(rnd) && N * Abs(s - s0) <= 2.02 * Abs(s0)
    ensures N * Abs(rnd(Times(s, rnd(d))) - Times(s0, d)) <= 4.04 * Abs(Times(s0, d))
  {
    assert Near(rnd, d);
    RoundedProduct(s, s0, rnd(d), d);
    RoundedMore(rnd, Times(s, rnd(d)), Times(s0, d));
  }

  lemma RoundedMore(rnd: Rounding, x: real, p: real)
    requires Rounds(rnd) && N * Abs(x - p) <= 3.03 * Abs(p)
    ensures N * Abs(rnd(x) - p) <= 4.04 * Abs(p)
  {
    assert Near(rnd, x);
  }

  /** The position computed, with an error of a few parts in 2^24 of the numbers involved. */
  lemma RoundedPosition(rnd: Rounding, cal: Calibration, v: real)
    requires Rounds(rnd) && Proper(cal)
    ensures rnd(cal.vMax - cal.vMin) != 0.0
    ensures N * Abs(Computed(rnd, cal, v) - Position(cal, v)) <= 6.0 * (Abs(Position(cal, v)) + 65536.0)
  {
    var rise := RoundedRiseNear(rnd, cal, v);
    assert Near(rnd, rise + cal.dacMin as real);
  }
}
