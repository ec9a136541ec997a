// server/DAC.cpp: when a voltage in range gives a code in range whatever the rounding, as an exact
// condition on the calibration, and a violation in binary32 itself.
module RoundedRange {
  import opened Calibration

  /** With this calibration, whatever the rounding, a voltage in range gives a code in range. */
  ghost predicate AlwaysInRange(cal: Calibration)
    requires Proper(cal)
  {
    forall rnd: Rounding, v: real :: Rounds(rnd) ==> InRangeAt(rnd, cal, v)
  }

  predicate InRangeAt(rnd: Rounding, cal: Calibration, v: real) {
    VoltageInRange(cal, v) && rnd(cal.vMax - cal.vMin) != 0.0 ==> CodeInRange(cal, VoltageToDac(rnd, cal, v))
  }

  /** The voltage range is an integer that binary32 holds exactly, and divides the code range. */
  predicate WholeSlope(cal: Calibration) {
    var w := Abs(cal.vMax - cal.vMin);
    && w <= 16777216.0 && w == w.Floor as real && w.Floor > 0
    && (cal.dacMin - cal.dacMax) % w.Floor == 0
  }

  /** Codes rise, or fall to 0, or fall along a whole slope. */
  predicate Strict(cal: Calibration) {
    cal.dacMin <= cal.dacMax || cal.dacMax == 0 || WholeSlope(cal)
  }

  // ---- the safe calibrations

  lemma BetweenIntegers(rnd: Rounding, x: real, lo: int, hi: int)
    requires Rounds(rnd) && lo as real <= x <= hi as real && -0x100_0000 <= lo && hi <= 0x100_0000
    ensures lo as real <= rnd(x) <= hi as real
  {
    assert Ordered(rnd, lo as real, x) && Ordered(rnd, x, hi as real) && Fixed(rnd, lo) && Fixed(rnd, hi);
  }

  lemma DividesExactly(k: int, n: int)
    requires n > 0 && k >= 0 && k % n == 0
    ensures 0 <= k / n && k / n * n == k
  {
    assert k == k / n * n + k % n;
  }

  lemma Grows(a: int, b: int, n: int)
    requires a <= b && n > 0
    ensures a * n <= b * n
  {
  }

  lemma WholeQuotient(k: int, n: int, q: int)
    requires n > 0 && q * n == k
    ensures -(k as real) / n as real == -(q as real) && -(k as real) / -(n as real) == q as real
  {
    AsReal(q, n);
    RealQuotient(-(k as real), n as real, -(q as real));
    RealQuotient(-(k as real), -(n as real), q as real);
  }

  lemma AsReal(q: int, n: int)
    ensures (q * n) as real == q as real * n as real
  {
  }

  lemma RealQuotient(a: real, b: real, q: real)
    requires b != 0.0 && a == q * b
    ensures a / b == q
  {
  }

  /** The slope q, up to sign, is computed exactly. */
  lemma WholeSlopeExact(rnd: Rounding, cal: Calibration) returns (q: int, n: int, rising: bool)
    requires Rounds(rnd) && Proper(cal) && cal.dacMax < cal.dacMin && WholeSlope(cal)
    ensures 0 < n <= 0x100_0000 && 0 <= q && q * n == cal.dacMin - cal.dacMax
    ensures rnd(cal.vMax - cal.vMin) == cal.vMax - cal.vMin == (if rising then n as real else -(n as real))
    ensures Slope(rnd, cal.vMin, cal.vMax, cal.dacMin as real, cal.dacMax as real) ==
            if rising then -(q as real) else q as real
  {
    var k := cal.dacMin - cal.dacMax;
    n, rising := Abs(cal.vMax - cal.vMin).Floor, cal.vMax > cal.vMin;
    q := k / n;
    DividesExactly(k, n);
    WholeQuotient(k, n, q);
    assert Fixed(rnd, n) && Fixed(rnd, -n) && Fixed(rnd, -k) && Fixed(rnd, q) && Fixed(rnd, -q);
    assert cal.dacMax as real - cal.dacMin as real == -(k as real) == (-k) as real;
    assert (-n) as real == -(n as real) && (-q) as real == -(q as real);
  }

  lemma Fraction(q: int, n: int, d: real)
    requires q >= 0 && 0.0 <= d <= n as real
    ensures 0.0 <= q as real * d <= (q * n) as real
  {
    Scale(q as real, 0.0, d);
    Scale(q as real, d, n as real);
    AsReal(q, n);
  }

  /** With a whole slope nothing overshoots. */
  lemma WholeSlopeSafe(rnd: Rounding, cal: Calibration, v: real)
    requires Rounds(rnd) && Proper(cal) && cal.dacMax < cal.dacMin && WholeSlope(cal) && VoltageInRange(cal, v)
    ensures rnd(cal.vMax - cal.vMin) != 0.0 && CodeInRange(cal, VoltageToDac(rnd, cal, v))
  {
    var q, n, rising := WholeSlopeExact(rnd, cal);
    BetweenIntegers(rnd, v - cal.vMin, if rising then 0 else -n, if rising then n else 0);
    var d := rnd(v - cal.vMin);
    Fraction(q, n, if rising then d else -d);
    var x := Times(if rising then -(q as real) else q as real, d);
    assert -((q * n) as real) <= x <= 0.0;
    WholeRise(rnd, cal, q * n, x);
  }

  lemma WholeRise(rnd: Rounding, cal: Calibration, k: int, x: real)
    requires Rounds(rnd) && Proper(cal) && k == cal.dacMin - cal.dacMax && -(k as real) <= x <= 0.0
    ensures CodeInRange(cal, Truncate(rnd(rnd(x) + cal.dacMin as real)))
  {
    BetweenIntegers(rnd, x, -k, 0);
    var sum := rnd(x) + cal.dacMin as real;
    BetweenIntegers(rnd, sum, cal.dacMax, cal.dacMin);
    TruncateBetween(rnd(sum), cal.dacMax, cal.dacMin);
  }

  // ---- the others

  /** The next integer, from x on. */
  function Ceiling(x: real): int { -(-x).Floor }

  /** How far a rounding may move a positive number up. */
  function Slack(x: real): real
    requires x >= 0.0
  {
    var e, gap := x / 16777216.0, Ceiling(x) as real - x;
    if x > 16777216.0 || e <= gap then e else gap
  }

  /** A rounding that moves numbers away from zero by part of their slack. */
  function Away(half: bool): Rounding {
    (x: real) => AwayAt(half, x)
  }

  function AwayAt(half: bool, x: real): real {
    if x >= 0.0 then Up(half, x) else -Up(half, -x)
  }

  function Up(half: bool, x: real): real
    requires x >= 0.0
  {
    x + Slack(x) / if half then 2.0 else 4.0
  }

  lemma UpBounds(half: bool, x: real)
    requires x >= 0.0
    ensures x <= Up(half, x) <= x + x / 16777216.0
    ensures x <= 16777216.0 ==> Up(half, x) <= Ceiling(x) as real
    ensures x > 0.0 && (x > 16777216.0 || x != x.Floor as real) ==> x < Up(half, x)
    ensures x < 16777216.0 && x != x.Floor as real ==> Up(half, x) < Ceiling(x) as real && Ceiling(x) == x.Floor + 1
    ensures x <= 16777216.0 && x == x.Floor as real ==> Up(half, x) == x
  {
  }

  lemma UpOrdered(half: bool, x: real, y: real)
    requires 0.0 <= x <= y
    ensures Up(half, x) <= Up(half, y)
  {
    UpBounds(half, x);
    UpBounds(half, y);
    if y <= 16777216.0 && Ceiling(x) != Ceiling(y) {
      assert Ceiling(x) as real <= y;
    }
  }

  lemma AwayRounds(half: bool)
    ensures Rounds(Away(half))
  {
    var rnd := Away(half);
    forall x, y
      ensures Ordered(rnd, x, y)
    {
      if x <= y {
        if x >= 0.0 {
          UpOrdered(half, x, y);
        } else if y < 0.0 {
          UpOrdered(half, -y, -x);
        } else {
          UpBounds(half, -x);
          UpBounds(half, y);
        }
      }
    }
    forall x
      ensures Near(rnd, x)
    {
      UpBounds(half, Abs(x));
    }
    forall n | -0x100_0000 <= n <= 0x100_0000
      ensures Fixed(rnd, n)
    {
      UpBounds(half, Abs(n as real));
    }
  }

  lemma AwayOdd(half: bool, x: real)
    requires x > 0.0
    ensures Away(half)(x) == Up(half, x) && Away(half)(-x) == -Up(half, x)
  {
    AwayBelow(half, -x, x);
  }

  lemma AwayBelow(half: bool, y: real, x: real)
    requires x > 0.0 && y == -x
    ensures AwayAt(half, y) == -Up(half, x)
  {
    assert -y == x;
  }

  /** The magnitude of the slope before it is rounded, k codes over a range a. */
  function SlopeOf(half: bool, k: int, a: real): (q: real)
    requires a > 0.0 && k > 0
    ensures q > 0.0 && Times(q, Up(half, a)) == k as real
  {
    UpBounds(half, a);
    var w := Up(half, a);
    PositiveQuotient(k as real, w);
    k as real / w
  }

  lemma PositiveQuotient(k: real, w: real)
    requires k > 0.0 && w > 0.0
    ensures k / w > 0.0 && Times(k / w, w) == k
    ensures -k / w == -(k / w) && -k / -w == k / w
  {
    RealQuotient(-k, w, -(k / w));
    RealQuotient(-k, -w, k / w);
  }

  /** It is no number that rounding keeps. */
  predicate Moves(half: bool, k: int, a: real)
    requires a > 0.0 && k > 0
  {
    var q := SlopeOf(half, k, a);
    q > 16777216.0 || q != q.Floor as real
  }

  lemma FewerFallShort(x: real, y: real, a: real, b: real)
    requires 0.0 < x && y <= x && 0.0 < b < a
    ensures y * b < x * a
  {
    Scale(b, y, x);
    Distribute(x, a, b);
    assert x * (a - b) > 0.0;
  }

  lemma MoreExceed(x: real, y: real, a: real, b: real)
    requires 0.0 < x <= 16777216.0 && x + 1.0 <= y && 0.0 < b < a && 16777216.0 * (a - b) < b
    ensures y * b > x * a
  {
    Scale(b, x + 1.0, y);
    assert (x + 1.0) * b == x * b + b;
    Distribute(x, a, b);
    Scale(a - b, x, 16777216.0);
  }

  lemma PositiveFactor(x: real, a: real)
    requires a > 0.0 && x * a > 0.0
    ensures x > 0.0
  {
  }

  /** Of two numbers closer than one part in 2^24, only one divides k up to 2^24 times. */
  lemma TwoQuotients(k: int, a: real, b: real, m: int, n: int)
    requires k > 0 && 0.0 < b < a && 16777216.0 * (a - b) < b
    requires m <= 0x100_0000 && m as real * a == k as real
    ensures n as real * b != k as real
  {
    PositiveFactor(m as real, a);
    if n <= m {
      FewerFallShort(m as real, n as real, a, b);
    } else {
      MoreExceed(m as real, n as real, a, b);
    }
  }

  /** The slope in units, if rounding keeps it. */
  lemma KeptSlope(half: bool, k: int, a: real) returns (m: int)
    requires a > 0.0 && k > 0 && !Moves(half, k, a)
    ensures m <= 0x100_0000 && m as real * Up(half, a) == k as real
  {
    m := SlopeOf(half, k, a).Floor;
  }

  lemma WholeDivides(k: int, n: int, m: int)
    requires n > 0 && m as real * n as real == k as real
    ensures k % n == 0
  {
    AsReal(m, n);
    assert k == m * n;
    MultipleOf(m, n);
  }

  lemma MultipleOf(m: int, n: int)
    requires n > 0
    ensures m * n % n == 0
  {
    var q, r := m * n / n, m * n % n;
    assert m * n == q * n + r;
    assert (m - q) * n == m * n - q * n;
    if q < m {
      Grows(1, m - q, n);
    } else {
      Grows(m - q, 0, n);
      if m < q {
        Grows(m - q, -1, n);
      }
    }
  }

  /** Unless the slope is whole, one of the two roundings moves it. */
  lemma OneMoves(k: int, a: real) returns (half: bool)
    requires 0 < k < 0x1_0000 && a > 0.0
    requires a > 16777216.0 || a != a.Floor as real || k % a.Floor != 0
    ensures Moves(half, k, a)
  {
    half := true;
    if !Moves(true, k, a) {
      if a <= 16777216.0 && a == a.Floor as real {
        WholeMoves(k, a);
      } else {
        half := false;
        OtherMoves(k, a);
      }
    }
  }

  lemma WholeMoves(k: int, a: real)
    requires k > 0 && 0.0 < a <= 16777216.0 && a == a.Floor as real && k % a.Floor != 0
    ensures Moves(true, k, a)
  {
    if !Moves(true, k, a) {
      var m := KeptSlope(true, k, a);
      UpBounds(true, a);
      WholeDivides(k, a.Floor, m);
    }
  }

  lemma OtherMoves(k: int, a: real)
    requires k > 0 && (a > 16777216.0 || (a > 0.0 && a != a.Floor as real)) && !Moves(true, k, a)
    ensures Moves(false, k, a)
  {
    if !Moves(false, k, a) {
      var m := KeptSlope(true, k, a);
      var n := KeptSlope(false, k, a);
      NotBothKept(k, a, m, n);
    }
  }

  lemma NotBothKept(k: int, a: real, m: int, n: int)
    requires k > 0 && (a > 16777216.0 || (a > 0.0 && a != a.Floor as real))
    requires m <= 0x100_0000 && m as real * Up(true, a) == k as real
    ensures n as real * Up(false, a) != k as real
  {
    UpsApart(a);
    TwoQuotients(k, Up(true, a), Up(false, a), m, n);
  }

  lemma UpsApart(a: real)
    requires a > 16777216.0 || (a > 0.0 && a != a.Floor as real)
    ensures 0.0 < Up(false, a) < Up(true, a) && 16777216.0 * (Up(true, a) - Up(false, a)) < Up(false, a)
  {
    SlackBounds(a);
    var e := Slack(a);
    assert Up(true, a) == a + e / 2.0 && Up(false, a) == a + e / 4.0;
  }

  lemma SlackBounds(a: real)
    requires a > 16777216.0 || (a > 0.0 && a != a.Floor as real)
    ensures 0.0 < Slack(a) <= a / 16777216.0
  {
    UpBounds(true, a);
  }

  /** The magnitude of the rise computed for the voltage at the end, k codes away over a range a. */
  function Rise(half: bool, k: int, a: real): real
    requires a > 0.0 && k > 0
  {
    Times(Up(half, SlopeOf(half, k, a)), Up(half, a))
  }

  /** A moved slope times the range overshoots the k codes by less than one. */
  lemma Overshoots(half: bool, k: int, a: real)
    requires 0 < k < 0x1_0000 && a > 0.0 && Moves(half, k, a)
    ensures k as real < Rise(half, k, a) < k as real + 1.0
  {
    UpBounds(half, a);
    var q := SlopeOf(half, k, a);
    MovedUp(half, q);
    OvershootBounds(q, Up(half, q), Up(half, a), k);
  }

  lemma MovedUp(half: bool, q: real)
    requires q > 0.0 && (q > 16777216.0 || q != q.Floor as real)
    ensures q < Up(half, q) <= q + q / 16777216.0
  {
    UpBounds(half, q);
  }

  lemma OvershootBounds(q: real, s: real, w: real, k: int)
    requires 0 < k < 0x1_0000 && Times(q, w) == k as real && w > 0.0 && q < s <= q + q / 16777216.0
    ensures k as real < Times(s, w) < k as real + 1.0
  {
    assert s * w - q * w == (s - q) * w;
    assert (s - q) * w > 0.0;
    Scale(w, s, q + q / 16777216.0);
    assert (q + q / 16777216.0) * w == k as real + k as real / 16777216.0;
  }

  lemma UpInside(half: bool, x: real, k: int)
    requires 0 <= k < 0x1_0000 && k as real < x < k as real + 1.0
    ensures k as real < Up(half, x) < k as real + 1.0
  {
    assert x.Floor == k;
    UpBounds(half, x);
  }

  lemma TimesSigns(s: real, w: real)
    ensures Times(-s, w) == -Times(s, w) && Times(s, -w) == -Times(s, w)
  {
  }

  /** Through the signs, that is the rise computed. */
  lemma AwayRise(cal: Calibration, half: bool)
    requires Proper(cal) && cal.dacMax < cal.dacMin
    ensures var rnd, a := Away(half), Abs(cal.vMax - cal.vMin);
      && rnd(cal.vMax - cal.vMin) != 0.0
      && Times(Slope(rnd, cal.vMin, cal.vMax, cal.dacMin as real, cal.dacMax as real), rnd(cal.vMax - cal.vMin)) ==
         -Rise(half, cal.dacMin - cal.dacMax, a)
  {
    var rnd, k, a := Away(half), cal.dacMin - cal.dacMax, Abs(cal.vMax - cal.vMin);
    var w, q := Up(half, a), SlopeOf(half, k, a);
    UpBounds(half, a);
    AwayOdd(half, a);
    AwayRounds(half);
    assert Fixed(rnd, -k) && cal.dacMax as real - cal.dacMin as real == (-k) as real == -(k as real);
    PositiveQuotient(k as real, w);
    AwayOdd(half, q);
    TimesSigns(Up(half, q), w);
    AwaySlope(cal, half, k, w, q);
  }

  lemma AwaySlope(cal: Calibration, half: bool, k: int, w: real, q: real)
    requires w > 0.0 && Away(half)(cal.dacMax as real - cal.dacMin as real) == -(k as real)
    requires Away(half)(cal.vMax - cal.vMin) == if cal.vMax > cal.vMin then w else -w
    requires -(k as real) / w == -q && -(k as real) / -w == q
    requires Away(half)(q) == Up(half, Abs(q)) && Away(half)(-q) == -Up(half, Abs(q))
    ensures Slope(Away(half), cal.vMin, cal.vMax, cal.dacMin as real, cal.dacMax as real) ==
            if cal.vMax > cal.vMin then -Up(half, Abs(q)) else Up(half, Abs(q))
  {
  }

  /** Codes falling to an end above 0 without a whole slope: there is a rounding with which the
      voltage at that end, which is in range, gives the code below it. */
  lemma FallingCodesEscape(cal: Calibration) returns (rnd: Rounding)
    requires Proper(cal) && !Strict(cal)
    ensures Rounds(rnd) && VoltageInRange(cal, cal.vMax) && rnd(cal.vMax - cal.vMin) != 0.0
    ensures VoltageToDac(rnd, cal, cal.vMax) == cal.dacMax - 1
  {
    var k, a := cal.dacMin - cal.dacMax, Abs(cal.vMax - cal.vMin);
    var half := OneMoves(k, a);
    rnd := Away(half);
    AwayRounds(half);
    Overshoots(half, k, a);
    AwayRise(cal, half);
    var x := Rise(half, k, a);
    AwayOdd(half, x);
    UpInside(half, x, k);
    AwaySum(half, cal.dacMin, cal.dacMax, Up(half, x));
    FromRise(rnd, cal, x, Up(half, x));
  }

  /** The conversion at the end, put together. */
  lemma FromRise(rnd: Rounding, cal: Calibration, x: real, rise: real)
    requires rnd(cal.vMax - cal.vMin) != 0.0 && rnd(-x) == -rise
    requires var slope := Slope(rnd, cal.vMin, cal.vMax, cal.dacMin as real, cal.dacMax as real);
      Times(slope, rnd(cal.vMax - cal.vMin)) == -x
    ensures VoltageToDac(rnd, cal, cal.vMax) == Truncate(rnd(-rise + cal.dacMin as real))
  {
  }

  lemma AwaySum(half: bool, dacMin: nat, dacMax: nat, rise: real)
    requires 0 < dacMax < dacMin < 0x1_0000
    requires (dacMin - dacMax) as real < rise < (dacMin - dacMax) as real + 1.0
    ensures Truncate(Away(half)(-rise + dacMin as real)) == dacMax - 1
  {
    var sum := -rise + dacMin as real;
    UpInside(half, sum, dacMax - 1);
    assert Up(half, sum).Floor == dacMax - 1;
  }

  /** A calibration is safe for every rounding exactly if it is strict. */
  lemma InRangeCondition(cal: Calibration)
    requires Proper(cal)
    ensures AlwaysInRange(cal) <==> Strict(cal)
  {
    if Strict(cal) {
      forall rnd: Rounding, v: real | Rounds(rnd)
        ensures InRangeAt(rnd, cal, v)
      {
        if VoltageInRange(cal, v) {
          if cal.dacMin <= cal.dacMax || cal.dacMax == 0 {
            RoundedCodeNearRange(rnd, cal, v);
          } else {
            WholeSlopeSafe(rnd, cal, v);
          }
        }
      }
    } else {
      var rnd := FallingCodesEscape(cal);
      assert !InRangeAt(rnd, cal, cal.vMax);
    }
  }

  // ---- a witness in binary32 itself

  function Pow2(n: nat): nat {
    if n == 0 then 1 else 2 * Pow2(n - 1)
  }

  lemma {:induction false} Pow2Sum(a: nat, b: nat)
    ensures Pow2(a + b) == Pow2(a) * Pow2(b)
  {
    if b > 0 {
      Pow2Sum(a, b - 1);
    }
  }

  /** m / 2^k is the 24-bit number nearest to x, and no tie has to be broken. */
  predicate Nearest24(x: real, m: int, k: nat) {
    var y := x * Pow2(k) as real;
    && 8388608.0 <= Abs(y) <= 16777216.0
    && 2.0 * Abs(y - m as real) < 1.0
  }

  /** Rounding to the nearest 24-bit significand. */
  ghost predicate RoundsToNearest(rnd: Rounding) {
    && (forall n :: -0x100_0000 <= n <= 0x100_0000 ==> Fixed(rnd, n))
    && (forall x, m, k: nat :: Nearest24(x, m, k) ==> rnd(x) == m as real / Pow2(k) as real)
  }

  /** With codes falling from 4 to 1 over 0 to 21 mV, the binary32 computation for 21 mV, an
      accepted voltage, gives code 0. */
  lemma FallingCodesEscapeInBinary32(rnd: Rounding)
    requires RoundsToNearest(rnd)
    ensures var cal := Calibration(0.0, 21.0, 4, 1);
      Proper(cal) && VoltageInRange(cal, 21.0) && rnd(cal.vMax - cal.vMin) != 0.0 &&
      VoltageToDac(rnd, cal, 21.0) == 0 && !CodeInRange(cal, 0)
  {
    assert Fixed(rnd, 21) && Fixed(rnd, -3);
    WitnessPowers();
    WitnessSlope();
    WitnessRise();
    WitnessSum();
    var s := -9586981.0 / 67108864.0;
    assert rnd(-3.0 / 21.0) == s;
    var p := -12582913.0 / 4194304.0;
    assert rnd(s * 21.0) == p;
    assert rnd(p + 4.0) == 4194303.0 / 4194304.0;
  }

  lemma WitnessPowers()
    ensures Pow2(22) == 4194304 && Pow2(24) == 16777216 && Pow2(26) == 67108864
  {
    Pow2Sum(5, 6);
    Pow2Sum(11, 11);
    Pow2Sum(22, 2);
    Pow2Sum(22, 4);
  }

  lemma WitnessSlope()
    ensures Nearest24(-3.0 / 21.0, -9586981, 26)
  {
    WitnessPowers();
  }

  lemma WitnessRise()
    ensures Nearest24(-9586981.0 / 67108864.0 * 21.0, -12582913, 22)
  {
    WitnessPowers();
  }

  lemma WitnessSum()
    ensures Nearest24(-12582913.0 / 4194304.0 + 4.0, 16777212, 24)
  {
    WitnessPowers();
  }
}
