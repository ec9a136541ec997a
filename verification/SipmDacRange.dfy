// server/CommandSipmDacControl.cpp and DAC.cpp: the codes and frames an unguarded DAC gives for any
// voltage, in range or not, in exact and in rounded arithmetic.
module SipmDacRange {
  import opened Codec
  import opened Accuracy
  import opened Calibration
  import opened Devices
  import opened Execution
  import opened Effects

  /** Both ends differ. */
  predicate Sloped(cal: Calibration) { cal.vMin != cal.vMax && cal.dacMin != cal.dacMax }

  /** Volts per code, negative where voltages and codes run in opposite directions. */
  function Step(cal: Calibration): (step: real)
    requires Sloped(cal)
    ensures step != 0.0
  {
    QuotientSign(cal.vMax - cal.vMin, cal.dacMax as real - cal.dacMin as real);
    (cal.vMax - cal.vMin) / (cal.dacMax as real - cal.dacMin as real)
  }

  /** The voltage of code y, which need not be whole, on the line through the ends. */
  function VoltageOf(cal: Calibration, y: real): real
    requires Sloped(cal)
  {
    cal.vMin + Step(cal) * (y - cal.dacMin as real)
  }

  /** The voltages before that of code y, as codes go. */
  predicate Before(cal: Calibration, v: real, y: real)
    requires Sloped(cal)
  {
    if Step(cal) > 0.0 then v < VoltageOf(cal, y) else v > VoltageOf(cal, y)
  }

  predicate Beyond(cal: Calibration, v: real, y: real)
    requires Sloped(cal)
  {
    if Step(cal) > 0.0 then v > VoltageOf(cal, y) else v < VoltageOf(cal, y)
  }

  /** The voltages from that of code lo up to, but not including, that of hi + 1, less a margin at
      either end.  Conversion goes toward zero, so code 0 also takes the step before it. */
  predicate Spans(cal: Calibration, v: real, lo: nat, hi: nat, margin: real)
    requires Sloped(cal)
  {
    && (if lo == 0 then Beyond(cal, v, margin - 1.0) else !Before(cal, v, lo as real + margin))
    && Before(cal, v, hi as real + 1.0 - margin)
  }

  /** The distance to code y is that to its voltage, in steps. */
  lemma PositionInSteps(cal: Calibration, v: real, y: real)
    requires Sloped(cal)
    ensures Step(cal) * (Position(cal, v) - y) == v - VoltageOf(cal, y)
  {
    var w, h, t := cal.vMax - cal.vMin, cal.dacMax as real - cal.dacMin as real, v - cal.vMin;
    Cancel(w, h, t);
    assert Position(cal, v) - y == h / w * t - (y - cal.dacMin as real);
    Distribute(w / h, h / w * t, y - cal.dacMin as real);
  }

  lemma SignOfProduct(step: real, x: real)
    requires step != 0.0
    ensures x < 0.0 <==> if step > 0.0 then step * x < 0.0 else step * x > 0.0
    ensures x > 0.0 <==> if step > 0.0 then step * x > 0.0 else step * x < 0.0
  {
  }

  lemma BeforeMeans(cal: Calibration, v: real, y: real)
    requires Sloped(cal)
    ensures Before(cal, v, y) <==> Position(cal, v) < y
    ensures Beyond(cal, v, y) <==> Position(cal, v) > y
  {
    PositionInSteps(cal, v, y);
    SignOfProduct(Step(cal), Position(cal, v) - y);
  }

  predicate Inside(z: real, lo: nat, hi: nat, margin: real) {
    (if lo == 0 then z > margin - 1.0 else z >= lo as real + margin) && z < hi as real + 1.0 - margin
  }

  lemma SpansMeans(cal: Calibration, v: real, lo: nat, hi: nat, margin: real)
    requires Sloped(cal)
    ensures Spans(cal, v, lo, hi, margin) <==> Inside(Position(cal, v), lo, hi, margin)
  {
    BeforeMeans(cal, v, margin - 1.0);
    BeforeMeans(cal, v, lo as real + margin);
    BeforeMeans(cal, v, hi as real + 1.0 - margin);
  }

  /** A number computed with an error of at most e. */
  lemma TruncateNear(y: real, z: real, lo: nat, hi: nat, e: real)
    requires Abs(y - z) <= e
    ensures Inside(z, lo, hi, e) ==> lo <= Truncate(y) <= hi
    ensures lo <= Truncate(y) <= hi ==> Inside(z, lo, hi, -e)
  {
  }

  // ---- exact arithmetic

  /** Exactly which voltages give a code from lo to hi. */
  lemma CodeWithin(cal: Calibration, v: real, lo: nat, hi: nat)
    requires Sloped(cal)
    ensures lo <= VoltageToDac(Exact(), cal, v) <= hi <==> Spans(cal, v, lo, hi, 0.0)
  {
    ExactLine(v, cal.vMin, cal.vMax, cal.dacMin as real, cal.dacMax as real);
    TruncateNear(Position(cal, v), Position(cal, v), lo, hi, 0.0);
    SpansMeans(cal, v, lo, hi, 0.0);
  }

  /** The voltages at the ends with the lower and with the higher code. */
  function LowEnd(cal: Calibration): real { if cal.dacMin <= cal.dacMax then cal.vMin else cal.vMax }
  function HighEnd(cal: Calibration): real { if cal.dacMin <= cal.dacMax then cal.vMax else cal.vMin }

  lemma VoltageOfEnds(cal: Calibration)
    requires Sloped(cal)
    ensures VoltageOf(cal, Min(cal.dacMin, cal.dacMax) as real) == LowEnd(cal)
    ensures VoltageOf(cal, Max(cal.dacMin, cal.dacMax) as real) == HighEnd(cal)
  {
    var w, h := cal.vMax - cal.vMin, cal.dacMax as real - cal.dacMin as real;
    assert w / h * h == w;
    assert VoltageOf(cal, cal.dacMin as real) == cal.vMin + Step(cal) * 0.0;
  }

  lemma OneStep(cal: Calibration, y: real)
    requires Sloped(cal)
    ensures VoltageOf(cal, y + 1.0) == VoltageOf(cal, y) + Step(cal)
    ensures VoltageOf(cal, y - 1.0) == VoltageOf(cal, y) - Step(cal)
  {
    var d := y - cal.dacMin as real;
    assert Step(cal) * (d + 1.0) == Step(cal) * d + Step(cal);
    assert Step(cal) * (d - 1.0) == Step(cal) * d - Step(cal);
  }

  /** Exactly which voltages give a code in the calibrated range, for any order of the ends: up to
      one step beyond the end with the higher code, and, if the lower code is 0, as far beyond the
      other end. */
  lemma CodeInRangeCondition(cal: Calibration, v: real)
    requires cal.vMin != cal.vMax
    ensures CodeInRange(cal, VoltageToDac(Exact(), cal, v)) <==>
      cal.dacMin == cal.dacMax ||
      var step, low, high := Step(cal), LowEnd(cal), HighEnd(cal);
      var zero := Min(cal.dacMin, cal.dacMax) == 0;
      if step > 0.0 then (if zero then low - step < v else low <= v) && v < high + step
      else high + step < v && if zero then v < low - step else v <= low
  {
    if cal.dacMin == cal.dacMax {
      ExactLine(v, cal.vMin, cal.vMax, cal.dacMin as real, cal.dacMax as real);
      assert Position(cal, v) == cal.dacMin as real;
    } else {
      var lo, hi := Min(cal.dacMin, cal.dacMax), Max(cal.dacMin, cal.dacMax);
      CodeWithin(cal, v, lo, hi);
      VoltageOfEnds(cal);
      OneStep(cal, lo as real);
      OneStep(cal, hi as real);
    }
  }

  // ---- rounded arithmetic

  /** A margin of a twentieth of a step covers the rounding errors. */
  const MARGIN := 0.05

  /** Whatever the rounding: the voltages at least a margin inside give a code from lo to hi, and
      those that do are at most a margin outside. */
  lemma RoundedCodeWithin(rnd: Rounding, cal: Calibration, v: real, lo: nat, hi: nat)
    requires Rounds(rnd) && Proper(cal) && Sloped(cal) && hi < 0x1_0000
    ensures rnd(cal.vMax - cal.vMin) != 0.0
    ensures Spans(cal, v, lo, hi, MARGIN) ==> lo <= VoltageToDac(rnd, cal, v) <= hi
    ensures lo <= VoltageToDac(rnd, cal, v) <= hi ==> Spans(cal, v, lo, hi, -MARGIN)
  {
    RoundedPosition(rnd, cal, v);
    SpansMeans(cal, v, lo, hi, MARGIN);
    SpansMeans(cal, v, lo, hi, -MARGIN);
    var z := Position(cal, v);
    var y := Computed(rnd, cal, v);
    if Abs(z) <= 65537.0 {
      TruncateNear(y, z, lo, hi, MARGIN);
    } else {
      assert y > 65536.0 || y < -1.0;
    }
  }

  // ---- frames

  // Arithmetic with a margin for its errors: none, or rounded.
  ghost predicate Computes(rnd: Rounding, e: real) {
    (e == 0.0 && forall x :: rnd(x) == x) || (e == MARGIN && Rounds(rnd))
  }

  /** The conversion to uint16_t, where it is defined. */
  ghost predicate Converts(fpu: Fpu) {
    forall x: real :: -1.0 < x < 65536.0 ==> fpu.toU16(Finite(x)) == Truncate(x)
  }

  lemma ComputedCode(rnd: Rounding, e: real, cal: Calibration, v: real, lo: nat, hi: nat)
    requires Computes(rnd, e) && Proper(cal) && Sloped(cal) && hi < 0x1_0000
    ensures rnd(cal.vMax - cal.vMin) != 0.0
    ensures Spans(cal, v, lo, hi, e) ==> lo <= VoltageToDac(rnd, cal, v) <= hi
    ensures lo <= VoltageToDac(rnd, cal, v) <= hi ==> Spans(cal, v, lo, hi, -e)
  {
    if e == 0.0 {
      CodeWithin(cal, v, lo, hi);
      assert Computed(rnd, cal, v) == Computed(Exact(), cal, v);
    } else {
      RoundedCodeWithin(rnd, cal, v, lo, hi);
    }
  }

  /** Where the conversion is defined it is the code. */
  lemma ConvertedCode(fpu: Fpu, e: real, cal: Calibration, v: real)
    requires Computes(fpu.round, e) && Converts(fpu) && Proper(cal) && Sloped(cal) && Spans(cal, v, 0, 0xffff, e)
    ensures fpu.round(cal.vMax - cal.vMin) != 0.0
    ensures CodeOf(fpu, cal, Finite(v)) == VoltageToDac(fpu.round, cal, v)
  {
    ComputedCode(fpu.round, e, cal, v, 0, 0xffff);
    var y := Computed(fpu.round, cal, v);
    TruncateNear(y, y, 0, 0xffff, 0.0);
  }

  predicate InBand(cal: Calibration, v: real, j: nat, margin: real)
    requires Sloped(cal)
  {
    Spans(cal, v, Min(cal.dacMin, cal.dacMax) + 0x1000 * j, Max(cal.dacMin, cal.dacMax) + 0x1000 * j, margin)
  }

  /** The range of voltages that give a code in range, or one of its copies 4096 codes apart. */
  ghost predicate InSomeBand(cal: Calibration, v: real, margin: real)
    requires Sloped(cal)
  {
    exists j: nat :: j < 16 && InBand(cal, v, j, margin)
  }

  lemma CodeInBand(code: nat, lo: nat, hi: nat, j: nat)
    requires hi < 0x1000
    ensures lo + 0x1000 * j <= code <= hi + 0x1000 * j <==> lo <= code % 0x1000 <= hi && j == code / 0x1000
  {
  }

  /** The 12 bits that are sent, against the calibrated range. */
  lemma FrameInRange(fpu: Fpu, e: real, cal: Calibration, v: real)
    requires Computes(fpu.round, e) && Converts(fpu) && Fits(cal) && Sloped(cal) && Spans(cal, v, 0, 0xffff, e)
    ensures fpu.round(cal.vMax - cal.vMin) != 0.0
    ensures var code, sent := VoltageToDac(fpu.round, cal, v), CodeOf(fpu, cal, Finite(v)) % 0x1000;
      && (Spans(cal, v, 0, 0xfff, e) ==> sent == code)
      && (sent == code ==> Spans(cal, v, 0, 0xfff, -e))
      && (InSomeBand(cal, v, e) ==> CodeInRange(cal, sent))
      && (CodeInRange(cal, sent) ==> InSomeBand(cal, v, -e))
  {
    ConvertedCode(fpu, e, cal, v);
    ComputedCode(fpu.round, e, cal, v, 0, 0xfff);
    ComputedCode(fpu.round, e, cal, v, 0, 0xffff);
    var code := VoltageToDac(fpu.round, cal, v);
    if j: nat :| j < 16 && InBand(cal, v, j, e) {
      BandOfCode(fpu.round, e, cal, v, j);
    }
    BandOfCode(fpu.round, e, cal, v, code / 0x1000);
  }

  lemma BandOfCode(rnd: Rounding, e: real, cal: Calibration, v: real, j: nat)
    requires Computes(rnd, e) && Fits(cal) && Sloped(cal) && j < 16
    ensures rnd(cal.vMax - cal.vMin) != 0.0
    ensures var code := VoltageToDac(rnd, cal, v);
      && (InBand(cal, v, j, e) ==> CodeInRange(cal, code % 0x1000))
      && (CodeInRange(cal, code % 0x1000) && j == code / 0x1000 ==> InBand(cal, v, j, -e))
  {
    var lo, hi := Min(cal.dacMin, cal.dacMax), Max(cal.dacMin, cal.dacMax);
    ComputedCode(rnd, e, cal, v, lo + 0x1000 * j, hi + 0x1000 * j);
    var code := VoltageToDac(rnd, cal, v);
    if code >= 0 {
      CodeInBand(code, lo, hi, j);
    }
  }

  /** A successful SiPM DAC write, for any voltage whose conversion is defined: the frame carries a
      code in range if the voltage is in one of the bands, and only then (but for the margin). */
  lemma SipmDacWriteInRange(fpu: Fpu, e: real, s: State, c: Command, hw: Hardware, v: real) returns (f: Message)
    requires Computes(fpu.round, e) && Converts(fpu)
    requires c.code == 10 && |c.data| == 3 && c.data[0] < 3 && Usable(fpu, s, c, hw)
    requires Fits(s.ltc.value.cal) && Sloped(s.ltc.value.cal)
    requires fpu.decode(c.data[2]) == Finite(v) && Spans(s.ltc.value.cal, v, 0, 0xffff, e)
    ensures Execute(fpu, s, c, hw).0 == Appended(s, f) && |f| == 3
    ensures var cal, sent := s.ltc.value.cal, DecodeFrame(f).value;
      && (InSomeBand(cal, v, e) ==> CodeInRange(cal, sent))
      && (CodeInRange(cal, sent) ==> InSomeBand(cal, v, -e))
  {
    f := SipmDacFrame(fpu, s, c, hw);
    FrameInRange(fpu, e, s.ltc.value.cal, v);
  }

  // ---- witnesses

  /** With the shipped 0 to 2500 mV for codes 0 to 4095, a write of 2501 mV sends code 0, which is
      in range, for code 4096. */
  lemma OneTooManyWraps(fpu: Fpu)
    requires Sound(fpu)
    ensures var cal := Calibration(0.0, 2500.0, 0, 0xfff);
      CodeOf(fpu, cal, Finite(2501.0)) == 0x1000 && !VoltageInRange(cal, 2501.0) && CodeInRange(cal, 0x1000 % 0x1000)
  {
    var cal := Calibration(0.0, 2500.0, 0, 0xfff);
    assert Position(cal, 2501.0) == 4095.0 / 2500.0 * 2501.0;
    SpansMeans(cal, 2501.0, 0x1000, 0x1000, MARGIN);
    SpansMeans(cal, 2501.0, 0, 0xffff, MARGIN);
    RoundedCodeWithin(fpu.round, cal, 2501.0, 0x1000, 0x1000);
    ConvertedCode(fpu, MARGIN, cal, 2501.0);
  }

  /** With 0 to 2047 mV for codes 0 to 2047, a write of 4094 mV sends code 4094, out of range. */
  lemma TwiceTheMaximumIsSent(fpu: Fpu)
    requires Sound(fpu)
    ensures var cal := Calibration(0.0, 2047.0, 0, 2047);
      CodeOf(fpu, cal, Finite(4094.0)) == 4094 && !CodeInRange(cal, 4094 % 0x1000)
  {
    var cal := Calibration(0.0, 2047.0, 0, 2047);
    assert Fixed(fpu.round, 2047) && Fixed(fpu.round, 1) && Fixed(fpu.round, 4094);
    assert Slope(fpu.round, 0.0, 2047.0, 0.0, 2047.0) == 1.0;
    assert Times(1.0, 4094.0) == 4094.0;
  }

  /** Both requests succeed, with nothing said of the range. */
  lemma SipmDacUnguarded(fpu: Fpu, s: State, c: Command, hw: Hardware) returns (f: Message)
    requires Sound(fpu) && c.code == 10 && |c.data| == 3 && c.data[0] < 3 && Usable(fpu, s, c, hw)
    ensures Execute(fpu, s, c, hw) == (Appended(s, f), Done()) && |f| == 3
    ensures s.ltc.value.cal == Calibration(0.0, 2047.0, 0, 2047) && fpu.decode(c.data[2]) == Finite(4094.0) ==>
              DecodeFrame(f).value == 4094 && !CodeInRange(s.ltc.value.cal, 4094)
    ensures s.ltc.value.cal == Calibration(0.0, 2500.0, 0, 0xfff) && fpu.decode(c.data[2]) == Finite(2501.0) ==>
              DecodeFrame(f).value == 0
  {
    f := SipmDacFrame(fpu, s, c, hw);
    OneTooManyWraps(fpu);
    TwiceTheMaximumIsSent(fpu);
  }
}
