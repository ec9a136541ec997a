// server/HumidityControl.cpp: the two 20-bit readings in a six-byte AHT10 answer.
module Aht10 {
  import opened Wire
  import opened Calibration
  import opened Devices

  /** The low 20 bits of three bytes, most significant first. */
  function Low20(a: Byte, b: Byte, c: Byte): nat {
    a % 0x10 * 0x1_0000 + b as int * 0x100 + c
  }

  // The six bytes of an answer.
  type Answer = bs: seq<Byte> | |bs| == 6 witness [0, 0, 0, 0, 0, 0]

  /** The answer carrying a state byte, a humidity and a temperature. */
  function Carrying(state: Byte, humidity: nat, temperature: nat): Answer
    requires humidity < 0x10_0000 && temperature < 0x10_0000
  {
    [state, humidity / 0x1000, humidity / 0x10 % 0x100,
     humidity % 0x10 * 0x10 + temperature / 0x1_0000, temperature / 0x100 % 0x100, temperature % 0x100]
  }

  /** The low byte of a two-byte value shifted down by four bits. */
  function Straddle(high: Byte, low: Byte): Byte {
    high % 0x10 * 0x10 + low / 0x10
  }

  /** right_justify<20> on bytes 1 to 3: a shift down by four bits, in place. */
  method RightJustify(result: array<Byte>)
    requires result.Length == 6
    modifies result
    ensures result[0] == old(result[0]) && result[4] == old(result[4]) && result[5] == old(result[5])
    ensures result[1] == Straddle(0, old(result[1]))
    ensures result[2] == Straddle(old(result[1]), old(result[2]))
    ensures result[3] == Straddle(old(result[2]), old(result[3]))
  {
    result[3] := Straddle(result[2], result[3]);
    result[2] := Straddle(result[1], result[2]);
    result[1] := Straddle(0, result[1]);
  }

  function RawTemperature(a: Answer): nat { Low20(a[3], a[4], a[5]) }

  function RawHumidity(a: Answer): nat {
    Low20(Straddle(0, a[1]), Straddle(a[1], a[2]), Straddle(a[2], a[3]))
  }

  /** request_read's extraction: the temperature is read before byte 3, which both readings share,
      is overwritten. */
  method Extract(result: array<Byte>) returns (temperature: nat, humidity: nat)
    requires result.Length == 6
    modifies result
    ensures temperature == RawTemperature(old(result[..])) && humidity == RawHumidity(old(result[..]))
  {
    temperature := Low20(result[3], result[4], result[5]);
    RightJustify(result);
    humidity := Low20(result[1], result[2], result[3]);
  }

  /** The two readings share byte 3 without overlapping: both come back from their answer. */
  lemma FieldsOfAnswer(s: Byte, h: nat, t: nat)
    requires h < 0x10_0000 && t < 0x10_0000
    ensures RawTemperature(Carrying(s, h, t)) == t && RawHumidity(Carrying(s, h, t)) == h
  {
    Nibbles(h % 0x10, t / 0x1_0000);
    TopOfTwenty(t);
    HumidityOfBytes(h, Carrying(s, h, t)[3]);
  }

  /** And every six bytes are the answer carrying what is read from them. */
  lemma AnswerOfFields(a: Answer)
    ensures RawHumidity(a) < 0x10_0000 && RawTemperature(a) < 0x10_0000
    ensures Carrying(a[0], RawHumidity(a), RawTemperature(a)) == a
  {
    ShiftedDown(a[1], a[2], a[3]);
    ThreeBytes(a[1], a[2], a[3] / 0x10);
    LowThree(a[3] % 0x10, a[4], a[5]);
    Assembled(a, RawHumidity(a), RawTemperature(a));
  }

  lemma Assembled(a: Answer, h: nat, t: nat)
    requires h < 0x10_0000 && h / 0x1000 == a[1] && h / 0x10 % 0x100 == a[2] && h % 0x10 == a[3] / 0x10
    requires t < 0x10_0000 && t / 0x1_0000 == a[3] % 0x10 && t / 0x100 % 0x100 == a[4] && t % 0x100 == a[5]
    ensures Carrying(a[0], h, t) == a
  {
    assert a[3] == a[3] / 0x10 * 0x10 + a[3] % 0x10;
  }

  lemma ThreeBytes(a: Byte, b: Byte, c: nat)
    requires c < 0x10
    ensures var h := (a as int * 0x100 + b) * 0x10 + c;
      h < 0x10_0000 && h / 0x1000 == a && h / 0x10 % 0x100 == b && h % 0x10 == c
  {
    var h1 := a as int * 0x100 + b;
    assert (h1 * 0x10 + c) / 0x10 == h1 && h1 / 0x100 == a;
  }

  lemma LowThree(a: nat, b: Byte, c: Byte)
    requires a < 0x10
    ensures var t := a * 0x1_0000 + b as int * 0x100 + c;
      t < 0x10_0000 && t / 0x1_0000 == a && t / 0x100 % 0x100 == b && t % 0x100 == c
  {
    var t1 := a * 0x100 + b;
    assert (t1 * 0x100 + c) / 0x100 == t1 && t1 / 0x100 == a;
  }

  lemma HumidityOfBytes(h: nat, shared: Byte)
    requires h < 0x10_0000 && shared / 0x10 == h % 0x10
    ensures var a, b := h / 0x1000, h / 0x10 % 0x100;
      Low20(Straddle(0, a), Straddle(a, b), Straddle(b, shared)) == h
  {
    ShiftedDown(h / 0x1000, h / 0x10 % 0x100, shared);
    BytesOfHumidity(h);
  }

  lemma BytesOfHumidity(h: nat)
    ensures h == (h / 0x1000 * 0x100 + h / 0x10 % 0x100) * 0x10 + h % 0x10
  {
    var h1 := h / 0x10;
    assert h1 / 0x100 == h / 0x1000 && h1 == h1 / 0x100 * 0x100 + h1 % 0x100;
  }

  lemma ShiftedDown(a: Byte, b: Byte, c: Byte)
    ensures Low20(Straddle(0, a), Straddle(a, b), Straddle(b, c)) == (a as int * 0x100 + b) * 0x10 + c / 0x10
  {
    assert a == a / 0x10 * 0x10 + a % 0x10 && b == b / 0x10 * 0x10 + b % 0x10;
    assert Straddle(0, a) % 0x10 == a / 0x10;
  }

  /** In the other order the shift would come between: the temperature would get the low bits of
      the humidity in place of its own top bits. */
  lemma OrderMatters(s: Byte, h: nat, t: nat)
    requires h < 0x10_0000 && t < 0x10_0000
    ensures var a := Carrying(s, h, t);
      Low20(Straddle(a[2], a[3]), a[4], a[5]) == t <==> h % 0x10 == t / 0x1_0000
  {
    var a := Carrying(s, h, t);
    Nibbles(h % 0x10, t / 0x1_0000);
    Nibbles(a[2] % 0x10, a[3] / 0x10);
    assert Straddle(a[2], a[3]) % 0x10 == h % 0x10;
    TopOfTwenty(t);
  }

  lemma TopOfTwenty(t: nat)
    ensures t == t / 0x1_0000 * 0x1_0000 + t / 0x100 % 0x100 * 0x100 + t % 0x100
  {
    var t1 := t / 0x100;
    assert t == t1 * 0x100 + t % 0x100 && t1 / 0x100 == t / 0x1_0000;
  }

  // ---- the sensor object

  const INIT: Message := [0xe1, 0x28, 0x00]
  const MEASURE: Message := [0xac, 0x33, 0x00]
  const RESET: Message := [0xba]

  /** The readings as the source scales them: exactly, and then rounded to a float. */
  function Celsius(rnd: Rounding, t: nat): real { rnd(200.0 * t as real / 1048576.0 - 50.0) }
  function Percent(rnd: Rounding, h: nat): real { rnd(100.0 * h as real / 1048576.0) }

  /** The scales: 0 is -50 degrees and no humidity, the middle of the range 50 of either, and each
      step is one part in 2^20 of the whole range of 200 degrees or 100 percent. */
  lemma Scales(n: nat)
    ensures Celsius(Exact(), 0) == -50.0 && Celsius(Exact(), 0x8_0000) == 50.0
    ensures Percent(Exact(), 0) == 0.0 && Percent(Exact(), 0x8_0000) == 50.0
    ensures Celsius(Exact(), n + 1) - Celsius(Exact(), n) == 200.0 / 1048576.0
    ensures Percent(Exact(), n + 1) - Percent(Exact(), n) == 100.0 / 1048576.0
  {
  }

  /** A reading, rounded, from which the number is recovered: what it is in steps is less than half
      a step off. */
  predicate Reads(percent: real, h: nat, celsius: real, t: nat) {
    && -0.5 < 1048576.0 / 100.0 * percent - h as real < 0.5
    && -0.5 < 1048576.0 / 200.0 * (celsius + 50.0) - t as real < 0.5
  }

  lemma ReadingsRecover(rnd: Rounding, h: nat, t: nat)
    requires Rounds(rnd) && h < 0x10_0000 && t < 0x10_0000
    ensures Reads(Percent(rnd, h), h, Celsius(rnd, t), t)
  {
    assert Near(rnd, 100.0 * h as real / 1048576.0);
    assert Near(rnd, 200.0 * t as real / 1048576.0 - 50.0);
  }

  /** So rounding keeps different numbers apart. */
  lemma ReadingsDistinct(rnd: Rounding, m: nat, n: nat)
    requires Rounds(rnd) && m < 0x10_0000 && n < 0x10_0000
    ensures Celsius(rnd, m) == Celsius(rnd, n) <==> m == n
    ensures Percent(rnd, m) == Percent(rnd, n) <==> m == n
  {
    ReadingsRecover(rnd, m, m);
    ReadingsRecover(rnd, n, n);
  }

  // The last readings, as raw words of floats, and the messages sent so far.
  datatype Hygrometer = Hygrometer(numRetries: nat, temperature: Word, humidity: Word, wire: seq<Message>)

  function Holding(fpu: Fpu, h: Hygrometer, a: Answer): Hygrometer {
    h.(temperature := fpu.encode(Celsius(fpu.round, RawTemperature(a))),
       humidity := fpu.encode(Percent(fpu.round, RawHumidity(a))))
  }

  /** Without retries the answer is not read. */
  function Taken(fpu: Fpu, h: Hygrometer, a: Answer): Hygrometer {
    if h.numRetries == 0 then h else Holding(fpu, h, a)
  }

  /** What a request does to the object; throws is whether the write or the read throws. */
  function Requested(fpu: Fpu, h: Hygrometer, a: Answer, throws: bool): Hygrometer {
    var asked := h.(wire := h.wire + [MEASURE]);
    if throws then asked else Taken(fpu, asked, a)
  }

  class Sensor {
    const numRetries: nat
    var temperature: Word
    var humidity: Word
    var wire: seq<Message>

    /** The readings start with whatever the memory held. */
    constructor (numRetries: nat, temperature: Word, humidity: Word)
      ensures View() == Hygrometer(numRetries, temperature, humidity, [[0xe1, 0x28, 0x00]])
    {
      this.numRetries, this.temperature, this.humidity, this.wire := numRetries, temperature, humidity, [INIT];
    }

    function View(): Hygrometer
      reads this
    {
      Hygrometer(numRetries, temperature, humidity, wire)
    }

    /** request_read; answers(i) is what the i-th read delivers.  The busy bit of the state byte
        leads to a pause and nothing else, so the first answer is taken, whatever its state. */
    method RequestRead(fpu: Fpu, answers: nat -> Answer, throws: bool) returns (ok: bool)
      modifies this
      ensures View() == Requested(fpu, old(View()), answers(0), throws)
      ensures ok == (!throws && numRetries > 0)
    {
      wire := wire + [MEASURE];
      if throws {
        return false;
      }
      for i := 0 to numRetries
        invariant i == 0 && View() == old(View()).(wire := old(wire) + [MEASURE])
      {
        var answer := answers(i);
        var result := new Byte[6](k requires 0 <= k < 6 => answer[k]);
        assert result[..] == answer;
        var rawTemperature, rawHumidity := Extract(result);
        temperature := fpu.encode(Celsius(fpu.round, rawTemperature));
        humidity := fpu.encode(Percent(fpu.round, rawHumidity));
        return true;
      }
      return false;
    }

    method SoftReset()
      modifies this
      ensures View() == old(View()).(wire := old(wire) + [RESET])
    {
      wire := wire + [RESET];
    }
  }
}
