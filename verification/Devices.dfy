// server/DAC.cpp, VoltageControl.cpp, SiPMDac.h and SiPMDac.cpp: the DAC chips and the frames
// they put on the I2C bus.
module Devices {
  import opened Wire
  import opened Calibration
  import opened RoundedRange
  import Numbers

  // A binary32 value: a number, or an infinity or NaN.
  datatype Float = Finite(value: real) | NonFinite

  // The machine's float unit.  toU16 is the conversion to uint16_t, which the language leaves
  // undefined outside (-1, 65536); decode reads a raw word as a float, encode is the word of a
  // rounded number, and stof reads a text.
  datatype Fpu = Fpu(
    round: Rounding, toU16: Float -> Half, decode: Word -> Float, encode: real -> Word, stof: Numbers.FloatReader)

  ghost predicate Sound(fpu: Fpu) {
    && Rounds(fpu.round)
    && forall x: real :: -1.0 < x < 65536.0 ==> fpu.toU16(Finite(x)) == Truncate(x)
  }

  type Message = seq<Byte>

  // ---- DAC

  /** DAC::voltage_to_dac, on any float and calibration. */
  function CodeOf(fpu: Fpu, cal: Calibration, v: Float): Half {
    if v.Finite? && fpu.round(cal.vMax - cal.vMin) != 0.0 then
      fpu.toU16(Finite(Interpolate(fpu.round, v.value, cal.vMin, cal.vMax, cal.dacMin as real, cal.dacMax as real)))
    else fpu.toU16(NonFinite)
  }

  /** DAC::voltage_in_range: comparisons with a NaN fail, and infinities are beyond both ends. */
  predicate Accepts(cal: Calibration, v: Float) {
    v.Finite? && VoltageInRange(cal, v.value)
  }

  /** A 12-bit code, left-justified in two bytes. */
  function Packed(code: Half): Message {
    [code % 0x1000 / 0x10, code % 0x10 * 0x10]
  }

  function Unpacked(high: Byte, low: Byte): int {
    high as int * 0x10 + low / 0x10
  }

  /** The hexadecimal digits of a code, and what they make of the expressions used here. */
  lemma Digits(code: Half) returns (h: nat, m: nat, l: nat)
    ensures h < 0x10 && m < 0x10 && l < 0x10
    ensures code % 0x1000 == h * 0x100 + m * 0x10 + l && code % 0x100 == m * 0x10 + l && code % 0x10 == l
  {
    h, m, l := code / 0x100 % 0x10, code / 0x10 % 0x10, code % 0x10;
    var top := code / 0x1000;
    assert code / 0x100 == top * 0x10 + h && code / 0x10 == (top * 0x10 + h) * 0x10 + m;
    assert code == top * 0x1000 + (h * 0x100 + m * 0x10 + l);
    assert code == (top * 0x10 + h) * 0x100 + (m * 0x10 + l);
  }

  lemma UnpackedPacked(code: Half)
    ensures Unpacked(Packed(code)[0], Packed(code)[1]) == code % 0x1000
    ensures Packed(code)[1] % 0x10 == 0
  {
    var h, m, l := Digits(code);
    ShiftDigits(h, m, l);
    assert Packed(code)[0] == h * 0x10 + m && Packed(code)[1] == l * 0x10;
  }

  lemma ShiftDigits(h: nat, m: nat, l: nat)
    requires h < 0x10 && m < 0x10 && l < 0x10
    ensures (h * 0x100 + m * 0x10 + l) / 0x100 == h && (h * 0x100 + m * 0x10 + l) / 0x10 == h * 0x10 + m
    ensures (m * 0x10 + l) / 0x10 == m && (m * 0x10 + l) * 0x10 % 0x100 == l * 0x10
  {
    assert (m * 0x10 + l) * 0x10 == m * 0x100 + l * 0x10;
  }

  /** Shifting a 12-bit value, held in its low byte and the nibble above, up by four bits. */
  lemma LeftJustified(value: Half)
    ensures (value % 0x1000 / 0x100 * 0x10 + value % 0x100 / 0x10) % 0x100 == Packed(value)[0]
    ensures value % 0x100 * 0x10 % 0x100 == Packed(value)[1]
  {
    var h, m, l := Digits(value);
    ShiftDigits(h, m, l);
    var twelve, low := value % 0x1000, value % 0x100;
    assert twelve / 0x100 == h && twelve / 0x10 == h * 0x10 + m && low / 0x10 == m;
  }

  /** For a voltage that is accepted, the 12-bit code is in the calibrated range, but for the code
      just below dacMax where the calibration is not strict. */
  predicate SafeCode(cal: Calibration, code: int) {
    CodeInRange(cal, code) || (!Strict(cal) && code == cal.dacMax - 1)
  }

  predicate Fits(cal: Calibration) {
    cal.vMin != cal.vMax && cal.dacMin <= 0xfff && cal.dacMax <= 0xfff
  }

  lemma AcceptedCode(fpu: Fpu, cal: Calibration, v: Float)
    requires Sound(fpu) && Fits(cal) && Accepts(cal, v)
    ensures CodeOf(fpu, cal, v) < 0x1000 && SafeCode(cal, CodeOf(fpu, cal, v))
    ensures fpu.round(cal.vMax - cal.vMin) != 0.0 && CodeOf(fpu, cal, v) == VoltageToDac(fpu.round, cal, v.value)
  {
    RoundedCodeNearRange(fpu.round, cal, v.value);
    var y := Interpolate(fpu.round, v.value, cal.vMin, cal.vMax, cal.dacMin as real, cal.dacMax as real);
    assert -1 <= Truncate(y) <= 0xfff;
    InterpolatedAboveMinusOne(fpu.round, cal, v.value);
    assert fpu.toU16(Finite(y)) == Truncate(y);
    if cal.dacMax < cal.dacMin && WholeSlope(cal) {
      WholeSlopeSafe(fpu.round, cal, v.value);
    }
  }

  lemma InterpolatedAboveMinusOne(rnd: Rounding, cal: Calibration, v: real)
    requires Rounds(rnd) && Proper(cal) && VoltageInRange(cal, v) && rnd(cal.vMax - cal.vMin) != 0.0
    ensures -1.0 < Interpolate(rnd, v, cal.vMin, cal.vMax, cal.dacMin as real, cal.dacMax as real)
  {
    var rise := RiseOfVoltage(rnd, cal, v);
    var sum := rise + cal.dacMin as real;
    assert Near(rnd, sum);
  }

  /** A DAC writes its code into bytes 1 and 2 of the message buffer of its chip. */
  class Dac {
    const view: array<Byte>
    const cal: Calibration

    constructor (view: array<Byte>, cal: Calibration)
      ensures this.view == view && this.cal == cal
    {
      this.view, this.cal := view, cal;
    }

    method SetInt(value: Half)
      requires view.Length == 3
      modifies view
      ensures view[..] == [old(view[0])] + Packed(value)
    {
      // the low 12 bits of the value, most significant byte first
      view[1], view[2] := value % 0x1000 / 0x100, value % 0x100;
      // left_justify: shift both bytes up by four bits, in place
      view[1] := (view[1] as int * 0x10 + view[2] / 0x10) % 0x100;
      view[2] := view[2] as int * 0x10 % 0x100;
      LeftJustified(value);
    }

    method SetVoltage(fpu: Fpu, v: Float)
      requires view.Length == 3
      modifies view
      ensures view[..] == [old(view[0])] + Packed(CodeOf(fpu, cal, v))
    {
      SetInt(CodeOf(fpu, cal, v));
    }
  }

  // ---- MCP4725

  const MCP_WRITE: Byte := 0x40

  function McpFrame(fpu: Fpu, cal: Calibration, v: Float): Message {
    [MCP_WRITE] + Packed(CodeOf(fpu, cal, v))
  }

  /** `wire` is every frame handed to the bus, whether or not the bus then throws. */
  class Mcp4725 {
    const buffer: array<Byte>
    const dac: Dac
    var wire: seq<Message>

    ghost predicate Valid() {
      buffer.Length == 3 && dac.view == buffer
    }

    constructor (cal: Calibration)
      ensures Valid() && fresh(buffer) && fresh(dac) && dac.cal == cal && wire == []
    {
      var bytes := new Byte[3];
      var d := new Dac(bytes, cal);
      buffer, dac, wire := bytes, d, [];
    }

    method Execute(fpu: Fpu, v: Float, throws: bool) returns (ok: bool)
      requires Valid()
      modifies this`wire, buffer
      ensures ok == !throws
      ensures wire == old(wire) + [McpFrame(fpu, dac.cal, v)]
    {
      buffer[0] := MCP_WRITE;
      dac.SetVoltage(fpu, v);
      wire := wire + [buffer[..]];
      ok := !throws;
    }
  }

  // ---- LTC2635

  datatype LtcCommand =
    | WriteRegister | UpdateRegister | WriteRegisterUpdateAll | WriteUpdateRegister
    | PowerDownRegister | PowerDownChip | SelectInternalReference | SelectExternalReference

  function LtcCode(c: LtcCommand): (code: nat)
    ensures code < 8
  {
    match c
    case WriteRegister => 0
    case UpdateRegister => 1
    case WriteRegisterUpdateAll => 2
    case WriteUpdateRegister => 3
    case PowerDownRegister => 4
    case PowerDownChip => 5
    case SelectInternalReference => 6
    case SelectExternalReference => 7
  }

  predicate HasParameter(c: LtcCommand) {
    c.WriteRegister? || c.WriteRegisterUpdateAll? || c.WriteUpdateRegister?
  }

  datatype LtcDac = DacA | DacB | DacC | DacD | AllDacs

  function DacCode(d: LtcDac): (code: nat)
    ensures code < 16
  {
    match d
    case DacA => 0
    case DacB => 1
    case DacC => 2
    case DacD => 3
    case AllDacs => 15
  }

  function FirstByte(c: LtcCommand, d: LtcDac): Byte {
    LtcCode(c) * 0x10 + DacCode(d)
  }

  function LtcWriteFrame(fpu: Fpu, cal: Calibration, c: LtcCommand, d: LtcDac, v: Float): Message {
    [FirstByte(c, d)] + Packed(CodeOf(fpu, cal, v))
  }

  function LtcControlFrame(c: LtcCommand, d: LtcDac): Message {
    [FirstByte(c, d), 0, 0]
  }

  /** Four DAC views alias the one message buffer. */
  class Ltc2635 {
    const messageBuffer: array<Byte>
    const dacs: array<Dac>
    const cal: Calibration
    var wire: seq<Message>

    ghost predicate Valid()
      reads dacs
    {
      && messageBuffer.Length == 3 && dacs.Length == 4
      && forall i :: 0 <= i < 4 ==> dacs[i].view == messageBuffer && dacs[i].cal == cal
    }

    constructor (cal: Calibration)
      ensures Valid() && fresh(messageBuffer) && fresh(dacs) && this.cal == cal && wire == []
    {
      var bytes := new Byte[3] [0, 0, 0];
      var a := new Dac(bytes, cal);
      var b := new Dac(bytes, cal);
      var c := new Dac(bytes, cal);
      var d := new Dac(bytes, cal);
      messageBuffer, dacs, this.cal, wire := bytes, new Dac[4] [a, b, c, d], cal, [];
    }

    /** All DACs share the calibration of DAC A. */
    function Select(d: LtcDac): Dac
      requires Valid()
      reads dacs
    {
      if d == AllDacs then dacs[0] else dacs[DacCode(d)]
    }

    method PackFirstByte(c: LtcCommand, d: LtcDac)
      requires Valid()
      modifies messageBuffer
      ensures messageBuffer[0] == FirstByte(c, d)
    {
      messageBuffer[0] := FirstByte(c, d);
    }

    /** The frame depends on the arguments alone, not on what the shared buffer held. */
    method ExecuteWrite(fpu: Fpu, c: LtcCommand, d: LtcDac, v: Float, throws: bool) returns (ok: bool)
      requires Valid() && HasParameter(c)
      modifies this`wire, messageBuffer
      ensures ok == !throws
      ensures wire == old(wire) + [LtcWriteFrame(fpu, cal, c, d, v)]
    {
      PackFirstByte(c, d);
      var dac := Select(d);
      dac.SetVoltage(fpu, v);
      wire := wire + [messageBuffer[..]];
      ok := !throws;
    }

    method ExecuteControl(c: LtcCommand, d: LtcDac, throws: bool) returns (ok: bool)
      requires Valid() && !HasParameter(c)
      modifies this`wire, messageBuffer
      ensures ok == !throws
      ensures wire == old(wire) + [LtcControlFrame(c, d)]
    {
      PackFirstByte(c, d);
      messageBuffer[1] := 0;
      messageBuffer[2] := 0;
      assert messageBuffer[..] == LtcControlFrame(c, d);
      wire := wire + [messageBuffer[..]];
      ok := !throws;
    }
  }

  // ---- reading frames back

  /** The chip's view of a frame: the two nibbles of byte 0, and a 12-bit value. */
  datatype Decoded = Decoded(command: nat, dac: nat, value: nat)

  function DecodeFrame(f: Message): Decoded
    requires |f| == 3
  {
    Decoded(f[0] / 0x10, f[0] % 0x10, Unpacked(f[1], f[2]))
  }

  lemma FirstByteDecodes(c: LtcCommand, d: LtcDac)
    ensures FirstByte(c, d) / 0x10 == LtcCode(c) && FirstByte(c, d) % 0x10 == DacCode(d)
  {
    Nibbles(LtcCode(c), DacCode(d));
  }

  lemma CodesInjective(c: LtcCommand, c': LtcCommand, d: LtcDac, d': LtcDac)
    requires FirstByte(c, d) == FirstByte(c', d')
    ensures c == c' && d == d'
  {
    FirstByteDecodes(c, d);
    FirstByteDecodes(c', d');
  }

  lemma DecodeJoined(c: LtcCommand, d: LtcDac, bytes: Message)
    requires |bytes| == 2
    ensures DecodeFrame([FirstByte(c, d)] + bytes) == Decoded(LtcCode(c), DacCode(d), Unpacked(bytes[0], bytes[1]))
  {
    FirstByteDecodes(c, d);
    var f := [FirstByte(c, d)] + bytes;
    assert f[0] == FirstByte(c, d) && f[1] == bytes[0] && f[2] == bytes[1];
  }

  /** A write frame carries its command, DAC and 12-bit code; for an accepted voltage the code is
      the full conversion result and safe. */
  lemma LtcFrameDecodes(fpu: Fpu, cal: Calibration, c: LtcCommand, d: LtcDac, v: Float)
    ensures DecodeFrame(LtcWriteFrame(fpu, cal, c, d, v)) ==
            Decoded(LtcCode(c), DacCode(d), CodeOf(fpu, cal, v) % 0x1000)
    ensures Sound(fpu) && Fits(cal) && Accepts(cal, v) ==>
              DecodeFrame(LtcWriteFrame(fpu, cal, c, d, v)).value == CodeOf(fpu, cal, v) &&
              SafeCode(cal, CodeOf(fpu, cal, v))
  {
    DecodeJoined(c, d, Packed(CodeOf(fpu, cal, v)));
    UnpackedPacked(CodeOf(fpu, cal, v));
    if Sound(fpu) && Fits(cal) && Accepts(cal, v) {
      AcceptedCode(fpu, cal, v);
    }
  }

  lemma DecodeZero(b: Byte)
    ensures DecodeFrame([b, 0, 0]) == Decoded(b / 0x10, b % 0x10, 0)
  {
  }

  lemma LtcControlDecodes(c: LtcCommand, d: LtcDac)
    ensures DecodeFrame(LtcControlFrame(c, d)) == Decoded(LtcCode(c), DacCode(d), 0)
  {
    FirstByteDecodes(c, d);
    DecodeZero(FirstByte(c, d));
  }

  /** Equal write frames come from the same command, DAC and 12-bit code. */
  lemma LtcFramesInjective(fpu: Fpu, cal: Calibration, c: LtcCommand, d: LtcDac, v: Float,
                           c': LtcCommand, d': LtcDac, v': Float)
    ensures LtcWriteFrame(fpu, cal, c, d, v) == LtcWriteFrame(fpu, cal, c', d', v') <==>
            c == c' && d == d' && CodeOf(fpu, cal, v) % 0x1000 == CodeOf(fpu, cal, v') % 0x1000
  {
    LtcFrameDecodes(fpu, cal, c, d, v);
    LtcFrameDecodes(fpu, cal, c', d', v');
    var a, b := CodeOf(fpu, cal, v), CodeOf(fpu, cal, v');
    assert a % 0x10 == a % 0x1000 % 0x10 && b % 0x10 == b % 0x1000 % 0x10;
    if LtcWriteFrame(fpu, cal, c, d, v) == LtcWriteFrame(fpu, cal, c', d', v') {
      assert LtcWriteFrame(fpu, cal, c, d, v)[0] == LtcWriteFrame(fpu, cal, c', d', v')[0];
      CodesInjective(c, c', d, d');
    }
  }
}
