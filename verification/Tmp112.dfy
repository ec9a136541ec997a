// server/TemperatureControl.h: merging fields into the TMP112 configuration register.
//
// CppUtils' BitArray is not part of this model; assumed of it: bit 0 is the least significant bit
// of the big-endian word over its bytes.  The 16-bit word is kept here as its bits, bit 0 first.
module Tmp112 {
  import opened Wire

  type Word16 = w: seq<bool> | |w| == 16 witness seq(16, i => false)

  datatype Field = Shutdown | Thermostat | Polarity | FaultQueue | OneShot | ExtendedMode | Conversion

  // The position of the field's lowest bit.
  function Address(f: Field): (a: nat)
    ensures a + Width(f) <= 16
  {
    match f
    case Shutdown => 0x8
    case Thermostat => 0x9
    case Polarity => 0xA
    case FaultQueue => 0xB
    case OneShot => 0xF
    case ExtendedMode => 0x4
    case Conversion => 0x6
  }

  /** Fields of format Uint have two bits, the flags of format Bool one. */
  function Width(f: Field): (n: nat)
    ensures n == 1 || n == 2
  {
    if f.FaultQueue? || f.Conversion? then 2 else 1
  }

  predicate InField(i: nat, f: Field) {
    Address(f) <= i < Address(f) + Width(f)
  }

  /** Bit k of a raw value. */
  predicate RawBit(v: nat, k: nat)
    requires k < 2
  {
    (if k == 0 then v else v / 2) % 2 == 1
  }

  /** The word after write_configuration: the low bits of v placed in the field. */
  function Merge(w: Word16, f: Field, v: nat): Word16 {
    seq(16, i requires 0 <= i < 16 => if InField(i, f) then RawBit(v, i - Address(f)) else w[i])
  }

  function BitValue(b: bool): nat { if b then 1 else 0 }

  /** The field as a number. */
  function ReadField(w: Word16, f: Field): nat {
    BitValue(w[Address(f)]) + if Width(f) == 2 then 2 * BitValue(w[Address(f) + 1]) else 0
  }

  function Modulus(f: Field): (m: nat)
    ensures m > 0
  {
    if Width(f) == 2 then 4 else 2
  }

  // ---- the two bytes on the bus

  function Pow2(n: nat): (p: nat)
    ensures p > 0
  {
    if n == 0 then 1 else 2 * Pow2(n - 1)
  }

  /** The number with these bits, bit 0 first. */
  function Number(bits: seq<bool>): (n: nat)
    ensures n < Pow2(|bits|)
  {
    if bits == [] then 0 else BitValue(bits[0]) + 2 * Number(bits[1..])
  }

  /** Bit k of a number. */
  predicate BitOf(n: nat, k: nat) {
    if k == 0 then n % 2 == 1 else BitOf(n / 2, k - 1)
  }

  lemma {:induction false} NumberBits(bits: seq<bool>, k: nat)
    requires k < |bits|
    ensures BitOf(Number(bits), k) == bits[k]
  {
    if k > 0 {
      assert Number(bits) / 2 == Number(bits[1..]);
      NumberBits(bits[1..], k - 1);
    }
  }

  function Bytes(w: Word16): (bs: seq<Byte>)
    ensures |bs| == 2
  {
    assert Pow2(8) == 0x100;
    [Number(w[8..]), Number(w[..8])]
  }

  /** Bit 0 is the lowest bit of the second byte. */
  lemma BytesHoldBits(w: Word16, i: nat)
    requires i < 16
    ensures BitOf(Bytes(w)[1 - i / 8], i % 8) == w[i]
  {
    if i < 8 {
      NumberBits(w[..8], i);
    } else {
      NumberBits(w[8..], i - 8);
    }
  }

  // ---- the sensor

  // Which register each first byte of a message selects, what the registers hold, and the messages
  // sent so far.  The source puts a field's position in the first byte, so what it selects matters.
  type Selector = s: seq<Byte> | |s| == 0x100 witness seq(0x100, i => 0)
  type Registers = rs: seq<Word16> | |rs| == 0x100 witness seq(0x100, i => seq(16, j => false))

  datatype Thermometer = Thermometer(select: Selector, registers: Registers, wire: seq<seq<Byte>>)

  function RegisterOf(t: Thermometer, f: Field): Byte { t.select[Address(f)] }

  function FieldValue(t: Thermometer, f: Field): nat { ReadField(t.registers[RegisterOf(t, f)], f) }

  /** Writing a field: a message that selects a register, a read of it, and a message that writes it
      back.  Of the three accesses `completed` go through if one throws. */
  function Store(t: Thermometer, f: Field, v: nat, throws: bool, completed: nat): Thermometer {
    var p, r := Address(f), RegisterOf(t, f);
    var w := Merge(t.registers[r], f, v);
    if throws && completed < 2 then t.(wire := t.wire + [[p]])
    else
      var told := t.(wire := t.wire + [[p]] + [[p] + Bytes(w)]);
      if throws then told else told.(registers := t.registers[r := w])
  }

  /** write_configuration: one bit or two, set in place. */
  method WriteConfiguration(state: array<bool>, f: Field, v: nat)
    requires state.Length == 16
    modifies state
    ensures state[..] == Merge(old(state[..]), f, v)
  {
    state[Address(f)] := RawBit(v, 0);
    if Width(f) == 2 {
      state[Address(f) + 1] := RawBit(v, 1);
    }
  }

  const TEMPERATURE: Byte := 0

  class Sensor {
    const select: Selector
    var registers: Registers
    var wire: seq<seq<Byte>>

    constructor (select: Selector, registers: Registers)
      ensures View() == Thermometer(select, registers, [])
    {
      this.select, this.registers, this.wire := select, registers, [];
    }

    function View(): Thermometer
      reads this
    {
      Thermometer(select, registers, wire)
    }

    /** write_config: read the register into a buffer, merge one field in place, write it back. */
    method WriteConfig(f: Field, v: nat, throws: bool, completed: nat) returns (ok: bool)
      modifies this
      ensures View() == Store(old(View()), f, v, throws, completed) && ok == !throws
    {
      wire := wire + [[Address(f)]];
      if throws && completed < 2 {
        return false;
      }
      var word := registers[select[Address(f)]];
      var buffer := new bool[16](i requires 0 <= i < 16 => word[i]);
      assert buffer[..] == word;
      WriteConfiguration(buffer, f, v);
      wire := wire + [[Address(f)] + Bytes(buffer[..])];
      if !throws {
        registers := registers[select[Address(f)] := buffer[..]];
      }
      return !throws;
    }

    /** read_temperature, up to the conversion of the two bytes it gets. */
    method AskTemperature()
      modifies this
      ensures View() == old(View()).(wire := old(wire) + [[TEMPERATURE]])
    {
      wire := wire + [[TEMPERATURE]];
    }
  }

  // ---- the registers as a map of fields

  lemma FieldsDisjoint(f: Field, g: Field, i: nat)
    requires InField(i, f) && InField(i, g)
    ensures f == g
  {
  }

  lemma MergeOwn(w: Word16, f: Field, v: nat)
    ensures ReadField(Merge(w, f, v), f) == v % Modulus(f)
  {
  }

  lemma MergeOther(w: Word16, f: Field, v: nat, g: Field)
    requires f != g
    ensures ReadField(Merge(w, f, v), g) == ReadField(w, g)
  {
    assert !InField(Address(g), f) by {
      if InField(Address(g), f) {
        FieldsDisjoint(f, g, Address(g));
      }
    }
    if Width(g) == 2 && InField(Address(g) + 1, f) {
      FieldsDisjoint(f, g, Address(g) + 1);
    }
  }

  lemma StoreOwn(t: Thermometer, f: Field, v: nat)
    ensures FieldValue(Store(t, f, v, false, 0), f) == v % Modulus(f)
  {
    MergeOwn(t.registers[RegisterOf(t, f)], f, v);
  }

  /** A write to another field, or one that throws, leaves a field as it was, whether or not the two
      fields share a register. */
  lemma StoreOther(t: Thermometer, f: Field, v: nat, throws: bool, completed: nat, g: Field)
    requires throws || f != g
    ensures FieldValue(Store(t, f, v, throws, completed), g) == FieldValue(t, g)
  {
    if !throws && RegisterOf(t, f) == RegisterOf(t, g) {
      MergeOther(t.registers[RegisterOf(t, f)], f, v, g);
    }
  }

  // One call of write_config that goes through.
  datatype Write = Write(field: Field, value: nat)

  function Apply(t: Thermometer, ops: seq<Write>): (r: Thermometer)
    ensures r.select == t.select
  {
    if ops == [] then t
    else
      var front, last := ops[..|ops| - 1], ops[|ops| - 1];
      Store(Apply(t, front), last.field, last.value, false, 0)
  }

  /** After any sequence of writes a field holds the low bits of the last value written to it (by
      write i), or its initial value if none was (i == |ops|). */
  lemma {:induction false} FieldHoldsLastWrite(t: Thermometer, ops: seq<Write>, f: Field, i: nat)
    requires i <= |ops| && (i < |ops| ==> ops[i].field == f)
    requires forall j :: 0 <= j < |ops| && (i == |ops| || i < j) ==> ops[j].field != f
    ensures FieldValue(Apply(t, ops), f) == if i < |ops| then ops[i].value % Modulus(f) else FieldValue(t, f)
  {
    if ops != [] {
      var front, last := ops[..|ops| - 1], ops[|ops| - 1];
      if i == |ops| - 1 {
        StoreOwn(Apply(t, front), f, last.value);
      } else {
        FieldHoldsLastWrite(t, front, f, if i == |ops| then |front| else i);
        StoreOther(Apply(t, front), last.field, last.value, false, 0, f);
      }
    }
  }

  /** A bit of a register keeps its initial value if no write touches its field there. */
  lemma {:induction false} UntouchedBit(t: Thermometer, ops: seq<Write>, r: Byte, i: nat)
    requires i < 16
    requires forall j :: 0 <= j < |ops| ==> RegisterOf(t, ops[j].field) != r || !InField(i, ops[j].field)
    ensures Apply(t, ops).registers[r][i] == t.registers[r][i]
  {
    if ops != [] {
      UntouchedBit(t, ops[..|ops| - 1], r, i);
    }
  }

  lemma MergesCommute(w: Word16, a: Write, b: Write)
    requires a.field != b.field
    ensures Merge(Merge(w, a.field, a.value), b.field, b.value) == Merge(Merge(w, b.field, b.value), a.field, a.value)
  {
    forall i | 0 <= i < 16
      ensures !(InField(i, a.field) && InField(i, b.field))
    {
      if InField(i, a.field) && InField(i, b.field) {
        FieldsDisjoint(a.field, b.field, i);
      }
    }
  }

  /** Writes to different fields commute, in one register or in two. */
  lemma WritesCommute(t: Thermometer, a: Write, b: Write)
    requires a.field != b.field
    ensures Apply(t, [a, b]).registers == Apply(t, [b, a]).registers
  {
    TwoWrites(t, a, b);
    TwoWrites(t, b, a);
    if RegisterOf(t, a.field) == RegisterOf(t, b.field) {
      MergesCommute(t.registers[RegisterOf(t, a.field)], a, b);
    }
  }

  lemma TwoWrites(t: Thermometer, a: Write, b: Write)
    ensures Apply(t, [a, b]) == Store(Store(t, a.field, a.value, false, 0), b.field, b.value, false, 0)
  {
    var ops := [a, b];
    assert ops[..1] == [a] && ops[1] == b && [a][..0] == [];
    assert Apply(t, [a]) == Store(t, a.field, a.value, false, 0);
  }
}
