// What a line of text does to the devices: every device and action of the tables by its name, with
// the state and the messages it leads to written out.
module Commands {
  import opened Wrappers
  import opened Wire
  import opened Text
  import opened Numbers
  import opened Tables
  import opened Codec
  import opened Calibration
  import opened Devices
  import opened Execution
  import opened VoltageSafety
  import opened Effects
  import opened SipmRegisters

  /** The tokens of a line, made into a command and executed; None if there is no command. */
  ghost function Typed(stof: FloatReader, fpu: Fpu, s: State, hw: Hardware,
                       tokens: seq<string>): Option<(State, Outcome)> {
    CalvisionTables();
    match MakeCommand(Calvision(), stof, tokens)
    case Made(c) => Some(Execute(fpu, s, c, hw))
    case _ => None
  }

  lemma MadeBy(tb: Tables, stof: FloatReader, tokens: seq<string>, d: nat, a: nat, words: seq<Word>)
    requires Indexed(tb) && Named(tb) && d < |tb| && tb[d].Grouped? && a < |tb[d].actions| && |tokens| >= 2
    requires tokens[0] == tb[d].name && tokens[1] == tb[d].actions[a].name
    requires Reads(stof, tb[d].actions[a].params, tokens[2..], words)
    ensures MakeCommand(tb, stof, tokens) == Made(Command(d, [a] + words))
  {
    var c := Command(d, [a] + words);
    assert c.data[1..] == words;
    MakeCommandSpells(tb, stof, tokens, c);
  }

  /** The tokens naming action a of device d, with the texts of its words, make its command. */
  lemma Names(stof: FloatReader, fpu: Fpu, s: State, hw: Hardware, tokens: seq<string>, d: nat, a: nat,
              words: seq<Word>)
    requires d < |Calvision()| && Calvision()[d].Grouped? && a < |Calvision()[d].actions| && |tokens| >= 2
    requires tokens[0] == Calvision()[d].name && tokens[1] == Calvision()[d].actions[a].name
    requires Reads(stof, Calvision()[d].actions[a].params, tokens[2..], words)
    ensures Typed(stof, fpu, s, hw, tokens) == Some(Execute(fpu, s, Command(d, [a] + words), hw))
  {
    CalvisionTables();
    MadeBy(Calvision(), stof, tokens, d, a, words);
  }

  // ---- Quit and NOpt

  lemma BareLine(stof: FloatReader, fpu: Fpu, s: State, hw: Hardware, name: string, d: nat)
    requires d < 2 && name == Calvision()[d].name
    ensures Typed(stof, fpu, s, hw, [name]) == Some(Execute(fpu, s, Command(d, []), hw))
  {
    CalvisionTables();
    MakeCommandSpells(Calvision(), stof, [name], Command(d, []));
  }

  lemma BareLines(stof: FloatReader, fpu: Fpu, s: State, hw: Hardware)
    ensures Typed(stof, fpu, s, hw, ["NOpt"]) == Some((s, Done()))
    ensures Typed(stof, fpu, s, hw, ["Quit"]) == Some((s.(quit := true), Done()))
  {
    BareLine(stof, fpu, s, hw, "NOpt", 0);
    BareLine(stof, fpu, s, hw, "Quit", 1);
  }

  // ---- VoltageControl

  function VoltageName(a: nat): string {
    if a == 0 then "HighVoltageEnable" else if a == 1 then "HighVoltageSet" else "LowVoltageSet"
  }

  lemma VoltageTokens(stof: FloatReader, fpu: Fpu, s: State, hw: Hardware, name: string, x: string, a: nat, w: Word)
    requires a < 3 && name == VoltageName(a)
    requires if a == 0 then ReadToRaw(stof, Bool, x) == Some(w) else stof(x) == Some(w)
    ensures Typed(stof, fpu, s, hw, ["VoltageControl", name, x]) == Some(Execute(fpu, s, Command(2, [a, w]), hw))
  {
    var tokens := ["VoltageControl", name, x];
    assert tokens[2..] == [x] && [a] + [w] == [a, w];
    Names(stof, fpu, s, hw, tokens, 2, a, [w]);
  }

  lemma SwitchExecutes(fpu: Fpu, s: State, hw: Hardware, on: bool)
    requires s.gpio.Some? && hw.good && !hw.throws
    ensures Execute(fpu, s, Command(2, [0, if on then 1 else 0]), hw) == (s.(gpio := Some(on)), Done())
  {
  }

  /** The switch follows the text: on for one that begins with the letters true, off for another. */
  lemma SwitchLine(stof: FloatReader, fpu: Fpu, s: State, hw: Hardware, name: string, x: string)
    requires name == "HighVoltageEnable" && Solid(x) && s.gpio.Some? && hw.good && !hw.throws
    ensures Typed(stof, fpu, s, hw, ["VoltageControl", name, x]) == Some((s.(gpio := Some("true" <= x)), Done()))
  {
    BoolOfSolid(stof, x);
    VoltageTokens(stof, fpu, s, hw, name, x, 0, if "true" <= x then 1 else 0);
    SwitchExecutes(fpu, s, hw, "true" <= x);
  }

  lemma BoolOfSolid(stof: FloatReader, x: string)
    requires Solid(x)
    ensures ReadToRaw(stof, Bool, x) == Some(if "true" <= x then 1 else 0)
  {
    BoolRead(stof, x);
    if "true" <= x {
      assert SaysTrue(x, "", x[4..]);
    } else {
      forall gap, t
        ensures !SaysTrue(x, gap, t)
      {
        assert gap != "" && x == gap + "true" + t ==> x[0] == gap[0];
      }
    }
  }

  function WithChip(s: State, rail: Rail, chip: Chip): State {
    if rail == High then s.(hv := Some(chip)) else s.(lv := Some(chip))
  }

  lemma RailExecutes(fpu: Fpu, s: State, hw: Hardware, rail: Rail, a: nat, w: Word, v: real)
    requires a == (if rail == High then 1 else 2) && fpu.decode(w) == Finite(v) && hw.good && !hw.throws
    requires ChipOf(s, rail).Some?
    ensures var chip := ChipOf(s, rail).value;
      Execute(fpu, s, Command(2, [a, w]), hw) ==
      if VoltageInRange(chip.cal, v)
      then (WithChip(s, rail, chip.(wire := chip.wire + [McpFrame(fpu, chip.cal, Finite(v))])), Done())
      else (s, Fails(VoltageOutOfRange))
  {
  }

  /** A voltage in range adds to its rail, and to no other, one frame that carries its code; one out
      of range is refused. */
  lemma RailLine(stof: FloatReader, fpu: Fpu, s: State, hw: Hardware, rail: Rail, x: string, w: Word, v: real)
    returns (f: Message)
    requires stof(x) == Some(w) && fpu.decode(w) == Finite(v) && Sound(fpu) && hw.good && !hw.throws
    requires ChipOf(s, rail).Some? && Fits(ChipOf(s, rail).value.cal)
    ensures var chip := ChipOf(s, rail).value;
      Typed(stof, fpu, s, hw, ["VoltageControl", if rail == High then "HighVoltageSet" else "LowVoltageSet", x]) ==
      Some(if VoltageInRange(chip.cal, v) then (WithChip(s, rail, chip.(wire := chip.wire + [f])), Done())
           else (s, Fails(VoltageOutOfRange)))
    ensures VoltageInRange(ChipOf(s, rail).value.cal, v) ==> Carries(fpu, ChipOf(s, rail).value.cal, f, v)
  {
    var cal := ChipOf(s, rail).value.cal;
    f := McpFrame(fpu, cal, Finite(v));
    if VoltageInRange(cal, v) {
      FrameCarries(fpu, cal, Finite(v));
    }
    var name, a: nat := if rail == High then "HighVoltageSet" else "LowVoltageSet", if rail == High then 1 else 2;
    VoltageTokens(stof, fpu, s, hw, name, x, a, w);
    RailExecutes(fpu, s, hw, rail, a, w, v);
  }

  // ---- TemperatureControl and TemperatureRead

  function FieldName(a: nat): string {
    if a == 0 then "Shutdown" else if a == 1 then "Thermostat" else if a == 2 then "Polarity"
    else if a == 3 then "FaultQueue" else if a == 4 then "OneShot" else if a == 5 then "ExtendedMode" else "Conversion"
  }

  lemma FieldTokens(stof: FloatReader, fpu: Fpu, s: State, hw: Hardware, name: string, n: string, x: string,
                    a: nat, sensor: Word, raw: Word)
    requires a < 7 && ReadToRaw(stof, Uint, n) == Some(sensor)
    requires name == FieldName(a)
    requires ReadToRaw(stof, if a == 3 || a == 6 then Uint else Bool, x) == Some(raw)
    ensures Typed(stof, fpu, s, hw, ["TemperatureControl", name, n, x]) ==
            Some(Execute(fpu, s, Command(5, [a, sensor, raw]), hw))
  {
    var tokens := ["TemperatureControl", name, n, x];
    assert tokens[2..] == [n, x] && [a] + [sensor, raw] == [a, sensor, raw];
    assert a in {0, 1, 2, 3, 4, 5, 6};
    Names(stof, fpu, s, hw, tokens, 5, a, [sensor, raw]);
  }

  /** The word with one field replaced: bit p by the flag, or bits p and p + 1 by the two lowest bits
      of the number. */
  ghost predicate FieldReplaced(before: Tmp112.Word16, after: Tmp112.Word16, p: nat, two: bool, raw: Word) {
    forall i :: 0 <= i < 16 ==>
      after[i] == if i == p then (if two then raw % 2 == 1 else raw != 0)
                  else if two && i == p + 1 then raw / 2 % 2 == 1 else before[i]
  }

  /** Two bytes with the bits of a word, the upper eight first. */
  ghost predicate Spelled(high: Byte, low: Byte, w: Tmp112.Word16) {
    forall i :: 0 <= i < 8 ==> Tmp112.BitOf(low, i) == w[i] && Tmp112.BitOf(high, i) == w[8 + i]
  }

  /** The bit position of the field each action writes. */
  function Position(a: nat): Byte
    requires a < 7
  {
    [0x8, 0x9, 0xa, 0xb, 0xf, 0x4, 0x6][a]
  }

  lemma FieldExecutes(fpu: Fpu, s: State, hw: Hardware, a: nat, sensor: Word, raw: Word)
    returns (high: Byte, low: Byte, word: Tmp112.Word16)
    requires a < 7 && sensor < 2 && s.mux && hw.muxGood && !hw.muxThrows
    requires s.temperature.Some? && hw.good && !hw.throws
    ensures var t, p := s.temperature.value, Position(a);
      && Execute(fpu, s, Command(5, [a, sensor, raw]), hw) ==
         (s.(temperature := Some(t.(wire := t.wire + [[p]] + [[p, high, low]],
                                    registers := t.registers[t.select[p] := word]))), Done())
      && FieldReplaced(t.registers[t.select[p]], word, p, a == 3 || a == 6, raw)
    ensures Spelled(high, low, word)
  {
    var t, f := s.temperature.value, FieldOf(a);
    assert a in {0, 1, 2, 3, 4, 5, 6};
    assert Tmp112.Address(f) == Position(a);
    var v := FieldByte(f, raw);
    word := Tmp112.Merge(t.registers[t.select[Position(a)]], f, v);
    MergeReplaces(t.registers[t.select[Position(a)]], a, raw);
    high, low := Tmp112.Bytes(word)[0], Tmp112.Bytes(word)[1];
    SpelledBytes(word);
    assert [Position(a)] + Tmp112.Bytes(word) == [Position(a), high, low];
  }

  lemma MergeReplaces(w: Tmp112.Word16, a: nat, raw: Word)
    requires a < 7
    ensures FieldReplaced(w, Tmp112.Merge(w, FieldOf(a), FieldByte(FieldOf(a), raw)), Position(a),
      a == 3 || a == 6, raw)
  {
    assert a in {0, 1, 2, 3, 4, 5, 6};
    LowTwo(raw);
    HalfOfLow(raw);
  }

  lemma AddEven(x: nat, k: nat)
    ensures (x + 2 * k) % 2 == x % 2 && (x + 2 * k) / 2 == x / 2 + k
  {
  }

  lemma HalfOfLow(raw: nat)
    ensures raw % 0x100 % 2 == raw % 2 && raw % 0x100 / 2 % 2 == raw / 2 % 2
  {
    var k, r := raw / 0x100, raw % 0x100;
    AddEven(r, 128 * k);
    AddEven(r / 2, 64 * k);
  }

  lemma SpelledBytes(w: Tmp112.Word16)
    ensures Spelled(Tmp112.Bytes(w)[0], Tmp112.Bytes(w)[1], w)
  {
    forall i | 0 <= i < 8
      ensures Tmp112.BitOf(Tmp112.Bytes(w)[1], i) == w[i] && Tmp112.BitOf(Tmp112.Bytes(w)[0], i) == w[8 + i]
    {
      Tmp112.BytesHoldBits(w, i);
      Tmp112.BytesHoldBits(w, 8 + i);
    }
  }

  /** A line for a field of the temperature sensor: the messages sent, and the register they change. */
  lemma FieldLine(stof: FloatReader, fpu: Fpu, s: State, hw: Hardware, name: string, n: string, x: string,
                  a: nat, sensor: Word, raw: Word)
    returns (high: Byte, low: Byte, word: Tmp112.Word16)
    requires a < 7 && ReadToRaw(stof, Uint, n) == Some(sensor)
    requires name == FieldName(a)
    requires ReadToRaw(stof, if a == 3 || a == 6 then Uint else Bool, x) == Some(raw)
    requires sensor < 2 && s.mux && hw.muxGood && !hw.muxThrows && s.temperature.Some? && hw.good && !hw.throws
    ensures var t, p := s.temperature.value, Position(a);
      && Typed(stof, fpu, s, hw, ["TemperatureControl", name, n, x]) ==
         Some((s.(temperature := Some(t.(wire := t.wire + [[p]] + [[p, high, low]],
                                         registers := t.registers[t.select[p] := word]))), Done()))
      && FieldReplaced(t.registers[t.select[p]], word, p, a == 3 || a == 6, raw)
    ensures Spelled(high, low, word)
  {
    FieldTokens(stof, fpu, s, hw, name, n, x, a, sensor, raw);
    high, low, word := FieldExecutes(fpu, s, hw, a, sensor, raw);
  }

  lemma TemperatureTokens(stof: FloatReader, fpu: Fpu, s: State, hw: Hardware, n: string, sensor: Word)
    requires ReadToRaw(stof, Uint, n) == Some(sensor)
    ensures Typed(stof, fpu, s, hw, ["TemperatureRead", "Read", n])
         == Some(Execute(fpu, s, Command(6, [0, sensor]), hw))
  {
    var tokens := ["TemperatureRead", "Read", n];
    assert tokens[2..] == [n] && [0] + [sensor] == [0, sensor];
    Names(stof, fpu, s, hw, tokens, 6, 0, [sensor]);
  }

  /** A line reading the temperature asks for register 0 and returns the word of the reading. */
  lemma TemperatureLine(stof: FloatReader, fpu: Fpu, s: State, hw: Hardware, n: string, sensor: Word)
    requires ReadToRaw(stof, Uint, n) == Some(sensor) && sensor < 2
    requires s.mux && hw.muxGood && !hw.muxThrows && s.temperature.Some? && hw.good && !hw.throws
    ensures var t := s.temperature.value;
      Typed(stof, fpu, s, hw, ["TemperatureRead", "Read", n]) ==
      Some((s.(temperature := Some(t.(wire := t.wire + [[0x00]]))), Returns(hw.word)))
  {
    TemperatureTokens(stof, fpu, s, hw, n, sensor);
    assert TemperatureRead(s, [0, sensor], hw).1 == Returns(hw.word);
  }

  // ---- HumidityControl and MuxControl

  lemma PlainTokens(stof: FloatReader, fpu: Fpu, s: State, hw: Hardware, device: string, name: string, d: nat, a: nat)
    requires 7 <= d <= 8 && a < |Calvision()[d].actions|
    requires device == Calvision()[d].name && name == Calvision()[d].actions[a].name
    ensures Typed(stof, fpu, s, hw, [device, name]) == Some(Execute(fpu, s, Command(d, [a]), hw))
  {
    var tokens := [device, name];
    assert tokens[2..] == [] && [a] + [] == [a];
    Names(stof, fpu, s, hw, tokens, d, a, []);
  }

  function HumidityName(a: nat): string {
    if a == 0 then "RequestRead" else if a == 1 then "ReadHumidity" else if a == 2 then "ReadTemperature"
    else "SoftReset"
  }

  lemma HumidityTokens(stof: FloatReader, fpu: Fpu, s: State, hw: Hardware, name: string, a: nat)
    requires a < 4 && name == HumidityName(a)
    ensures Typed(stof, fpu, s, hw, ["HumidityControl", name]) == Some(Execute(fpu, s, Command(7, [a]), hw))
  {
    assert a in {0, 1, 2, 3};
    PlainTokens(stof, fpu, s, hw, "HumidityControl", name, 7, a);
  }

  /** What the four actions of the humidity sensor should do: measuring and resetting send their
      messages, and reading returns what is held. */
  function HumidityResult(fpu: Fpu, s: State, hw: Hardware, name: string): (State, Outcome)
    requires s.humidity.Some?
  {
    var h := s.humidity.value;
    if name == "RequestRead" then
      (s.(humidity := Some(Aht10.Taken(fpu, h.(wire := h.wire + [[0xac, 0x33, 0x00]]), hw.answer))),
       if h.numRetries == 0 then Fails(ResourceBusy) else Done())
    else if name == "ReadHumidity" then (s, Returns(h.humidity))
    else if name == "ReadTemperature" then (s, Returns(h.temperature))
    else (s.(humidity := Some(h.(wire := h.wire + [[0xba]]))), Done())
  }

  lemma HumidityExecutes(fpu: Fpu, s: State, hw: Hardware, name: string, a: nat)
    requires s.humidity.Some? && hw.good && !hw.throws
    requires a < 4 && name == HumidityName(a)
    ensures Execute(fpu, s, Command(7, [a]), hw) == HumidityResult(fpu, s, hw, name)
  {
    assert a in {0, 1, 2, 3};
  }

  lemma HumidityLine(stof: FloatReader, fpu: Fpu, s: State, hw: Hardware, name: string)
    requires s.humidity.Some? && hw.good && !hw.throws
    requires name in {"RequestRead", "ReadHumidity", "ReadTemperature", "SoftReset"}
    ensures Typed(stof, fpu, s, hw, ["HumidityControl", name]) == Some(HumidityResult(fpu, s, hw, name))
  {
    var a: nat := if name == "RequestRead" then 0 else if name == "ReadHumidity" then 1
                  else if name == "ReadTemperature" then 2 else 3;
    HumidityTokens(stof, fpu, s, hw, name, a);
    HumidityExecutes(fpu, s, hw, name, a);
  }

  lemma MuxLine(stof: FloatReader, fpu: Fpu, s: State, hw: Hardware, name: string)
    requires name in {"Left", "Right"} && s.mux && hw.muxGood && !hw.muxThrows
    ensures Typed(stof, fpu, s, hw, ["MuxControl", name]) == Some((s, Done()))
  {
    PlainTokens(stof, fpu, s, hw, "MuxControl", name, 8, if name == "Left" then 0 else 1);
  }

  // ---- SipmDacControl and SipmDacWrite

  /** The upper four bits of the first byte of a frame, by the name of the action. */
  function DacNibble(name: string): Byte {
    if name == "UpdateRegister" then 0x1
    else if name == "PowerDownRegister" then 0x4
    else if name == "PowerDownChip" then 0x5
    else if name == "SelectInternalReference" then 0x6
    else if name == "SelectExternalReference" then 0x7
    else if name == "WriteUpdate" then 0x3
    else if name == "WriteUpdateAll" then 0x2
    else 0x0
  }

  function DacControlName(a: nat): string {
    if a == 0 then "UpdateRegister" else if a == 1 then "PowerDownRegister" else if a == 2 then "PowerDownChip"
    else if a == 3 then "SelectInternalReference" else "SelectExternalReference"
  }

  lemma DacControlTokens(stof: FloatReader, fpu: Fpu, s: State, hw: Hardware, name: string, n: string,
                         a: nat, number: Word)
    requires ReadToRaw(stof, Uint, n) == Some(number)
    requires a < 5 && name == DacControlName(a)
    ensures Typed(stof, fpu, s, hw, ["SipmDacControl", name, n]) == Some(Execute(fpu, s, Command(9, [a, number]), hw))
  {
    var tokens := ["SipmDacControl", name, n];
    assert tokens[2..] == [n] && [a] + [number] == [a, number];
    Names(stof, fpu, s, hw, tokens, 9, a, [number]);
  }

  function DacWriteName(a: nat): string {
    if a == 0 then "Write" else if a == 1 then "WriteUpdate" else "WriteUpdateAll"
  }

  lemma DacWriteTokens(stof: FloatReader, fpu: Fpu, s: State, hw: Hardware, name: string, n: string, x: string,
                       a: nat, number: Word, w: Word)
    requires ReadToRaw(stof, Uint, n) == Some(number) && stof(x) == Some(w)
    requires a < 3 && name == DacWriteName(a)
    ensures Typed(stof, fpu, s, hw, ["SipmDacWrite", name, n, x]) ==
            Some(Execute(fpu, s, Command(10, [a, number, w]), hw))
  {
    var tokens := ["SipmDacWrite", name, n, x];
    assert tokens[2..] == [n, x] && [a] + [number, w] == [a, number, w];
    Names(stof, fpu, s, hw, tokens, 10, a, [number, w]);
  }

  /** A control line sends one frame: the action and the DAC, and nothing else. */
  lemma DacControlLine(stof: FloatReader, fpu: Fpu, s: State, hw: Hardware, name: string, n: string, a: nat,
                       number: Word)
    requires ReadToRaw(stof, Uint, n) == Some(number) && number < 8
    requires a < 5 && name == DacControlName(a)
    requires s.mux && hw.muxGood && !hw.muxThrows && s.ltc.Some? && hw.good && !hw.throws
    ensures Typed(stof, fpu, s, hw, ["SipmDacControl", name, n]) ==
            Some((Appended(s, [DacNibble(name) * 0x10 + number % 4, 0x00, 0x00]), Done()))
  {
    DacControlTokens(stof, fpu, s, hw, name, n, a, number);
    DacControlExecutes(fpu, s, hw, name, a, number);
  }

  lemma DacControlExecutes(fpu: Fpu, s: State, hw: Hardware, name: string, a: nat, number: Word)
    requires number < 8 && a < 5 && name == DacControlName(a)
    requires s.mux && hw.muxGood && !hw.muxThrows && s.ltc.Some? && hw.good && !hw.throws
    ensures Execute(fpu, s, Command(9, [a, number]), hw) ==
            (Appended(s, [DacNibble(name) * 0x10 + number % 4, 0x00, 0x00]), Done())
  {
    assert a in {0, 1, 2, 3, 4};
    NibblesOf(a, number);
  }

  /** A write line sends one frame: the action, the DAC, and the converted voltage in the upper 12
      bits, whole where it fits them. */
  lemma DacWriteLine(stof: FloatReader, fpu: Fpu, s: State, hw: Hardware, name: string, n: string, x: string,
                     a: nat, number: Word, w: Word)
    returns (high: Byte, low: Byte)
    requires ReadToRaw(stof, Uint, n) == Some(number) && number < 8 && stof(x) == Some(w)
    requires a < 3 && name == DacWriteName(a)
    requires s.mux && hw.muxGood && !hw.muxThrows && s.ltc.Some? && hw.good && !hw.throws
    ensures Typed(stof, fpu, s, hw, ["SipmDacWrite", name, n, x]) ==
            Some((Appended(s, [DacNibble(name) * 0x10 + number % 4, high, low]), Done()))
    ensures Converted(fpu, s.ltc.value.cal, fpu.decode(w), high, low)
  {
    high, low := PackedVoltage(fpu, s.ltc.value.cal, fpu.decode(w));
    assert Typed(stof, fpu, s, hw, ["SipmDacWrite", name, n, x]) ==
           Some((Appended(s, [DacNibble(name) * 0x10 + number % 4, high, low]), Done())) by {
      DacWriteTokens(stof, fpu, s, hw, name, n, x, a, number, w);
      DacWriteExecutes(fpu, s, hw, name, a, number, w);
    }
  }

  /** Two bytes holding a voltage of the calibrated range as its code, and the lower 12 bits of what
      the hardware makes of a float that is no number, or of a division by 0. */
  ghost predicate Converted(fpu: Fpu, cal: Calibration, v: Float, high: Byte, low: Byte) {
    && low % 0x10 == 0
    && (Sound(fpu) && Fits(cal) && Accepts(cal, v) ==>
          fpu.round(cal.vMax - cal.vMin) != 0.0 && Unpacked(high, low) == VoltageToDac(fpu.round, cal, v.value))
    && (!v.Finite? || fpu.round(cal.vMax - cal.vMin) == 0.0 ==>
          Unpacked(high, low) == fpu.toU16(NonFinite) % 0x1000)
  }

  lemma CodeCases(fpu: Fpu, cal: Calibration, v: Float)
    ensures Sound(fpu) && Fits(cal) && Accepts(cal, v) ==>
              && fpu.round(cal.vMax - cal.vMin) != 0.0
              && CodeOf(fpu, cal, v) % 0x1000 == VoltageToDac(fpu.round, cal, v.value)
    ensures !v.Finite? || fpu.round(cal.vMax - cal.vMin) == 0.0 ==> CodeOf(fpu, cal, v) == fpu.toU16(NonFinite)
  {
    if Sound(fpu) && Fits(cal) && Accepts(cal, v) {
      AcceptedCode(fpu, cal, v);
    }
  }

  lemma BytesOf(code: Half) returns (high: Byte, low: Byte)
    ensures Packed(code) == [high, low] && Unpacked(high, low) == code % 0x1000 && low % 0x10 == 0
  {
    high, low := Packed(code)[0], Packed(code)[1];
    UnpackedPacked(code);
  }

  lemma PackedVoltage(fpu: Fpu, cal: Calibration, v: Float) returns (high: Byte, low: Byte)
    ensures Packed(CodeOf(fpu, cal, v)) == [high, low]
    ensures Converted(fpu, cal, v, high, low)
  {
    high, low := BytesOf(CodeOf(fpu, cal, v));
    CodeCases(fpu, cal, v);
  }

  lemma DacWriteExecutes(fpu: Fpu, s: State, hw: Hardware, name: string, a: nat, number: Word, w: Word)
    requires number < 8 && a < 3 && name == DacWriteName(a)
    requires s.mux && hw.muxGood && !hw.muxThrows && s.ltc.Some? && hw.good && !hw.throws
    ensures var code := Packed(CodeOf(fpu, s.ltc.value.cal, fpu.decode(w)));
      Execute(fpu, s, Command(10, [a, number, w]), hw) ==
      (Appended(s, [DacNibble(name) * 0x10 + number % 4, code[0], code[1]]), Done())
  {
    assert a in {0, 1, 2};
    NibblesOf(a, number);
    var code := Packed(CodeOf(fpu, s.ltc.value.cal, fpu.decode(w)));
    var first := DacNibble(name) * 0x10 + number % 4;
    assert [first] + code == [first, code[0], code[1]];
  }

  // ---- SipmControlRead and SipmControlWrite

  lemma RegisterTokens(stof: FloatReader, fpu: Fpu, s: State, hw: Hardware, name: string, a: nat)
    requires a < |SipmReadActions()| && name == SipmReadActions()[a].name
    ensures Typed(stof, fpu, s, hw, ["SipmControlRead", name]) == Some(Execute(fpu, s, Command(4, [a]), hw))
  {
    var tokens := ["SipmControlRead", name];
    assert tokens[2..] == [] && [a] + [] == [a];
    Names(stof, fpu, s, hw, tokens, 4, a, []);
  }

  /** A line reading a register over I2C returns its four bytes, a Bool register's as 0 or 1. */
  lemma RegisterLine(stof: FloatReader, fpu: Fpu, s: State, hw: Hardware, name: string, a: nat)
    requires a < |SipmReadActions()| && name == Readable()[a].name
    requires s.sipm == Some(I2cLink) && hw.good && !hw.throws
    ensures Typed(stof, fpu, s, hw, ["SipmControlRead", name]) ==
            Some((s, Returns(if Readable()[a].format != Bool then hw.word
                             else if hw.word == 0 then 0 else 1)))
  {
    ReadsMatch(a);
    RegisterTokens(stof, fpu, s, hw, name, a);
    RegisterReadI2c(fpu, s, Command(4, [a]), hw);
  }

  lemma RegisterWriteTokens(stof: FloatReader, fpu: Fpu, s: State, hw: Hardware, name: string, x: string, a: nat,
                            w: Word)
    requires a < |SipmWriteActions()|
    requires name == SipmWriteActions()[a].name && ReadToRaw(stof, SipmWriteActions()[a].params[0], x) == Some(w)
    ensures Typed(stof, fpu, s, hw, ["SipmControlWrite", name, x]) == Some(Execute(fpu, s, Command(3, [a, w]), hw))
  {
    var tokens := ["SipmControlWrite", name, x];
    assert tokens[2..] == [x] && [a] + [w] == [a, w];
    Names(stof, fpu, s, hw, tokens, 3, a, [w]);
  }

  /** A line writing a register takes a text of the register's format. */
  lemma RegisterWriteLine(stof: FloatReader, fpu: Fpu, s: State, hw: Hardware, name: string, x: string, a: nat, w: Word)
    requires a < |SipmWriteActions()| && name == Writable()[a].name
    requires ReadToRaw(stof, Writable()[a].format, x) == Some(w)
    requires s.sipm.Some? && hw.good && !hw.throws
    ensures Typed(stof, fpu, s, hw, ["SipmControlWrite", name, x]) == Some((s, Done()))
  {
    WritesMatch(a);
    RegisterWriteTokens(stof, fpu, s, hw, name, x, a, w);
  }
}
