// What executing a command means for the devices: when it succeeds, the frame it sends, and what
// later commands read back.
module Effects {
  import opened Wrappers
  import opened Wire
  import opened Numbers
  import opened Tables
  import opened Codec
  import opened Calibration
  import opened Devices
  import opened Execution
  import opened VoltageSafety

  // ---- success

  function Answer(fpu: Fpu, s: State, c: Command, hw: Hardware): UartRead
    requires s.sipm.Some? && c.data != []
  {
    if c.data[0] >= |SipmReadActions()| then UartRuntimeError
    else SipmAnswer(fpu, s.sipm.value, RegisterFormat(c.data[0]), hw)
  }

  /** The device the command addresses is there and answers, behind a working multiplexer where
      there is one, and the command's arguments are acceptable to it. */
  predicate Usable(fpu: Fpu, s: State, c: Command, hw: Hardware)
    requires c.code < 11 && (c.code >= 2 ==> c.data != [])
    requires c.code in {2, 5, 6, 9, 10} ==> |c.data| >= 2
  {
    var muxed := s.mux && hw.muxGood && !hw.muxThrows;
    var works := hw.good && !hw.throws;
    match c.code
    case 0 => true
    case 1 => true
    case 2 =>
      works &&
      (match c.data[0]
       case 0 => s.gpio.Some?
       case 1 => s.hv.Some? && Accepts(s.hv.value.cal, fpu.decode(c.data[1]))
       case _ => s.lv.Some? && Accepts(s.lv.value.cal, fpu.decode(c.data[1])))
    case 3 => s.sipm.Some? && works
    case 4 => s.sipm.Some? && works && Answer(fpu, s, c, hw).UartValue?
    case 5 => muxed && c.data[1] < 2 && s.temperature.Some? && works
    case 6 => muxed && c.data[1] < 2 && s.temperature.Some? && works
    case 7 =>
      s.humidity.Some? && hw.good &&
      (c.data[0] == 0 ==> !hw.throws && s.humidity.value.numRetries > 0) && (c.data[0] == 3 ==> !hw.throws)
    case 8 => muxed
    case _ => muxed && c.data[1] < 8 && s.ltc.Some? && works
  }

  /** The guarded voltage command with a voltage out of range. */
  predicate OutOfRange(fpu: Fpu, s: State, c: Command, hw: Hardware) {
    c.code == 2 && |c.data| >= 2 && hw.good &&
    ((c.data[0] == 1 && s.hv.Some? && !Accepts(s.hv.value.cal, fpu.decode(c.data[1]))) ||
     (c.data[0] == 2 && s.lv.Some? && !Accepts(s.lv.value.cal, fpu.decode(c.data[1]))))
  }

  /** A measurement with no retries configured; whether the sensor is busy does not matter. */
  predicate Busy(s: State, c: Command, hw: Hardware) {
    c.code == 7 && c.data == [0] && s.humidity.Some? && s.humidity.value.numRetries == 0 && hw.good && !hw.throws
  }

  /** A SiPM register read that threw, or whose reply did not begin with OK. */
  predicate BadRead(fpu: Fpu, s: State, c: Command, hw: Hardware) {
    c.code == 4 && c.data != [] && s.sipm.Some? && hw.good && (hw.throws || Answer(fpu, s, c, hw).UartRuntimeError?)
  }

  /** The shape read_command guarantees, in numbers. */
  predicate Shaped(c: Command) {
    && c.code < 11 && (c.code < 2 <==> c.data == [])
    && (c.code >= 2 ==> c.data[0] < ActionCount(c.code))
    && (c.code >= 2 ==> |c.data| == if c.code in {5, 10} then 3 else if c.code in {4, 7, 8} then 1 else 2)
  }

  /** The code of the reply: success exactly if the command could be carried out, and otherwise the
      error that says why. */
  function ErrorFor(fpu: Fpu, s: State, c: Command, hw: Hardware): ErrorCode
    requires Shaped(c)
  {
    if Usable(fpu, s, c, hw) then Success
    else if OutOfRange(fpu, s, c, hw) then VoltageOutOfRange
    else if Busy(s, c, hw) then ResourceBusy
    else if BadRead(fpu, s, c, hw) then InvalidCommand
    else ResourceUnavailable
  }

  lemma SensorErrorOf(fpu: Fpu, s: State, c: Command, hw: Hardware)
    requires Shaped(c) && c.code in {5, 6, 7} && Execute(fpu, s, c, hw).1.Replies?
    ensures Execute(fpu, s, c, hw).1.data.error == ErrorFor(fpu, s, c, hw)
  {
  }

  lemma ErrorOf(fpu: Fpu, s: State, c: Command, hw: Hardware)
    requires Shaped(c) && c.code !in {5, 6, 7} && Execute(fpu, s, c, hw).1.Replies?
    ensures Execute(fpu, s, c, hw).1.data.error == ErrorFor(fpu, s, c, hw)
  {
    match c.code
    case 2 =>
    case 9 =>
    case 10 =>
    case _ =>
  }

  /** For every command read_command can build. */
  lemma ReplyError(fpu: Fpu, s: State, c: Command, hw: Hardware)
    requires WellFormed(Calvision(), c) && Execute(fpu, s, c, hw).1.Replies?
    ensures Shaped(c) && Execute(fpu, s, c, hw).1.data.error == ErrorFor(fpu, s, c, hw)
  {
    ShapeOf(c);
    if c.code in {5, 6, 7} {
      SensorErrorOf(fpu, s, c, hw);
    } else {
      ErrorOf(fpu, s, c, hw);
    }
  }

  // ---- SiPM DAC frames

  // The command nibbles of the LTC2635, by the position of the action in its table.
  function ControlNibble(action: Word): nat { if action == 0 then 1 else if action < 5 then action as nat + 3 else 0 }
  function WriteNibble(action: Word): nat { if action == 0 then 0 else if action == 1 then 3 else 2 }

  function Appended(s: State, f: Message): State
    requires s.ltc.Some?
  {
    s.(ltc := Some(s.ltc.value.(wire := s.ltc.value.wire + [f])))
  }

  lemma ControlAppends(fpu: Fpu, s: State, c: Command, hw: Hardware, f: Message)
    requires c.code == 9 && |c.data| == 2 && c.data[0] < 5 && Usable(fpu, s, c, hw)
    requires f == LtcControlFrame(ControlCode(c.data[0]), DacOf(c.data[1]))
    ensures Execute(fpu, s, c, hw).0 == Appended(s, f)
  {
    assert SipmDacControl(s, c.data, hw).0 == Appended(s, f);
  }

  lemma WriteAppends(fpu: Fpu, s: State, c: Command, hw: Hardware, f: Message)
    requires c.code == 10 && |c.data| == 3 && c.data[0] < 3 && Usable(fpu, s, c, hw)
    requires f == LtcWriteFrame(fpu, s.ltc.value.cal, WriteCode(c.data[0]), DacOf(c.data[1]), fpu.decode(c.data[2]))
    ensures Execute(fpu, s, c, hw).0 == Appended(s, f)
  {
    assert SipmDacWrite(fpu, s, c.data, hw).0 == Appended(s, f);
  }

  lemma NibblesOf(action: Word, number: Word)
    requires number < 8
    ensures action < 5 ==> LtcCode(ControlCode(action)) == ControlNibble(action)
    ensures action < 3 ==> LtcCode(WriteCode(action)) == WriteNibble(action)
    ensures DacCode(DacOf(number)) == number as nat % 4
  {
  }

  lemma ControlFrameDecodes(action: Word, number: Word) returns (f: Message)
    requires action < 5 && number < 8
    ensures f == LtcControlFrame(ControlCode(action), DacOf(number))
    ensures |f| == 3 && DecodeFrame(f) == Decoded(ControlNibble(action), number as nat % 4, 0)
  {
    var command, dac := ControlCode(action), DacOf(number);
    NibblesOf(action, number);
    LtcControlDecodes(command, dac);
    f := LtcControlFrame(command, dac);
  }

  lemma WriteFrameDecodes(fpu: Fpu, cal: Calibration, action: Word, number: Word, v: Float) returns (f: Message)
    requires action < 3 && number < 8
    ensures f == LtcWriteFrame(fpu, cal, WriteCode(action), DacOf(number), v)
    ensures |f| == 3 && DecodeFrame(f) == Decoded(WriteNibble(action), number as nat % 4, CodeOf(fpu, cal, v) % 0x1000)
  {
    var command, dac := WriteCode(action), DacOf(number);
    NibblesOf(action, number);
    LtcFrameDecodes(fpu, cal, command, dac, v);
    f := LtcWriteFrame(fpu, cal, command, dac, v);
  }

  /** A successful SiPM DAC command adds one frame, from which the chip reads the action and the
      DAC; numbers 4 to 7 address the chip behind the other channel.  A write also carries the
      converted voltage, in range or not. */
  lemma SipmDacFrame(fpu: Fpu, s: State, c: Command, hw: Hardware) returns (f: Message)
    requires c.code in {9, 10} && |c.data| == (if c.code == 9 then 2 else 3)
    requires c.data[0] < ActionCount(c.code) && Usable(fpu, s, c, hw)
    ensures Execute(fpu, s, c, hw).0 == Appended(s, f) && |f| == 3
    ensures c.code == 9 ==> DecodeFrame(f) == Decoded(ControlNibble(c.data[0]), c.data[1] as nat % 4, 0)
    ensures c.code == 10 ==>
      DecodeFrame(f) == Decoded(WriteNibble(c.data[0]), c.data[1] as nat % 4,
                                CodeOf(fpu, s.ltc.value.cal, fpu.decode(c.data[2])) % 0x1000)
  {
    if c.code == 9 {
      f := ControlFrameDecodes(c.data[0], c.data[1]);
      ControlAppends(fpu, s, c, hw, f);
    } else {
      f := WriteFrameDecodes(fpu, s.ltc.value.cal, c.data[0], c.data[1], fpu.decode(c.data[2]));
      WriteAppends(fpu, s, c, hw, f);
    }
  }

  // ---- remembered readings

  /** A measurement that went through. */
  predicate Measures(e: Event) {
    e.command.code == 7 && e.command.data == [0] && e.hardware.good && !e.hardware.throws
  }

  /** The raw words of the last readings. */
  function Readings(s: State): (Word, Word)
    requires s.humidity.Some?
  {
    (s.humidity.value.humidity, s.humidity.value.temperature)
  }

  /** What the two 20-bit numbers of an answer become. */
  function Scaled(fpu: Fpu, humidity: nat, temperature: nat): (Word, Word) {
    (fpu.encode(Aht10.Percent(fpu.round, humidity)), fpu.encode(Aht10.Celsius(fpu.round, temperature)))
  }

  function ReadingsOf(fpu: Fpu, a: Aht10.Answer): (Word, Word) {
    Scaled(fpu, Aht10.RawHumidity(a), Aht10.RawTemperature(a))
  }

  /** After any history the sensor object holds the readings of the last measurement that went
      through (event i), or the initial ones if none did (i == |history|) or no retries are
      configured. */
  lemma {:induction false} LastMeasurement(fpu: Fpu, s: State, history: seq<Event>, i: nat)
    requires s.humidity.Some? && i <= |history| && (i < |history| ==> Measures(history[i]))
    requires forall j :: 0 <= j < |history| && (i == |history| || i < j) ==> !Measures(history[j])
    ensures After(fpu, s, history).humidity.Some?
    ensures After(fpu, s, history).humidity.value.numRetries == s.humidity.value.numRetries
    ensures Readings(After(fpu, s, history)) ==
            if i < |history| && s.humidity.value.numRetries > 0 then ReadingsOf(fpu, history[i].hardware.answer)
            else Readings(s)
    decreases |history|
  {
    if history != [] {
      StepReadings(fpu, s, history[0]);
      var s1 := Execute(fpu, s, history[0].command, history[0].hardware).0;
      LastMeasurement(fpu, s1, history[1..], if i == 0 then |history| - 1 else i - 1);
    }
  }

  lemma StepReadings(fpu: Fpu, s: State, e: Event)
    requires s.humidity.Some?
    ensures var s' := Execute(fpu, s, e.command, e.hardware).0;
      && s'.humidity.Some? && s'.humidity.value.numRetries == s.humidity.value.numRetries
      && Readings(s') == if Measures(e) && s.humidity.value.numRetries > 0 then ReadingsOf(fpu, e.hardware.answer)
                         else Readings(s)
  {
  }

  /** So when the last answer carried humidity h and temperature t, in any state and busy or not, a
      humidity read returns the float of a percentage from which h is recovered, and a temperature
      read that of a number of degrees from which t is; for the middle of the range, 50 of either. */
  lemma ReadsLastMeasurement(fpu: Fpu, s: State, history: seq<Event>, i: nat, hw: Hardware, busy: Byte, h: nat, t: nat)
    returns (percent: real, celsius: real)
    requires s.humidity.Some? && s.humidity.value.numRetries > 0
    requires i < |history| && Measures(history[i]) && hw.good
    requires forall j :: i < j < |history| ==> !Measures(history[j])
    requires h < 0x10_0000 && t < 0x10_0000 && history[i].hardware.answer == Aht10.Carrying(busy, h, t)
    ensures var s' := After(fpu, s, history);
      && Execute(fpu, s', Command(7, [1]), hw) == (s', Returns(fpu.encode(percent)))
      && Execute(fpu, s', Command(7, [2]), hw) == (s', Returns(fpu.encode(celsius)))
    ensures Rounds(fpu.round) ==> Aht10.Reads(percent, h, celsius, t)
    ensures h == 0x8_0000 ==> percent == fpu.round(50.0)
    ensures t == 0x8_0000 ==> celsius == fpu.round(50.0)
  {
    LastMeasurement(fpu, s, history, i);
    Aht10.FieldsOfAnswer(busy, h, t);
    percent, celsius := Aht10.Percent(fpu.round, h), Aht10.Celsius(fpu.round, t);
    if Rounds(fpu.round) {
      Aht10.ReadingsRecover(fpu.round, h, t);
    }
  }

  // ---- the fields of the temperature sensor

  predicate Sets(data: seq<Word>, hw: Hardware, f: Tmp112.Field) {
    && |data| == 3 && data[0] < 7 && FieldOf(data[0]) == f && data[1] < 2
    && hw.muxGood && !hw.muxThrows && hw.good && !hw.throws
  }

  /** A write of this field that went through. */
  predicate Configures(e: Event, f: Tmp112.Field) {
    e.command.code == 5 && Sets(e.command.data, e.hardware, f)
  }

  /** A parameter in a field: two-bit fields keep its lowest two bits, flags whether it is 0. */
  function Fitted(f: Tmp112.Field, raw: Word): nat {
    if f.FaultQueue? || f.Conversion? then raw % 4 else if raw == 0 then 0 else 1
  }

  lemma FittedByte(f: Tmp112.Field, raw: Word)
    ensures FieldByte(f, raw) % Tmp112.Modulus(f) == Fitted(f, raw)
  {
    if Tmp112.Width(f) == 2 {
      LowTwo(raw);
    }
  }

  lemma LowTwo(raw: nat)
    ensures raw % 0x100 % 4 == raw % 4
  {
    var q, r := raw / 0x100, raw % 0x100;
    assert raw == (q * 64 + r / 4) * 4 + r % 4;
  }

  /** After any history a field of the sensor holds the parameter of the last write to it that went
      through (event i), fitted to its width, or its initial value if none did (i == |history|);
      whichever registers the sensor takes the field positions for. */
  lemma {:induction false} LastFieldWrite(fpu: Fpu, s: State, history: seq<Event>, f: Tmp112.Field, i: nat)
    requires s.mux && s.temperature.Some? && i <= |history| && (i < |history| ==> Configures(history[i], f))
    requires forall j :: 0 <= j < |history| && (i == |history| || i < j) ==> !Configures(history[j], f)
    ensures After(fpu, s, history).temperature.Some?
    ensures Tmp112.FieldValue(After(fpu, s, history).temperature.value, f) ==
            if i < |history| then Fitted(f, history[i].command.data[2])
            else Tmp112.FieldValue(s.temperature.value, f)
    decreases |history|
  {
    if history != [] {
      StepField(fpu, s, history[0], f);
      var s1 := Execute(fpu, s, history[0].command, history[0].hardware).0;
      LastFieldWrite(fpu, s1, history[1..], f, if i == 0 then |history| - 1 else i - 1);
    }
  }

  lemma StepField(fpu: Fpu, s: State, e: Event, f: Tmp112.Field)
    requires s.mux && s.temperature.Some?
    ensures var s' := Execute(fpu, s, e.command, e.hardware).0;
      && s'.mux && s'.temperature.Some?
      && Tmp112.FieldValue(s'.temperature.value, f) ==
         if Configures(e, f) then Fitted(f, e.command.data[2])
         else Tmp112.FieldValue(s.temperature.value, f)
  {
    var c := e.command;
    if c.code == 5 && c.data != [] && c.data[0] < 7 {
      ConfigureField(s, c.data, e.hardware, f);
    } else {
      KeepsRegisters(fpu, s, c, e.hardware);
    }
  }

  lemma KeepsRegisters(fpu: Fpu, s: State, c: Command, hw: Hardware)
    requires s.temperature.Some? && !(c.code == 5 && c.data != [] && c.data[0] < 7)
    ensures var s' := Execute(fpu, s, c, hw).0;
      && s'.mux == s.mux && s'.temperature.Some?
      && s'.temperature.value.select == s.temperature.value.select
      && s'.temperature.value.registers == s.temperature.value.registers
  {
  }

  lemma ConfigureField(s: State, data: seq<Word>, hw: Hardware, f: Tmp112.Field)
    requires s.mux && s.temperature.Some? && data != [] && data[0] < 7
    ensures var s' := TemperatureControl(s, data, hw).0;
      && s'.mux && s'.temperature.Some?
      && Tmp112.FieldValue(s'.temperature.value, f) ==
         if Sets(data, hw, f) then Fitted(f, data[2])
         else Tmp112.FieldValue(s.temperature.value, f)
  {
    if |data| == 3 {
      StoreFitted(s.temperature.value, FieldOf(data[0]), data[2], hw, f);
    }
  }

  lemma StoreFitted(t: Tmp112.Thermometer, g: Tmp112.Field, raw: Word, hw: Hardware, f: Tmp112.Field)
    ensures Tmp112.FieldValue(Tmp112.Store(t, g, FieldByte(g, raw), hw.throws, hw.completed), f) ==
            if g == f && !hw.throws then Fitted(f, raw) else Tmp112.FieldValue(t, f)
  {
    if g == f && !hw.throws {
      FittedByte(f, raw);
      Tmp112.StoreOwn(t, f, FieldByte(f, raw));
    } else {
      Tmp112.StoreOther(t, g, FieldByte(g, raw), hw.throws, hw.completed, f);
    }
  }

  // ---- the high voltage switch

  /** An enable or disable of the high voltage that went through. */
  predicate Switches(e: Event) {
    && e.command.code == 2 && |e.command.data| >= 2 && e.command.data[0] == 0
    && e.hardware.good && !e.hardware.throws
  }

  /** The high voltage line is as the last switch command that went through left it. */
  lemma {:induction false} LastSwitch(fpu: Fpu, s: State, history: seq<Event>, i: nat)
    requires s.gpio.Some? && i <= |history| && (i < |history| ==> Switches(history[i]))
    requires forall j :: 0 <= j < |history| && (i == |history| || i < j) ==> !Switches(history[j])
    ensures After(fpu, s, history).gpio ==
            if i < |history| then Some(history[i].command.data[1] != 0) else s.gpio
    decreases |history|
  {
    if history != [] {
      StepSwitch(fpu, s, history[0]);
      var s1 := Execute(fpu, s, history[0].command, history[0].hardware).0;
      LastSwitch(fpu, s1, history[1..], if i == 0 then |history| - 1 else i - 1);
    }
  }

  lemma StepSwitch(fpu: Fpu, s: State, e: Event)
    requires s.gpio.Some?
    ensures Execute(fpu, s, e.command, e.hardware).0.gpio ==
            if Switches(e) then Some(e.command.data[1] != 0) else s.gpio
  {
  }
}
