// What a command that fails leaves behind.
module Failures {
  import opened Wrappers
  import opened Wire
  import opened Codec
  import opened Devices
  import opened Execution

  function Silent(chip: Option<Chip>): Option<Chip> {
    if chip.Some? then Some(chip.value.(wire := [])) else None
  }

  /** Everything but the messages sent: lines, calibrations, registers, readings. */
  function Settings(s: State): State {
    s.(hv := Silent(s.hv), lv := Silent(s.lv), ltc := Silent(s.ltc),
       temperature := if s.temperature.Some? then Some(s.temperature.value.(wire := [])) else None,
       humidity := if s.humidity.Some? then Some(s.humidity.value.(wire := [])) else None)
  }

  function ChipWire(chip: Option<Chip>): seq<Message> { if chip.Some? then chip.value.wire else [] }

  function TemperatureWire(s: State): seq<Message> { if s.temperature.Some? then s.temperature.value.wire else [] }

  function HumidityWire(s: State): seq<Message> { if s.humidity.Some? then s.humidity.value.wire else [] }

  predicate InTurn(first: seq<Message>, second: seq<Message>, third: seq<Message>) { first <= second <= third }

  /** Every bus has seen what it had before, and no more than the last state has. */
  predicate Between(before: State, s: State, after: State) {
    && InTurn(ChipWire(before.hv), ChipWire(s.hv), ChipWire(after.hv))
    && InTurn(ChipWire(before.lv), ChipWire(s.lv), ChipWire(after.lv))
    && InTurn(ChipWire(before.ltc), ChipWire(s.ltc), ChipWire(after.ltc))
    && InTurn(TemperatureWire(before), TemperatureWire(s), TemperatureWire(after))
    && InTurn(HumidityWire(before), HumidityWire(s), HumidityWire(after))
  }

  predicate Succeeds(r: Outcome) { r.Replies? && r.data.error == Success }

  /** The same hardware without its exceptions. */
  function Calm(hw: Hardware): Hardware { hw.(throws := false, muxThrows := false) }

  /** Only messages were sent, and none that the last state has not seen. */
  predicate Same(s: State, s': State, after: State) {
    Settings(s') == Settings(s) && Between(s, s', after)
  }

  /** The chip of a rail after a failure, and as it would be had nothing thrown. */
  predicate ChipLeft(chip: Option<Chip>, left: Option<Chip>, full: Option<Chip>) {
    Silent(left) == Silent(chip) && InTurn(ChipWire(chip), ChipWire(left), ChipWire(full))
  }

  lemma HvLeft(s: State, left: Option<Chip>, full: Option<Chip>)
    requires ChipLeft(s.hv, left, full)
    ensures Same(s, s.(hv := left), s.(hv := full))
  {
  }

  lemma LvLeft(s: State, left: Option<Chip>, full: Option<Chip>)
    requires ChipLeft(s.lv, left, full)
    ensures Same(s, s.(lv := left), s.(lv := full))
  {
  }

  lemma RailLeft(fpu: Fpu, chip: Option<Chip>, v: Float, hw: Hardware)
    requires !Succeeds(SetVoltage(fpu, chip, v, hw).1)
    ensures ChipLeft(chip, SetVoltage(fpu, chip, v, hw).0, SetVoltage(fpu, chip, v, Calm(hw)).0)
  {
  }

  lemma VoltageLeaves(fpu: Fpu, s: State, data: seq<Word>, hw: Hardware)
    requires data != [] && data[0] < 3 && !Succeeds(VoltageControl(fpu, s, data, hw).1)
    ensures Same(s, VoltageControl(fpu, s, data, hw).0, VoltageControl(fpu, s, data, Calm(hw)).0)
  {
    if data[0] > 0 && |data| >= 2 {
      var v := fpu.decode(data[1]);
      if data[0] == 1 && s.hv.Some? && hw.good {
        RailLeft(fpu, s.hv, v, hw);
        HvLeft(s, SetVoltage(fpu, s.hv, v, hw).0, SetVoltage(fpu, s.hv, v, Calm(hw)).0);
      } else if data[0] == 2 && s.lv.Some? && hw.good {
        RailLeft(fpu, s.lv, v, hw);
        LvLeft(s, SetVoltage(fpu, s.lv, v, hw).0, SetVoltage(fpu, s.lv, v, Calm(hw)).0);
      }
    }
  }

  lemma SensorLeft(s: State, left: Tmp112.Thermometer, full: Tmp112.Thermometer)
    requires s.temperature.Some? && left.(wire := []) == s.temperature.value.(wire := [])
    requires InTurn(s.temperature.value.wire, left.wire, full.wire)
    ensures Same(s, s.(temperature := Some(left)), s.(temperature := Some(full)))
  {
  }

  lemma StoreLeft(t: Tmp112.Thermometer, f: Tmp112.Field, v: nat, completed: nat)
    ensures var left, full := Tmp112.Store(t, f, v, true, completed), Tmp112.Store(t, f, v, false, completed);
      left.(wire := []) == t.(wire := []) && InTurn(t.wire, left.wire, full.wire)
  {
  }

  lemma TemperatureFails(s: State, data: seq<Word>, hw: Hardware)
    requires data != [] && data[0] < 7 && !Succeeds(TemperatureControl(s, data, hw).1)
    ensures var left, full := TemperatureControl(s, data, hw).0, TemperatureControl(s, data, Calm(hw)).0;
      if |data| != 3 || !s.mux || !hw.muxGood || data[1] >= 2 || s.temperature.None? || !hw.good then
        left == s && full == s
      else
        var t, f := s.temperature.value, FieldOf(data[0]);
        var v := FieldByte(f, data[2]);
        && full == s.(temperature := Some(Tmp112.Store(t, f, v, false, hw.completed)))
        && (if hw.muxThrows then left == s
            else left == s.(temperature := Some(Tmp112.Store(t, f, v, true, hw.completed))))
  {
  }

  lemma TemperatureLeaves(s: State, data: seq<Word>, hw: Hardware)
    requires data != [] && data[0] < 7 && !Succeeds(TemperatureControl(s, data, hw).1)
    ensures Same(s, TemperatureControl(s, data, hw).0, TemperatureControl(s, data, Calm(hw)).0)
  {
    TemperatureFails(s, data, hw);
    if |data| == 3 && s.temperature.Some? {
      FieldLeft(s, FieldOf(data[0]), FieldByte(FieldOf(data[0]), data[2]), hw.completed);
    }
  }

  lemma FieldLeft(s: State, f: Tmp112.Field, v: nat, completed: nat)
    requires s.temperature.Some?
    ensures var t := s.temperature.value;
      var full := s.(temperature := Some(Tmp112.Store(t, f, v, false, completed)));
      Same(s, s, full) && Same(s, s.(temperature := Some(Tmp112.Store(t, f, v, true, completed))), full)
  {
    var t := s.temperature.value;
    StoreLeft(t, f, v, completed);
    SensorLeft(s, t, Tmp112.Store(t, f, v, false, completed));
    SensorLeft(s, Tmp112.Store(t, f, v, true, completed), Tmp112.Store(t, f, v, false, completed));
  }

  lemma AskedLeft(s: State)
    requires s.temperature.Some?
    ensures var t := s.temperature.value;
      var asked := s.(temperature := Some(t.(wire := t.wire + [[Tmp112.TEMPERATURE]])));
      Same(s, s, asked) && Same(s, asked, asked)
  {
  }

  lemma ReadLeaves(s: State, data: seq<Word>, hw: Hardware)
    requires !Succeeds(TemperatureRead(s, data, hw).1)
    ensures Same(s, TemperatureRead(s, data, hw).0, TemperatureRead(s, data, Calm(hw)).0)
  {
    if s.temperature.Some? {
      AskedLeft(s);
    }
  }

  lemma HygrometerLeft(s: State, left: Aht10.Hygrometer, full: Aht10.Hygrometer)
    requires s.humidity.Some? && left.(wire := []) == s.humidity.value.(wire := [])
    requires InTurn(s.humidity.value.wire, left.wire, full.wire)
    ensures Same(s, s.(humidity := Some(left)), s.(humidity := Some(full)))
  {
  }

  lemma RequestLeft(fpu: Fpu, s: State, hw: Hardware)
    requires s.humidity.Some? && (hw.throws || s.humidity.value.numRetries == 0)
    ensures var h := s.humidity.value;
      Same(s, s.(humidity := Some(Aht10.Requested(fpu, h, hw.answer, hw.throws))),
           s.(humidity := Some(Aht10.Requested(fpu, h, hw.answer, false))))
  {
    var h := s.humidity.value;
    HygrometerLeft(s, Aht10.Requested(fpu, h, hw.answer, hw.throws), Aht10.Requested(fpu, h, hw.answer, false));
  }

  lemma ResetLeft(s: State)
    requires s.humidity.Some?
    ensures var h := s.humidity.value;
      var reset := s.(humidity := Some(h.(wire := h.wire + [Aht10.RESET])));
      Same(s, reset, reset)
  {
  }

  /** The state a failure of the humidity sensor leaves, and the one it would leave. */
  lemma HumidityFails(fpu: Fpu, s: State, data: seq<Word>, hw: Hardware)
    requires data != [] && data[0] < 4 && !Succeeds(HumidityControl(fpu, s, data, hw).1)
    ensures var left, full := HumidityControl(fpu, s, data, hw).0, HumidityControl(fpu, s, data, Calm(hw)).0;
      if |data| != 1 || s.humidity.None? || !hw.good then left == s && full == s
      else if data[0] == 0 then
        && (hw.throws || s.humidity.value.numRetries == 0)
        && left == s.(humidity := Some(Aht10.Requested(fpu, s.humidity.value, hw.answer, hw.throws)))
        && full == s.(humidity := Some(Aht10.Requested(fpu, s.humidity.value, hw.answer, false)))
      else
        && left == full
        && left == s.(humidity := Some(s.humidity.value.(wire := s.humidity.value.wire + [Aht10.RESET])))
  {
  }

  lemma HumidityLeaves(fpu: Fpu, s: State, data: seq<Word>, hw: Hardware)
    requires data != [] && data[0] < 4 && !Succeeds(HumidityControl(fpu, s, data, hw).1)
    ensures Same(s, HumidityControl(fpu, s, data, hw).0, HumidityControl(fpu, s, data, Calm(hw)).0)
  {
    HumidityFails(fpu, s, data, hw);
    if s.humidity.Some? && hw.good && |data| == 1 {
      if data[0] == 0 {
        RequestLeft(fpu, s, hw);
      } else {
        ResetLeft(s);
      }
    }
  }

  lemma LtcLeft(s: State, frame: Message, hw: Hardware)
    requires s.ltc.Some?
    ensures Same(s, s, SendLtc(s, frame, Calm(hw)).0)
    ensures Same(s, SendLtc(s, frame, hw).0, SendLtc(s, frame, Calm(hw)).0)
  {
  }

  lemma DacControlFails(s: State, data: seq<Word>, hw: Hardware)
    requires data != [] && data[0] < 5 && !Succeeds(SipmDacControl(s, data, hw).1)
    ensures var left, full := SipmDacControl(s, data, hw).0, SipmDacControl(s, data, Calm(hw)).0;
      if |data| != 2 || data[1] >= 8 || s.ltc.None? then left == s && full == s
      else
        var frame := LtcControlFrame(ControlCode(data[0]), DacOf(data[1]));
        left in {s, SendLtc(s, frame, hw).0} && full in {left, SendLtc(s, frame, Calm(hw)).0}
  {
  }

  lemma DacControlLeaves(s: State, data: seq<Word>, hw: Hardware)
    requires data != [] && data[0] < 5 && !Succeeds(SipmDacControl(s, data, hw).1)
    ensures Same(s, SipmDacControl(s, data, hw).0, SipmDacControl(s, data, Calm(hw)).0)
  {
    DacControlFails(s, data, hw);
    if |data| == 2 && s.ltc.Some? && data[1] < 8 {
      LtcLeft(s, LtcControlFrame(ControlCode(data[0]), DacOf(data[1])), hw);
    }
  }

  lemma DacWriteLeaves(fpu: Fpu, s: State, data: seq<Word>, hw: Hardware)
    requires data != [] && data[0] < 3 && !Succeeds(SipmDacWrite(fpu, s, data, hw).1)
    ensures Same(s, SipmDacWrite(fpu, s, data, hw).0, SipmDacWrite(fpu, s, data, Calm(hw)).0)
  {
    if |data| == 3 && s.ltc.Some? && data[1] < 8 {
      LtcLeft(s, LtcWriteFrame(fpu, s.ltc.value.cal, WriteCode(data[0]), DacOf(data[1]), fpu.decode(data[2])), hw);
    }
  }

  /** A command that fails changes no line, register, reading or calibration, and the messages it
      sent are the first of those it would have sent had nothing thrown. */
  lemma FailureLeaves(fpu: Fpu, s: State, c: Command, hw: Hardware)
    requires !Succeeds(Execute(fpu, s, c, hw).1)
    ensures Same(s, Execute(fpu, s, c, hw).0, Execute(fpu, s, c, Calm(hw)).0)
  {
    if c.data != [] && c.data[0] < ActionCount(c.code) {
      match c.code
      case 2 => VoltageLeaves(fpu, s, c.data, hw);
      case 5 => TemperatureLeaves(s, c.data, hw);
      case 6 => ReadLeaves(s, c.data, hw);
      case 7 => HumidityLeaves(fpu, s, c.data, hw);
      case 9 => DacControlLeaves(s, c.data, hw);
      case 10 => DacWriteLeaves(fpu, s, c.data, hw);
      case _ =>
    }
  }
}
