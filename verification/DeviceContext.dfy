// server/Context.h and the execute bodies of server/Command*.cpp, on the device objects.
module DeviceContext {
  import opened Wrappers
  import opened Wire
  import opened Tables
  import opened Codec
  import opened Calibration
  import opened Devices
  import opened Execution

  class Context {
    var quit: bool
    var gpio: Option<bool>
    const hv: Mcp4725?
    const lv: Mcp4725?
    const sipm: Option<SipmLink>
    const temperature: Tmp112.Sensor?
    const mux: bool
    const humidity: Aht10.Sensor?
    const ltc: Ltc2635?

    /** Every object a command may change. */
    ghost function Footprint(): set<object> {
      {this} +
      (if temperature == null then {} else {temperature}) +
      (if humidity == null then {} else {humidity}) +
      (if hv == null then {} else {hv, hv.buffer}) +
      (if lv == null then {} else {lv, lv.buffer}) +
      (if ltc == null then {} else {ltc, ltc.messageBuffer})
    }

    ghost predicate Valid()
      reads if ltc == null then {} else {ltc.dacs}
    {
      && (hv != null ==> hv.Valid())
      && (lv != null ==> lv.Valid())
      && (hv != null && lv != null ==> hv != lv && hv.buffer != lv.buffer)
      && (ltc != null ==> ltc.Valid())
      && (ltc != null && hv != null ==> ltc.messageBuffer != hv.buffer)
      && (ltc != null && lv != null ==> ltc.messageBuffer != lv.buffer)
    }

    function View(): State
      reads this, hv, lv, ltc, temperature, humidity
    {
      State(quit, gpio,
        if hv == null then None else Some(Chip(hv.dac.cal, hv.wire)),
        if lv == null then None else Some(Chip(lv.dac.cal, lv.wire)),
        sipm, if temperature == null then None else Some(temperature.View()), mux,
        if humidity == null then None else Some(humidity.View()),
        if ltc == null then None else Some(Chip(ltc.cal, ltc.wire)))
    }

    /** The devices that opened, with the calibrations of their configuration. */
    constructor (gpio: Option<bool>, hv: Option<Calibration>, lv: Option<Calibration>, ltc: Option<Calibration>,
                 sipm: Option<SipmLink>, mux: bool, temperature: Tmp112.Sensor?, humidity: Aht10.Sensor?)
      ensures Valid() && fresh(Footprint() - {temperature, humidity})
      ensures View().quit == false && View().gpio == gpio && View().sipm == sipm && View().mux == mux
      ensures this.temperature == temperature && this.humidity == humidity
      ensures View().hv == if hv.None? then None else Some(Chip(hv.value, []))
      ensures View().lv == if lv.None? then None else Some(Chip(lv.value, []))
      ensures View().ltc == if ltc.None? then None else Some(Chip(ltc.value, []))
    {
      quit, this.gpio, this.sipm, this.mux := false, gpio, sipm, mux;
      this.temperature, this.humidity := temperature, humidity;
      this.hv, this.lv, this.ltc := null, null, null;
      if hv.Some? {
        var chip := new Mcp4725(hv.value);
        this.hv := chip;
      }
      if lv.Some? {
        var chip := new Mcp4725(lv.value);
        this.lv := chip;
      }
      if ltc.Some? {
        var chip := new Ltc2635(ltc.value);
        this.ltc := chip;
      }
    }

    /** The guarded voltage setting shared by the high and the low voltage DAC. */
    method Guarded(fpu: Fpu, chip: Mcp4725?, v: Float, hw: Hardware) returns (r: Outcome)
      requires chip != null ==> chip.Valid()
      modifies if chip == null then {} else {chip, chip.buffer}
      ensures var c := if chip == null then None else Some(Chip(chip.dac.cal, old(chip.wire)));
        SetVoltage(fpu, c, v, hw) == (if chip == null then None else Some(Chip(chip.dac.cal, chip.wire)), r)
    {
      if chip == null || !hw.good {
        return Fails(ResourceUnavailable);
      }
      if !Accepts(chip.dac.cal, v) {
        return Fails(VoltageOutOfRange);
      }
      var ok := chip.Execute(fpu, v, hw.throws);
      r := if ok then Done() else Raises;
    }

    method ExecuteVoltage(fpu: Fpu, data: seq<Word>, hw: Hardware) returns (r: Outcome)
      requires Valid() && data != [] && data[0] < 3
      modifies Footprint()
      ensures (View(), r) == VoltageControl(fpu, old(View()), data, hw)
    {
      match data[0]
      case 0 =>
        if gpio.None? || !hw.good { return Fails(ResourceUnavailable); }
        if |data| < 2 { return Dies; }
        if hw.throws { return Raises; }
        gpio := Some(data[1] != 0);
        return Done();
      case 1 =>
        if hv == null || !hw.good { return Fails(ResourceUnavailable); }
        if |data| < 2 { return Dies; }
        r := Guarded(fpu, hv, fpu.decode(data[1]), hw);
      case _ =>
        if lv == null || !hw.good { return Fails(ResourceUnavailable); }
        if |data| < 2 { return Dies; }
        r := Guarded(fpu, lv, fpu.decode(data[1]), hw);
    }

    method ExecuteTemperature(data: seq<Word>, hw: Hardware) returns (r: Outcome)
      requires Valid() && data != [] && data[0] < 7
      modifies Footprint()
      ensures (View(), r) == TemperatureControl(old(View()), data, hw)
    {
      if |data| != 3 { return Fails(PoorlyStructuredCommand); }
      match AcquireSensor(View(), data[1], hw)
      case Refused => return Fails(ResourceUnavailable);
      case MuxRaises => return Raises;
      case Ready =>
        if temperature == null || !hw.good { return Fails(ResourceUnavailable); }
        var f := FieldOf(data[0]);
        var ok := temperature.WriteConfig(f, FieldByte(f, data[2]), hw.throws, hw.completed);
        r := if ok then Done() else Raises;
    }

    method ExecuteTemperatureRead(data: seq<Word>, hw: Hardware) returns (r: Outcome)
      requires Valid()
      modifies Footprint()
      ensures (View(), r) == TemperatureRead(old(View()), data, hw)
    {
      if |data| != 2 { return Fails(PoorlyStructuredCommand); }
      match AcquireSensor(View(), data[1], hw)
      case Refused => return Fails(ResourceUnavailable);
      case MuxRaises => return Raises;
      case Ready =>
        if temperature == null || !hw.good { return Fails(ResourceUnavailable); }
        temperature.AskTemperature();
        r := if hw.throws then Raises else Returns(hw.word);
    }

    method ExecuteHumidity(fpu: Fpu, data: seq<Word>, hw: Hardware) returns (r: Outcome)
      requires Valid() && data != [] && data[0] < 4
      modifies Footprint()
      ensures (View(), r) == HumidityControl(fpu, old(View()), data, hw)
    {
      if |data| != 1 { return Fails(PoorlyStructuredCommand); }
      if humidity == null || !hw.good { return Fails(ResourceUnavailable); }
      match data[0]
      case 0 =>
        var ok := humidity.RequestRead(fpu, i => hw.answer, hw.throws);
        r := if hw.throws then Raises else if ok then Done() else Fails(ResourceBusy);
      case 1 => return Returns(humidity.humidity);
      case 2 => return Returns(humidity.temperature);
      case _ =>
        humidity.SoftReset();
        return if hw.throws then Raises else Done();
    }

    method ExecuteSipmDacControl(data: seq<Word>, hw: Hardware) returns (r: Outcome)
      requires Valid() && data != [] && data[0] < 5
      modifies Footprint()
      ensures (View(), r) == SipmDacControl(old(View()), data, hw)
    {
      if |data| != 2 { return Fails(PoorlyStructuredCommand); }
      match AcquireDac(View(), data[1], hw)
      case Refused => return Fails(ResourceUnavailable);
      case MuxRaises => return Raises;
      case Ready =>
        if ltc == null || !hw.good { return Fails(ResourceUnavailable); }
        var ok := ltc.ExecuteControl(ControlCode(data[0]), DacOf(data[1]), hw.throws);
        r := if ok then Done() else Raises;
    }

    method ExecuteSipmDacWrite(fpu: Fpu, data: seq<Word>, hw: Hardware) returns (r: Outcome)
      requires Valid() && data != [] && data[0] < 3
      modifies Footprint()
      ensures (View(), r) == SipmDacWrite(fpu, old(View()), data, hw)
    {
      if |data| != 3 { return Fails(PoorlyStructuredCommand); }
      match AcquireDac(View(), data[1], hw)
      case Refused => return Fails(ResourceUnavailable);
      case MuxRaises => return Raises;
      case Ready =>
        if ltc == null || !hw.good { return Fails(ResourceUnavailable); }
        var ok := ltc.ExecuteWrite(fpu, WriteCode(data[0]), DacOf(data[1]), fpu.decode(data[2]), hw.throws);
        r := if ok then Done() else Raises;
    }

    /** The commands of the two sensors. */
    method RunSensor(fpu: Fpu, c: Command, hw: Hardware) returns (r: Outcome)
      requires Valid() && c.data != [] && c.data[0] < ActionCount(c.code) && c.code in {5, 6, 7}
      modifies Footprint()
      ensures Valid() && (View(), r) == Dispatch(fpu, old(View()), c, hw)
    {
      match c.code {
        case 5 => r := ExecuteTemperature(c.data, hw);
        case 6 => r := ExecuteTemperatureRead(c.data, hw);
        case _ => r := ExecuteHumidity(fpu, c.data, hw);
      }
    }

    /** The commands of the DACs and the high voltage switch. */
    method RunDac(fpu: Fpu, c: Command, hw: Hardware) returns (r: Outcome)
      requires Valid() && c.data != [] && c.data[0] < ActionCount(c.code) && c.code in {2, 9, 10}
      modifies Footprint()
      ensures Valid() && (View(), r) == Dispatch(fpu, old(View()), c, hw)
    {
      match c.code {
        case 2 => r := ExecuteVoltage(fpu, c.data, hw);
        case 9 => r := ExecuteSipmDacControl(c.data, hw);
        case _ => r := ExecuteSipmDacWrite(fpu, c.data, hw);
      }
    }

    /** The virtual execute(Context&, action) of the command's device. */
    method RunAction(fpu: Fpu, c: Command, hw: Hardware) returns (r: Outcome)
      requires Valid() && c.data != [] && c.data[0] < ActionCount(c.code)
      modifies Footprint()
      ensures Valid() && (View(), r) == Dispatch(fpu, old(View()), c, hw)
    {
      match c.code {
        case 3 => r := SipmControlWrite(View(), c.data, hw);
        case 4 => r := SipmControlRead(fpu, View(), c.data, hw);
        case 5 => r := RunSensor(fpu, c, hw);
        case 6 => r := RunSensor(fpu, c, hw);
        case 7 => r := RunSensor(fpu, c, hw);
        case 8 => r := MuxControl(View(), c.data, hw);
        case _ => r := RunDac(fpu, c, hw);
      }
    }

    /** Command::execute on the device objects does what Execute says of their state. */
    method Run(fpu: Fpu, c: Command, hw: Hardware) returns (r: Outcome)
      requires Valid()
      modifies Footprint()
      ensures Valid() && (View(), r) == Execute(fpu, old(View()), c, hw)
    {
      if c.code == 0 { return Done(); }
      if c.code == QUIT {
        quit := true;
        return Done();
      }
      if c.data == [] || c.data[0] >= ActionCount(c.code) { return Fails(InvalidCommand); }
      r := RunAction(fpu, c, hw);
      if r == Raises { r := Fails(ResourceUnavailable); }
    }
  }
}
