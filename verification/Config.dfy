// server/Input.cpp: the configuration file, and SiPMSupply.cpp's make_control, which relies on it.
module Config {
  import opened Wrappers
  import opened Wire
  import opened Text
  import opened Numbers

  datatype I2cInput = I2cInput(busId: Byte, devId: Byte)

  // Voltages are kept as the raw words of the floats std::stof returned.
  datatype DacInput = DacInput(vMin: Word, vMax: Word, dacMin: Half, dacMax: Half)

  datatype VoltageInput = VoltageInput(i2c: I2cInput, dac: DacInput)

  datatype Impl = Disable | Uart | I2c

  datatype SipmInput = SipmInput(impl: Impl, uartPath: Option<string>, i2c: Option<I2cInput>)

  datatype HumidityInput = HumidityInput(i2c: I2cInput, numRetries: nat)

  datatype Settings = Settings(
    gpioFile: string,
    hv: VoltageInput, lv: VoltageInput, sipmDac: VoltageInput,
    sipm: SipmInput,
    mux: I2cInput, temperature: I2cInput,
    humidity: HumidityInput)

  // ---- the name tables

  datatype Section = GpioChip | HV | LV | Sipm | Multiplexer | Temperature | Humidity | SipmDac
  datatype I2cCommand = BusId | DevId
  datatype DacCommand = VMin | VMax | DacMin | DacMax
  datatype SipmCommand = SelectImpl | UartPath

  function SectionOf(name: string): Option<Section> {
    if name == "GpioChip" then Some(GpioChip)
    else if name == "HV" then Some(HV)
    else if name == "LV" then Some(LV)
    else if name == "SIPM" then Some(Sipm)
    else if name == "Mux" then Some(Multiplexer)
    else if name == "Temperature" then Some(Temperature)
    else if name == "Humidity" then Some(Humidity)
    else if name == "SipmDac" then Some(SipmDac)
    else None
  }

  function I2cCommandOf(name: string): Option<I2cCommand> {
    if name == "BusId" then Some(BusId) else if name == "DevId" then Some(DevId) else None
  }

  function DacCommandOf(name: string): Option<DacCommand> {
    if name == "VMin" then Some(VMin)
    else if name == "VMax" then Some(VMax)
    else if name == "DacMin" then Some(DacMin)
    else if name == "DacMax" then Some(DacMax)
    else None
  }

  function SipmCommandOf(name: string): Option<SipmCommand> {
    if name == "Impl" then Some(SelectImpl) else if name == "UartPath" then Some(UartPath) else None
  }

  function ImplOf(name: string): Option<Impl> {
    if name == "Disable" then Some(Disable)
    else if name == "UART" then Some(Uart)
    else if name == "I2C" then Some(I2c)
    else None
  }

  // ---- the parsers

  // true with the updated struct, false with nothing changed, or a logic_error from a number.
  datatype Parsed<T> = Yes(value: T) | No | Abort

  function ParseI2c(input: I2cInput, tokens: seq<string>): Parsed<I2cInput> {
    if |tokens| != 3 then No
    else
      match I2cCommandOf(tokens[1])
      case None => No
      case Some(command) =>
        match Stol(tokens[2])
        case None => Abort
        case Some(v) => Yes(if command == BusId then input.(busId := v % 0x100) else input.(devId := v % 0x100))
  }

  function ParseDac(stof: FloatReader, input: DacInput, tokens: seq<string>): Parsed<DacInput> {
    if |tokens| != 3 then No
    else
      match DacCommandOf(tokens[1])
      case None => No
      case Some(VMin) => (match stof(tokens[2]) case None => Abort case Some(w) => Yes(input.(vMin := w)))
      case Some(VMax) => (match stof(tokens[2]) case None => Abort case Some(w) => Yes(input.(vMax := w)))
      case Some(DacMin) =>
        (match Stol(tokens[2]) case None => Abort case Some(v) => Yes(input.(dacMin := v % 0x1_0000)))
      case Some(DacMax) =>
        (match Stol(tokens[2]) case None => Abort case Some(v) => Yes(input.(dacMax := v % 0x1_0000)))
  }

  function ParseSipm(input: SipmInput, tokens: seq<string>): Parsed<SipmInput> {
    if |tokens| != 3 then No
    else
      match SipmCommandOf(tokens[1])
      case None => No
      case Some(SelectImpl) => (match ImplOf(tokens[2]) case None => No case Some(impl) => Yes(Select(input, impl)))
      case Some(UartPath) => Yes(if input.uartPath.Some? then input.(uartPath := Some(tokens[2])) else input)
  }

  /** Selecting an implementation opens its part of the input, empty. */
  function Select(input: SipmInput, impl: Impl): SipmInput {
    match impl
    case Disable => input.(impl := Disable)
    case Uart => input.(impl := Uart, uartPath := Some(""))
    case I2c => input.(impl := I2c, i2c := Some(I2cInput(0, 0)))
  }

  function ParseGpio(file: string, tokens: seq<string>): Parsed<string> {
    if |tokens| == 3 && tokens[1] == "Path" then Yes(tokens[2]) else No
  }

  function ParseHumidity(input: HumidityInput, tokens: seq<string>): Parsed<HumidityInput> {
    if |tokens| == 3 && tokens[1] == "NumRetries" then
      match Stol(tokens[2]) case None => Abort case Some(v) => Yes(input.(numRetries := v % ULONG_LIMIT))
    else No
  }

  /** parse_i2c(...) || parse_dac(...) */
  function ParseVoltage(stof: FloatReader, input: VoltageInput, tokens: seq<string>): Parsed<VoltageInput> {
    match ParseI2c(input.i2c, tokens)
    case Yes(i2c) => Yes(input.(i2c := i2c))
    case Abort => Abort
    case No =>
      match ParseDac(stof, input.dac, tokens)
      case Yes(dac) => Yes(input.(dac := dac))
      case Abort => Abort
      case No => No
  }

  /** parse_sipm(...) || parse_i2c(...), the latter into a temporary unless the bus part is open. */
  function ParseSipmLine(input: SipmInput, tokens: seq<string>): Parsed<SipmInput> {
    match ParseSipm(input, tokens)
    case Yes(r) => Yes(r)
    case Abort => Abort
    case No =>
      match ParseI2c(if input.i2c.Some? then input.i2c.value else I2cInput(0, 0), tokens)
      case Yes(i2c) => Yes(if input.i2c.Some? then input.(i2c := Some(i2c)) else input)
      case Abort => Abort
      case No => No
  }

  function ParseHumidityLine(input: HumidityInput, tokens: seq<string>): Parsed<HumidityInput> {
    match ParseI2c(input.i2c, tokens)
    case Yes(i2c) => Yes(input.(i2c := i2c))
    case Abort => Abort
    case No => ParseHumidity(input, tokens)
  }

  // ---- the line loop

  /** The settings after one line with tokens; None is an uncaught logic_error. */
  function ParseTokens(stof: FloatReader, s: Settings, section: Section, tokens: seq<string>): Option<Settings> {
    match section
    case GpioChip =>
      (match ParseGpio(s.gpioFile, tokens)
       case Yes(r) => Some(s.(gpioFile := r))
       case No => Some(s)
       case Abort => None)
    case HV =>
      (match ParseVoltage(stof, s.hv, tokens)
       case Yes(r) => Some(s.(hv := r))
       case No => Some(s)
       case Abort => None)
    case LV =>
      (match ParseVoltage(stof, s.lv, tokens)
       case Yes(r) => Some(s.(lv := r))
       case No => Some(s)
       case Abort => None)
    case Sipm =>
      (match ParseSipmLine(s.sipm, tokens)
       case Yes(r) => Some(s.(sipm := r))
       case No => Some(s)
       case Abort => None)
    case Multiplexer =>
      (match ParseI2c(s.mux, tokens)
       case Yes(r) => Some(s.(mux := r))
       case No => Some(s)
       case Abort => None)
    case Temperature =>
      (match ParseI2c(s.temperature, tokens)
       case Yes(r) => Some(s.(temperature := r))
       case No => Some(s)
       case Abort => None)
    case Humidity =>
      (match ParseHumidityLine(s.humidity, tokens)
       case Yes(r) => Some(s.(humidity := r))
       case No => Some(s)
       case Abort => None)
    case SipmDac =>
      (match ParseVoltage(stof, s.sipmDac, tokens)
       case Yes(r) => Some(s.(sipmDac := r))
       case No => Some(s)
       case Abort => None)
  }

  ghost function ParseLine(stof: FloatReader, s: Settings, line: string): Option<Settings> {
    var tokens := Tokens(line);
    if tokens == [] || SectionOf(tokens[0]).None? then Some(s)
    else ParseTokens(stof, s, SectionOf(tokens[0]).value, tokens)
  }

  ghost function ParseAll(stof: FloatReader, s: Settings, lines: seq<string>): Option<Settings>
    decreases |lines|
  {
    if lines == [] then Some(s)
    else
      match ParseLine(stof, s, lines[0])
      case None => None
      case Some(s1) => ParseAll(stof, s1, lines[1..])
  }

  class ContextInput {
    var gpioFile: string
    var hv: VoltageInput
    var lv: VoltageInput
    var sipmDac: VoltageInput
    var sipm: SipmInput
    var mux: I2cInput
    var temperature: I2cInput
    var humidity: HumidityInput

    function View(): Settings
      reads this
    {
      Settings(gpioFile, hv, lv, sipmDac, sipm, mux, temperature, humidity)
    }

    /** Most fields start with whatever the memory held. */
    constructor (initial: Settings)
      ensures View() == initial.(gpioFile := "/dev/gpiochip0", sipm := SipmInput(Disable, None, None))
    {
      gpioFile, sipm := "/dev/gpiochip0", SipmInput(Disable, None, None);
      hv, lv, sipmDac := initial.hv, initial.lv, initial.sipmDac;
      mux, temperature, humidity := initial.mux, initial.temperature, initial.humidity;
    }

    /** One line; ok is false if a number threw. */
    method Line(stof: FloatReader, line: string) returns (ok: bool)
      modifies this
      ensures match ParseLine(stof, old(View()), line)
              case Some(s) => ok && View() == s
              case None => !ok
    {
      var tokens := Tokenize(line);
      ok := true;
      if tokens == [] {
        return;
      }
      var section := SectionOf(tokens[0]);
      match section {
        case None => return;
        case Some(GpioChip) =>
          var r := ParseGpio(gpioFile, tokens);
          if r.Yes? { gpioFile := r.value; }
          return !r.Abort?;
        case Some(HV) =>
          var r := ParseVoltage(stof, hv, tokens);
          if r.Yes? { hv := r.value; }
          return !r.Abort?;
        case Some(LV) =>
          var r := ParseVoltage(stof, lv, tokens);
          if r.Yes? { lv := r.value; }
          return !r.Abort?;
        case Some(Sipm) =>
          var r := ParseSipmLine(sipm, tokens);
          if r.Yes? { sipm := r.value; }
          return !r.Abort?;
        case Some(Multiplexer) =>
          var r := ParseI2c(mux, tokens);
          if r.Yes? { mux := r.value; }
          return !r.Abort?;
        case Some(Temperature) =>
          var r := ParseI2c(temperature, tokens);
          if r.Yes? { temperature := r.value; }
          return !r.Abort?;
        case Some(Humidity) =>
          var r := ParseHumidityLine(humidity, tokens);
          if r.Yes? { humidity := r.value; }
          return !r.Abort?;
        case Some(SipmDac) =>
          var r := ParseVoltage(stof, sipmDac, tokens);
          if r.Yes? { sipmDac := r.value; }
          return !r.Abort?;
      }
    }

    /** The getline loop of the constructor. */
    method Load(stof: FloatReader, lines: seq<string>) returns (ok: bool)
      modifies this
      ensures match ParseAll(stof, old(View()), lines)
              case Some(s) => ok && View() == s
              case None => !ok
    {
      ghost var target := ParseAll(stof, View(), lines);
      var i := 0;
      assert lines[0..] == lines;
      while i < |lines|
        invariant i <= |lines|
        invariant target == ParseAll(stof, View(), lines[i..])
        decreases |lines| - i
      {
        assert lines[i..][1..] == lines[i + 1..];
        ok := Line(stof, lines[i]);
        if !ok {
          return false;
        }
        i := i + 1;
      }
      return true;
    }
  }
}
