// The names of a configuration file, written out: the field each one sets, and that no other name
// sets anything.
module ConfigNames {
  import opened Wrappers
  import opened Wire
  import opened Text
  import opened Numbers
  import opened Config

  /** The lines of HV. */
  lemma HvNames(stof: FloatReader, s: Settings, line: string, v: int, w: Word)
    requires |Tokens(line)| == 3 && Tokens(line)[0] == "HV"
    ensures Tokens(line)[1] == "BusId" && Stol(Tokens(line)[2]) == Some(v) ==>
              ParseLine(stof, s, line) == Some(s.(hv := s.hv.(i2c := s.hv.i2c.(busId := v % 0x100))))
    ensures Tokens(line)[1] == "DevId" && Stol(Tokens(line)[2]) == Some(v) ==>
              ParseLine(stof, s, line) == Some(s.(hv := s.hv.(i2c := s.hv.i2c.(devId := v % 0x100))))
    ensures Tokens(line)[1] == "DacMin" && Stol(Tokens(line)[2]) == Some(v) ==>
              ParseLine(stof, s, line) == Some(s.(hv := s.hv.(dac := s.hv.dac.(dacMin := v % 0x1_0000))))
    ensures Tokens(line)[1] == "DacMax" && Stol(Tokens(line)[2]) == Some(v) ==>
              ParseLine(stof, s, line) == Some(s.(hv := s.hv.(dac := s.hv.dac.(dacMax := v % 0x1_0000))))
    ensures Tokens(line)[1] == "VMin" && stof(Tokens(line)[2]) == Some(w) ==>
              ParseLine(stof, s, line) == Some(s.(hv := s.hv.(dac := s.hv.dac.(vMin := w))))
    ensures Tokens(line)[1] == "VMax" && stof(Tokens(line)[2]) == Some(w) ==>
              ParseLine(stof, s, line) == Some(s.(hv := s.hv.(dac := s.hv.dac.(vMax := w))))
  {
  }

  /** The lines of LV. */
  lemma LvNames(stof: FloatReader, s: Settings, line: string, v: int, w: Word)
    requires |Tokens(line)| == 3 && Tokens(line)[0] == "LV"
    ensures Tokens(line)[1] == "BusId" && Stol(Tokens(line)[2]) == Some(v) ==>
              ParseLine(stof, s, line) == Some(s.(lv := s.lv.(i2c := s.lv.i2c.(busId := v % 0x100))))
    ensures Tokens(line)[1] == "DevId" && Stol(Tokens(line)[2]) == Some(v) ==>
              ParseLine(stof, s, line) == Some(s.(lv := s.lv.(i2c := s.lv.i2c.(devId := v % 0x100))))
    ensures Tokens(line)[1] == "DacMin" && Stol(Tokens(line)[2]) == Some(v) ==>
              ParseLine(stof, s, line) == Some(s.(lv := s.lv.(dac := s.lv.dac.(dacMin := v % 0x1_0000))))
    ensures Tokens(line)[1] == "DacMax" && Stol(Tokens(line)[2]) == Some(v) ==>
              ParseLine(stof, s, line) == Some(s.(lv := s.lv.(dac := s.lv.dac.(dacMax := v % 0x1_0000))))
    ensures Tokens(line)[1] == "VMin" && stof(Tokens(line)[2]) == Some(w) ==>
              ParseLine(stof, s, line) == Some(s.(lv := s.lv.(dac := s.lv.dac.(vMin := w))))
    ensures Tokens(line)[1] == "VMax" && stof(Tokens(line)[2]) == Some(w) ==>
              ParseLine(stof, s, line) == Some(s.(lv := s.lv.(dac := s.lv.dac.(vMax := w))))
  {
  }

  /** The lines of SipmDac. */
  lemma SipmDacNames(stof: FloatReader, s: Settings, line: string, v: int, w: Word)
    requires |Tokens(line)| == 3 && Tokens(line)[0] == "SipmDac"
    ensures Tokens(line)[1] == "BusId" && Stol(Tokens(line)[2]) == Some(v) ==>
              ParseLine(stof, s, line) == Some(s.(sipmDac := s.sipmDac.(i2c := s.sipmDac.i2c.(busId := v % 0x100))))
    ensures Tokens(line)[1] == "DevId" && Stol(Tokens(line)[2]) == Some(v) ==>
              ParseLine(stof, s, line) == Some(s.(sipmDac := s.sipmDac.(i2c := s.sipmDac.i2c.(devId := v % 0x100))))
    ensures Tokens(line)[1] == "DacMin" && Stol(Tokens(line)[2]) == Some(v) ==>
              ParseLine(stof, s, line) == Some(s.(sipmDac := s.sipmDac.(dac := s.sipmDac.dac.(dacMin := v % 0x1_0000))))
    ensures Tokens(line)[1] == "DacMax" && Stol(Tokens(line)[2]) == Some(v) ==>
              ParseLine(stof, s, line) == Some(s.(sipmDac := s.sipmDac.(dac := s.sipmDac.dac.(dacMax := v % 0x1_0000))))
    ensures Tokens(line)[1] == "VMin" && stof(Tokens(line)[2]) == Some(w) ==>
              ParseLine(stof, s, line) == Some(s.(sipmDac := s.sipmDac.(dac := s.sipmDac.dac.(vMin := w))))
    ensures Tokens(line)[1] == "VMax" && stof(Tokens(line)[2]) == Some(w) ==>
              ParseLine(stof, s, line) == Some(s.(sipmDac := s.sipmDac.(dac := s.sipmDac.dac.(vMax := w))))
  {
  }

  /** The lines of Mux. */
  lemma MuxNames(stof: FloatReader, s: Settings, line: string, v: int)
    requires |Tokens(line)| == 3 && Tokens(line)[0] == "Mux"
    ensures Tokens(line)[1] == "BusId" && Stol(Tokens(line)[2]) == Some(v) ==>
              ParseLine(stof, s, line) == Some(s.(mux := s.mux.(busId := v % 0x100)))
    ensures Tokens(line)[1] == "DevId" && Stol(Tokens(line)[2]) == Some(v) ==>
              ParseLine(stof, s, line) == Some(s.(mux := s.mux.(devId := v % 0x100)))
  {
  }

  /** The lines of Temperature. */
  lemma TemperatureNames(stof: FloatReader, s: Settings, line: string, v: int)
    requires |Tokens(line)| == 3 && Tokens(line)[0] == "Temperature"
    ensures Tokens(line)[1] == "BusId" && Stol(Tokens(line)[2]) == Some(v) ==>
              ParseLine(stof, s, line) == Some(s.(temperature := s.temperature.(busId := v % 0x100)))
    ensures Tokens(line)[1] == "DevId" && Stol(Tokens(line)[2]) == Some(v) ==>
              ParseLine(stof, s, line) == Some(s.(temperature := s.temperature.(devId := v % 0x100)))
  {
  }

  /** The lines of Humidity. */
  lemma HumidityNames(stof: FloatReader, s: Settings, line: string, v: int)
    requires |Tokens(line)| == 3 && Tokens(line)[0] == "Humidity"
    ensures Tokens(line)[1] == "BusId" && Stol(Tokens(line)[2]) == Some(v) ==>
              ParseLine(stof, s, line) == Some(s.(humidity := s.humidity.(i2c := s.humidity.i2c.(busId := v % 0x100))))
    ensures Tokens(line)[1] == "DevId" && Stol(Tokens(line)[2]) == Some(v) ==>
              ParseLine(stof, s, line) == Some(s.(humidity := s.humidity.(i2c := s.humidity.i2c.(devId := v % 0x100))))
    ensures Tokens(line)[1] == "NumRetries" && Stol(Tokens(line)[2]) == Some(v) ==>
              ParseLine(stof, s, line) == Some(s.(humidity := s.humidity.(numRetries := v % 18446744073709551616)))
  {
  }

  /** The line of GpioChip. */
  lemma GpioNames(stof: FloatReader, s: Settings, line: string)
    requires |Tokens(line)| == 3 && Tokens(line)[0] == "GpioChip" && Tokens(line)[1] == "Path"
    ensures ParseLine(stof, s, line) == Some(s.(gpioFile := Tokens(line)[2]))
  {
  }

  /** The lines of SIPM: a selection opens and clears its part, and the rest counts only there. */
  lemma SipmNames(stof: FloatReader, s: Settings, line: string, v: int)
    requires |Tokens(line)| == 3 && Tokens(line)[0] == "SIPM"
    ensures Tokens(line)[1..] == ["Impl", "Disable"] ==>
              ParseLine(stof, s, line) == Some(s.(sipm := s.sipm.(impl := Disable)))
    ensures Tokens(line)[1..] == ["Impl", "UART"] ==>
              ParseLine(stof, s, line) == Some(s.(sipm := s.sipm.(impl := Uart, uartPath := Some(""))))
    ensures Tokens(line)[1..] == ["Impl", "I2C"] ==>
              ParseLine(stof, s, line) == Some(s.(sipm := s.sipm.(impl := I2c, i2c := Some(I2cInput(0, 0)))))
    ensures Tokens(line)[1] == "UartPath" && s.sipm.uartPath.Some? ==>
              ParseLine(stof, s, line) == Some(s.(sipm := s.sipm.(uartPath := Some(Tokens(line)[2]))))
    ensures Tokens(line)[1] == "UartPath" && s.sipm.uartPath.None? ==> ParseLine(stof, s, line) == Some(s)
    ensures Tokens(line)[1] == "BusId" && Stol(Tokens(line)[2]) == Some(v) && s.sipm.i2c.Some? ==>
              ParseLine(stof, s, line) == Some(s.(sipm := s.sipm.(i2c := Some(s.sipm.i2c.value.(busId := v % 0x100)))))
    ensures Tokens(line)[1] == "BusId" && Stol(Tokens(line)[2]) == Some(v) && s.sipm.i2c.None? ==>
              ParseLine(stof, s, line) == Some(s)
    ensures Tokens(line)[1] == "DevId" && Stol(Tokens(line)[2]) == Some(v) && s.sipm.i2c.Some? ==>
              ParseLine(stof, s, line) == Some(s.(sipm := s.sipm.(i2c := Some(s.sipm.i2c.value.(devId := v % 0x100)))))
    ensures Tokens(line)[1] == "DevId" && Stol(Tokens(line)[2]) == Some(v) && s.sipm.i2c.None? ==>
              ParseLine(stof, s, line) == Some(s)
  {
  }

  /** The names of a section. */
  function NamesOf(section: string): set<string> {
    if section == "GpioChip" then {"Path"}
    else if section == "HV" || section == "LV" || section == "SipmDac" then
      {"BusId", "DevId", "VMin", "VMax", "DacMin", "DacMax"}
    else if section == "SIPM" then {"Impl", "UartPath", "BusId", "DevId"}
    else if section == "Mux" || section == "Temperature" then {"BusId", "DevId"}
    else if section == "Humidity" then {"BusId", "DevId", "NumRetries"}
    else {}
  }

  lemma OtherDacNames(stof: FloatReader, s: Settings, tokens: seq<string>)
    requires |tokens| != 3 || tokens[1] !in {"BusId", "DevId", "VMin", "VMax", "DacMin", "DacMax"}
    ensures ParseTokens(stof, s, HV, tokens) == ParseTokens(stof, s, LV, tokens) == Some(s)
    ensures ParseTokens(stof, s, SipmDac, tokens) == Some(s)
  {
  }

  lemma OtherBusNames(stof: FloatReader, s: Settings, tokens: seq<string>)
    requires |tokens| != 3 || tokens[1] !in {"BusId", "DevId"}
    ensures ParseTokens(stof, s, Multiplexer, tokens) == ParseTokens(stof, s, Temperature, tokens) == Some(s)
    ensures |tokens| != 3 || tokens[1] != "NumRetries" ==> ParseTokens(stof, s, Humidity, tokens) == Some(s)
  {
  }

  lemma OtherSipmNames(stof: FloatReader, s: Settings, tokens: seq<string>)
    requires |tokens| != 3 || tokens[1] !in {"Impl", "UartPath", "BusId", "DevId"} ||
             (tokens[1] == "Impl" && tokens[2] !in {"Disable", "UART", "I2C"})
    ensures ParseTokens(stof, s, Sipm, tokens) == Some(s)
  {
  }

  lemma OtherGpioNames(stof: FloatReader, s: Settings, tokens: seq<string>)
    requires |tokens| != 3 || tokens[1] != "Path"
    ensures ParseTokens(stof, s, GpioChip, tokens) == Some(s)
  {
  }

  /** The line is none of those above. */
  ghost predicate Skipped(tokens: seq<string>) {
    || |tokens| != 3 || tokens[1] !in NamesOf(tokens[0])
    || (tokens[0] == "SIPM" && tokens[1] == "Impl" && tokens[2] !in {"Disable", "UART", "I2C"})
  }

  /** Any other line changes nothing. */
  lemma OtherNames(stof: FloatReader, s: Settings, line: string)
    requires Skipped(Tokens(line))
    ensures ParseLine(stof, s, line) == Some(s)
  {
    var tokens := Tokens(line);
    if tokens != [] && SectionOf(tokens[0]).Some? {
      match SectionOf(tokens[0]).value
      case GpioChip => OtherGpioNames(stof, s, tokens);
      case Sipm => OtherSipmNames(stof, s, tokens);
      case HV => OtherDacNames(stof, s, tokens);
      case LV => OtherDacNames(stof, s, tokens);
      case SipmDac => OtherDacNames(stof, s, tokens);
      case Multiplexer => OtherBusNames(stof, s, tokens);
      case Temperature => OtherBusNames(stof, s, tokens);
      case Humidity => OtherBusNames(stof, s, tokens);
    }
  }
}
