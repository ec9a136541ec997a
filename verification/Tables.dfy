// The command tables of common/Command*.h.  A table is a bijection between names and positions,
// and both programs are compiled from the same copy.
module Tables {
  import opened Wrappers
  import opened Numbers

  datatype Action = Action(name: string, params: seq<Format>, ret: Option<Format>)

  // NOpt and Quit carry no action word; every other device has a table of actions.
  datatype Device = Bare(name: string) | Grouped(name: string, actions: seq<Action>)

  type Tables = seq<Device>

  const QUIT: nat := 1

  function DeviceNames(tb: Tables): (ns: seq<string>)
    ensures |ns| == |tb| && forall i :: 0 <= i < |ns| ==> ns[i] == tb[i].name
  {
    seq(|tb|, i requires 0 <= i < |tb| => tb[i].name)
  }

  function ActionNames(actions: seq<Action>): (ns: seq<string>)
    ensures |ns| == |actions| && forall i :: 0 <= i < |ns| ==> ns[i] == actions[i].name
  {
    seq(|actions|, i requires 0 <= i < |actions| => actions[i].name)
  }

  /** EnumTable::lookup by name: the first position holding the key. */
  function Lookup(names: seq<string>, key: string): (r: Option<nat>)
    ensures r.Some? ==> r.value < |names| && names[r.value] == key
    ensures r.None? ==> key !in names
  {
    if names == [] then None
    else if names[0] == key then Some(0)
    else match Lookup(names[1..], key)
      case None => None
      case Some(i) => Some(i + 1)
  }

  ghost predicate Distinct(names: seq<string>) {
    forall i, j :: 0 <= i < j < |names| ==> names[i] != names[j]
  }

  /** Every index fits a word, and Quit stands where the server looks for it. */
  ghost predicate Indexed(tb: Tables) {
    && QUIT < |tb| < 0x1_0000_0000
    && tb[QUIT].Bare?
    && (forall d :: 0 <= d < |tb| && tb[d].Grouped? ==> |tb[d].actions| < 0x1_0000_0000)
  }

  /** A name identifies its position. */
  ghost predicate Named(tb: Tables) {
    && Distinct(DeviceNames(tb))
    && (forall d :: 0 <= d < |tb| && tb[d].Grouped? ==> Distinct(ActionNames(tb[d].actions)))
  }

  lemma LookupOfDistinct(names: seq<string>, i: nat)
    requires Distinct(names) && i < |names|
    ensures Lookup(names, names[i]) == Some(i)
  {
    var r := Lookup(names, names[i]);
    assert r.Some?;
    assert r.value < i || i < r.value || r.value == i;
  }

  // ---- the real tables

  /** Actions with the same parameters, returning rets[i] each. */
  function Entries(names: seq<string>, params: seq<Format>, rets: seq<Option<Format>>): (es: seq<Action>)
    requires |rets| == |names|
    ensures |es| == |names| && forall i :: 0 <= i < |es| ==> es[i] == Action(names[i], params, rets[i])
  {
    seq(|names|, i requires 0 <= i < |names| => Action(names[i], params, rets[i]))
  }

  /** Actions of one parameter, of format formats[i], returning nothing. */
  function Setters(names: seq<string>, formats: seq<Format>): (es: seq<Action>)
    requires |formats| == |names|
    ensures |es| == |names| && forall i :: 0 <= i < |es| ==> es[i] == Action(names[i], [formats[i]], None)
  {
    seq(|names|, i requires 0 <= i < |names| => Action(names[i], [formats[i]], None))
  }

  /** Actions without parameters, returning a value of format formats[i]. */
  function Getters(names: seq<string>, formats: seq<Format>): (es: seq<Action>)
    requires |formats| == |names|
    ensures |es| == |names| && forall i :: 0 <= i < |es| ==> es[i] == Action(names[i], [], Some(formats[i]))
  {
    seq(|names|, i requires 0 <= i < |names| => Action(names[i], [], Some(formats[i])))
  }

  // The registers that can be both written and read, up to ENABLE_PI, open both SiPM tables.
  function SharedNames(): seq<string> {
    ["HV_ENABLE", "MODE", "V_TARGET_WRITE", "RAMP_SPEED", "MAX_V", "MAX_I", "C_TEMP_M2", "C_TEMP_M",
     "C_TEMP_Q", "ALFA_VOUT", "ALFA_IOUT", "ALFA_VREF", "ALFA_TREF", "TCOEF", "LUT_ENABLE", "ENABLE_PI"]
  }

  function SharedFormats(): seq<Format> {
    [Bool, Int, Float, Float, Float, Float, Float, Float, Float, Float, Float, Float, Float, Float, Bool, Bool]
  }

  function WriteNames(): seq<string> {
    ["EMERGENCY_STOP", "IZERO", "LUT_ADDRESS", "LUT_PROGRAM_TEMPERATURE", "LUT_PROGRAM_OUTPUT_VALUE",
     "LUT_LENGTH", "I2C_BASE_ADDRESS", "CURRENT_RANGE", "STORE_ON_FLASH"]
  }

  function WriteFormats(): seq<Format> {
    [Bool, Bool, Int, Float, Float, Int, Int, Int, Bool]
  }

  function ReadNames(): seq<string> {
    ["LUT_ADDRESS", "LUT_PROGRAM_TEMPERATURE", "LUT_PROGRAM_OUTPUT_VALUE", "LUT_LENGTH", "I2C_BASE_ADDRESS",
     "CURRENT_RANGE", "PIN_STATUS", "VIN", "VOUT", "IOUT", "VREF", "TREF", "V_TARGET_READ", "R_TARGET", "CVT",
     "COMPLIANCE_V", "COMPLIANCE_I", "PRODUCT_CODE", "FW_VERSION", "HW_VERSION", "SERIAL_NUMBER"]
  }

  function ReadFormats(): seq<Format> {
    [Int, Float, Float, Int, Int, Int, Int, Float, Float, Float, Float, Float, Float, Float, Float,
     Bool, Bool, Int, Float, Float, Int]
  }

  function VoltageActions(): seq<Action> {
    Setters(["HighVoltageEnable", "HighVoltageSet", "LowVoltageSet"], [Bool, Float, Float])
  }

  function SipmWriteActions(): seq<Action> {
    Setters(SharedNames() + WriteNames(), SharedFormats() + WriteFormats())
  }

  function SipmReadActions(): seq<Action> {
    Getters(SharedNames() + ReadNames(), SharedFormats() + ReadFormats())
  }

  function TemperatureActions(): seq<Action> {
    [Action("Shutdown", [Uint, Bool], None), Action("Thermostat", [Uint, Bool], None),
     Action("Polarity", [Uint, Bool], None), Action("FaultQueue", [Uint, Uint], None),
     Action("OneShot", [Uint, Bool], None), Action("ExtendedMode", [Uint, Bool], None),
     Action("Conversion", [Uint, Uint], None)]
  }

  function TemperatureReadActions(): seq<Action> {
    [Action("Read", [Uint], Some(Float))]
  }

  function HumidityActions(): seq<Action> {
    Entries(["RequestRead", "ReadHumidity", "ReadTemperature", "SoftReset"], [], [None, Some(Float), Some(Float), None])
  }

  function MuxActions(): seq<Action> {
    Entries(["Left", "Right"], [], [None, None])
  }

  function SipmDacActions(): seq<Action> {
    Entries(
      ["UpdateRegister", "PowerDownRegister", "PowerDownChip", "SelectInternalReference", "SelectExternalReference"],
      [Uint], [None, None, None, None, None])
  }

  function SipmDacWriteActions(): seq<Action> {
    Entries(["Write", "WriteUpdate", "WriteUpdateAll"], [Uint, Float], [None, None, None])
  }

  function Calvision(): Tables {
    [ Bare("NOpt"),
      Bare("Quit"),
      Grouped("VoltageControl", VoltageActions()),
      Grouped("SipmControlWrite", SipmWriteActions()),
      Grouped("SipmControlRead", SipmReadActions()),
      Grouped("TemperatureControl", TemperatureActions()),
      Grouped("TemperatureRead", TemperatureReadActions()),
      Grouped("HumidityControl", HumidityActions()),
      Grouped("MuxControl", MuxActions()),
      Grouped("SipmDacControl", SipmDacActions()),
      Grouped("SipmDacWrite", SipmDacWriteActions())]
  }

  lemma SharedNamesDistinct()
    ensures Distinct(SharedNames())
  {
  }

  lemma WriteNamesDistinct()
    ensures Distinct(WriteNames())
  {
  }

  lemma ReadNamesDistinct()
    ensures Distinct(ReadNames())
  {
  }

  ghost predicate Disjoint(a: seq<string>, b: seq<string>) {
    forall i, j :: 0 <= i < |a| && 0 <= j < |b| ==> a[i] != b[j]
  }

  lemma WriteNamesNotShared()
    ensures Disjoint(SharedNames(), WriteNames())
  {
  }

  lemma ReadNamesNotShared()
    ensures Disjoint(SharedNames(), ReadNames())
  {
  }

  lemma DistinctAppend(a: seq<string>, b: seq<string>)
    requires Distinct(a) && Distinct(b) && Disjoint(a, b)
    ensures Distinct(a + b)
  {
  }

  lemma SipmWriteDistinct()
    ensures Distinct(ActionNames(SipmWriteActions()))
  {
    var a, b := SharedNames(), WriteNames();
    SharedNamesDistinct();
    WriteNamesDistinct();
    WriteNamesNotShared();
    DistinctAppend(a, b);
    assert ActionNames(SipmWriteActions()) == a + b;
  }

  lemma SipmReadDistinct()
    ensures Distinct(ActionNames(SipmReadActions()))
  {
    var a, b := SharedNames(), ReadNames();
    SharedNamesDistinct();
    ReadNamesDistinct();
    ReadNamesNotShared();
    DistinctAppend(a, b);
    assert ActionNames(SipmReadActions()) == a + b;
  }

  lemma DeviceNamesDistinct()
    ensures Distinct(DeviceNames(Calvision()))
  {
  }

  lemma ControlNamesDistinct()
    ensures Distinct(ActionNames(VoltageActions())) && Distinct(ActionNames(TemperatureActions()))
    ensures Distinct(ActionNames(TemperatureReadActions())) && Distinct(ActionNames(HumidityActions()))
  {
  }

  lemma SwitchNamesDistinct()
    ensures Distinct(ActionNames(MuxActions())) && Distinct(ActionNames(SipmDacActions()))
    ensures Distinct(ActionNames(SipmDacWriteActions()))
  {
  }

  /** The tables meet what the rest of the model asks of a table. */
  lemma CalvisionTables()
    ensures Indexed(Calvision()) && Named(Calvision())
  {
    DeviceNamesDistinct();
    SipmWriteDistinct();
    SipmReadDistinct();
    ControlNamesDistinct();
    SwitchNamesDistinct();
  }
}
