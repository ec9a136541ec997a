// The execute bodies of server/Command*.cpp as functions: what a command does to the
// devices, and what it returns.
module Execution {
  import opened Wrappers
  import opened Wire
  import opened Numbers
  import opened Tables
  import opened Codec
  import opened Calibration
  import opened Devices
  import Aht10
  import Tmp112

  datatype ErrorCode =
    | Success | InvalidCommand | PoorlyStructuredCommand | ResourceUnavailable | VoltageOutOfRange
    | UnspecifiedFailure | CannotWrite | CannotRead | ResourceBusy

  function ErrorIndex(e: ErrorCode): (i: Half)
    ensures i < 9
  {
    match e
    case Success => 0
    case InvalidCommand => 1
    case PoorlyStructuredCommand => 2
    case ResourceUnavailable => 3
    case VoltageOutOfRange => 4
    case UnspecifiedFailure => 5
    case CannotWrite => 6
    case CannotRead => 7
    case ResourceBusy => 8
  }

  datatype ReturnData = ReturnData(error: ErrorCode, value: Option<Word>)

  function ReplyCode(d: ReturnData): seq<Byte> { PutHalf(ErrorIndex(d.error)) }

  /** What the server writes for a reply. */
  function ReplyBytes(d: ReturnData): seq<Byte> {
    ReplyCode(d) + if d.value.Some? then PutWord(d.value.value) else []
  }

  // Replies: execute returned.  Raises: it threw a runtime_error.  Dies: it threw a logic_error,
  // which nothing on the server catches, or read its parameters out of bounds.
  datatype Outcome = Replies(data: ReturnData) | Raises | Dies

  function Fails(e: ErrorCode): Outcome { Replies(ReturnData(e, None)) }
  function Done(): Outcome { Replies(ReturnData(Success, None)) }
  function Returns(w: Word): Outcome { Replies(ReturnData(Success, Some(w))) }

  // One DAC chip: its calibration and every frame given to its bus so far.
  datatype Chip = Chip(cal: Calibration, wire: seq<Message>)

  // How the SiPM supply is attached.
  datatype SipmLink = UartLink | I2cLink

  // The devices; None and false are the null pointers of devices that failed to open.
  datatype State = State(
    quit: bool,
    gpio: Option<bool>,
    hv: Option<Chip>,
    lv: Option<Chip>,
    sipm: Option<SipmLink>,
    temperature: Option<Tmp112.Thermometer>,
    mux: bool,
    humidity: Option<Aht10.Hygrometer>,
    ltc: Option<Chip>)

  // What the hardware does during one execution: whether the multiplexer and the device are
  // good(), whether using the device throws a runtime_error and after how many accesses that went
  // through, and what the devices answer: a word, the characters of a UART reply, the six bytes of
  // the humidity sensor.
  datatype Hardware = Hardware(
    muxGood: bool, muxThrows: bool, good: bool, throws: bool, completed: nat,
    word: Word, reply: string, answer: Aht10.Answer)

  // ---- the execute bodies

  function SetVoltage(fpu: Fpu, chip: Option<Chip>, v: Float, hw: Hardware): (Option<Chip>, Outcome) {
    if chip.None? || !hw.good then (chip, Fails(ResourceUnavailable))
    else if !Accepts(chip.value.cal, v) then (chip, Fails(VoltageOutOfRange))
    else
      var wire := chip.value.wire + [McpFrame(fpu, chip.value.cal, v)];
      (Some(chip.value.(wire := wire)), if hw.throws then Raises else Done())
  }

  function VoltageControl(fpu: Fpu, s: State, data: seq<Word>, hw: Hardware): (State, Outcome)
    requires data != [] && data[0] < 3
  {
    match data[0]
    case 0 =>
      if s.gpio.None? || !hw.good then (s, Fails(ResourceUnavailable))
      else if |data| < 2 then (s, Dies)
      else if hw.throws then (s, Raises)
      else (s.(gpio := Some(data[1] != 0)), Done())
    case 1 =>
      if s.hv.None? || !hw.good then (s, Fails(ResourceUnavailable))
      else if |data| < 2 then (s, Dies)
      else var (hv, r) := SetVoltage(fpu, s.hv, fpu.decode(data[1]), hw); (s.(hv := hv), r)
    case _ =>
      if s.lv.None? || !hw.good then (s, Fails(ResourceUnavailable))
      else if |data| < 2 then (s, Dies)
      else var (lv, r) := SetVoltage(fpu, s.lv, fpu.decode(data[1]), hw); (s.(lv := lv), r)
  }

  function SipmControlWrite(s: State, data: seq<Word>, hw: Hardware): Outcome {
    if |data| != 2 then Fails(PoorlyStructuredCommand)
    else if s.sipm.None? || !hw.good then Fails(ResourceUnavailable)
    else if hw.throws then Raises
    else Done()
  }

  /** The format of the register an action reads. */
  function RegisterFormat(action: Word): (f: Format)
    requires action < |SipmReadActions()|
    ensures SipmReadActions()[action].ret == Some(f)
  {
    (SharedFormats() + ReadFormats())[action]
  }

  /** Four raw bytes over I2C, a text over UART. */
  function SipmAnswer(fpu: Fpu, link: SipmLink, f: Format, hw: Hardware): UartRead {
    match link
    case I2cLink => UartValue(hw.word)
    case UartLink => UartReply(fpu.stof, f, hw.reply)
  }

  /** Only a runtime_error is caught, here or above. */
  function SipmControlRead(fpu: Fpu, s: State, data: seq<Word>, hw: Hardware): Outcome
    requires data != [] && data[0] < |SipmReadActions()|
  {
    if s.sipm.None? || !hw.good then Fails(ResourceUnavailable)
    else if hw.throws then Fails(InvalidCommand)
    else
      var f := RegisterFormat(data[0]);
      match SipmAnswer(fpu, s.sipm.value, f, hw)
      case UartValue(raw) => Returns(if f == Bool then (if raw != 0 then 1 else 0) else raw)
      case UartRuntimeError => Fails(InvalidCommand)
      case UartLogicError => Dies
  }

  datatype Acquired = Ready | Refused | MuxRaises

  function AcquireSensor(s: State, sensor: Word, hw: Hardware): Acquired {
    if !s.mux || !hw.muxGood then Refused
    else if sensor >= 2 then Refused
    else if hw.muxThrows then MuxRaises
    else Ready
  }

  /** The configuration field an action sets. */
  function FieldOf(action: Word): Tmp112.Field
    requires action < 7
  {
    match action
    case 0 => Tmp112.Shutdown
    case 1 => Tmp112.Thermostat
    case 2 => Tmp112.Polarity
    case 3 => Tmp112.FaultQueue
    case 4 => Tmp112.OneShot
    case 5 => Tmp112.ExtendedMode
    case _ => Tmp112.Conversion
  }

  /** The byte a parameter becomes: flags are 0 or 1, and other numbers lose their upper bits. */
  function FieldByte(f: Tmp112.Field, raw: Word): Byte {
    if Tmp112.Width(f) == 1 then (if raw != 0 then 1 else 0) else raw % 0x100
  }

  /** The table gives a field the format of its width. */
  lemma FieldFormats(action: Word)
    requires action < 7
    ensures TemperatureActions()[action].params == [Uint, if Tmp112.Width(FieldOf(action)) == 1 then Bool else Uint]
  {
    assert action in {0, 1, 2, 3, 4, 5, 6};
  }

  function TemperatureControl(s: State, data: seq<Word>, hw: Hardware): (State, Outcome)
    requires data != [] && data[0] < 7
  {
    if |data| != 3 then (s, Fails(PoorlyStructuredCommand))
    else
      match AcquireSensor(s, data[1], hw)
      case Refused => (s, Fails(ResourceUnavailable))
      case MuxRaises => (s, Raises)
      case Ready =>
        if s.temperature.None? || !hw.good then (s, Fails(ResourceUnavailable))
        else
          var f := FieldOf(data[0]);
          var t := Tmp112.Store(s.temperature.value, f, FieldByte(f, data[2]), hw.throws, hw.completed);
          (s.(temperature := Some(t)), if hw.throws then Raises else Done())
  }

  /** The two bytes are converted by code outside this model: word is what it returns. */
  function TemperatureRead(s: State, data: seq<Word>, hw: Hardware): (State, Outcome) {
    if |data| != 2 then (s, Fails(PoorlyStructuredCommand))
    else
      match AcquireSensor(s, data[1], hw)
      case Refused => (s, Fails(ResourceUnavailable))
      case MuxRaises => (s, Raises)
      case Ready =>
        if s.temperature.None? || !hw.good then (s, Fails(ResourceUnavailable))
        else
          var t := s.temperature.value.(wire := s.temperature.value.wire + [[Tmp112.TEMPERATURE]]);
          (s.(temperature := Some(t)), if hw.throws then Raises else Returns(hw.word))
  }

  function HumidityControl(fpu: Fpu, s: State, data: seq<Word>, hw: Hardware): (State, Outcome)
    requires data != [] && data[0] < 4
  {
    if |data| != 1 then (s, Fails(PoorlyStructuredCommand))
    else if s.humidity.None? || !hw.good then (s, Fails(ResourceUnavailable))
    else
      var h := s.humidity.value;
      match data[0]
      case 0 =>
        (s.(humidity := Some(Aht10.Requested(fpu, h, hw.answer, hw.throws))),
         if hw.throws then Raises else if h.numRetries > 0 then Done() else Fails(ResourceBusy))
      case 1 => (s, Returns(h.humidity))
      case 2 => (s, Returns(h.temperature))
      case _ =>
        (s.(humidity := Some(h.(wire := h.wire + [Aht10.RESET]))), if hw.throws then Raises else Done())
  }

  function MuxControl(s: State, data: seq<Word>, hw: Hardware): Outcome {
    if |data| != 1 then Fails(PoorlyStructuredCommand)
    else if !s.mux || !hw.muxGood then Fails(ResourceUnavailable)
    else if hw.muxThrows then Raises
    else Done()
  }

  function AcquireDac(s: State, number: Word, hw: Hardware): (r: Acquired)
    ensures r == Ready ==> number < 8
  {
    if !s.mux || !hw.muxGood then Refused
    else if number >= 8 then Refused
    else if hw.muxThrows then MuxRaises
    else Ready
  }

  /** DACs 4 to 7 are DACs A to D behind the other side of the multiplexer. */
  function DacOf(number: Word): LtcDac
    requires number < 8
  {
    match number % 4
    case 0 => DacA
    case 1 => DacB
    case 2 => DacC
    case _ => DacD
  }

  function SendLtc(s: State, frame: Message, hw: Hardware): (State, Outcome)
    requires s.ltc.Some?
  {
    (s.(ltc := Some(s.ltc.value.(wire := s.ltc.value.wire + [frame]))), if hw.throws then Raises else Done())
  }

  function ControlCode(action: Word): (c: LtcCommand)
    requires action < 5
    ensures !HasParameter(c)
  {
    match action
    case 0 => UpdateRegister
    case 1 => PowerDownRegister
    case 2 => PowerDownChip
    case 3 => SelectInternalReference
    case _ => SelectExternalReference
  }

  function WriteCode(action: Word): (c: LtcCommand)
    requires action < 3
    ensures HasParameter(c)
  {
    match action
    case 0 => WriteRegister
    case 1 => WriteUpdateRegister
    case _ => WriteRegisterUpdateAll
  }

  function SipmDacControl(s: State, data: seq<Word>, hw: Hardware): (State, Outcome)
    requires data != [] && data[0] < 5
  {
    if |data| != 2 then (s, Fails(PoorlyStructuredCommand))
    else
      match AcquireDac(s, data[1], hw)
      case Refused => (s, Fails(ResourceUnavailable))
      case MuxRaises => (s, Raises)
      case Ready =>
        if s.ltc.None? || !hw.good then (s, Fails(ResourceUnavailable))
        else SendLtc(s, LtcControlFrame(ControlCode(data[0]), DacOf(data[1])), hw)
  }

  /** No range check here: any voltage is converted and sent. */
  function SipmDacWrite(fpu: Fpu, s: State, data: seq<Word>, hw: Hardware): (State, Outcome)
    requires data != [] && data[0] < 3
  {
    if |data| != 3 then (s, Fails(PoorlyStructuredCommand))
    else
      match AcquireDac(s, data[1], hw)
      case Refused => (s, Fails(ResourceUnavailable))
      case MuxRaises => (s, Raises)
      case Ready =>
        if s.ltc.None? || !hw.good then (s, Fails(ResourceUnavailable))
        else
          SendLtc(s, LtcWriteFrame(fpu, s.ltc.value.cal, WriteCode(data[0]), DacOf(data[1]), fpu.decode(data[2])), hw)
  }

  // ---- dispatch

  function ActionCount(code: Word): nat {
    match code
    case 2 => 3
    case 3 => 25
    case 4 => 37
    case 5 => 7
    case 6 => 1
    case 7 => 4
    case 8 => 2
    case 9 => 5
    case 10 => 3
    case _ => 0
  }

  /** The virtual execute(Context&, action) of the device with this code. */
  function Dispatch(fpu: Fpu, s: State, c: Command, hw: Hardware): (State, Outcome)
    requires c.data != [] && c.data[0] < ActionCount(c.code)
  {
    match c.code
    case 2 => VoltageControl(fpu, s, c.data, hw)
    case 3 => (s, SipmControlWrite(s, c.data, hw))
    case 4 => (s, SipmControlRead(fpu, s, c.data, hw))
    case 5 => TemperatureControl(s, c.data, hw)
    case 6 => TemperatureRead(s, c.data, hw)
    case 7 => HumidityControl(fpu, s, c.data, hw)
    case 8 => (s, MuxControl(s, c.data, hw))
    case 9 => SipmDacControl(s, c.data, hw)
    case _ => SipmDacWrite(fpu, s, c.data, hw)
  }

  /** BaseCommand::execute: NOpt, Quit, or the wrapper that turns a runtime_error into a reply. */
  function Execute(fpu: Fpu, s: State, c: Command, hw: Hardware): (State, Outcome) {
    if c.code == 0 then (s, Done())
    else if c.code == QUIT then (s.(quit := true), Done())
    else if c.data == [] || c.data[0] >= ActionCount(c.code) then (s, Fails(InvalidCommand))
    else
      var (s', r) := Dispatch(fpu, s, c, hw);
      (s', if r == Raises then Fails(ResourceUnavailable) else r)
  }

  // ---- the response contract

  /** The format of the value a command returns on success, as the table lists it. */
  function ReturnFormat(tb: Tables, c: Command): Option<Format> {
    if c.code >= |tb| || tb[c.code].Bare? || c.data == [] || c.data[0] >= |tb[c.code].actions| then None
    else tb[c.code].actions[c.data[0]].ret
  }

  /** A value comes back exactly on success of a command whose table entry has a return type. */
  ghost predicate Contract(tb: Tables, c: Command, d: ReturnData) {
    d.value.Some? <==> d.error == Success && ReturnFormat(tb, c).Some?
  }

  predicate HasReturn(c: Command) {
    c.code == 4 || c.code == 6 || (c.code == 7 && c.data != [] && c.data[0] in {1, 2})
  }

  lemma ActionCounts(code: Word)
    requires code < |Calvision()|
    ensures match Calvision()[code]
            case Bare(_) => ActionCount(code) == 0
            case Grouped(_, actions) => ActionCount(code) == |actions|
  {
  }

  lemma ReturnFormats(c: Command)
    requires WellFormed(Calvision(), c)
    ensures ReturnFormat(Calvision(), c).Some? <==> HasReturn(c)
    ensures HasReturn(c) && c.code != 4 ==> ReturnFormat(Calvision(), c) == Some(Float)
  {
    ActionCounts(c.code);
    if c.code == 5 {
      assert c.data[0] in {0, 1, 2, 3, 4, 5, 6};
    }
  }

  /** A reply carries a value just when it reports success and the command returns something,
      and its code is one the client can receive. */
  predicate Answers(r: Outcome, valued: bool) {
    && !r.Dies?
    && (r.Replies? ==> (r.data.value.Some? <==> r.data.error == Success && valued))
    && (r.Replies? ==> r.data.error in {Success, InvalidCommand, ResourceUnavailable, VoltageOutOfRange, ResourceBusy})
  }

  lemma VoltageAnswers(fpu: Fpu, s: State, data: seq<Word>, hw: Hardware)
    requires |data| == 2 && data[0] < 3
    ensures var (s', r) := VoltageControl(fpu, s, data, hw); Answers(r, false) && s'.quit == s.quit
  {
  }

  lemma TemperatureAnswers(s: State, data: seq<Word>, hw: Hardware)
    ensures |data| == 3 && data[0] < 7 ==>
      var (s', r) := TemperatureControl(s, data, hw); Answers(r, false) && s'.quit == s.quit
    ensures |data| == 2 ==>
      var (s', r) := TemperatureRead(s, data, hw); Answers(r, true) && s'.quit == s.quit
  {
  }

  lemma HumidityAnswers(fpu: Fpu, s: State, data: seq<Word>, hw: Hardware)
    requires |data| == 1 && data[0] < 4
    ensures var (s', r) := HumidityControl(fpu, s, data, hw); Answers(r, data[0] in {1, 2}) && s'.quit == s.quit
  {
  }

  lemma SipmDacAnswers(fpu: Fpu, s: State, data: seq<Word>, hw: Hardware)
    ensures |data| == 2 && data[0] < 5 ==>
      var (s', r) := SipmDacControl(s, data, hw); Answers(r, false) && s'.quit == s.quit
    ensures |data| == 3 && data[0] < 3 ==>
      var (s', r) := SipmDacWrite(fpu, s, data, hw); Answers(r, false) && s'.quit == s.quit
  {
  }

  /** The supply's reply over UART is too short or no number. */
  predicate KillingReply(fpu: Fpu, s: State, c: Command, hw: Hardware) {
    && c.code == 4 && c.data != [] && c.data[0] < |SipmReadActions()|
    && s.sipm == Some(UartLink) && hw.good && !hw.throws
    && UartReply(fpu.stof, RegisterFormat(c.data[0]), hw.reply) == UartLogicError
  }

  lemma SipmReadAnswers(fpu: Fpu, s: State, c: Command, hw: Hardware)
    requires c.code == 4 && c.data != [] && c.data[0] < |SipmReadActions()|
    ensures if KillingReply(fpu, s, c, hw) then SipmControlRead(fpu, s, c.data, hw).Dies?
            else Answers(SipmControlRead(fpu, s, c.data, hw), true)
  {
  }

  lemma DispatchAnswers(fpu: Fpu, s: State, c: Command, hw: Hardware)
    requires c.data != [] && c.data[0] < ActionCount(c.code)
    requires |c.data| == if c.code in {5, 10} then 3 else if c.code in {4, 7, 8} then 1 else 2
    ensures var (s', r) := Dispatch(fpu, s, c, hw);
      s'.quit == s.quit &&
      if KillingReply(fpu, s, c, hw) then r.Dies? else Answers(r, HasReturn(c))
  {
    match c.code
    case 2 => VoltageAnswers(fpu, s, c.data, hw);
    case 4 => SipmReadAnswers(fpu, s, c, hw);
    case 5 => TemperatureAnswers(s, c.data, hw);
    case 6 => TemperatureAnswers(s, c.data, hw);
    case 7 => HumidityAnswers(fpu, s, c.data, hw);
    case 9 => SipmDacAnswers(fpu, s, c.data, hw);
    case 10 => SipmDacAnswers(fpu, s, c.data, hw);
    case _ =>
  }

  /** For every command read_command can build, every state and every hardware behaviour: the
      reply carries a value exactly when the client will read one, no poorly-structured or
      unspecified failure is reported, and only a killing reply ends the server. */
  lemma ResponseContract(fpu: Fpu, s: State, c: Command, hw: Hardware)
    requires WellFormed(Calvision(), c)
    ensures var (s', r) := Execute(fpu, s, c, hw);
      && !r.Raises?
      && (r.Dies? <==> KillingReply(fpu, s, c, hw))
      && (r.Replies? ==> Contract(Calvision(), c, r.data))
      && (r.Replies? ==> r.data.error !in {PoorlyStructuredCommand, UnspecifiedFailure, CannotWrite, CannotRead})
      && s'.quit == (s.quit || c.code == QUIT)
  {
    ReturnFormats(c);
    ShapeOf(c);
    if c.code >= 2 {
      DispatchAnswers(fpu, s, c, hw);
    }
  }

  /** The shape of a command of the real tables, in numbers. */
  lemma ShapeOf(c: Command)
    requires WellFormed(Calvision(), c)
    ensures c.code < 11 && (c.code < 2 <==> c.data == [])
    ensures c.code >= 2 ==> c.data[0] < ActionCount(c.code)
    ensures c.code >= 2 ==> |c.data| == if c.code in {5, 10} then 3 else if c.code in {4, 7, 8} then 1 else 2
  {
    ActionCounts(c.code);
    if c.code == 5 {
      assert c.data[0] in {0, 1, 2, 3, 4, 5, 6};
    }
  }

  /** Commands no table allows, which no reader of frames makes, touch no device: an unknown device
      or action, and a wrong number of words where it is tested. */
  lemma Malformed(fpu: Fpu, s: State, c: Command, hw: Hardware)
    requires c.code >= 2
    ensures c.code >= 11 || c.data == [] || c.data[0] >= |Calvision()[c.code].actions| ==>
              Execute(fpu, s, c, hw) == (s, Fails(InvalidCommand))
    ensures c.code in {3, 5, 6, 7, 8, 9, 10} && c.data != [] && c.data[0] < |Calvision()[c.code].actions| &&
            |c.data| != 1 + |Calvision()[c.code].actions[c.data[0]].params| ==>
              Execute(fpu, s, c, hw) == (s, Fails(PoorlyStructuredCommand))
  {
    if c.code < 11 {
      ActionCounts(c.code);
      if c.data != [] && c.data[0] < ActionCount(c.code) {
        ParameterCount(c.code, c.data[0]);
      }
    }
  }

  /** Where the number of words is not tested, words too many are ignored, and a missing voltage or
      switch ends a server that has the device. */
  lemma MalformedUntested(fpu: Fpu, s: State, c: Command, hw: Hardware)
    requires c.code in {2, 4} && c.data != []
    ensures c.code == 2 && |c.data| == 1 && c.data[0] < 3 ==>
      var present := if c.data[0] == 0 then s.gpio.Some? else if c.data[0] == 1 then s.hv.Some? else s.lv.Some?;
      Execute(fpu, s, c, hw) == (s, if present && hw.good then Dies else Fails(ResourceUnavailable))
    ensures c.code == 2 && |c.data| > 2 ==> Execute(fpu, s, c, hw) == Execute(fpu, s, Command(2, c.data[..2]), hw)
    ensures c.code == 4 ==> Execute(fpu, s, c, hw) == Execute(fpu, s, Command(4, c.data[..1]), hw)
  {
  }

  lemma ParameterCount(code: Word, action: Word)
    requires 2 <= code < 11 && action < ActionCount(code)
    ensures ActionCount(code) == |Calvision()[code].actions|
    ensures |Calvision()[code].actions[action].params| ==
            if code in {5, 10} then 2 else if code in {4, 7, 8} then 0 else 1
  {
    ActionCounts(code);
    if code == 5 {
      assert action in {0, 1, 2, 3, 4, 5, 6};
    }
  }

  /** What an Int or Uint register holds comes back through a reply in the server's notation; a
      Bool register always comes back as 0. */
  lemma RegisterRead(fpu: Fpu, s: State, c: Command, hw: Hardware, raw: Word)
    requires WellFormed(Calvision(), c) && c.code == 4 && s.sipm == Some(UartLink) && hw.good && !hw.throws
    requires RegisterFormat(c.data[0]) != Float && hw.reply == UartText(RegisterFormat(c.data[0]), raw)
    ensures Execute(fpu, s, c, hw) == (s, Returns(if RegisterFormat(c.data[0]) == Bool then 0 else raw))
  {
    ShapeOf(c);
    UartRoundTrip(fpu.stof, RegisterFormat(c.data[0]), raw);
  }

  /** A supply that answers OK and nothing else to a read over UART ends the server. */
  lemma BareReplyKills(fpu: Fpu, s: State, hw: Hardware)
    requires s.sipm == Some(UartLink) && hw.good && !hw.throws && hw.reply == "OK\r\n"
    ensures WellFormed(Calvision(), Command(4, [1])) && Execute(fpu, s, Command(4, [1]), hw).1.Dies?
  {
    var c := Command(4, [1]);
    assert SipmReadActions()[1].params == [];
    ResponseContract(fpu, s, c, hw);
  }

  /** Over I2C a register read returns the four bytes of the answer, a Bool as 0 or 1. */
  lemma RegisterReadI2c(fpu: Fpu, s: State, c: Command, hw: Hardware)
    requires WellFormed(Calvision(), c) && c.code == 4 && s.sipm == Some(I2cLink) && hw.good && !hw.throws
    ensures ReturnFormat(Calvision(), c) != Some(Bool) ==> Execute(fpu, s, c, hw) == (s, Returns(hw.word))
    ensures ReturnFormat(Calvision(), c) == Some(Bool) ==>
              Execute(fpu, s, c, hw) == (s, Returns(if hw.word == 0 then 0 else 1))
  {
    ShapeOf(c);
  }

  /** Over UART a Float register returns what std::stof makes of the text after "OK,", and a text it
      refuses ends the server. */
  lemma FloatRegisterRead(fpu: Fpu, s: State, c: Command, hw: Hardware, t: string)
    requires WellFormed(Calvision(), c) && c.code == 4 && s.sipm == Some(UartLink) && hw.good && !hw.throws
    requires ReturnFormat(Calvision(), c) == Some(Float) && hw.reply == "OK," + t + "\r\n"
    ensures Execute(fpu, s, c, hw) ==
            (s, match fpu.stof(t) case Some(w) => Returns(w) case None => Dies)
  {
    ShapeOf(c);
    assert hw.reply[3..|hw.reply| - 2] == t;
  }

  /** A temperature read that succeeds asks for register 0 and returns the word of the reading. */
  lemma TemperatureReadValue(fpu: Fpu, s: State, c: Command, hw: Hardware)
    requires WellFormed(Calvision(), c) && c.code == 6
    requires Execute(fpu, s, c, hw).1.Replies? && Execute(fpu, s, c, hw).1.data.error == Success
    ensures s.temperature.Some? && Execute(fpu, s, c, hw) ==
            (s.(temperature := Some(s.temperature.value.(wire := s.temperature.value.wire + [[0]]))), Returns(hw.word))
  {
    ShapeOf(c);
  }
}
