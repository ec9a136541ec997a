// What a configuration file means: a map from keys to the last value given, and, for SIPM, a
// small history of selections.
module ConfigMeaning {
  import opened Wrappers
  import opened Wire
  import opened Text
  import opened Numbers
  import opened Config

  // ---- keys and values

  // Parts with a bus address; HV, LV and SipmDac also have a calibration.
  datatype Part = HvPart | LvPart | SipmDacPart | MuxPart | TemperaturePart | HumidityPart
  datatype Key = PathKey | BusKey(part: Part, command: I2cCommand) | DacKey(part: Part, dac: DacCommand) | RetriesKey
  datatype Value = Path(text: string) | Number(n: nat)

  predicate HasDac(p: Part) { p.HvPart? || p.LvPart? || p.SipmDacPart? }

  /** Keys of fields that exist. */
  predicate IsKey(k: Key) { k.DacKey? ==> HasDac(k.part) }

  function I2cOf(s: Settings, p: Part): I2cInput {
    match p
    case HvPart => s.hv.i2c
    case LvPart => s.lv.i2c
    case SipmDacPart => s.sipmDac.i2c
    case MuxPart => s.mux
    case TemperaturePart => s.temperature
    case HumidityPart => s.humidity.i2c
  }

  function DacOf(s: Settings, p: Part): DacInput
    requires HasDac(p)
  {
    match p
    case HvPart => s.hv.dac
    case LvPart => s.lv.dac
    case SipmDacPart => s.sipmDac.dac
  }

  function Get(s: Settings, k: Key): Value
    requires IsKey(k)
  {
    match k
    case PathKey => Path(s.gpioFile)
    case BusKey(p, c) => Number(if c == BusId then I2cOf(s, p).busId else I2cOf(s, p).devId)
    case DacKey(p, c) =>
      (match c
       case VMin => Number(DacOf(s, p).vMin)
       case VMax => Number(DacOf(s, p).vMax)
       case DacMin => Number(DacOf(s, p).dacMin)
       case DacMax => Number(DacOf(s, p).dacMax))
    case RetriesKey => Number(s.humidity.numRetries)
  }

  // ---- the meaning of one line, whatever the settings before it

  datatype SipmOp = Selects(impl: Impl) | SetsPath(path: string) | SetsBus(command: I2cCommand, id: Byte)

  datatype Effect = Nothing | Bad | Assigns(key: Key, value: Value) | SipmEffect(op: SipmOp)

  function PartOf(section: Section): Option<Part> {
    match section
    case HV => Some(HvPart)
    case LV => Some(LvPart)
    case SipmDac => Some(SipmDacPart)
    case Multiplexer => Some(MuxPart)
    case Temperature => Some(TemperaturePart)
    case Humidity => Some(HumidityPart)
    case _ => None
  }

  /** The key a section and a name select, if there is one. */
  function KeyOf(section: Section, name: string): (k: Option<Key>)
    ensures k.Some? ==> IsKey(k.value)
  {
    if section == GpioChip && name == "Path" then Some(PathKey)
    else if PartOf(section).None? then None
    else
      var p := PartOf(section).value;
      if I2cCommandOf(name).Some? then Some(BusKey(p, I2cCommandOf(name).value))
      else if HasDac(p) && DacCommandOf(name).Some? then Some(DacKey(p, DacCommandOf(name).value))
      else if p == HumidityPart && name == "NumRetries" then Some(RetriesKey)
      else None
  }

  /** Keys of integer fields; the others hold a path or a voltage. */
  predicate IsCount(k: Key) {
    !k.PathKey? && !(k.DacKey? && (k.dac == VMin || k.dac == VMax))
  }

  /** The number of values of an integer field. */
  function ModulusOf(k: Key): (m: nat)
    requires IsCount(k)
    ensures m > 0
  {
    if k.BusKey? then 0x100 else if k.DacKey? then 0x1_0000 else ULONG_LIMIT
  }

  /** The value a text gives a key, truncated to the width of the field; None throws. */
  function ValueOf(stof: FloatReader, k: Key, text: string): Option<Value> {
    if k.PathKey? then Some(Path(text))
    else if !IsCount(k) then
      match stof(text) case None => None case Some(w) => Some(Number(w))
    else
      match Stol(text) case None => None case Some(v) => Some(Number(v % ModulusOf(k)))
  }

  function SipmMeans(name: string, text: string): Effect {
    if SipmCommandOf(name) == Some(SelectImpl) then
      match ImplOf(text) case None => Nothing case Some(impl) => SipmEffect(Selects(impl))
    else if SipmCommandOf(name) == Some(UartPath) then SipmEffect(SetsPath(text))
    else
      match I2cCommandOf(name)
      case None => Nothing
      case Some(c) => (match Stol(text) case None => Bad case Some(v) => SipmEffect(SetsBus(c, v % 0x100)))
  }

  function TokensMean(stof: FloatReader, section: Section, tokens: seq<string>): Effect {
    if |tokens| != 3 then Nothing
    else if section == Sipm then SipmMeans(tokens[1], tokens[2])
    else
      match KeyOf(section, tokens[1])
      case None => Nothing
      case Some(k) => (match ValueOf(stof, k, tokens[2]) case None => Bad case Some(v) => Assigns(k, v))
  }

  ghost function Means(stof: FloatReader, line: string): Effect {
    var tokens := Tokens(line);
    if tokens == [] || SectionOf(tokens[0]).None? then Nothing
    else TokensMean(stof, SectionOf(tokens[0]).value, tokens)
  }

  /** What an operation does to the SIPM part: a path or bus value counts only once opened. */
  function DoSipm(s: SipmInput, op: SipmOp): SipmInput {
    match op
    case Selects(impl) => Select(s, impl)
    case SetsPath(path) => if s.uartPath.Some? then s.(uartPath := Some(path)) else s
    case SetsBus(c, id) =>
      if s.i2c.None? then s
      else s.(i2c := Some(if c == BusId then s.i2c.value.(busId := id) else s.i2c.value.(devId := id)))
  }

  /** s' is s but for the effect: the key it assigns, or the SIPM part. */
  ghost predicate Changes(s: Settings, effect: Effect, s': Settings) {
    && (forall k :: IsKey(k) ==>
          Get(s', k) == if effect.Assigns? && effect.key == k then effect.value else Get(s, k))
    && s'.sipm == if effect.SipmEffect? then DoSipm(s.sipm, effect.op) else s.sipm
  }

  /** What it is for the parsers to do what tokens mean. */
  ghost predicate Agrees(stof: FloatReader, s: Settings, section: Section, tokens: seq<string>) {
    match ParseTokens(stof, s, section, tokens)
    case None => TokensMean(stof, section, tokens) == Bad
    case Some(s') => TokensMean(stof, section, tokens) != Bad && Changes(s, TokensMean(stof, section, tokens), s')
  }

  lemma HvAgrees(stof: FloatReader, s: Settings, tokens: seq<string>)
    ensures Agrees(stof, s, HV, tokens)
  {
  }

  lemma LvAgrees(stof: FloatReader, s: Settings, tokens: seq<string>)
    ensures Agrees(stof, s, LV, tokens)
  {
  }

  lemma SipmDacAgrees(stof: FloatReader, s: Settings, tokens: seq<string>)
    ensures Agrees(stof, s, SipmDac, tokens)
  {
  }

  lemma SipmAgrees(stof: FloatReader, s: Settings, tokens: seq<string>)
    ensures Agrees(stof, s, Sipm, tokens)
  {
  }

  lemma GpioAgrees(stof: FloatReader, s: Settings, tokens: seq<string>)
    ensures Agrees(stof, s, GpioChip, tokens)
  {
  }

  lemma MuxAgrees(stof: FloatReader, s: Settings, tokens: seq<string>)
    ensures Agrees(stof, s, Multiplexer, tokens)
  {
  }

  lemma TemperatureAgrees(stof: FloatReader, s: Settings, tokens: seq<string>)
    ensures Agrees(stof, s, Temperature, tokens)
  {
  }

  lemma HumidityAgrees(stof: FloatReader, s: Settings, tokens: seq<string>)
    ensures Agrees(stof, s, Humidity, tokens)
  {
  }

  /** The parsers do what the line means: nothing else changes, and a bad number is the only way
      to fail. */
  lemma LineMeans(stof: FloatReader, s: Settings, line: string)
    ensures match ParseLine(stof, s, line)
            case None => Means(stof, line) == Bad
            case Some(s') => Means(stof, line) != Bad && Changes(s, Means(stof, line), s')
  {
    var tokens := Tokens(line);
    if tokens != [] && SectionOf(tokens[0]).Some? {
      var section := SectionOf(tokens[0]).value;
      assert Agrees(stof, s, section, tokens) by {
        match section
        case HV => HvAgrees(stof, s, tokens);
        case LV => LvAgrees(stof, s, tokens);
        case SipmDac => SipmDacAgrees(stof, s, tokens);
        case Sipm => SipmAgrees(stof, s, tokens);
        case GpioChip => GpioAgrees(stof, s, tokens);
        case Multiplexer => MuxAgrees(stof, s, tokens);
        case Temperature => TemperatureAgrees(stof, s, tokens);
        case Humidity => HumidityAgrees(stof, s, tokens);
      }
    }
  }

  // ---- whole files

  /** The line gives a value to this key. */
  ghost predicate Sets(stof: FloatReader, line: string, k: Key) {
    Means(stof, line).Assigns? && Means(stof, line).key == k
  }

  /** Nothing is lost in the view by keys: settings that agree on every key and on SIPM are equal. */
  lemma SettingsByKeys(s: Settings, s': Settings)
    requires s.sipm == s'.sipm && forall k :: IsKey(k) ==> Get(s, k) == Get(s', k)
    ensures s == s'
  {
    assert Get(s, PathKey) == Get(s', PathKey) && Get(s, RetriesKey) == Get(s', RetriesKey);
    I2cByKeys(s, s', HvPart);
    I2cByKeys(s, s', LvPart);
    I2cByKeys(s, s', SipmDacPart);
    I2cByKeys(s, s', MuxPart);
    I2cByKeys(s, s', TemperaturePart);
    I2cByKeys(s, s', HumidityPart);
    DacByKeys(s, s', HvPart);
    DacByKeys(s, s', LvPart);
    DacByKeys(s, s', SipmDacPart);
  }

  lemma I2cByKeys(s: Settings, s': Settings, p: Part)
    requires forall k :: IsKey(k) ==> Get(s, k) == Get(s', k)
    ensures I2cOf(s, p) == I2cOf(s', p)
  {
    assert Get(s, BusKey(p, BusId)) == Get(s', BusKey(p, BusId));
    assert Get(s, BusKey(p, DevId)) == Get(s', BusKey(p, DevId));
  }

  lemma DacByKeys(s: Settings, s': Settings, p: Part)
    requires HasDac(p) && forall k :: IsKey(k) ==> Get(s, k) == Get(s', k)
    ensures DacOf(s, p) == DacOf(s', p)
  {
    assert Get(s, DacKey(p, VMin)) == Get(s', DacKey(p, VMin));
    assert Get(s, DacKey(p, VMax)) == Get(s', DacKey(p, VMax));
    assert Get(s, DacKey(p, DacMin)) == Get(s', DacKey(p, DacMin));
    assert Get(s, DacKey(p, DacMax)) == Get(s', DacKey(p, DacMax));
  }

  /** A file is accepted unless one of its lines holds a bad number. */
  lemma {:induction false} FileAccepted(stof: FloatReader, s: Settings, lines: seq<string>)
    ensures ParseAll(stof, s, lines).Some? <==> forall i :: 0 <= i < |lines| ==> Means(stof, lines[i]) != Bad
    decreases |lines|
  {
    if lines != [] {
      LineMeans(stof, s, lines[0]);
      var s1 := ParseLine(stof, s, lines[0]);
      if s1.Some? {
        FileAccepted(stof, s1.value, lines[1..]);
        assert forall i :: 1 <= i < |lines| ==> lines[i] == lines[1..][i - 1];
      }
    }
  }

  /** Outside SIPM a file is a map: each key holds the value of the last line that sets it (line
      i), or what it held before if no line does (i == |lines|). */
  lemma {:induction false} LastLineWins(stof: FloatReader, s: Settings, lines: seq<string>, k: Key, i: nat)
    requires IsKey(k) && ParseAll(stof, s, lines).Some? && i <= |lines|
    requires i < |lines| ==> Sets(stof, lines[i], k)
    requires forall j :: 0 <= j < |lines| && (i == |lines| || i < j) ==> !Sets(stof, lines[j], k)
    ensures Get(ParseAll(stof, s, lines).value, k) ==
            if i < |lines| then Means(stof, lines[i]).value else Get(s, k)
    decreases |lines|
  {
    if lines != [] {
      LineMeans(stof, s, lines[0]);
      var s1 := ParseLine(stof, s, lines[0]).value;
      LastLineWins(stof, s1, lines[1..], k, if i == 0 then |lines| - 1 else i - 1);
    }
  }

  // ---- numbers too wide for their field

  /** The line names the key of an integer field, and gives it the number v. */
  ghost predicate Writes(line: string, k: Key, v: int)
    requires IsKey(k)
  {
    var ts := Tokens(line);
    && IsCount(k) && |ts| == 3 && SectionOf(ts[0]).Some? && SectionOf(ts[0]).value != Sipm
    && KeyOf(SectionOf(ts[0]).value, ts[1]) == Some(k) && Stol(ts[2]) == Some(v)
  }

  lemma ModuloKeeps(v: int, m: nat)
    requires m > 0
    ensures v % m == v <==> 0 <= v < m
  {
  }

  /** After any accepted file a field holds the number written by the last line for its key
      exactly if the number fits the field. */
  lemma NumberKept(stof: FloatReader, s: Settings, lines: seq<string>, k: Key, i: nat, v: int)
    requires IsKey(k) && ParseAll(stof, s, lines).Some? && i < |lines| && Writes(lines[i], k, v)
    requires forall j :: i < j < |lines| ==> !Sets(stof, lines[j], k)
    ensures Get(ParseAll(stof, s, lines).value, k).Number?
    ensures Get(ParseAll(stof, s, lines).value, k).n == v <==> 0 <= v < ModulusOf(k)
  {
    LastLineWins(stof, s, lines, k, i);
    ModuloKeeps(v, ModulusOf(k));
  }

  lemma WideTokens()
    ensures Tokens("HV BusId 257") == ["HV", "BusId", "257"]
  {
    ThreeTokens("HV", "BusId", "257");
    assert "HV BusId 257" == "HV" + [' '] + ("BusId" + [' '] + "257");
  }

  lemma WideNumber()
    ensures Stol("257") == Some(257)
  {
    assert Decimal(2) == "2" && Decimal(25) == "25" && Decimal(257) == "257";
    StrtolOfDecimal(257);
  }

  /** "HV BusId 257" is accepted and sets bus 1. */
  lemma WideNumberWraps(stof: FloatReader, s: Settings)
    ensures Writes("HV BusId 257", BusKey(HvPart, BusId), 257)
    ensures ParseLine(stof, s, "HV BusId 257") == Some(s.(hv := s.hv.(i2c := s.hv.i2c.(busId := 1))))
  {
    WideTokens();
    WideNumber();
    WideParse(stof, s, ["HV", "BusId", "257"]);
  }

  lemma WideParse(stof: FloatReader, s: Settings, tokens: seq<string>)
    requires |tokens| == 3 && tokens[0] == "HV" && tokens[1] == "BusId" && Stol(tokens[2]) == Some(257)
    ensures ParseTokens(stof, s, HV, tokens) == Some(s.(hv := s.hv.(i2c := s.hv.i2c.(busId := 1))))
  {
  }

  /** The lines set different things: different keys, or at most one of them SIPM. */
  ghost predicate Independent(a: Effect, b: Effect) {
    && (a.Assigns? && b.Assigns? ==> a.key != b.key)
    && !(a.SipmEffect? && b.SipmEffect?)
  }

  lemma AdjacentSwap(stof: FloatReader, s: Settings, a: string, b: string)
    requires Independent(Means(stof, a), Means(stof, b))
    ensures ParseAll(stof, s, [a, b]) == ParseAll(stof, s, [b, a])
  {
    ParseTwo(stof, s, a, b);
    ParseTwo(stof, s, b, a);
    var ab, ba := ParseAll(stof, s, [a, b]), ParseAll(stof, s, [b, a]);
    FileAccepted(stof, s, [a, b]);
    FileAccepted(stof, s, [b, a]);
    assert ab.Some? <==> Means(stof, [a, b][0]) != Bad && Means(stof, [a, b][1]) != Bad;
    assert ba.Some? <==> Means(stof, [b, a][0]) != Bad && Means(stof, [b, a][1]) != Bad;
    if ab.Some? {
      SettingsByKeys(ab.value, ba.value);
    }
  }

  lemma ParseTwo(stof: FloatReader, s: Settings, a: string, b: string)
    ensures ParseAll(stof, s, [a, b]) ==
            match ParseLine(stof, s, a) case None => None case Some(s1) => ParseLine(stof, s1, b)
    ensures ParseAll(stof, s, [a, b]).Some? ==>
      exists s1 :: Changes(s, Means(stof, a), s1) && Changes(s1, Means(stof, b), ParseAll(stof, s, [a, b]).value)
  {
    LineMeans(stof, s, a);
    assert [a, b][1..] == [b] && [b][1..] == [];
    if ParseLine(stof, s, a).Some? {
      var s1 := ParseLine(stof, s, a).value;
      LineMeans(stof, s1, b);
      assert ParseAll(stof, s1, [b]) == ParseLine(stof, s1, b);
    }
  }

  lemma {:induction false} ParseAppend(stof: FloatReader, s: Settings, xs: seq<string>, ys: seq<string>)
    ensures ParseAll(stof, s, xs + ys) ==
            match ParseAll(stof, s, xs) case None => None case Some(s1) => ParseAll(stof, s1, ys)
    decreases |xs|
  {
    if xs == [] {
      assert xs + ys == ys;
    } else {
      assert (xs + ys)[1..] == xs[1..] + ys;
      var s1 := ParseLine(stof, s, xs[0]);
      if s1.Some? {
        ParseAppend(stof, s1.value, xs[1..], ys);
      }
    }
  }

  /** Swapping adjacent independent lines anywhere in a file changes nothing. */
  lemma SwapLines(stof: FloatReader, s: Settings, before: seq<string>, a: string, b: string, after: seq<string>)
    requires Independent(Means(stof, a), Means(stof, b))
    ensures ParseAll(stof, s, before + [a, b] + after) == ParseAll(stof, s, before + [b, a] + after)
  {
    ParseAppend(stof, s, before + [a, b], after);
    ParseAppend(stof, s, before + [b, a], after);
    ParseAppend(stof, s, before, [a, b]);
    ParseAppend(stof, s, before, [b, a]);
    if ParseAll(stof, s, before).Some? {
      AdjacentSwap(stof, ParseAll(stof, s, before).value, a, b);
    }
  }

  // ---- the SIPM part

  /** What device construction relies on: the selected implementation has its data. */
  predicate SipmReady(sipm: SipmInput) {
    && (sipm.impl == Uart ==> sipm.uartPath.Some?)
    && (sipm.impl == I2c ==> sipm.i2c.Some?)
  }

  /** It holds after every initial part of every accepted file. */
  lemma {:induction false} SipmAlwaysReady(stof: FloatReader, s: Settings, lines: seq<string>)
    requires SipmReady(s.sipm) && ParseAll(stof, s, lines).Some?
    ensures SipmReady(ParseAll(stof, s, lines).value.sipm)
    ensures forall i :: 0 <= i <= |lines| ==>
      ParseAll(stof, s, lines[..i]).Some? && SipmReady(ParseAll(stof, s, lines[..i]).value.sipm)
    decreases |lines|
  {
    forall i | 0 <= i <= |lines|
      ensures ParseAll(stof, s, lines[..i]).Some? && SipmReady(ParseAll(stof, s, lines[..i]).value.sipm)
    {
      if i > 0 {
        LineMeans(stof, s, lines[0]);
        SipmAlwaysReady(stof, ParseLine(stof, s, lines[0]).value, lines[1..]);
        assert lines[..i][1..] == lines[1..][..i - 1];
      }
    }
    assert lines[..|lines|] == lines;
  }

  datatype Control = NoControl | UartControl(path: string) | I2cControl(i2c: I2cInput) | NoPath | NoData

  /** make_control's decision; NoPath and NoData are its two error messages. */
  function MakeControl(input: SipmInput): Control {
    match input.impl
    case Disable => NoControl
    case Uart => if input.uartPath.Some? then UartControl(input.uartPath.value) else NoPath
    case I2c => if input.i2c.Some? then I2cControl(input.i2c.value) else NoData
  }

  /** From the constructor's initial settings, neither error is ever reached. */
  lemma ControlAlwaysHasData(stof: FloatReader, s: Settings, lines: seq<string>)
    requires s.sipm == SipmInput(Disable, None, None) && ParseAll(stof, s, lines).Some?
    ensures var c := MakeControl(ParseAll(stof, s, lines).value.sipm); !c.NoPath? && !c.NoData?
  {
    SipmAlwaysReady(stof, s, lines);
  }

  /** The SIPM part of a file alone. */
  ghost function SipmOps(stof: FloatReader, lines: seq<string>): seq<SipmOp> {
    if lines == [] then []
    else
      var e := Means(stof, lines[0]);
      (if e.SipmEffect? then [e.op] else []) + SipmOps(stof, lines[1..])
  }

  function DoAll(s: SipmInput, ops: seq<SipmOp>): SipmInput
    decreases |ops|
  {
    if ops == [] then s else DoAll(DoSipm(s, ops[0]), ops[1..])
  }

  lemma {:induction false} SipmIsItsLines(stof: FloatReader, s: Settings, lines: seq<string>)
    requires ParseAll(stof, s, lines).Some?
    ensures ParseAll(stof, s, lines).value.sipm == DoAll(s.sipm, SipmOps(stof, lines))
    decreases |lines|
  {
    if lines != [] {
      LineMeans(stof, s, lines[0]);
      SipmIsItsLines(stof, ParseLine(stof, s, lines[0]).value, lines[1..]);
      var e := Means(stof, lines[0]);
      if e.SipmEffect? {
        assert SipmOps(stof, lines)[1..] == SipmOps(stof, lines[1..]);
      } else {
        assert SipmOps(stof, lines) == SipmOps(stof, lines[1..]);
      }
    }
  }

  /** The last path given, or the empty path. */
  function LastPath(ops: seq<SipmOp>): string {
    if ops == [] then ""
    else if ops[|ops| - 1].SetsPath? then ops[|ops| - 1].path
    else LastPath(ops[..|ops| - 1])
  }

  function LastBus(ops: seq<SipmOp>): I2cInput {
    if ops == [] then I2cInput(0, 0)
    else
      var last, i2c := ops[|ops| - 1], LastBus(ops[..|ops| - 1]);
      if last.SetsBus? then (if last.command == BusId then i2c.(busId := last.id) else i2c.(devId := last.id)) else i2c
  }

  lemma {:induction false} DoAllLast(s: SipmInput, ops: seq<SipmOp>)
    requires ops != []
    ensures DoAll(s, ops) == DoSipm(DoAll(s, ops[..|ops| - 1]), ops[|ops| - 1])
    decreases |ops|
  {
    if |ops| > 1 {
      DoAllLast(DoSipm(s, ops[0]), ops[1..]);
      assert ops[1..][..|ops| - 2] == ops[..|ops| - 1][1..];
    } else {
      assert ops[1..] == [] && ops[..0] == [];
    }
  }

  lemma DropLast(ops: seq<SipmOp>, k: nat)
    requires k < |ops|
    ensures var tail := ops[k..];
      tail != [] && tail[..|tail| - 1] == ops[..|ops| - 1][k..] && tail[|tail| - 1] == ops[|ops| - 1]
  {
  }

  /** A path counts only after the last line that selects UART, which clears it (line i); without
      such a line (i == |ops|) there is none. */
  lemma {:induction false} PathHistory(s: SipmInput, ops: seq<SipmOp>, i: nat)
    requires s.uartPath == None && i <= |ops|
    requires i < |ops| ==> ops[i] == Selects(Uart)
    requires forall j :: 0 <= j < |ops| && (i == |ops| || i < j) ==> ops[j] != Selects(Uart)
    ensures DoAll(s, ops).uartPath == if i < |ops| then Some(LastPath(ops[i + 1..])) else None
    decreases |ops|
  {
    if ops != [] {
      var front, n := ops[..|ops| - 1], |ops|;
      DoAllLast(s, ops);
      if i == n - 1 {
        assert ops[i + 1..] == [];
      } else {
        PathHistory(s, front, if i == n then n - 1 else i);
        if i < n {
          DropLast(ops, i + 1);
        }
      }
    }
  }

  /** The same for the bus and device numbers of I2C, which start again from 0. */
  lemma {:induction false} BusHistory(s: SipmInput, ops: seq<SipmOp>, i: nat)
    requires s.i2c == None && i <= |ops|
    requires i < |ops| ==> ops[i] == Selects(I2c)
    requires forall j :: 0 <= j < |ops| && (i == |ops| || i < j) ==> ops[j] != Selects(I2c)
    ensures DoAll(s, ops).i2c == if i < |ops| then Some(LastBus(ops[i + 1..])) else None
    decreases |ops|
  {
    if ops != [] {
      var front, n := ops[..|ops| - 1], |ops|;
      DoAllLast(s, ops);
      if i == n - 1 {
        assert ops[i + 1..] == [];
      } else {
        BusHistory(s, front, if i == n then n - 1 else i);
        if i < n {
          DropLast(ops, i + 1);
        }
      }
    }
  }

  // ---- the control that is made

  /** The implementation is that of the last line that selects one (operation i). */
  lemma {:induction false} LastImpl(s: SipmInput, ops: seq<SipmOp>, i: nat)
    requires i <= |ops| && (i < |ops| ==> ops[i].Selects?)
    requires forall j :: 0 <= j < |ops| && (i == |ops| || i < j) ==> !ops[j].Selects?
    ensures DoAll(s, ops).impl == if i < |ops| then ops[i].impl else s.impl
    decreases |ops|
  {
    if ops != [] {
      DoAllLast(s, ops);
      if i != |ops| - 1 {
        LastImpl(s, ops[..|ops| - 1], if i == |ops| then |ops| - 1 else i);
      }
    }
  }

  /** The control made after an accepted file: none without a selection; otherwise that of the last
      selection, a UART with the last path given after it, an I2C with the last numbers. */
  lemma ControlMade(stof: FloatReader, s: Settings, lines: seq<string>, i: nat)
    requires s.sipm == SipmInput(Disable, None, None) && ParseAll(stof, s, lines).Some?
    requires i <= |SipmOps(stof, lines)| && (i < |SipmOps(stof, lines)| ==> SipmOps(stof, lines)[i].Selects?)
    requires forall j :: 0 <= j < |SipmOps(stof, lines)| && (i == |SipmOps(stof, lines)| || i < j) ==>
      !SipmOps(stof, lines)[j].Selects?
    ensures var ops := SipmOps(stof, lines);
      MakeControl(ParseAll(stof, s, lines).value.sipm) ==
      if i == |ops| || ops[i].impl == Disable then NoControl
      else if ops[i].impl == Uart then UartControl(LastPath(ops[i + 1..]))
      else I2cControl(LastBus(ops[i + 1..]))
  {
    var ops := SipmOps(stof, lines);
    SipmIsItsLines(stof, s, lines);
    LastImpl(s.sipm, ops, i);
    if i < |ops| && ops[i] == Selects(Uart) {
      PathHistory(s.sipm, ops, i);
    } else if i < |ops| && ops[i] == Selects(I2c) {
      BusHistory(s.sipm, ops, i);
    }
  }

  // ---- the numbers of SIPM

  /** The line selects I2C, which starts its numbers again. */
  ghost predicate OpensBus(stof: FloatReader, line: string) {
    Means(stof, line) == SipmEffect(Selects(I2c))
  }

  ghost predicate SetsBusNumber(stof: FloatReader, line: string, c: I2cCommand) {
    Means(stof, line).SipmEffect? && Means(stof, line).op.SetsBus? && Means(stof, line).op.command == c
  }

  /** The line gives a bus or device number v to SIPM. */
  ghost predicate WritesBus(line: string, c: I2cCommand, v: int) {
    var ts := Tokens(line);
    |ts| == 3 && ts[0] == "SIPM" && I2cCommandOf(ts[1]) == Some(c) && Stol(ts[2]) == Some(v)
  }

  function BusNumber(i2c: I2cInput, c: I2cCommand): Byte {
    if c == BusId then i2c.busId else i2c.devId
  }

  lemma WritesBusMeans(stof: FloatReader, line: string, c: I2cCommand, v: int)
    requires WritesBus(line, c, v)
    ensures Means(stof, line) == SipmEffect(SetsBus(c, v % 0x100))
  {
  }

  /** With I2C selected and not selected again, a number is that of its last line (line j), or stays
      if no line sets it (j == |lines|). */
  lemma {:induction false} OpenBusHolds(stof: FloatReader, s: Settings, lines: seq<string>, c: I2cCommand, j: nat)
    requires s.sipm.i2c.Some? && ParseAll(stof, s, lines).Some? && j <= |lines|
    requires forall k :: 0 <= k < |lines| ==> !OpensBus(stof, lines[k])
    requires j < |lines| ==> SetsBusNumber(stof, lines[j], c)
    requires forall k :: 0 <= k < |lines| && (j == |lines| || j < k) ==> !SetsBusNumber(stof, lines[k], c)
    ensures var i2c := ParseAll(stof, s, lines).value.sipm.i2c;
      && i2c.Some?
      && BusNumber(i2c.value, c) ==
         if j < |lines| then Means(stof, lines[j]).op.id else BusNumber(s.sipm.i2c.value, c)
    decreases |lines|
  {
    if lines != [] {
      assert !OpensBus(stof, lines[0]);
      LineMeans(stof, s, lines[0]);
      var s1 := ParseLine(stof, s, lines[0]).value;
      OpenBusHolds(stof, s1, lines[1..], c, if j == 0 then |lines| - 1 else j - 1);
    }
  }

  lemma OpenedBusKept(stof: FloatReader, s: Settings, lines: seq<string>, c: I2cCommand, j: nat, v: int)
    requires s.sipm.i2c.Some? && ParseAll(stof, s, lines).Some? && j < |lines| && WritesBus(lines[j], c, v)
    requires forall k :: 0 <= k < |lines| ==> !OpensBus(stof, lines[k])
    requires forall k :: j < k < |lines| ==> !SetsBusNumber(stof, lines[k], c)
    ensures var i2c := ParseAll(stof, s, lines).value.sipm.i2c;
      i2c.Some? && (BusNumber(i2c.value, c) == v <==> 0 <= v < 0x100)
  {
    WritesBusMeans(stof, lines[j], c, v);
    OpenBusHolds(stof, s, lines, c, j);
    ModuloKeeps(v, 0x100);
  }

  /** After any accepted file whose last line selecting I2C is line i: a bus or device number holds
      what its last line after i wrote (line j) exactly if that fits 8 bits. */
  lemma {:induction false} SipmNumberKept(stof: FloatReader, s: Settings, lines: seq<string>, c: I2cCommand,
                                          i: nat, j: nat, v: int)
    requires ParseAll(stof, s, lines).Some? && i < j < |lines|
    requires OpensBus(stof, lines[i]) && forall k :: i < k < |lines| ==> !OpensBus(stof, lines[k])
    requires WritesBus(lines[j], c, v) && forall k :: j < k < |lines| ==> !SetsBusNumber(stof, lines[k], c)
    ensures var i2c := ParseAll(stof, s, lines).value.sipm.i2c;
      i2c.Some? && (BusNumber(i2c.value, c) == v <==> 0 <= v < 0x100)
    decreases |lines|
  {
    LineMeans(stof, s, lines[0]);
    var s1, rest := ParseLine(stof, s, lines[0]).value, lines[1..];
    if i > 0 {
      SipmNumberKept(stof, s1, rest, c, i - 1, j - 1, v);
    } else {
      OpenedBusKept(stof, s1, rest, c, j - 1, v);
    }
  }
}
