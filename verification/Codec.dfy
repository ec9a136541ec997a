// common/Command.cpp and Command.h: commands built from tokens, written to a socket, and read
// back knowing only the tables.  No length is ever sent.
module Codec {
  import opened Wrappers
  import opened Wire
  import opened Text
  import opened Numbers
  import opened Tables

  // raw_enum_ and raw_data_.  For a device with actions, data[0] is the action's position.
  datatype Command = Command(code: Word, data: seq<Word>)

  /** The command has one action word and as many parameters as the table asks for. */
  ghost predicate WellFormed(tb: Tables, c: Command) {
    && c.code < |tb|
    && match tb[c.code]
       case Bare(_) => c.data == []
       case Grouped(_, actions) =>
         && c.data != [] && c.data[0] < |actions|
         && |c.data| == 1 + |actions[c.data[0]].params|
  }

  // ---- make_command

  // A token that std::stoi, stoul or stof refuses throws a logic_error, which the handler for
  // runtime_error lets through: it ends the program instead of rejecting the line.
  datatype Made = Made(command: Command) | NoCommand | Abort

  datatype Params = Params(words: seq<Word>) | WrongCount | BadNumber

  function Prepend(ws: seq<Word>, r: Params): Params {
    match r
    case Params(vs) => Params(ws + vs)
    case _ => r
  }

  /** Reading parameters off texts, one format after the other. */
  function ParseParams(stof: FloatReader, formats: seq<Format>, texts: seq<string>): (r: Params)
    ensures r.Params? ==> |r.words| == |formats| == |texts|
  {
    if formats == [] then (if texts == [] then Params([]) else WrongCount)
    else if texts == [] then WrongCount
    else
      match ReadToRaw(stof, formats[0], texts[0])
      case None => BadNumber
      case Some(w) => Prepend([w], ParseParams(stof, formats[1..], texts[1..]))
  }

  function MakeAction(stof: FloatReader, code: Word, actions: seq<Action>, tokens: seq<string>): Made
    requires |actions| < 0x1_0000_0000
  {
    if tokens == [] then NoCommand
    else
      match Lookup(ActionNames(actions), tokens[0])
      case None => NoCommand
      case Some(a) =>
        match ParseParams(stof, actions[a].params, tokens[1..])
        case Params(ws) => Made(Command(code, [a] + ws))
        case WrongCount => NoCommand
        case BadNumber => Abort
  }

  ghost function MakeCommand(tb: Tables, stof: FloatReader, tokens: seq<string>): Made
    requires Indexed(tb)
  {
    if tokens == [] then NoCommand
    else
      match Lookup(DeviceNames(tb), tokens[0])
      case None => NoCommand
      case Some(code) =>
        match tb[code]
        case Bare(_) => if |tokens| == 1 then Made(Command(code, [])) else NoCommand
        case Grouped(_, actions) => MakeAction(stof, code, actions, tokens[1..])
  }

  /** CommandCodeFunctor: the source's loop over the parameter formats. */
  method BuildAction(stof: FloatReader, code: Word, actions: seq<Action>, tokens: seq<string>) returns (r: Made)
    requires |actions| < 0x1_0000_0000
    ensures r == MakeAction(stof, code, actions, tokens)
  {
    if tokens == [] {
      return NoCommand;
    }
    var found := Lookup(ActionNames(actions), tokens[0]);
    if found.None? {
      return NoCommand;
    }
    var formats := actions[found.value].params;
    var texts := tokens[1..];
    var result: seq<Word> := [found.value];
    for i := 0 to |formats|
      invariant i <= |texts| && |result| == 1 + i && result[0] == found.value
      invariant ParseParams(stof, formats, texts) == Prepend(result[1..], ParseParams(stof, formats[i..], texts[i..]))
    {
      if i == |texts| {
        return NoCommand;
      }
      var value := ReadToRaw(stof, formats[i], texts[i]);
      if value.None? {
        return Abort;
      }
      ParseStep(stof, formats, texts, i, value.value, result);
      result := result + [value.value];
    }
    if |texts| != |formats| {
      return NoCommand;
    }
    assert result == [found.value] + (result[1..] + []);
    return Made(Command(code, result));
  }

  lemma ParseStep(stof: FloatReader, formats: seq<Format>, texts: seq<string>, i: nat, w: Word, result: seq<Word>)
    requires i < |formats| && i < |texts| && result != []
    requires ReadToRaw(stof, formats[i], texts[i]) == Some(w)
    ensures Prepend(result[1..], ParseParams(stof, formats[i..], texts[i..])) ==
            Prepend((result + [w])[1..], ParseParams(stof, formats[i + 1..], texts[i + 1..]))
  {
    assert formats[i..][1..] == formats[i + 1..] && texts[i..][1..] == texts[i + 1..];
    var tail := ParseParams(stof, formats[i + 1..], texts[i + 1..]);
    assert tail.Params? ==> result[1..] + ([w] + tail.words) == (result + [w])[1..] + tail.words;
  }

  method BuildCommand(tb: Tables, stof: FloatReader, tokens: seq<string>) returns (r: Made)
    requires Indexed(tb)
    ensures r == MakeCommand(tb, stof, tokens)
  {
    if tokens == [] {
      return NoCommand;
    }
    var found := Lookup(DeviceNames(tb), tokens[0]);
    if found.None? {
      return NoCommand;
    }
    match tb[found.value] {
      case Bare(_) =>
        return if |tokens| == 1 then Made(Command(found.value, [])) else NoCommand;
      case Grouped(_, actions) =>
        r := BuildAction(stof, found.value, actions, tokens[1..]);
    }
  }

  /** texts[i] reads as words[i] in the format of parameter i. */
  ghost predicate Reads(stof: FloatReader, formats: seq<Format>, texts: seq<string>, words: seq<Word>) {
    && |formats| == |texts| == |words|
    && forall i :: 0 <= i < |texts| ==> ReadToRaw(stof, formats[i], texts[i]) == Some(words[i])
  }

  /** The tokens name c: its device, then its action and the texts of its parameters. */
  ghost predicate Spells(tb: Tables, stof: FloatReader, tokens: seq<string>, c: Command) {
    && WellFormed(tb, c)
    && tokens != [] && tokens[0] == tb[c.code].name
    && match tb[c.code]
       case Bare(_) => |tokens| == 1
       case Grouped(_, actions) =>
         && |tokens| >= 2 && tokens[1] == actions[c.data[0]].name
         && Reads(stof, actions[c.data[0]].params, tokens[2..], c.data[1..])
  }

  lemma {:induction false} ParseParamsReads(stof: FloatReader, formats: seq<Format>, texts: seq<string>,
                                            words: seq<Word>)
    ensures ParseParams(stof, formats, texts) == Params(words) <==> Reads(stof, formats, texts, words)
  {
    if formats != [] && texts != [] && words != [] {
      ParseParamsReads(stof, formats[1..], texts[1..], words[1..]);
      assert words == [words[0]] + words[1..];
      assert Reads(stof, formats, texts, words) ==> Reads(stof, formats[1..], texts[1..], words[1..]);
      var r := ParseParams(stof, formats, texts);
      if r == Params(words) {
        assert ParseParams(stof, formats[1..], texts[1..]).words == words[1..];
        forall i | 0 <= i < |texts|
          ensures ReadToRaw(stof, formats[i], texts[i]) == Some(words[i])
        {
          if i > 0 {
            assert formats[i] == formats[1..][i - 1] && texts[i] == texts[1..][i - 1] && words[i] == words[1..][i - 1];
          }
        }
      }
    }
  }

  /** The bad token that aborts is one of the parameters, and those before it are readable. */
  lemma {:induction false} ParseParamsAborts(stof: FloatReader, formats: seq<Format>, texts: seq<string>)
    ensures ParseParams(stof, formats, texts) == BadNumber <==>
            exists k :: 0 <= k < |formats| && k < |texts| && ReadToRaw(stof, formats[k], texts[k]) == None
  {
    if formats != [] && texts != [] {
      var f, t := formats[1..], texts[1..];
      ParseParamsAborts(stof, f, t);
      if k :| 0 <= k < |f| && k < |t| && ReadToRaw(stof, f[k], t[k]) == None {
        assert ReadToRaw(stof, formats[k + 1], texts[k + 1]) == None;
      }
    }
  }

  /** make_command returns exactly the command its tokens spell; every command it returns has the
      shape the table asks for. */
  lemma MakeCommandSpells(tb: Tables, stof: FloatReader, tokens: seq<string>, c: Command)
    requires Indexed(tb) && Named(tb)
    ensures MakeCommand(tb, stof, tokens) == Made(c) <==> Spells(tb, stof, tokens, c)
  {
    if tokens != [] && c.code < |tb| && tokens[0] == tb[c.code].name {
      LookupOfDistinct(DeviceNames(tb), c.code);
      match tb[c.code] {
        case Bare(_) =>
        case Grouped(_, actions) =>
          if |tokens| >= 2 && c.data != [] && c.data[0] < |actions| && tokens[1] == actions[c.data[0]].name {
            LookupOfDistinct(ActionNames(actions), c.data[0]);
            assert tokens[1..][1..] == tokens[2..];
            assert c.data == [c.data[0]] + c.data[1..];
            ParseParamsReads(stof, actions[c.data[0]].params, tokens[2..], c.data[1..]);
          }
      }
    }
    if MakeCommand(tb, stof, tokens) == Made(c) {
      assert c.code < |tb| && tokens[0] == tb[c.code].name;
    }
  }

  /** Token k of the parameters of action a cannot be read. */
  ghost predicate Unreadable(tb: Tables, stof: FloatReader, tokens: seq<string>, d: nat, a: nat, k: nat) {
    && d < |tb| && tb[d].Grouped? && a < |tb[d].actions|
    && 2 + k < |tokens| && tokens[0] == tb[d].name && tokens[1] == tb[d].actions[a].name
    && k < |tb[d].actions[a].params|
    && ReadToRaw(stof, tb[d].actions[a].params[k], tokens[2 + k]) == None
  }

  /** The client dies exactly on a known device and action with an unreadable parameter, whether
      or not the number of parameters is right. */
  lemma MakeCommandAborts(tb: Tables, stof: FloatReader, tokens: seq<string>)
    requires Indexed(tb) && Named(tb)
    ensures MakeCommand(tb, stof, tokens) == Abort <==>
            exists d: nat, a: nat, k: nat :: Unreadable(tb, stof, tokens, d, a, k)
  {
    if MakeCommand(tb, stof, tokens) == Abort {
      var d := Lookup(DeviceNames(tb), tokens[0]).value;
      var a := Lookup(ActionNames(tb[d].actions), tokens[1]).value;
      ParseParamsAborts(stof, tb[d].actions[a].params, tokens[1..][1..]);
      var k :| 0 <= k < |tb[d].actions[a].params| && k < |tokens[1..][1..]| &&
        ReadToRaw(stof, tb[d].actions[a].params[k], tokens[1..][1..][k]) == None;
      assert Unreadable(tb, stof, tokens, d, a, k);
    }
    forall d: nat, a: nat, k: nat | Unreadable(tb, stof, tokens, d, a, k)
      ensures MakeCommand(tb, stof, tokens) == Abort
    {
      UnreadableAborts(tb, stof, tokens, d, a, k);
    }
  }

  lemma UnreadableAborts(tb: Tables, stof: FloatReader, tokens: seq<string>, d: nat, a: nat, k: nat)
    requires Indexed(tb) && Named(tb) && Unreadable(tb, stof, tokens, d, a, k)
    ensures MakeCommand(tb, stof, tokens) == Abort
  {
    LookupOfDistinct(DeviceNames(tb), d);
    LookupOfDistinct(ActionNames(tb[d].actions), a);
    assert tokens[1..][1..][k] == tokens[2 + k];
    ParseParamsAborts(stof, tb[d].actions[a].params, tokens[1..][1..]);
  }

  /** A sensor number that is no number ends the client. */
  lemma BadSensorAborts(stof: FloatReader, tokens: seq<string>)
    requires |tokens| == 3 && tokens[0] == "TemperatureRead" && tokens[1] == "Read" && Stoul(tokens[2]) == None
    ensures MakeCommand(Calvision(), stof, tokens) == Abort
  {
    CalvisionTables();
    UnreadableAborts(Calvision(), stof, tokens, 6, 0, 0);
  }

  /** For one, the line "TemperatureRead Read x". */
  lemma BadNumberAborts(stof: FloatReader)
    ensures MakeCommand(Calvision(), stof, Tokens("TemperatureRead" + [' '] + ("Read" + [' '] + "x"))) == Abort
  {
    ThreeTokens("TemperatureRead", "Read", "x");
    assert Stoul("x") == None;
    BadSensorAborts(stof, ["TemperatureRead", "Read", "x"]);
  }

  // ---- write and read_command

  function Encode(c: Command): seq<Byte> {
    PutWord(c.code) + PutWords(c.data)
  }

  function EncodeAll(cs: seq<Command>): seq<Byte> {
    if cs == [] then [] else Encode(cs[0]) + EncodeAll(cs[1..])
  }

  // Closed: not even a device code could be read.  Rejected: a null command; a read that runs
  // out of bytes inside a frame is caught there and also gives a null command.
  datatype Frame = Closed | Rejected(rest: seq<Byte>) | Got(command: Command, rest: seq<Byte>)

  ghost function ReadFrame(tb: Tables, bs: seq<Byte>): (r: Frame)
    ensures !r.Closed? ==> |r.rest| + 4 <= |bs|
  {
    if |bs| < 4 then Closed
    else
      var code, r1 := GetWord(bs[..4]), bs[4..];
      if code >= |tb| then Rejected(r1)
      else
        match tb[code]
        case Bare(_) => Got(Command(code, []), r1)
        case Grouped(_, actions) =>
          if |r1| < 4 then Rejected([])
          else
            var action, r2 := GetWord(r1[..4]), r1[4..];
            if action >= |actions| then Rejected(r2)
            else
              var n := 4 * |actions[action].params|;
              if |r2| < n then Rejected([])
              else Got(Command(code, [action] + GetWords(r2[..n])), r2[n..])
  }

  datatype Reply = Throws | Null | Received(command: Command)

  method ReadCommand(tb: Tables, socket: Socket) returns (r: Reply)
    modifies socket`incoming
    ensures match ReadFrame(tb, old(socket.incoming))
            case Closed => r == Throws && socket.incoming == []
            case Rejected(rest) => r == Null && socket.incoming == rest
            case Got(c, rest) => r == Received(c) && socket.incoming == rest
  {
    var code := socket.ReadWord();
    if code.None? {
      return Throws;
    }
    if code.value >= |tb| {
      return Null;
    }
    match tb[code.value] {
      case Bare(_) =>
        return Received(Command(code.value, []));
      case Grouped(_, actions) =>
        var action := socket.ReadWord();
        if action.None? || action.value >= |actions| {
          return Null;
        }
        var words := socket.ReadWords(|actions[action.value].params|);
        if words.None? {
          return Null;
        }
        return Received(Command(code.value, [action.value] + words.value));
    }
  }

  /** BaseCommand::write: two writes, either of which may throw. */
  method WriteCommand(c: Command, socket: Socket) returns (ok: bool)
    modifies socket`outgoing, socket`writesLeft
    ensures ok == (old(socket.writesLeft) >= 2)
    ensures ok ==> socket.outgoing == old(socket.outgoing) + Encode(c)
    ensures ok ==> socket.writesLeft == old(socket.writesLeft) - 2
    ensures !ok ==> socket.writesLeft == 0
    ensures var sent := if old(socket.writesLeft) == 0 then [] else PutWord(c.code);
      !ok ==> socket.outgoing == old(socket.outgoing) + sent
  {
    ok := socket.Write(PutWord(c.code));
    if ok {
      ok := socket.Write(PutWords(c.data));
    }
  }

  // ---- framing

  /** Reading a written command gives it back and takes nothing that follows. */
  lemma ReadOfEncode(tb: Tables, c: Command, rest: seq<Byte>)
    requires WellFormed(tb, c)
    ensures ReadFrame(tb, Encode(c) + rest) == Got(c, rest)
  {
    WordRoundTrip(c.code);
    SliceOff(PutWord(c.code), PutWords(c.data), rest);
    if tb[c.code].Grouped? {
      var ps := PutWords(c.data[1..]);
      WordRoundTrip(c.data[0]);
      WordsRoundTrip(c.data[1..]);
      SliceOff(PutWord(c.data[0]), ps, rest);
      SliceOff(ps, [], rest);
      assert ps + [] == ps && [] + rest == rest;
      assert c.data == [c.data[0]] + c.data[1..];
    } else {
      assert PutWords(c.data) + rest == rest;
    }
  }

  lemma SliceOff(a: seq<Byte>, b: seq<Byte>, rest: seq<Byte>)
    ensures (a + b + rest)[..|a|] == a && (a + b + rest)[|a|..] == b + rest
  {
  }

  /** The converse: a command that is read has the table's shape, and its bytes are exactly the
      ones consumed.  So read_command never builds a poorly structured command. */
  lemma EncodeOfRead(tb: Tables, bs: seq<Byte>)
    requires ReadFrame(tb, bs).Got?
    ensures WellFormed(tb, ReadFrame(tb, bs).command)
    ensures bs == Encode(ReadFrame(tb, bs).command) + ReadFrame(tb, bs).rest
  {
    var code, r1 := GetWord(bs[..4]), bs[4..];
    WordBytes(bs[..4]);
    assert bs == PutWord(code) + r1;
    if tb[code].Grouped? {
      GroupedRead(tb, bs);
    }
  }

  lemma GroupedRead(tb: Tables, bs: seq<Byte>)
    requires ReadFrame(tb, bs).Got? && tb[GetWord(bs[..4])].Grouped?
    ensures WellFormed(tb, ReadFrame(tb, bs).command)
    ensures PutWord(GetWord(bs[..4])) + bs[4..] == Encode(ReadFrame(tb, bs).command) + ReadFrame(tb, bs).rest
  {
    var code, r1 := GetWord(bs[..4]), bs[4..];
    var action, r2 := GetWord(r1[..4]), r1[4..];
    var n := 4 * |tb[code].actions[action].params|;
    WordBytes(r1[..4]);
    assert r1 == PutWord(action) + r2;
    BytesRoundTrip(r2[..n]);
    ActionFrame(code, action, r2, n);
  }

  lemma ActionFrame(code: Word, action: Word, r2: seq<Byte>, n: nat)
    requires n % 4 == 0 && n <= |r2| && PutWords(GetWords(r2[..n])) == r2[..n]
    ensures PutWord(code) + (PutWord(action) + r2) == Encode(Command(code, [action] + GetWords(r2[..n]))) + r2[n..]
  {
    var ws := GetWords(r2[..n]);
    assert ([action] + ws)[1..] == ws;
    assert r2 == r2[..n] + r2[n..];
  }

  ghost function Decode(tb: Tables, bs: seq<Byte>): (seq<Command>, seq<Byte>)
    decreases |bs|
  {
    match ReadFrame(tb, bs)
    case Got(c, rest) => var (cs, left) := Decode(tb, rest); ([c] + cs, left)
    case _ => ([], bs)
  }

  lemma DecodeOne(tb: Tables, c: Command, rest: seq<Byte>)
    requires WellFormed(tb, c)
    ensures Decode(tb, Encode(c) + rest) == ([c] + Decode(tb, rest).0, Decode(tb, rest).1)
  {
    ReadOfEncode(tb, c, rest);
  }

  /** Decoding the concatenated encodings of any commands gives the list, nothing left over. */
  lemma {:induction false} SelfDelimiting(tb: Tables, cs: seq<Command>)
    requires forall i :: 0 <= i < |cs| ==> WellFormed(tb, cs[i])
    ensures Decode(tb, EncodeAll(cs)) == (cs, [])
  {
    if cs != [] {
      DecodeOne(tb, cs[0], EncodeAll(cs[1..]));
      SelfDelimiting(tb, cs[1..]);
      assert cs == [cs[0]] + cs[1..];
    }
  }

  /** From text to the server: whatever white space surrounds the tokens of a command, the client
      sends one frame, from which the server rebuilds the same device, action and parameters. */
  lemma TextToServer(tb: Tables, stof: FloatReader, tokens: seq<string>, gaps: seq<string>, c: Command, rest: seq<Byte>)
    requires Indexed(tb) && Named(tb)
    requires Spaced(tokens, gaps) && Spells(tb, stof, tokens, c)
    ensures MakeCommand(tb, stof, Tokens(Render(tokens, gaps))) == Made(c)
    ensures ReadFrame(tb, Encode(c) + rest) == Got(c, rest)
  {
    TokensOfRender(tokens, gaps);
    MakeCommandSpells(tb, stof, tokens, c);
    ReadOfEncode(tb, c, rest);
  }

  /** The texts a program would print for Int and Uint values spell those values. */
  lemma PrintedParameters(stof: FloatReader, formats: seq<Format>, words: seq<Word>, texts: seq<string>)
    requires |formats| == |words| == |texts|
    requires forall i :: 0 <= i < |formats| ==>
      (formats[i].Int? || formats[i].Uint?) && texts[i] == Show(formats[i], words[i])
    ensures Reads(stof, formats, texts, words)
  {
    forall i | 0 <= i < |words|
      ensures ReadToRaw(stof, formats[i], texts[i]) == Some(words[i])
    {
      ReadOfShow(stof, formats[i], words[i]);
    }
  }
}
