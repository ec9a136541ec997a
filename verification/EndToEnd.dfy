// Client and server together, and the server together with its devices.
module EndToEnd {
  import opened Wrappers
  import opened Wire
  import opened Text
  import opened Numbers
  import opened Tables
  import opened Codec
  import opened Calibration
  import opened Devices
  import opened Execution
  import opened Server
  import opened ServerSafety
  import opened Histories
  import opened Client
  import Effects
  import VoltageSafety
  import Lockstep

  // ---- the server and its devices

  function Declining(sv: Server): Server { sv.(log := sv.log + [Declined]) }

  /** What every execution and every refusal of a frame keeps, every run of the server keeps. */
  ghost predicate Kept(p: Server -> bool, exec: Executor, hw: nat -> Hardware) {
    && (forall sv, c :: p(sv) ==> p(Step(exec, hw, sv, c)))
    && (forall sv :: p(sv) ==> p(Declining(sv)))
  }

  lemma {:induction false} ServeKeeps(p: Server -> bool, tb: Tables, exec: Executor, hw: nat -> Hardware, sv: Server,
                                      bytes: seq<Byte>, writes: nat, out: seq<Byte>)
    requires p(sv) && Kept(p, exec, hw)
    ensures p(Serve(tb, exec, hw, sv, bytes, writes, out).0)
    decreases |bytes|
  {
    var f := ReadFrame(tb, bytes);
    if Running(sv) && !f.Closed? {
      var sv1 := if f.Got? then Step(exec, hw, sv, f.command) else Declining(sv);
      if !sv1.crashed {
        var sent := Send(ReplyData(sv1.log[|sv.log|]), writes, out);
        ServeKeeps(p, tb, exec, hw, sv1, f.rest, sent.writes, sent.out);
      }
    }
  }

  lemma {:induction false} ServeAllKeeps(p: Server -> bool, tb: Tables, exec: Executor, hw: nat -> Hardware, sv: Server,
                                         cs: seq<Connection>)
    requires p(sv) && Kept(p, exec, hw)
    ensures p(ServeAll(tb, exec, hw, sv, cs).0)
    decreases |cs|
  {
    if Running(sv) && cs != [] {
      ServeKeeps(p, tb, exec, hw, sv, cs[0].bytes, cs[0].writes, []);
      ServeAllKeeps(p, tb, exec, hw, Serve(tb, exec, hw, sv, cs[0].bytes, cs[0].writes, []).0, cs[1..]);
    }
  }

  // ---- a run as a history

  /** The executions recorded in a log from entry k on, each with the hardware behaviour it met. */
  function EventsOf(hw: nat -> Hardware, log: seq<Entry>, k: nat): seq<VoltageSafety.Event> {
    if |log| <= k then []
    else
      var front, last := log[..|log| - 1], log[|log| - 1];
      EventsOf(hw, front, k) + if last.Ran? then [VoltageSafety.Event(last.command, hw(|front|))] else []
  }

  lemma EventsOfMore(hw: nat -> Hardware, log: seq<Entry>, k: nat, e: Entry)
    requires k <= |log|
    ensures EventsOf(hw, log + [e], k) ==
            EventsOf(hw, log, k) + if e.Ran? then [VoltageSafety.Event(e.command, hw(|log|))] else []
  {
    assert (log + [e])[..|log|] == log;
  }

  function CommandsIn(events: seq<VoltageSafety.Event>): seq<Command> {
    seq(|events|, i requires 0 <= i < |events| => events[i].command)
  }

  /** The events are the commands executed since entry k. */
  lemma {:induction false} EventsAreExecuted(hw: nat -> Hardware, log: seq<Entry>, k: nat)
    requires k <= |log|
    ensures Executed(log) == Executed(log[..k]) + CommandsIn(EventsOf(hw, log, k))
  {
    if |log| == k {
      assert log[..k] == log && Executed(log) + [] == Executed(log);
    } else {
      var front := log[..|log| - 1];
      EventsAreExecuted(hw, front, k);
      assert front[..k] == log[..k];
    }
  }

  lemma {:induction false} AfterOneMore(fpu: Fpu, s: State, history: seq<VoltageSafety.Event>, e: VoltageSafety.Event)
    ensures VoltageSafety.After(fpu, s, history + [e]) ==
            Execute(fpu, VoltageSafety.After(fpu, s, history), e.command, e.hardware).0
    decreases |history|
  {
    if history == [] {
      assert [e][1..] == [];
    } else {
      assert (history + [e])[1..] == history[1..] + [e];
      AfterOneMore(fpu, Execute(fpu, s, history[0].command, history[0].hardware).0, history[1..], e);
    }
  }

  /** The log goes on from `before`, and the devices are as its new executions leave them. */
  ghost predicate FollowsLog(fpu: Fpu, hw: nat -> Hardware, before: Server, sv: Server) {
    && before.log <= sv.log
    && sv.state == VoltageSafety.After(fpu, before.state, EventsOf(hw, sv.log, |before.log|))
  }

  lemma StepFollows(fpu: Fpu, hw: nat -> Hardware, before: Server, sv: Server, c: Command)
    requires FollowsLog(fpu, hw, before, sv)
    ensures FollowsLog(fpu, hw, before, Step(Real(fpu), hw, sv, c)) && FollowsLog(fpu, hw, before, Declining(sv))
  {
    var r := Execute(fpu, sv.state, c, hw(|sv.log|)).1;
    EventsOfMore(hw, sv.log, |before.log|, Ran(c, r));
    EventsOfMore(hw, sv.log, |before.log|, Declined);
    var events := EventsOf(hw, sv.log, |before.log|);
    AfterOneMore(fpu, before.state, events, VoltageSafety.Event(c, hw(|sv.log|)));
    assert events + [] == events;
  }

  /** Whatever bytes arrive in whatever connections, and whatever writes fail: a run of the server
      is a history.  Its events are the commands it executed, and they leave the devices as the run
      does. */
  lemma RunIsHistory(tb: Tables, fpu: Fpu, hw: nat -> Hardware, sv: Server, cs: seq<Connection>)
    ensures var sv' := ServeAll(tb, Real(fpu), hw, sv, cs).0;
      var events := EventsOf(hw, sv'.log, |sv.log|);
      && sv.log <= sv'.log
      && sv'.state == VoltageSafety.After(fpu, sv.state, events)
      && Executed(sv'.log) == Executed(sv.log) + CommandsIn(events)
  {
    var p := (x: Server) => FollowsLog(fpu, hw, sv, x);
    forall x, c | p(x)
      ensures p(Step(Real(fpu), hw, x, c))
    {
      StepFollows(fpu, hw, sv, x, c);
    }
    forall x | p(x)
      ensures p(Declining(x))
    {
      StepFollows(fpu, hw, sv, x, Command(0, []));
    }
    ServeAllKeeps(p, tb, Real(fpu), hw, sv, cs);
    var sv' := ServeAll(tb, Real(fpu), hw, sv, cs).0;
    EventsAreExecuted(hw, sv'.log, |sv.log|);
    assert sv'.log[..|sv.log|] == sv.log;
  }

  /** So over any run the frames added to a rail are those of the accepted requests among the
      commands it executed, in order. */
  lemma RunWireIsAcceptedFrames(tb: Tables, fpu: Fpu, hw: nat -> Hardware, sv: Server, cs: seq<Connection>,
                                rail: VoltageSafety.Rail)
    requires VoltageSafety.ChipOf(sv.state, rail).Some?
    ensures var sv' := ServeAll(tb, Real(fpu), hw, sv, cs).0;
      var events := EventsOf(hw, sv'.log, |sv.log|);
      var chip := VoltageSafety.ChipOf(sv.state, rail).value;
      VoltageSafety.ChipOf(sv'.state, rail) ==
      Some(chip.(wire := chip.wire + VoltageSafety.AcceptedFrames(fpu, chip.cal, rail, events)))
  {
    RunIsHistory(tb, fpu, hw, sv, cs);
    var sv' := ServeAll(tb, Real(fpu), hw, sv, cs).0;
    VoltageSafety.WireIsAcceptedFrames(fpu, sv.state, EventsOf(hw, sv'.log, |sv.log|), rail);
  }

  /** Frame k of them carries the code of accepted voltage k. */
  lemma RunWireCarriesRequests(tb: Tables, fpu: Fpu, hw: nat -> Hardware, sv: Server, cs: seq<Connection>,
                               rail: VoltageSafety.Rail)
    requires Sound(fpu) && VoltageSafety.ChipOf(sv.state, rail).Some?
    requires Fits(VoltageSafety.ChipOf(sv.state, rail).value.cal)
    ensures var sv' := ServeAll(tb, Real(fpu), hw, sv, cs).0;
      var events := EventsOf(hw, sv'.log, |sv.log|);
      var chip := VoltageSafety.ChipOf(sv.state, rail).value;
      && VoltageSafety.ChipOf(sv'.state, rail).Some?
      && VoltageSafety.Carried(fpu, chip, VoltageSafety.ChipOf(sv'.state, rail).value,
                               VoltageSafety.AcceptedVoltages(fpu, chip.cal, rail, events))
  {
    RunIsHistory(tb, fpu, hw, sv, cs);
    var sv' := ServeAll(tb, Real(fpu), hw, sv, cs).0;
    VoltageSafety.WireCarriesRequests(fpu, sv.state, EventsOf(hw, sv'.log, |sv.log|), rail);
  }

  /** A voltage DAC, if present, has its calibration unchanged and only safe frames sent. */
  predicate RailSafe(cal: Calibration, chip: Option<Chip>) {
    chip.Some? ==> chip.value.cal == cal && forall f :: f in chip.value.wire ==> VoltageSafety.SafeFrame(cal, f)
  }

  lemma ExecuteKeepsRail(fpu: Fpu, cal: Calibration, rail: VoltageSafety.Rail, s: State, c: Command, h: Hardware)
    requires Sound(fpu) && Fits(cal) && RailSafe(cal, VoltageSafety.ChipOf(s, rail))
    ensures RailSafe(cal, VoltageSafety.ChipOf(Execute(fpu, s, c, h).0, rail))
  {
    if VoltageSafety.ChipOf(s, rail).Some? {
      var e := VoltageSafety.Event(c, h);
      VoltageSafety.StepFrames(fpu, s, e, rail);
      if VoltageSafety.FramesOf(fpu, cal, rail, e) != [] {
        VoltageSafety.AcceptedFrameSafe(fpu, cal, VoltageSafety.Requested(fpu, e));
      }
    } else {
      VoltageSafety.NoChip(fpu, s, VoltageSafety.Event(c, h), rail);
    }
  }

  /** Whatever bytes any clients send, and whatever the hardware and the network do, every frame
      ever sent to a voltage DAC carries a safe code. */
  lemma ServerKeepsVoltageSafe(tb: Tables, fpu: Fpu, hw: nat -> Hardware, sv: Server, cs: seq<Connection>,
                               cal: Calibration, rail: VoltageSafety.Rail)
    requires Sound(fpu) && Fits(cal) && RailSafe(cal, VoltageSafety.ChipOf(sv.state, rail))
    ensures RailSafe(cal, VoltageSafety.ChipOf(ServeAll(tb, Real(fpu), hw, sv, cs).0.state, rail))
  {
    var p := (x: Server) => RailSafe(cal, VoltageSafety.ChipOf(x.state, rail));
    forall x, c | p(x)
      ensures p(Step(Real(fpu), hw, x, c))
    {
      ExecuteKeepsRail(fpu, cal, rail, x.state, c, hw(|x.log|));
    }
    ServeAllKeeps(p, tb, Real(fpu), hw, sv, cs);
  }

  // ---- a script against the server

  function Replies(ds: seq<ReturnData>): seq<Byte> {
    if ds == [] then [] else ReplyBytes(ds[0]) + Replies(ds[1..])
  }

  function AfterReplies(out: seq<Byte>, ds: seq<ReturnData>): seq<Byte>
    decreases |ds|
  {
    if ds == [] then out else AfterReplies(out + ReplyBytes(ds[0]), ds[1..])
  }

  lemma {:induction false} RepliesAppended(out: seq<Byte>, ds: seq<ReturnData>)
    ensures AfterReplies(out, ds) == out + Replies(ds)
    decreases |ds|
  {
    if ds != [] {
      RepliesAppended(out + ReplyBytes(ds[0]), ds[1..]);
    }
  }

  /** One command: unless it ends the server, its data is written in full. */
  lemma ServeCommand(tb: Tables, exec: Executor, hw: nat -> Hardware, sv: Server, c: Command, rest: seq<Byte>,
                     writes: nat, out: seq<Byte>)
    returns (left: nat)
    requires Lawful(tb, exec) && Running(sv) && WellFormed(tb, c) && writes >= 2
    ensures left >= writes - 2
    ensures var (s1, r) := exec(sv.state, c, hw(|sv.log|));
      var sv1 := Server(s1, sv.log + [Ran(c, r)], r.Dies?);
      && !r.Raises?
      && Serve(tb, exec, hw, sv, Encode(c) + rest, writes, out) ==
         if r.Dies? then (sv1, out) else Serve(tb, exec, hw, sv1, rest, left, out + ReplyBytes(r.data))
  {
    ReadOfEncode(tb, c, rest);
    assert Obeys(tb, exec, sv.state, c, hw(|sv.log|));
    var (s1, r) := exec(sv.state, c, hw(|sv.log|));
    var sv1 := Server(s1, sv.log + [Ran(c, r)], r.Dies?);
    left := if r.Dies? then writes else Send(r.data, writes, out).writes;
    assert Answer(tb, exec, hw, sv1, rest, writes, out) ==
           if r.Dies? then (sv1, out) else Serve(tb, exec, hw, sv1, rest, left, out + ReplyBytes(r.data));
  }

  /** An exception that an execute body lets out is answered with code 5, and the server goes on. */
  lemma ServeRaised(tb: Tables, exec: Executor, hw: nat -> Hardware, sv: Server, c: Command, rest: seq<Byte>,
                    writes: nat, out: seq<Byte>)
    requires Running(sv) && WellFormed(tb, c) && writes >= 1 && exec(sv.state, c, hw(|sv.log|)).1.Raises?
    ensures var sv1 := Server(exec(sv.state, c, hw(|sv.log|)).0, sv.log + [Ran(c, Raises)], false);
      Serve(tb, exec, hw, sv, Encode(c) + rest, writes, out) ==
      Serve(tb, exec, hw, sv1, rest, writes - 1, out + PutHalf(5))
  {
    ReadOfEncode(tb, c, rest);
    var sv1 := Step(exec, hw, sv, c);
    assert sv1.log[|sv1.log| - 1] == Ran(c, Raises);
    assert ReplyBytes(ReturnData(UnspecifiedFailure, None)) == PutHalf(5);
  }

  /** The server and its output as they should be once it has executed the commands in order. */
  function Performed(exec: Executor, hw: nat -> Hardware, sv: Server, cs: seq<Command>, out: seq<Byte>)
    : (Server, seq<Byte>)
  {
    var os := Outcomes(exec, hw, |sv.log|, sv.state, cs);
    (Server(StateAfter(exec, hw, |sv.log|, sv.state, cs), sv.log + Logged(cs, os), Dead(os)),
     AfterReplies(out, Said(os)))
  }

  lemma NothingPerformed(exec: Executor, hw: nat -> Hardware, sv: Server, cs: seq<Command>, out: seq<Byte>)
    requires !sv.crashed && (cs == [] || sv.state.quit)
    ensures Performed(exec, hw, sv, cs, out) == (sv, out)
  {
    assert sv.log + [] == sv.log;
  }

  lemma OnePerformed(exec: Executor, hw: nat -> Hardware, sv: Server, cs: seq<Command>, out: seq<Byte>,
                     s1: State, r: Outcome)
    requires cs != [] && !sv.state.quit && exec(sv.state, cs[0], hw(|sv.log|)) == (s1, r) && !r.Raises?
    ensures var sv1 := Server(s1, sv.log + [Ran(cs[0], r)], r.Dies?);
      Performed(exec, hw, sv, cs, out) ==
      if r.Dies? then (sv1, out) else Performed(exec, hw, sv1, cs[1..], out + ReplyBytes(r.data))
  {
    FirstOfMany(exec, hw, |sv.log|, sv.state, cs);
    var e := Ran(cs[0], r);
    if r.Dies? {
      assert [e] + [] == [e];
    } else {
      var k := |sv.log| + 1;
      assert |sv.log + [e]| == k;
      Regroup(sv.log, e, Logged(cs[1..], Outcomes(exec, hw, k, s1, cs[1..])));
    }
  }

  lemma Regroup(log: seq<Entry>, e: Entry, rest: seq<Entry>)
    ensures log + ([e] + rest) == log + [e] + rest
  {
  }

  /** Well-formed commands sent one after the other: the server executes them in order, up to
      Quit or its death, and writes the data of every outcome, each in full. */
  lemma {:induction false} ServerAnswers(tb: Tables, exec: Executor, hw: nat -> Hardware, sv: Server, cs: seq<Command>,
                                         writes: nat, out: seq<Byte>)
    requires Lawful(tb, exec) && Running(sv)
    requires forall i :: 0 <= i < |cs| ==> WellFormed(tb, cs[i])
    requires writes >= 2 * |cs|
    ensures Serve(tb, exec, hw, sv, EncodeAll(cs), writes, out) == Performed(exec, hw, sv, cs, out)
    decreases |cs|
  {
    if cs == [] {
      NothingPerformed(exec, hw, sv, cs, out);
    } else {
      var left := ServeCommand(tb, exec, hw, sv, cs[0], EncodeAll(cs[1..]), writes, out);
      var (s1, r) := exec(sv.state, cs[0], hw(|sv.log|));
      OnePerformed(exec, hw, sv, cs, out, s1, r);
      var sv1 := Server(s1, sv.log + [Ran(cs[0], r)], r.Dies?);
      if Running(sv1) {
        ServerAnswers(tb, exec, hw, sv1, cs[1..], left, out + ReplyBytes(r.data));
      } else if !r.Dies? {
        NothingPerformed(exec, hw, sv1, cs[1..], out + ReplyBytes(r.data));
      }
    }
  }

  /** What the client should make of the replies: reply i for command i, and a failure for every
      command after the last reply. */
  function Expected(cs: seq<Command>, ds: seq<ReturnData>): seq<Result> {
    if cs == [] then []
    else if ds == [] then [Failed] + Expected(cs[1..], [])
    else [Replied(ds[0].error, ds[0].value)] + Expected(cs[1..], ds[1..])
  }

  lemma {:induction false} ExpectedAt(cs: seq<Command>, ds: seq<ReturnData>, i: nat)
    requires |ds| <= |cs| && i < |cs|
    ensures |Expected(cs, ds)| == |cs|
    ensures Expected(cs, ds)[i] == if i < |ds| then Replied(ds[i].error, ds[i].value) else Failed
  {
    var ds1 := if ds == [] then [] else ds[1..];
    if |cs| == 1 {
    } else if i > 0 {
      ExpectedAt(cs[1..], ds1, i - 1);
    } else {
      ExpectedAt(cs[1..], ds1, 0);
    }
  }

  function AfterCommands(out: seq<Byte>, cs: seq<Command>): seq<Byte>
    decreases |cs|
  {
    if cs == [] then out else AfterCommands(out + Encode(cs[0]), cs[1..])
  }

  lemma {:induction false} CommandsAppended(out: seq<Byte>, cs: seq<Command>)
    ensures AfterCommands(out, cs) == out + EncodeAll(cs)
    decreases |cs|
  {
    if cs != [] {
      CommandsAppended(out + Encode(cs[0]), cs[1..]);
    }
  }

  lemma ReadsOne(tb: Tables, c: Command, ds: seq<ReturnData>, link: Link)
    requires ds == [] || Contract(tb, c, ds[0])
    requires link.writesLeft >= 2 && link.incoming == Replies(ds)
    ensures SendOn(tb, c, link) ==
      (if ds == [] then Failed else Replied(ds[0].error, ds[0].value),
       Link(Replies(if ds == [] then [] else ds[1..]), link.outgoing + Encode(c), link.writesLeft - 2))
  {
    if ds != [] {
      ReadOfReply(tb, c, ds[0], Replies(ds[1..]));
    }
  }

  /** The client's view of a script: the results are as expected from the replies, and the client
      reads exactly the bytes the server wrote. */
  lemma {:induction false} ClientReads(tb: Tables, stof: FloatReader, good: nat -> bool, n: nat, lines: seq<string>,
                                       ds: seq<ReturnData>, link: Link)
    requires Indexed(tb) && Contracts(tb, Script(tb, stof, lines), ds) && forall i :: good(i)
    requires link.writesLeft >= 2 * |Script(tb, stof, lines)| && link.incoming == Replies(ds)
    ensures var cs := Script(tb, stof, lines);
      var (results, link', ending) := Converse(tb, stof, false, good, n, lines, link);
      results == Expected(cs, ds) && link'.incoming == [] && link'.outgoing == AfterCommands(link.outgoing, cs)
    decreases |lines|
  {
    if lines != [] {
      var made := MakeCommand(tb, stof, Tokens(lines[0]));
      if made == NoCommand {
        ClientReads(tb, stof, good, n, lines[1..], ds, link);
      } else if made.Made? {
        ReadsLine(tb, stof, good, n, lines, made.command, ds, link);
        var ds1 := if ds == [] then [] else ds[1..];
        ClientReads(tb, stof, good, n + 1, lines[1..], ds1, SendOn(tb, made.command, link).1);
      }
    }
  }

  /** A line that makes a command, and the lines after it. */
  lemma ReadsLine(tb: Tables, stof: FloatReader, good: nat -> bool, n: nat, lines: seq<string>, c: Command,
                  ds: seq<ReturnData>, link: Link)
    requires Indexed(tb) && Contracts(tb, Script(tb, stof, lines), ds) && good(n)
    requires link.writesLeft >= 2 && link.incoming == Replies(ds)
    requires lines != [] && MakeCommand(tb, stof, Tokens(lines[0])) == Made(c)
    ensures var cs, ds1 := Script(tb, stof, lines[1..]), if ds == [] then [] else ds[1..];
      var (r, link1) := SendOn(tb, c, link);
      && Script(tb, stof, lines) == [c] + cs && Contracts(tb, cs, ds1)
      && r == (if ds == [] then Failed else Replied(ds[0].error, ds[0].value))
      && link1 == Link(Replies(ds1), link.outgoing + Encode(c), link.writesLeft - 2)
      && Expected([c] + cs, ds) == [r] + Expected(cs, ds1)
      && AfterCommands(link.outgoing, [c] + cs) == AfterCommands(link1.outgoing, cs)
      && Converse(tb, stof, false, good, n, lines, link) ==
         After([r], Converse(tb, stof, false, good, n + 1, lines[1..], link1))
  {
    var cs := Script(tb, stof, lines[1..]);
    assert ([c] + cs)[1..] == cs;
    ReadsOne(tb, c, ds, link);
  }

  /** A script against the server, with no write failing: the server receives exactly the script's
      commands and ends as if it had executed them in order; the client reads exactly the bytes the
      server wrote; and result i is what executing command i came to in the state the commands
      before it left, up to Quit or the end of the server, and a failure after that. */
  lemma ScriptMeetsServer(tb: Tables, stof: FloatReader, exec: Executor, hw: nat -> Hardware, sv: Server,
                          good: nat -> bool, lines: seq<string>, writes: nat)
    requires Indexed(tb) && Named(tb) && Lawful(tb, exec) && Running(sv) && forall i :: good(i)
    requires writes >= 2 * |Script(tb, stof, lines)|
    ensures var cs := Script(tb, stof, lines);
      var os := Outcomes(exec, hw, |sv.log|, sv.state, cs);
      var (sv', out) := Serve(tb, exec, hw, sv, EncodeAll(cs), writes, []);
      var (results, link, ending) := Converse(tb, stof, false, good, 0, lines, Link(out, [], writes));
      && link.outgoing == EncodeAll(cs) && link.incoming == [] && out == Replies(Said(os))
      && sv' == Performed(exec, hw, sv, cs, []).0
      && results == Expected(cs, Said(os))
      && |results| == |cs| && (!sv'.crashed ==> |Said(os)| == |UpToQuit(cs)|)
      && forall i :: 0 <= i < |cs| ==> AnswersFor(exec, hw, sv, cs, results, |Said(os)|, i)
  {
    var cs := Script(tb, stof, lines);
    var os := Outcomes(exec, hw, |sv.log|, sv.state, cs);
    var ds := Said(os);
    ScriptWellFormed(tb, stof, lines);
    OutcomesLawful(tb, exec, hw, |sv.log|, sv.state, cs);
    ServerAnswers(tb, exec, hw, sv, cs, writes, []);
    RepliesAppended([], ds);
    CommandsAppended([], cs);
    assert [] + Replies(ds) == Replies(ds) && [] + EncodeAll(cs) == EncodeAll(cs);
    ClientReads(tb, stof, good, 0, lines, ds, Link(Replies(ds), [], writes));
    ExpectedLength(cs, ds);
    forall i | 0 <= i < |cs|
      ensures AnswersFor(exec, hw, sv, cs, Expected(cs, ds), |ds|, i)
    {
      ExpectedAnswers(exec, hw, sv, cs, i);
    }
  }

  /** Result i is what executing command i came to; from command `answered` on there was no reply. */
  ghost predicate AnswersFor(exec: Executor, hw: nat -> Hardware, sv: Server, cs: seq<Command>, results: seq<Result>,
                             answered: nat, i: nat)
    requires i < |cs| == |results|
  {
    if i >= answered then results[i] == Failed
    else
      var r := exec(StateAfter(exec, hw, |sv.log|, sv.state, cs[..i]), cs[i], hw(|sv.log| + i)).1;
      r.Replies? && results[i] == Replied(r.data.error, r.data.value)
  }

  lemma ExpectedAnswers(exec: Executor, hw: nat -> Hardware, sv: Server, cs: seq<Command>, i: nat)
    requires i < |cs| && |Said(Outcomes(exec, hw, |sv.log|, sv.state, cs))| <= |cs|
    requires |Expected(cs, Said(Outcomes(exec, hw, |sv.log|, sv.state, cs)))| == |cs|
    ensures var ds := Said(Outcomes(exec, hw, |sv.log|, sv.state, cs));
      AnswersFor(exec, hw, sv, cs, Expected(cs, ds), |ds|, i)
  {
    var os := Outcomes(exec, hw, |sv.log|, sv.state, cs);
    ExpectedAt(cs, Said(os), i);
    if i < |Said(os)| {
      SaidAt(os, i);
      OutcomeAt(exec, hw, |sv.log|, sv.state, cs, i);
    }
  }

  lemma {:induction false} ExpectedLength(cs: seq<Command>, ds: seq<ReturnData>)
    ensures |Expected(cs, ds)| == |cs|
  {
    if cs != [] {
      ExpectedLength(cs[1..], if ds == [] then [] else ds[1..]);
    }
  }

  lemma {:induction false} ScriptWellFormed(tb: Tables, stof: FloatReader, lines: seq<string>)
    requires Indexed(tb) && Named(tb)
    ensures forall i :: 0 <= i < |Script(tb, stof, lines)| ==> WellFormed(tb, Script(tb, stof, lines)[i])
  {
    if lines != [] {
      ScriptWellFormed(tb, stof, lines[1..]);
      var made := MakeCommand(tb, stof, Tokens(lines[0]));
      if made.Made? {
        MakeCommandSpells(tb, stof, Tokens(lines[0]), made.command);
      }
    }
  }

  // ---- batch mode

  /** In batch mode a script is its first command: the client leaves with the exit code of its
      exchange. */
  lemma {:induction false} FirstExchange(tb: Tables, stof: FloatReader, good: nat -> bool,
                                         lines: seq<string>, link: Link)
    requires Indexed(tb) && Script(tb, stof, lines) != []
    ensures var (r, link') := SendOn(tb, Script(tb, stof, lines)[0], link);
      Converse(tb, stof, true, good, 0, lines, link) == ([r], link', Exited(ExitCode(r)))
    decreases |lines|
  {
    if MakeCommand(tb, stof, Tokens(lines[0])) == NoCommand {
      FirstExchange(tb, stof, good, lines[1..], link);
    }
  }

  /** The exit codes: 0 for a command carried out; 4, 8, 1 and 3 for a voltage out of range, a
      measurement without retries, a register that could not be read and a device that could not be
      used; and -1 (that is 255) when the server ended. */
  function ExitOf(fpu: Fpu, s: State, c: Command, h: Hardware): int
    requires Effects.Shaped(c)
  {
    if KillingReply(fpu, s, c, h) then -1
    else if Effects.Usable(fpu, s, c, h) then 0
    else if Effects.OutOfRange(fpu, s, c, h) then 4
    else if Effects.Busy(s, c, h) then 8
    else if Effects.BadRead(fpu, s, c, h) then 1
    else 3
  }

  /** A single exchange with the server: the reply to c, or none if the server died. */
  lemma OneReply(fpu: Fpu, hw: nat -> Hardware, sv: Server, c: Command, writes: nat)
    requires Running(sv) && WellFormed(Calvision(), c) && writes >= 2
    ensures Effects.Shaped(c)
    ensures var h := hw(|sv.log|);
      var (s', r) := Execute(fpu, sv.state, c, h);
      var (sv', out) := Serve(Calvision(), Real(fpu), hw, sv, Encode(c), writes, []);
      && sv' == Server(s', sv.log + [Ran(c, r)], r.Dies?)
      && (r.Dies? <==> KillingReply(fpu, sv.state, c, h))
      && (if r.Dies? then out == [] else r.Replies? && out == ReplyBytes(r.data) && Contract(Calvision(), c, r.data))
  {
    ShapeOf(c);
    RealIsLawful(fpu);
    ResponseContract(fpu, sv.state, c, hw(|sv.log|));
    var left := ServeCommand(Calvision(), Real(fpu), hw, sv, c, [], writes, []);
    assert Encode(c) + [] == Encode(c);
    var r := Execute(fpu, sv.state, c, hw(|sv.log|)).1;
    if !r.Dies? {
      assert [] + ReplyBytes(r.data) == ReplyBytes(r.data);
    }
  }

  lemma ExitOfReply(fpu: Fpu, s: State, c: Command, h: Hardware)
    requires WellFormed(Calvision(), c) && Execute(fpu, s, c, h).1.Replies?
    ensures Effects.Shaped(c)
    ensures !KillingReply(fpu, s, c, h) ==> ErrorIndex(Execute(fpu, s, c, h).1.data.error) == ExitOf(fpu, s, c, h)
  {
    Effects.ReplyError(fpu, s, c, h);
  }

  /** A batch script against the server: one command is sent, and the client's exit code says what
      came of it. */
  lemma BatchExit(stof: FloatReader, fpu: Fpu, hw: nat -> Hardware, sv: Server, good: nat -> bool, lines: seq<string>,
                  writes: nat)
    requires Indexed(Calvision()) && Running(sv) && writes >= 2 && Script(Calvision(), stof, lines) != []
    ensures var c := Script(Calvision(), stof, lines)[0];
      var out := Serve(Calvision(), Real(fpu), hw, sv, Encode(c), writes, []).1;
      var (results, link, ending) := Converse(Calvision(), stof, true, good, 0, lines, Link(out, [], writes));
      && Effects.Shaped(c) && link.outgoing == Encode(c) && |results| == 1
      && ending == Exited(ExitOf(fpu, sv.state, c, hw(|sv.log|)))
  {
    var c := Script(Calvision(), stof, lines)[0];
    CalvisionTables();
    ScriptWellFormed(Calvision(), stof, lines);
    assert WellFormed(Calvision(), c);
    OneReply(fpu, hw, sv, c, writes);
    var r := Execute(fpu, sv.state, c, hw(|sv.log|)).1;
    var out := Serve(Calvision(), Real(fpu), hw, sv, Encode(c), writes, []).1;
    FirstExchange(Calvision(), stof, good, lines, Link(out, [], writes));
    assert [] + Encode(c) == Encode(c);
    if !r.Dies? {
      ReadOfReply(Calvision(), c, r.data, []);
      assert ReplyBytes(r.data) + [] == ReplyBytes(r.data);
      ExitOfReply(fpu, sv.state, c, hw(|sv.log|));
    }
  }

  // ---- the interleaved runs against the two loops

  /** The real tables and devices fit the interleaved model: for any script, any hardware, either
      mode and any server to start from. */
  lemma RealSetting(stof: FloatReader, fpu: Fpu, hw: nat -> Hardware, batch: bool, start: Server, lines: seq<string>)
    ensures Indexed(Calvision()) && Named(Calvision())
    ensures Lockstep.Setting(Lockstep.Env(Calvision(), Real(fpu), hw, batch, start), Script(Calvision(), stof, lines))
  {
    CalvisionTables();
    RealIsLawful(fpu);
    ScriptWellFormed(Calvision(), stof, lines);
  }

  /** A finished run of the interleaved programs leaves the server the sequential loop leaves, with
      the same bytes sent to the client, and the client with the results of its own loop: all of
      them, unless its socket was no longer good() after a failure. */
  lemma RunsAgree(e: Lockstep.Env, stof: FloatReader, good: nat -> bool, lines: seq<string>, run: seq<Lockstep.Net>,
                  writes: nat)
    requires Indexed(e.tb) && Named(e.tb) && !e.batch && forall i :: good(i)
    requires Lockstep.Setting(e, Script(e.tb, stof, lines)) && Lockstep.Run(e, Script(e.tb, stof, lines), run)
    requires run[|run| - 1].todo == [] && writes >= 2 * |Script(e.tb, stof, lines)|
    ensures var n, cs := run[|run| - 1], Script(e.tb, stof, lines);
      var (sv', out) := Serve(e.tb, e.exec, e.hw, e.start, EncodeAll(cs), writes, []);
      var results := Converse(e.tb, stof, false, good, 0, lines, Link(out, [], writes)).0;
      && n.sv == sv' && Replies(n.replies) == out
      && n.results <= results && (|n.results| == |cs| ==> n.results == results)
  {
    var n, cs := run[|run| - 1], Script(e.tb, stof, lines);
    Lockstep.RunKeeps(e, cs, run, |run| - 1);
    assert Running(e.start);
    FinishedServer(e, cs, n);
    ScriptMeetsServer(e.tb, stof, e.exec, e.hw, e.start, good, lines, writes);
    ExpectedLength(cs, n.replies);
    ResultsArePrefix(e, cs, n);
  }

  lemma FinishedServer(e: Lockstep.Env, cs: seq<Command>, n: Lockstep.Net)
    requires Lockstep.Inv(e, cs, n) && Lockstep.Recorded(e, n) && n.todo == [] && !e.batch
    ensures n.sv == Performed(e.exec, e.hw, e.start, cs, []).0
    ensures n.replies == Said(Outcomes(e.exec, e.hw, |e.start.log|, e.start.state, cs))
  {
    Lockstep.FinishedIsAll(e, cs, n);
    LoggedPrefix(cs, Outcomes(e.exec, e.hw, |e.start.log|, e.start.state, cs), |n.ran|);
  }

  lemma ResultsArePrefix(e: Lockstep.Env, cs: seq<Command>, n: Lockstep.Net)
    requires Lockstep.Inv(e, cs, n) && |Expected(cs, n.replies)| == |cs|
    ensures n.results <= Expected(cs, n.replies)
  {
    forall j | 0 <= j < |n.results|
      ensures n.results[j] == Expected(cs, n.replies)[j]
    {
      ExpectedAt(cs, n.replies, j);
    }
  }
}
