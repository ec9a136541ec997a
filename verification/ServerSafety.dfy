// What a run of the server executes, for any bytes its clients send.
module ServerSafety {
  import opened Wire
  import opened Tables
  import opened Codec
  import opened Devices
  import opened Execution
  import opened Server

  // ---- byte streams as frames

  // A complete frame, or the words the server reads before it gives up on one.
  datatype Item = Frame(command: Command) | BadCode(code: Word) | BadAction(code: Word, action: Word)

  ghost predicate IsItem(tb: Tables, it: Item) {
    match it
    case Frame(c) => WellFormed(tb, c)
    case BadCode(code) => code >= |tb|
    case BadAction(code, action) => code < |tb| && tb[code].Grouped? && action >= |tb[code].actions|
  }

  function EncodeItem(it: Item): (bs: seq<Byte>)
    ensures |bs| >= 4
  {
    match it
    case Frame(c) => Encode(c)
    case BadCode(code) => PutWord(code)
    case BadAction(code, action) => PutWord(code) + PutWord(action)
  }

  /** The bytes of the items, then the tail. */
  function Stream(its: seq<Item>, tail: seq<Byte>): seq<Byte> {
    if its == [] then tail else EncodeItem(its[0]) + Stream(its[1..], tail)
  }

  /** Too few bytes to hold an item: a frame cut by the end of the stream. */
  ghost predicate Cut(tb: Tables, bs: seq<Byte>) {
    |bs| < 4 ||
    var code, r1 := GetWord(bs[..4]), bs[4..];
    code < |tb| && tb[code].Grouped? &&
    (|r1| < 4 ||
     var action := GetWord(r1[..4]);
     action < |tb[code].actions| && |r1[4..]| < 4 * |tb[code].actions[action].params|)
  }

  /** A frame with its end cut off, wherever the cut is. */
  lemma CutFrame(tb: Tables, c: Command, k: nat)
    requires WellFormed(tb, c) && k < |Encode(c)|
    ensures Cut(tb, Encode(c)[..k])
  {
    var bs, cut := Encode(c), Encode(c)[..k];
    if k >= 4 {
      WordRoundTrip(c.code);
      assert cut[..4] == PutWord(c.code);
      if k >= 8 {
        WordRoundTrip(c.data[0]);
        assert bs[4..8] == PutWord(c.data[0]);
        assert cut[4..][..4] == bs[4..8];
      }
    }
  }

  /** Every byte stream is a list of items and a cut frame. */
  lemma Decompose(tb: Tables, bs: seq<Byte>) returns (its: seq<Item>, tail: seq<Byte>)
    ensures forall i :: 0 <= i < |its| ==> IsItem(tb, its[i])
    ensures bs == Stream(its, tail) && Cut(tb, tail)
    decreases |bs|
  {
    if Cut(tb, bs) {
      its, tail := [], bs;
    } else {
      var it, rest := FirstItem(tb, bs);
      var its', tail' := Decompose(tb, rest);
      its, tail := [it] + its', tail';
      assert its[1..] == its';
    }
  }

  lemma FirstItem(tb: Tables, bs: seq<Byte>) returns (it: Item, rest: seq<Byte>)
    requires !Cut(tb, bs)
    ensures IsItem(tb, it) && bs == EncodeItem(it) + rest
  {
    var code, r1 := GetWord(bs[..4]), bs[4..];
    WordBytes(bs[..4]);
    assert bs == PutWord(code) + r1;
    if code >= |tb| {
      it, rest := BadCode(code), r1;
    } else if tb[code].Bare? || GetWord(r1[..4]) < |tb[code].actions| {
      EncodeOfRead(tb, bs);
      it, rest := Frame(ReadFrame(tb, bs).command), ReadFrame(tb, bs).rest;
    } else {
      var action := GetWord(r1[..4]);
      WordBytes(r1[..4]);
      it, rest := BadAction(code, action), r1[4..];
      assert r1 == PutWord(action) + rest;
    }
  }

  /** The server takes the first item off the stream and no more. */
  lemma ReadOfItem(tb: Tables, it: Item, rest: seq<Byte>)
    requires IsItem(tb, it)
    ensures ReadFrame(tb, EncodeItem(it) + rest) == if it.Frame? then Got(it.command, rest) else Rejected(rest)
  {
    match it
    case Frame(c) => ReadOfEncode(tb, c, rest);
    case BadCode(code) =>
      WordRoundTrip(code);
      var bs := EncodeItem(it) + rest;
      assert bs[..4] == PutWord(code) && bs[4..] == rest;
    case BadAction(code, action) =>
      WordRoundTrip(code);
      WordRoundTrip(action);
      var bs := EncodeItem(it) + rest;
      assert bs[..4] == PutWord(code) && bs[4..] == PutWord(action) + rest;
      assert bs[4..][..4] == PutWord(action) && bs[4..][4..] == rest;
  }

  lemma ReadOfCut(tb: Tables, tail: seq<Byte>)
    requires Cut(tb, tail)
    ensures ReadFrame(tb, tail) == if |tail| < 4 then Closed else Rejected([])
  {
  }

  // ---- what is executed

  function CommandOf(it: Item): seq<Command> {
    if it.Frame? then [it.command] else []
  }

  function Commands(its: seq<Item>): seq<Command> {
    if its == [] then [] else CommandOf(its[0]) + Commands(its[1..])
  }

  function Executed(log: seq<Entry>): seq<Command> {
    if log == [] then []
    else Executed(log[..|log| - 1]) + if log[|log| - 1].Ran? then [log[|log| - 1].command] else []
  }

  function UpToQuit(cs: seq<Command>): (r: seq<Command>)
    ensures r <= cs
  {
    if cs == [] then []
    else if cs[0].code == QUIT then [cs[0]]
    else [cs[0]] + UpToQuit(cs[1..])
  }

  /** An executor stops the server exactly on Quit, and keeps the response contract. */
  predicate Obeys(tb: Tables, exec: Executor, s: State, c: Command, h: Hardware) {
    var (s', r) := exec(s, c, h);
    && (s'.quit <==> s.quit || c.code == QUIT)
    && (r.Replies? ==> (r.data.value.Some? <==> r.data.error == Success && ReturnFormat(tb, c).Some?))
    && !r.Raises?
  }

  ghost predicate Lawful(tb: Tables, exec: Executor) {
    forall s, c, h :: WellFormed(tb, c) ==> Obeys(tb, exec, s, c, h)
  }

  lemma RealIsLawful(fpu: Fpu)
    ensures Lawful(Calvision(), Real(fpu))
  {
    forall s, c, h | WellFormed(Calvision(), c)
      ensures Obeys(Calvision(), Real(fpu), s, c, h)
    {
      ResponseContract(fpu, s, c, h);
    }
  }

  lemma ExecutedAppend(log: seq<Entry>, e: Entry)
    ensures Executed(log + [e]) == if e.Ran? then Executed(log) + [e.command] else Executed(log)
  {
    assert (log + [e])[..|log|] == log;
    assert Executed(log) + [] == Executed(log);
  }

  /** What was executed is an initial part of the target, and all of it if `all` holds. */
  predicate Within(target: seq<Command>, executed: seq<Command>, all: bool) {
    executed <= target && (all ==> executed == target)
  }

  /** One item: the server after it, and the reply sent for it. */
  lemma ServeItem(tb: Tables, exec: Executor, hw: nat -> Hardware, sv: Server, it: Item, rest: seq<Byte>,
                  writes: nat, out: seq<Byte>)
    returns (sv1: Server, sent: Sent)
    requires Lawful(tb, exec) && Running(sv) && IsItem(tb, it)
    ensures Executed(sv1.log) == Executed(sv.log) + CommandOf(it)
    ensures sv1.state.quit <==> IsQuit(it)
    ensures !sv1.crashed && writes >= 2 ==> sent.ok && sent.writes >= writes - 2
    ensures Serve(tb, exec, hw, sv, EncodeItem(it) + rest, writes, out) ==
            if !sent.ok || !Running(sv1) then (sv1, sent.out)
            else Serve(tb, exec, hw, sv1, rest, sent.writes, sent.out)
  {
    ReadOfItem(tb, it, rest);
    sv1 := if it.Frame? then Step(exec, hw, sv, it.command) else sv.(log := sv.log + [Declined]);
    ExecutedAppend(sv.log, sv1.log[|sv.log|]);
    if it.Frame? {
      assert Obeys(tb, exec, sv.state, it.command, hw(|sv.log|));
    }
    sent := if sv1.crashed then Sent(false, 0, out) else Send(ReplyData(sv1.log[|sv.log|]), writes, out);
    assert Answer(tb, exec, hw, sv1, rest, writes, out) ==
           if !sent.ok then (sv1, sent.out) else Serve(tb, exec, hw, sv1, rest, sent.writes, sent.out);
  }

  predicate IsQuit(it: Item) {
    it.Frame? && it.command.code == QUIT
  }

  lemma UpToQuitStep(done: seq<Command>, it: Item, cs: seq<Command>)
    ensures HasQuit(CommandOf(it) + cs) <==> IsQuit(it) || HasQuit(cs)
    ensures done + UpToQuit(CommandOf(it) + cs) == done + CommandOf(it) + if IsQuit(it) then [] else UpToQuit(cs)
  {
    if it.Frame? {
      assert (CommandOf(it) + cs)[1..] == cs;
      assert UpToQuit(CommandOf(it) + cs) == CommandOf(it) + if IsQuit(it) then [] else UpToQuit(cs);
      SeqAssociative(done, CommandOf(it), if IsQuit(it) then [] else UpToQuit(cs));
    } else {
      assert CommandOf(it) + cs == cs && done + CommandOf(it) == done;
    }
  }

  /** One connection with any bytes, cut anywhere: the commands executed are complete frames of
      the stream, in order, none after the first Quit; and all of them, if no write fails and the
      server does not die.  In that case the server goes on unless one of them was Quit. */
  lemma {:induction false} ServeExecutes(tb: Tables, exec: Executor, hw: nat -> Hardware, sv: Server, its: seq<Item>,
                                         tail: seq<Byte>, writes: nat, out: seq<Byte>)
    requires Lawful(tb, exec) && Running(sv)
    requires (forall i :: 0 <= i < |its| ==> IsItem(tb, its[i])) && Cut(tb, tail)
    ensures var bytes := Stream(its, tail);
      var sv' := Serve(tb, exec, hw, sv, bytes, writes, out).0;
      && Within(Executed(sv.log) + UpToQuit(Commands(its)), Executed(sv'.log), writes >= |bytes| && !sv'.crashed)
      && (writes >= |bytes| && !sv'.crashed ==> (sv'.state.quit <==> HasQuit(Commands(its))))
    decreases |its|
  {
    if its == [] {
      ServeCut(tb, exec, hw, sv, tail, writes, out);
    } else {
      var it, rest := its[0], Stream(its[1..], tail);
      var sv1, sent := ServeItem(tb, exec, hw, sv, it, rest, writes, out);
      UpToQuitStep(Executed(sv.log), it, Commands(its[1..]));
      if sent.ok && Running(sv1) {
        ServeExecutes(tb, exec, hw, sv1, its[1..], tail, sent.writes, sent.out);
      }
    }
  }

  predicate HasQuit(cs: seq<Command>) {
    cs != [] && (cs[0].code == QUIT || HasQuit(cs[1..]))
  }

  /** A cut frame is answered if its device code arrived, but never executed. */
  lemma ServeCut(tb: Tables, exec: Executor, hw: nat -> Hardware, sv: Server, tail: seq<Byte>, writes: nat,
                 out: seq<Byte>)
    requires Running(sv) && Cut(tb, tail)
    ensures var (sv', out') := Serve(tb, exec, hw, sv, tail, writes, out);
      && sv' == (if |tail| < 4 then sv else sv.(log := sv.log + [Declined]))
      && Executed(sv'.log) == Executed(sv.log)
      && out' == out + if |tail| < 4 || writes == 0 then [] else PutHalf(ErrorIndex(InvalidCommand))
  {
    ReadOfCut(tb, tail);
    ExecutedAppend(sv.log, Declined);
    assert ReadFrame(tb, []) == Closed;
    assert PutHalf(ErrorIndex(InvalidCommand)) + [] == PutHalf(ErrorIndex(InvalidCommand));
  }

  // ---- runs over many connections

  /** The stream of a connection, taken apart. */
  ghost predicate Splits(tb: Tables, c: Connection, its: seq<Item>, tail: seq<Byte>) {
    && (forall i :: 0 <= i < |its| ==> IsItem(tb, its[i]))
    && Cut(tb, tail) && c.bytes == Stream(its, tail)
  }

  function AllCommands(streams: seq<seq<Item>>): seq<Command> {
    if streams == [] then [] else Commands(streams[0]) + AllCommands(streams[1..])
  }

  lemma {:induction false} UpToQuitAppend(a: seq<Command>, b: seq<Command>)
    ensures UpToQuit(a + b) == if HasQuit(a) then UpToQuit(a) else UpToQuit(a) + UpToQuit(b)
  {
    if a == [] {
      assert a + b == b;
    } else {
      assert (a + b)[1..] == a[1..] + b;
      UpToQuitAppend(a[1..], b);
    }
  }

  function Concat(parts: seq<seq<Command>>): seq<Command> {
    if parts == [] then [] else parts[0] + Concat(parts[1..])
  }

  lemma HandledAdds(tb: Tables, exec: Executor, hw: nat -> Hardware, sv: Server, bytes: seq<Byte>)
    returns (part: seq<Command>)
    requires Lawful(tb, exec) && Running(sv) && !ReadFrame(tb, bytes).Closed?
    ensures var sv1 := Handled(exec, hw, sv, ReadFrame(tb, bytes));
      Executed(sv1.log) == Executed(sv.log) + part && (sv1.state.quit <==> HasQuit(part))
  {
    var f := ReadFrame(tb, bytes);
    var sv1 := Handled(exec, hw, sv, f);
    part := if f.Got? then [f.command] else [];
    ExecutedAppend(sv.log, sv1.log[|sv.log|]);
    if f.Got? {
      EncodeOfRead(tb, bytes);
      assert Obeys(tb, exec, sv.state, f.command, hw(|sv.log|));
    } else {
      assert Executed(sv.log) + [] == Executed(sv.log);
    }
  }

  /** Whatever happens to a connection, it adds to what was executed, and sets quit with a Quit
      alone. */
  lemma {:induction false} ServeAdds(tb: Tables, exec: Executor, hw: nat -> Hardware, sv: Server, bytes: seq<Byte>,
                                     writes: nat, out: seq<Byte>)
    returns (part: seq<Command>)
    requires Lawful(tb, exec) && !sv.state.quit
    ensures var sv' := Serve(tb, exec, hw, sv, bytes, writes, out).0;
      Executed(sv'.log) == Executed(sv.log) + part && (sv'.state.quit <==> HasQuit(part))
    decreases |bytes|
  {
    var f := ReadFrame(tb, bytes);
    part := [];
    if Running(sv) && !f.Closed? {
      ServeOnce(tb, exec, hw, sv, bytes, writes, out);
      var sv1 := Handled(exec, hw, sv, f);
      part := HandledAdds(tb, exec, hw, sv, bytes);
      if Running(sv1) {
        var sent := Send(ReplyData(sv1.log[|sv1.log| - 1]), writes, out);
        if sent.ok {
          var rest := ServeAdds(tb, exec, hw, sv1, f.rest, sent.writes, sent.out);
          SeqAssociative(Executed(sv.log), part, rest);
          HasQuitOfSum(part, rest);
          part := part + rest;
        }
      }
    } else {
      assert Executed(sv.log) + [] == Executed(sv.log);
    }
  }

  /** Part i of what was executed belongs to connection i: an initial part of its complete frames up
      to the first Quit; all of them if no write to it failed and the server did not die in it; and
      none of them Quit if there was another connection after it. */
  ghost predicate PartOf(cs: seq<Connection>, streams: seq<seq<Item>>, parts: seq<seq<Command>>, died: bool, i: nat)
    requires i < |parts| <= |cs| == |streams|
  {
    && Within(UpToQuit(Commands(streams[i])), parts[i],
              cs[i].writes >= |cs[i].bytes| && (i + 1 < |parts| || !died))
    && (i + 1 < |parts| ==> !HasQuit(parts[i]))
  }

  /** The connections served, and their parts. */
  ghost predicate Parted(before: Server, after: Server, cs: seq<Connection>, streams: seq<seq<Item>>,
                         parts: seq<seq<Command>>)
    requires |streams| == |cs|
  {
    && |parts| <= |cs|
    && Executed(after.log) == Executed(before.log) + Concat(parts)
    && (forall i :: 0 <= i < |parts| ==> PartOf(cs, streams, parts, after.crashed, i))
    && (Running(after) ==> |parts| == |cs|) && (!Running(before) ==> parts == [])
    && (Running(before) ==> (after.state.quit <==> parts != [] && HasQuit(parts[|parts| - 1])))
  }

  /** One connection first. */
  lemma PartedFirst(sv: Server, sv1: Server, sv2: Server, cs: seq<Connection>, streams: seq<seq<Item>>,
                    part: seq<Command>, parts: seq<seq<Command>>)
    requires cs != [] && |streams| == |cs| && Running(sv)
    requires Executed(sv1.log) == Executed(sv.log) + part && Parted(sv1, sv2, cs[1..], streams[1..], parts)
    requires Within(UpToQuit(Commands(streams[0])), part, cs[0].writes >= |cs[0].bytes| && !sv1.crashed)
    requires sv1.state.quit <==> HasQuit(part)
    requires !Running(sv1) ==> sv2 == sv1
    ensures Parted(sv, sv2, cs, streams, [part] + parts)
  {
    var all := [part] + parts;
    assert all[1..] == parts;
    SeqAssociative(Executed(sv.log), part, Concat(parts));
    forall i | 0 <= i < |all|
      ensures PartOf(cs, streams, all, sv2.crashed, i)
    {
      if i > 0 {
        assert PartOf(cs[1..], streams[1..], parts, sv2.crashed, i - 1);
      }
    }
  }

  /** One connection with any bytes, as a part. */
  lemma OnePart(tb: Tables, exec: Executor, hw: nat -> Hardware, sv: Server, c: Connection, its: seq<Item>,
                tail: seq<Byte>)
    returns (part: seq<Command>)
    requires Lawful(tb, exec) && Running(sv) && Splits(tb, c, its, tail)
    ensures var sv1 := Serve(tb, exec, hw, sv, c.bytes, c.writes, []).0;
      && Executed(sv1.log) == Executed(sv.log) + part && (sv1.state.quit <==> HasQuit(part))
      && Within(UpToQuit(Commands(its)), part, c.writes >= |c.bytes| && !sv1.crashed)
  {
    ServeExecutes(tb, exec, hw, sv, its, tail, c.writes, []);
    part := ServeAdds(tb, exec, hw, sv, c.bytes, c.writes, []);
    PrefixAfter(Executed(sv.log), part, UpToQuit(Commands(its)));
  }

  lemma PrefixAfter(done: seq<Command>, part: seq<Command>, target: seq<Command>)
    requires done + part <= done + target
    ensures part <= target && (done + part == done + target ==> part == target)
  {
    assert (done + part)[|done|..] == part && (done + target)[|done|..] == target;
  }

  lemma {:induction false} HasQuitOfSum(a: seq<Command>, b: seq<Command>)
    ensures HasQuit(a + b) <==> HasQuit(a) || HasQuit(b)
  {
    if a == [] {
      assert a + b == b;
    } else {
      assert (a + b)[1..] == a[1..] + b;
      HasQuitOfSum(a[1..], b);
    }
  }

  lemma {:induction false} RunParted(tb: Tables, exec: Executor, hw: nat -> Hardware, sv: Server, cs: seq<Connection>,
                                     streams: seq<seq<Item>>, tails: seq<seq<Byte>>)
    returns (parts: seq<seq<Command>>)
    requires Lawful(tb, exec) && |streams| == |tails| == |cs|
    requires forall i :: 0 <= i < |cs| ==> Splits(tb, cs[i], streams[i], tails[i])
    ensures Parted(sv, ServeAll(tb, exec, hw, sv, cs).0, cs, streams, parts)
    decreases |cs|
  {
    parts := [];
    if Running(sv) && cs != [] {
      var part := OnePart(tb, exec, hw, sv, cs[0], streams[0], tails[0]);
      var sv1 := Serve(tb, exec, hw, sv, cs[0].bytes, cs[0].writes, []).0;
      var rest := RunParted(tb, exec, hw, sv1, cs[1..], streams[1..], tails[1..]);
      parts := [part] + rest;
      PartedFirst(sv, sv1, ServeAll(tb, exec, hw, sv1, cs[1..]).0, cs, streams, part, rest);
    } else {
      assert Executed(sv.log) + [] == Executed(sv.log);
    }
  }

  lemma {:induction false} SplitAll(tb: Tables, cs: seq<Connection>)
    returns (streams: seq<seq<Item>>, tails: seq<seq<Byte>>)
    ensures |streams| == |tails| == |cs|
    ensures forall i :: 0 <= i < |cs| ==> Splits(tb, cs[i], streams[i], tails[i])
  {
    streams, tails := [], [];
    if cs != [] {
      var its, tail := Decompose(tb, cs[0].bytes);
      var streams1, tails1 := SplitAll(tb, cs[1..]);
      streams, tails := [its] + streams1, [tail] + tails1;
    }
  }

  /** Over any sequence of clients, whatever bytes they send and whatever writes to them fail: every
      stream is complete frames, unknown codes and a cut frame, and what is executed is, connection
      by connection, an initial part of the complete frames up to the first Quit: all of them, unless
      a write to that client failed or the server died.  No cut frame is executed, and nothing runs
      after Quit. */
  lemma RunExecutes(tb: Tables, exec: Executor, hw: nat -> Hardware, sv: Server, cs: seq<Connection>)
    returns (streams: seq<seq<Item>>, tails: seq<seq<Byte>>, parts: seq<seq<Command>>)
    requires Lawful(tb, exec)
    ensures |streams| == |tails| == |cs|
    ensures forall i :: 0 <= i < |cs| ==> Splits(tb, cs[i], streams[i], tails[i])
    ensures Parted(sv, ServeAll(tb, exec, hw, sv, cs).0, cs, streams, parts)
  {
    streams, tails := SplitAll(tb, cs);
    parts := RunParted(tb, exec, hw, sv, cs, streams, tails);
  }

  /** Parts that are all their connections offer, up to one that ends the run. */
  lemma {:induction false} PartsAreAll(streams: seq<seq<Item>>, parts: seq<seq<Command>>)
    requires |parts| <= |streams| && forall i :: 0 <= i < |parts| ==> parts[i] == UpToQuit(Commands(streams[i]))
    requires forall i :: 0 <= i < |parts| - 1 ==> !HasQuit(parts[i])
    requires |parts| < |streams| ==> parts != [] && HasQuit(parts[|parts| - 1])
    ensures Concat(parts) == UpToQuit(AllCommands(streams))
    decreases |parts|
  {
    if parts != [] {
      var first, rest := Commands(streams[0]), parts[1..];
      UpToQuitAppend(first, AllCommands(streams[1..]));
      HasQuitKept(first);
      if rest == [] && HasQuit(parts[0]) {
        assert parts[0] + [] == parts[0];
      } else {
        assert forall i :: 0 <= i < |rest| ==> rest[i] == parts[i + 1] && streams[1..][i] == streams[i + 1];
        PartsAreAll(streams[1..], rest);
      }
    }
  }

  lemma {:induction false} HasQuitKept(cs: seq<Command>)
    ensures HasQuit(UpToQuit(cs)) <==> HasQuit(cs)
  {
    if cs != [] && cs[0].code != QUIT {
      HasQuitKept(cs[1..]);
      assert UpToQuit(cs)[1..] == UpToQuit(cs[1..]);
    }
  }

  /** In particular, when no write fails and the server does not die, exactly the complete frames of
      all the streams, in order, up to and including the first Quit. */
  lemma AllExecuted(tb: Tables, exec: Executor, hw: nat -> Hardware, sv: Server, cs: seq<Connection>,
                    streams: seq<seq<Item>>, tails: seq<seq<Byte>>)
    requires Lawful(tb, exec) && Running(sv) && |streams| == |tails| == |cs|
    requires forall i :: 0 <= i < |cs| ==> Splits(tb, cs[i], streams[i], tails[i]) && cs[i].writes >= |cs[i].bytes|
    ensures var sv' := ServeAll(tb, exec, hw, sv, cs).0;
      !sv'.crashed ==> Executed(sv'.log) == Executed(sv.log) + UpToQuit(AllCommands(streams))
  {
    var sv' := ServeAll(tb, exec, hw, sv, cs).0;
    var parts := RunParted(tb, exec, hw, sv, cs, streams, tails);
    if !sv'.crashed {
      forall i | 0 <= i < |parts|
        ensures parts[i] == UpToQuit(Commands(streams[i])) && (i + 1 < |parts| ==> !HasQuit(parts[i]))
      {
        assert PartOf(cs, streams, parts, false, i);
      }
      PartsAreAll(streams, parts);
    }
  }

  lemma SeqAssociative(a: seq<Command>, b: seq<Command>, c: seq<Command>)
    ensures a + b + c == a + (b + c)
  {
  }

  /** Quit has not run while the server goes on, and is the last command that ran if it stopped. */
  predicate Tidy(sv: Server) {
    var done := Executed(sv.log);
    if sv.state.quit then done != [] && done[|done| - 1].code == QUIT && !HasQuit(done[..|done| - 1])
    else !HasQuit(done)
  }

  lemma {:induction false} HasQuitAppend(a: seq<Command>, c: Command)
    ensures HasQuit(a + [c]) <==> HasQuit(a) || c.code == QUIT
  {
    if a != [] {
      assert (a + [c])[1..] == a[1..] + [c];
      HasQuitAppend(a[1..], c);
    } else {
      assert (a + [c])[1..] == [];
    }
  }

  lemma StepTidy(tb: Tables, exec: Executor, hw: nat -> Hardware, sv: Server, c: Command)
    requires Lawful(tb, exec) && Running(sv) && Tidy(sv) && WellFormed(tb, c)
    ensures Tidy(Step(exec, hw, sv, c)) && Tidy(sv.(log := sv.log + [Declined]))
  {
    assert Obeys(tb, exec, sv.state, c, hw(|sv.log|));
    var done := Executed(sv.log);
    ExecutedAppend(sv.log, Step(exec, hw, sv, c).log[|sv.log|]);
    ExecutedAppend(sv.log, Declined);
    HasQuitAppend(done, c);
    assert (done + [c])[..|done|] == done;
  }

  lemma {:induction false} ServeTidy(tb: Tables, exec: Executor, hw: nat -> Hardware, sv: Server, bytes: seq<Byte>,
                                     writes: nat, out: seq<Byte>)
    requires Lawful(tb, exec) && Tidy(sv)
    ensures Tidy(Serve(tb, exec, hw, sv, bytes, writes, out).0)
    decreases |bytes|
  {
    var f := ReadFrame(tb, bytes);
    if Running(sv) && !f.Closed? {
      ExecutedAppend(sv.log, Declined);
      var sv1 := sv.(log := sv.log + [Declined]);
      if f.Got? {
        EncodeOfRead(tb, bytes);
        StepTidy(tb, exec, hw, sv, f.command);
        sv1 := Step(exec, hw, sv, f.command);
      }
      if !sv1.crashed {
        var sent := Send(ReplyData(sv1.log[|sv.log|]), writes, out);
        ServeTidy(tb, exec, hw, sv1, f.rest, sent.writes, sent.out);
      }
    }
  }

  /** Whatever bytes arrive and whatever writes fail, nothing runs after Quit. */
  lemma {:induction false} QuitIsLast(tb: Tables, exec: Executor, hw: nat -> Hardware, sv: Server, cs: seq<Connection>)
    requires Lawful(tb, exec) && Tidy(sv)
    ensures Tidy(ServeAll(tb, exec, hw, sv, cs).0)
    decreases |cs|
  {
    if Running(sv) && cs != [] {
      ServeTidy(tb, exec, hw, sv, cs[0].bytes, cs[0].writes, []);
      QuitIsLast(tb, exec, hw, Serve(tb, exec, hw, sv, cs[0].bytes, cs[0].writes, []).0, cs[1..]);
    }
  }
}
