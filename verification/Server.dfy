// server/server.cpp: the accept loop and the command loop.
module Server {
  import opened Wrappers
  import opened Wire
  import opened Tables
  import opened Codec
  import opened Devices
  import opened Execution
  import opened DeviceContext

  type Executor = (State, Command, Hardware) -> (State, Outcome)

  // What the server did with one frame: ran a command, or answered a null command.
  datatype Entry = Ran(command: Command, outcome: Outcome) | Declined

  datatype Server = Server(state: State, log: seq<Entry>, crashed: bool)

  // A client: all the bytes it sends before closing, and how many writes to it succeed.
  datatype Connection = Connection(bytes: seq<Byte>, writes: nat)

  function ReplyData(e: Entry): ReturnData
    requires e.Ran? ==> !e.outcome.Dies?
  {
    if e.Declined? then ReturnData(InvalidCommand, None)
    else if e.outcome.Raises? then ReturnData(UnspecifiedFailure, None)
    else e.outcome.data
  }

  /** Whether the loops go on. */
  predicate Running(sv: Server) { !sv.state.quit && !sv.crashed }

  /** One connection: the server it leaves behind, and everything written to the client. */
  ghost function Serve(tb: Tables, exec: Executor, hw: nat -> Hardware, sv: Server, bytes: seq<Byte>, writes: nat,
                       out: seq<Byte>): (Server, seq<Byte>)
    decreases |bytes|, 0
  {
    if !Running(sv) then (sv, out)
    else
      match ReadFrame(tb, bytes)
      case Closed => (sv, out)
      case Rejected(rest) => Answer(tb, exec, hw, sv.(log := sv.log + [Declined]), rest, writes, out)
      case Got(c, rest) => Answer(tb, exec, hw, Step(exec, hw, sv, c), rest, writes, out)
  }

  function Step(exec: Executor, hw: nat -> Hardware, sv: Server, c: Command): Server {
    var (s, r) := exec(sv.state, c, hw(|sv.log|));
    Server(s, sv.log + [Ran(c, r)], r.Dies?)
  }

  // Whether both writes of a reply succeeded, what is left to write, and the output so far.
  datatype Sent = Sent(ok: bool, writes: nat, out: seq<Byte>)

  function Send(d: ReturnData, writes: nat, out: seq<Byte>): Sent {
    if writes == 0 then Sent(false, 0, out)
    else if d.value.None? then Sent(true, writes - 1, out + ReplyBytes(d))
    else if writes == 1 then Sent(false, 0, out + ReplyCode(d))
    else Sent(true, writes - 2, out + ReplyBytes(d))
  }

  predicate Answerable(sv: Server) {
    sv.log != [] && (sv.crashed || !(sv.log[|sv.log| - 1].Ran? && sv.log[|sv.log| - 1].outcome.Dies?))
  }

  /** Replying to the last entry of the log; a failed write ends the connection. */
  ghost function Answer(tb: Tables, exec: Executor, hw: nat -> Hardware, sv: Server, rest: seq<Byte>, writes: nat,
                        out: seq<Byte>): (Server, seq<Byte>)
    requires Answerable(sv)
    decreases |rest|, 1
  {
    if sv.crashed then (sv, out)
    else
      var sent := Send(ReplyData(sv.log[|sv.log| - 1]), writes, out);
      if sent.ok then Serve(tb, exec, hw, sv, rest, sent.writes, sent.out) else (sv, sent.out)
  }

  /** The server once it has dealt with a frame that was read, before it replies. */
  function Handled(exec: Executor, hw: nat -> Hardware, sv: Server, f: Frame): (sv1: Server)
    requires !f.Closed? && Running(sv)
    ensures Answerable(sv1)
  {
    if f.Got? then Step(exec, hw, sv, f.command) else sv.(log := sv.log + [Declined])
  }

  /** One turn of a connection. */
  lemma ServeOnce(tb: Tables, exec: Executor, hw: nat -> Hardware, sv: Server, bytes: seq<Byte>, writes: nat,
                  out: seq<Byte>)
    requires Running(sv)
    ensures var f := ReadFrame(tb, bytes);
      Serve(tb, exec, hw, sv, bytes, writes, out) ==
      if f.Closed? then (sv, out) else Answer(tb, exec, hw, Handled(exec, hw, sv, f), f.rest, writes, out)
  {
  }

  /** Every connection in turn, until the server stops. */
  ghost function ServeAll(tb: Tables, exec: Executor, hw: nat -> Hardware, sv: Server, cs: seq<Connection>)
    : (Server, seq<seq<Byte>>)
    decreases |cs|
  {
    if !Running(sv) || cs == [] then (sv, [])
    else
      var (sv1, out) := Serve(tb, exec, hw, sv, cs[0].bytes, cs[0].writes, []);
      var (sv2, outs) := ServeAll(tb, exec, hw, sv1, cs[1..]);
      (sv2, [out] + outs)
  }

  /** The run from connection i on, after the outputs of those before it. */
  ghost function RunFrom(tb: Tables, exec: Executor, hw: nat -> Hardware, sv: Server, cs: seq<Connection>, i: nat,
                         outs: seq<seq<Byte>>): (Server, seq<seq<Byte>>)
    requires i <= |cs|
  {
    var (sv', rest) := ServeAll(tb, exec, hw, sv, cs[i..]);
    (sv', outs + rest)
  }

  lemma RunFromStart(tb: Tables, exec: Executor, hw: nat -> Hardware, sv: Server, cs: seq<Connection>)
    ensures RunFrom(tb, exec, hw, sv, cs, 0, []) == ServeAll(tb, exec, hw, sv, cs)
  {
    var rest := ServeAll(tb, exec, hw, sv, cs).1;
    assert cs[0..] == cs && [] + rest == rest;
  }

  lemma RunFromStep(tb: Tables, exec: Executor, hw: nat -> Hardware, sv: Server, cs: seq<Connection>, i: nat,
                    outs: seq<seq<Byte>>, sv1: Server, out: seq<Byte>)
    requires i < |cs| && Running(sv) && (sv1, out) == Serve(tb, exec, hw, sv, cs[i].bytes, cs[i].writes, [])
    ensures RunFrom(tb, exec, hw, sv, cs, i, outs) == RunFrom(tb, exec, hw, sv1, cs, i + 1, outs + [out])
  {
    var rest := ServeAll(tb, exec, hw, sv1, cs[i + 1..]).1;
    assert cs[i..][1..] == cs[i + 1..] && cs[i..][0] == cs[i];
    assert outs + ([out] + rest) == outs + [out] + rest;
  }

  lemma RunFromEnd(tb: Tables, exec: Executor, hw: nat -> Hardware, sv: Server, cs: seq<Connection>, i: nat,
                   outs: seq<seq<Byte>>)
    requires i == |cs| || (i < |cs| && !Running(sv))
    ensures RunFrom(tb, exec, hw, sv, cs, i, outs) == (sv, outs)
  {
    assert outs + [] == outs;
  }

  /** The devices' own execute, as an executor. */
  function Real(fpu: Fpu): Executor {
    (s: State, c: Command, h: Hardware) => Execute(fpu, s, c, h)
  }

  predicate Agrees(exec: Executor, fpu: Fpu, s: State, c: Command, h: Hardware) {
    exec(s, c, h) == Execute(fpu, s, c, h)
  }

  class ServerListener {
    const context: Context
    const tables: Tables
    const fpu: Fpu
    ghost const exec: Executor
    var log: seq<Entry>
    var crashed: bool

    constructor (context: Context, tables: Tables, fpu: Fpu)
      ensures this.context == context && this.tables == tables && this.fpu == fpu
      ensures log == [] && !crashed && exec == Real(fpu) && Wired()
    {
      this.context, this.tables, this.fpu, this.exec := context, tables, fpu, Real(fpu);
      log, crashed := [], false;
    }

    ghost function View(): Server
      reads this, context, context.hv, context.lv, context.ltc, context.temperature, context.humidity
    {
      Server(context.View(), log, crashed)
    }

    /** The executor of the specification is what the context does. */
    ghost predicate Wired() {
      forall s, c, h :: Agrees(exec, fpu, s, c, h)
    }

    method Respond(client: Socket, d: ReturnData) returns (ok: bool)
      modifies client`outgoing, client`writesLeft
      ensures Sent(ok, client.writesLeft, client.outgoing) == Send(d, old(client.writesLeft), old(client.outgoing))
    {
      ok := client.Write(ReplyCode(d));
      if ok && d.value.Some? {
        ok := client.Write(PutWord(d.value.value));
        assert ok ==> client.outgoing == old(client.outgoing) + ReplyBytes(d);
      } else {
        assert d.value.None? ==> ReplyBytes(d) == ReplyCode(d);
      }
    }

    /** read_command touches nothing but the socket. */
    method Receive(client: Socket) returns (received: Reply)
      requires context.Valid()
      modifies client`incoming
      ensures context.Valid() && View() == old(View())
      ensures match ReadFrame(tables, old(client.incoming))
              case Closed => received == Throws && client.incoming == []
              case Rejected(rest) => received == Null && client.incoming == rest
              case Got(c, rest) => received == Received(c) && client.incoming == rest
    {
      received := ReadCommand(tables, client);
    }

    /** Runs the command that was read, or notes that there was none. */
    method Process(received: Reply, hw: nat -> Hardware) returns (entry: Entry)
      requires context.Valid() && Wired() && this !in context.Footprint() && !received.Throws? && !crashed
      modifies this`log, this`crashed, context.Footprint()
      ensures context.Valid() && log == old(log) + [entry]
      ensures entry.Ran? ==> (entry.outcome.Dies? <==> crashed)
      ensures received.Null? ==> entry == Declined && View() == old(View()).(log := old(log) + [Declined])
      ensures received.Received? ==> View() == Step(exec, hw, old(View()), received.command)
    {
      entry := Declined;
      if received.Received? {
        assert Agrees(exec, fpu, context.View(), received.command, hw(|log|));
        var outcome := context.Run(fpu, received.command, hw(|log|));
        entry := Ran(received.command, outcome);
        crashed := outcome.Dies?;
      }
      log := log + [entry];
    }

    /** The reply to the entry just logged; go is false if it could not be written. */
    method Conclude(client: Socket, entry: Entry, hw: nat -> Hardware) returns (go: bool)
      requires log != [] && entry == log[|log| - 1] && !crashed && (entry.Ran? ==> !entry.outcome.Dies?)
      requires context.Valid()
      modifies client`outgoing, client`writesLeft
      ensures context.Valid() && View() == old(View())
      ensures Answer(tables, exec, hw, View(), client.incoming, old(client.writesLeft), old(client.outgoing)) ==
              if go then Serve(tables, exec, hw, View(), client.incoming, client.writesLeft, client.outgoing)
              else (View(), client.outgoing)
    {
      go := Respond(client, ReplyData(entry));
    }

    /** One turn of the command loop; go is false where the source breaks out of it. */
    method Turn(client: Socket, hw: nat -> Hardware) returns (go: bool)
      requires context.Valid() && Wired() && Running(View())
      requires client !in context.Footprint() && this !in context.Footprint()
      modifies this`log, this`crashed, context.Footprint(), client
      ensures context.Valid() && (go ==> |client.incoming| < old(|client.incoming|))
      ensures Serve(tables, exec, hw, old(View()), old(client.incoming), old(client.writesLeft),
                    old(client.outgoing)) ==
              if go then Serve(tables, exec, hw, View(), client.incoming, client.writesLeft, client.outgoing)
              else (View(), client.outgoing)
    {
      ghost var sv, f := View(), ReadFrame(tables, client.incoming);
      ServeOnce(tables, exec, hw, sv, client.incoming, client.writesLeft, client.outgoing);
      var received := Receive(client);
      if received.Throws? {
        return false;
      }
      var entry := Process(received, hw);
      assert View() == Handled(exec, hw, sv, f) && client.incoming == f.rest;
      if crashed {
        return false;
      }
      go := Conclude(client, entry, hw);
    }

    /** The command loop of one accepted client. */
    method HandleClient(client: Socket, hw: nat -> Hardware)
      requires context.Valid() && Wired() && client.outgoing == []
      requires client !in context.Footprint() && this !in context.Footprint()
      modifies this`log, this`crashed, context.Footprint(), client
      ensures context.Valid()
      ensures (View(), client.outgoing) ==
              Serve(tables, exec, hw, old(View()), old(client.incoming), old(client.writesLeft), [])
    {
      ghost var target := Serve(tables, exec, hw, View(), client.incoming, client.writesLeft, []);
      var go := true;
      while go && !context.quit && !crashed
        invariant context.Valid()
        invariant target ==
          if go then Serve(tables, exec, hw, View(), client.incoming, client.writesLeft, client.outgoing)
          else (View(), client.outgoing)
        decreases go, |client.incoming|
      {
        go := Turn(client, hw);
      }
    }

    method Accept(c: Connection, hw: nat -> Hardware) returns (out: seq<Byte>)
      requires context.Valid() && Wired() && this !in context.Footprint()
      modifies this`log, this`crashed, context.Footprint()
      ensures context.Valid()
      ensures (View(), out) == Serve(tables, exec, hw, old(View()), c.bytes, c.writes, [])
    {
      var client := new Socket(c.bytes, c.writes);
      HandleClient(client, hw);
      out := client.outgoing;
    }

    /** The accept loop. */
    method Listen(cs: seq<Connection>, hw: nat -> Hardware) returns (outs: seq<seq<Byte>>)
      requires context.Valid() && Wired() && this !in context.Footprint()
      modifies this`log, this`crashed, context.Footprint()
      ensures (View(), outs) == ServeAll(tables, exec, hw, old(View()), cs)
    {
      outs := [];
      var i := 0;
      RunFromStart(tables, exec, hw, View(), cs);
      ghost var target := RunFrom(tables, exec, hw, View(), cs, 0, []);
      while !context.quit && !crashed && i < |cs|
        invariant i <= |cs| && context.Valid()
        invariant target == RunFrom(tables, exec, hw, View(), cs, i, outs)
        decreases |cs| - i
      {
        ghost var before := View();
        var out := Accept(cs[i], hw);
        RunFromStep(tables, exec, hw, before, cs, i, outs, View(), out);
        outs := outs + [out];
        i := i + 1;
      }
      RunFromEnd(tables, exec, hw, View(), cs, i, outs);
    }
  }
}
