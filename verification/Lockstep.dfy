// client/client.cpp and server/server.cpp as two processes over two byte queues, each socket
// operation a step of its own, interleaved in any way.
module Lockstep {
  import opened Wrappers
  import opened Wire
  import opened Tables
  import opened Codec
  import opened Execution
  import opened Server
  import opened ServerSafety
  import opened Histories
  import opened Client

  // Where the client is: between commands, between the two writes of BaseCommand::write, waiting
  // for the 16-bit code, or waiting for the value.
  datatype ClientPc = Idle | WroteCode | AwaitCode | AwaitValue

  // Where the server is: before each of its reads, executing, before each of its writes, stopped.
  datatype ServerPc =
    | AtCode | AtAction(code: Word) | AtParams(code: Word, action: Word) | AtExecute(command: Command)
    | AtReply(data: ReturnData) | AtValue(value: Word) | Stopped

  // todo[0] is the command in progress unless the client is Idle.  ran and replies record what
  // the server executed and answered.
  datatype Net = Net(
    todo: seq<Command>, client: ClientPc, results: seq<Result>,
    up: seq<Byte>, down: seq<Byte>,
    server: ServerPc, sv: Server, ran: seq<Command>, replies: seq<ReturnData>)

  datatype Env = Env(tb: Tables, exec: Executor, hw: nat -> Hardware, batch: bool, start: Server)

  // ---- client steps

  function Finish(e: Env, n: Net, r: Result): Net
    requires n.todo != []
  {
    n.(todo := if e.batch then [] else n.todo[1..], client := Idle, results := n.results + [r])
  }

  function TakeCode(e: Env, n: Net): Net
    requires n.todo != [] && |n.down| >= 2
  {
    var code, n1 := GetHalf(n.down[..2]), n.(down := n.down[2..]);
    match ErrorFromIndex(code)
    case None => Finish(e, n1, Unrecognized(code))
    case Some(error) =>
      if error == Success && ReturnFormat(e.tb, n.todo[0]).Some? then n1.(client := AwaitValue)
      else Finish(e, n1, Replied(error, None))
  }

  function TakeValue(e: Env, n: Net): Net
    requires n.todo != [] && |n.down| >= 4
  {
    Finish(e, n.(down := n.down[4..]), Replied(Success, Some(GetWord(n.down[..4]))))
  }

  ghost predicate ClientStep(e: Env, n: Net, n': Net) {
    n.todo != [] &&
    match n.client
    case Idle => n' == n.(client := WroteCode, up := n.up + PutWord(n.todo[0].code))
    case WroteCode => n' == n.(client := AwaitCode, up := n.up + PutWords(n.todo[0].data))
    case AwaitCode => |n.down| >= 2 && n' == TakeCode(e, n)
    case AwaitValue => |n.down| >= 4 && n' == TakeValue(e, n)
  }

  /** The server has closed the connection: a write of some bytes may throw, and a read that finds
      too few bytes does.  The loop goes on if the socket is still good(). */
  ghost predicate LoseStep(e: Env, n: Net, n': Net) {
    && n.todo != [] && n.server.Stopped?
    && (n.client.WroteCode? ==> n.todo[0].data != [])
    && (n.client.AwaitCode? ==> |n.down| < 2)
    && (n.client.AwaitValue? ==> |n.down| < 4)
    && var lost := Finish(e, n.(down := []), Failed);
       n' == lost || n' == lost.(todo := [])
  }

  // ---- server steps

  function Loop(sv: Server): ServerPc {
    if Running(sv) then AtCode else Stopped
  }

  function Decline(n: Net): Net {
    var d := ReplyData(Declined);
    n.(sv := n.sv.(log := n.sv.log + [Declined]), replies := n.replies + [d], server := AtReply(d))
  }

  function RunCommand(e: Env, n: Net, c: Command): Net {
    var sv1 := Step(e.exec, e.hw, n.sv, c);
    var n1 := n.(sv := sv1, ran := n.ran + [c]);
    if sv1.crashed then n1.(server := Stopped)
    else
      var d := ReplyData(sv1.log[|n.sv.log|]);
      n1.(replies := n.replies + [d], server := AtReply(d))
  }

  ghost predicate ServerStep(e: Env, n: Net, n': Net) {
    match n.server
    case AtCode =>
      |n.up| >= 4 &&
      var code, n1 := GetWord(n.up[..4]), n.(up := n.up[4..]);
      n' == if code >= |e.tb| then Decline(n1)
            else if e.tb[code].Bare? then n1.(server := AtExecute(Command(code, [])))
            else n1.(server := AtAction(code))
    case AtAction(code) =>
      |n.up| >= 4 && code < |e.tb| && e.tb[code].Grouped? &&
      var action, n1 := GetWord(n.up[..4]), n.(up := n.up[4..]);
      n' == if action >= |e.tb[code].actions| then Decline(n1) else n1.(server := AtParams(code, action))
    case AtParams(code, action) =>
      code < |e.tb| && e.tb[code].Grouped? && action < |e.tb[code].actions| &&
      var k := 4 * |e.tb[code].actions[action].params|;
      |n.up| >= k &&
      n' == n.(up := n.up[k..], server := AtExecute(Command(code, [action] + GetWords(n.up[..k]))))
    case AtExecute(c) => n' == RunCommand(e, n, c)
    case AtReply(d) =>
      n' == n.(down := n.down + ReplyCode(d), server := if d.value.Some? then AtValue(d.value.value) else Loop(n.sv))
    case AtValue(v) => n' == n.(down := n.down + PutWord(v), server := Loop(n.sv))
    case Stopped => false
  }

  ghost predicate Next(e: Env, n: Net, n': Net) {
    ClientStep(e, n, n') || LoseStep(e, n, n') || ServerStep(e, n, n')
  }

  /** The start: a fresh connection to a running server. */
  ghost predicate Start(e: Env, script: seq<Command>, n: Net) {
    && n.todo == script && n.client == Idle && n.results == [] && n.up == [] && n.down == []
    && n.server == AtCode && n.sv == e.start && Running(n.sv) && n.ran == [] && n.replies == []
  }

  // ---- the invariant

  function ResultOf(n: Net, j: nat): Result {
    if j < |n.replies| then Replied(n.replies[j].error, n.replies[j].value) else Failed
  }

  ghost predicate NoQuit(cs: seq<Command>) {
    forall i :: 0 <= i < |cs| ==> cs[i].code != QUIT
  }

  /** What happened so far: the server ran the script in order, and result j is reply j. */
  ghost predicate History(e: Env, script: seq<Command>, n: Net) {
    && |n.ran| <= |script| && n.ran == script[..|n.ran|]
    && |n.replies| == (if n.sv.crashed then |n.ran| - 1 else |n.ran|)
    && (forall j :: 0 <= j < |n.replies| ==> Contract(e.tb, script[j], n.replies[j]))
    && |n.results| <= |script| && (n.client != Idle ==> n.todo != [])
    && (forall j :: 0 <= j < |n.results| ==> n.results[j] == ResultOf(n, j))
    && (n.todo == script[|n.results|..] || (n.todo == [] && n.client == Idle && (e.batch || n.server.Stopped?)))
    && (if n.sv.state.quit then n.ran != [] && n.ran[|n.ran| - 1].code == QUIT && NoQuit(n.ran[..|n.ran| - 1])
        else NoQuit(n.ran))
  }

  /** The server loops on while it runs, stops when it does not, and otherwise is replying. */
  ghost predicate Control(n: Net) {
    match n.server
    case Stopped => !Running(n.sv)
    case AtReply(_) => !n.sv.crashed
    case AtValue(_) => !n.sv.crashed
    case _ => Running(n.sv)
  }

  /** The part of the request written so far. */
  function Written(n: Net, c: Command): seq<Byte> {
    if n.client == WroteCode then PutWord(c.code) else Encode(c)
  }

  /** The server has read part of the request c: the rest of what was written is in the queue. */
  ghost predicate Unserved(e: Env, n: Net, c: Command) {
    && n.down == [] && n.client != AwaitValue
    && match n.server
       case AtCode => n.up == Written(n, c)
       case AtAction(code) => code == c.code && c.data != [] && n.up == Written(n, c)[4..]
       case AtParams(code, action) =>
         code == c.code && c.data != [] && action == c.data[0] && n.client != WroteCode && n.up == PutWords(c.data[1..])
       case AtExecute(c') => c' == c && n.up == [] && (n.client == WroteCode ==> c.data == [])
       case _ => false
  }

  /** The server has executed c with reply d: what it wrote and the client has not read is in the
      queue. */
  ghost predicate Served(n: Net, c: Command, d: ReturnData) {
    && n.up == [] && (n.client == WroteCode ==> c.data == [])
    && (n.client == AwaitValue ==> d.value.Some?)
    && match n.server
       case AtReply(d') => d' == d && n.down == [] && n.client != AwaitValue
       case AtValue(v) => d.value == Some(v) && n.down == if n.client == AwaitValue then [] else ReplyCode(d)
       case AtCode => n.down == if n.client == AwaitValue then PutWord(d.value.value) else ReplyBytes(d)
       case Stopped => n.down == if n.client == AwaitValue then PutWord(d.value.value) else ReplyBytes(d)
       case _ => false
  }

  ghost predicate Channels(e: Env, n: Net) {
    if n.server.Stopped? && |n.replies| <= |n.results| then n.down == [] && n.client != AwaitValue
    else if n.client == Idle then n.server == AtCode && n.up == [] && n.down == [] && |n.ran| == |n.results|
    else
      n.todo != [] &&
      if |n.ran| == |n.results| then Unserved(e, n, n.todo[0])
      else |n.replies| == |n.results| + 1 && Served(n, n.todo[0], n.replies[|n.results|])
  }

  ghost predicate Inv(e: Env, script: seq<Command>, n: Net) {
    History(e, script, n) && Control(n) && Channels(e, n)
  }

  ghost predicate Setting(e: Env, script: seq<Command>) {
    Lawful(e.tb, e.exec) && forall i :: 0 <= i < |script| ==> WellFormed(e.tb, script[i])
  }

  /** The server is as if it had executed `ran` one command after the other, and its replies are
      the data of their outcomes. */
  ghost predicate Recorded(e: Env, n: Net) {
    var k := |e.start.log|;
    var os := Outcomes(e.exec, e.hw, k, e.start.state, n.ran);
    && |os| == |n.ran| && n.replies == Said(os)
    && n.sv == Server(StateAfter(e.exec, e.hw, k, e.start.state, n.ran), e.start.log + Logged(n.ran, os), Dead(os))
  }

  lemma StartInv(e: Env, script: seq<Command>, n: Net)
    requires Setting(e, script) && Start(e, script, n)
    ensures Inv(e, script, n) && Recorded(e, n)
  {
    assert e.start.log + [] == e.start.log;
  }

  // ---- every step keeps it

  lemma CurrentCommand(e: Env, script: seq<Command>, n: Net)
    requires Setting(e, script) && Inv(e, script, n) && n.todo != []
    ensures |n.results| < |script| && n.todo[0] == script[|n.results|] && WellFormed(e.tb, n.todo[0])
    ensures n.todo[1..] == script[|n.results| + 1..]
  {
  }

  lemma ClientWritesCode(e: Env, script: seq<Command>, n: Net, n': Net)
    requires Setting(e, script) && Inv(e, script, n) && ClientStep(e, n, n') && n.client == Idle
    ensures Inv(e, script, n')
  {
    CurrentCommand(e, script, n);
    assert [] + PutWord(n.todo[0].code) == PutWord(n.todo[0].code);
  }

  lemma ClientWritesData(e: Env, script: seq<Command>, n: Net, n': Net)
    requires Setting(e, script) && Inv(e, script, n) && ClientStep(e, n, n') && n.client == WroteCode
    ensures Inv(e, script, n')
  {
    CurrentCommand(e, script, n);
    var c := n.todo[0];
    assert n.server.AtAction? ==> n.up == [];
    assert Encode(c)[4..] == PutWords(c.data);
  }

  /** The reply to the current command has been written and read in full. */
  lemma FinishKeeps(e: Env, script: seq<Command>, n: Net, m: Net)
    requires Setting(e, script) && Inv(e, script, n) && n.todo != [] && n.client in {AwaitCode, AwaitValue}
    requires |n.replies| == |n.results| + 1 && n.server in {AtCode, Stopped}
    requires m == Finish(e, n.(down := []), ResultOf(n, |n.results|))
    ensures Inv(e, script, m)
  {
    CurrentCommand(e, script, n);
    assert History(e, script, m);
    assert Control(m);
  }

  /** What the client takes when the code arrives. */
  lemma CodeTaken(e: Env, script: seq<Command>, n: Net, n': Net)
    requires Setting(e, script) && Inv(e, script, n) && ClientStep(e, n, n') && n.client == AwaitCode
    ensures |n.replies| == |n.results| + 1 && n.down[..2] == ReplyCode(n.replies[|n.results|])
    ensures var d := n.replies[|n.results|];
      n' == if d.value.Some? then n.(down := n.down[2..], client := AwaitValue)
            else Finish(e, n.(down := n.down[2..]), Replied(d.error, None))
  {
    CurrentCommand(e, script, n);
    var d := n.replies[|n.results|];
    HalfRoundTrip(ErrorIndex(d.error));
    assert Contract(e.tb, n.todo[0], d);
    assert n.down[..2] == ReplyCode(d);
    assert ErrorFromIndex(ErrorIndex(d.error)) == Some(d.error);
  }

  lemma ClientReadsCode(e: Env, script: seq<Command>, n: Net, n': Net)
    requires Setting(e, script) && Inv(e, script, n) && ClientStep(e, n, n') && n.client == AwaitCode
    ensures Inv(e, script, n')
  {
    CodeTaken(e, script, n, n');
    var d := n.replies[|n.results|];
    if d.value.None? {
      assert n.down[2..] == [];
      FinishKeeps(e, script, n, n');
    } else {
      assert n.down[2..] == if n.server.AtValue? then [] else PutWord(d.value.value);
      assert History(e, script, n') && Control(n');
    }
  }

  lemma ClientReadsValue(e: Env, script: seq<Command>, n: Net, n': Net)
    requires Setting(e, script) && Inv(e, script, n) && ClientStep(e, n, n') && n.client == AwaitValue
    ensures Inv(e, script, n')
  {
    CurrentCommand(e, script, n);
    var d := n.replies[|n.results|];
    WordRoundTrip(d.value.value);
    assert Contract(e.tb, n.todo[0], d);
    assert n.down[..4] == n.down && n.down[4..] == [];
    FinishKeeps(e, script, n, n');
  }

  lemma ClientLoses(e: Env, script: seq<Command>, n: Net, n': Net)
    requires Setting(e, script) && Inv(e, script, n) && LoseStep(e, n, n')
    ensures Inv(e, script, n')
  {
    CurrentCommand(e, script, n);
  }

  lemma ServerReadsCode(e: Env, script: seq<Command>, n: Net, n': Net)
    requires Setting(e, script) && Inv(e, script, n) && ServerStep(e, n, n') && n.server.AtCode?
    ensures Inv(e, script, n')
  {
    CurrentCommand(e, script, n);
    var c := n.todo[0];
    WordRoundTrip(c.code);
    assert n.up[..4] == PutWord(c.code);
    assert Encode(c)[4..] == PutWords(c.data) && PutWord(c.code)[4..] == [];
  }

  lemma ServerReadsAction(e: Env, script: seq<Command>, n: Net, n': Net)
    requires Setting(e, script) && Inv(e, script, n) && ServerStep(e, n, n') && n.server.AtAction?
    ensures Inv(e, script, n')
  {
    CurrentCommand(e, script, n);
    var c := n.todo[0];
    WordRoundTrip(c.data[0]);
    assert Encode(c)[4..] == PutWords(c.data) && PutWord(c.code)[4..] == [];
    assert n.up[..4] == PutWord(c.data[0]) && n.up[4..] == PutWords(c.data[1..]);
  }

  lemma ServerReadsParams(e: Env, script: seq<Command>, n: Net, n': Net)
    requires Setting(e, script) && Inv(e, script, n) && ServerStep(e, n, n') && n.server.AtParams?
    ensures Inv(e, script, n')
  {
    CurrentCommand(e, script, n);
    var c := n.todo[0];
    var k := 4 * |e.tb[c.code].actions[c.data[0]].params|;
    WordsRoundTrip(c.data[1..]);
    assert n.up[..k] == n.up && n.up[k..] == [];
    assert c.data == [c.data[0]] + c.data[1..];
  }

  lemma ServerExecutes(e: Env, script: seq<Command>, n: Net, n': Net)
    requires Setting(e, script) && Inv(e, script, n) && ServerStep(e, n, n') && n.server.AtExecute?
    ensures Inv(e, script, n')
  {
    CurrentCommand(e, script, n);
    var c := n.todo[0];
    assert Obeys(e.tb, e.exec, n.sv.state, c, e.hw(|n.sv.log|));
    ExecutedHistory(e, script, n, n', c);
    assert Control(n');
  }

  lemma ExecutedHistory(e: Env, script: seq<Command>, n: Net, n': Net, c: Command)
    requires History(e, script, n) && Running(n.sv) && n' == RunCommand(e, n, c)
    requires |n.ran| == |n.results| == |n.replies| < |script| && c == script[|n.ran|]
    requires n.todo == script[|n.results|..]
    requires WellFormed(e.tb, c) && Obeys(e.tb, e.exec, n.sv.state, c, e.hw(|n.sv.log|))
    ensures History(e, script, n')
  {
    assert n'.ran[..|n'.ran| - 1] == n.ran;
    assert script[..|n.ran| + 1] == script[..|n.ran|] + [c];
  }

  lemma ServerWritesCode(e: Env, script: seq<Command>, n: Net, n': Net)
    requires Setting(e, script) && Inv(e, script, n) && ServerStep(e, n, n') && n.server.AtReply?
    ensures Inv(e, script, n')
  {
    var d := n.replies[|n.results|];
    assert n.down + ReplyCode(d) == ReplyCode(d);
    assert d.value.None? ==> ReplyBytes(d) == ReplyCode(d);
  }

  lemma ServerWritesValue(e: Env, script: seq<Command>, n: Net, n': Net)
    requires Setting(e, script) && Inv(e, script, n) && ServerStep(e, n, n') && n.server.AtValue?
    ensures Inv(e, script, n')
  {
    var d := n.replies[|n.results|];
    assert [] + PutWord(d.value.value) == PutWord(d.value.value);
  }

  lemma NextKeeps(e: Env, script: seq<Command>, n: Net, n': Net)
    requires Setting(e, script) && Inv(e, script, n) && Next(e, n, n')
    ensures Inv(e, script, n')
  {
    if ClientStep(e, n, n') {
      match n.client
      case Idle => ClientWritesCode(e, script, n, n');
      case WroteCode => ClientWritesData(e, script, n, n');
      case AwaitCode => ClientReadsCode(e, script, n, n');
      case AwaitValue => ClientReadsValue(e, script, n, n');
    } else if LoseStep(e, n, n') {
      ClientLoses(e, script, n, n');
    } else {
      match n.server
      case AtCode => ServerReadsCode(e, script, n, n');
      case AtAction(_) => ServerReadsAction(e, script, n, n');
      case AtParams(_, _) => ServerReadsParams(e, script, n, n');
      case AtExecute(_) => ServerExecutes(e, script, n, n');
      case AtReply(_) => ServerWritesCode(e, script, n, n');
      case AtValue(_) => ServerWritesValue(e, script, n, n');
    }
  }

  // ---- every step records what it does

  lemma {:induction false} LoggedLength(cs: seq<Command>, os: seq<Outcome>)
    requires |os| == |cs|
    ensures |Logged(cs, os)| == |cs|
  {
    if cs != [] {
      LoggedLength(cs[1..], os[1..]);
    }
  }

  lemma RunRecords(e: Env, n: Net, c: Command, r: Outcome)
    requires Recorded(e, n) && Running(n.sv) && |n.replies| == |n.ran|
    requires r == e.exec(n.sv.state, c, e.hw(|n.sv.log|)).1 && !r.Raises?
    ensures Recorded(e, RunCommand(e, n, c))
  {
    var k, s := |e.start.log|, e.start.state;
    var os := Outcomes(e.exec, e.hw, k, s, n.ran);
    LoggedLength(n.ran, os);
    OneMore(e.exec, e.hw, k, s, n.ran, c);
    LoggedMore(n.ran, os, c, r);
    SaidMore(os, r);
    Regrouped(e.start.log, Logged(n.ran, os), Ran(c, r));
  }

  lemma Regrouped(a: seq<Entry>, b: seq<Entry>, x: Entry)
    ensures a + b + [x] == a + (b + [x])
  {
  }

  lemma NextRecords(e: Env, script: seq<Command>, n: Net, n': Net)
    requires Setting(e, script) && Inv(e, script, n) && Recorded(e, n) && Next(e, n, n')
    ensures Recorded(e, n')
  {
    NextKeeps(e, script, n, n');
    if ServerStep(e, n, n') && n.server.AtExecute? {
      CurrentCommand(e, script, n);
      var c := n.server.command;
      assert Obeys(e.tb, e.exec, n.sv.state, c, e.hw(|n.sv.log|));
      RunRecords(e, n, c, e.exec(n.sv.state, c, e.hw(|n.sv.log|)).1);
    } else {
      Unrecorded(e, script, n, n');
    }
  }

  /** No other step executes or answers anything. */
  lemma Unrecorded(e: Env, script: seq<Command>, n: Net, n': Net)
    requires History(e, script, n) && History(e, script, n')
    requires Next(e, n, n') && !(ServerStep(e, n, n') && n.server.AtExecute?)
    ensures n'.sv == n.sv && n'.ran == n.ran && n'.replies == n.replies
  {
    if ServerStep(e, n, n') {
      ServerUnrecorded(e, script, n, n');
    } else {
      ClientUnrecorded(e, n, n');
    }
  }

  lemma ClientUnrecorded(e: Env, n: Net, n': Net)
    requires ClientStep(e, n, n') || LoseStep(e, n, n')
    ensures n'.sv == n.sv && n'.ran == n.ran && n'.replies == n.replies
  {
  }

  lemma ServerUnrecorded(e: Env, script: seq<Command>, n: Net, n': Net)
    requires History(e, script, n) && History(e, script, n') && ServerStep(e, n, n') && !n.server.AtExecute?
    ensures n'.sv == n.sv && n'.ran == n.ran && n'.replies == n.replies
  {
  }

  // ---- runs

  ghost predicate Linked(e: Env, run: seq<Net>, i: nat) {
    i + 1 < |run| ==> Next(e, run[i], run[i + 1])
  }

  ghost predicate Run(e: Env, script: seq<Command>, run: seq<Net>) {
    && run != [] && Start(e, script, run[0])
    && forall i :: 0 <= i < |run| ==> Linked(e, run, i)
  }

  lemma {:induction false} RunKeeps(e: Env, script: seq<Command>, run: seq<Net>, i: nat)
    requires Setting(e, script) && Run(e, script, run) && i < |run|
    ensures Inv(e, script, run[i]) && Recorded(e, run[i])
  {
    if i == 0 {
      StartInv(e, script, run[0]);
    } else {
      RunKeeps(e, script, run, i - 1);
      assert Linked(e, run, i - 1);
      NextKeeps(e, script, run[i - 1], run[i]);
      NextRecords(e, script, run[i - 1], run[i]);
    }
  }

  /** Result j is what executing command j came to, in the state the commands before it left. */
  ghost predicate AnswersFor(e: Env, script: seq<Command>, n: Net, j: nat)
    requires j < |script| && j < |n.results|
  {
    var k := |e.start.log|;
    var r := e.exec(StateAfter(e.exec, e.hw, k, e.start.state, script[..j]), script[j], e.hw(k + j)).1;
    r.Replies? && n.results[j] == Replied(r.data.error, r.data.value)
  }

  /** In every state of every run: the server has executed an initial part of the script and
      nothing else; result j is what executing command j came to, and a failure only if the server
      stopped before answering it; and whenever the client is about to send to a live server both
      queues are empty and every command sent so far has been answered. */
  lemma Lockstep(e: Env, script: seq<Command>, run: seq<Net>, i: nat)
    requires Setting(e, script) && Run(e, script, run) && i < |run|
    ensures var n := run[i];
      && n.ran <= script && |n.results| <= |script| && Recorded(e, n)
      && (forall j :: 0 <= j < |n.results| && j < |n.replies| ==> AnswersFor(e, script, n, j))
      && (forall j :: |n.replies| <= j < |n.results| ==> n.results[j] == Failed && n.server.Stopped?)
      && (n.client == Idle && !n.server.Stopped? ==>
            n.up == [] && n.down == [] && |n.results| == |n.replies| == |n.ran|)
  {
    RunKeeps(e, script, run, i);
    var n := run[i];
    forall j | 0 <= j < |n.results| && j < |n.replies|
      ensures AnswersFor(e, script, n, j)
    {
      ReplyIsOutcome(e, script, n, j);
    }
  }

  lemma ReplyIsOutcome(e: Env, script: seq<Command>, n: Net, j: nat)
    requires Recorded(e, n) && n.ran <= script && j < |n.results| && j < |n.replies|
    requires n.results[j] == ResultOf(n, j)
    ensures j < |script| && AnswersFor(e, script, n, j)
  {
    var os := Outcomes(e.exec, e.hw, |e.start.log|, e.start.state, n.ran);
    SaidAt(os, j);
    OutcomeAt(e.exec, e.hw, |e.start.log|, e.start.state, n.ran, j);
    assert n.ran[..j] == script[..j];
  }

  function ClientStage(n: Net): nat {
    match n.client
    case Idle => 0
    case WroteCode => 1
    case AwaitCode => 2
    case AwaitValue => 3
  }

  function ServerStage(n: Net): nat {
    if n.client == Idle then 0
    else
      match n.server
      case AtCode => if |n.ran| > |n.results| then 6 else 0
      case AtAction(_) => 1
      case AtParams(_, _) => 2
      case AtExecute(_) => 3
      case AtReply(_) => 4
      case AtValue(_) => 5
      case Stopped => 6
  }

  /** Steps left, at most. */
  function Remaining(n: Net): int {
    16 * |n.todo| - ClientStage(n) - ServerStage(n)
  }

  lemma ClientDecreases(e: Env, script: seq<Command>, n: Net, n': Net)
    requires Setting(e, script) && Inv(e, script, n) && (ClientStep(e, n, n') || LoseStep(e, n, n'))
    ensures Remaining(n') < Remaining(n)
  {
    CurrentCommand(e, script, n);
  }

  /** Where the server is tells whether the command in progress has been executed. */
  lemma ServerBusy(e: Env, script: seq<Command>, n: Net, n': Net)
    requires Inv(e, script, n) && ServerStep(e, n, n')
    ensures n.client != Idle
    ensures n.server.AtCode? ==> |n.ran| <= |n.results|
    ensures n.server.AtReply? || n.server.AtValue? ==> |n.ran| > |n.results|
  {
  }

  lemma StageGrows(e: Env, n: Net, n': Net)
    requires ServerStep(e, n, n') && n.client != Idle
    requires n.server.AtCode? ==> |n.ran| <= |n.results|
    requires n.server.AtReply? || n.server.AtValue? ==> |n.ran| > |n.results|
    ensures Remaining(n') < Remaining(n)
  {
    assert n'.client == n.client && n'.todo == n.todo && n'.results == n.results;
  }

  lemma ServerDecreases(e: Env, script: seq<Command>, n: Net, n': Net)
    requires Inv(e, script, n) && ServerStep(e, n, n')
    ensures Remaining(n') < Remaining(n)
  {
    ServerBusy(e, script, n, n');
    StageGrows(e, n, n');
  }

  lemma NextDecreases(e: Env, script: seq<Command>, n: Net, n': Net)
    requires Setting(e, script) && Inv(e, script, n) && Next(e, n, n')
    ensures Remaining(n') < Remaining(n)
  {
    if ServerStep(e, n, n') {
      ServerDecreases(e, script, n, n');
    } else {
      ClientDecreases(e, script, n, n');
    }
  }

  lemma RemainingSome(e: Env, script: seq<Command>, n: Net)
    requires Inv(e, script, n)
    ensures Remaining(n) >= 0
  {
  }

  lemma RunShrinks(e: Env, script: seq<Command>, run: seq<Net>, i: nat)
    requires Setting(e, script) && Run(e, script, run) && 0 < i < |run|
    ensures Remaining(run[i]) < Remaining(run[i - 1])
  {
    RunKeeps(e, script, run, i - 1);
    assert Linked(e, run, i - 1);
    NextDecreases(e, script, run[i - 1], run[i]);
  }

  lemma RunNonNegative(e: Env, script: seq<Command>, run: seq<Net>, i: nat)
    requires Setting(e, script) && Run(e, script, run) && i < |run|
    ensures Remaining(run[i]) >= 0
  {
    RunKeeps(e, script, run, i);
    RemainingSome(e, script, run[i]);
  }

  /** No run is longer than sixteen steps a command. */
  lemma {:induction false} RunsEnd(e: Env, script: seq<Command>, run: seq<Net>, i: nat)
    requires Setting(e, script) && Run(e, script, run) && i < |run|
    ensures 0 <= Remaining(run[i]) <= 16 * |script| - i
  {
    RunNonNegative(e, script, run, i);
    if i > 0 {
      RunShrinks(e, script, run, i);
      RunsEnd(e, script, run, i - 1);
    }
  }

  /** While the client has something left to do, some step can be taken: no deadlock. */
  lemma Progress(e: Env, script: seq<Command>, n: Net) returns (n': Net)
    requires Setting(e, script) && Inv(e, script, n) && n.todo != []
    ensures Next(e, n, n')
  {
    CurrentCommand(e, script, n);
    var c := n.todo[0];
    n' := n;
    if n.client == Idle {
      n' := n.(client := WroteCode, up := n.up + PutWord(c.code));
    } else if n.client == WroteCode {
      n' := n.(client := AwaitCode, up := n.up + PutWords(c.data));
    } else if n.client == AwaitCode && |n.down| >= 2 {
      n' := TakeCode(e, n);
    } else if n.client == AwaitValue && |n.down| >= 4 {
      n' := TakeValue(e, n);
    } else if n.server.Stopped? {
      n' := Finish(e, n.(down := []), Failed);
    } else {
      n' := ServerProgress(e, script, n);
    }
  }

  lemma ServerProgress(e: Env, script: seq<Command>, n: Net) returns (n': Net)
    requires Setting(e, script) && Inv(e, script, n) && n.todo != [] && !n.server.Stopped?
    requires (n.client == AwaitCode && |n.down| < 2) || (n.client == AwaitValue && |n.down| < 4)
    ensures ServerStep(e, n, n')
  {
    CurrentCommand(e, script, n);
    var c := n.todo[0];
    match n.server
    case AtCode =>
      WordRoundTrip(c.code);
      assert n.up[..4] == PutWord(c.code);
      var n1 := n.(up := n.up[4..]);
      n' := if e.tb[c.code].Bare? then n1.(server := AtExecute(Command(c.code, [])))
            else n1.(server := AtAction(c.code));
    case AtAction(code) =>
      WordRoundTrip(c.data[0]);
      assert n.up == PutWords(c.data);
      assert n.up[..4] == PutWord(c.data[0]);
      n' := n.(up := n.up[4..], server := AtParams(code, c.data[0]));
    case AtParams(code, action) =>
      var k := 4 * |e.tb[code].actions[action].params|;
      n' := n.(up := n.up[k..], server := AtExecute(Command(code, [action] + GetWords(n.up[..k]))));
    case AtExecute(c) => n' := RunCommand(e, n, c);
    case AtReply(d) =>
      n' := n.(down := n.down + ReplyCode(d), server := if d.value.Some? then AtValue(d.value.value) else Loop(n.sv));
    case AtValue(v) => n' := n.(down := n.down + PutWord(v), server := Loop(n.sv));
  }

  lemma {:induction false} UpToQuitOfAll(cs: seq<Command>)
    requires NoQuit(cs)
    ensures UpToQuit(cs) == cs
  {
    if cs != [] {
      UpToQuitOfAll(cs[1..]);
    }
  }

  lemma {:induction false} UpToQuitOfPrefix(cs: seq<Command>, k: nat)
    requires k < |cs| && NoQuit(cs[..k]) && cs[k].code == QUIT
    ensures UpToQuit(cs) == cs[..k + 1]
  {
    if k > 0 {
      assert cs[0] == cs[..k][0];
      assert cs[1..][..k - 1] == cs[..k][1..];
      UpToQuitOfPrefix(cs[1..], k - 1);
      assert cs[..k + 1] == [cs[0]] + cs[1..][..k];
    }
  }

  ghost predicate Stuck(e: Env, n: Net) {
    forall n' :: !Next(e, n, n')
  }

  /** The client has nothing left to do, and, outside batch mode and unless the server died: the
      server ran the script up to and including its first Quit, and the client has every reply. */
  ghost predicate Complete(e: Env, script: seq<Command>, n: Net) {
    && n.todo == [] && n.client == Idle
    && (!e.batch && !n.sv.crashed ==>
          && n.ran == UpToQuit(script)
          && |n.replies| == |n.ran| <= |n.results|
          && (!n.sv.state.quit ==> |n.results| == |script|))
  }

  lemma FinishedIsComplete(e: Env, script: seq<Command>, n: Net)
    requires Setting(e, script) && Inv(e, script, n) && n.todo == []
    ensures Complete(e, script, n)
  {
    var k := |n.ran|;
    if n.sv.state.quit {
      assert n.ran[..k - 1] == script[..k - 1] && n.ran[k - 1] == script[k - 1];
      UpToQuitOfPrefix(script, k - 1);
    } else if !n.server.Stopped? && !e.batch {
      assert n.ran == script;
      UpToQuitOfAll(script);
    }
  }

  /** A finished server has executed all of the script that can be executed. */
  lemma FinishedIsAll(e: Env, script: seq<Command>, n: Net)
    requires Inv(e, script, n) && Recorded(e, n) && n.todo == [] && !e.batch
    ensures var k, s := |e.start.log|, e.start.state;
      && Outcomes(e.exec, e.hw, k, s, script) == Outcomes(e.exec, e.hw, k, s, n.ran)
      && StateAfter(e.exec, e.hw, k, s, script) == StateAfter(e.exec, e.hw, k, s, n.ran)
  {
    if n.server.Stopped? {
      Ended(e.exec, e.hw, |e.start.log|, e.start.state, script, |n.ran|);
    } else {
      assert n.ran == script;
    }
  }

  /** A run that cannot go on is complete, and no run is longer than sixteen steps a command. */
  lemma RunsComplete(e: Env, script: seq<Command>, run: seq<Net>)
    requires Setting(e, script) && Run(e, script, run) && Stuck(e, run[|run| - 1])
    ensures |run| <= 16 * |script| + 1 && Complete(e, script, run[|run| - 1])
  {
    var n := run[|run| - 1];
    RunKeeps(e, script, run, |run| - 1);
    RunsEnd(e, script, run, |run| - 1);
    if n.todo != [] {
      var n' := Progress(e, script, n);
      assert false;
    }
    FinishedIsComplete(e, script, n);
  }
}
