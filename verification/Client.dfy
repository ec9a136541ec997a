// client/client.cpp: sending the commands of a script and reading the replies.
module Client {
  import opened Wrappers
  import opened Wire
  import opened Text
  import opened Numbers
  import opened Tables
  import opened Codec
  import opened Execution

  function ErrorFromIndex(i: Half): (r: Option<ErrorCode>)
    ensures r.Some? <==> i < 9
    ensures r.Some? ==> ErrorIndex(r.value) == i
  {
    match i
    case 0 => Some(Success)
    case 1 => Some(InvalidCommand)
    case 2 => Some(PoorlyStructuredCommand)
    case 3 => Some(ResourceUnavailable)
    case 4 => Some(VoltageOutOfRange)
    case 5 => Some(UnspecifiedFailure)
    case 6 => Some(CannotWrite)
    case 7 => Some(CannotRead)
    case 8 => Some(ResourceBusy)
    case _ => None
  }

  /** The codes are numbered in the order of their declaration. */
  lemma CodeOrder(i: nat)
    requires i < 9
    ensures var order := [Success, InvalidCommand, PoorlyStructuredCommand, ResourceUnavailable, VoltageOutOfRange,
                          UnspecifiedFailure, CannotWrite, CannotRead, ResourceBusy];
      ErrorIndex(order[i]) == i && ErrorFromIndex(i) == Some(order[i])
  {
    assert i in {0, 1, 2, 3, 4, 5, 6, 7, 8};
  }

  // What one command came to: a reply, an error code outside the table, or a socket failure.
  datatype Result = Replied(error: ErrorCode, value: Option<Word>) | Unrecognized(code: Half) | Failed

  // How a script ends: all lines read, an uncaught logic_error from a bad number, or, in batch
  // mode, after the first command with an exit code.
  datatype Ending = Finished | Aborted | Exited(code: int)

  function ExitCode(r: Result): int {
    match r
    case Replied(error, _) => ErrorIndex(error)
    case _ => -1
  }

  // ---- the specification

  // The client's end of the connection.
  datatype Link = Link(incoming: seq<Byte>, outgoing: seq<Byte>, writesLeft: nat)

  /** Reading the reply to c: the value is read if the client's own table says there is one. */
  function ReadReply(tb: Tables, c: Command, incoming: seq<Byte>): (Result, seq<Byte>) {
    if |incoming| < 2 then (Failed, [])
    else
      var code, rest := GetHalf(incoming[..2]), incoming[2..];
      match ErrorFromIndex(code)
      case None => (Unrecognized(code), rest)
      case Some(error) =>
        if error != Success || ReturnFormat(tb, c).None? then (Replied(error, None), rest)
        else if |rest| < 4 then (Failed, [])
        else (Replied(Success, Some(GetWord(rest[..4]))), rest[4..])
  }

  function SendOn(tb: Tables, c: Command, link: Link): (Result, Link) {
    if link.writesLeft == 0 then (Failed, link)
    else if link.writesLeft == 1 then (Failed, Link(link.incoming, link.outgoing + PutWord(c.code), 0))
    else
      var (r, rest) := ReadReply(tb, c, link.incoming);
      (r, Link(rest, link.outgoing + Encode(c), link.writesLeft - 2))
  }

  // What one line of the script does: nothing, one exchange, or the end of the client.
  datatype Turn = Skip | Exchange(result: Result, link: Link) | Bad

  ghost function LineTurn(tb: Tables, stof: FloatReader, line: string, link: Link): Turn
    requires Indexed(tb)
  {
    match MakeCommand(tb, stof, Tokens(line))
    case NoCommand => Skip
    case Abort => Bad
    case Made(c) => var (r, link') := SendOn(tb, c, link); Exchange(r, link')
  }

  /** A script from its exchange number n on; good(i) says whether the socket is still good() after
      a failure in exchange i. */
  ghost function Converse(tb: Tables, stof: FloatReader, batch: bool, good: nat -> bool, n: nat, lines: seq<string>,
                          link: Link): (seq<Result>, Link, Ending)
    requires Indexed(tb)
    decreases |lines|
  {
    if lines == [] then ([], link, Finished)
    else
      match LineTurn(tb, stof, lines[0], link)
      case Skip => Converse(tb, stof, batch, good, n, lines[1..], link)
      case Bad => ([], link, Aborted)
      case Exchange(r, link1) =>
        if batch then ([r], link1, Exited(ExitCode(r)))
        else if r.Failed? && !good(n) then ([r], link1, Finished)
        else After([r], Converse(tb, stof, batch, good, n + 1, lines[1..], link1))
  }

  ghost function After(done: seq<Result>, r: (seq<Result>, Link, Ending)): (seq<Result>, Link, Ending) {
    (done + r.0, r.1, r.2)
  }

  // ---- the loops

  function View(server: Socket): Link
    reads server
  {
    Link(server.incoming, server.outgoing, server.writesLeft)
  }

  /** send_command, up to its exits in batch mode. */
  method SendCommand(tb: Tables, server: Socket, c: Command) returns (r: Result)
    modifies server
    ensures (r, View(server)) == SendOn(tb, c, old(View(server)))
  {
    var ok := WriteCommand(c, server);
    if !ok {
      assert old(server.outgoing) + [] == old(server.outgoing);
      return Failed;
    }
    var code := server.ReadHalf();
    if code.None? {
      return Failed;
    }
    var error := ErrorFromIndex(code.value);
    if error.None? {
      return Unrecognized(code.value);
    }
    if error.value == Success && ReturnFormat(tb, c).Some? {
      var value := server.ReadWord();
      return if value.None? then Failed else Replied(Success, value);
    }
    return Replied(error.value, None);
  }

  /** One line of run_commands; None if there is nothing to send. */
  method RunLine(tb: Tables, stof: FloatReader, line: string, server: Socket) returns (r: Option<Result>, bad: bool)
    requires Indexed(tb)
    modifies server
    ensures match LineTurn(tb, stof, line, old(View(server)))
            case Skip => r == None && !bad && View(server) == old(View(server))
            case Bad => r == None && bad && View(server) == old(View(server))
            case Exchange(result, link) => r == Some(result) && !bad && View(server) == link
  {
    var tokens := Tokenize(line);
    if tokens == [] {
      return None, false;
    }
    var made := BuildCommand(tb, stof, tokens);
    if !made.Made? {
      return None, made.Abort?;
    }
    var result := SendCommand(tb, server, made.command);
    return Some(result), false;
  }

  /** The conversation from line i on, after the results of the exchanges before it. */
  ghost function From(tb: Tables, stof: FloatReader, batch: bool, good: nat -> bool, lines: seq<string>, i: nat,
                      done: seq<Result>, link: Link): (seq<Result>, Link, Ending)
    requires Indexed(tb) && i <= |lines|
  {
    After(done, Converse(tb, stof, batch, good, |done|, lines[i..], link))
  }

  lemma FromStart(tb: Tables, stof: FloatReader, batch: bool, good: nat -> bool, lines: seq<string>, link: Link)
    requires Indexed(tb)
    ensures From(tb, stof, batch, good, lines, 0, [], link) == Converse(tb, stof, batch, good, 0, lines, link)
  {
    var r := Converse(tb, stof, batch, good, 0, lines, link);
    assert lines[0..] == lines && [] + r.0 == r.0;
  }

  lemma FromEnd(tb: Tables, stof: FloatReader, batch: bool, good: nat -> bool, lines: seq<string>, done: seq<Result>,
                link: Link)
    requires Indexed(tb)
    ensures From(tb, stof, batch, good, lines, |lines|, done, link) == (done, link, Finished)
  {
    assert done + [] == done;
  }

  /** One line more. */
  lemma FromStep(tb: Tables, stof: FloatReader, batch: bool, good: nat -> bool, lines: seq<string>, i: nat,
                 done: seq<Result>, link: Link)
    requires Indexed(tb) && i < |lines|
    ensures From(tb, stof, batch, good, lines, i, done, link) ==
      match LineTurn(tb, stof, lines[i], link)
      case Skip => From(tb, stof, batch, good, lines, i + 1, done, link)
      case Bad => (done, link, Aborted)
      case Exchange(r, link1) =>
        if batch then (done + [r], link1, Exited(ExitCode(r)))
        else if r.Failed? && !good(|done|) then (done + [r], link1, Finished)
        else From(tb, stof, batch, good, lines, i + 1, done + [r], link1)
  {
    assert lines[i..][0] == lines[i] && lines[i..][1..] == lines[i + 1..];
    assert done + [] == done;
    var turn := LineTurn(tb, stof, lines[i], link);
    if turn.Exchange? {
      var rest := Converse(tb, stof, batch, good, |done| + 1, lines[i + 1..], turn.link);
      assert done + ([turn.result] + rest.0) == done + [turn.result] + rest.0;
    }
  }

  /** run_commands: one line at a time. */
  method RunCommands(tb: Tables, stof: FloatReader, batch: bool, good: nat -> bool, lines: seq<string>, server: Socket)
    returns (results: seq<Result>, ending: Ending)
    requires Indexed(tb)
    modifies server
    ensures (results, View(server), ending) == Converse(tb, stof, batch, good, 0, lines, old(View(server)))
  {
    results := [];
    var open := true;
    var i := 0;
    FromStart(tb, stof, batch, good, lines, View(server));
    ghost var target := From(tb, stof, batch, good, lines, 0, [], View(server));
    while open && i < |lines|
      invariant i <= |lines|
      invariant target == if open then From(tb, stof, batch, good, lines, i, results, View(server))
                          else (results, View(server), Finished)
      decreases |lines| - i
    {
      FromStep(tb, stof, batch, good, lines, i, results, View(server));
      var r, bad := RunLine(tb, stof, lines[i], server);
      if bad {
        return results, Aborted;
      }
      if r.Some? {
        open := !r.value.Failed? || good(|results|);
        results := results + [r.value];
        if batch {
          return results, Exited(ExitCode(r.value));
        }
      }
      i := i + 1;
    }
    FromEnd(tb, stof, batch, good, lines, results, View(server));
    return results, Finished;
  }

  // ---- scripts as lists of commands

  /** The commands of a script, up to the line whose bad number ends the client. */
  ghost function Script(tb: Tables, stof: FloatReader, lines: seq<string>): seq<Command>
    requires Indexed(tb)
  {
    if lines == [] then []
    else
      match MakeCommand(tb, stof, Tokens(lines[0]))
      case NoCommand => Script(tb, stof, lines[1..])
      case Abort => []
      case Made(c) => [c] + Script(tb, stof, lines[1..])
  }

  /** Reading a reply that keeps the contract takes exactly the bytes the server wrote. */
  lemma ReadOfReply(tb: Tables, c: Command, d: ReturnData, rest: seq<Byte>)
    requires Contract(tb, c, d)
    ensures ReadReply(tb, c, ReplyBytes(d) + rest) == (Replied(d.error, d.value), rest)
  {
    var code, value := ReplyCode(d), if d.value.Some? then PutWord(d.value.value) else [];
    var incoming := ReplyBytes(d) + rest;
    HalfRoundTrip(ErrorIndex(d.error));
    assert incoming[..2] == code && incoming[2..] == value + rest;
    assert ErrorFromIndex(ErrorIndex(d.error)) == Some(d.error);
    if d.value.Some? {
      WordRoundTrip(d.value.value);
      assert (value + rest)[..4] == value && (value + rest)[4..] == rest;
    } else {
      assert value + rest == rest;
    }
  }

  // ---- how a script ends

  /** A failure after which the socket is bad is the last exchange. */
  lemma {:induction false} NothingAfterBad(tb: Tables, stof: FloatReader, good: nat -> bool, n: nat, lines: seq<string>,
                                           link: Link, k: nat)
    requires Indexed(tb) && k < |Converse(tb, stof, false, good, n, lines, link).0|
    ensures var results := Converse(tb, stof, false, good, n, lines, link).0;
      results[k].Failed? && !good(n + k) ==> k == |results| - 1
    decreases |lines|
  {
    if lines != [] {
      var turn := LineTurn(tb, stof, lines[0], link);
      if turn.Skip? {
        NothingAfterBad(tb, stof, good, n, lines[1..], link, k);
      } else if turn.Exchange? && !(turn.result.Failed? && !good(n)) && k > 0 {
        NothingAfterBad(tb, stof, good, n + 1, lines[1..], turn.link, k - 1);
      }
    }
  }

  /** While the socket stays good, the client reads every line, unless one holds a bad number: that
      ends it at once, and nothing else does. */
  lemma {:induction false} HowItEnds(tb: Tables, stof: FloatReader, good: nat -> bool, n: nat,
                                     lines: seq<string>, link: Link)
    requires Indexed(tb) && forall i :: good(i)
    ensures var (results, _, ending) := Converse(tb, stof, false, good, n, lines, link);
      && |results| == |Script(tb, stof, lines)|
      && (ending == Aborted <==> exists i :: 0 <= i < |lines| && MakeCommand(tb, stof, Tokens(lines[i])) == Abort)
      && (ending == Aborted || ending == Finished)
    decreases |lines|
  {
    if lines != [] {
      var turn := LineTurn(tb, stof, lines[0], link);
      if turn.Bad? {
        assert MakeCommand(tb, stof, Tokens(lines[0])) == Abort;
      } else {
        var n1, link1 := if turn.Skip? then n else n + 1, if turn.Skip? then link else turn.link;
        HowItEnds(tb, stof, good, n1, lines[1..], link1);
        AbortLater(tb, stof, lines);
      }
    }
  }

  lemma AbortLater(tb: Tables, stof: FloatReader, lines: seq<string>)
    requires Indexed(tb) && lines != [] && MakeCommand(tb, stof, Tokens(lines[0])) != Abort
    ensures (exists i :: 0 <= i < |lines| && MakeCommand(tb, stof, Tokens(lines[i])) == Abort) <==>
            (exists i :: 0 <= i < |lines[1..]| && MakeCommand(tb, stof, Tokens(lines[1..][i])) == Abort)
  {
    var rest := lines[1..];
    if i :| 0 <= i < |lines| && MakeCommand(tb, stof, Tokens(lines[i])) == Abort {
      assert rest[i - 1] == lines[i];
    }
    if i :| 0 <= i < |rest| && MakeCommand(tb, stof, Tokens(rest[i])) == Abort {
      assert lines[i + 1] == rest[i];
    }
  }

  /** A reply whose code is no error the client knows makes a batch client leave with -1. */
  lemma UnknownCodeExits(tb: Tables, stof: FloatReader, good: nat -> bool, line: string, link: Link, code: Half)
    requires Indexed(tb) && MakeCommand(tb, stof, Tokens(line)).Made? && link.writesLeft >= 2
    requires code >= 9 && PutHalf(code) <= link.incoming
    ensures Converse(tb, stof, true, good, 0, [line], link).2 == Exited(-1)
  {
    HalfRoundTrip(code);
    assert link.incoming[..2] == PutHalf(code);
  }
}
