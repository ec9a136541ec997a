// Commands executed one after the other, without any connection: the reference for what a server
// that received them should have done and answered.
module Histories {
  import opened Tables
  import opened Codec
  import opened Execution
  import opened Server
  import opened ServerSafety

  /** What executing the commands in order comes to, the first meeting hardware behaviour k: it
      ends early after Quit, or when the server dies. */
  function Outcomes(exec: Executor, hw: nat -> Hardware, k: nat, s: State, cs: seq<Command>): (os: seq<Outcome>)
    ensures |os| <= |cs|
    decreases |cs|
  {
    if cs == [] || s.quit then []
    else
      var (s1, r) := exec(s, cs[0], hw(k));
      [r] + if r.Dies? then [] else Outcomes(exec, hw, k + 1, s1, cs[1..])
  }

  function StateAfter(exec: Executor, hw: nat -> Hardware, k: nat, s: State, cs: seq<Command>): State
    decreases |cs|
  {
    if cs == [] || s.quit then s
    else
      var (s1, r) := exec(s, cs[0], hw(k));
      if r.Dies? then s1 else StateAfter(exec, hw, k + 1, s1, cs[1..])
  }

  /** The data of the outcomes, as far as they are replies. */
  function Said(os: seq<Outcome>): seq<ReturnData> {
    if os == [] || !os[0].Replies? then [] else [os[0].data] + Said(os[1..])
  }

  function Logged(cs: seq<Command>, os: seq<Outcome>): seq<Entry> {
    if cs == [] || os == [] then [] else [Ran(cs[0], os[0])] + Logged(cs[1..], os[1..])
  }

  predicate Dead(os: seq<Outcome>) {
    os != [] && os[|os| - 1].Dies?
  }

  /** All of the commands were executed, and the server goes on. */
  predicate Alive(exec: Executor, hw: nat -> Hardware, k: nat, s: State, cs: seq<Command>) {
    var os := Outcomes(exec, hw, k, s, cs);
    |os| == |cs| && !Dead(os) && !StateAfter(exec, hw, k, s, cs).quit
  }

  /** The first command, and the others after it. */
  lemma FirstOfMany(exec: Executor, hw: nat -> Hardware, k: nat, s: State, cs: seq<Command>)
    requires cs != [] && !s.quit && !exec(s, cs[0], hw(k)).1.Raises?
    ensures var (s1, r) := exec(s, cs[0], hw(k));
      var os, rest := Outcomes(exec, hw, k, s, cs), Outcomes(exec, hw, k + 1, s1, cs[1..]);
      && Logged(cs, os) == [Ran(cs[0], r)] + (if r.Dies? then [] else Logged(cs[1..], rest))
      && (if r.Dies? then Said(os) == [] else Said(os) == [r.data] + Said(rest) && Said(os)[1..] == Said(rest))
      && (Dead(os) <==> r.Dies? || Dead(rest))
  {
    var (s1, r) := exec(s, cs[0], hw(k));
    var rest := if r.Dies? then [] else Outcomes(exec, hw, k + 1, s1, cs[1..]);
    assert ([r] + rest)[1..] == rest;
  }

  /** Outcome i is that of command i, in the state the commands before it left. */
  lemma {:induction false} OutcomeAt(exec: Executor, hw: nat -> Hardware, k: nat, s: State, cs: seq<Command>, i: nat)
    requires i < |Outcomes(exec, hw, k, s, cs)|
    ensures i < |cs|
    ensures Outcomes(exec, hw, k, s, cs)[i] == exec(StateAfter(exec, hw, k, s, cs[..i]), cs[i], hw(k + i)).1
    decreases i
  {
    if i > 0 {
      assert cs[..i][1..] == cs[1..][..i - 1];
      OutcomeAt(exec, hw, k + 1, exec(s, cs[0], hw(k)).0, cs[1..], i - 1);
    }
  }

  lemma {:induction false} SaidAt(os: seq<Outcome>, i: nat)
    requires i < |Said(os)|
    ensures i < |os| && os[i] == Replies(Said(os)[i])
  {
    if i > 0 {
      SaidAt(os[1..], i - 1);
    }
  }

  lemma AliveRest(exec: Executor, hw: nat -> Hardware, k: nat, s: State, cs: seq<Command>)
    requires Alive(exec, hw, k, s, cs) && cs != []
    ensures var (s1, r1) := exec(s, cs[0], hw(k));
      !s.quit && !r1.Dies? && Alive(exec, hw, k + 1, s1, cs[1..])
  {
    var (s1, r1) := exec(s, cs[0], hw(k));
    var rest := Outcomes(exec, hw, k + 1, s1, cs[1..]);
    assert Dead(rest) ==> Dead([r1] + rest);
  }

  /** Executing c after cs adds its outcome, in the state cs left. */
  predicate Extends(exec: Executor, hw: nat -> Hardware, k: nat, s: State, cs: seq<Command>, c: Command) {
    var (s', r) := exec(StateAfter(exec, hw, k, s, cs), c, hw(k + |cs|));
    && Outcomes(exec, hw, k, s, cs + [c]) == Outcomes(exec, hw, k, s, cs) + [r]
    && StateAfter(exec, hw, k, s, cs + [c]) == s'
  }

  lemma {:induction false} OneMore(exec: Executor, hw: nat -> Hardware, k: nat, s: State, cs: seq<Command>, c: Command)
    requires Alive(exec, hw, k, s, cs)
    ensures Extends(exec, hw, k, s, cs, c)
    decreases |cs|
  {
    if cs == [] {
      assert [] + [c] == [c] && [c][1..] == [];
    } else {
      AliveRest(exec, hw, k, s, cs);
      OneMore(exec, hw, k + 1, exec(s, cs[0], hw(k)).0, cs[1..], c);
      ExtendsFrom(exec, hw, k, s, cs[0], cs[1..], c);
      assert cs == [cs[0]] + cs[1..];
    }
  }

  lemma ExtendsFrom(exec: Executor, hw: nat -> Hardware, k: nat, s: State, c0: Command, cs: seq<Command>, c: Command)
    requires !s.quit && !exec(s, c0, hw(k)).1.Dies?
    requires Extends(exec, hw, k + 1, exec(s, c0, hw(k)).0, cs, c)
    ensures Extends(exec, hw, k, s, [c0] + cs, c)
  {
    StartingWith(exec, hw, k, s, c0, cs);
    StartingWith(exec, hw, k, s, c0, cs + [c]);
    assert [c0] + cs + [c] == [c0] + (cs + [c]);
  }

  lemma StartingWith(exec: Executor, hw: nat -> Hardware, k: nat, s: State, c: Command, cs: seq<Command>)
    requires !s.quit && !exec(s, c, hw(k)).1.Dies?
    ensures var (s1, r1) := exec(s, c, hw(k));
      && Outcomes(exec, hw, k, s, [c] + cs) == [r1] + Outcomes(exec, hw, k + 1, s1, cs)
      && StateAfter(exec, hw, k, s, [c] + cs) == StateAfter(exec, hw, k + 1, s1, cs)
  {
    assert ([c] + cs)[1..] == cs;
  }

  lemma {:induction false} SaidMore(os: seq<Outcome>, r: Outcome)
    requires |Said(os)| == |os|
    ensures Said(os + [r]) == Said(os) + if r.Replies? then [r.data] else []
  {
    if os != [] {
      assert (os + [r])[1..] == os[1..] + [r];
      SaidMore(os[1..], r);
    }
  }

  lemma {:induction false} LoggedMore(cs: seq<Command>, os: seq<Outcome>, c: Command, r: Outcome)
    requires |os| == |cs|
    ensures Logged(cs + [c], os + [r]) == Logged(cs, os) + [Ran(c, r)]
  {
    if os != [] {
      assert (cs + [c])[1..] == cs[1..] + [c] && (os + [r])[1..] == os[1..] + [r];
      LoggedMore(cs[1..], os[1..], c, r);
    }
  }

  /** If execution ended within the first i commands, the others make no difference. */
  lemma {:induction false} Ended(exec: Executor, hw: nat -> Hardware, k: nat, s: State, cs: seq<Command>, i: nat)
    requires i <= |cs| && |Outcomes(exec, hw, k, s, cs[..i])| == i && !Alive(exec, hw, k, s, cs[..i])
    ensures Outcomes(exec, hw, k, s, cs) == Outcomes(exec, hw, k, s, cs[..i])
    ensures StateAfter(exec, hw, k, s, cs) == StateAfter(exec, hw, k, s, cs[..i])
    decreases i
  {
    if i > 0 {
      var (s1, r1) := exec(s, cs[0], hw(k));
      assert cs[..i][1..] == cs[1..][..i - 1];
      var rest := Outcomes(exec, hw, k + 1, s1, cs[..i][1..]);
      if !r1.Dies? {
        assert Dead([r1] + rest) ==> Dead(rest);
        Ended(exec, hw, k + 1, s1, cs[1..], i - 1);
      }
    }
  }

  /** A lawful executor's outcomes: each is a reply that keeps the contract, but for a last one
      that ends the server; and unless that happens, they reach up to the first Quit. */
  lemma {:induction false} OutcomesLawful(tb: Tables, exec: Executor, hw: nat -> Hardware, k: nat, s: State,
                                          cs: seq<Command>)
    requires Lawful(tb, exec) && !s.quit && forall i :: 0 <= i < |cs| ==> WellFormed(tb, cs[i])
    ensures var os := Outcomes(exec, hw, k, s, cs);
      && |Said(os)| == (if Dead(os) then |os| - 1 else |os|)
      && |os| <= |UpToQuit(cs)| <= |cs|
      && (!Dead(os) ==> |os| == |UpToQuit(cs)|)
      && Contracts(tb, cs, Said(os))
    decreases |cs|
  {
    if cs != [] {
      assert Obeys(tb, exec, s, cs[0], hw(k));
      FirstOfMany(exec, hw, k, s, cs);
      var (s1, r1) := exec(s, cs[0], hw(k));
      if !r1.Dies? && !s1.quit {
        OutcomesLawful(tb, exec, hw, k + 1, s1, cs[1..]);
      }
    }
  }

  /** Every reply keeps the contract of the command it answers. */
  ghost predicate Contracts(tb: Tables, cs: seq<Command>, ds: seq<ReturnData>) {
    ds == [] || (cs != [] && Contract(tb, cs[0], ds[0]) && Contracts(tb, cs[1..], ds[1..]))
  }

  /** Only the commands with an outcome are logged. */
  lemma {:induction false} LoggedPrefix(cs: seq<Command>, os: seq<Outcome>, i: nat)
    requires |os| <= i <= |cs|
    ensures Logged(cs[..i], os) == Logged(cs, os)
  {
    if os != [] {
      assert cs[..i][1..] == cs[1..][..i - 1];
      LoggedPrefix(cs[1..], os[1..], i - 1);
    }
  }
}
