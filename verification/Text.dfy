// common/StringUtil.cpp: splitting a line at white space.
module Text {
  // std::isspace in the "C" locale: space, \t, \n, \v, \f, \r.
  predicate IsSpace(c: char) {
    c == ' ' || 9 <= c as int <= 13
  }

  predicate Blank(s: string) {
    forall i :: 0 <= i < |s| ==> IsSpace(s[i])
  }

  predicate Solid(s: string) {
    forall i :: 0 <= i < |s| ==> !IsSpace(s[i])
  }

  /** Length of the white-space-free run at the start of s. */
  function RunLength(s: string): (n: nat)
    ensures n <= |s| && Solid(s[..n])
    ensures n < |s| ==> IsSpace(s[n])
  {
    if s == [] || IsSpace(s[0]) then 0
    else
      var n := 1 + RunLength(s[1..]);
      assert forall i :: 1 <= i < n ==> s[i] == s[1..][i - 1];
      n
  }

  /** The white-space-free runs of s, in order. */
  function Tokens(s: string): (ts: seq<string>)
    decreases |s|
  {
    if s == [] then []
    else if IsSpace(s[0]) then Tokens(s[1..])
    else var n := RunLength(s); [s[..n]] + Tokens(s[n..])
  }

  /** ts laid out with gaps[0] before the first token and gaps[i + 1] after token i. */
  function Render(ts: seq<string>, gaps: seq<string>): string
    requires |gaps| == |ts| + 1
  {
    if ts == [] then gaps[0] else gaps[0] + ts[0] + Render(ts[1..], gaps[1..])
  }

  /** Tokens are solid and not empty; gaps are white space, and not empty between two tokens. */
  ghost predicate Spaced(ts: seq<string>, gaps: seq<string>) {
    && |gaps| == |ts| + 1
    && (forall i :: 0 <= i < |ts| ==> Solid(ts[i]) && ts[i] != "")
    && (forall i :: 0 <= i < |gaps| ==> Blank(gaps[i]))
    && (forall i :: 1 <= i < |ts| ==> gaps[i] != "")
  }

  method Tokenize(line: string) returns (tokens: seq<string>)
    ensures tokens == Tokens(line)
  {
    tokens := [];
    var last := 0;
    for i := 0 to |line|
      invariant 0 <= last <= i && Solid(line[last..i])
      invariant tokens + Tokens(line[last..]) == Tokens(line)
    {
      if IsSpace(line[i]) {
        CloseRun(line, tokens, last, i);
        if last != i {
          tokens := tokens + [line[last..i]];
        }
        last := i + 1;
      } else {
        SolidMore(line, last, i);
      }
    }
    LastRun(line, tokens, last);
    if last < |line| {
      tokens := tokens + [line[last..]];
    }
  }

  lemma {:induction false} RunLengthIs(s: string, n: nat)
    requires n <= |s| && Solid(s[..n])
    requires n < |s| ==> IsSpace(s[n])
    ensures RunLength(s) == n
  {
    if n > 0 {
      assert s[0] == s[..n][0] && s[1..][..n - 1] == s[..n][1..];
      RunLengthIs(s[1..], n - 1);
    }
  }

  lemma SolidIsOneToken(s: string)
    requires Solid(s) && s != ""
    ensures Tokens(s) == [s]
  {
    RunLengthIs(s, |s|);
    assert s[..|s|] == s;
  }

  /** A run that a space closes is a token unless it is empty. */
  lemma TokensAtSpace(s: string, n: nat)
    requires n < |s| && Solid(s[..n]) && IsSpace(s[n])
    ensures n == 0 ==> Tokens(s) == Tokens(s[1..])
    ensures n > 0 ==> Tokens(s) == [s[..n]] + Tokens(s[n + 1..])
  {
    RunLengthIs(s, n);
    if n > 0 {
      assert s[0] == s[..n][0];
      assert s[n..][1..] == s[n + 1..];
    }
  }

  lemma SolidMore(line: string, last: nat, i: nat)
    requires last <= i < |line| && Solid(line[last..i]) && !IsSpace(line[i])
    ensures Solid(line[last..i + 1])
  {
    assert line[last..i + 1] == line[last..i] + [line[i]];
  }

  lemma CloseRun(line: string, tokens: seq<string>, last: nat, i: nat)
    requires last <= i < |line| && Solid(line[last..i]) && IsSpace(line[i])
    ensures tokens + Tokens(line[last..]) ==
            (if last == i then tokens else tokens + [line[last..i]]) + Tokens(line[i + 1..])
  {
    var s, n := line[last..], i - last;
    assert s[..n] == line[last..i] && s[n + 1..] == line[i + 1..];
    TokensAtSpace(s, n);
    Regroup(tokens, line[last..i], Tokens(line[i + 1..]));
  }

  lemma Regroup(tokens: seq<string>, t: string, rest: seq<string>)
    ensures tokens + ([t] + rest) == tokens + [t] + rest
  {
  }

  lemma LastRun(line: string, tokens: seq<string>, last: nat)
    requires last <= |line| && Solid(line[last..|line|])
    ensures tokens + Tokens(line[last..]) == if last < |line| then tokens + [line[last..]] else tokens
  {
    assert line[last..|line|] == line[last..];
    if last < |line| {
      SolidIsOneToken(line[last..]);
    } else {
      assert tokens + [] == tokens;
    }
  }

  lemma {:induction false} TokensSkipBlank(gap: string, s: string)
    requires Blank(gap)
    ensures Tokens(gap + s) == Tokens(s)
  {
    if gap == "" {
      assert gap + s == s;
    } else {
      assert (gap + s)[1..] == gap[1..] + s;
      TokensSkipBlank(gap[1..], s);
    }
  }

  /** Tokenizing distributes over concatenation at a space. */
  lemma {:induction false} TokensSplitAtSpace(a: string, c: char, b: string)
    requires IsSpace(c)
    ensures Tokens(a + [c] + b) == Tokens(a) + Tokens(b)
    decreases |a|
  {
    var s := a + [c] + b;
    if a == "" {
      assert s[1..] == b;
    } else if IsSpace(a[0]) {
      assert s[1..] == a[1..] + [c] + b;
      TokensSplitAtSpace(a[1..], c, b);
    } else {
      var n := RunLength(a);
      assert s[..n] == a[..n] && s[n..] == a[n..] + [c] + b;
      RunLengthIs(s, n);
      TokensSplitAtSpace(a[n..], c, b);
      assert [a[..n]] + (Tokens(a[n..]) + Tokens(b)) == [a[..n]] + Tokens(a[n..]) + Tokens(b);
    }
  }

  /** A character cuts a line in two exactly if it is one of the six of white space. */
  lemma CutsAt(a: string, c: char, b: string)
    requires Solid(a) && Solid(b) && a != "" && b != ""
    ensures Tokens(a + [c] + b) ==
            if c in {' ', '\t', '\n', '\U{0B}', '\U{0C}', '\r'} then [a, b] else [a + [c] + b]
  {
    if IsSpace(c) {
      TokensSplitAtSpace(a, c, b);
      SolidIsOneToken(a);
      SolidIsOneToken(b);
    } else {
      SolidIsOneToken(a + [c] + b);
    }
  }

  lemma ThreeTokens(a: string, b: string, c: string)
    requires Solid(a) && Solid(b) && Solid(c) && a != "" && b != "" && c != ""
    ensures Tokens(a + [' '] + (b + [' '] + c)) == [a, b, c]
  {
    TokensSplitAtSpace(a, ' ', b + [' '] + c);
    TokensSplitAtSpace(b, ' ', c);
    SolidIsOneToken(a);
    SolidIsOneToken(b);
    SolidIsOneToken(c);
  }

  /** Joining tokens with any white space and tokenizing gives them back. */
  lemma {:induction false} TokensOfRender(ts: seq<string>, gaps: seq<string>)
    requires Spaced(ts, gaps)
    ensures Tokens(Render(ts, gaps)) == ts
    decreases |ts|
  {
    if ts == [] {
      TokensSkipBlank(gaps[0], "");
      assert gaps[0] + "" == gaps[0];
    } else {
      var rest := Render(ts[1..], gaps[1..]);
      assert Render(ts, gaps) == gaps[0] + (ts[0] + rest);
      TokensSkipBlank(gaps[0], ts[0] + rest);
      TokensOfRender(ts[1..], gaps[1..]);
      var s := ts[0] + rest;
      assert s[..|ts[0]|] == ts[0] && s[|ts[0]|..] == rest;
      assert Solid(s[..|ts[0]|]);
      if rest != "" {
        assert rest[0] == gaps[1][0] by {
          if |ts| == 1 { assert rest == gaps[1]; }
        }
      }
      RunLengthIs(s, |ts[0]|);
      assert s[0] == ts[0][0];
    }
  }

  /** With no gap before it, the first token starts the line. */
  lemma RenderFirst(ts: seq<string>, gaps: seq<string>)
    requires Spaced(ts, gaps) && ts != [] && gaps[0] == ""
    ensures Render(ts, gaps) != "" && !IsSpace(Render(ts, gaps)[0])
  {
    assert Render(ts, gaps)[0] == ts[0][0];
  }

  /** A token put before a line that is empty or starts with a gap. */
  lemma SpacedCons(t: string, ts: seq<string>, gaps: seq<string>)
    requires Solid(t) && t != "" && Spaced(ts, gaps) && (ts == [] || gaps[0] != "")
    ensures Spaced([t] + ts, [""] + gaps) && Render([t] + ts, [""] + gaps) == t + Render(ts, gaps)
  {
    var ts', gaps' := [t] + ts, [""] + gaps;
    assert ts'[1..] == ts && gaps'[1..] == gaps;
    assert forall i :: 1 <= i < |ts'| ==> gaps'[i] == gaps[i - 1];
    assert Spaced(ts', gaps');
    assert Render(ts', gaps') == "" + t + Render(ts, gaps);
  }

  /** White space put before a line. */
  lemma BlankBefore(c: char, ts: seq<string>, g: seq<string>) returns (gaps: seq<string>)
    requires IsSpace(c) && Spaced(ts, g)
    ensures Spaced(ts, gaps) && Render(ts, gaps) == [c] + Render(ts, g)
  {
    gaps := [[c] + g[0]] + g[1..];
    assert gaps[1..] == g[1..];
    if ts != [] {
      assert [c] + g[0] + ts[0] + Render(ts[1..], g[1..]) == [c] + (g[0] + ts[0] + Render(ts[1..], g[1..]));
    }
  }

  /** Every line is its tokens, laid out with white space. */
  lemma {:induction false} LineIsRender(s: string) returns (gaps: seq<string>)
    ensures Spaced(Tokens(s), gaps)
    ensures s == Render(Tokens(s), gaps)
    decreases |s|
  {
    if s == [] {
      gaps := [""];
    } else if IsSpace(s[0]) {
      var g := LineIsRender(s[1..]);
      gaps := BlankBefore(s[0], Tokens(s[1..]), g);
      assert s == [s[0]] + s[1..];
    } else {
      var n := RunLength(s);
      var g := LineIsRender(s[n..]);
      var ts := Tokens(s[n..]);
      if ts != [] && g[0] == "" {
        RenderFirst(ts, g);
        assert false;
      }
      SpacedCons(s[..n], ts, g);
      gaps := [""] + g;
      assert s == s[..n] + s[n..];
    }
  }

  /** The tokens of a line are the only list of non-empty, white-space-free strings that makes
      up the line once white space is put around and between them. */
  lemma TokensCharacterized(s: string, ts: seq<string>)
    ensures Tokens(s) == ts <==> exists gaps :: Spaced(ts, gaps) && Render(ts, gaps) == s
  {
    if Tokens(s) == ts {
      var gaps := LineIsRender(s);
    }
    forall gaps | Spaced(ts, gaps) && Render(ts, gaps) == s
      ensures Tokens(s) == ts
    {
      TokensOfRender(ts, gaps);
    }
  }
}
