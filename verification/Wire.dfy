// The byte streams between client and server, and the socket class both ends use.
//
// CppUtils' Socket is not part of this model.  Its assumed behaviour: each direction is a
// reliable FIFO of bytes, a read that finds too few bytes throws after draining what is there, a
// read of no bytes succeeds, and integers travel in a fixed byte order (most significant byte
// first here; nothing depends on the choice).
module Wire {
  import opened Wrappers

  type Byte = n: int | 0 <= n < 0x100
  type Half = n: int | 0 <= n < 0x1_0000
  type Word = n: int | 0 <= n < 0x1_0000_0000

  function PutHalf(h: Half): (bs: seq<Byte>)
    ensures |bs| == 2
  {
    [h / 0x100, h % 0x100]
  }

  function GetHalf(bs: seq<Byte>): Half
    requires |bs| == 2
  {
    bs[0] as int * 0x100 + bs[1]
  }

  function PutWord(w: Word): (bs: seq<Byte>)
    ensures |bs| == 4
  {
    [w / 0x100 / 0x100 / 0x100, w / 0x100 / 0x100 % 0x100, w / 0x100 % 0x100, w % 0x100]
  }

  function GetWord(bs: seq<Byte>): Word
    requires |bs| == 4
  {
    ((bs[0] as int * 0x100 + bs[1]) * 0x100 + bs[2]) * 0x100 + bs[3]
  }

  function PutWords(ws: seq<Word>): (bs: seq<Byte>)
    ensures |bs| == 4 * |ws|
  {
    if ws == [] then [] else PutWord(ws[0]) + PutWords(ws[1..])
  }

  function GetWords(bs: seq<Byte>): (ws: seq<Word>)
    requires |bs| % 4 == 0
    ensures 4 * |ws| == |bs|
  {
    if bs == [] then [] else [GetWord(bs[..4])] + GetWords(bs[4..])
  }

  lemma Nibbles(high: nat, low: nat)
    requires high < 0x10 && low < 0x10
    ensures (high * 0x10 + low) / 0x10 == high && (high * 0x10 + low) % 0x10 == low
  {
  }

  lemma HalfRoundTrip(h: Half)
    ensures GetHalf(PutHalf(h)) == h
  {
  }

  lemma WordRoundTrip(w: Word)
    ensures GetWord(PutWord(w)) == w
  {
  }

  lemma WordBytes(bs: seq<Byte>)
    requires |bs| == 4
    ensures PutWord(GetWord(bs)) == bs
  {
    var high := bs[0] as int * 0x100 + bs[1];
    var middle := high * 0x100 + bs[2];
    assert GetWord(bs) == middle * 0x100 + bs[3];
    assert GetWord(bs) / 0x100 == middle && middle / 0x100 == high && high / 0x100 == bs[0];
  }

  /** Word vectors and byte strings of whole words are in bijection. */
  lemma {:induction false} WordsRoundTrip(ws: seq<Word>)
    ensures GetWords(PutWords(ws)) == ws
  {
    if ws != [] {
      var bs := PutWords(ws);
      assert bs[..4] == PutWord(ws[0]) && bs[4..] == PutWords(ws[1..]);
      WordRoundTrip(ws[0]);
      WordsRoundTrip(ws[1..]);
    }
  }

  lemma {:induction false} BytesRoundTrip(bs: seq<Byte>)
    requires |bs| % 4 == 0
    ensures PutWords(GetWords(bs)) == bs
  {
    if bs != [] {
      WordBytes(bs[..4]);
      BytesRoundTrip(bs[4..]);
      assert bs == bs[..4] + bs[4..];
    }
  }

  /** One end of a connection.  `incoming` is everything the peer still delivers before it
      closes; `writesLeft` counts the writes that succeed before the connection breaks. */
  class Socket {
    var incoming: seq<Byte>
    var outgoing: seq<Byte>
    var writesLeft: nat

    constructor (incoming: seq<Byte>, writesLeft: nat)
      ensures this.incoming == incoming && this.outgoing == [] && this.writesLeft == writesLeft
    {
      this.incoming, this.outgoing, this.writesLeft := incoming, [], writesLeft;
    }

    /** Takes exactly n bytes, or drains the stream and throws (None). */
    method ReadBytes(n: nat) returns (r: Option<seq<Byte>>)
      modifies this`incoming
      ensures |old(incoming)| < n ==> r == None && incoming == []
      ensures n <= |old(incoming)| ==> r == Some(old(incoming)[..n]) && incoming == old(incoming)[n..]
    {
      if |incoming| < n {
        r, incoming := None, [];
      } else {
        r, incoming := Some(incoming[..n]), incoming[n..];
      }
    }

    method ReadHalf() returns (r: Option<Half>)
      modifies this`incoming
      ensures |old(incoming)| < 2 ==> r == None && incoming == []
      ensures 2 <= |old(incoming)| ==> r == Some(GetHalf(old(incoming)[..2])) && incoming == old(incoming)[2..]
    {
      var bs := ReadBytes(2);
      r := if bs.None? then None else Some(GetHalf(bs.value));
    }

    method ReadWord() returns (r: Option<Word>)
      modifies this`incoming
      ensures |old(incoming)| < 4 ==> r == None && incoming == []
      ensures 4 <= |old(incoming)| ==> r == Some(GetWord(old(incoming)[..4])) && incoming == old(incoming)[4..]
    {
      var bs := ReadBytes(4);
      r := if bs.None? then None else Some(GetWord(bs.value));
    }

    /** The source's read_buffer on a vector of n words. */
    method ReadWords(n: nat) returns (r: Option<seq<Word>>)
      modifies this`incoming
      ensures |old(incoming)| < 4 * n ==> r == None && incoming == []
      ensures 4 * n <= |old(incoming)| ==>
        r == Some(GetWords(old(incoming)[..4 * n])) && incoming == old(incoming)[4 * n..]
    {
      var bs := ReadBytes(4 * n);
      r := if bs.None? then None else Some(GetWords(bs.value));
    }

    /** Sends bs, or throws (ok is false) leaving the output as it was. */
    method Write(bs: seq<Byte>) returns (ok: bool)
      modifies this`outgoing, this`writesLeft
      ensures ok == (old(writesLeft) > 0)
      ensures ok ==> outgoing == old(outgoing) + bs && writesLeft == old(writesLeft) - 1
      ensures !ok ==> outgoing == old(outgoing) && writesLeft == 0
    {
      ok := writesLeft > 0;
      if ok {
        outgoing, writesLeft := outgoing + bs, writesLeft - 1;
      }
    }
  }
}
