// common/DataFormat.h and DataFormat.cpp: the four parameter formats, read from text into a raw
// 32-bit word and printed from one.  std::stof is an opaque function from text to a word.
module Numbers {
  import opened Wrappers
  import opened Wire
  import opened Text

  datatype Format = Bool | Int | Uint | Float

  type FloatReader = string -> Option<Word>

  const LONG_LIMIT: int := 0x8000_0000_0000_0000
  const ULONG_LIMIT: int := 0x1_0000_0000_0000_0000

  // ---- strtol with base 0 (section 7.22.1.4 of ISO/IEC 9899:2011)

  function DigitValue(c: char): nat {
    if '0' <= c <= '9' then c as nat - '0' as nat
    else if 'a' <= c <= 'z' then c as nat - 'a' as nat + 10
    else if 'A' <= c <= 'Z' then c as nat - 'A' as nat + 10
    else 36
  }

  /** Value of the digits at the start of s, continuing from acc. */
  function Accumulate(s: string, base: nat, acc: nat): nat {
    if s == [] || DigitValue(s[0]) >= base then acc
    else Accumulate(s[1..], base, acc * base + DigitValue(s[0]))
  }

  /** The digits after any sign; None when there is no digit to convert. */
  function Magnitude(s: string): Option<nat> {
    if |s| > 2 && s[0] == '0' && s[1] in "xX" && DigitValue(s[2]) < 16 then Some(Accumulate(s[2..], 16, 0))
    else if |s| > 0 && s[0] == '0' then Some(Accumulate(s, 8, 0))
    else if |s| > 0 && DigitValue(s[0]) < 10 then Some(Accumulate(s, 10, 0))
    else None
  }

  function SkipBlank(s: string): string {
    if s != [] && IsSpace(s[0]) then SkipBlank(s[1..]) else s
  }

  datatype Signed = Signed(negative: bool, magnitude: nat)

  function Strtol(text: string): Option<Signed> {
    var s := SkipBlank(text);
    var signed := s != [] && s[0] in "+-";
    match Magnitude(if signed then s[1..] else s)
    case None => None
    case Some(m) => Some(Signed(signed && s[0] == '-', m))
  }

  // ---- the std:: wrappers; None is a thrown invalid_argument or out_of_range

  /** std::stol for 64-bit long. */
  function Stol(s: string): Option<int> {
    match Strtol(s)
    case None => None
    case Some(Signed(negative, m)) =>
      var v: int := if negative then -(m as int) else m;
      if -LONG_LIMIT <= v < LONG_LIMIT then Some(v) else None
  }

  function Stoi(s: string): Option<int> {
    match Stol(s)
    case None => None
    case Some(v) => if -0x8000_0000 <= v < 0x8000_0000 then Some(v) else None
  }

  /** std::stoul for 64-bit long: a minus sign negates modulo 2^64. */
  function Stoul(s: string): Option<nat> {
    match Strtol(s)
    case None => None
    case Some(Signed(negative, m)) =>
      if m >= ULONG_LIMIT then None
      else if negative && m > 0 then Some(ULONG_LIMIT - m)
      else Some(m)
  }

  /** Formatted extraction with boolalpha: only the letters "true" give true. */
  function ReadBool(s: string): bool {
    "true" <= SkipBlank(s)
  }

  function ReadToRaw(stof: FloatReader, f: Format, s: string): Option<Word> {
    match f
    case Bool => Some(if ReadBool(s) then 1 else 0)
    case Int => (match Stoi(s) case None => None case Some(v) => Some(FromInt32(v)))
    case Uint => (match Stoul(s) case None => None case Some(v) => Some(v % 0x1_0000_0000))
    case Float => stof(s)
  }

  // ---- two's complement, and printing

  function FromInt32(v: int): Word
    requires -0x8000_0000 <= v < 0x8000_0000
  {
    if v < 0 then v + 0x1_0000_0000 else v
  }

  function ToInt32(w: Word): (v: int)
    ensures -0x8000_0000 <= v < 0x8000_0000
  {
    if w < 0x8000_0000 then w else w - 0x1_0000_0000
  }

  function Digit(d: nat): char
    requires d < 16
  {
    (if d < 10 then '0' as int + d else 'a' as int + d - 10) as char
  }

  // The bases of C's integer constants.
  type Base = b: nat | b == 8 || b == 10 || b == 16 witness 10

  function Quotient(n: nat, base: Base): nat {
    if base == 8 then n / 8 else if base == 10 then n / 10 else n / 16
  }

  function Remainder(n: nat, base: Base): (r: nat)
    ensures r < base
  {
    if base == 8 then n % 8 else if base == 10 then n % 10 else n % 16
  }

  /** The digits of n in a base, most significant first. */
  function Digits(n: nat, base: Base): (s: string)
    ensures s != []
    decreases n
  {
    if n < base then [Digit(n)] else Digits(Quotient(n, base), base) + [Digit(Remainder(n, base))]
  }

  function Decimal(n: nat): string { Digits(n, 10) }

  /** dump_dataformat; floats are printed by code outside this model. */
  function Show(f: Format, raw: Word): string
    requires f != Float
  {
    match f
    case Bool => if raw != 0 then "1" else "0"
    case Int => if ToInt32(raw) < 0 then "-" + Decimal(-ToInt32(raw)) else Decimal(ToInt32(raw))
    case Uint => Decimal(raw)
  }

  // ---- the number round trip

  lemma QuotientRemainder(n: nat, base: Base)
    ensures Quotient(n, base) * base + Remainder(n, base) == n
    ensures n < base ==> Quotient(n, base) == 0 && Remainder(n, base) == n
    ensures n >= base ==> 0 < Quotient(n, base) < n
  {
  }

  /** One more digit. */
  lemma AccumulateOne(d: nat, base: Base, acc: nat, t: string)
    requires d < base
    ensures Accumulate([Digit(d)] + t, base, acc) == Accumulate(t, base, acc * base + d)
  {
    assert ([Digit(d)] + t)[1..] == t && DigitValue(Digit(d)) == d;
  }

  /** Reading digits gives the number back, and goes on with what follows. */
  lemma {:induction false} AccumulateDigits(n: nat, base: Base, t: string)
    ensures Accumulate(Digits(n, base) + t, base, 0) == Accumulate(t, base, n)
    decreases n
  {
    QuotientRemainder(n, base);
    var q, r := Quotient(n, base), Remainder(n, base);
    if n < base {
      AccumulateOne(n, base, 0, t);
    } else {
      assert Digits(n, base) + t == Digits(q, base) + ([Digit(r)] + t);
      AccumulateDigits(q, base, [Digit(r)] + t);
      AccumulateOne(r, base, q, t);
    }
  }

  lemma {:induction false} LeadingDigit(n: nat, base: Base)
    ensures var c := Digits(n, base)[0]; DigitValue(c) < base && !IsSpace(c) && c !in "+-"
    ensures n > 0 ==> Digits(n, base)[0] != '0'
    decreases n
  {
    if n >= base {
      QuotientRemainder(n, base);
      LeadingDigit(Quotient(n, base), base);
    }
  }

  /** A text that is not a digit, or nothing. */
  predicate Ends(t: string, base: nat) {
    t == "" || DigitValue(t[0]) >= base
  }

  lemma AccumulateEnds(n: nat, base: Base, t: string)
    requires Ends(t, base)
    ensures Accumulate(Digits(n, base) + t, base, 0) == n
  {
    AccumulateDigits(n, base, t);
  }

  /** Base 0: no prefix means decimal, 0x hexadecimal and 0 octal; text after the digits, such as
      the fraction of "3.7", is ignored. */
  lemma PrefixSelectsBase(n: nat, t: string)
    ensures n > 0 && Ends(t, 10) ==> Magnitude(Decimal(n) + t) == Some(n)
    ensures Ends(t, 16) ==> Magnitude("0x" + Digits(n, 16) + t) == Some(n)
    ensures Ends(t, 8) ==> Magnitude("0" + Digits(n, 8) + t) == Some(n)
  {
    if n > 0 && Ends(t, 10) {
      DecimalMagnitude(n, t);
    }
    if Ends(t, 16) {
      HexMagnitude(n, t);
    }
    if Ends(t, 8) {
      OctalMagnitude(n, t);
    }
  }

  lemma DecimalMagnitude(n: nat, t: string)
    requires n > 0 && Ends(t, 10)
    ensures Magnitude(Decimal(n) + t) == Some(n)
  {
    AccumulateEnds(n, 10, t);
    LeadingDigit(n, 10);
    assert (Decimal(n) + t)[0] == Digits(n, 10)[0];
  }

  lemma HexMagnitude(n: nat, t: string)
    requires Ends(t, 16)
    ensures Magnitude("0x" + Digits(n, 16) + t) == Some(n)
  {
    AccumulateEnds(n, 16, t);
    LeadingDigit(n, 16);
    var s := "0x" + Digits(n, 16) + t;
    assert s[2..] == Digits(n, 16) + t && s[2] == Digits(n, 16)[0];
  }

  lemma OctalMagnitude(n: nat, t: string)
    requires Ends(t, 8)
    ensures Magnitude("0" + Digits(n, 8) + t) == Some(n)
  {
    AccumulateEnds(n, 8, t);
    LeadingDigit(n, 8);
    var s := "0" + Digits(n, 8) + t;
    assert s[1..] == Digits(n, 8) + t && s[1] == Digits(n, 8)[0];
    assert Accumulate(s, 8, 0) == Accumulate(s[1..], 8, 0);
  }

  lemma MagnitudeOfDecimal(n: nat)
    ensures Magnitude(Decimal(n)) == Some(n)
  {
    if n > 0 {
      DecimalMagnitude(n, "");
      assert Decimal(n) + "" == Decimal(n);
    } else {
      assert Decimal(0) == "0" && "0"[1..] == "";
    }
  }

  lemma StrtolOfDecimal(n: nat)
    ensures Strtol(Decimal(n)) == Some(Signed(false, n))
    ensures Strtol("-" + Decimal(n)) == Some(Signed(true, n))
  {
    LeadingDigit(n, 10);
    MagnitudeOfDecimal(n);
    assert ("-" + Decimal(n))[1..] == Decimal(n);
  }

  lemma StoulOfDecimal(n: Word)
    ensures Stoul(Decimal(n)) == Some(n)
  {
    StrtolOfDecimal(n);
  }

  lemma StoiOfDecimal(v: int)
    requires -0x8000_0000 <= v < 0x8000_0000
    ensures Stoi(if v < 0 then "-" + Decimal(-v) else Decimal(v)) == Some(v)
  {
    StrtolOfDecimal(if v < 0 then -v else v);
  }

  lemma UintFromStoul(stof: FloatReader, s: string, n: Word)
    requires Stoul(s) == Some(n)
    ensures ReadToRaw(stof, Uint, s) == Some(n)
  {
  }

  lemma IntFromStoi(stof: FloatReader, s: string, v: int)
    requires -0x8000_0000 <= v < 0x8000_0000 && Stoi(s) == Some(v)
    ensures ReadToRaw(stof, Int, s) == Some(FromInt32(v))
  {
  }

  /** Printing an Int or Uint and reading the text gives the same raw word. */
  lemma ReadOfShow(stof: FloatReader, f: Format, raw: Word)
    requires f.Int? || f.Uint?
    ensures ReadToRaw(stof, f, Show(f, raw)) == Some(raw)
  {
    if f == Uint {
      StoulOfDecimal(raw);
      UintFromStoul(stof, Show(f, raw), raw);
    } else {
      StoiOfDecimal(ToInt32(raw));
      IntFromStoi(stof, Show(f, raw), ToInt32(raw));
    }
  }

  lemma ModuloTwice(v: int)
    ensures (v + ULONG_LIMIT) % 0x1_0000_0000 == v % 0x1_0000_0000
    ensures v % 0x1_0000_0000 == v <==> 0 <= v < 0x1_0000_0000
  {
    var q, r := v / 0x1_0000_0000, v % 0x1_0000_0000;
    assert v + ULONG_LIMIT == (q + 0x1_0000_0000) * 0x1_0000_0000 + r;
  }

  /** Every number of 64 bits, with or without a minus sign, is accepted for a Uint, and read
      modulo 2^32: as itself exactly if it fits 32 bits. */
  lemma UintKept(stof: FloatReader, v: int)
    requires -ULONG_LIMIT < v < ULONG_LIMIT
    ensures ReadToRaw(stof, Uint, Written(v)) == Some(v % 0x1_0000_0000)
    ensures v % 0x1_0000_0000 == v <==> 0 <= v < 0x1_0000_0000
  {
    StrtolOfDecimal(if v < 0 then -v else v);
    ModuloTwice(v);
    if v < 0 {
      assert Stoul("-" + Decimal(-v)) == Some(v + ULONG_LIMIT);
    } else {
      assert Stoul(Decimal(v)) == Some(v);
    }
  }

  /** So 4294967297 is read as 1. */
  lemma UintWraps(stof: FloatReader)
    ensures ReadToRaw(stof, Uint, Decimal(0x1_0000_0001)) == Some(1)
  {
    UintKept(stof, 0x1_0000_0001);
  }

  /** A Bool prints as a digit but is read as a word, so only false survives the trip. */
  lemma BoolReadOfShow(stof: FloatReader, raw: Word)
    ensures ReadToRaw(stof, Bool, Show(Bool, raw)) == Some(raw) <==> raw == 0
    ensures ReadToRaw(stof, Uint, Show(Bool, raw)) == Some(if raw != 0 then 1 else 0)
  {
    assert SkipBlank("1") == "1" && SkipBlank("0") == "0";
    assert Decimal(1) == "1" && Decimal(0) == "0";
    ReadOfShow(stof, Uint, if raw != 0 then 1 else 0);
  }

  // ---- texts in full: blanks, signs, limits, letters

  lemma {:induction false} SkipBlankOf(gap: string, t: string)
    requires Blank(gap)
    ensures SkipBlank(gap + t) == SkipBlank(t)
  {
    if gap == "" {
      assert gap + t == t;
    } else {
      assert (gap + t)[1..] == gap[1..] + t;
      SkipBlankOf(gap[1..], t);
    }
  }

  lemma {:induction false} BlankPart(s: string) returns (gap: string)
    ensures Blank(gap) && s == gap + SkipBlank(s)
  {
    gap := "";
    if s != "" && IsSpace(s[0]) {
      var rest := BlankPart(s[1..]);
      gap := [s[0]] + rest;
      assert s == [s[0]] + s[1..];
    }
  }

  /** The letters true after white space, before anything. */
  predicate SaysTrue(s: string, gap: string, t: string) {
    Blank(gap) && s == gap + "true" + t
  }

  /** A Bool is 1 exactly in a text that begins, after white space, with the letters true, and 0 in
      every other. */
  lemma BoolRead(stof: FloatReader, s: string)
    ensures ReadToRaw(stof, Bool, s) == Some(1) <==> exists gap, t :: SaysTrue(s, gap, t)
    ensures ReadToRaw(stof, Bool, s) == Some(0) <==> !exists gap, t :: SaysTrue(s, gap, t)
  {
    if ReadToRaw(stof, Bool, s) == Some(1) {
      var gap := BlankPart(s);
      var rest := SkipBlank(s);
      assert rest == "true" + rest[4..];
      assert SaysTrue(s, gap, rest[4..]);
    }
    forall gap, t | SaysTrue(s, gap, t)
      ensures ReadToRaw(stof, Bool, s) == Some(1)
    {
      assert gap + "true" + t == gap + ("true" + t);
      SkipBlankOf(gap, "true" + t);
      assert ("true" + t)[0] == 't' && ("true" + t)[..4] == "true";
    }
  }

  /** A number as it is usually written. */
  function Written(v: int): string { if v < 0 then "-" + Decimal(-v) else Decimal(v) }

  lemma SignedDigits(gap: string, sign: string, n: nat, t: string)
    requires Blank(gap) && sign in {"", "+", "-"} && n > 0 && Ends(t, 10)
    ensures Strtol(gap + sign + (Decimal(n) + t)) == Some(Signed(sign == "-", n))
  {
    var digits := Decimal(n) + t;
    var rest := sign + digits;
    DecimalMagnitude(n, t);
    LeadingDigit(n, 10);
    assert digits[0] == Decimal(n)[0];
    assert gap + sign + digits == gap + rest;
    SkipBlankOf(gap, rest);
    assert if sign == "" then rest == digits else rest[0] == sign[0] && rest[1..] == digits;
  }

  lemma Regrouped(a: string, b: string, c: string, d: string)
    ensures a + (b + c) + d == a + b + (c + d) && a + b + c + d == a + b + (c + d)
  {
  }

  /** White space before a number, a plus sign, and what follows it, make no difference. */
  lemma StrtolOfText(gap: string, v: int, t: string)
    requires Blank(gap) && v != 0 && Ends(t, 10)
    ensures Strtol(gap + Written(v) + t) == Some(Signed(v < 0, if v < 0 then -v else v))
    ensures v > 0 ==> Strtol(gap + "+" + Written(v) + t) == Some(Signed(false, v))
  {
    var n := if v < 0 then -v else v;
    var sign := if v < 0 then "-" else "";
    SignedDigits(gap, sign, n, t);
    assert Written(v) == sign + Decimal(n);
    Regrouped(gap, sign, Decimal(n), t);
    if v > 0 {
      SignedDigits(gap, "+", v, t);
      Regrouped(gap, "+", Decimal(v), t);
    }
  }

  /** What each conversion accepts: 64 bits, 32 bits, and, for unsigned numbers, 64 bits with or
      without a minus sign. */
  lemma Limits(v: int)
    ensures Stol(Written(v)) == if -9223372036854775808 <= v <= 9223372036854775807 then Some(v) else None
    ensures Stoi(Written(v)) == if -2147483648 <= v <= 2147483647 then Some(v) else None
    ensures Stoul(Written(v)).Some? <==> -18446744073709551615 <= v <= 18446744073709551615
  {
    StrtolOfDecimal(if v < 0 then -v else v);
  }

  /** A text without a digit where the number should be is refused. */
  lemma NoNumber(gap: string, t: string)
    requires Blank(gap) && (t == "" || (!('0' <= t[0] <= '9') && !IsSpace(t[0]) && t[0] != '+' && t[0] != '-'))
    ensures Stol(gap + t) == None && Stoi(gap + t) == None && Stoul(gap + t) == None
  {
    SkipBlankOf(gap, t);
  }

  /** A zero that begins neither octal nor hexadecimal digits is 0, whatever follows. */
  lemma BareZero(t: string)
    requires Ends(t, 8)
    requires |t| >= 2 && (t[0] == 'x' || t[0] == 'X') ==>
      !('0' <= t[1] <= '9' || 'a' <= t[1] <= 'f' || 'A' <= t[1] <= 'F')
    ensures Magnitude("0" + t) == Some(0)
  {
    var s := "0" + t;
    assert s[1..] == t;
    assert Accumulate(s, 8, 0) == Accumulate(t, 8, 0);
    if |t| >= 2 {
      assert s[1] == t[0] && s[2] == t[1];
    }
  }

  function Upper(c: char): char { if 'a' <= c <= 'z' then (c as int - 32) as char else c }

  function Uppered(s: string): (r: string)
    ensures |r| == |s| && forall i :: 0 <= i < |s| ==> r[i] == Upper(s[i])
  {
    seq(|s|, i requires 0 <= i < |s| => Upper(s[i]))
  }

  lemma {:induction false} AccumulateUppered(s: string, base: nat, acc: nat)
    ensures Accumulate(Uppered(s), base, acc) == Accumulate(s, base, acc)
  {
    if s != "" && DigitValue(s[0]) < base {
      assert Uppered(s)[1..] == Uppered(s[1..]);
      AccumulateUppered(s[1..], base, acc * base + DigitValue(s[0]));
    }
  }

  /** Capital letters are the same digits, and the same prefix. */
  lemma CapitalsRead(s: string)
    ensures Magnitude(Uppered(s)) == Magnitude(s)
  {
    AccumulateUppered(s, 10, 0);
    AccumulateUppered(s, 8, 0);
    if |s| > 2 {
      AccumulateUppered(s[2..], 16, 0);
      assert Uppered(s)[2..] == Uppered(s[2..]);
    }
  }

  // ---- UART replies (server/SiPMSupply.cpp and SiPMSupply.h)

  datatype UartRead = UartValue(raw: Word) | UartRuntimeError | UartLogicError

  /** read_response on the characters up to and including the CR LF; None is a runtime_error. */
  method StripResponse(buffer: string) returns (r: Option<string>)
    ensures r == if |buffer| >= 4 && "OK" <= buffer then Some(buffer[..|buffer| - 2]) else None
  {
    if |buffer| < 4 {
      return None;
    }
    for i := 0 to 2
      invariant forall k :: 0 <= k < i ==> buffer[k] == "OK"[k]
    {
      if buffer[i] != "OK"[i] {
        return None;
      }
    }
    return Some(buffer[..|buffer| - 2]);
  }

  /** What a reply comes to, by its text. */
  function UartReply(stof: FloatReader, f: Format, buffer: string): UartRead {
    if |buffer| < 4 || !("OK" <= buffer) then UartRuntimeError
    else if |buffer| == 4 then UartLogicError
    else
      match ReadToRaw(stof, f, buffer[3..|buffer| - 2])
      case None => UartLogicError
      case Some(raw) => UartValue(raw)
  }

  /** read_impl: a reply shorter than three characters makes substr(3) throw out_of_range, as
      the length check before it builds an exception without throwing it. */
  method ReadUart(stof: FloatReader, f: Format, buffer: string) returns (r: UartRead)
    ensures r == UartReply(stof, f, buffer)
  {
    var response := StripResponse(buffer);
    if response.None? {
      return UartRuntimeError;
    }
    if |response.value| < 3 {
      return UartLogicError;
    }
    assert response.value[3..] == buffer[3..|buffer| - 2];
    var raw := ReadToRaw(stof, f, response.value[3..]);
    return if raw.None? then UartLogicError else UartValue(raw.value);
  }

  /** A reply in the server's own notation. */
  function UartText(f: Format, raw: Word): string
    requires f != Float
  {
    "OK," + Show(f, raw) + "\r\n"
  }

  /** A word printed into a reply is the word read from it, except for a Bool, read as 0. */
  lemma UartRoundTrip(stof: FloatReader, f: Format, raw: Word)
    requires f != Float
    ensures UartReply(stof, f, UartText(f, raw)) == UartValue(if f == Bool then 0 else raw)
  {
    var buffer := UartText(f, raw);
    assert buffer[3..|buffer| - 2] == Show(f, raw);
    if f == Bool {
      BoolReadOfShow(stof, raw);
    } else {
      ReadOfShow(stof, f, raw);
    }
  }
}
