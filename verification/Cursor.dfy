/**
 * The opaque timeline cursor (war_room.py): a compact JSON pair of time and message id in unpadded base64url.
 * A Python text is a sequence of code points, surrogates included.
 */
module Cursor {
  import opened Wrappers
  import opened Base64

  type CodePoint = c: int | 0 <= c < 0x110000

  predicate IsHigh(c: int) { 0xD800 <= c < 0xDC00 }

  predicate IsLow(c: int) { 0xDC00 <= c < 0xE000 }

  predicate IsDigit(c: int) { '0' as int <= c <= '9' as int }

  // ----- writing -----------------------------------------------------------------------------

  function Decimal(n: nat): seq<Byte> {
    if n < 10 then ['0' as int + n] else Decimal(n / 10) + ['0' as int + n % 10]
  }

  function Integer(n: int): seq<Byte> { if n < 0 then ['-' as int] + Decimal(-n) else Decimal(n) }

  function HexDigit(n: int): Byte
    requires 0 <= n < 16
  {
    if n < 10 then '0' as int + n else 'a' as int + n - 10
  }

  /** `\uXXXX` */
  function Hex4(n: int): seq<Byte>
    requires 0 <= n < 0x10000
  {
    ['\\' as int, 'u' as int, HexDigit(n / 4096), HexDigit(n / 256 % 16), HexDigit(n / 16 % 16), HexDigit(n % 16)]
  }

  predicate IsPlain(c: int) { 32 <= c < 127 && c != '"' as int && c != '\\' as int }

  /** The letter of a two-character escape. */
  function ShortEscape(c: int): Option<Byte> {
    if c == '"' as int then Some('"' as int)
    else if c == '\\' as int then Some('\\' as int)
    else if c == 8 then Some('b' as int)
    else if c == 9 then Some('t' as int)
    else if c == 10 then Some('n' as int)
    else if c == 12 then Some('f' as int)
    else if c == 13 then Some('r' as int)
    else None
  }

  function HighHalf(c: CodePoint): (h: int)
    requires c >= 0x10000
    ensures IsHigh(h)
  {
    0xD800 + (c - 0x10000) / 1024
  }

  function LowHalf(c: CodePoint): (l: int)
    requires c >= 0x10000
    ensures IsLow(l)
  {
    0xDC00 + (c - 0x10000) % 1024
  }

  function Escaped(c: CodePoint): seq<Byte> {
    if IsPlain(c) then [c]
    else if ShortEscape(c).Some? then ['\\' as int, ShortEscape(c).value]
    else if c < 0x10000 then Hex4(c)
    else Hex4(HighHalf(c)) + Hex4(LowHalf(c))
  }

  function Quoted(id: seq<CodePoint>): seq<Byte> {
    if id == [] then ['"' as int] else Escaped(id[0]) + Quoted(id[1..])
  }

  function Payload(at: int, id: seq<CodePoint>): seq<Byte> {
    ['[' as int] + Integer(at) + [',' as int, '"' as int] + Quoted(id) + [']' as int]
  }

  function EncodeCursor(at: int, id: seq<CodePoint>): seq<int> { Unpadded(Payload(at, id)) }

  // ----- reading -----------------------------------------------------------------------------

  predicate IsBlank(c: int) { c == 32 || c == 9 || c == 10 || c == 13 }

  function SkipBlanks(text: seq<Byte>): seq<Byte> {
    if text != [] && IsBlank(text[0]) then SkipBlanks(text[1..]) else text
  }

  function DigitRun(text: seq<Byte>): nat {
    if text != [] && IsDigit(text[0]) then 1 + DigitRun(text[1..]) else 0
  }

  lemma {:induction false} DigitRunFits(text: seq<Byte>)
    ensures DigitRun(text) <= |text| && forall i :: 0 <= i < DigitRun(text) ==> IsDigit(text[i])
  {
    if text != [] && IsDigit(text[0]) { DigitRunFits(text[1..]); }
  }

  function NatOf(digits: seq<Byte>): nat
    requires forall i :: 0 <= i < |digits| ==> IsDigit(digits[i])
  {
    if digits == [] then 0
    else
      assert IsDigit(digits[|digits| - 1]);
      NatOf(digits[..|digits| - 1]) * 10 + (digits[|digits| - 1] - '0' as int)
  }

  /** A JSON number without fraction or exponent, and what follows it. */
  function ReadNat(text: seq<Byte>): Option<(int, seq<Byte>)> {
    if text == [] || !IsDigit(text[0]) then None
    else if text[0] == '0' as int then Some((0, text[1..]))
    else
      DigitRunFits(text);
      Some((NatOf(text[..DigitRun(text)]), text[DigitRun(text)..]))
  }

  function ReadInteger(text: seq<Byte>): Option<(int, seq<Byte>)> {
    if text != [] && text[0] == '-' as int then
      var n := ReadNat(text[1..]);
      if n.Some? then Some((-n.value.0, n.value.1)) else None
    else ReadNat(text)
  }

  function HexValue(c: int): (n: Option<int>)
    ensures n.Some? ==> 0 <= n.value < 16
  {
    if IsDigit(c) then Some(c - '0' as int)
    else if 'a' as int <= c <= 'f' as int then Some(c - 'a' as int + 10)
    else if 'A' as int <= c <= 'F' as int then Some(c - 'A' as int + 10)
    else None
  }

  /** `high` with one more hexadecimal digit behind it. */
  function AndDigit(high: Option<int>, c: int): (n: Option<int>)
    ensures n.Some? <==> high.Some? && HexValue(c).Some?
    ensures n.Some? ==> n.value == high.value * 16 + HexValue(c).value
  {
    if high.Some? && HexValue(c).Some? then Some(high.value * 16 + HexValue(c).value) else None
  }

  function ReadHex4(text: seq<Byte>): (n: Option<int>)
    ensures n.Some? ==> |text| >= 4 && 0 <= n.value < 0x10000
  {
    if |text| < 4 then None
    else AndDigit(AndDigit(AndDigit(HexValue(text[0]), text[1]), text[2]), text[3])
  }

  function UnescapeOf(c: int): Option<CodePoint> {
    if c == '"' as int || c == '\\' as int || c == '/' as int then Some(c)
    else if c == 'b' as int then Some(8)
    else if c == 't' as int then Some(9)
    else if c == 'n' as int then Some(10)
    else if c == 'f' as int then Some(12)
    else if c == 'r' as int then Some(13)
    else None
  }

  /** A low surrogate escape at the start of the text. */
  function LowAt(text: seq<Byte>): (n: Option<int>)
    ensures n.Some? ==> |text| >= 6 && IsLow(n.value)
  {
    if |text| >= 6 && text[0] == '\\' as int && text[1] == 'u' as int && ReadHex4(text[2..]).Some?
      && IsLow(ReadHex4(text[2..]).value)
    then ReadHex4(text[2..]) else None
  }

  function Join(high: int, low: int): CodePoint
    requires IsHigh(high) && IsLow(low)
  {
    0x10000 + (high - 0xD800) * 1024 + (low - 0xDC00)
  }

  function Cons(c: CodePoint, rest: Option<(seq<CodePoint>, seq<Byte>)>): Option<(seq<CodePoint>, seq<Byte>)> {
    if rest.Some? then Some(([c] + rest.value.0, rest.value.1)) else None
  }

  /** The text up to the closing quote, and what follows it. */
  function ReadText(text: seq<Byte>): Option<(seq<CodePoint>, seq<Byte>)>
    decreases |text|
  {
    if text == [] || text[0] < 32 then None
    else if text[0] == '"' as int then Some(([], text[1..]))
    else if text[0] != '\\' as int then Cons(text[0], ReadText(text[1..]))
    else if |text| == 1 then None
    else if text[1] != 'u' as int then
      (match UnescapeOf(text[1]) case None => None case Some(c) => Cons(c, ReadText(text[2..])))
    else
      match ReadHex4(text[2..])
      case None => None
      case Some(n) =>
        if IsHigh(n) && LowAt(text[6..]).Some? then Cons(Join(n, LowAt(text[6..]).value), ReadText(text[12..]))
        else Cons(n, ReadText(text[6..]))
  }

  /** From the comma to the end of the pair. */
  function ReadSecond(at: int, rest: seq<Byte>): Option<(int, seq<CodePoint>)> {
    var comma := SkipBlanks(rest);
    if comma == [] || comma[0] != ',' as int then None
    else
      var quote := SkipBlanks(comma[1..]);
      if quote == [] || quote[0] != '"' as int then None
      else
        match ReadText(quote[1..])
        case None => None
        case Some((id, after)) =>
          var close := SkipBlanks(after);
          if close == [] || close[0] != ']' as int || SkipBlanks(close[1..]) != [] then None else Some((at, id))
  }

  /** The JSON texts that unpack into an integer and a string; anything else is an invalid cursor. */
  function ReadPair(text: seq<Byte>): Option<(int, seq<CodePoint>)> {
    var start := SkipBlanks(text);
    if start == [] || start[0] != '[' as int then None
    else
      match ReadInteger(SkipBlanks(start[1..]))
      case None => None
      case Some((at, rest)) => ReadSecond(at, rest)
  }

  predicate AllDigits(value: seq<int>) { value != [] && forall i :: 0 <= i < |value| ==> IsDigit(value[i]) }

  predicate IsAscii(value: seq<int>) { forall i :: 0 <= i < |value| ==> 0 <= value[i] < 128 }

  /** `None` is the 422 answer. */
  function DecodeCursor(value: seq<int>): Option<(int, seq<CodePoint>)> {
    if AllDigits(value) then Some((NatOf(value), [0xFFFF]))
    else if !IsAscii(value) then None
    else
      match Decoded(Padded(value))
      case None => None
      case Some(payload) => if IsAscii(payload) then ReadPair(payload) else None
  }

  // ----- the written form ----------------------------------------------------------------------

  /** The values of the leading digits, one more digit at a time. */
  ghost predicate CountsUp(digits: seq<int>, values: seq<int>) {
    && |values| == |digits| + 1 && values[0] == 0
    && forall i :: 0 <= i < |digits| ==> 48 <= digits[i] <= 57 && values[i + 1] == values[i] * 10 + (digits[i] - 48)
  }

  /** The digits of `n` in base ten, without leading zeros. */
  ghost predicate IsNumeral(digits: seq<int>, n: int) {
    && digits != [] && (digits[0] == 48 ==> |digits| == 1)
    && exists values :: CountsUp(digits, values) && values[|digits|] == n
  }

  ghost predicate IsHexDigit(c: int, n: int) { (n < 10 && c == 48 + n) || (n >= 10 && c == 97 + (n - 10)) }

  /** `\u` and the four digits of `n` in base sixteen. */
  ghost predicate IsHexEscape(text: seq<int>, n: int) {
    && |text| == 6 && text[0] == 92 && text[1] == 117
    && exists a, b, c, d | 0 <= a < 16 && 0 <= b < 16 && 0 <= c < 16 && 0 <= d < 16 ::
         && IsHexDigit(text[2], a) && IsHexDigit(text[3], b) && IsHexDigit(text[4], c) && IsHexDigit(text[5], d)
         && n == ((a * 16 + b) * 16 + c) * 16 + d
  }

  /** An escape of one character, as section 7 of RFC 8259 lists them. */
  ghost predicate IsLetterEscape(text: seq<int>, c: int) {
    || (c == 34 && text == [92, 34]) || (c == 92 && text == [92, 92]) || (c == 8 && text == [92, 98])
    || (c == 9 && text == [92, 116]) || (c == 10 && text == [92, 110]) || (c == 12 && text == [92, 102])
    || (c == 13 && text == [92, 114])
  }

  /** A code point as an ASCII-only JSON string holds it. */
  ghost predicate IsEscapeOf(text: seq<int>, c: int) {
    if c in {8, 9, 10, 12, 13, 34, 92} then IsLetterEscape(text, c)
    else if 32 <= c < 127 then text == [c]
    else if c < 0x10000 then IsHexEscape(text, c)
    else
      |text| == 12 && exists high, low | 0xD800 <= high < 0xDC00 && 0xDC00 <= low < 0xE000 ::
        && IsHexEscape(text[..6], high) && IsHexEscape(text[6..], low)
        && c == 0x10000 + (high - 0xD800) * 1024 + (low - 0xDC00)
  }

  /** The code points in order, each as JSON writes it. */
  ghost predicate IsTextOf(text: seq<int>, id: seq<CodePoint>)
    decreases |id|
  {
    if id == [] then text == []
    else exists n: nat | n <= |text| :: IsEscapeOf(text[..n], id[0]) && IsTextOf(text[n..], id[1..])
  }

  ghost predicate IsNumber(text: seq<int>, n: int) {
    if n < 0 then text != [] && text[0] == 45 && IsNumeral(text[1..], -n) else IsNumeral(text, n)
  }

  /** `[time,"id"]` without blanks. */
  ghost predicate IsPair(text: seq<int>, at: int, id: seq<CodePoint>) {
    exists number, body ::
      IsNumber(number, at) && IsTextOf(body, id) && text == [91] + number + [44, 34] + body + [34, 93]
  }

  lemma {:induction false} DecimalValues(n: nat) returns (values: seq<int>)
    ensures CountsUp(Decimal(n), values) && values[|Decimal(n)|] == n
  {
    if n < 10 {
      values := [0, n];
    } else {
      var front := DecimalValues(n / 10);
      values := front + [n];
    }
  }

  lemma DecimalIsNumeral(n: nat)
    ensures IsNumeral(Decimal(n), n)
  {
    DecimalIsRead(n);
    var values := DecimalValues(n);
  }

  lemma Hex4IsEscape(n: int)
    requires 0 <= n < 0x10000
    ensures IsHexEscape(Hex4(n), n)
  {
    HexSum(n);
    var text, a, b, c, d := Hex4(n), n / 4096, n / 256 % 16, n / 16 % 16, n % 16;
    assert IsHexDigit(text[2], a) && IsHexDigit(text[3], b) && IsHexDigit(text[4], c) && IsHexDigit(text[5], d);
    assert n == ((a * 16 + b) * 16 + c) * 16 + d;
  }

  lemma EscapedMeans(c: CodePoint)
    ensures IsEscapeOf(Escaped(c), c)
  {
    if c in {8, 9, 10, 12, 13, 34, 92} || 32 <= c < 127 {
    } else if c < 0x10000 {
      Hex4IsEscape(c);
    } else {
      Hex4IsEscape(HighHalf(c));
      Hex4IsEscape(LowHalf(c));
      HalvesFit(c);
      assert Escaped(c)[..6] == Hex4(HighHalf(c)) && Escaped(c)[6..] == Hex4(LowHalf(c));
    }
  }

  /** The closing quote follows the code points. */
  lemma {:induction false} QuotedMeans(id: seq<CodePoint>) returns (body: seq<int>)
    ensures Quoted(id) == body + [34] && IsTextOf(body, id)
  {
    if id == [] {
      body := [];
    } else {
      var rest := QuotedMeans(id[1..]);
      EscapedMeans(id[0]);
      body := Escaped(id[0]) + rest;
      InFront(Escaped(id[0]), rest, body, id);
    }
  }

  lemma InFront(first: seq<int>, rest: seq<int>, body: seq<int>, id: seq<CodePoint>)
    requires id != [] && IsEscapeOf(first, id[0]) && IsTextOf(rest, id[1..]) && body == first + rest
    ensures IsTextOf(body, id)
  {
    assert body[..|first|] == first && body[|first|..] == rest;
  }

  lemma NumberMeans(n: int)
    ensures IsNumber(Integer(n), n)
  {
    if n < 0 {
      DecimalIsNumeral(-n);
      assert Integer(n)[1..] == Decimal(-n);
    } else {
      DecimalIsNumeral(n);
    }
  }

  /** The text that is encoded is the compact JSON pair of the two. */
  lemma PayloadMeans(at: int, id: seq<CodePoint>)
    ensures IsPair(Payload(at, id), at, id)
  {
    var body := QuotedMeans(id);
    NumberMeans(at);
    PairOf(Integer(at), body, Quoted(id), Payload(at, id), at, id);
  }

  lemma PairOf(number: seq<int>, body: seq<int>, quoted: seq<int>, text: seq<int>, at: int, id: seq<CodePoint>)
    requires IsNumber(number, at) && IsTextOf(body, id) && quoted == body + [34]
    requires text == [91] + number + [44, 34] + quoted + [93]
    ensures IsPair(text, at, id)
  {
    assert text == [91] + number + [44, 34] + body + [34, 93];
  }

  lemma {:induction false} NatOfValues(digits: seq<Byte>, values: seq<int>)
    requires CountsUp(digits, values)
    ensures NatOf(digits) == values[|digits|]
  {
    if digits != [] { NatOfValues(digits[..|digits| - 1], values[..|digits|]); }
  }

  /** A cursor of digits alone is a time, and the id that comes after every id of a character below U+FFFF. */
  lemma NumericCursor(value: seq<int>, values: seq<int>)
    requires value != [] && CountsUp(value, values)
    ensures DecodeCursor(value) == Some((values[|value|], [0xFFFF]))
  {
    NatOfValues(value, values);
  }

  // ----- numbers come back ---------------------------------------------------------------------

  lemma {:induction false} DecimalIsRead(n: nat)
    ensures Decimal(n) != [] && forall i :: 0 <= i < |Decimal(n)| ==> IsDigit(Decimal(n)[i])
    ensures NatOf(Decimal(n)) == n
    ensures n > 0 ==> Decimal(n)[0] != '0' as int
    ensures n == 0 ==> Decimal(n) == ['0' as int]
  {
    if n >= 10 {
      DecimalIsRead(n / 10);
      var d := Decimal(n);
      assert d[..|d| - 1] == Decimal(n / 10);
    } else {
      assert Decimal(n)[..0] == [];
    }
  }

  lemma {:induction false} RunEnds(digits: seq<Byte>, rest: seq<Byte>)
    requires forall i :: 0 <= i < |digits| ==> IsDigit(digits[i])
    requires rest == [] || !IsDigit(rest[0])
    ensures DigitRun(digits + rest) == |digits|
  {
    if digits == [] {
      assert digits + rest == rest;
    } else {
      RunEnds(digits[1..], rest);
      assert (digits + rest)[1..] == digits[1..] + rest;
    }
  }

  lemma NatIsRead(n: nat, rest: seq<Byte>)
    requires rest == [] || !IsDigit(rest[0])
    ensures ReadNat(Decimal(n) + rest) == Some((n, rest))
  {
    DecimalIsRead(n);
    var d := Decimal(n);
    RunEnds(d, rest);
    assert (d + rest)[..|d|] == d && (d + rest)[|d|..] == rest;
    if n == 0 { assert (d + rest)[1..] == rest; }
  }

  lemma NegativeIsRead(text: seq<Byte>, n: int, rest: seq<Byte>)
    requires n >= 0 && text != [] && text[0] == '-' as int && text[1..] == Decimal(n) + rest
             && ReadNat(text[1..]) == Some((n, rest))
    ensures ReadInteger(text) == Some((-n, rest))
  {
  }

  lemma PositiveIsRead(text: seq<Byte>, n: int, rest: seq<Byte>)
    requires text != [] && text[0] != '-' as int && ReadNat(text) == Some((n, rest))
    ensures ReadInteger(text) == Some((n, rest))
  {
  }

  lemma IntegerStarts(n: int)
    ensures Integer(n) != [] && !IsBlank(Integer(n)[0]) && (Integer(n)[0] == '-' as int <==> n < 0)
  {
    if n >= 0 {
      DecimalIsRead(n);
      assert IsDigit(Decimal(n)[0]);
    }
  }

  lemma MinusIsRead(n: int, digits: seq<Byte>, rest: seq<Byte>)
    requires n > 0 && digits == Decimal(n) && (rest == [] || !IsDigit(rest[0]))
    ensures ReadInteger(['-' as int] + digits + rest) == Some((-n, rest))
  {
    NatIsRead(n, rest);
    var text := ['-' as int] + digits + rest;
    assert text[1..] == digits + rest;
    NegativeIsRead(text, n, rest);
  }

  lemma PlusIsRead(n: nat, digits: seq<Byte>, rest: seq<Byte>)
    requires digits == Decimal(n) && (rest == [] || !IsDigit(rest[0]))
    ensures ReadInteger(digits + rest) == Some((n, rest))
  {
    NatIsRead(n, rest);
    IntegerStarts(n);
    PositiveIsRead(digits + rest, n, rest);
  }

  lemma IntegerIsRead(n: int, rest: seq<Byte>)
    requires rest == [] || !IsDigit(rest[0])
    ensures ReadInteger(Integer(n) + rest) == Some((n, rest))
  {
    if n < 0 { MinusIsRead(-n, Decimal(-n), rest); } else { PlusIsRead(n, Decimal(n), rest); }
  }

  // ----- texts come back -----------------------------------------------------------------------

  lemma HexDigitIsRead(n: int)
    requires 0 <= n < 16
    ensures HexValue(HexDigit(n)) == Some(n)
  {
  }

  lemma HexSum(n: int)
    requires 0 <= n < 0x10000
    ensures n / 4096 * 4096 + n / 256 % 16 * 256 + n / 16 % 16 * 16 + n % 16 == n
  {
    assert n / 16 / 16 == n / 256 && n / 256 / 16 == n / 4096;
    assert n == n / 16 * 16 + n % 16;
    assert n / 16 == n / 256 * 16 + n / 16 % 16;
    assert n / 256 == n / 4096 * 16 + n / 256 % 16;
  }

  lemma Hex4IsRead(n: int, rest: seq<Byte>)
    requires 0 <= n < 0x10000
    ensures ReadHex4((Hex4(n) + rest)[2..]) == Some(n)
    ensures (Hex4(n) + rest)[6..] == rest
  {
    var digits := (Hex4(n) + rest)[2..];
    HexDigitIsRead(n / 4096);
    HexDigitIsRead(n / 256 % 16);
    HexDigitIsRead(n / 16 % 16);
    HexDigitIsRead(n % 16);
    assert digits[0] == HexDigit(n / 4096) && digits[1] == HexDigit(n / 256 % 16);
    assert digits[2] == HexDigit(n / 16 % 16) && digits[3] == HexDigit(n % 16);
    HexSum(n);
  }

  /** What reading makes of a text: a high surrogate directly before a low one becomes one character. */
  function Merged(id: seq<CodePoint>): seq<CodePoint>
    decreases |id|
  {
    if id == [] then []
    else if |id| > 1 && IsHigh(id[0]) && IsLow(id[1]) then [Join(id[0], id[1])] + Merged(id[2..])
    else [id[0]] + Merged(id[1..])
  }

  predicate NoSplitPair(id: seq<CodePoint>) { forall i :: 0 <= i < |id| - 1 ==> !(IsHigh(id[i]) && IsLow(id[i + 1])) }

  lemma {:induction false} MergedIsSame(id: seq<CodePoint>)
    ensures |Merged(id)| <= |id|
    ensures Merged(id) == id <==> NoSplitPair(id)
    ensures !NoSplitPair(id) ==> |Merged(id)| < |id|
    decreases |id|
  {
    if id == [] {
    } else if |id| > 1 && IsHigh(id[0]) && IsLow(id[1]) {
      MergedIsSame(id[2..]);
    } else {
      MergedIsSame(id[1..]);
      var rest := id[1..];
      assert id == [id[0]] + rest;
      if NoSplitPair(rest) {
        assert forall i :: 0 < i < |id| - 1 ==> id[i] == rest[i - 1] && id[i + 1] == rest[i];
      } else {
        var i :| 0 <= i < |rest| - 1 && IsHigh(rest[i]) && IsLow(rest[i + 1]);
        assert IsHigh(id[i + 1]) && IsLow(id[i + 1 + 1]);
      }
    }
  }

  lemma LowAtHex(n: int, tail: seq<Byte>)
    requires 0 <= n < 0x10000
    ensures LowAt(Hex4(n) + tail) == if IsLow(n) then Some(n) else None
  {
    Hex4IsRead(n, tail);
    var text := Hex4(n) + tail;
    assert text[0] == '\\' as int && text[1] == 'u' as int && |text| >= 6;
  }

  lemma HalvesFit(c: CodePoint)
    requires c >= 0x10000
    ensures Join(HighHalf(c), LowHalf(c)) == c
  {
  }

  /** A text begins with a low surrogate escape exactly when its first code point is one. */
  lemma LowAtQuoted(id: seq<CodePoint>, rest: seq<Byte>)
    ensures LowAt(Quoted(id) + rest) == if id != [] && IsLow(id[0]) then Some(id[0]) else None
  {
    if id == [] {
      assert Quoted(id) + rest == ['"' as int] + rest;
    } else {
      LowAtEscaped(id[0], Quoted(id[1..]) + rest);
      assert Quoted(id) + rest == Escaped(id[0]) + (Quoted(id[1..]) + rest);
    }
  }

  lemma LowAtEscaped(c: CodePoint, tail: seq<Byte>)
    ensures LowAt(Escaped(c) + tail) == if IsLow(c) then Some(c) else None
  {
    if IsPlain(c) {
      assert (Escaped(c) + tail)[0] == c;
    } else if ShortEscape(c).Some? {
      assert (Escaped(c) + tail)[1] == ShortEscape(c).value;
    } else if c < 0x10000 {
      LowAtHex(c, tail);
    } else {
      var high, low := HighHalf(c), LowHalf(c);
      HalvesFit(c);
      Regroup(Hex4(high), Hex4(low), tail);
      LowAtHex(high, Hex4(low) + tail);
    }
  }

  /** Reading one escape of the basic plane. */
  lemma HexIsRead(n: int, tail: seq<Byte>)
    requires 0 <= n < 0x10000
    ensures ReadText(Hex4(n) + tail) ==
            if IsHigh(n) && LowAt(tail).Some? then Cons(Join(n, LowAt(tail).value), ReadText(tail[6..]))
            else Cons(n, ReadText(tail))
  {
    Hex4IsRead(n, tail);
    var text := Hex4(n) + tail;
    assert text[0] == '\\' as int && text[1] == 'u' as int && |text| >= 6;
    assert text[6..] == tail;
    if |tail| >= 6 { assert text[12..] == tail[6..]; }
  }

  lemma PlainIsRead(c: CodePoint, tail: seq<Byte>)
    requires IsPlain(c)
    ensures ReadText([c] + tail) == Cons(c, ReadText(tail))
  {
    assert ([c] + tail)[1..] == tail;
  }

  lemma ShortIsRead(c: CodePoint, letter: Byte, tail: seq<Byte>)
    requires ShortEscape(c) == Some(letter)
    ensures ReadText(['\\' as int, letter] + tail) == Cons(c, ReadText(tail))
  {
    var text := ['\\' as int, letter] + tail;
    assert UnescapeOf(letter) == Some(c) && letter != 'u' as int;
    assert text[0] == '\\' as int && text[1] == letter && text[2..] == tail;
  }

  lemma Regroup(a: seq<Byte>, b: seq<Byte>, c: seq<Byte>)
    ensures a + b + c == a + (b + c)
  {
  }

  lemma LongIsRead(c: CodePoint, tail: seq<Byte>)
    requires c >= 0x10000
    ensures ReadText(Escaped(c) + tail) == Cons(c, ReadText(tail))
  {
    var high, low := HighHalf(c), LowHalf(c);
    HalvesFit(c);
    PairIsRead(high, low, tail);
    assert Escaped(c) == Hex4(high) + Hex4(low);
    Regroup(Hex4(high), Hex4(low), tail);
  }

  /** Reading back one written code point that does not pair up with what follows. */
  lemma EscapedIsRead(c: CodePoint, tail: seq<Byte>)
    requires IsHigh(c) ==> LowAt(tail).None?
    ensures ReadText(Escaped(c) + tail) == Cons(c, ReadText(tail))
  {
    if IsPlain(c) {
      PlainIsRead(c, tail);
    } else if ShortEscape(c).Some? {
      ShortIsRead(c, ShortEscape(c).value, tail);
    } else if c < 0x10000 {
      HexIsRead(c, tail);
    } else {
      LongIsRead(c, tail);
    }
  }

  lemma PairIsRead(high: int, low: int, tail: seq<Byte>)
    requires IsHigh(high) && IsLow(low)
    ensures ReadText(Hex4(high) + (Hex4(low) + tail)) == Cons(Join(high, low), ReadText(tail))
  {
    HexIsRead(high, Hex4(low) + tail);
    LowAtHex(low, tail);
    assert (Hex4(low) + tail)[6..] == tail;
  }

  lemma QuotedSplits(id: seq<CodePoint>, rest: seq<Byte>)
    requires id != []
    ensures Quoted(id) + rest == Escaped(id[0]) + (Quoted(id[1..]) + rest)
  {
  }

  lemma QuotedPairSplits(id: seq<CodePoint>, rest: seq<Byte>)
    requires |id| > 1 && IsHigh(id[0]) && IsLow(id[1])
    ensures Quoted(id) + rest == Hex4(id[0]) + (Hex4(id[1]) + (Quoted(id[2..]) + rest))
  {
    QuotedSplits(id, rest);
    QuotedSplits(id[1..], rest);
    assert id[1..][1..] == id[2..];
  }

  /** A written text is read back with its surrogate pairs merged. */
  lemma {:induction false} TextIsRead(id: seq<CodePoint>, rest: seq<Byte>)
    ensures ReadText(Quoted(id) + rest) == Some((Merged(id), rest))
    decreases |id|
  {
    if id == [] {
      EmptyIsRead(rest);
    } else if |id| > 1 && IsHigh(id[0]) && IsLow(id[1]) {
      TextIsRead(id[2..], rest);
      QuotedPairSplits(id, rest);
      PairIsRead(id[0], id[1], Quoted(id[2..]) + rest);
    } else {
      TextIsRead(id[1..], rest);
      QuotedSplits(id, rest);
      LowAtQuoted(id[1..], rest);
      EscapedIsRead(id[0], Quoted(id[1..]) + rest);
    }
  }

  lemma EmptyIsRead(rest: seq<Byte>)
    ensures ReadText(['"' as int] + rest) == Some(([], rest))
  {
    assert (['"' as int] + rest)[1..] == rest;
  }

  // ----- cursors come back -----------------------------------------------------------------------

  lemma SecondIsRead(at: int, id: seq<CodePoint>)
    ensures ReadSecond(at, [',' as int, '"' as int] + (Quoted(id) + [']' as int])) == Some((at, Merged(id)))
  {
    var comma := [',' as int, '"' as int] + (Quoted(id) + [']' as int]);
    var quote := comma[1..];
    assert comma[0] == ',' as int && quote[0] == '"' as int;
    assert quote[1..] == Quoted(id) + [']' as int];
    TextIsRead(id, [']' as int]);
    assert [']' as int][1..] == [];
  }

  lemma BracketIsRead(text: seq<Byte>, body: seq<Byte>, at: int, second: seq<Byte>)
    requires text != [] && text[0] == '[' as int && text[1..] == body && body != [] && !IsBlank(body[0])
    requires ReadInteger(body) == Some((at, second))
    ensures ReadPair(text) == ReadSecond(at, second)
  {
  }

  lemma PayloadIsRead(at: int, id: seq<CodePoint>)
    ensures ReadPair(Payload(at, id)) == Some((at, Merged(id)))
  {
    var second := [',' as int, '"' as int] + (Quoted(id) + [']' as int]);
    var body := Integer(at) + second;
    assert Payload(at, id) == ['[' as int] + body;
    assert second[0] == ',' as int;
    IntegerIsRead(at, second);
    IntegerStarts(at);
    assert body[0] == Integer(at)[0];
    BracketIsRead(Payload(at, id), body, at, second);
    SecondIsRead(at, id);
  }

  lemma {:induction false} QuotedIsAscii(id: seq<CodePoint>)
    ensures IsAscii(Quoted(id))
  {
    if id != [] {
      QuotedIsAscii(id[1..]);
      EscapedIsAscii(id[0]);
    }
  }

  lemma EscapedIsAscii(c: CodePoint)
    ensures IsAscii(Escaped(c))
  {
    if !IsPlain(c) && ShortEscape(c).None? {
      if c < 0x10000 {
        Hex4IsAscii(c);
      } else {
        Hex4IsAscii(HighHalf(c));
        Hex4IsAscii(LowHalf(c));
      }
    }
  }

  lemma Hex4IsAscii(n: int)
    requires 0 <= n < 0x10000
    ensures IsAscii(Hex4(n))
  {
  }

  lemma AsciiJoins(a: seq<Byte>, b: seq<Byte>)
    requires IsAscii(a) && IsAscii(b)
    ensures IsAscii(a + b)
  {
  }

  lemma IntegerIsAscii(n: int)
    ensures IsAscii(Integer(n))
  {
    if n < 0 {
      DecimalIsRead(-n);
      AsciiJoins(['-' as int], Decimal(-n));
    } else {
      DecimalIsRead(n);
    }
  }

  lemma PayloadIsAscii(at: int, id: seq<CodePoint>)
    ensures IsAscii(Payload(at, id))
  {
    IntegerIsAscii(at);
    QuotedIsAscii(id);
    AsciiJoins(['[' as int], Integer(at));
    AsciiJoins(['[' as int] + Integer(at), [',' as int, '"' as int]);
    AsciiJoins(['[' as int] + Integer(at) + [',' as int, '"' as int], Quoted(id));
    AsciiJoins(['[' as int] + Integer(at) + [',' as int, '"' as int] + Quoted(id), [']' as int]);
  }

  /** An encoded cursor begins with `W`, so it is never taken for the numeric form. */
  lemma CursorIsNotNumeric(at: int, id: seq<CodePoint>)
    ensures EncodeCursor(at, id) != [] && EncodeCursor(at, id)[0] == 'W' as int
    ensures !AllDigits(EncodeCursor(at, id)) && IsAscii(EncodeCursor(at, id))
  {
    var payload := Payload(at, id);
    PaddingIsRestored(payload);
    DigitsHaveNoPad(payload);
    DigitsAreAscii(payload);
    assert payload[0] == '[' as int;
  }

  lemma {:induction false} DigitsAreAscii(bytes: seq<Byte>)
    ensures IsAscii(Digits(bytes))
    decreases |bytes|
  {
    if |bytes| >= 3 { DigitsAreAscii(bytes[3..]); }
  }

  /** Decoding gives back the time, and the id with its surrogate pairs merged. */
  lemma CursorComesBack(at: int, id: seq<CodePoint>)
    ensures DecodeCursor(EncodeCursor(at, id)) == Some((at, Merged(id)))
  {
    CursorIsNotNumeric(at, id);
    Base64.RoundTrip(Payload(at, id));
    PayloadIsAscii(at, id);
    PayloadIsRead(at, id);
  }

  /** The very same id comes back exactly when no high surrogate stands directly before a low one in it. */
  lemma CursorRoundTripIff(at: int, id: seq<CodePoint>)
    ensures DecodeCursor(EncodeCursor(at, id)) == Some((at, id)) <==> NoSplitPair(id)
  {
    CursorComesBack(at, id);
    MergedIsSame(id);
  }

  /** An id for which it does not: two surrogates, read back as one character. */
  lemma SplitPairIsLost(at: int, id: seq<CodePoint>)
    requires id == [0xD83D, 0xDE00]
    ensures DecodeCursor(EncodeCursor(at, id)) == Some((at, [0x1F600]))
  {
    CursorComesBack(at, id);
    assert Merged(id) == [Join(id[0], id[1])] + Merged(id[2..]);
    assert id[2..] == [] && Join(id[0], id[1]) == 0x1F600;
    assert Merged(id) == [0x1F600];
  }

  /** The endpoint reads cursors of at most 256 characters: those whose JSON text has at most 192. */
  lemma CursorFitsIff(at: int, id: seq<CodePoint>)
    ensures |EncodeCursor(at, id)| <= 256 <==> |Payload(at, id)| <= 192
  {
    PaddingIsRestored(Payload(at, id));
  }
}
