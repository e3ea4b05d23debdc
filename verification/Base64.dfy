/**
 * Base64 with the URL-safe alphabet (section 5 of RFC 4648), written without padding (section 3.2) and read the way
 * Python's lenient decoder reads it. Text is a sequence of character codes.
 */
module Base64 {
  import opened Wrappers

  type Byte = b: int | 0 <= b < 256

  const PAD := '=' as int

  /** The character of a six-bit value. */
  function Digit(n: int): (c: int)
    requires 0 <= n < 64
    ensures Value(c) == Some(n) && c != PAD && c < 128
  {
    if n < 26 then 'A' as int + n
    else if n < 52 then 'a' as int + n - 26
    else if n < 62 then '0' as int + n - 52
    else if n == 62 then '-' as int
    else '_' as int
  }

  /** The value of a character; both alphabets are read, and `None` means the character is skipped. */
  function Value(c: int): (v: Option<int>)
    ensures v.Some? ==> 0 <= v.value < 64 && c != PAD
  {
    if 'A' as int <= c <= 'Z' as int then Some(c - 'A' as int)
    else if 'a' as int <= c <= 'z' as int then Some(c - 'a' as int + 26)
    else if '0' as int <= c <= '9' as int then Some(c - '0' as int + 52)
    else if c == '-' as int || c == '+' as int then Some(62)
    else if c == '_' as int || c == '/' as int then Some(63)
    else None
  }

  /** The digits of the bytes without padding. */
  function Digits(bytes: seq<Byte>): seq<int>
    decreases |bytes|
  {
    if |bytes| == 0 then []
    else if |bytes| == 1 then [Digit(bytes[0] / 4), Digit(bytes[0] % 4 * 16)]
    else if |bytes| == 2 then
      [Digit(bytes[0] / 4), Digit(bytes[0] % 4 * 16 + bytes[1] / 16), Digit(bytes[1] % 16 * 4)]
    else
      [Digit(bytes[0] / 4), Digit(bytes[0] % 4 * 16 + bytes[1] / 16), Digit(bytes[1] % 16 * 4 + bytes[2] / 64),
          Digit(bytes[2] % 64)]
      + Digits(bytes[3..])
  }

  function Pads(n: nat): (p: seq<int>)
    ensures |p| == n && forall i :: 0 <= i < n ==> p[i] == PAD
  {
    seq(n, _ => PAD)
  }

  /** The encoder's output: digits filled up to whole quadruples. */
  function Encoded(bytes: seq<Byte>): seq<int> { Digits(bytes) + Pads((3 - |bytes| % 3) % 3) }

  function StripPads(text: seq<int>): seq<int> {
    if text != [] && text[|text| - 1] == PAD then StripPads(text[..|text| - 1]) else text
  }

  function Unpadded(bytes: seq<Byte>): seq<int> { StripPads(Encoded(bytes)) }

  /** As many pads as the decoder's caller puts back. */
  function Padded(text: seq<int>): seq<int> { text + Pads((4 - |text| % 4) % 4) }

  // ----- the decoder -----------------------------------------------------------------------

  /** `quad` digits of the present quadruple read, `left` their unused bits, `pads` in a row. */
  function Read(text: seq<int>, quad: int, left: int, pads: nat): Option<seq<Byte>>
    requires 0 <= quad < 4 && 0 <= left
    requires quad == 1 ==> left < 64
    requires quad == 2 ==> left < 16
    requires quad == 3 ==> left < 4
    decreases |text|
  {
    if text == [] then (if quad == 0 then Some([]) else None)
    else if text[0] == PAD then
      if quad >= 2 && quad + pads + 1 >= 4 then Some([])
        else Read(text[1..], quad, left, if quad >= 2 then pads + 1 else pads)
    else
      match Value(text[0])
      case None => Read(text[1..], quad, left, pads)
      case Some(v) =>
        if quad == 0 then Read(text[1..], 1, v, 0)
        else if quad == 1 then Put(left * 4 + v / 16, Read(text[1..], 2, v % 16, 0))
        else if quad == 2 then Put(left * 16 + v / 4, Read(text[1..], 3, v % 4, 0))
        else Put(left * 64 + v, Read(text[1..], 0, 0, 0))
  }

  function Put(b: Byte, rest: Option<seq<Byte>>): Option<seq<Byte>> {
    if rest.Some? then Some([b] + rest.value) else None
  }

  function Decoded(text: seq<int>): Option<seq<Byte>> { Read(text, 0, 0, 0) }

  // ----- the encoding itself ---------------------------------------------------------------

  /** The value of a character of table 2 of RFC 4648. */
  ghost predicate StandsFor(c: int, n: int) {
    || (c == '-' as int && n == 62) || (c == '_' as int && n == 63)
    || ('A' as int <= c <= 'Z' as int && n == c - 'A' as int)
    || ('a' as int <= c <= 'z' as int && n - 26 == c - 'a' as int)
    || ('0' as int <= c <= '9' as int && n - 52 == c - '0' as int)
  }

  lemma DigitStandsFor(c: int, n: int)
    requires 0 <= n < 64 && c == Digit(n)
    ensures StandsFor(c, n)
  {
  }

  /** Three bytes become four characters, whose values hold the bytes' bits in order. */
  lemma QuadHoldsBits(bytes: seq<Byte>) returns (a: int, b: int, c: int, d: int)
    requires |bytes| >= 3
    ensures var t := Digits(bytes);
            && |t| >= 4 && StandsFor(t[0], a) && StandsFor(t[1], b) && StandsFor(t[2], c) && StandsFor(t[3], d)
            && t[4..] == Digits(bytes[3..])
    ensures var x: int, y: int, z: int := bytes[0], bytes[1], bytes[2];
            ((a * 64 + b) * 64 + c) * 64 + d == (x * 256 + y) * 256 + z
  {
    a, b := bytes[0] / 4, bytes[0] % 4 * 16 + bytes[1] / 16;
    c, d := bytes[1] % 16 * 4 + bytes[2] / 64, bytes[2] % 64;
    var t := Digits(bytes);
    DigitStandsFor(t[0], a);
    DigitStandsFor(t[1], b);
    DigitStandsFor(t[2], c);
    DigitStandsFor(t[3], d);
    assert t[4..] == Digits(bytes[3..]);
  }

  /** One or two last bytes are followed by zero bits up to the end of their last character's value. */
  lemma TailHoldsBits(bytes: seq<Byte>) returns (a: int, b: int, c: int)
    requires 1 <= |bytes| <= 2
    ensures var t, x: int := Digits(bytes), bytes[0];
            && |t| == |bytes| + 1 && StandsFor(t[0], a) && StandsFor(t[1], b)
            && if |bytes| == 1 then a * 64 + b == x * 16
               else var y: int := bytes[1]; StandsFor(t[2], c) && (a * 64 + b) * 64 + c == (x * 256 + y) * 4
  {
    var t := Digits(bytes);
    a, c := bytes[0] / 4, 0;
    if |bytes| == 1 {
      b := bytes[0] % 4 * 16;
    } else {
      b, c := bytes[0] % 4 * 16 + bytes[1] / 16, bytes[1] % 16 * 4;
      DigitStandsFor(t[2], c);
    }
    DigitStandsFor(t[0], a);
    DigitStandsFor(t[1], b);
  }

  // ----- round trip ------------------------------------------------------------------------

  lemma {:induction false} DigitsHaveNoPad(bytes: seq<Byte>)
    ensures forall i :: 0 <= i < |Digits(bytes)| ==> Digits(bytes)[i] != PAD && Digits(bytes)[i] < 128
    ensures |Digits(bytes)| == (4 * |bytes| + 2) / 3
    decreases |bytes|
  {
    if |bytes| >= 3 { DigitsHaveNoPad(bytes[3..]); }
  }

  lemma {:induction false} StripRemovesPads(text: seq<int>, n: nat)
    requires text != [] ==> text[|text| - 1] != PAD
    ensures StripPads(text + Pads(n)) == text
    decreases n
  {
    if n == 0 {
      assert text + Pads(0) == text;
    } else {
      StripRemovesPads(text, n - 1);
      assert (text + Pads(n))[..|text| + n - 1] == text + Pads(n - 1);
    }
  }

  /** Dropping the padding leaves the digits, and filling up by length restores exactly what was dropped. */
  lemma PaddingIsRestored(bytes: seq<Byte>)
    ensures Unpadded(bytes) == Digits(bytes)
    ensures Padded(Unpadded(bytes)) == Encoded(bytes)
    ensures |Unpadded(bytes)| == (4 * |bytes| + 2) / 3
  {
    DigitsHaveNoPad(bytes);
    Refilled(bytes, Digits(bytes), |bytes|);
  }

  lemma Refilled(bytes: seq<Byte>, text: seq<int>, n: nat)
    requires n == |bytes| && text == Digits(bytes) && |text| == (4 * n + 2) / 3
    requires forall i :: 0 <= i < |text| ==> text[i] != PAD
    ensures Unpadded(bytes) == text && Padded(Unpadded(bytes)) == Encoded(bytes)
  {
    FillsUp(n, |text|);
    RefilledAs(text, (3 - n % 3) % 3);
  }

  lemma RefilledAs(text: seq<int>, n: nat)
    requires (text != [] ==> text[|text| - 1] != PAD) && n == (4 - |text| % 4) % 4
    ensures StripPads(text + Pads(n)) == text && Padded(text) == text + Pads(n)
  {
    StripRemovesPads(text, n);
  }

  lemma FillsUp(n: nat, length: nat)
    requires length == (4 * n + 2) / 3
    ensures (4 - length % 4) % 4 == (3 - n % 3) % 3
  {
    var q, r := n / 3, n % 3;
    assert n == 3 * q + r;
    assert length == 4 * q + (if r == 0 then 0 else r + 1);
  }

  /** One digit moves the decoder on. */
  lemma ReadDigit(text: seq<int>, quad: int, left: int, v: int)
    requires 0 <= quad < 4 && 0 <= left && text != [] && Value(text[0]) == Some(v) && 0 <= v < 64
    requires (quad == 1 ==> left < 64) && (quad == 2 ==> left < 16) && (quad == 3 ==> left < 4)
    ensures Read(text, quad, left, 0) ==
            if quad == 0 then Read(text[1..], 1, v, 0)
            else if quad == 1 then Put(left * 4 + v / 16, Read(text[1..], 2, v % 16, 0))
            else if quad == 2 then Put(left * 16 + v / 4, Read(text[1..], 3, v % 4, 0))
            else Put(left * 64 + v, Read(text[1..], 0, 0, 0))
  {
  }

  /** The first two digits of a quadruple carry a byte and four bits. */
  lemma ReadTwoDigits(text: seq<int>, a: Byte, rest: int)
    requires |text| >= 2 && 0 <= rest < 16
    requires text[0] == Digit(a / 4) && text[1] == Digit(a % 4 * 16 + rest)
    ensures Read(text, 0, 0, 0) == Put(a, Read(text[2..], 2, rest, 0))
  {
    ReadDigit(text, 0, 0, a / 4);
    ReadDigit(text[1..], 1, a / 4, a % 4 * 16 + rest);
    assert text[1..][1..] == text[2..];
    assert (a % 4 * 16 + rest) / 16 == a % 4 && (a % 4 * 16 + rest) % 16 == rest;
  }

  /** A third digit completes another byte and carries two bits. */
  lemma ReadThirdDigit(text: seq<int>, b: Byte, rest: int)
    requires text != [] && 0 <= rest < 4 && text[0] == Digit(b % 16 * 4 + rest)
    ensures Read(text, 2, b / 16, 0) == Put(b, Read(text[1..], 3, rest, 0))
  {
    ReadDigit(text, 2, b / 16, b % 16 * 4 + rest);
    assert (b % 16 * 4 + rest) / 4 == b % 16 && (b % 16 * 4 + rest) % 4 == rest;
  }

  lemma ReadFourthDigit(text: seq<int>, c: Byte)
    requires text != [] && text[0] == Digit(c % 64)
    ensures Read(text, 3, c / 64, 0) == Put(c, Read(text[1..], 0, 0, 0))
  {
    ReadDigit(text, 3, c / 64, c % 64);
  }

  lemma ReadTwoPads(text: seq<int>)
    requires text == [PAD, PAD]
    ensures Read(text, 2, 0, 0) == Some([])
  {
    assert Read(text[1..], 2, 0, 1) == Some([]);
  }

  lemma ReadQuad(text: seq<int>, a: Byte, b: Byte, c: Byte)
    requires |text| >= 4 && text[0] == Digit(a / 4) && text[1] == Digit(a % 4 * 16 + b / 16)
    requires text[2] == Digit(b % 16 * 4 + c / 64) && text[3] == Digit(c % 64)
    ensures Read(text, 0, 0, 0) == Put(a, Put(b, Put(c, Read(text[4..], 0, 0, 0))))
  {
    ReadTwoDigits(text, a, b / 16);
    ReadThirdDigit(text[2..], b, c / 64);
    ReadFourthDigit(text[2..][1..], c);
    assert text[2..][1..][1..] == text[4..];
  }

  /** Decoding an encoding gives the bytes back. */
  lemma {:induction false} DecodesEncoded(bytes: seq<Byte>)
    ensures Decoded(Encoded(bytes)) == Some(bytes)
    decreases |bytes|
  {
    if |bytes| == 0 {
      assert Encoded(bytes) == [];
    } else if |bytes| == 1 {
      DecodesOne(bytes);
    } else if |bytes| == 2 {
      DecodesTwo(bytes);
    } else {
      DecodesQuad(bytes);
      DecodesEncoded(bytes[3..]);
      assert bytes == [bytes[0]] + ([bytes[1]] + ([bytes[2]] + bytes[3..]));
    }
  }

  lemma DecodesOne(bytes: seq<Byte>)
    requires |bytes| == 1
    ensures Decoded(Encoded(bytes)) == Some(bytes)
  {
    var text := Encoded(bytes);
    assert text == [Digit(bytes[0] / 4), Digit(bytes[0] % 4 * 16), PAD, PAD];
    ReadTwoDigits(text, bytes[0], 0);
    assert text[2..] == [PAD, PAD];
    ReadTwoPads(text[2..]);
    assert [bytes[0]] + [] == bytes;
  }

  lemma DecodesTwo(bytes: seq<Byte>)
    requires |bytes| == 2
    ensures Decoded(Encoded(bytes)) == Some(bytes)
  {
    var text := Encoded(bytes);
    assert text == [Digit(bytes[0] / 4), Digit(bytes[0] % 4 * 16 + bytes[1] / 16), Digit(bytes[1] % 16 * 4), PAD];
    ReadTwoDigits(text, bytes[0], bytes[1] / 16);
    ReadThirdDigit(text[2..], bytes[1], 0);
    assert text[2..][1..] == [PAD];
    assert Read([PAD], 3, 0, 0) == Some([]);
    assert [bytes[0]] + ([bytes[1]] + []) == bytes;
  }

  lemma DecodesQuad(bytes: seq<Byte>)
    requires |bytes| >= 3
    ensures Decoded(Encoded(bytes)) == Put(bytes[0], Put(bytes[1], Put(bytes[2], Decoded(Encoded(bytes[3..])))))
  {
    EncodedQuad(bytes);
    ReadQuad(Encoded(bytes), bytes[0], bytes[1], bytes[2]);
  }

  lemma EncodedQuad(bytes: seq<Byte>)
    requires |bytes| >= 3
    ensures var a, b, c, text := bytes[0], bytes[1], bytes[2], Encoded(bytes);
            && |text| >= 4 && text[4..] == Encoded(bytes[3..])
            && text[0] == Digit(a / 4) && text[1] == Digit(a % 4 * 16 + b / 16)
            && text[2] == Digit(b % 16 * 4 + c / 64) && text[3] == Digit(c % 64)
  {
    assert |bytes[3..]| % 3 == |bytes| % 3;
    assert Encoded(bytes)[4..] == Encoded(bytes[3..]);
  }

  /** The unpadded text, filled up again, decodes to the bytes. */
  lemma RoundTrip(bytes: seq<Byte>)
    ensures Decoded(Padded(Unpadded(bytes))) == Some(bytes)
  {
    PaddingIsRestored(bytes);
    DecodesEncoded(bytes);
  }
}
