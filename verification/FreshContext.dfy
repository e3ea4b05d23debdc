/**
 * The context token (war_room_actions.py): the canonical payload text in unpadded base64url, a dot, and the payload's
 * HMAC in hexadecimal. About the HMAC nothing is assumed.
 */
module FreshContext {
  import opened Wrappers
  import opened Base64

  const DOT := '.' as int

  function EncodeToken(raw: seq<Byte>, mac: seq<Byte> -> seq<int>): seq<int> { Unpadded(raw) + [DOT] + mac(raw) }

  /** The place of the first dot. */
  function DotAt(token: seq<int>): Option<nat> {
    if token == [] then None
    else if token[0] == DOT then Some(0)
    else
      var rest := DotAt(token[1..]);
      if rest.Some? then Some(rest.value + 1) else None
  }

  lemma {:induction false} DotAtIsFirst(token: seq<int>)
    ensures DotAt(token).Some? ==> DotAt(token).value < |token| && token[DotAt(token).value] == DOT
  {
    if token != [] && token[0] != DOT { DotAtIsFirst(token[1..]); }
  }

  /** The payload of a token whose signature fits; `None` is the stale-context answer. */
  function DecodeToken(token: seq<int>, mac: seq<Byte> -> seq<int>): Option<seq<Byte>> {
    match DotAt(token)
    case None => None
    case Some(dot) =>
      DotAtIsFirst(token);
      match Decoded(Padded(token[..dot]))
      case None => None
      case Some(raw) => if token[dot + 1..] == mac(raw) then Some(raw) else None
  }

  lemma {:induction false} DotAfter(text: seq<int>, rest: seq<int>)
    requires forall i :: 0 <= i < |text| ==> text[i] != DOT
    ensures DotAt(text + [DOT] + rest) == Some(|text|)
  {
    if text == [] {
      assert (text + [DOT] + rest)[0] == DOT;
    } else {
      DotAfter(text[1..], rest);
      assert (text + [DOT] + rest)[1..] == text[1..] + [DOT] + rest;
    }
  }

  lemma {:induction false} DigitsHaveNoDot(bytes: seq<Byte>)
    ensures forall i :: 0 <= i < |Digits(bytes)| ==> Digits(bytes)[i] != DOT
    decreases |bytes|
  {
    if |bytes| >= 3 { DigitsHaveNoDot(bytes[3..]); }
  }

  /** An issued token gives its payload back. */
  lemma TokenRoundTrip(raw: seq<Byte>, mac: seq<Byte> -> seq<int>)
    ensures DecodeToken(EncodeToken(raw, mac), mac) == Some(raw)
  {
    var text := Unpadded(raw);
    PaddingIsRestored(raw);
    DigitsHaveNoDot(raw);
    DotAfter(text, mac(raw));
    assert EncodeToken(raw, mac)[..|text|] == text && EncodeToken(raw, mac)[|text| + 1..] == mac(raw);
    RoundTrip(raw);
  }

  /** A token is accepted for a payload exactly when what follows its first dot is the payload's own HMAC. */
  lemma AcceptedIff(token: seq<int>, mac: seq<Byte> -> seq<int>, raw: seq<Byte>)
    ensures DecodeToken(token, mac) == Some(raw) <==>
            exists text: seq<int> :: DOT !in text && token == text + [DOT] + mac(raw)
              && Decoded(Padded(text)) == Some(raw)
  {
    if DecodeToken(token, mac) == Some(raw) {
      DotAtIsFirst(token);
      var dot := DotAt(token).value;
      NoDotBefore(token);
      assert token == token[..dot] + [DOT] + mac(raw);
    }
    if text: seq<int> :| DOT !in text && token == text + [DOT] + mac(raw) && Decoded(Padded(text)) == Some(raw) {
      DotAfter(text, mac(raw));
      assert token[..|text|] == text && token[|text| + 1..] == mac(raw);
    }
  }

  lemma {:induction false} NoDotBefore(token: seq<int>)
    requires DotAt(token).Some?
    ensures DotAt(token).value < |token| && DOT !in token[..DotAt(token).value]
  {
    DotAtIsFirst(token);
    if token[0] != DOT {
      NoDotBefore(token[1..]);
      var dot := DotAt(token).value;
      assert token[..dot] == [token[0]] + token[1..][..dot - 1];
    }
  }
}
