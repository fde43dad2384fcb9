/** Strict UTF-8 (section 3 of RFC 3629) on Unicode scalar values, and decoding that ignores errors. */
module Utf8 {
  import opened Wrappers

  type Byte = x: int | 0 <= x < 256

  type Scalar = x: int | 0 <= x < 0xD800 || 0xE000 <= x < 0x110000

  type Bytes = seq<Byte>
  type Text = seq<Scalar>

  function EncodeScalar(c: Scalar): (r: Bytes)
    ensures 1 <= |r| <= 4
  {
    if c < 0x80 then [c]
    else if c < 0x800 then [0xC0 + c / 0x40, 0x80 + c % 0x40]
    else if c < 0x10000 then [0xE0 + c / 0x40 / 0x40, 0x80 + c / 0x40 % 0x40, 0x80 + c % 0x40]
    else [0xF0 + c / 0x40 / 0x40 / 0x40, 0x80 + c / 0x40 / 0x40 % 0x40, 0x80 + c / 0x40 % 0x40, 0x80 + c % 0x40]
  }

  function Encode(text: Text): Bytes {
    if text == [] then [] else EncodeScalar(text[0]) + Encode(text[1..])
  }

  /** How many bytes a sequence takes that starts with this byte; 0 if none does. */
  function Length(lead: Byte): nat {
    if lead < 0x80 then 1
    else if lead < 0xC2 then 0
    else if lead < 0xE0 then 2
    else if lead < 0xF0 then 3
    else if lead < 0xF5 then 4
    else 0
  }

  /** The second byte excludes overlong forms, surrogates and values above 0x10FFFF. */
  predicate Follows(lead: Byte, second: Byte) {
    && 0x80 <= second < 0xC0
    && (lead == 0xE0 ==> second >= 0xA0) && (lead == 0xED ==> second < 0xA0)
    && (lead == 0xF0 ==> second >= 0x90) && (lead == 0xF4 ==> second < 0x90)
  }

  predicate Continues(b: Byte) {
    0x80 <= b < 0xC0
  }

  /** How many of the first bytes begin a well-formed sequence: 0, or up to its length. */
  function Valid(bytes: Bytes): (n: nat)
    ensures n <= |bytes| && n <= 4
    ensures bytes != [] ==> n <= Length(bytes[0])
  {
    if bytes == [] || Length(bytes[0]) == 0 then 0
    else if Length(bytes[0]) == 1 || |bytes| == 1 || !Follows(bytes[0], bytes[1]) then 1
    else if Length(bytes[0]) == 2 || |bytes| == 2 || !Continues(bytes[2]) then 2
    else if Length(bytes[0]) == 3 || |bytes| == 3 || !Continues(bytes[3]) then 3
    else 4
  }

  /** The bytes start with a whole well-formed sequence. */
  predicate Complete(bytes: Bytes) {
    bytes != [] && Length(bytes[0]) > 0 && Valid(bytes) == Length(bytes[0])
  }

  /** The value of payload bits grouped by six. */
  function Two(high: int, low: int): int {
    high * 0x40 + low
  }

  function Three(high: int, middle: int, low: int): int {
    Two(Two(high, middle), low)
  }

  function Four(high: int, upper: int, middle: int, low: int): int {
    Two(Three(high, upper, middle), low)
  }

  function Payload(bytes: Bytes, i: nat): int
    requires i < |bytes|
  {
    var b: int := bytes[i];
    b - 0x80
  }

  function First(bytes: Bytes): Scalar
    requires Complete(bytes)
  {
    var lead: int := bytes[0];
    var n := Length(bytes[0]);
    if n == 1 then lead
    else if n == 2 then Two(lead - 0xC0, Payload(bytes, 1))
    else if n == 3 then Three(lead - 0xE0, Payload(bytes, 1), Payload(bytes, 2))
    else Four(lead - 0xF0, Payload(bytes, 1), Payload(bytes, 2), Payload(bytes, 3))
  }

  /** `bytes.decode("utf-8")`; None stands for UnicodeDecodeError. */
  function Decode(bytes: Bytes): Option<Text> {
    if bytes == [] then Some([])
    else if !Complete(bytes) then None
    else
      var rest := Decode(bytes[Length(bytes[0])..]);
      if rest.None? then None else Some([First(bytes)] + rest.value)
  }

  /** `bytes.decode("utf-8", errors="ignore")`: an ill-formed sequence is skipped as far as it went well. */
  function DecodeIgnoring(bytes: Bytes): Text {
    if bytes == [] then []
    else if Complete(bytes) then [First(bytes)] + DecodeIgnoring(bytes[Length(bytes[0])..])
    else DecodeIgnoring(bytes[if Valid(bytes) == 0 then 1 else Valid(bytes)..])
  }

  // One scalar value

  lemma Divides(c: int, high: int, low: int)
    requires c == Two(high, low) && 0 <= low < 0x40
    ensures c / 0x40 == high && c % 0x40 == low
  {
  }

  lemma EncodedScalar(c: Scalar, rest: Bytes)
    ensures
      var bytes := EncodeScalar(c) + rest;
      && Complete(bytes) && Length(bytes[0]) == |EncodeScalar(c)| && First(bytes) == c
      && bytes[Length(bytes[0])..] == rest
  {
    var bytes := EncodeScalar(c) + rest;
    assert bytes[|EncodeScalar(c)|..] == rest;
    var q := c / 0x40;
    var h := q / 0x40;
    assert c == Two(q, c % 0x40) && q == Two(h, q % 0x40) && h == Two(h / 0x40, h % 0x40);
    if c < 0x80 {
    } else if c < 0x800 {
      assert Payload(bytes, 1) == c % 0x40;
    } else if c < 0x10000 {
      assert Payload(bytes, 1) == q % 0x40 && Payload(bytes, 2) == c % 0x40;
    } else {
      assert Payload(bytes, 1) == h % 0x40 && Payload(bytes, 2) == q % 0x40 && Payload(bytes, 3) == c % 0x40;
    }
  }

  lemma DecodedScalar(bytes: Bytes)
    requires Complete(bytes)
    ensures EncodeScalar(First(bytes)) == bytes[..Length(bytes[0])]
  {
    var n := Length(bytes[0]);
    var lead: int := bytes[0];
    if n == 2 {
      Divides(First(bytes), lead - 0xC0, Payload(bytes, 1));
    } else if n == 3 {
      Divides(First(bytes), Two(lead - 0xE0, Payload(bytes, 1)), Payload(bytes, 2));
      Divides(Two(lead - 0xE0, Payload(bytes, 1)), lead - 0xE0, Payload(bytes, 1));
    } else if n == 4 {
      Divides(First(bytes), Three(lead - 0xF0, Payload(bytes, 1), Payload(bytes, 2)), Payload(bytes, 3));
      Divides(Three(lead - 0xF0, Payload(bytes, 1), Payload(bytes, 2)), Two(lead - 0xF0, Payload(bytes, 1)), Payload(bytes, 2));
      Divides(Two(lead - 0xF0, Payload(bytes, 1)), lead - 0xF0, Payload(bytes, 1));
    }
  }

  /** A sequence cut short is not complete, and all of it began well. */
  lemma CutScalar(c: Scalar, n: nat)
    requires 0 < n < |EncodeScalar(c)|
    ensures !Complete(EncodeScalar(c)[..n]) && Valid(EncodeScalar(c)[..n]) == n
  {
    EncodedScalar(c, []);
    assert EncodeScalar(c) + [] == EncodeScalar(c);
  }

  // Whole texts

  lemma {:induction false} DecodeEncode(text: Text)
    ensures Decode(Encode(text)) == Some(text)
  {
    hide EncodeScalar, Complete, First, Length;
    if text != [] {
      DecodeEncode(text[1..]);
      EncodedScalar(text[0], Encode(text[1..]));
      assert [text[0]] + text[1..] == text;
    }
  }

  /** Decoding is strict: only the encoding of a text is accepted. */
  lemma {:induction false} EncodeDecode(bytes: Bytes)
    requires Decode(bytes).Some?
    ensures Encode(Decode(bytes).value) == bytes
    decreases |bytes|
  {
    hide EncodeScalar, First, Valid;
    if bytes != [] {
      var n := Length(bytes[0]);
      EncodeDecode(bytes[n..]);
      DecodedScalar(bytes);
      assert Decode(bytes).value[1..] == Decode(bytes[n..]).value;
      assert bytes[..n] + bytes[n..] == bytes;
    }
  }
}
