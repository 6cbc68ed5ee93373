/** What the reader takes for text: exactly the encodings of sequences of Unicode scalar
    values (D92 and Table 3-6 of the Unicode Standard). */
module Utf8 {
  import opened Frames

  /** A Unicode scalar value: a code point that is no surrogate. */
  type Scalar = c: int | 0 <= c < 0xD800 || 0xE000 <= c < 0x11_0000

  function EncodeScalar(c: Scalar): Bytes {
    if c < 0x80 then [c]
    else if c < 0x800 then [0xC0 + c / 0x40, 0x80 + c % 0x40]
    else if c < 0x1_0000 then [0xE0 + c / 0x1000, 0x80 + c / 0x40 % 0x40, 0x80 + c % 0x40]
    else [0xF0 + c / 0x4_0000, 0x80 + c / 0x1000 % 0x40, 0x80 + c / 0x40 % 0x40, 0x80 + c % 0x40]
  }

  function EncodeAll(text: seq<Scalar>): Bytes {
    if text == [] then [] else EncodeScalar(text[0]) + EncodeAll(text[1..])
  }

  /** The front of the bytes is the encoding of `c`. */
  predicate StartsWith(b: Bytes, c: Scalar) {
    EncodeScalar(c) <= b
  }

  lemma ScalarIsRead(b: Bytes, c: Scalar)
    requires StartsWith(b, c)
    ensures b != [] && CharWidth(b) == |EncodeScalar(c)|
  {
    var e := EncodeScalar(c);
    assert forall k :: 0 <= k < |e| ==> b[k] == e[k];
  }

  function Continued(high: int, b: Byte): int { 0x40 * high + (b - 0x80) }

  lemma ContinuedDigits(high: nat, b: Byte)
    requires Continuation(b)
    ensures Continued(high, b) / 0x40 == high && 0x80 + Continued(high, b) % 0x40 == b
  {
  }

  lemma TwoRead(b: Bytes) returns (c: Scalar)
    requires b != [] && CharWidth(b) == 2
    ensures StartsWith(b, c)
  {
    c := Continued(b[0] - 0xC0, b[1]);
    ContinuedDigits(b[0] - 0xC0, b[1]);
    assert b[..2] == EncodeScalar(c);
  }

  lemma ThreeRead(b: Bytes) returns (c: Scalar)
    requires b != [] && CharWidth(b) == 3
    ensures StartsWith(b, c)
  {
    var first := Continued(b[0] - 0xE0, b[1]);
    ContinuedDigits(b[0] - 0xE0, b[1]);
    ContinuedDigits(first, b[2]);
    c := Continued(first, b[2]);
    assert c / 0x1000 == c / 0x40 / 0x40;
    assert b[..3] == EncodeScalar(c);
  }

  lemma FourRead(b: Bytes) returns (c: Scalar)
    requires b != [] && CharWidth(b) == 4
    ensures StartsWith(b, c)
  {
    var first := Continued(b[0] - 0xF0, b[1]);
    var second := Continued(first, b[2]);
    ContinuedDigits(b[0] - 0xF0, b[1]);
    ContinuedDigits(first, b[2]);
    ContinuedDigits(second, b[3]);
    c := Continued(second, b[3]);
    assert c / 0x1000 == c / 0x40 / 0x40 && c / 0x4_0000 == c / 0x1000 / 0x40;
    assert b[..4] == EncodeScalar(c);
  }

  lemma ReadIsScalar(b: Bytes) returns (c: Scalar)
    requires b != [] && CharWidth(b) > 0
    ensures StartsWith(b, c) && |EncodeScalar(c)| == CharWidth(b)
  {
    match CharWidth(b) {
      case 1 => c := b[0];
      case 2 => c := TwoRead(b);
      case 3 => c := ThreeRead(b);
      case _ => c := FourRead(b);
    }
    ScalarIsRead(b, c);
  }

  lemma {:induction false} EncodingIsValid(text: seq<Scalar>)
    ensures ValidUtf8(EncodeAll(text))
  {
    if text != [] {
      var b, w := EncodeAll(text), |EncodeScalar(text[0])|;
      EncodingIsValid(text[1..]);
      ScalarIsRead(b, text[0]);
      assert b[w..] == EncodeAll(text[1..]);
    }
  }

  lemma {:induction false} ValidIsEncoding(b: Bytes) returns (text: seq<Scalar>)
    requires ValidUtf8(b)
    ensures EncodeAll(text) == b
    decreases |b|
  {
    text := [];
    if b != [] {
      var c := ReadIsScalar(b);
      var rest := ValidIsEncoding(b[CharWidth(b)..]);
      text := [c] + rest;
      assert b == EncodeScalar(c) + b[CharWidth(b)..];
    }
  }

  /** Bytes are accepted as text exactly if they encode some sequence of scalar values. */
  lemma ValidIff(b: Bytes)
    ensures ValidUtf8(b) <==> exists text :: EncodeAll(text) == b
  {
    if ValidUtf8(b) { var text := ValidIsEncoding(b); }
    if text :| EncodeAll(text) == b { EncodingIsValid(text); }
  }
}
