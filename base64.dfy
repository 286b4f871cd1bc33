/**
 * Base64 as defined in section 4 of RFC 4648: the standard alphabet
 * `A-Z a-z 0-9 + /` with `=` padding. Encoded text is given as the bytes
 * of its ASCII characters, which is what Python's `base64.b64encode`
 * returns and `base64.b64decode` reads.
 */
module Base64 {
  import opened Wrappers
  import opened Unicode

  const PAD: byte := 61  // '='

  /** The character, as an ASCII byte, that stands for the 6-bit value `v`. */
  function Digit(v: nat): (b: byte)
    requires v < 64
    ensures b < 0x80 && b != PAD
  {
    if v < 26 then 65 + v           // 'A'..'Z'
    else if v < 52 then 97 + v - 26 // 'a'..'z'
    else if v < 62 then 48 + v - 52 // '0'..'9'
    else if v == 62 then 43         // '+'
    else 47                         // '/'
  }

  /** The 6-bit value of an alphabet character, `None` for any other byte. */
  function DigitValue(b: byte): (r: Option<nat>)
    ensures r.Some? ==> r.value < 64 && Digit(r.value) == b
  {
    if 65 <= b <= 90 then Some(b - 65)
    else if 97 <= b <= 122 then Some(b - 97 + 26)
    else if 48 <= b <= 57 then Some(b - 48 + 52)
    else if b == 43 then Some(62)
    else if b == 47 then Some(63)
    else None
  }

  lemma DigitValueOfDigit(v: nat)
    requires v < 64
    ensures DigitValue(Digit(v)) == Some(v)
  {
  }

  /** The characters an encoding is made of: the alphabet and the pad character. */
  predicate IsEncodingChar(b: byte) {
    DigitValue(b).Some? || b == PAD
  }

  /** Three bytes as four characters. */
  function EncodeGroup(b0: byte, b1: byte, b2: byte): seq<byte> {
    [Digit(b0 / 4), Digit(b0 % 4 * 16 + b1 / 16), Digit(b1 % 16 * 4 + b2 / 64), Digit(b2 % 64)]
  }

  /** `base64.b64encode(bs)`. */
  function Encode(bs: seq<byte>): (r: seq<byte>)
    ensures |r| == (|bs| + 2) / 3 * 4
    ensures forall k :: 0 <= k < |r| ==> IsEncodingChar(r[k])
  {
    if |bs| >= 3 then EncodeGroup(bs[0], bs[1], bs[2]) + Encode(bs[3..])
    else if |bs| == 2 then [Digit(bs[0] / 4), Digit(bs[0] % 4 * 16 + bs[1] / 16), Digit(bs[1] % 16 * 4), PAD]
    else if |bs| == 1 then [Digit(bs[0] / 4), Digit(bs[0] % 4 * 16), PAD, PAD]
    else []
  }

  /**
   * `base64.b64decode(cs)` on text made only of alphabet characters and
   * final padding; `None` where Python raises `binascii.Error`. Like
   * Python, the unused low bits of the last character are ignored.
   */
  function Decode(cs: seq<byte>): Option<seq<byte>>
  {
    if cs == [] then Some([])
    else if |cs| < 4 then None
    else if |cs| == 4 && cs[2] == PAD && cs[3] == PAD then
      match (DigitValue(cs[0]), DigitValue(cs[1]))
      case (Some(v0), Some(v1)) => Some([v0 * 4 + v1 / 16])
      case _ => None
    else if |cs| == 4 && cs[3] == PAD then
      match (DigitValue(cs[0]), DigitValue(cs[1]), DigitValue(cs[2]))
      case (Some(v0), Some(v1), Some(v2)) => Some([v0 * 4 + v1 / 16, v1 % 16 * 16 + v2 / 4])
      case _ => None
    else
      match (DigitValue(cs[0]), DigitValue(cs[1]), DigitValue(cs[2]), DigitValue(cs[3]))
      case (Some(v0), Some(v1), Some(v2), Some(v3)) =>
        (match Decode(cs[4..])
         case Some(rest) => Some([v0 * 4 + v1 / 16, v1 % 16 * 16 + v2 / 4, v2 % 4 * 64 + v3] + rest)
         case None => None)
      case _ => None
  }

  /** The bit arithmetic of a group: the 6-bit values put back together give the bytes. */
  lemma GroupBits(b0: byte, b1: byte, b2: byte)
    ensures var v0, v1, v2, v3 := b0 / 4, b0 % 4 * 16 + b1 / 16, b1 % 16 * 4 + b2 / 64, b2 % 64;
      v0 * 4 + v1 / 16 == b0 && v1 % 16 * 16 + v2 / 4 == b1 && v2 % 4 * 64 + v3 == b2
  {
    var v1, v2 := b0 % 4 * 16 + b1 / 16, b1 % 16 * 4 + b2 / 64;
    assert v1 / 16 == b0 % 4 && v1 % 16 == b1 / 16;
    assert v2 / 4 == b1 % 16 && v2 % 4 == b2 / 64;
  }

  /** Decoding four alphabet characters and the text after them. */
  lemma DecodeStep(cs: seq<byte>, v0: nat, v1: nat, v2: nat, v3: nat, rest: seq<byte>)
    requires |cs| >= 4 && cs[3] != PAD
    requires DigitValue(cs[0]) == Some(v0) && DigitValue(cs[1]) == Some(v1)
    requires DigitValue(cs[2]) == Some(v2) && DigitValue(cs[3]) == Some(v3)
    requires Decode(cs[4..]) == Some(rest)
    ensures Decode(cs) == Some([v0 * 4 + v1 / 16, v1 % 16 * 16 + v2 / 4, v2 % 4 * 64 + v3] + rest)
  {
  }

  /** Decoding one encoded group of three bytes, with whatever follows it. */
  lemma DecodeGroup(b0: byte, b1: byte, b2: byte, rest: seq<byte>)
    requires Decode(Encode(rest)) == Some(rest)
    ensures Decode(EncodeGroup(b0, b1, b2) + Encode(rest)) == Some([b0, b1, b2] + rest)
  {
    var cs := EncodeGroup(b0, b1, b2) + Encode(rest);
    assert cs[..4] == EncodeGroup(b0, b1, b2) && cs[4..] == Encode(rest);
    DecodeFront(cs, b0, b1, b2, rest);
  }

  /** Text that starts with the encoding of three bytes decodes to them and to what the rest decodes to. */
  lemma DecodeFront(cs: seq<byte>, b0: byte, b1: byte, b2: byte, rest: seq<byte>)
    requires |cs| >= 4 && cs[..4] == EncodeGroup(b0, b1, b2) && Decode(cs[4..]) == Some(rest)
    ensures Decode(cs) == Some([b0, b1, b2] + rest)
  {
    var v0, v1, v2, v3 := b0 / 4, b0 % 4 * 16 + b1 / 16, b1 % 16 * 4 + b2 / 64, b2 % 64;
    DigitValueOfDigit(v0);
    DigitValueOfDigit(v1);
    DigitValueOfDigit(v2);
    DigitValueOfDigit(v3);
    assert cs[0] == Digit(v0) && cs[1] == Digit(v1) && cs[2] == Digit(v2) && cs[3] == Digit(v3);
    GroupBits(b0, b1, b2);
    var w := [v0 * 4 + v1 / 16, v1 % 16 * 16 + v2 / 4, v2 % 4 * 64 + v3];
    assert w[0] == b0 && w[1] == b1 && w[2] == b2;
    assert w == [b0, b1, b2];
    DecodeStep(cs, v0, v1, v2, v3, rest);
  }

  /** Base64 decoding inverts base64 encoding. */
  lemma {:induction false} RoundTrip(bs: seq<byte>)
    ensures Decode(Encode(bs)) == Some(bs)
  {
    if |bs| >= 3 {
      RoundTrip(bs[3..]);
      DecodeGroup(bs[0], bs[1], bs[2], bs[3..]);
      assert bs == [bs[0], bs[1], bs[2]] + bs[3..];
    } else if |bs| == 2 {
      RoundTripTwo(bs[0], bs[1]);
      assert bs == [bs[0], bs[1]];
    } else if |bs| == 1 {
      RoundTripOne(bs[0]);
      assert bs == [bs[0]];
    }
  }

  /** Two bytes: three characters and one pad character. */
  lemma RoundTripTwo(b0: byte, b1: byte)
    ensures Decode(Encode([b0, b1])) == Some([b0, b1])
  {
    var v0, v1, v2 := b0 / 4, b0 % 4 * 16 + b1 / 16, b1 % 16 * 4;
    DigitValueOfDigit(v0);
    DigitValueOfDigit(v1);
    DigitValueOfDigit(v2);
    GroupBits(b0, b1, 0);
    var cs := Encode([b0, b1]);
    assert cs == [Digit(v0), Digit(v1), Digit(v2), PAD];
    assert Decode(cs) == Some([v0 * 4 + v1 / 16, v1 % 16 * 16 + v2 / 4]);
  }

  /** One byte: two characters and two pad characters. */
  lemma RoundTripOne(b0: byte)
    ensures Decode(Encode([b0])) == Some([b0])
  {
    var v0, v1 := b0 / 4, b0 % 4 * 16;
    DigitValueOfDigit(v0);
    DigitValueOfDigit(v1);
    GroupBits(b0, 0, 0);
    var cs := Encode([b0]);
    assert cs == [Digit(v0), Digit(v1), PAD, PAD];
    assert Decode(cs) == Some([v0 * 4 + v1 / 16]);
  }

  /** Encoded text is ASCII and holds neither '@' (64) nor '|' (124). */
  lemma EncodingChars(bs: seq<byte>)
    ensures IsAscii(Encode(bs))
    ensures 64 !in Encode(bs) && 124 !in Encode(bs)
  {
    var r := Encode(bs);
    forall k | 0 <= k < |r|
      ensures r[k] < 0x80 && r[k] != 64 && r[k] != 124
    {
      assert IsEncodingChar(r[k]);
    }
  }
}
