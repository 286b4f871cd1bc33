/**
 * Bytes and the two text encodings the framework converts between:
 * UTF-8 as defined in section 3 of RFC 3629 (the encoder, and a decoder
 * that accepts exactly the well-formed sequences of the table in section 4)
 * and Latin-1, where every byte is the code point of the same value.
 */
module Unicode {
  import opened Wrappers

  type byte = x: int | 0 <= x < 256

  // ---------------------------------------------------------------------
  // UTF-8
  // ---------------------------------------------------------------------

  /** The UTF-8 encoding of one Unicode scalar value. */
  function Utf8EncodeChar(c: char): (bs: seq<byte>)
    ensures 1 <= |bs| <= 4
    ensures (|bs| == 1) == (c as int < 0x80)
    ensures |bs| == 1 ==> bs[0] == c as int
    ensures |bs| > 1 ==> forall k :: 0 <= k < |bs| ==> bs[k] >= 0x80
  {
    var n := c as int;
    if n < 0x80 then [n]
    else if n < 0x800 then [0xC0 + n / 64, 0x80 + n % 64]
    else if n < 0x10000 then [0xE0 + n / 64 / 64, 0x80 + n / 64 % 64, 0x80 + n % 64]
    else [0xF0 + n / 64 / 64 / 64, 0x80 + n / 64 / 64 % 64, 0x80 + n / 64 % 64, 0x80 + n % 64]
  }

  /** `s.encode("utf8")`. */
  function Utf8Encode(s: string): (bs: seq<byte>)
    ensures |bs| >= |s|
  {
    if s == [] then [] else Utf8EncodeChar(s[0]) + Utf8Encode(s[1..])
  }

  /** A continuation byte, `UTF8-tail` in RFC 3629. */
  predicate IsTail(b: byte) {
    0x80 <= b <= 0xBF
  }

  /** The range the second byte must lie in after lead byte `b0` (RFC 3629, section 4). */
  function SecondLow(b0: byte): byte {
    if b0 == 0xE0 then 0xA0 else if b0 == 0xF0 then 0x90 else 0x80
  }

  function SecondHigh(b0: byte): byte {
    if b0 == 0xED then 0x9F else if b0 == 0xF4 then 0x8F else 0xBF
  }

  /** The number of bytes a character starting with lead byte `b0` takes, or 0 for a byte that cannot start one. */
  function SequenceLength(b0: byte): nat {
    if b0 < 0x80 then 1
    else if 0xC2 <= b0 <= 0xDF then 2
    else if 0xE0 <= b0 <= 0xEF then 3
    else if 0xF0 <= b0 <= 0xF4 then 4
    else 0
  }

  /** The well-formed sequences of RFC 3629, section 4, of length `SequenceLength(bs[0])`. */
  predicate WellFormedPrefix(bs: seq<byte>)
    requires |bs| > 0
  {
    var len := SequenceLength(bs[0]);
    len > 0 && |bs| >= len
    && (len >= 2 ==> SecondLow(bs[0]) <= bs[1] <= SecondHigh(bs[0]))
    && (forall k :: 2 <= k < len ==> IsTail(bs[k]))
  }

  /** Decoding the first character of `bs`, with the number of bytes it takes. */
  function DecodeFirst(bs: seq<byte>): (r: Option<(char, nat)>)
    requires |bs| > 0
    ensures r.Some? <==> WellFormedPrefix(bs)
    ensures r.Some? ==> r.value.1 == SequenceLength(bs[0]) && 1 <= r.value.1 <= |bs|
  {
    if !WellFormedPrefix(bs) then None
    else
      var len := SequenceLength(bs[0]);
      var b0, b1 := bs[0] as int, if len >= 2 then bs[1] as int else 0;
      if len == 1 then Some((b0 as char, 1))
      else if len == 2 then Some((((b0 - 0xC0) * 64 + (b1 - 0x80)) as char, 2))
      else if len == 3 then
        assert IsTail(bs[2]);
        Some((((b0 - 0xE0) * 4096 + (b1 - 0x80) * 64 + (bs[2] as int - 0x80)) as char, 3))
      else
        assert IsTail(bs[2]) && IsTail(bs[3]);
        Some((((b0 - 0xF0) * 262144 + (b1 - 0x80) * 4096 + (bs[2] as int - 0x80) * 64 + (bs[3] as int - 0x80)) as char, 4))
  }

  /** `bs.decode("utf8")`: `None` where Python raises `UnicodeDecodeError`. */
  function Utf8Decode(bs: seq<byte>): Option<string>
    decreases |bs|
  {
    if bs == [] then Some([])
    else match DecodeFirst(bs)
      case None => None
      case Some((c, len)) =>
        match Utf8Decode(bs[len..])
        case None => None
        case Some(rest) => Some([c] + rest)
  }

  /** The decoder reads back the encoding of one character, whatever follows it. */
  lemma DecodeEncodedChar(c: char, rest: seq<byte>)
    ensures DecodeFirst(Utf8EncodeChar(c) + rest) == Some((c, |Utf8EncodeChar(c)|))
  {
    var bs := Utf8EncodeChar(c) + rest;
    var n := c as int;
    var q1, r0 := n / 64, n % 64;
    var q2, r1 := q1 / 64, q1 % 64;
    var q3, r2 := q2 / 64, q2 % 64;
    assert n == q1 * 64 + r0 && q1 == q2 * 64 + r1 && q2 == q3 * 64 + r2;
    if n >= 0x800 && n < 0x10000 {
      assert bs[0] == 0xE0 + q2 && bs[1] == 0x80 + r1 && bs[2] == 0x80 + r0;
      assert IsTail(bs[2]);
      assert WellFormedPrefix(bs);
    } else if n >= 0x10000 {
      assert bs[0] == 0xF0 + q3 && bs[1] == 0x80 + r2 && bs[2] == 0x80 + r1 && bs[3] == 0x80 + r0;
      assert IsTail(bs[2]) && IsTail(bs[3]);
      assert WellFormedPrefix(bs);
    }
  }

  /** UTF-8 decoding inverts UTF-8 encoding. */
  lemma {:induction false} Utf8RoundTrip(s: string)
    ensures Utf8Decode(Utf8Encode(s)) == Some(s)
  {
    if s != [] {
      var head := Utf8EncodeChar(s[0]);
      var bs := Utf8Encode(s);
      assert bs == head + Utf8Encode(s[1..]);
      DecodeEncodedChar(s[0], Utf8Encode(s[1..]));
      assert bs[|head|..] == Utf8Encode(s[1..]);
      Utf8RoundTrip(s[1..]);
      assert s == [s[0]] + s[1..];
    }
  }

  /** An ASCII character that `s` lacks has no byte in its UTF-8 encoding. */
  lemma {:induction false} Utf8EncodeLacksAscii(s: string, c: char)
    requires c as int < 0x80 && c !in s
    ensures (c as int) !in Utf8Encode(s)
  {
    if s != [] {
      assert c !in s[1..];
      Utf8EncodeLacksAscii(s[1..], c);
      var head := Utf8EncodeChar(s[0]);
      assert c as int !in head by {
        if |head| == 1 {
          assert head[0] == s[0] as int;
        }
      }
    }
  }

  // ---------------------------------------------------------------------
  // ASCII
  // ---------------------------------------------------------------------

  predicate IsAscii(bs: seq<byte>) {
    forall k :: 0 <= k < |bs| ==> bs[k] < 0x80
  }

  /** The characters of ASCII bytes. */
  function AsciiChars(bs: seq<byte>): (s: string)
    requires IsAscii(bs)
    ensures |s| == |bs| && forall k :: 0 <= k < |bs| ==> s[k] as int == bs[k]
  {
    seq(|bs|, k requires 0 <= k < |bs| => bs[k] as char)
  }

  /** ASCII bytes decode, as UTF-8, to their characters. */
  lemma {:induction false} AsciiUtf8Decode(bs: seq<byte>)
    requires IsAscii(bs)
    ensures Utf8Decode(bs) == Some(AsciiChars(bs))
  {
    if bs != [] {
      DecodeFirstAscii(bs);
      assert IsAscii(bs[1..]);
      AsciiUtf8Decode(bs[1..]);
      assert AsciiChars(bs) == [bs[0] as char] + AsciiChars(bs[1..]);
    }
  }

  /** An ASCII first byte is a character on its own. */
  lemma DecodeFirstAscii(bs: seq<byte>)
    requires |bs| > 0 && bs[0] < 0x80
    ensures DecodeFirst(bs) == Some((bs[0] as char, 1))
  {
    assert SequenceLength(bs[0]) == 1;
  }

  /** The characters of ASCII bytes encode, as UTF-8, to those bytes. */
  lemma {:induction false} AsciiUtf8Encode(bs: seq<byte>)
    requires IsAscii(bs)
    ensures Utf8Encode(AsciiChars(bs)) == bs
  {
    if bs != [] {
      var s := AsciiChars(bs);
      assert IsAscii(bs[1..]);
      AsciiUtf8Encode(bs[1..]);
      assert s[1..] == AsciiChars(bs[1..]);
      assert Utf8EncodeChar(s[0]) == [bs[0]];
      assert bs == [bs[0]] + bs[1..];
    }
  }

  lemma {:induction false} Utf8EncodeConcat(a: string, b: string)
    ensures Utf8Encode(a + b) == Utf8Encode(a) + Utf8Encode(b)
  {
    if a == [] {
      assert a + b == b;
    } else {
      assert (a + b)[1..] == a[1..] + b;
      Utf8EncodeConcat(a[1..], b);
    }
  }

  // ---------------------------------------------------------------------
  // Latin-1
  // ---------------------------------------------------------------------

  /** `bs.decode("latin1")`: each byte becomes the code point of the same value. */
  function Latin1Decode(bs: seq<byte>): (s: string)
    ensures |s| == |bs| && forall k :: 0 <= k < |bs| ==> s[k] as int == bs[k]
  {
    seq(|bs|, k requires 0 <= k < |bs| => bs[k] as char)
  }

  /** `s.encode("latin1")`: `None` where Python raises `UnicodeEncodeError` (a code point above 255). */
  function Latin1Encode(s: string): (r: Option<seq<byte>>)
    ensures r.Some? <==> forall k :: 0 <= k < |s| ==> s[k] as int < 256
    ensures r.Some? ==> |r.value| == |s| && forall k :: 0 <= k < |s| ==> r.value[k] == s[k] as int
  {
    if forall k :: 0 <= k < |s| ==> s[k] as int < 256 then
      Some(seq(|s|, k requires 0 <= k < |s| => s[k] as int as byte))
    else None
  }

  /** `utf8_to_latin1`: the UTF-8 bytes of `s`, read back as Latin-1. Total: every string has a UTF-8 encoding. */
  function Utf8ToLatin1(s: string): (r: string)
    ensures forall k :: 0 <= k < |r| ==> r[k] as int < 256
  {
    Latin1Decode(Utf8Encode(s))
  }

  /** `latin1_to_utf8`: `None` where Python raises (a code point above 255, or bytes that are not UTF-8). */
  function Latin1ToUtf8(s: string): Option<string> {
    match Latin1Encode(s)
    case None => None
    case Some(bs) => Utf8Decode(bs)
  }

  /** Latin-1 encoding inverts Latin-1 decoding. */
  lemma Latin1RoundTrip(bs: seq<byte>)
    ensures Latin1Encode(Latin1Decode(bs)) == Some(bs)
  {
    var r := Latin1Encode(Latin1Decode(bs));
    assert r.value == bs;
  }

  /** A header value survives `utf8_to_latin1` followed by `latin1_to_utf8`. */
  lemma Latin1Utf8RoundTrip(s: string)
    ensures Latin1ToUtf8(Utf8ToLatin1(s)) == Some(s)
  {
    Latin1RoundTrip(Utf8Encode(s));
    Utf8RoundTrip(s);
  }

  /** An ASCII string is unchanged by `latin1_to_utf8`. */
  lemma Latin1ToUtf8Ascii(bs: seq<byte>)
    requires IsAscii(bs)
    ensures Latin1ToUtf8(AsciiChars(bs)) == Some(AsciiChars(bs))
  {
    assert AsciiChars(bs) == Latin1Decode(bs);
    Latin1RoundTrip(bs);
    AsciiUtf8Decode(bs);
  }
}
