/**
 * Signed cookie values (vilo.py:130-159): `signWrap` turns a JSON-able
 * value into `b64(hmac) + "@|" + b64(json)` and `signUnwrap` checks and
 * reverses that. HMAC-SHA512 and JSON are the library's; base64 is
 * section 4 of RFC 4648.
 */
module Signing {
  import opened Wrappers
  import opened Text
  import opened Unicode
  import Base64
  import opened Py
  import opened Helpers

  /** `B_SIGN_SEP`, the bytes of "@|". */
  const SignSep: seq<byte> := [64, 124]

  /** `hmacy(b_msg, b_secret)`: the HMAC-SHA512 digest of the message under the secret. */
  function Hmacy(msg: seq<byte>, secret: seq<byte>, lib: Lib): seq<byte> {
    lib.hmacSha512(secret, msg)
  }

  /** The signed text for the JSON bytes of a value and its digest. */
  function SignedBytes(jval: seq<byte>, sig: seq<byte>): (b: seq<byte>)
    ensures IsAscii(b)
  {
    Base64.EncodingChars(sig);
    Base64.EncodingChars(jval);
    Base64.Encode(sig) + SignSep + Base64.Encode(jval)
  }

  /** `signWrap(value, secret)`. */
  function SignWrap(value: PyObj, secret: PyObj, lib: Lib): (r: Outcome<string>)
    ensures r.Ok? <==> lib.jsonDumps(value).Some? && (secret.PyStr? || secret.PyBytes?)
    ensures lib.jsonDumps(value).None? ==> r == OtherErr(JsonFailure)
    ensures r.Ok? ==> r.value == AsciiChars(SignedBytes(
      Utf8Encode(lib.jsonDumps(value).value),
      Hmacy(Utf8Encode(lib.jsonDumps(value).value), ToBytes(secret).value, lib)))
  {
    match lib.jsonDumps(value)
    case None => OtherErr(JsonFailure)
    case Some(j) =>
      var bJval := Utf8Encode(j);
      var bSecret :- ToBytes(secret);
      var bSig := Hmacy(bJval, bSecret, lib);
      var bSigned := SignedBytes(bJval, bSig);
      AsciiUtf8Decode(bSigned);
      Ok(AsciiChars(bSigned))
  }

  /**
   * `signUnwrap(signed, secret)`: the value, or `None` for an unsigned or
   * forged input. A value other than `None` comes out only of a string with
   * the separator whose decoded signature is the HMAC, under the secret, of
   * its decoded payload.
   */
  function SignUnwrap(signed: PyObj, secret: PyObj, lib: Lib): (r: Outcome<PyObj>)
    ensures r.Ok? && r.value != PyNone ==>
      signed.PyStr? && Contains(signed.s, "@|") && ToBytes(secret).Ok? && Contains(Utf8Encode(signed.s), SignSep)
      && (var halves := SplitFirst(Utf8Encode(signed.s), SignSep);
          Base64.Decode(halves.0).Some? && Base64.Decode(halves.1).Some?
          && Base64.Decode(halves.0).value == Hmacy(Base64.Decode(halves.1).value, ToBytes(secret).value, lib))
  {
    if !(signed.PyStr? && Contains(signed.s, "@|")) then Ok(PyNone)
    else
      var bSecret :- ToBytes(secret);
      var bSigned := Utf8Encode(signed.s);
      EncodedSeparator(signed.s);
      var halves := SplitFirst(bSigned, SignSep);
      var bJval :- Base64Decode(halves.1);
      var bSig :- Base64Decode(halves.0);
      if bSig != Hmacy(bJval, bSecret, lib) then Ok(PyNone)
      else
        var jText :- ToStr(PyBytes(bJval));
        match lib.jsonLoads(jText)
        case None => OtherErr(JsonFailure)
        case Some(v) => Ok(v)
  }

  /** `base64.b64decode`, raising `binascii.Error` on text it rejects. */
  function Base64Decode(cs: seq<byte>): Outcome<seq<byte>> {
    match Base64.Decode(cs)
    case None => OtherErr(Base64Failure)
    case Some(bs) => Ok(bs)
  }

  /** A string holding "@|" has the separator's bytes in its UTF-8 encoding, so the two-way split cannot fail. */
  lemma EncodedSeparator(s: string)
    requires Contains(s, "@|")
    ensures Contains(Utf8Encode(s), SignSep)
  {
    var halves := SplitFirst(s, "@|");
    Utf8EncodeConcat(halves.0 + "@|", halves.1);
    Utf8EncodeConcat(halves.0, "@|");
    var bs := Utf8Encode(s);
    var i := |Utf8Encode(halves.0)|;
    assert Utf8Encode("@|") == SignSep;
    assert bs[i..i + 2] == SignSep;
    assert OccursAt(bs, SignSep, i);
  }

  /** Splitting the UTF-8 text of `a + "@|" + b` on its first separator gives the bytes of `a` and of `b` when `a` has no '@'. */
  lemma SplitSigned(a: string, b: string)
    requires '@' !in a
    ensures Contains(Utf8Encode(a + "@|" + b), SignSep)
    ensures SplitFirst(Utf8Encode(a + "@|" + b), SignSep) == (Utf8Encode(a), Utf8Encode(b))
  {
    EncodeSigned(a, b);
    Utf8EncodeLacksAscii(a, '@');
    SplitFirstAfterFree(Utf8Encode(a), SignSep, Utf8Encode(b));
  }

  /** The UTF-8 text of `a + "@|" + b` is that of `a`, the separator's bytes, and that of `b`. */
  lemma EncodeSigned(a: string, b: string)
    ensures Utf8Encode(a + "@|" + b) == Utf8Encode(a) + SignSep + Utf8Encode(b)
  {
    Utf8EncodeConcat(a + "@|", b);
    Utf8EncodeConcat(a, "@|");
    assert Utf8Encode("@|") == SignSep;
  }

  /** The JSON library reads back what it wrote for `v`. */
  predicate JsonRoundTrips(lib: Lib, v: PyObj) {
    lib.jsonDumps(v).Some? && lib.jsonLoads(lib.jsonDumps(v).value) == Some(v)
  }

  /** `signUnwrap(signWrap(v, s), s) == v` for a `str` or `bytes` secret and a value JSON reads back. */
  lemma SignRoundTrip(value: PyObj, secret: PyObj, lib: Lib)
    requires secret.PyStr? || secret.PyBytes?
    requires JsonRoundTrips(lib, value)
    ensures SignWrap(value, secret, lib).Ok?
    ensures SignUnwrap(PyStr(SignWrap(value, secret, lib).value), secret, lib) == Ok(value)
  {
    var j := lib.jsonDumps(value).value;
    var bJval := Utf8Encode(j);
    var bSig := Hmacy(bJval, ToBytes(secret).value, lib);
    var sigText, jText := Base64.Encode(bSig), Base64.Encode(bJval);
    Base64.EncodingChars(bSig);
    Base64.EncodingChars(bJval);
    var a, b := AsciiChars(sigText), AsciiChars(jText);
    assert SignWrap(value, secret, lib).value == a + "@|" + b by {
      assert SignedBytes(bJval, bSig) == sigText + SignSep + jText;
      assert AsciiChars(sigText + SignSep + jText) == a + "@|" + b;
    }
    assert '@' !in a by {
      forall k | 0 <= k < |a| ensures a[k] != '@' {
        assert a[k] as int == sigText[k];
      }
    }
    AsciiUtf8Encode(sigText);
    AsciiUtf8Encode(jText);
    Base64.RoundTrip(bJval);
    Base64.RoundTrip(bSig);
    Utf8RoundTrip(j);
    UnwrapGenuine(a, b, secret, lib, bJval, j, value);
  }

  /** `signUnwrap` of `a + "@|" + b` whose signature checks gives the value JSON reads from the decoded bytes. */
  lemma UnwrapGenuine(a: string, b: string, secret: PyObj, lib: Lib, bJval: seq<byte>, j: string, v: PyObj)
    requires '@' !in a
    requires ToBytes(secret).Ok?
    requires Base64.Decode(Utf8Encode(b)) == Some(bJval)
    requires Base64.Decode(Utf8Encode(a)) == Some(Hmacy(bJval, ToBytes(secret).value, lib))
    requires Utf8Decode(bJval) == Some(j) && lib.jsonLoads(j) == Some(v)
    ensures SignUnwrap(PyStr(a + "@|" + b), secret, lib) == Ok(v)
  {
    SplitSigned(a, b);
    FindAfterFree(a, "@|", b);
    UnwrapHalves(a + "@|" + b, secret, lib, bJval, j, v);
  }

  /** `signUnwrap` once the two halves of the signed bytes decode to a digest that checks and to JSON text. */
  lemma UnwrapHalves(signed: string, secret: PyObj, lib: Lib, bJval: seq<byte>, j: string, v: PyObj)
    requires Contains(signed, "@|") && Contains(Utf8Encode(signed), SignSep) && ToBytes(secret).Ok?
    requires Base64.Decode(SplitFirst(Utf8Encode(signed), SignSep).1) == Some(bJval)
    requires Base64.Decode(SplitFirst(Utf8Encode(signed), SignSep).0) == Some(Hmacy(bJval, ToBytes(secret).value, lib))
    requires Utf8Decode(bJval) == Some(j) && lib.jsonLoads(j) == Some(v)
    ensures SignUnwrap(PyStr(signed), secret, lib) == Ok(v)
  {
    var halves := SplitFirst(Utf8Encode(signed), SignSep);
    assert Base64Decode(halves.1) == Ok(bJval);
    assert Base64Decode(halves.0) == Ok(Hmacy(bJval, ToBytes(secret).value, lib));
    assert ToStr(PyBytes(bJval)) == Ok(j);
  }

  /** `signUnwrap` gives `None` for anything but a string holding "@|". */
  lemma UnwrapUnsigned(signed: PyObj, secret: PyObj, lib: Lib)
    requires !signed.PyStr? || !Contains(signed.s, "@|")
    ensures SignUnwrap(signed, secret, lib) == Ok(PyNone)
  {
  }

  /**
   * `signUnwrap` gives `None` when the decoded signature differs from the
   * HMAC recomputed from the decoded JSON bytes.
   */
  lemma UnwrapForged(a: string, b: string, secret: PyObj, lib: Lib)
    requires '@' !in a
    requires ToBytes(secret).Ok?
    requires Base64.Decode(Utf8Encode(a)).Some? && Base64.Decode(Utf8Encode(b)).Some?
    requires Base64.Decode(Utf8Encode(a)).value != Hmacy(Base64.Decode(Utf8Encode(b)).value, ToBytes(secret).value, lib)
    ensures SignUnwrap(PyStr(a + "@|" + b), secret, lib) == Ok(PyNone)
  {
    SplitSigned(a, b);
    FindAfterFree(a, "@|", b);
  }
}
