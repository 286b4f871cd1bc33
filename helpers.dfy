/**
 * The framework's helpers: status lines, `HttpError` construction, HTML
 * escaping, `str`/`bytes` conversion and `dictDefaults`.
 */
module Helpers {
  import opened Wrappers
  import opened Text
  import opened Unicode
  import opened OrderedMaps
  import opened Py

  // ---------------------------------------------------------------------
  // Status lines and HttpError (vilo.py:43-76)
  // ---------------------------------------------------------------------

  const HttpCodeLines: map<int, string> := map[
    200 := "200 OK",
    301 := "301 Moved Permanently",
    302 := "302 Found",
    303 := "303 See Other",
    304 := "304 Not Modified",
    400 := "400 Bad Request",
    401 := "401 Unauthorized",
    402 := "402 Payment Required",
    403 := "403 Forbidden",
    404 := "404 Not Found",
    405 := "405 Method Not Allowed",
    408 := "408 Request Timeout",
    410 := "410 Gone",
    413 := "413 Payload Too Large",
    418 := "418 I'm a teapot",
    429 := "429 Too Many Requests",
    431 := "431 Request Header Fields Too Large",
    500 := "500 Internal Server Error",
    503 := "503 Service Unavailable"
  ]

  const NotFoundLine: string := "404 Not Found"

  /** `getStatusLineFromCode`: the table's line, or "404 Not Found" for a code it lacks. */
  function StatusLineFromCode(code: int): (line: string)
    ensures code in HttpCodeLines ==> line == HttpCodeLines[code]
    ensures code !in HttpCodeLines ==> line == NotFoundLine
  {
    // `httpCodeLineMap.get(code) or "404 Not Found"`: every line in the table is non-empty.
    StatusLinesNonEmpty(code);
    if code in HttpCodeLines && HttpCodeLines[code] != [] then HttpCodeLines[code] else NotFoundLine
  }

  lemma StatusLinesNonEmpty(code: int)
    ensures code in HttpCodeLines ==> |HttpCodeLines[code]| > 4
  {
  }

  /** The three-digit code at the head of a status line. */
  function LineCode(line: string): int
    requires |line| >= 3
  {
    (line[0] as int - '0' as int) * 100 + (line[1] as int - '0' as int) * 10 + (line[2] as int - '0' as int)
  }

  /** Every line of the table starts with its own code followed by a space. */
  lemma StatusLineCode(code: int)
    requires code in HttpCodeLines
    ensures |HttpCodeLines[code]| > 4 && HttpCodeLines[code][3] == ' '
    ensures LineCode(HttpCodeLines[code]) == code
  {
    if code < 400 {
      LowCodeLines(code);
    } else if code < 413 {
      MidCodeLines(code);
    } else {
      HighCodeLines(code);
    }
  }

  lemma LowCodeLines(code: int)
    requires code in HttpCodeLines && code < 400
    ensures |HttpCodeLines[code]| > 4 && HttpCodeLines[code][3] == ' '
    ensures LineCode(HttpCodeLines[code]) == code
  {
  }

  lemma MidCodeLines(code: int)
    requires code in HttpCodeLines && 400 <= code < 413
    ensures |HttpCodeLines[code]| > 4 && HttpCodeLines[code][3] == ' '
    ensures LineCode(HttpCodeLines[code]) == code
  {
  }

  lemma HighCodeLines(code: int)
    requires code in HttpCodeLines && 413 <= code
    ensures |HttpCodeLines[code]| > 4 && HttpCodeLines[code][3] == ' '
    ensures LineCode(HttpCodeLines[code]) == code
  {
  }

  /** The `statusLine` argument of `HttpError`: an `int` code, or anything else, which is kept as given. */
  datatype StatusArg = StatusCode(code: int) | StatusText(line: string)

  /** `HttpError(body, statusLine, viloTag)`. */
  function MakeHttpError(body: PyObj, status: StatusArg, tag: Option<string>): (e: HttpError)
    ensures e.body == body && e.viloTag == tag
    ensures status.StatusText? ==> e.statusLine == status.line
    ensures status.StatusCode? && status.code in HttpCodeLines ==> e.statusLine == HttpCodeLines[status.code]
    ensures status.StatusCode? && status.code !in HttpCodeLines ==> e.statusLine == NotFoundLine
  {
    HttpError(body, if status.StatusCode? then StatusLineFromCode(status.code) else status.line, tag)
  }

  const KB: nat := 1024
  const MB: nat := KB * KB
  /** `MAX_REQUEST_BODY_SIZE`: one mebibyte. */
  const MaxRequestBodySize: nat := 1 * MB

  // ---------------------------------------------------------------------
  // esc (vilo.py:86-89)
  // ---------------------------------------------------------------------

  /**
   * `esc(s)` on a string: `&` is replaced first, then `>`, `<`, `"` and `'`.
   * The result holds none of the four markup characters; `UnescapeEsc`
   * reads it back.
   */
  function Esc(s: string): (r: string)
    ensures '<' !in r && '>' !in r && '"' !in r && '\'' !in r
  {
    ReplaceChar(ReplaceChar(ReplaceChar(ReplaceChar(ReplaceChar(
      s, '&', "&amp;"), '>', "&gt;"), '<', "&lt;"), '"', "&quot;"), '\'', "&#039;")
  }

  /** The escape of one character. */
  function EscChar(c: char): string {
    if c == '&' then "&amp;"
    else if c == '>' then "&gt;"
    else if c == '<' then "&lt;"
    else if c == '"' then "&quot;"
    else if c == '\'' then "&#039;"
    else [c]
  }

  /** An independent reading of escaped text: the five entities become their characters again. */
  function Unescape(t: string): string
    decreases |t|
  {
    if t == [] then []
    else if StartsWith(t, "&amp;") then "&" + Unescape(t[5..])
    else if StartsWith(t, "&gt;") then ">" + Unescape(t[4..])
    else if StartsWith(t, "&lt;") then "<" + Unescape(t[4..])
    else if StartsWith(t, "&quot;") then "\"" + Unescape(t[6..])
    else if StartsWith(t, "&#039;") then "'" + Unescape(t[6..])
    else [t[0]] + Unescape(t[1..])
  }

  lemma ReplaceCharAbsent(s: string, c: char, t: string)
    requires c !in s
    ensures ReplaceChar(s, c, t) == s
  {
    if s != [] {
      assert c !in s[1..];
      ReplaceCharAbsent(s[1..], c, t);
    }
  }

  /** Escaping a single character. */
  lemma EscSingle(c: char)
    ensures Esc([c]) == EscChar(c)
  {
    ReplaceCharSingle(c, '&', "&amp;");
    if c == '&' {
      EscAfterFirst("&amp;");
    } else {
      ReplaceCharSingle(c, '>', "&gt;");
      if c == '>' {
        EscAfterSecond("&gt;");
      } else {
        ReplaceCharSingle(c, '<', "&lt;");
        if c == '<' {
          EscAfterThird("&lt;");
        } else {
          ReplaceCharSingle(c, '"', "&quot;");
          ReplaceCharSingle(c, '\'', "&#039;");
          if c == '"' {
            ReplaceCharAbsent("&quot;", '\'', "&#039;");
          }
        }
      }
    }
  }

  /** The later replacements leave an entity made by an earlier one alone. */
  lemma EscAfterFirst(t: string)
    requires '>' !in t && '<' !in t && '"' !in t && '\'' !in t
    ensures ReplaceChar(ReplaceChar(ReplaceChar(ReplaceChar(t, '>', "&gt;"), '<', "&lt;"), '"', "&quot;"), '\'', "&#039;") == t
  {
    ReplaceCharAbsent(t, '>', "&gt;");
    EscAfterSecond(t);
  }

  lemma EscAfterSecond(t: string)
    requires '<' !in t && '"' !in t && '\'' !in t
    ensures ReplaceChar(ReplaceChar(ReplaceChar(t, '<', "&lt;"), '"', "&quot;"), '\'', "&#039;") == t
  {
    ReplaceCharAbsent(t, '<', "&lt;");
    EscAfterThird(t);
  }

  lemma EscAfterThird(t: string)
    requires '"' !in t && '\'' !in t
    ensures ReplaceChar(ReplaceChar(t, '"', "&quot;"), '\'', "&#039;") == t
  {
    ReplaceCharAbsent(t, '"', "&quot;");
    ReplaceCharAbsent(t, '\'', "&#039;");
  }

  lemma ReplaceCharSingle(c: char, d: char, t: string)
    ensures ReplaceChar([c], d, t) == if c == d then t else [c]
  {
    assert [c][1..] == [];
  }

  /** Escaping works character by character. */
  lemma EscConcat(a: string, b: string)
    ensures Esc(a + b) == Esc(a) + Esc(b)
  {
    var a1, b1 := ReplaceChar(a, '&', "&amp;"), ReplaceChar(b, '&', "&amp;");
    ReplaceCharConcat(a, b, '&', "&amp;");
    var a2, b2 := ReplaceChar(a1, '>', "&gt;"), ReplaceChar(b1, '>', "&gt;");
    ReplaceCharConcat(a1, b1, '>', "&gt;");
    var a3, b3 := ReplaceChar(a2, '<', "&lt;"), ReplaceChar(b2, '<', "&lt;");
    ReplaceCharConcat(a2, b2, '<', "&lt;");
    var a4, b4 := ReplaceChar(a3, '"', "&quot;"), ReplaceChar(b3, '"', "&quot;");
    ReplaceCharConcat(a3, b3, '"', "&quot;");
    ReplaceCharConcat(a4, b4, '\'', "&#039;");
  }

  /** Reading back the escape of one character, whatever follows it. */
  lemma UnescapeEscChar(c: char, rest: string)
    ensures Unescape(EscChar(c) + rest) == [c] + Unescape(rest)
  {
    if c == '&' {
      UnescapeEntity("&amp;" + rest, "&amp;", rest);
    } else if c == '>' {
      UnescapeEntity("&gt;" + rest, "&gt;", rest);
    } else if c == '<' {
      UnescapeEntity("&lt;" + rest, "&lt;", rest);
    } else if c == '"' {
      UnescapeEntity("&quot;" + rest, "&quot;", rest);
    } else if c == '\'' {
      UnescapeEntity("&#039;" + rest, "&#039;", rest);
    } else {
      UnescapePlain(c, rest);
    }
  }

  /** A character that starts no entity is read as itself. */
  lemma UnescapePlain(c: char, rest: string)
    requires c != '&'
    ensures Unescape([c] + rest) == [c] + Unescape(rest)
  {
    var t := [c] + rest;
    assert t[0] == c && t[1..] == rest;
    assert !StartsWith(t, "&amp;") && !StartsWith(t, "&gt;") && !StartsWith(t, "&lt;");
    assert !StartsWith(t, "&quot;") && !StartsWith(t, "&#039;");
  }

  /** Text that starts with an entity is read as the entity's character and the rest. */
  lemma UnescapeEntity(t: string, entity: string, rest: string)
    requires entity in ["&amp;", "&gt;", "&lt;", "&quot;", "&#039;"]
    requires t == entity + rest
    ensures Unescape(t) == [EntityChar(entity)] + Unescape(rest)
  {
    assert t[..|entity|] == entity && t[|entity|..] == rest;
    assert t[1] == entity[1];
    if entity != "&amp;" {
      DiffersAt(t, "&amp;", 1);
      if entity != "&gt;" {
        DiffersAt(t, "&gt;", 1);
        if entity != "&lt;" {
          DiffersAt(t, "&lt;", 1);
          if entity != "&quot;" {
            DiffersAt(t, "&quot;", 1);
          }
        }
      }
    }
  }

  /** Text that differs from a prefix at some position does not start with it. */
  lemma DiffersAt(t: string, p: string, k: nat)
    requires k < |p| && k < |t| && t[k] != p[k]
    ensures !StartsWith(t, p)
  {
    if |p| <= |t| {
      assert t[..|p|][k] == t[k];
    }
  }

  function EntityChar(entity: string): char {
    if entity == "&amp;" then '&'
    else if entity == "&gt;" then '>'
    else if entity == "&lt;" then '<'
    else if entity == "&quot;" then '"'
    else '\''
  }

  /** `esc` loses nothing: unescaping its result gives the text back. */
  lemma {:induction false} UnescapeEsc(s: string)
    ensures Unescape(Esc(s)) == s
  {
    if s != [] {
      assert s == [s[0]] + s[1..];
      EscConcat([s[0]], s[1..]);
      EscSingle(s[0]);
      UnescapeEscChar(s[0], Esc(s[1..]));
      UnescapeEsc(s[1..]);
    }
  }

  // ---------------------------------------------------------------------
  // toBytes / toStr (vilo.py:110-118)
  // ---------------------------------------------------------------------

  /** `toBytes(x)`: bytes are kept, a string is UTF-8 encoded, anything else is a `TypeError`. */
  function ToBytes(x: PyObj): (r: Outcome<seq<byte>>)
    ensures r.Ok? <==> x.PyBytes? || x.PyStr?
    ensures r.OtherErr? ==> r.fault == TypeMismatch
  {
    match x
    case PyBytes(bs) => Ok(bs)
    case PyStr(s) => Ok(Utf8Encode(s))
    case _ => OtherErr(TypeMismatch)
  }

  /** `toStr(x)`: a string is kept, bytes are UTF-8 decoded, anything else is a `TypeError`. */
  function ToStr(x: PyObj): (r: Outcome<string>)
    ensures r.Ok? ==> x.PyBytes? || x.PyStr?
    ensures x.PyStr? ==> r == Ok(x.s)
    ensures !x.PyBytes? && !x.PyStr? ==> r == OtherErr(TypeMismatch)
  {
    match x
    case PyStr(s) => Ok(s)
    case PyBytes(bs) => (match Utf8Decode(bs) case Some(s) => Ok(s) case None => OtherErr(UnicodeFailure))
    case _ => OtherErr(TypeMismatch)
  }

  /** `toStr(toBytes(s)) == s` for a string, and `toBytes(toStr(b)) == b` for bytes `toStr` accepts. */
  lemma ToStrToBytes(x: PyObj)
    ensures x.PyStr? ==> ToStr(PyBytes(ToBytes(x).value)) == Ok(x.s)
    ensures x.PyBytes? && ToStr(x).Ok? ==> ToBytes(PyStr(ToStr(x).value)) == Ok(x.bytes)
  {
    if x.PyStr? {
      Utf8RoundTrip(x.s);
    }
    if x.PyBytes? && ToStr(x).Ok? {
      Utf8EncodeDecode(x.bytes);
    }
  }

  /** Bytes the UTF-8 decoder accepts are the encoding of what it returns. */
  lemma {:induction false} Utf8EncodeDecode(bs: seq<byte>)
    requires Utf8Decode(bs).Some?
    ensures Utf8Encode(Utf8Decode(bs).value) == bs
    decreases |bs|
  {
    if bs != [] {
      var first := DecodeFirst(bs).value;
      var c, len := first.0, first.1;
      Utf8EncodeDecode(bs[len..]);
      EncodeDecodedChar(bs);
      assert Utf8Decode(bs).value == [c] + Utf8Decode(bs[len..]).value;
      assert ([c] + Utf8Decode(bs[len..]).value)[1..] == Utf8Decode(bs[len..]).value;
      assert bs == bs[..len] + bs[len..];
    }
  }

  /** A string `latin1_to_utf8` accepts is given back by `utf8_to_latin1` of its result. */
  lemma Latin1ToUtf8Inverse(s: string)
    requires Latin1ToUtf8(s).Some?
    ensures Utf8ToLatin1(Latin1ToUtf8(s).value) == s
  {
    var bs := Latin1Encode(s).value;
    Utf8EncodeDecode(bs);
    assert Latin1Decode(bs) == s;
  }

  /** A well-formed first character re-encodes to the bytes it was decoded from. */
  lemma EncodeDecodedChar(bs: seq<byte>)
    requires |bs| > 0 && DecodeFirst(bs).Some?
    ensures Utf8EncodeChar(DecodeFirst(bs).value.0) == bs[..DecodeFirst(bs).value.1]
  {
    var c, len := DecodeFirst(bs).value.0, DecodeFirst(bs).value.1;
    var n := c as int;
    var enc := Utf8EncodeChar(c);
    if len == 2 {
      var b0, b1 := bs[0] as int, bs[1] as int;
      assert n == (b0 - 0xC0) * 64 + (b1 - 0x80);
      assert n / 64 == b0 - 0xC0 && n % 64 == b1 - 0x80;
      assert enc == bs[..2];
    } else if len == 3 {
      assert IsTail(bs[2]);
      var b0, b1, b2 := bs[0] as int, bs[1] as int, bs[2] as int;
      assert n == (b0 - 0xE0) * 4096 + (b1 - 0x80) * 64 + (b2 - 0x80);
      assert n / 64 == (b0 - 0xE0) * 64 + (b1 - 0x80) && n % 64 == b2 - 0x80;
      assert n / 64 / 64 == b0 - 0xE0 && n / 64 % 64 == b1 - 0x80;
      assert enc == bs[..3];
    } else if len == 4 {
      assert IsTail(bs[2]) && IsTail(bs[3]);
      var b0, b1, b2, b3 := bs[0] as int, bs[1] as int, bs[2] as int, bs[3] as int;
      assert n == (b0 - 0xF0) * 262144 + (b1 - 0x80) * 4096 + (b2 - 0x80) * 64 + (b3 - 0x80);
      assert n / 64 == (b0 - 0xF0) * 4096 + (b1 - 0x80) * 64 + (b2 - 0x80) && n % 64 == b3 - 0x80;
      assert n / 64 / 64 == (b0 - 0xF0) * 64 + (b1 - 0x80) && n / 64 % 64 == b2 - 0x80;
      assert n / 64 / 64 / 64 == b0 - 0xF0 && n / 64 / 64 % 64 == b1 - 0x80;
      assert enc == bs[..4];
    }
  }

  // ---------------------------------------------------------------------
  // dictDefaults (vilo.py:91-95)
  // ---------------------------------------------------------------------

  /** A Python `dict` of options that callers pass by reference. */
  class OptDict {
    var items: OrderedMap<string, PyObj>

    constructor (items: OrderedMap<string, PyObj>)
      ensures this.items == items
    {
      this.items := items;
    }
  }

  /** The dict after `dictDefaults`: each default key, in the defaults' order, is added when missing. */
  function WithDefaults(d: OrderedMap<string, PyObj>, defaults: OrderedMap<string, PyObj>, n: nat): (r: OrderedMap<string, PyObj>)
    requires d.Valid() && defaults.Valid() && n <= |defaults.keys|
    ensures r.Valid()
  {
    if n == 0 then d
    else
      var prev := WithDefaults(d, defaults, n - 1);
      var k := defaults.keys[n - 1];
      if k in prev.m then prev else prev.Put(k, defaults.m[k])
  }

  /** `dictDefaults` keeps every value already present and adds the defaults only for missing keys. */
  lemma {:induction false} WithDefaultsGet(d: OrderedMap<string, PyObj>, defaults: OrderedMap<string, PyObj>, n: nat, k: string)
    requires d.Valid() && defaults.Valid() && n <= |defaults.keys|
    ensures WithDefaults(d, defaults, n).Get(k) ==
      if k in d.m then Some(d.m[k]) else if k in defaults.keys[..n] then Some(defaults.m[k]) else None
  {
    if n > 0 {
      WithDefaultsGet(d, defaults, n - 1, k);
      assert defaults.keys[..n] == defaults.keys[..n - 1] + [defaults.keys[n - 1]];
    }
  }

  /** `p` is the start of `q`. */
  ghost predicate Leads<T>(p: seq<T>, q: seq<T>) {
    |p| <= |q| && q[..|p|] == p
  }

  /** `dictDefaults` keeps the keys already present, in their order, ahead of the added ones. */
  lemma {:induction false} WithDefaultsKeepsOrder(d: OrderedMap<string, PyObj>, defaults: OrderedMap<string, PyObj>, n: nat)
    requires d.Valid() && defaults.Valid() && n <= |defaults.keys|
    ensures Leads(d.keys, WithDefaults(d, defaults, n).keys)
  {
    if n > 0 {
      WithDefaultsKeepsOrder(d, defaults, n - 1);
      WithDefaultsNextKeys(d, defaults, n);
      LeadKept(d.keys, WithDefaults(d, defaults, n - 1).keys, WithDefaults(d, defaults, n).keys, defaults.keys[n - 1]);
    }
  }

  /** A sequence that leads `q` still leads `q` with one more element, or `q` itself. */
  lemma LeadKept<T>(p: seq<T>, q: seq<T>, r: seq<T>, x: T)
    requires Leads(p, q)
    requires r == q || r == q + [x]
    ensures Leads(p, r)
  {
    if r != q {
      assert r[..|p|] == q[..|p|];
    }
  }

  /** One more default: added when its key is missing. */
  lemma WithDefaultsNext(d: OrderedMap<string, PyObj>, defaults: OrderedMap<string, PyObj>, n: nat)
    requires d.Valid() && defaults.Valid() && n < |defaults.keys|
    ensures var prev, k := WithDefaults(d, defaults, n), defaults.keys[n];
      WithDefaults(d, defaults, n + 1) == if k in prev.m then prev else prev.Put(k, defaults.m[k])
  {
  }

  /** The keys after one more default: one more key when it was missing. */
  lemma WithDefaultsNextKeys(d: OrderedMap<string, PyObj>, defaults: OrderedMap<string, PyObj>, n: nat)
    requires d.Valid() && defaults.Valid() && 0 < n <= |defaults.keys|
    ensures var prev, k := WithDefaults(d, defaults, n - 1).keys, defaults.keys[n - 1];
      WithDefaults(d, defaults, n).keys == prev || WithDefaults(d, defaults, n).keys == prev + [k]
  {
  }

  /** `dictDefaults(dicty, defaults)`: adds, in place, each default whose key `dicty` lacks. */
  method DictDefaults(dicty: OptDict, defaults: OrderedMap<string, PyObj>)
    requires dicty.items.Valid() && defaults.Valid()
    modifies dicty
    ensures dicty.items == WithDefaults(old(dicty.items), defaults, |defaults.keys|)
  {
    var items := dicty.items;
    ghost var d0 := items;
    var i := 0;
    while i < |defaults.keys|
      invariant 0 <= i <= |defaults.keys|
      invariant items == WithDefaults(d0, defaults, i)
    {
      var k := defaults.keys[i];
      WithDefaultsNext(d0, defaults, i);
      if k !in items.m {
        items := items.Put(k, defaults.m[k]);
      }
      i := i + 1;
    }
    dicty.items := items;
  }
}
