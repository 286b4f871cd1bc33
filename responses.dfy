/**
 * `buildResponse(start_response)` (vilo.py:310-423): the response object a
 * handler fills in. It keeps a status line, a content type, a header map
 * and a cookie jar; `_finish` turns them and the handler's output into one
 * `start_response` call and the body.
 */
module Responses {
  import opened Wrappers
  import opened Text
  import opened Unicode
  import opened OrderedMaps
  import opened Py
  import opened Helpers
  import opened Signing

  /** The WSGI `start_response` callable, which records each call it gets. */
  class StartResponse {
    var calls: seq<(string, seq<(string, string)>)>

    constructor ()
      ensures calls == []
    {
      calls := [];
    }

    /** `start_response(status, headers)`. */
    method Call(status: string, headers: seq<(string, string)>)
      modifies this
      ensures calls == old(calls) + [(status, headers)]
    {
      calls := calls + [(status, headers)];
    }
  }

  // ---------------------------------------------------------------------
  // Headers (vilo.py:323-342)
  // ---------------------------------------------------------------------

  /** The name a header is stored under: `name.strip().upper()`. */
  function HeaderKey(name: string): string {
    AsciiUpper(Strip(name))
  }

  /** The two header fields `_finish` sets itself. */
  const ContentTypeKey: string := "CONTENT-TYPE"
  const ContentLengthKey: string := "CONTENT-LENGTH"

  /** The part of a response that `setHeader` changes. */
  datatype Headers = Headers(contentType: string, headerMap: OrderedMap<string, string>)

  /** The header map is a well-formed dict that holds neither the content type nor the content length. */
  ghost predicate HeadersOk(h: Headers) {
    h.headerMap.Valid() && ContentTypeKey !in h.headerMap.m && ContentLengthKey !in h.headerMap.m
  }

  /** `setHeader(name, value)`: the content type is kept apart, the content length refused, any other header stored. */
  function AfterSetHeader(h: Headers, name: string, value: string): (r: Outcome<Headers>)
    requires h.headerMap.Valid()
    ensures r.Ok? ==> r.value.headerMap.Valid()
    ensures HeadersOk(h) && r.Ok? ==> HeadersOk(r.value)
    ensures !r.Ok? <==> HeaderKey(name) == ContentLengthKey
    ensures !r.Ok? ==> r == OtherErr(ContentLengthSet)
  {
    var key := HeaderKey(name);
    if key == ContentTypeKey then Ok(h.(contentType := value))
    else if key == ContentLengthKey then OtherErr(ContentLengthSet)
    else Ok(h.(headerMap := h.headerMap.Put(key, value)))
  }

  /** After `setHeader(name, value)`, `getHeader(name)` gives `value` and every other header is as it was. */
  lemma SetThenGetHeader(h: Headers, name: string, value: string, other: string)
    requires h.headerMap.Valid() && AfterSetHeader(h, name, value).Ok?
    ensures var h2 := AfterSetHeader(h, name, value).value;
      (HeaderKey(name) != ContentTypeKey ==> h2.headerMap.Get(HeaderKey(name)) == Some(value) && h2.contentType == h.contentType)
      && (HeaderKey(name) == ContentTypeKey ==> h2.contentType == value && h2.headerMap == h.headerMap)
      && (other != HeaderKey(name) ==> h2.headerMap.Get(other) == h.headerMap.Get(other))
  {
  }

  /**
   * `setHeader` applied to each pair in turn: the headers after the pairs
   * that went through, and the exception of the first that did not.
   */
  function ApplyHeaders(h: Headers, pairs: seq<(string, string)>): (r: (Headers, Outcome<()>))
    requires h.headerMap.Valid()
    ensures r.0.headerMap.Valid()
    ensures HeadersOk(h) ==> HeadersOk(r.0)
    ensures r.1.Ok? <==> forall i :: 0 <= i < |pairs| ==> HeaderKey(pairs[i].0) != ContentLengthKey
    decreases |pairs|
  {
    if pairs == [] then (h, Ok(()))
    else
      var first := AfterSetHeader(h, pairs[0].0, pairs[0].1);
      if !first.Ok? then (h, Discard(first))
      else
        var rest := ApplyHeaders(first.value, pairs[1..]);
        assert forall i :: 1 <= i < |pairs| ==> pairs[i] == pairs[1..][i - 1];
        rest
  }

  /** The argument of `setHeaders`: a list of pairs, a dict, or anything else. */
  datatype HeaderArg = HeaderList(pairs: seq<(string, string)>) | HeaderDict(d: OrderedMap<string, string>) | NotAList

  // ---------------------------------------------------------------------
  // Cookies (vilo.py:344-361)
  // ---------------------------------------------------------------------

  /** The attributes a `Morsel` accepts (`Morsel._reserved`). */
  const CookieAttributes: set<string> :=
    {"expires", "path", "comment", "domain", "max-age", "secure", "httponly", "version", "samesite"}

  /** The options `setUnsignedCookie` adds when the caller's lack them. */
  function CookieDefaults(): (d: OrderedMap<string, PyObj>)
    ensures d.Valid() && |d.keys| == 2
  {
    OrderedMap(["path", "httponly"], map["path" := PyStr("/"), "httponly" := PyBool(true)])
  }

  /** `cookieJar[name] = value`: a cookie already present keeps its attributes and gets the new value. */
  function PutCookie(jar: OrderedMap<string, Morsel>, name: string, value: string): (r: OrderedMap<string, Morsel>)
    requires jar.Valid()
    ensures r.Valid() && name in r.m && r.m[name].value == value
    ensures name in jar.m ==> r.keys == jar.keys && r.m[name].attrs == jar.m[name].attrs
    ensures forall n :: n != name ==> (n in r.m <==> n in jar.m) && (n in jar.m ==> r.m[n] == jar.m[n])
  {
    jar.Put(name, Morsel(value, if name in jar.m then jar.m[name].attrs else map[]))
  }

  /** `morsel[key] = value`: the key is lower-cased and must name an attribute cookies have. */
  function SetAttribute(m: Morsel, key: string, value: PyObj): (r: Outcome<Morsel>)
    ensures r.Ok? <==> AsciiLower(key) in CookieAttributes
    ensures r.Ok? ==> r.value == Morsel(m.value, m.attrs[AsciiLower(key) := value])
    ensures !r.Ok? ==> r == OtherErr(CookieAttribute(key))
  {
    var k := AsciiLower(key);
    if k !in CookieAttributes then OtherErr(CookieAttribute(key)) else Ok(m.(attrs := m.attrs[k := value]))
  }

  /**
   * The loop `for optKey, optVal in opt.items(): morsel[optKey] = optVal`
   * on the cookie `name`: the jar after the options that went through, and
   * the exception of the first that did not.
   */
  function SetAttributes(jar: OrderedMap<string, Morsel>, name: string, items: seq<(string, PyObj)>): (r: (OrderedMap<string, Morsel>, Outcome<()>))
    requires jar.Valid() && name in jar.m
    ensures r.0.Valid() && name in r.0.m && r.0.keys == jar.keys
    ensures r.0.m[name].value == jar.m[name].value
    ensures forall k :: k in jar.m[name].attrs ==> k in r.0.m[name].attrs
    ensures forall n :: n != name && n in jar.m ==> n in r.0.m && r.0.m[n] == jar.m[n]
    ensures r.1.Ok? <==> forall i :: 0 <= i < |items| ==> AsciiLower(items[i].0) in CookieAttributes
    ensures r.1.Ok? ==> forall i :: 0 <= i < |items| ==> AsciiLower(items[i].0) in r.0.m[name].attrs
    decreases |items|
  {
    if items == [] then (jar, Ok(()))
    else
      var first := SetAttribute(jar.m[name], items[0].0, items[0].1);
      if !first.Ok? then (jar, Discard(first))
      else
        var rest := SetAttributes(jar.Put(name, first.value), name, items[1..]);
        assert forall i :: 1 <= i < |items| ==> items[i] == items[1..][i - 1];
        rest
  }

  /** No later option names the same attribute as option `i`. */
  ghost predicate LastNamed(items: seq<(string, PyObj)>, i: int)
    requires 0 <= i < |items|
  {
    forall j :: i < j < |items| ==> AsciiLower(items[j].0) != AsciiLower(items[i].0)
  }

  /**
   * After options that all go through, each attribute holds the value of
   * the last option naming it, and an attribute no option names keeps its
   * value.
   */
  lemma {:induction false} SetAttributesValues(jar: OrderedMap<string, Morsel>, name: string, items: seq<(string, PyObj)>)
    requires jar.Valid() && name in jar.m
    requires SetAttributes(jar, name, items).1.Ok?
    ensures var attrs := SetAttributes(jar, name, items).0.m[name].attrs;
      forall i :: 0 <= i < |items| && LastNamed(items, i) ==>
        AsciiLower(items[i].0) in attrs && attrs[AsciiLower(items[i].0)] == items[i].1
    ensures var attrs := SetAttributes(jar, name, items).0.m[name].attrs;
      forall k :: k in jar.m[name].attrs && (forall i :: 0 <= i < |items| ==> AsciiLower(items[i].0) != k) ==>
        k in attrs && attrs[k] == jar.m[name].attrs[k]
    decreases |items|
  {
    if items != [] {
      var first := SetAttribute(jar.m[name], items[0].0, items[0].1);
      var jar1 := jar.Put(name, first.value);
      var rest := items[1..];
      assert SetAttributes(jar, name, items) == SetAttributes(jar1, name, rest);
      SetAttributesValues(jar1, name, rest);
      var attrs := SetAttributes(jar1, name, rest).0.m[name].attrs;
      var k0 := AsciiLower(items[0].0);
      assert jar1.m[name].attrs == jar.m[name].attrs[k0 := items[0].1];
      forall i | 0 <= i < |items| && LastNamed(items, i)
        ensures AsciiLower(items[i].0) in attrs && attrs[AsciiLower(items[i].0)] == items[i].1
      {
        if i == 0 {
          TailUnnamed(items, k0);
        } else {
          LastNamedTail(items, i);
        }
      }
      forall k | k in jar.m[name].attrs && (forall i :: 0 <= i < |items| ==> AsciiLower(items[i].0) != k)
        ensures k in attrs && attrs[k] == jar.m[name].attrs[k]
      {
        TailUnnamed(items, k);
      }
    }
  }

  /** A name no later option has is not in the options after the first. */
  lemma TailUnnamed(items: seq<(string, PyObj)>, k: string)
    requires items != []
    requires forall i :: 1 <= i < |items| ==> AsciiLower(items[i].0) != k
    ensures forall j :: 0 <= j < |items[1..]| ==> AsciiLower(items[1..][j].0) != k
  {
    assert forall j :: 0 <= j < |items| - 1 ==> items[1..][j] == items[j + 1];
  }

  /** `LastNamed` carries over to the options after the first. */
  lemma LastNamedTail(items: seq<(string, PyObj)>, i: int)
    requires 0 < i < |items| && LastNamed(items, i)
    ensures LastNamed(items[1..], i - 1) && items[1..][i - 1] == items[i]
  {
    assert forall j :: 0 <= j < |items| - 1 ==> items[1..][j] == items[j + 1];
  }

  /** The dict `opt or {}` stands for: the caller's when it is non-empty, else a fresh one. */
  function ChosenOptions(opt: Option<OrderedMap<string, PyObj>>): (d: OrderedMap<string, PyObj>)
    requires opt.Some? ==> opt.value.Valid()
    ensures d.Valid()
  {
    if opt.Some? && opt.value.keys != [] then opt.value else Empty()
  }

  /** The options the cookie gets: the chosen dict with `path` and `httponly` defaults added. */
  function CookieOptions(opt: Option<OrderedMap<string, PyObj>>): (d: OrderedMap<string, PyObj>)
    requires opt.Some? ==> opt.value.Valid()
    ensures d.Valid()
  {
    WithDefaults(ChosenOptions(opt), CookieDefaults(), 2)
  }

  /** `setUnsignedCookie(name, value, opt)` on the jar: the jar after it and what it returns. */
  function CookieSet(jar: OrderedMap<string, Morsel>, name: string, value: PyObj, opt: Option<OrderedMap<string, PyObj>>): (r: (OrderedMap<string, Morsel>, Outcome<PyObj>))
    requires jar.Valid() && (opt.Some? ==> opt.value.Valid())
    ensures r.0.Valid()
  {
    if !value.PyStr? then (jar, OtherErr(AssertionFailed))
    else
      var after := SetAttributes(PutCookie(jar, name, value.s), name, CookieOptions(opt).Items());
      (after.0, if after.1.Ok? then Ok(value) else after.1.PropagateFailure())
  }

  /**
   * A cookie set without options gets `path` "/" and `httponly` set, and a
   * caller's option overrides the default of the same name.
   */
  lemma CookieOptionsDefaults(opt: Option<OrderedMap<string, PyObj>>)
    requires opt.Some? ==> opt.value.Valid()
    ensures CookieOptions(opt).Get("path") ==
      if opt.Some? && "path" in opt.value.m then Some(opt.value.m["path"]) else Some(PyStr("/"))
    ensures CookieOptions(opt).Get("httponly") ==
      if opt.Some? && "httponly" in opt.value.m then Some(opt.value.m["httponly"]) else Some(PyBool(true))
    ensures forall k :: opt.Some? && k in opt.value.m ==> CookieOptions(opt).Get(k) == Some(opt.value.m[k])
  {
    var d := ChosenOptions(opt);
    assert CookieDefaults().keys[..2] == ["path", "httponly"];
    WithDefaultsGet(d, CookieDefaults(), 2, "path");
    WithDefaultsGet(d, CookieDefaults(), 2, "httponly");
    forall k | opt.Some? && k in opt.value.m
      ensures CookieOptions(opt).Get(k) == Some(opt.value.m[k])
    {
      WithDefaultsGet(d, CookieDefaults(), 2, k);
    }
  }

  /** A string cookie with attribute-name options is set: the jar holds the value, and no other cookie changes. */
  lemma CookieSetStores(jar: OrderedMap<string, Morsel>, name: string, value: string, opt: Option<OrderedMap<string, PyObj>>)
    requires jar.Valid() && (opt.Some? ==> opt.value.Valid())
    requires CookieSet(jar, name, PyStr(value), opt).1.Ok?
    ensures var jar2 := CookieSet(jar, name, PyStr(value), opt).0;
      name in jar2.m && jar2.m[name].value == value
      && "path" in jar2.m[name].attrs && "httponly" in jar2.m[name].attrs
      && forall n :: n != name && n in jar.m ==> n in jar2.m && jar2.m[n] == jar.m[n]
  {
    CookieOptionsHasDefaults(opt);
    LowerAttributeNames();
  }

  /**
   * With lower-case option names, the cookie's attributes are its options:
   * `path` is the caller's or "/", `httponly` the caller's or True, and
   * every option of the caller's is stored with its value.
   */
  lemma CookieSetAttributes(jar: OrderedMap<string, Morsel>, name: string, value: string, opt: Option<OrderedMap<string, PyObj>>)
    requires jar.Valid() && (opt.Some? ==> opt.value.Valid())
    requires opt.Some? ==> forall k :: k in opt.value.m ==> AsciiLower(k) == k
    requires CookieSet(jar, name, PyStr(value), opt).1.Ok?
    ensures var attrs := CookieSet(jar, name, PyStr(value), opt).0.m[name].attrs;
      "path" in attrs && attrs["path"] == (if opt.Some? && "path" in opt.value.m then opt.value.m["path"] else PyStr("/"))
    ensures var attrs := CookieSet(jar, name, PyStr(value), opt).0.m[name].attrs;
      "httponly" in attrs && attrs["httponly"] == (if opt.Some? && "httponly" in opt.value.m then opt.value.m["httponly"] else PyBool(true))
    ensures var attrs := CookieSet(jar, name, PyStr(value), opt).0.m[name].attrs;
      forall k :: opt.Some? && k in opt.value.m ==> k in attrs && attrs[k] == opt.value.m[k]
  {
    var d := CookieOptions(opt);
    var stored := SetAttributes(PutCookie(jar, name, value), name, d.Items());
    assert CookieSet(jar, name, PyStr(value), opt).0 == stored.0 && stored.1.Ok?;
    OptionsLowerCase(opt);
    OptionsStored(jar, name, value, d);
    CookieOptionsDefaults(opt);
    assert "path" in d.m && "httponly" in d.m;
  }

  /** Options with lower-case, hence distinct, attribute names are all stored with their values. */
  lemma OptionsStored(jar: OrderedMap<string, Morsel>, name: string, value: string, d: OrderedMap<string, PyObj>)
    requires jar.Valid() && d.Valid()
    requires forall k :: k in d.m ==> AsciiLower(k) == k
    requires SetAttributes(PutCookie(jar, name, value), name, d.Items()).1.Ok?
    ensures var attrs := SetAttributes(PutCookie(jar, name, value), name, d.Items()).0.m[name].attrs;
      forall k :: k in d.m ==> k in attrs && attrs[k] == d.m[k]
  {
    var items := d.Items();
    var jar1 := PutCookie(jar, name, value);
    AllLastNamed(d);
    SetAttributesValues(jar1, name, items);
    var attrs := SetAttributes(jar1, name, items).0.m[name].attrs;
    forall k | k in d.m ensures k in attrs && attrs[k] == d.m[k] {
      var i :| 0 <= i < |d.keys| && d.keys[i] == k;
      assert items[i] == (k, d.m[k]) && LastNamed(items, i);
    }
  }

  /** In a dict whose names are lower-case, no later item names the same attribute. */
  lemma AllLastNamed(d: OrderedMap<string, PyObj>)
    requires d.Valid()
    requires forall k :: k in d.m ==> AsciiLower(k) == k
    ensures forall i :: 0 <= i < |d.Items()| ==> LastNamed(d.Items(), i)
  {
    var items := d.Items();
    forall i | 0 <= i < |items| ensures LastNamed(items, i) {
      forall j | i < j < |items| ensures AsciiLower(items[j].0) != AsciiLower(items[i].0) {
        assert items[j].0 == d.keys[j] && items[i].0 == d.keys[i];
        assert d.keys[j] in d.m && d.keys[i] in d.m;
      }
    }
  }

  /** With lower-case option names, every name the merged options hold is lower-case. */
  lemma OptionsLowerCase(opt: Option<OrderedMap<string, PyObj>>)
    requires opt.Some? ==> opt.value.Valid()
    requires opt.Some? ==> forall k :: k in opt.value.m ==> AsciiLower(k) == k
    ensures forall k :: k in CookieOptions(opt).m ==> AsciiLower(k) == k
  {
    LowerAttributeNames();
    assert CookieDefaults().keys[..2] == ["path", "httponly"];
    forall k | k in CookieOptions(opt).m ensures AsciiLower(k) == k {
      WithDefaultsGet(ChosenOptions(opt), CookieDefaults(), 2, k);
    }
  }

  /** The options a cookie gets always name `path` and `httponly`. */
  lemma CookieOptionsHasDefaults(opt: Option<OrderedMap<string, PyObj>>)
    requires opt.Some? ==> opt.value.Valid()
    ensures exists i :: 0 <= i < |CookieOptions(opt).Items()| && CookieOptions(opt).Items()[i].0 == "path"
    ensures exists i :: 0 <= i < |CookieOptions(opt).Items()| && CookieOptions(opt).Items()[i].0 == "httponly"
  {
    CookieOptionsDefaults(opt);
    var d := CookieOptions(opt);
    var i :| 0 <= i < |d.keys| && d.keys[i] == "path";
    var j :| 0 <= j < |d.keys| && d.keys[j] == "httponly";
    assert d.Items()[i].0 == "path" && d.Items()[j].0 == "httponly";
  }

  lemma LowerAttributeNames()
    ensures AsciiLower("path") == "path" && AsciiLower("httponly") == "httponly"
  {
  }

  // ---------------------------------------------------------------------
  // The output (vilo.py:387-420)
  // ---------------------------------------------------------------------

  /** Whether `_bytify` serialises the value as JSON. */
  predicate IsJsonBody(x: PyObj) {
    x.PyDict? || x.PyList?
  }

  /** `_bytify(x)`: the bytes of the handler's output. */
  function BodyBytes(x: PyObj, lib: Lib): (r: Outcome<seq<byte>>)
    ensures r.Ok? <==> !IsJsonBody(x) || lib.jsonDumps(x).Some?
    ensures !r.Ok? ==> r == OtherErr(JsonFailure)
    ensures x.PyBytes? ==> r == Ok(x.bytes)
    ensures x.PyStr? ==> r.Ok? && Utf8Decode(r.value) == Some(x.s)
    ensures IsJsonBody(x) && r.Ok? ==> Utf8Decode(r.value) == lib.jsonDumps(x)
    ensures !x.PyStr? && !x.PyBytes? && !IsJsonBody(x) ==> r.Ok? && Utf8Decode(r.value) == Some(lib.pyStr(x))
  {
    Utf8RoundTrip(if x.PyStr? then x.s else lib.pyStr(x));
    match x
    case PyStr(s) => Ok(Utf8Encode(s))
    case PyBytes(bs) => Ok(bs)
    case PyDict(_) => JsonBytes(x, lib)
    case PyList(_) => JsonBytes(x, lib)
    case _ => Ok(Utf8Encode(lib.pyStr(x)))
  }

  /** One `SET-COOKIE` header per cookie, in the jar's order. */
  function CookieHeaders(jar: OrderedMap<string, Morsel>, lib: Lib): (hs: seq<(string, string)>)
    requires jar.Valid()
    ensures |hs| == |jar.keys|
    ensures forall i :: 0 <= i < |hs| ==> hs[i] == ("SET-COOKIE", lib.cookieOutput(jar.keys[i], jar.m[jar.keys[i]]))
  {
    seq(|jar.keys|, i requires 0 <= i < |jar.keys| => ("SET-COOKIE", lib.cookieOutput(jar.keys[i], jar.m[jar.keys[i]])))
  }

  /** The `headerList` of `_finish`: the stored headers, the cookies, then the content type and length. */
  function FinishHeaderList(headerMap: OrderedMap<string, string>, jar: OrderedMap<string, Morsel>, contentType: string, body: seq<byte>, lib: Lib): seq<(string, string)>
    requires headerMap.Valid() && jar.Valid()
  {
    headerMap.Items() + CookieHeaders(jar, lib) + [(ContentTypeKey, contentType), (ContentLengthKey, DecimalString(|body|))]
  }

  /** The header list with each value, but no name, passed through `utf8_to_latin1`. */
  function Latin1Headers(hs: seq<(string, string)>): (ls: seq<(string, string)>)
    ensures |ls| == |hs|
    ensures forall i :: 0 <= i < |hs| ==> ls[i] == (hs[i].0, Utf8ToLatin1(hs[i].1))
  {
    seq(|hs|, i requires 0 <= i < |hs| => (hs[i].0, Utf8ToLatin1(hs[i].1)))
  }

  /** The number of headers with the given name. */
  function Occurrences(hs: seq<(string, string)>, name: string): (n: nat)
    ensures n <= |hs|
    ensures n == 0 <==> forall i :: 0 <= i < |hs| ==> hs[i].0 != name
  {
    if hs == [] then 0
    else
      var rest := Occurrences(hs[1..], name);
      assert forall i :: 1 <= i < |hs| ==> hs[i] == hs[1..][i - 1];
      (if hs[0].0 == name then 1 else 0) + rest
  }

  lemma {:induction false} OccurrencesConcat(a: seq<(string, string)>, b: seq<(string, string)>, name: string)
    ensures Occurrences(a + b, name) == Occurrences(a, name) + Occurrences(b, name)
  {
    if a != [] {
      assert (a + b)[1..] == a[1..] + b;
      OccurrencesConcat(a[1..], b, name);
    } else {
      assert a + b == b;
    }
  }

  /**
   * `_finish` sends exactly one content type and one content length, the
   * length being the decimal size of the body, after the stored headers
   * and the cookies, when the header map holds neither field.
   */
  lemma FinishHeaders(h: Headers, jar: OrderedMap<string, Morsel>, body: seq<byte>, lib: Lib)
    requires HeadersOk(h) && jar.Valid()
    ensures var hs := FinishHeaderList(h.headerMap, jar, h.contentType, body, lib);
      Occurrences(hs, ContentTypeKey) == 1 && Occurrences(hs, ContentLengthKey) == 1
      && hs[..|h.headerMap.keys|] == h.headerMap.Items()
      && hs[|h.headerMap.keys|..|h.headerMap.keys| + |jar.keys|] == CookieHeaders(jar, lib)
      && hs[|hs| - 2] == (ContentTypeKey, h.contentType)
      && hs[|hs| - 1].0 == ContentLengthKey && ParseDecimal(hs[|hs| - 1].1) == |body|
  {
    var items, cookies := h.headerMap.Items(), CookieHeaders(jar, lib);
    var tail := [(ContentTypeKey, h.contentType), (ContentLengthKey, DecimalString(|body|))];
    OccurrencesConcat(items + cookies, tail, ContentTypeKey);
    OccurrencesConcat(items, cookies, ContentTypeKey);
    OccurrencesConcat(items + cookies, tail, ContentLengthKey);
    OccurrencesConcat(items, cookies, ContentLengthKey);
    assert Occurrences(items, ContentTypeKey) == 0 && Occurrences(items, ContentLengthKey) == 0 by {
      forall i | 0 <= i < |items| ensures items[i].0 != ContentTypeKey && items[i].0 != ContentLengthKey {
        assert items[i].0 == h.headerMap.keys[i];
        assert h.headerMap.keys[i] in h.headerMap.m;
      }
    }
    assert "SET-COOKIE" != ContentTypeKey && "SET-COOKIE" != ContentLengthKey;
    assert Occurrences(cookies, ContentTypeKey) == 0 && Occurrences(cookies, ContentLengthKey) == 0;
    assert Occurrences(tail, ContentTypeKey) == 1 by {
      assert tail[1..][1..] == [];
    }
    assert Occurrences(tail, ContentLengthKey) == 1 by {
      assert tail[1..][1..] == [];
    }
    ParseDecimalString(|body|);
  }

  /** Every header value `_finish` sends reads back, with `latin1_to_utf8`, as the value it was given. */
  lemma FinishValuesRecoverable(hs: seq<(string, string)>, i: nat)
    requires i < |hs|
    ensures Latin1ToUtf8(Latin1Headers(hs)[i].1) == Some(hs[i].1)
  {
    Latin1Utf8RoundTrip(hs[i].1);
  }

  // ---------------------------------------------------------------------
  // The response object
  // ---------------------------------------------------------------------

  class Response {
    var statusLine: string
    var contentType: string
    /** `res._headerMap`. */
    var headerMap: OrderedMap<string, string>
    /** `res.cookieJar`: the cookies to set, by name. */
    var cookieJar: OrderedMap<string, Morsel>
    const startResponse: StartResponse

    ghost predicate Valid()
      reads this
    {
      HeadersOk(Headers(contentType, headerMap)) && cookieJar.Valid()
    }

    function HeaderState(): Headers
      reads this
    {
      Headers(contentType, headerMap)
    }

    /** `buildResponse(start_response)`: "200 OK", HTML, no headers and no cookies. */
    constructor (startResponse: StartResponse)
      ensures Valid() && this.startResponse == startResponse
      ensures statusLine == "200 OK" && contentType == "text/html; charset=UTF-8"
      ensures headerMap == Empty() && cookieJar == Empty()
    {
      statusLine := "200 OK";
      contentType := "text/html; charset=UTF-8";
      headerMap := Empty();
      cookieJar := Empty();
      this.startResponse := startResponse;
    }

    /** `res.setHeader(name, value)`. */
    method SetHeader(name: string, value: string) returns (r: Outcome<()>)
      requires Valid()
      modifies this`contentType, this`headerMap
      ensures Valid()
      ensures r == Discard(AfterSetHeader(old(HeaderState()), name, value))
      ensures r.Ok? ==> HeaderState() == AfterSetHeader(old(HeaderState()), name, value).value
      ensures !r.Ok? ==> HeaderState() == old(HeaderState())
    {
      var key := HeaderKey(name);
      if key == ContentTypeKey {
        contentType := value;
      } else if key == ContentLengthKey {
        return OtherErr(ContentLengthSet);
      } else {
        headerMap := headerMap.Put(key, value);
      }
      r := Ok(());
    }

    /** `res.getHeader(name)`: a stored header, by any spelling of its name. */
    function GetHeader(name: string): (v: Option<string>)
      reads this
      ensures v.Some? <==> HeaderKey(name) in headerMap.m
      ensures v.Some? ==> v.value == headerMap.m[HeaderKey(name)]
    {
      headerMap.Get(HeaderKey(name))
    }

    /** `res.setHeaders(headerList)`: `setHeader` on each pair in turn, a dict read as its items. */
    method SetHeaders(arg: HeaderArg) returns (r: Outcome<()>)
      requires Valid() && (arg.HeaderDict? ==> arg.d.Valid())
      modifies this`contentType, this`headerMap
      ensures Valid()
      ensures arg.NotAList? ==> r == OtherErr(AssertionFailed) && HeaderState() == old(HeaderState())
      ensures !arg.NotAList? ==>
        (HeaderState(), r) == ApplyHeaders(old(HeaderState()), if arg.HeaderList? then arg.pairs else arg.d.Items())
    {
      if arg.NotAList? {
        return OtherErr(AssertionFailed);
      }
      var pairs := if arg.HeaderList? then arg.pairs else arg.d.Items();
      r := SetHeaderPairs(pairs);
    }

    /** `mapli(headerList, lambda pair: setHeader(*pair))`: stops at the first pair that raises. */
    method SetHeaderPairs(pairs: seq<(string, string)>) returns (r: Outcome<()>)
      requires Valid()
      modifies this`contentType, this`headerMap
      ensures Valid()
      ensures (HeaderState(), r) == ApplyHeaders(old(HeaderState()), pairs)
    {
      var i := 0;
      while i < |pairs|
        invariant 0 <= i <= |pairs| && Valid()
        invariant ApplyHeaders(HeaderState(), pairs[i..]) == ApplyHeaders(old(HeaderState()), pairs)
      {
        assert pairs[i..][1..] == pairs[i + 1..];
        var done := SetHeader(pairs[i].0, pairs[i].1);
        if !done.Ok? {
          return done;
        }
        i := i + 1;
      }
      r := Ok(());
    }

    /**
     * `res.setUnsignedCookie(name, value, opt)`: stores a string value under
     * `name`, adds the default options to the caller's dict in place (or
     * to a fresh dict when it is missing or empty) and copies them onto
     * the cookie.
     */
    method SetUnsignedCookie(name: string, value: PyObj, opt: OptDict?) returns (r: Outcome<PyObj>)
      requires Valid() && (opt != null ==> opt.items.Valid())
      modifies this`cookieJar, opt
      ensures Valid()
      ensures (cookieJar, r) == CookieSet(old(cookieJar), name, value, if opt == null then None else Some(old(opt.items)))
      ensures opt != null && value.PyStr? && old(opt.items.keys) != [] ==> opt.items == WithDefaults(old(opt.items), CookieDefaults(), 2)
      ensures opt != null && (!value.PyStr? || old(opt.items.keys) == []) ==> opt.items == old(opt.items)
    {
      if !value.PyStr? {
        return OtherErr(AssertionFailed);
      }
      cookieJar := PutCookie(cookieJar, name, value.s);
      var items := MergeOptions(opt);
      var copied := CopyOptions(name, items);
      if !copied.Ok? {
        return copied.PropagateFailure();
      }
      r := Ok(value);
    }

    /** `opt = opt or {}; dictDefaults(opt, {...})`: the options with the defaults added, in the caller's dict when it is non-empty. */
    static method MergeOptions(opt: OptDict?) returns (items: seq<(string, PyObj)>)
      requires opt != null ==> opt.items.Valid()
      modifies opt
      ensures items == CookieOptions(if opt == null then None else Some(old(opt.items))).Items()
      ensures opt != null && old(opt.items.keys) != [] ==> opt.items == WithDefaults(old(opt.items), CookieDefaults(), 2)
      ensures opt != null && old(opt.items.keys) == [] ==> opt.items == old(opt.items)
    {
      var chosen: OptDict;
      if opt == null || opt.items.keys == [] {
        chosen := new OptDict(Empty());
      } else {
        chosen := opt;
      }
      DictDefaults(chosen, CookieDefaults());
      items := chosen.items.Items();
    }

    /** `for optKey, optVal in opt.items(): morsel[optKey] = optVal` on the cookie `name`. */
    method CopyOptions(name: string, items: seq<(string, PyObj)>) returns (r: Outcome<()>)
      requires cookieJar.Valid() && name in cookieJar.m
      modifies this`cookieJar
      ensures (cookieJar, r) == SetAttributes(old(cookieJar), name, items)
    {
      var i := 0;
      while i < |items|
        invariant 0 <= i <= |items|
        invariant cookieJar.Valid() && name in cookieJar.m
        invariant SetAttributes(cookieJar, name, items[i..]) == SetAttributes(old(cookieJar), name, items)
      {
        assert items[i..][1..] == items[i + 1..];
        var m := SetAttribute(cookieJar.m[name], items[i].0, items[i].1);
        if !m.Ok? {
          return Discard(m);
        }
        cookieJar := cookieJar.Put(name, m.value);
        i := i + 1;
      }
      r := Ok(());
    }
    /**
     * `res.setCookie(name, value, secret, opt)`: with a secret the value is
     * signed first; the returned value is what the cookie holds.
     */
    method SetCookie(name: string, value: PyObj, secret: PyObj, opt: OptDict?, lib: Lib) returns (r: Outcome<PyObj>)
      requires Valid() && (opt != null ==> opt.items.Valid())
      modifies this`cookieJar, opt
      ensures Valid()
      ensures Truthy(secret) && !SignWrap(value, secret, lib).Ok? ==>
        Discard(r) == Discard(SignWrap(value, secret, lib)) && cookieJar == old(cookieJar)
      ensures !Truthy(secret) ==>
        (cookieJar, r) == CookieSet(old(cookieJar), name, value, if opt == null then None else Some(old(opt.items)))
      ensures Truthy(secret) && SignWrap(value, secret, lib).Ok? ==>
        (cookieJar, r) == CookieSet(old(cookieJar), name, PyStr(SignWrap(value, secret, lib).value), if opt == null then None else Some(old(opt.items)))
      ensures opt != null && old(opt.items.keys) != [] && (if Truthy(secret) then SignWrap(value, secret, lib).Ok? else value.PyStr?) ==>
        opt.items == WithDefaults(old(opt.items), CookieDefaults(), 2)
      ensures opt != null && (old(opt.items.keys) == [] || !(if Truthy(secret) then SignWrap(value, secret, lib).Ok? else value.PyStr?)) ==>
        opt.items == old(opt.items)
    {
      var uVal := value;
      if Truthy(secret) {
        var signed := SignWrap(value, secret, lib);
        if !signed.Ok? {
          return signed.PropagateFailure();
        }
        uVal := PyStr(signed.value);
      }
      r := SetUnsignedCookie(name, uVal, opt);
    }

    /** `res.redirect(url)`: "302 Found" with a `Location` header, and an empty body. */
    method Redirect(url: string) returns (body: PyObj)
      requires Valid()
      modifies this`statusLine, this`contentType, this`headerMap
      ensures Valid() && body == PyBytes([])
      ensures statusLine == "302 Found" && contentType == old(contentType)
      ensures headerMap == old(headerMap).Put("LOCATION", url)
    {
      statusLine := "302 Found";
      LocationKey();
      var _ := SetHeader("Location", url);
      body := PyBytes([]);
    }

    /** `_bytify(x)`: a list or dict also makes the response JSON, even when serialising it then raises. */
    method Bytify(x: PyObj, lib: Lib) returns (r: Outcome<seq<byte>>)
      modifies this`contentType
      ensures r == BodyBytes(x, lib)
      ensures contentType == if IsJsonBody(x) then "application/json" else old(contentType)
    {
      match x {
        case PyStr(s) => r := Ok(Utf8Encode(s));
        case PyBytes(bs) => r := Ok(bs);
        case PyDict(_) =>
          contentType := "application/json";
          r := JsonBytes(x, lib);
        case PyList(_) =>
          contentType := "application/json";
          r := JsonBytes(x, lib);
        case _ => r := Ok(Utf8Encode(lib.pyStr(x)));
      }
    }

    /**
     * `res._finish(handlerOut)`: one `start_response` call with the Latin-1
     * status line and headers, and the body as the only chunk.
     */
    method Finish(handlerOut: PyObj, lib: Lib) returns (r: Outcome<seq<seq<byte>>>)
      requires Valid()
      modifies this`contentType, startResponse
      ensures Valid()
      ensures contentType == if IsJsonBody(handlerOut) then "application/json" else old(contentType)
      ensures r.Ok? <==> BodyBytes(handlerOut, lib).Ok?
      ensures !r.Ok? ==> Discard(r) == Discard(BodyBytes(handlerOut, lib)) && startResponse.calls == old(startResponse.calls)
      ensures r.Ok? ==> (r.value == [BodyBytes(handlerOut, lib).value]
        && startResponse.calls == old(startResponse.calls) +
          [(Utf8ToLatin1(statusLine), Latin1Headers(FinishHeaderList(headerMap, cookieJar, contentType, r.value[0], lib)))])
    {
      var bBody := Bytify(handlerOut, lib);
      if !bBody.Ok? {
        return bBody.PropagateFailure();
      }
      var headerList := headerMap.Items() + CookieHeaders(cookieJar, lib)
        + [(ContentTypeKey, contentType), (ContentLengthKey, DecimalString(|bBody.value|))];
      var latin1HeaderList := ToLatin1Headers(headerList);
      startResponse.Call(Utf8ToLatin1(statusLine), latin1HeaderList);
      r := Ok([bBody.value]);
    }
  }

  /** The loop building `latin1_headerList`: each value converted, names and order kept. */
  method ToLatin1Headers(headerList: seq<(string, string)>) returns (latin1HeaderList: seq<(string, string)>)
    ensures latin1HeaderList == Latin1Headers(headerList)
  {
    latin1HeaderList := [];
    var i := 0;
    while i < |headerList|
      invariant 0 <= i <= |headerList|
      invariant |latin1HeaderList| == i
      invariant forall k :: 0 <= k < i ==> latin1HeaderList[k] == (headerList[k].0, Utf8ToLatin1(headerList[k].1))
    {
      latin1HeaderList := latin1HeaderList + [(headerList[i].0, Utf8ToLatin1(headerList[i].1))];
      i := i + 1;
    }
  }

  /** `json.dumps(x).encode("utf8")`. */
  function JsonBytes(x: PyObj, lib: Lib): (r: Outcome<seq<byte>>)
    ensures r.Ok? <==> lib.jsonDumps(x).Some?
    ensures r.Ok? ==> r.value == Utf8Encode(lib.jsonDumps(x).value) && Utf8Decode(r.value) == lib.jsonDumps(x)
    ensures !r.Ok? ==> r == OtherErr(JsonFailure)
  {
    match lib.jsonDumps(x)
    case None => OtherErr(JsonFailure)
    case Some(j) => Utf8RoundTrip(j); Ok(Utf8Encode(j))
  }

  /** The key `setHeader("Location", ...)` stores under. */
  lemma LocationKey()
    ensures HeaderKey("Location") == "LOCATION"
  {
    var loc := "Location";
    assert !IsSpace(loc[0]) && !IsSpace(loc[|loc| - 1]);
    assert TrimLeft(loc) == loc;
    assert TrimRight(loc) == loc;
    var up := AsciiUpper(loc);
    assert up[0] == 'L' && up[1] == 'O' && up[2] == 'C' && up[3] == 'A';
    assert up[4] == 'T' && up[5] == 'I' && up[6] == 'O' && up[7] == 'N';
    assert up == "LOCATION";
  }
}
