/**
 * `buildRequest(environ)` (vilo.py:168-307): the request object a WSGI
 * call gets. Building it reads the cookie header, the body (at most
 * `MAX_REQUEST_BODY_SIZE` bytes), the URL, the content type, the query
 * data and the form data, in that order; the first step that raises
 * ends the build.
 */
module Requests {
  import opened Wrappers
  import opened Text
  import opened Unicode
  import opened OrderedMaps
  import opened Py
  import opened Helpers
  import opened Signing

  /**
   * The WSGI environment: its string variables as the server gives them
   * (each character one byte, as WSGI requires) and the body stream
   * `wsgi.input`, read to its end.
   */
  datatype Environ = Environ(vars: map<string, string>, input: Option<seq<byte>>)

  // ---------------------------------------------------------------------
  // ekey and the getters built on it (vilo.py:173-185, 234-239)
  // ---------------------------------------------------------------------

  /** `ekey(key, default)`: the variable read back as UTF-8, or the default when it is absent. */
  function Ekey(env: Environ, key: string, default: Option<string>): (r: Outcome<Option<string>>)
    ensures key !in env.vars ==> r == Ok(default)
    ensures key in env.vars ==> (r.Ok? <==> Latin1ToUtf8(env.vars[key]).Some?)
    ensures key in env.vars && r.Ok? ==> r.value.Some? && Utf8ToLatin1(r.value.value) == env.vars[key]
    ensures !r.Ok? ==> r == OtherErr(UnicodeFailure)
  {
    if key !in env.vars then Ok(default)
    else
      match Latin1ToUtf8(env.vars[key])
      case None => OtherErr(UnicodeFailure)
      case Some(s) =>
        Latin1ToUtf8Inverse(env.vars[key]);
        Ok(Some(s))
  }

  /** `ekey(key, default)` with a string default, which always gives a string. */
  function EkeyOr(env: Environ, key: string, default: string): (r: Outcome<string>)
    ensures r.Ok? <==> Ekey(env, key, Some(default)).Ok?
    ensures r.Ok? ==> Some(r.value) == Ekey(env, key, Some(default)).value
    ensures !r.Ok? ==> r == OtherErr(UnicodeFailure)
  {
    var v :- Ekey(env, key, Some(default));
    Ok(v.value)
  }

  /** A variable the server set to the Latin-1 form of `s` reads back as `s`. */
  lemma EkeyOfEncoded(env: Environ, key: string, default: Option<string>, s: string)
    requires key in env.vars && env.vars[key] == Utf8ToLatin1(s)
    ensures Ekey(env, key, default) == Ok(Some(s))
  {
    Latin1Utf8RoundTrip(s);
  }

  /** `req.getPathInfo()`. */
  function GetPathInfo(env: Environ): (r: Outcome<string>)
    ensures "PATH_INFO" !in env.vars ==> r == Ok("/")
    ensures "PATH_INFO" in env.vars && r.Ok? ==> Utf8ToLatin1(r.value) == env.vars["PATH_INFO"]
  {
    EkeyOr(env, "PATH_INFO", "/")
  }

  /** `req.getVerb()`: the request method, upper-cased, "GET" when absent. */
  function GetVerb(env: Environ): (r: Outcome<string>)
    ensures "REQUEST_METHOD" !in env.vars ==> r == Ok("GET")
    ensures r.Ok? ==> AsciiUpper(r.value) == r.value
    ensures "REQUEST_METHOD" in env.vars ==> (r.Ok? <==> Latin1ToUtf8(env.vars["REQUEST_METHOD"]).Some?)
    ensures !r.Ok? ==> r == OtherErr(UnicodeFailure)
  {
    var v :- EkeyOr(env, "REQUEST_METHOD", "GET");
    AsciiUpperIdempotent(v);
    assert AsciiUpper("GET") == "GET";
    Ok(AsciiUpper(v))
  }

  /** A `REQUEST_METHOD` the server set to the Latin-1 form of `s` gives the verb `s`, upper-cased. */
  lemma GetVerbOfEncoded(env: Environ, s: string)
    requires "REQUEST_METHOD" in env.vars && env.vars["REQUEST_METHOD"] == Utf8ToLatin1(s)
    ensures GetVerb(env) == Ok(AsciiUpper(s))
  {
    EkeyOfEncoded(env, "REQUEST_METHOD", Some("GET"), s);
  }

  /** The CGI variable a header is found under: upper-cased, '-' as '_', and "HTTP_" in front of all but two. */
  function CgiKey(name: string): (k: string)
    ensures '-' !in k
    ensures k == "CONTENT_TYPE" || k == "CONTENT_LENGTH" || StartsWith(k, "HTTP_")
  {
    var key := ReplaceChar(AsciiUpper(name), '-', "_");
    if key == "CONTENT_TYPE" || key == "CONTENT_LENGTH" then key else "HTTP_" + key
  }

  /** Upper-casing leaves '-' and '_' alone, so it commutes with replacing one by the other. */
  lemma {:induction false} UpperReplaceCommute(s: string)
    ensures AsciiUpper(ReplaceChar(s, '-', "_")) == ReplaceChar(AsciiUpper(s), '-', "_")
  {
    if s != [] {
      UpperReplaceCommute(s[1..]);
      var head := if s[0] == '-' then "_" else [s[0]];
      var rest := ReplaceChar(s[1..], '-', "_");
      assert ReplaceChar(s, '-', "_") == head + rest;
      UpperConcat(head, rest);
      var u := [UpperChar(s[0])];
      UpperConcat([s[0]], s[1..]);
      assert [s[0]] + s[1..] == s;
      ReplaceCharConcat(u, AsciiUpper(s[1..]), '-', "_");
      UpperReplaceHead(s[0]);
    }
  }

  lemma UpperConcat(a: string, b: string)
    ensures AsciiUpper(a + b) == AsciiUpper(a) + AsciiUpper(b)
  {
  }

  /** One character: upper-casing and then replacing '-' is replacing and then upper-casing. */
  lemma UpperReplaceHead(c: char)
    ensures ReplaceChar([UpperChar(c)], '-', "_") == AsciiUpper(if c == '-' then "_" else [c])
  {
    assert ReplaceChar([UpperChar(c)], '-', "_") == (if UpperChar(c) == '-' then "_" else [UpperChar(c)]) + ReplaceChar([], '-', "_");
  }

  /** Header names are matched without regard to case, and with '-' and '_' alike. */
  lemma CgiKeyNormalises(name: string)
    ensures CgiKey(AsciiUpper(name)) == CgiKey(name)
    ensures CgiKey(ReplaceChar(name, '-', "_")) == CgiKey(name)
  {
    AsciiUpperIdempotent(name);
    UpperReplaceCommute(name);
    var u := ReplaceChar(AsciiUpper(name), '-', "_");
    ReplaceCharAbsent(u, '-', "_");
  }

  /** `req.getHeader(name)`: the header's value, `None` when the request lacks it. */
  function GetHeader(env: Environ, name: string): (r: Outcome<Option<string>>)
    ensures CgiKey(name) !in env.vars ==> r == Ok(None)
    ensures r.Ok? && r.value.Some? ==> CgiKey(name) in env.vars && Utf8ToLatin1(r.value.value) == env.vars[CgiKey(name)]
  {
    Ekey(env, CgiKey(name), None)
  }

  /** `getHeader("CONTENT_TYPE")` reads the variable `CONTENT_TYPE` itself, without the "HTTP_" prefix. */
  lemma ContentTypeHeader(env: Environ)
    ensures GetHeader(env, "CONTENT_TYPE") == Ekey(env, "CONTENT_TYPE", None)
  {
    var u := AsciiUpper("CONTENT_TYPE");
    assert u == "CONTENT_TYPE";
    ReplaceCharAbsent(u, '-', "_");
  }

  /** A header is read the same under any spelling of its name. */
  lemma GetHeaderNormalised(env: Environ, name: string)
    ensures GetHeader(env, AsciiUpper(name)) == GetHeader(env, name)
    ensures GetHeader(env, ReplaceChar(name, '-', "_")) == GetHeader(env, name)
  {
    CgiKeyNormalises(name);
  }

  // ---------------------------------------------------------------------
  // The build steps, as functions of the environment
  // ---------------------------------------------------------------------

  /** The error `fillBody` raises for a body over the limit. */
  function TooLarge(): HttpError {
    MakeHttpError(PyStr("<h2>Request Too Large</h2>"), StatusCode(413), Some("requestTooLarge"))
  }

  /** `fillBody`: the body when it fits the limit; a missing stream is a `KeyError`. */
  function ReadBody(env: Environ): Outcome<seq<byte>> {
    match env.input
    case None => OtherErr(MissingKey("wsgi.input"))
    case Some(input) => if |input| > MaxRequestBodySize then HttpErr(TooLarge()) else Ok(input)
  }

  /** The port a scheme uses when the URL names none. */
  function DefaultPort(scheme: string): string {
    if scheme == "http" then "80" else "443"
  }

  /** The host part when `HTTP_HOST` is missing or empty: the server name, with its port unless that is the default. */
  function ServerNetloc(env: Environ, scheme: string): Outcome<Option<string>> {
    var name :- Ekey(env, "SERVER_NAME", None);
    var port :- Ekey(env, "SERVER_PORT", None);
    if port.Some? && port.value != "" && port.value != DefaultPort(scheme) then
      // `None + ":" + port` is a `TypeError`.
      if name.None? then OtherErr(TypeMismatch) else Ok(Some(name.value + ":" + port.value))
    else Ok(name)
  }

  /** The parts `reconstructUrl` gives `SplitResult`: scheme, host, path and query (the fragment is empty). */
  datatype UrlParts = UrlParts(scheme: string, netloc: Option<string>, path: string, query: string)

  function ReadUrl(env: Environ): Outcome<UrlParts> {
    var scheme :- EkeyOr(env, "wsgi.url_scheme", "http");
    var host :- Ekey(env, "HTTP_HOST", None);
    var netloc :- if host.Some? && host.value != "" then Ok(host) else ServerNetloc(env, scheme);
    var script :- EkeyOr(env, "SCRIPT_NAME", "");
    var pathInfo :- EkeyOr(env, "PATH_INFO", "");
    var query :- EkeyOr(env, "QUERY_STRING", "");
    Ok(UrlParts(scheme, netloc, script + pathInfo, query))
  }

  /** `SplitResult(...).geturl()`. */
  function UrlOf(parts: UrlParts, lib: Lib): string {
    lib.urlUnsplit(parts.scheme, parts.netloc, parts.path, parts.query)
  }

  /** `parseQs(qs)`: `dict(parse_qsl(qs, keep_blank_values=True))`, so a repeated name keeps its last value. */
  function ParseQs(qs: string, lib: Lib): (d: OrderedMap<string, string>)
    ensures d.Valid()
  {
    FromPairs(lib.parseQsl(qs))
  }

  /** A `dict` of strings as a Python object. */
  function StrDict(d: OrderedMap<string, string>): (r: PyObj)
    requires d.Valid()
    ensures r.PyDict? && |r.entries| == |d.keys|
    ensures forall i :: 0 <= i < |d.keys| ==> r.entries[i] == (d.keys[i], PyStr(d.m[d.keys[i]]))
  {
    PyDict(seq(|d.keys|, i requires 0 <= i < |d.keys| => (d.keys[i], PyStr(d.m[d.keys[i]]))))
  }

  /** The environment `cgi.FieldStorage` is given, read with `environ.get` and not `ekey`. */
  function MiniEnvironOf(env: Environ, body: seq<byte>): MiniEnviron {
    MiniEnviron(
      if "QUERY_STRING" in env.vars then Some(env.vars["QUERY_STRING"]) else None,
      if "REQUEST_METHOD" in env.vars then Some(env.vars["REQUEST_METHOD"]) else None,
      if "CONTENT_TYPE" in env.vars then Some(env.vars["CONTENT_TYPE"]) else None,
      |body|)
  }

  /** The entry a multipart field makes: a file's name, bytes and type, or a plain field's value. */
  function FieldEntry(f: FormField): (string, PyObj) {
    if f.filename.Some? && f.filename.value != "" then
      (f.name, PyDict([("filename", PyStr(f.filename.value)), ("bytes", PyBytes(f.content)), ("mimeType", PyStr(f.mimeType))]))
    else (f.name, f.value)
  }

  function FieldEntries(fields: seq<FormField>): (pairs: seq<(string, PyObj)>)
    ensures |pairs| == |fields| && forall i :: 0 <= i < |fields| ==> pairs[i] == FieldEntry(fields[i])
  {
    seq(|fields|, i requires 0 <= i < |fields| => FieldEntry(fields[i]))
  }

  /** What `helper_parseMultipartFormData` returns: one entry per field name, the last field of a name winning. */
  function MultipartData(body: seq<byte>, env: Environ, lib: Lib): (r: Outcome<OrderedMap<string, PyObj>>)
    ensures r.Ok? ==> r.value.Valid()
    ensures !r.Ok? ==> r == OtherErr(MultipartFailure)
  {
    match lib.parseMultipart(body, MiniEnvironOf(env, body))
    case None => OtherErr(MultipartFailure)
    case Some(fields) => Ok(FromPairs(FieldEntries(fields)))
  }

  /** `helper_parseMultipartFormData()`: the fields, put into a fresh dict one by one. */
  method ParseMultipartFormData(contentType: string, body: seq<byte>, env: Environ, lib: Lib)
    returns (r: Outcome<OrderedMap<string, PyObj>>)
    requires StartsWith(contentType, "multipart/form-data")
    ensures r == MultipartData(body, env, lib)
    ensures r.Ok? ==> r.value.Valid()
  {
    var parsed := lib.parseMultipart(body, MiniEnvironOf(env, body));
    if parsed.None? {
      return OtherErr(MultipartFailure);
    }
    var fields := parsed.value;
    ghost var pairs := FieldEntries(fields);
    var parsedData: OrderedMap<string, PyObj> := Empty();
    var i := 0;
    while i < |fields|
      invariant 0 <= i <= |fields|
      invariant parsedData == FromPairs(pairs[..i])
    {
      var entry := FieldEntry(fields[i]);
      assert pairs[..i + 1][..i] == pairs[..i];
      parsedData := parsedData.Put(entry.0, entry.1);
      i := i + 1;
    }
    assert pairs[..i] == pairs;
    r := Ok(parsedData);
  }

  /** `fill_fdata`: the new `req.fdata` for a content type, `None` where it keeps `{}`. */
  function FormData(contentType: Option<string>, body: seq<byte>, env: Environ, lib: Lib): Outcome<Option<PyObj>> {
    if contentType.None? || contentType.value == "" then Ok(None)
    else if contentType.value == "application/x-www-form-urlencoded" then
      Ok(Some(StrDict(ParseQs(Latin1Decode(body), lib))))
    else if contentType.value == "application/json" then
      match lib.jsonLoadsBytes(body)
      case None => OtherErr(JsonFailure)
      case Some(v) => Ok(Some(v))
    else if StartsWith(contentType.value, "multipart/form-data") then
      var data :- MultipartData(body, env, lib);
      Ok(Some(PyDict(data.Items())))
    else Ok(None)
  }

  /** The request's state after a successful build. */
  datatype Fields = Fields(
    cookieJar: OrderedMap<string, string>,
    bodyBytes: seq<byte>,
    url: string,
    query: string,
    contentType: Option<string>,
    qdata: OrderedMap<string, string>,
    fdata: PyObj)

  /** `buildRequest(environ)` as a function: each step in the source's order, the first failure ending it. */
  function BuiltFields(env: Environ, lib: Lib): Outcome<Fields> {
    var cookieText :- EkeyOr(env, "HTTP_COOKIE", "");
    var body :- ReadBody(env);
    BuiltAfterBody(env, lib, FromPairs(lib.loadCookies(cookieText)), body)
  }

  /** The steps after the body is read: the URL, the content type, the query data and the form data. */
  function BuiltAfterBody(env: Environ, lib: Lib, cookieJar: OrderedMap<string, string>, body: seq<byte>): Outcome<Fields> {
    var parts :- ReadUrl(env);
    // `getHeader("CONTENT_TYPE")`, which is this variable (ContentTypeHeader).
    var contentType :- Ekey(env, "CONTENT_TYPE", None);
    var form :- FormData(contentType, body, env, lib);
    Ok(Fields(cookieJar, body, UrlOf(parts, lib), parts.query, contentType, ParseQs(parts.query, lib), form.GetOr(PyDict([]))))
  }

  // ---------------------------------------------------------------------
  // The request object (vilo.py:168-307)
  // ---------------------------------------------------------------------

  class Request {
    const environ: Environ
    /** The captures of the matched wildcard route. */
    var wildcards: seq<string>
    /** The end of the regular-expression match of the matched route. */
    var matched: Option<nat>
    /** `req.cookieJar`: each cookie's value by name. */
    var cookieJar: OrderedMap<string, string>
    var bodyBytes: seq<byte>
    var url: string
    /** `req.splitUrl.query`. */
    var query: string
    var contentType: Option<string>
    var qdata: OrderedMap<string, string>
    var fdata: PyObj

    /** The object before its fields are filled in. */
    constructor (environ: Environ)
      ensures this.environ == environ
      ensures wildcards == [] && matched == None
      ensures cookieJar == Empty() && bodyBytes == [] && url == "" && query == ""
      ensures contentType == None && qdata == Empty() && fdata == PyDict([])
    {
      this.environ := environ;
      wildcards := [];
      matched := None;
      cookieJar := Empty();
      bodyBytes := [];
      url := "";
      query := "";
      contentType := None;
      qdata := Empty();
      fdata := PyDict([]);
    }

    function State(): Fields
      reads this
    {
      Fields(cookieJar, bodyBytes, url, query, contentType, qdata, fdata)
    }

    /**
     * `fillBody()`: reads up to the limit into `bodyBytes`, then raises 413
     * if a byte is left over. The bytes read stay in `bodyBytes` either way.
     */
    method FillBody() returns (r: Outcome<()>)
      modifies this`bodyBytes
      ensures r == Discard(ReadBody(environ))
      ensures environ.input.Some? ==>
        bodyBytes == environ.input.value[..Min(|environ.input.value|, MaxRequestBodySize)]
      ensures environ.input.None? ==> bodyBytes == old(bodyBytes)
    {
      if environ.input.None? {
        return OtherErr(MissingKey("wsgi.input"));
      }
      var input := environ.input.value;
      bodyBytes := input[..Min(|input|, MaxRequestBodySize)];
      if |input| > MaxRequestBodySize {
        return HttpErr(TooLarge());
      }
      assert bodyBytes == input;
      r := Ok(());
    }

    /** `reconstructUrl()`: sets `url` and the query it was built from. */
    method ReconstructUrl(lib: Lib) returns (r: Outcome<()>)
      modifies this`url, this`query
      ensures r == Discard(ReadUrl(environ))
      ensures r.Ok? ==> url == UrlOf(ReadUrl(environ).value, lib) && query == ReadUrl(environ).value.query
      ensures !r.Ok? ==> url == old(url) && query == old(query)
    {
      var scheme :- EkeyOr(environ, "wsgi.url_scheme", "http");
      var netloc :- Ekey(environ, "HTTP_HOST", None);
      if !(netloc.Some? && netloc.value != "") {
        netloc :- Ekey(environ, "SERVER_NAME", None);
        var port :- Ekey(environ, "SERVER_PORT", None);
        if port.Some? && port.value != "" && port.value != DefaultPort(scheme) {
          if netloc.None? {
            return OtherErr(TypeMismatch);
          }
          netloc := Some(netloc.value + ":" + port.value);
        }
      }
      var script :- EkeyOr(environ, "SCRIPT_NAME", "");
      var pathInfo :- EkeyOr(environ, "PATH_INFO", "");
      var q :- EkeyOr(environ, "QUERY_STRING", "");
      var parts := UrlParts(scheme, netloc, script + pathInfo, q);
      url := UrlOf(parts, lib);
      query := q;
      r := Ok(());
    }

    /** `fill_fdata()`: sets `fdata` from the body as the content type says. */
    method FillFdata(lib: Lib) returns (r: Outcome<()>)
      modifies this`fdata
      ensures r == Discard(FormData(contentType, bodyBytes, environ, lib))
      ensures r.Ok? ==> fdata == FormData(contentType, bodyBytes, environ, lib).value.GetOr(old(fdata))
      ensures !r.Ok? ==> fdata == old(fdata)
    {
      if contentType.None? || contentType.value == "" {
        // A falsy content type: `fdata` is left alone.
      } else if contentType.value == "application/x-www-form-urlencoded" {
        fdata := StrDict(ParseQs(Latin1Decode(bodyBytes), lib));
      } else if contentType.value == "application/json" {
        var v := lib.jsonLoadsBytes(bodyBytes);
        if v.None? {
          return OtherErr(JsonFailure);
        }
        fdata := v.value;
      } else if StartsWith(contentType.value, "multipart/form-data") {
        var data :- ParseMultipartFormData(contentType.value, bodyBytes, environ, lib);
        fdata := PyDict(data.Items());
      }
      r := Ok(());
    }

    /** The field writes of `buildRequest`, from the cookie jar to `fill_fdata()`. */
    method Fill(lib: Lib) returns (r: Outcome<()>)
      modifies this`cookieJar, this`bodyBytes, this`url, this`query, this`contentType, this`qdata, this`fdata
      ensures r == Discard(BuiltFields(environ, lib))
      ensures r.Ok? ==> State() == BuiltFields(environ, lib).value
    {
      var cookieText := EkeyOr(environ, "HTTP_COOKIE", "");
      if !cookieText.Ok? {
        return cookieText.PropagateFailure();
      }
      cookieJar := FromPairs(lib.loadCookies(cookieText.value));
      var filled := FillBody();
      if !filled.Ok? {
        assert !ReadBody(environ).Ok?;
        return filled.PropagateFailure();
      }
      assert bodyBytes == ReadBody(environ).value;
      assert BuiltFields(environ, lib) == BuiltAfterBody(environ, lib, cookieJar, bodyBytes);
      r := FillAfterBody(lib);
    }

    /** The rest of the build once the body is read: `reconstructUrl()`, the content type, `qdata` and `fill_fdata()`. */
    method FillAfterBody(lib: Lib) returns (r: Outcome<()>)
      modifies this`url, this`query, this`contentType, this`qdata, this`fdata
      ensures r == Discard(BuiltAfterBody(environ, lib, cookieJar, bodyBytes))
      ensures r.Ok? ==> State() == BuiltAfterBody(environ, lib, cookieJar, bodyBytes).value
    {
      var rebuilt := ReconstructUrl(lib);
      if !rebuilt.Ok? {
        return rebuilt.PropagateFailure();
      }
      // `getHeader("CONTENT_TYPE")`, which is this variable (ContentTypeHeader).
      var ct := Ekey(environ, "CONTENT_TYPE", None);
      if !ct.Ok? {
        return ct.PropagateFailure();
      }
      contentType := ct.value;
      qdata := ParseQs(query, lib);
      fdata := PyDict([]);
      var formed := FillFdata(lib);
      if !formed.Ok? {
        return formed.PropagateFailure();
      }
      r := Ok(());
    }

    /** `getUnsignedCookie(name)`: the cookie's value, `None` when there is no such cookie. */
    function GetUnsignedCookie(name: string): (v: Option<string>)
      reads this
      ensures v.Some? <==> name in cookieJar.m
      ensures v.Some? ==> v.value == cookieJar.m[name]
    {
      cookieJar.Get(name)
    }

    /**
     * `getCookie(name, secret)`: `None` for a missing or empty cookie, the
     * raw value without a secret, and the verified value with one.
     */
    function GetCookie(name: string, secret: PyObj, lib: Lib): (r: Outcome<PyObj>)
      reads this
      ensures (name !in cookieJar.m || cookieJar.m[name] == "") ==> r == Ok(PyNone)
      ensures name in cookieJar.m && cookieJar.m[name] != "" && !Truthy(secret) ==> r == Ok(PyStr(cookieJar.m[name]))
      ensures name in cookieJar.m && cookieJar.m[name] != "" && Truthy(secret) ==> r == SignUnwrap(PyStr(cookieJar.m[name]), secret, lib)
    {
      var uVal := GetUnsignedCookie(name);
      if uVal.None? || uVal.value == "" then Ok(PyNone)
      else if !Truthy(secret) then Ok(PyStr(uVal.value))
      else SignUnwrap(PyStr(uVal.value), secret, lib)
    }

    /** A cookie set with `setCookie(name, v, secret)` reads back as `v` with the same secret. */
    lemma SignedCookieRoundTrip(name: string, v: PyObj, secret: PyObj, lib: Lib)
      requires (secret.PyStr? || secret.PyBytes?) && Truthy(secret)
      requires JsonRoundTrips(lib, v) && SignWrap(v, secret, lib).Ok?
      requires cookieJar.Get(name) == Some(SignWrap(v, secret, lib).value)
      ensures GetCookie(name, secret, lib) == Ok(v)
    {
      SignRoundTrip(v, secret, lib);
      var j := lib.jsonDumps(v).value;
      var b := SignedBytes(Utf8Encode(j), Hmacy(Utf8Encode(j), ToBytes(secret).value, lib));
      assert |SignWrap(v, secret, lib).value| == |b|;
    }
  }

  /**
   * `buildRequest(environ)`: a new request whose fields are filled in the
   * source's order, or the exception of the first step that raises.
   */
  method BuildRequest(env: Environ, lib: Lib) returns (r: Outcome<Request>)
    ensures r.Ok? <==> BuiltFields(env, lib).Ok?
    ensures r.Ok? ==> fresh(r.value) && r.value.environ == env && r.value.State() == BuiltFields(env, lib).value
    ensures r.Ok? ==> r.value.wildcards == [] && r.value.matched == None
    ensures !r.Ok? ==> Discard(r) == Discard(BuiltFields(env, lib))
  {
    var req := new Request(env);
    var filled := req.Fill(lib);
    if !filled.Ok? {
      return filled.PropagateFailure();
    }
    r := Ok(req);
  }

  // ---------------------------------------------------------------------
  // Properties of the built request
  // ---------------------------------------------------------------------

  /** A build that fails gives the exception of its first failing step. */
  lemma BuiltFailure(env: Environ, lib: Lib)
    ensures !EkeyOr(env, "HTTP_COOKIE", "").Ok? ==>
      Discard(BuiltFields(env, lib)) == Discard(EkeyOr(env, "HTTP_COOKIE", ""))
    ensures EkeyOr(env, "HTTP_COOKIE", "").Ok? && !ReadBody(env).Ok? ==>
      Discard(BuiltFields(env, lib)) == Discard(ReadBody(env))
    ensures EkeyOr(env, "HTTP_COOKIE", "").Ok? && ReadBody(env).Ok? && !ReadUrl(env).Ok? ==>
      Discard(BuiltFields(env, lib)) == Discard(ReadUrl(env))
    ensures EkeyOr(env, "HTTP_COOKIE", "").Ok? && ReadBody(env).Ok? && ReadUrl(env).Ok? && !Ekey(env, "CONTENT_TYPE", None).Ok? ==>
      Discard(BuiltFields(env, lib)) == Discard(Ekey(env, "CONTENT_TYPE", None))
    ensures EkeyOr(env, "HTTP_COOKIE", "").Ok? && ReadBody(env).Ok? && ReadUrl(env).Ok? && Ekey(env, "CONTENT_TYPE", None).Ok?
      && !FormData(Ekey(env, "CONTENT_TYPE", None).value, ReadBody(env).value, env, lib).Ok?
      ==> Discard(BuiltFields(env, lib)) == Discard(FormData(Ekey(env, "CONTENT_TYPE", None).value, ReadBody(env).value, env, lib))
  {
  }

  /** A build succeeds exactly when every step does, and its fields are then those of the steps. */
  lemma BuiltSteps(env: Environ, lib: Lib)
    ensures BuiltFields(env, lib).Ok? <==>
      EkeyOr(env, "HTTP_COOKIE", "").Ok? && ReadBody(env).Ok? && ReadUrl(env).Ok?
      && Ekey(env, "CONTENT_TYPE", None).Ok?
      && FormData(Ekey(env, "CONTENT_TYPE", None).value, ReadBody(env).value, env, lib).Ok?
    ensures BuiltFields(env, lib).Ok? ==> BuiltFields(env, lib).value == Fields(
      FromPairs(lib.loadCookies(EkeyOr(env, "HTTP_COOKIE", "").value)),
      ReadBody(env).value,
      UrlOf(ReadUrl(env).value, lib),
      ReadUrl(env).value.query,
      Ekey(env, "CONTENT_TYPE", None).value,
      ParseQs(ReadUrl(env).value.query, lib),
      FormData(Ekey(env, "CONTENT_TYPE", None).value, ReadBody(env).value, env, lib).value.GetOr(PyDict([])))
  {
  }

  /** A body over `MAX_REQUEST_BODY_SIZE` is refused with "413 Payload Too Large" and the tag `requestTooLarge`. */
  lemma BuildTooLarge(env: Environ, lib: Lib)
    requires EkeyOr(env, "HTTP_COOKIE", "").Ok?
    requires env.input.Some? && |env.input.value| > MaxRequestBodySize
    ensures BuiltFields(env, lib).HttpErr?
    ensures BuiltFields(env, lib).error.statusLine == "413 Payload Too Large"
    ensures BuiltFields(env, lib).error.viloTag == Some("requestTooLarge")
  {
    BuiltSteps(env, lib);
  }

  /** A built request holds the whole body, which fits the limit. */
  lemma BuildBody(env: Environ, lib: Lib)
    requires BuiltFields(env, lib).Ok?
    ensures env.input == Some(BuiltFields(env, lib).value.bodyBytes)
    ensures |BuiltFields(env, lib).value.bodyBytes| <= MaxRequestBodySize
  {
    BuiltSteps(env, lib);
  }

  /** The query data is the parse of `QUERY_STRING` as the server gave it ("" when absent). */
  lemma BuildQuery(env: Environ, lib: Lib)
    requires BuiltFields(env, lib).Ok?
    ensures var f := BuiltFields(env, lib).value;
      f.qdata == ParseQs(f.query, lib)
      && ("QUERY_STRING" in env.vars ==> Utf8ToLatin1(f.query) == env.vars["QUERY_STRING"])
      && ("QUERY_STRING" !in env.vars ==> f.query == "")
  {
    BuiltSteps(env, lib);
    ReadUrlQuery(env);
  }

  /** The query part of the URL is `QUERY_STRING` read back as UTF-8, "" when absent. */
  lemma ReadUrlQuery(env: Environ)
    requires ReadUrl(env).Ok?
    ensures "QUERY_STRING" in env.vars ==> Utf8ToLatin1(ReadUrl(env).value.query) == env.vars["QUERY_STRING"]
    ensures "QUERY_STRING" !in env.vars ==> ReadUrl(env).value.query == ""
  {
  }

  /** `fill_fdata` by content type. */
  lemma FormDataCases(ct: Option<string>, body: seq<byte>, env: Environ, lib: Lib)
    requires FormData(ct, body, env, lib).Ok?
    ensures var form := FormData(ct, body, env, lib).value.GetOr(PyDict([]));
      (ct == Some("application/x-www-form-urlencoded") ==> form == StrDict(ParseQs(Latin1Decode(body), lib)))
      && (ct == Some("application/json") ==> lib.jsonLoadsBytes(body) == Some(form))
      && (ct.Some? && StartsWith(ct.value, "multipart/form-data") ==>
            MultipartData(body, env, lib).Ok? && form == PyDict(MultipartData(body, env, lib).value.Items()))
      && ((ct.None? || !(StartsWith(ct.value, "multipart/form-data") || ct.value in {"application/x-www-form-urlencoded", "application/json"}))
            ==> form == PyDict([]))
  {
    if ct.Some? && StartsWith(ct.value, "multipart/form-data") {
      MultipartNotOther(ct.value);
    }
  }

  lemma MultipartNotOther(s: string)
    requires StartsWith(s, "multipart/form-data")
    ensures s != "" && s != "application/x-www-form-urlencoded" && s != "application/json"
  {
    assert s[0] == "multipart/form-data"[0] == 'm';
  }

  /**
   * The form data follows the content type: parsed URL-encoded pairs, the
   * JSON value, the multipart fields, or `{}` for any other type.
   */
  lemma BuildForm(env: Environ, lib: Lib)
    requires BuiltFields(env, lib).Ok?
    ensures var f := BuiltFields(env, lib).value;
      var ct := f.contentType;
      (ct == Some("application/x-www-form-urlencoded") ==> f.fdata == StrDict(ParseQs(Latin1Decode(f.bodyBytes), lib)))
      && (ct == Some("application/json") ==> lib.jsonLoadsBytes(f.bodyBytes) == Some(f.fdata))
      && (ct.Some? && StartsWith(ct.value, "multipart/form-data") ==>
            MultipartData(f.bodyBytes, env, lib).Ok? && f.fdata == PyDict(MultipartData(f.bodyBytes, env, lib).value.Items()))
      && ((ct.None? || !(StartsWith(ct.value, "multipart/form-data") || ct.value in {"application/x-www-form-urlencoded", "application/json"}))
            ==> f.fdata == PyDict([]))
  {
    BuiltSteps(env, lib);
    FormDataCases(Ekey(env, "CONTENT_TYPE", None).value, ReadBody(env).value, env, lib);
  }

  /** With `HTTP_HOST` set, the URL's host is that header. */
  lemma UrlHostWins(env: Environ, host: string)
    requires ReadUrl(env).Ok?
    requires "HTTP_HOST" in env.vars && env.vars["HTTP_HOST"] == Utf8ToLatin1(host) && host != ""
    ensures ReadUrl(env).value.netloc == Some(host)
  {
    EkeyOfEncoded(env, "HTTP_HOST", None, host);
  }

  /** Without `HTTP_HOST`, the server name is used, followed by the port unless it is the scheme's default. */
  lemma UrlServerPort(env: Environ, scheme: string, name: string, port: string)
    requires ReadUrl(env).Ok? && "HTTP_HOST" !in env.vars
    requires "wsgi.url_scheme" in env.vars && env.vars["wsgi.url_scheme"] == Utf8ToLatin1(scheme)
    requires "SERVER_NAME" in env.vars && env.vars["SERVER_NAME"] == Utf8ToLatin1(name)
    requires "SERVER_PORT" in env.vars && env.vars["SERVER_PORT"] == Utf8ToLatin1(port)
    ensures port == "" || port == DefaultPort(scheme) ==> ReadUrl(env).value.netloc == Some(name)
    ensures port != "" && port != DefaultPort(scheme) ==> ReadUrl(env).value.netloc == Some(name + ":" + port)
  {
    EkeyOfEncoded(env, "wsgi.url_scheme", Some("http"), scheme);
    EkeyOfEncoded(env, "SERVER_NAME", None, name);
    EkeyOfEncoded(env, "SERVER_PORT", None, port);
  }

  /** A non-default port with no server name to put before it is a `TypeError`. */
  lemma UrlPortWithoutName(env: Environ, port: string)
    requires "HTTP_HOST" !in env.vars && "SERVER_NAME" !in env.vars && "wsgi.url_scheme" !in env.vars
    requires "SERVER_PORT" in env.vars && env.vars["SERVER_PORT"] == Utf8ToLatin1(port)
    requires port != "" && port != "80"
    ensures ReadUrl(env) == OtherErr(TypeMismatch)
  {
    EkeyOfEncoded(env, "SERVER_PORT", None, port);
  }
}
