/**
 * The Python values and exceptions the framework passes around, and the
 * library functions it calls but does not define (JSON, HMAC, regular
 * expressions, query-string and cookie parsing, multipart parsing, URL
 * assembly, `str` of an arbitrary object, cookie rendering and traceback
 * text). Those are fields of a `Lib` record: the model is proved for every
 * choice of them.
 */
module Py {
  import opened Wrappers
  import opened Unicode

  /** The values handlers return and JSON produces; dictionaries with string keys, in insertion order. */
  datatype PyObj =
    | PyNone
    | PyBool(b: bool)
    | PyInt(i: int)
    | PyStr(s: string)
    | PyBytes(bytes: seq<byte>)
    | PyList(items: seq<PyObj>)
    | PyDict(entries: seq<(string, PyObj)>)

  /** Python's truth test: `None`, `False`, zero and empty containers are false. */
  predicate Truthy(x: PyObj) {
    match x
    case PyNone => false
    case PyBool(b) => b
    case PyInt(i) => i != 0
    case PyStr(s) => s != []
    case PyBytes(bs) => bs != []
    case PyList(items) => items != []
    case PyDict(entries) => entries != []
  }

  /** The exceptions other than `HttpError` that the framework raises or lets through. */
  datatype Fault =
    | AssertionFailed          // a failed `assert`
    | WildcardSyntax(msg: string) // `SyntaxError("WildcardError:: ...")`
    | TypeMismatch             // `TypeError`
    | MissingKey(key: string)  // `KeyError`
    | UnicodeFailure           // `UnicodeEncodeError` / `UnicodeDecodeError`
    | Base64Failure            // `binascii.Error`
    | JsonFailure              // `json.dumps` / `json.loads` failures
    | UnboundLocal             // `UnboundLocalError`: a loop variable read after a loop that never ran
    | CookieAttribute(key: string) // `http.cookies.CookieError`: an attribute a cookie does not have
    | ContentLengthSet         // `Exception("The Content-Length header will be automatically set.")`
    | MultipartFailure         // an exception from `cgi.FieldStorage`
    | Raised(id: nat)          // an exception raised by application code

  /** `vilo.HttpError`: a response body, a status line and an optional tag. */
  datatype HttpError = HttpError(body: PyObj, statusLine: string, viloTag: Option<string>)

  /** The result of Python code that may raise: a value, an `HttpError`, or any other exception. */
  datatype Outcome<+T> = Ok(value: T) | HttpErr(error: HttpError) | OtherErr(fault: Fault) {
    predicate IsFailure() {
      !Ok?
    }

    function PropagateFailure<U>(): Outcome<U>
      requires IsFailure()
    {
      if HttpErr? then HttpErr(error) else OtherErr(fault)
    }

    function Extract(): T
      requires Ok?
    {
      value
    }
  }

  /** The same outcome with its value dropped: what a Python function that returns `None` leaves. */
  function Discard<T>(o: Outcome<T>): (r: Outcome<()>)
    ensures r.Ok? <==> o.Ok?
    ensures o.HttpErr? ==> r == HttpErr(o.error)
    ensures o.OtherErr? ==> r == OtherErr(o.fault)
  {
    match o
    case Ok(_) => Ok(())
    case HttpErr(e) => HttpErr(e)
    case OtherErr(f) => OtherErr(f)
  }

  /** An `http.cookies.Morsel`: the cookie's value and its attributes. */
  datatype Morsel = Morsel(value: string, attrs: map<string, PyObj>)

  /** The environment `cgi.FieldStorage` is given for a multipart body. */
  datatype MiniEnviron = MiniEnviron(
    queryString: Option<string>,
    requestMethod: Option<string>,
    contentType: Option<string>,
    contentLength: nat)

  /**
   * One field of `cgi.FieldStorage(...).list`: its name, its file name
   * (`None` for a plain field), the uploaded bytes, the content type and,
   * for a plain field, its value.
   */
  datatype FormField = FormField(
    name: string,
    filename: Option<string>,
    content: seq<byte>,
    mimeType: string,
    value: PyObj)

  /** The library functions the framework calls; `None` results stand for the call raising. */
  datatype Lib = Lib(
    jsonDumps: PyObj -> Option<string>,
    jsonLoads: string -> Option<PyObj>,
    jsonLoadsBytes: seq<byte> -> Option<PyObj>,
    pyStr: PyObj -> string,
    hmacSha512: (seq<byte>, seq<byte>) -> seq<byte>,
    reMatch: (string, string) -> Option<nat>,
    parseQsl: string -> seq<(string, string)>,
    loadCookies: string -> seq<(string, string)>,
    parseMultipart: (seq<byte>, MiniEnviron) -> Option<seq<FormField>>,
    urlUnsplit: (string, Option<string>, string, string) -> string,
    cookieOutput: (string, Morsel) -> string,
    tracebackText: string)

  /** `str(x)`: a string is its own text; other objects as the library renders them. */
  function StrOf(x: PyObj, lib: Lib): string {
    if x.PyStr? then x.s else lib.pyStr(x)
  }
}
