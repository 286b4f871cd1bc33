/**
 * What a handler does to the response object while it runs, as data: the
 * calls it makes on `res` (vilo.py:323-385), in order, and what it then
 * returns or raises. Handlers are application code, so their behaviour is
 * a parameter of the model; the framework's part is carrying the calls out.
 */
module Actions {
  import opened Wrappers
  import opened OrderedMaps
  import opened Py
  import opened Signing
  import opened Responses

  /** A call a handler makes on the response. */
  datatype ResAction =
    | SetStatus(line: string)                              // `res.statusLine = line`
    | SetHeader(name: string, value: string)               // `res.setHeader(name, value)`
    | SetCookie(cookie: string, cval: PyObj, secret: PyObj)  // `res.setCookie(name, value, secret)`
    | Redirect(url: string)                                // `res.redirect(url)`

  /** One run of a handler: its calls on the response, then its return value or exception. */
  datatype HandlerRun = HandlerRun(actions: seq<ResAction>, result: Outcome<PyObj>)

  /** The response's fields a handler can change. */
  datatype ResState = ResState(statusLine: string, headers: Headers, jar: OrderedMap<string, Morsel>)

  ghost predicate StateOk(s: ResState) {
    HeadersOk(s.headers) && s.jar.Valid()
  }

  /** A fresh response: "200 OK", HTML, no headers and no cookies. */
  function InitialState(): (s: ResState)
    ensures StateOk(s)
  {
    ResState("200 OK", Headers("text/html; charset=UTF-8", Empty()), Empty())
  }

  function Snapshot(res: Response): ResState
    reads res
  {
    ResState(res.statusLine, res.HeaderState(), res.cookieJar)
  }

  /** The value `setCookie` stores: signed when there is a secret. */
  function CookieValue(value: PyObj, secret: PyObj, lib: Lib): (r: Outcome<PyObj>)
    ensures !Truthy(secret) ==> r == Ok(value)
    ensures Truthy(secret) ==> (r.Ok? <==> SignWrap(value, secret, lib).Ok?)
    ensures Truthy(secret) && r.Ok? ==> r.value == PyStr(SignWrap(value, secret, lib).value)
    ensures Truthy(secret) && !r.Ok? ==> r == SignWrap(value, secret, lib).PropagateFailure()
  {
    if !Truthy(secret) then Ok(value)
    else
      var signed := SignWrap(value, secret, lib);
      if signed.Ok? then Ok(PyStr(signed.value)) else signed.PropagateFailure()
  }

  /** `res.setHeader(name, value)` on the state. */
  function HeaderAct(s: ResState, name: string, value: string): (r: (ResState, Outcome<()>))
    requires StateOk(s)
    ensures StateOk(r.0) && r.0.statusLine == s.statusLine && r.0.jar == s.jar
    ensures r.1 == Discard(AfterSetHeader(s.headers, name, value))
    ensures r.1.Ok? ==> r.0.headers == AfterSetHeader(s.headers, name, value).value
    ensures !r.1.Ok? ==> r.0 == s
  {
    var h := AfterSetHeader(s.headers, name, value);
    if h.Ok? then (s.(headers := h.value), Ok(())) else (s, Discard(h))
  }

  /** `res.setCookie(name, value, secret)` on the state. */
  function CookieAct(s: ResState, name: string, value: PyObj, secret: PyObj, lib: Lib): (r: (ResState, Outcome<()>))
    requires StateOk(s)
    ensures StateOk(r.0) && r.0.statusLine == s.statusLine && r.0.headers == s.headers
    ensures !CookieValue(value, secret, lib).Ok? ==> r == (s, Discard(CookieValue(value, secret, lib)))
    ensures CookieValue(value, secret, lib).Ok? ==>
      var stored := CookieSet(s.jar, name, CookieValue(value, secret, lib).value, None);
      r == (s.(jar := stored.0), Discard(stored.1))
  {
    var uVal := CookieValue(value, secret, lib);
    if !uVal.Ok? then (s, Discard(uVal))
    else
      var stored := CookieSet(s.jar, name, uVal.value, None);
      (s.(jar := stored.0), Discard(stored.1))
  }

  /** `res.redirect(url)` on the state. */
  function RedirectAct(s: ResState, url: string): (r: ResState)
    requires StateOk(s)
    ensures StateOk(r) && r.statusLine == "302 Found" && r.jar == s.jar
    ensures r.headers == Headers(s.headers.contentType, s.headers.headerMap.Put("LOCATION", url))
  {
    s.(statusLine := "302 Found", headers := s.headers.(headerMap := s.headers.headerMap.Put("LOCATION", url)))
  }

  /** One call on the response: the new state, and the exception it raises if any. */
  function Act(s: ResState, a: ResAction, lib: Lib): (r: (ResState, Outcome<()>))
    requires StateOk(s)
    ensures StateOk(r.0)
    ensures !r.1.Ok? ==> r.0.statusLine == s.statusLine && r.0.headers == s.headers
    ensures a.SetStatus? ==> r == (s.(statusLine := a.line), Ok(()))
    ensures a.Redirect? ==> r.1.Ok? && r.0.statusLine == "302 Found"
  {
    match a
    case SetStatus(line) => (s.(statusLine := line), Ok(()))
    case SetHeader(name, value) => HeaderAct(s, name, value)
    case SetCookie(name, value, secret) => CookieAct(s, name, value, secret, lib)
    case Redirect(url) => (RedirectAct(s, url), Ok(()))
  }

  /** The calls in order, stopping at the first that raises. */
  function ActAll(s: ResState, actions: seq<ResAction>, lib: Lib): (r: (ResState, Outcome<()>))
    requires StateOk(s)
    ensures StateOk(r.0)
    decreases |actions|
  {
    if actions == [] then (s, Ok(()))
    else
      var first := Act(s, actions[0], lib);
      if !first.1.Ok? then first else ActAll(first.0, actions[1..], lib)
  }

  /** A handler run: the state its calls leave, and its result, or the exception of a call that raised. */
  function Ran(s: ResState, run: HandlerRun, lib: Lib): (r: (ResState, Outcome<PyObj>))
    requires StateOk(s)
    ensures StateOk(r.0)
  {
    var done := ActAll(s, run.actions, lib);
    (done.0, if done.1.Ok? then run.result else done.1.PropagateFailure())
  }

  /** Calls other than `statusLine = ...` and `redirect` leave the status line as it was, raising or not. */
  lemma {:induction false} ActAllKeepsStatus(s: ResState, acts: seq<ResAction>, lib: Lib)
    requires StateOk(s)
    requires forall k :: 0 <= k < |acts| ==> !acts[k].SetStatus? && !acts[k].Redirect?
    ensures ActAll(s, acts, lib).0.statusLine == s.statusLine
    decreases |acts|
  {
    if acts != [] {
      var first := Act(s, acts[0], lib);
      assert first.0.statusLine == s.statusLine;
      if first.1.Ok? {
        ActAllKeepsStatus(first.0, acts[1..], lib);
      }
    }
  }

  /**
   * The status line a run leaves is the one its last `statusLine = line`
   * set, when no call before it raised and none after it redirects or sets
   * another.
   */
  lemma {:induction false} ActAllLastStatus(s: ResState, before: seq<ResAction>, line: string, after: seq<ResAction>, lib: Lib)
    requires StateOk(s)
    requires ActAll(s, before, lib).1.Ok?
    requires forall k :: 0 <= k < |after| ==> !after[k].SetStatus? && !after[k].Redirect?
    ensures ActAll(s, before + [SetStatus(line)] + after, lib).0.statusLine == line
    decreases |before|
  {
    SplitAround(before, SetStatus(line), after);
    if before == [] {
      ActAllKeepsStatus(s.(statusLine := line), after, lib);
    } else {
      ActAllLastStatus(Act(s, before[0], lib).0, before[1..], line, after, lib);
    }
  }

  /** A call that raises ends the run: the later calls are never made. */
  lemma {:induction false} ActAllStops(s: ResState, before: seq<ResAction>, a: ResAction, after: seq<ResAction>, lib: Lib)
    requires StateOk(s)
    requires ActAll(s, before, lib).1.Ok?
    requires !Act(ActAll(s, before, lib).0, a, lib).1.Ok?
    ensures ActAll(s, before + [a] + after, lib) == Act(ActAll(s, before, lib).0, a, lib)
    decreases |before|
  {
    SplitAround(before, a, after);
    if before != [] {
      ActAllStops(Act(s, before[0], lib).0, before[1..], a, after, lib);
    }
  }

  /** The head and tail of `before + [a] + after`. */
  lemma SplitAround<T>(before: seq<T>, a: T, after: seq<T>)
    ensures before == [] ==> (before + [a] + after)[0] == a && (before + [a] + after)[1..] == after
    ensures before != [] ==> (before + [a] + after)[0] == before[0] && (before + [a] + after)[1..] == before[1..] + [a] + after
  {
    if before == [] {
      assert before + [a] + after == [a] + after;
    } else {
      assert (before + [a] + after)[1..] == before[1..] + [a] + after;
    }
  }

  /** Carrying out one call on the response object. */
  method Perform(res: Response, a: ResAction, lib: Lib) returns (r: Outcome<()>)
    requires res.Valid()
    modifies res
    ensures res.Valid()
    ensures (Snapshot(res), r) == Act(old(Snapshot(res)), a, lib)
  {
    match a {
      case SetStatus(line) =>
        res.statusLine := line;
        r := Ok(());
      case SetHeader(name, value) =>
        r := res.SetHeader(name, value);
      case SetCookie(name, value, secret) =>
        r := PerformCookie(res, name, value, secret, lib);
      case Redirect(url) =>
        var _ := res.Redirect(url);
        r := Ok(());
    }
  }

  /** `res.setCookie(name, value, secret)` without options. */
  method PerformCookie(res: Response, name: string, value: PyObj, secret: PyObj, lib: Lib) returns (r: Outcome<()>)
    requires res.Valid()
    modifies res
    ensures res.Valid()
    ensures (Snapshot(res), r) == CookieAct(old(Snapshot(res)), name, value, secret, lib)
  {
    ghost var s0 := Snapshot(res);
    ghost var uVal := CookieValue(value, secret, lib);
    var out := res.SetCookie(name, value, secret, null, lib);
    r := Discard(out);
    assert res.statusLine == s0.statusLine && res.HeaderState() == s0.headers;
    if uVal.Ok? {
      ghost var stored := CookieSet(s0.jar, name, uVal.value, None);
      assert res.cookieJar == stored.0 && out == stored.1;
      assert Snapshot(res) == s0.(jar := stored.0);
    } else {
      assert res.cookieJar == s0.jar && r == Discard(uVal);
      assert Snapshot(res) == s0;
    }
  }

  /** Running a handler against the response: its calls in order, then its result. */
  method RunHandler(res: Response, run: HandlerRun, lib: Lib) returns (r: Outcome<PyObj>)
    requires res.Valid()
    modifies res
    ensures res.Valid()
    ensures (Snapshot(res), r) == Ran(old(Snapshot(res)), run, lib)
  {
    var i := 0;
    while i < |run.actions|
      invariant 0 <= i <= |run.actions| && res.Valid()
      invariant ActAll(Snapshot(res), run.actions[i..], lib) == ActAll(old(Snapshot(res)), run.actions, lib)
    {
      assert run.actions[i..][0] == run.actions[i];
      assert run.actions[i..][1..] == run.actions[i + 1..];
      var done := Perform(res, run.actions[i], lib);
      if !done.Ok? {
        return done.PropagateFailure();
      }
      i := i + 1;
    }
    r := run.result;
  }
}
