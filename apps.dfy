/**
 * `buildApp()` (vilo.py:519-640): the route list, the plugins, the table
 * of error handlers by tag, and `wsgi(environ, start_response)`, which
 * builds the request and the response, finds the first matching route,
 * runs its plugged handler, turns an exception into an error response and
 * finishes the response.
 */
module Apps {
  import opened Wrappers
  import opened Text
  import opened Unicode
  import opened OrderedMaps
  import opened Py
  import opened Helpers
  import opened Routes
  import opened Requests
  import opened Matching
  import opened Responses
  import opened Actions

  /** An entry of `app.viloErrorTagMap`: one of the framework's own handlers, or the application's. */
  datatype ErrHandler =
    | DefaultTag(code: int, msg: string) // `mkDefault_viloErrTag_handler(code, msg)`
    | DefaultUnexpected                  // `default_viloErrTag_handler_unexpectedError`
    | Custom(id: nat)                    // a function given to `onViloErrorTag`

  /** The exception an error handler is given. */
  datatype Exc = HttpExc(e: HttpError) | OtherExc(f: Fault)

  /** What a handler can read of the request. */
  datatype RequestView = RequestView(environ: Environ, fields: Fields, wildcards: seq<string>, matched: Option<nat>)

  /**
   * The application's code: how each (plugged) route handler and each
   * error handler given to `onViloErrorTag` behaves on a request.
   */
  datatype Handlers = Handlers(
    route: (Fn, RequestView) -> HandlerRun,
    onError: (nat, RequestView, Exc) -> HandlerRun)

  /** The application's state: routes, plugins, error handlers and the debug flag. */
  datatype Config = Config(routes: seq<Route>, plugins: seq<nat>, tagMap: OrderedMap<string, ErrHandler>, debug: bool)

  function ViewOf(req: Request): RequestView
    reads req
  {
    RequestView(req.environ, req.State(), req.wildcards, req.matched)
  }

  // ---------------------------------------------------------------------
  // Error handlers (vilo.py:549-590)
  // ---------------------------------------------------------------------

  const UnexpectedTag: string := "unexpectedError"
  const TagNames: seq<string> := ["routeNotFound", "fileNotFound", "requestTooLarge", UnexpectedTag]

  /** The initial `app.viloErrorTagMap`. */
  function DefaultTagMap(): (m: OrderedMap<string, ErrHandler>)
    ensures m.Valid() && m.keys == TagNames
  {
    OrderedMap(TagNames, map[
      "routeNotFound" := DefaultTag(404, "No such route."),
      "fileNotFound" := DefaultTag(404, "No such file."),
      "requestTooLarge" := DefaultTag(413, "Request too large."),
      UnexpectedTag := DefaultUnexpected])
  }

  /**
   * `defaultErrorHandler` for a status code and a message: JSON for a JSON
   * request, else the status line and the message, escaped, as HTML. The
   * HTML page cannot carry markup from the message, and both its parts
   * read back unchanged.
   */
  function DefaultErrorOutput(code: int, msg: string, contentType: Option<string>): (r: PyObj)
    ensures contentType == Some("application/json") ==>
      r == PyDict([("status", PyStr(StatusLineFromCode(code))), ("msg", PyStr(msg))])
    ensures contentType != Some("application/json") ==>
      exists a, b :: (r == PyStr("<h2>" + a + "</h2><pre>" + b + "</pre>")
        && '<' !in a && '<' !in b && Unescape(a) == StatusLineFromCode(code) && Unescape(b) == msg)
  {
    var statusLine := StatusLineFromCode(code);
    UnescapeEsc(statusLine);
    UnescapeEsc(msg);
    if contentType == Some("application/json") then PyDict([("status", PyStr(statusLine)), ("msg", PyStr(msg))])
    else PyStr("<h2>" + Esc(statusLine) + "</h2><pre>" + Esc(msg) + "</pre>")
  }

  const InternalErrorPage: string := "<h2>500 Internal Server Error</h2>"
  const TracebackHead: string :=
    "\n            <h2>500 Internal Server Error</h2>\n            <hr>\n            <h3>Traceback</h3>\n            <pre>"
  const TracebackTail: string := "</pre>\n        "

  /**
   * `default_viloErrTag_handler_unexpectedError`: outside debug mode always
   * the same page; in debug mode the traceback, escaped so that it adds no
   * markup and reads back unchanged, between a fixed head and tail.
   */
  function UnexpectedOutput(debug: bool, traceback: string): (r: string)
    ensures !debug ==> r == InternalErrorPage
    ensures debug ==> exists t :: (r == TracebackHead + t + TracebackTail && '<' !in t && Unescape(t) == traceback)
  {
    UnescapeEsc(traceback);
    if !debug then InternalErrorPage else TracebackHead + Esc(traceback) + TracebackTail
  }

  /** An error handler's run: the framework's handlers only return, the application's may act on the response. */
  function ErrorOutput(hnd: ErrHandler, v: RequestView, exc: Exc, s: ResState, debug: bool, h: Handlers, lib: Lib): (r: (ResState, Outcome<PyObj>))
    requires StateOk(s)
    ensures StateOk(r.0)
    ensures !hnd.Custom? ==> r.0 == s && r.1.Ok?
  {
    match hnd
    case DefaultTag(code, msg) => (s, Ok(DefaultErrorOutput(code, msg, v.fields.contentType)))
    case DefaultUnexpected => (s, Ok(PyStr(UnexpectedOutput(debug, lib.tracebackText))))
    case Custom(id) => Ran(s, h.onError(id, v, exc), lib)
  }

  // ---------------------------------------------------------------------
  // plugRoute (vilo.py:542-547)
  // ---------------------------------------------------------------------

  /** The handler with each plugin applied in turn, the first installed innermost. */
  function Plug(fn: Fn, plugins: seq<nat>): Fn
    decreases |plugins|
  {
    if plugins == [] then fn else Plugged(plugins[|plugins| - 1], Plug(fn, plugins[..|plugins| - 1]))
  }

  /** The plugins a handler is wrapped in, from the innermost out. */
  function Layers(f: Fn): seq<nat> {
    match f
    case Base(_) => []
    case Plugged(p, inner) => Layers(inner) + [p]
  }

  /** The function given to `addRoute`, under all its plugins. */
  function Core(f: Fn): nat {
    match f
    case Base(id) => id
    case Plugged(_, inner) => Core(inner)
  }

  /** Plugging wraps the handler in exactly the installed plugins, in installation order from the inside out. */
  lemma {:induction false} PlugLayers(fn: Fn, plugins: seq<nat>)
    ensures Layers(Plug(fn, plugins)) == Layers(fn) + plugins
    ensures Core(Plug(fn, plugins)) == Core(fn)
    decreases |plugins|
  {
    if plugins != [] {
      var n := |plugins| - 1;
      PlugLayers(fn, plugins[..n]);
      assert plugins == plugins[..n] + [plugins[n]];
    }
  }

  // ---------------------------------------------------------------------
  // getMatchingRoute (vilo.py:593-605)
  // ---------------------------------------------------------------------

  /** `HttpError("<h2>Route Not Found</h2>", 404, "routeNotFound")`. */
  function RouteNotFound(): HttpError {
    MakeHttpError(PyStr("<h2>Route Not Found</h2>"), StatusCode(404), Some("routeNotFound"))
  }

  lemma RouteNotFoundLine()
    ensures RouteNotFound().statusLine == "404 Not Found" && RouteNotFound().viloTag == Some("routeNotFound")
  {
  }

  /** The first route, in order, that lists the verb and matches the path; `checkRouteMatch` exceptions pass through. */
  function MatchFrom(routes: seq<Route>, verb: string, env: Environ, lib: Lib): (r: Outcome<Option<Route>>)
    ensures r.Ok? && r.value.Some? ==>
      r.value.value in routes && verb in r.value.value.verbs && RouteMatch(r.value.value, env, lib) == Ok(true)
    ensures r == Ok(None) <==>
      forall i :: 0 <= i < |routes| && verb in routes[i].verbs ==> RouteMatch(routes[i], env, lib) == Ok(false)
    decreases |routes|
  {
    if routes == [] then Ok(None)
    else
      var rest := MatchFrom(routes[1..], verb, env, lib);
      assert forall i :: 1 <= i < |routes| ==> routes[i] == routes[1..][i - 1];
      assert forall rt :: rt in routes[1..] ==> rt in routes;
      if verb !in routes[0].verbs then rest
      else
        var m := RouteMatch(routes[0], env, lib);
        if !m.Ok? then m.PropagateFailure()
        else if m.value then Ok(Some(routes[0]))
        else rest
  }

  /** Routes before the first match are skipped: the earliest matching route wins. */
  lemma {:induction false} FirstMatchWins(routes: seq<Route>, verb: string, env: Environ, lib: Lib, j: nat)
    requires j < |routes|
    requires forall i :: 0 <= i < j && verb in routes[i].verbs ==> RouteMatch(routes[i], env, lib) == Ok(false)
    requires verb in routes[j].verbs && RouteMatch(routes[j], env, lib) == Ok(true)
    ensures MatchFrom(routes, verb, env, lib) == Ok(Some(routes[j]))
    decreases j
  {
    if j > 0 {
      var rest := routes[1..];
      assert forall i :: 0 <= i < j - 1 ==> rest[i] == routes[i + 1];
      assert rest[j - 1] == routes[j];
      FirstMatchWins(rest, verb, env, lib, j - 1);
      assert verb in routes[0].verbs ==> RouteMatch(routes[0], env, lib) == Ok(false);
    }
  }

  /** `getMatchingRoute(req)`: the verb and the path info are read first, then the routes are tried in order. */
  function MatchingRoute(routes: seq<Route>, env: Environ, lib: Lib): (r: Outcome<Route>)
    ensures r.Ok? ==> GetPathInfo(env).Ok? && r.value in routes && RouteMatch(r.value, env, lib) == Ok(true)
    ensures r.Ok? ==> GetVerb(env).Ok? && GetVerb(env).value in r.value.verbs
  {
    var verb :- GetVerb(env);
    var path :- GetPathInfo(env);
    var found :- MatchFrom(routes, verb, env, lib);
    if found.None? then HttpErr(RouteNotFound()) else Ok(found.value)
  }

  /** With every wildcard route well formed, finding a route raises nothing but a `routeNotFound` error. */
  lemma {:induction false} MatchFromTotal(routes: seq<Route>, verb: string, env: Environ, lib: Lib)
    requires GetPathInfo(env).Ok?
    requires forall i :: 0 <= i < |routes| && routes[i].mode == Wildcard ==> ValidWildcardPath(routes[i].path)
    ensures MatchFrom(routes, verb, env, lib).Ok?
    decreases |routes|
  {
    if routes != [] {
      if routes[0].mode == Wildcard {
        WildcardRouteTotal(routes[0], env, lib);
      }
      assert forall i :: 1 <= i < |routes| ==> routes[i] == routes[1..][i - 1];
      MatchFromTotal(routes[1..], verb, env, lib);
    }
  }

  lemma MatchingRouteTotal(routes: seq<Route>, env: Environ, lib: Lib)
    requires GetVerb(env).Ok? && GetPathInfo(env).Ok?
    requires forall i :: 0 <= i < |routes| && routes[i].mode == Wildcard ==> ValidWildcardPath(routes[i].path)
    ensures MatchingRoute(routes, env, lib).Ok? || MatchingRoute(routes, env, lib) == HttpErr(RouteNotFound())
  {
    MatchFromTotal(routes, GetVerb(env).value, env, lib);
  }

  /** The request as the matched route's handler sees it: with the route's captures or its match. */
  function Captured(v: RequestView, route: Route, lib: Lib): RequestView
    requires GetPathInfo(v.environ).Ok?
    requires RouteMatch(route, v.environ, lib) == Ok(true)
  {
    var aPath := GetPathInfo(v.environ).value;
    if route.mode == Wildcard then v.(wildcards := WildcardMatch(route.path, aPath).value.value)
    else if route.mode == Re then v.(matched := lib.reMatch(route.path, aPath))
    else v
  }

  /** The search from route `i`: a route that does not list the verb or does not match is passed over. */
  lemma MatchFromAt(routes: seq<Route>, i: nat, verb: string, env: Environ, lib: Lib)
    requires i < |routes|
    ensures verb !in routes[i].verbs ==> MatchFrom(routes[i..], verb, env, lib) == MatchFrom(routes[i + 1..], verb, env, lib)
    ensures verb in routes[i].verbs ==>
      var m := RouteMatch(routes[i], env, lib);
      MatchFrom(routes[i..], verb, env, lib)
        == if !m.Ok? then m.PropagateFailure() else if m.value then Ok(Some(routes[i])) else MatchFrom(routes[i + 1..], verb, env, lib)
  {
    assert routes[i..][0] == routes[i] && routes[i..][1..] == routes[i + 1..];
  }

  /** `checkRouteMatch(route, req)`, as the request's view sees it. */
  method CheckRouteOn(route: Route, req: Request, lib: Lib) returns (r: Outcome<bool>)
    modifies req`wildcards, req`matched
    ensures r == RouteMatch(route, req.environ, lib)
    ensures r == Ok(true) ==> GetPathInfo(req.environ).Ok? && ViewOf(req) == Captured(old(ViewOf(req)), route, lib)
    ensures r != Ok(true) ==> ViewOf(req) == old(ViewOf(req))
  {
    r := CheckRouteMatch(route, req, lib);
  }

  // ---------------------------------------------------------------------
  // wsgi (vilo.py:607-637)
  // ---------------------------------------------------------------------

  /** The `try` block of `wsgi`: the request as the handlers see it, the response state and the handler's output or exception. */
  function Tried(c: Config, v: RequestView, h: Handlers, lib: Lib): (RequestView, ResState, Outcome<PyObj>) {
    var m := MatchingRoute(c.routes, v.environ, lib);
    if !m.Ok? then (v, InitialState(), m.PropagateFailure())
    else
      var v2 := Captured(v, m.value, lib);
      var ran := Ran(InitialState(), h.route(Plug(m.value.fn, c.plugins), v2), lib);
      (v2, ran.0, ran.1)
  }

  /**
   * The `except` clauses of `wsgi`: an `HttpError` sets the status line and
   * goes to the handler of its tag (or gives its own body); any other
   * exception goes to the `unexpectedError` handler, with the status line
   * left as it was.
   */
  function Recovered(c: Config, v: RequestView, s: ResState, out: Outcome<PyObj>, h: Handlers, lib: Lib): (r: (ResState, Outcome<PyObj>))
    requires StateOk(s)
    ensures StateOk(r.0)
  {
    if out.Ok? then (s, out)
    else if out.HttpErr? then
      var s2 := s.(statusLine := out.error.statusLine);
      var tag := out.error.viloTag;
      if tag.Some? && tag.value in c.tagMap.m then ErrorOutput(c.tagMap.m[tag.value], v, HttpExc(out.error), s2, c.debug, h, lib)
      else (s2, Ok(out.error.body))
    else if UnexpectedTag in c.tagMap.m then ErrorOutput(c.tagMap.m[UnexpectedTag], v, OtherExc(out.fault), s, c.debug, h, lib)
    else (s, OtherErr(MissingKey(UnexpectedTag)))
  }

  /** What `wsgi` does: the `start_response` call it makes, if any, and what it returns or raises. */
  datatype Reply = Reply(call: Option<(string, seq<(string, string)>)>, result: Outcome<seq<seq<byte>>>)

  /** `res._finish(handlerOut)` on the final state. */
  function Finished(s: ResState, out: Outcome<PyObj>, lib: Lib): Reply
    requires StateOk(s)
  {
    if !out.Ok? then Reply(None, out.PropagateFailure())
    else
      var body := BodyBytes(out.value, lib);
      if !body.Ok? then Reply(None, body.PropagateFailure())
      else
        var ct := if IsJsonBody(out.value) then "application/json" else s.headers.contentType;
        Reply(Some((Utf8ToLatin1(s.statusLine), Latin1Headers(FinishHeaderList(s.headers.headerMap, s.jar, ct, body.value, lib)))),
              Ok([body.value]))
  }

  function Served(c: Config, env: Environ, h: Handlers, lib: Lib): Reply {
    var fields := BuiltFields(env, lib);
    if !fields.Ok? then Reply(None, fields.PropagateFailure())
    else
      var tried := Tried(c, RequestView(env, fields.value, [], None), h, lib);
      var recovered := Recovered(c, tried.0, tried.1, tried.2, h, lib);
      Finished(recovered.0, recovered.1, lib)
  }

  /** `buildRequest` runs before the `try`: its exceptions, the 413 for an oversized body included, escape `wsgi` with no response started. */
  lemma BuildFailureEscapes(c: Config, env: Environ, h: Handlers, lib: Lib)
    requires !BuiltFields(env, lib).Ok?
    ensures Served(c, env, h, lib).call.None?
    ensures Discard(Served(c, env, h, lib).result) == Discard(BuiltFields(env, lib))
  {
  }

  lemma TooLargeEscapes(c: Config, env: Environ, h: Handlers, lib: Lib)
    requires EkeyOr(env, "HTTP_COOKIE", "").Ok?
    requires env.input.Some? && |env.input.value| > MaxRequestBodySize
    ensures Served(c, env, h, lib).call.None?
    ensures Served(c, env, h, lib).result.HttpErr?
    ensures Served(c, env, h, lib).result.error.statusLine == "413 Payload Too Large"
  {
    BuildTooLarge(env, lib);
  }

  /** The number of headers with the given name is the same after the values are converted to Latin-1. */
  lemma {:induction false} OccurrencesLatin1(hs: seq<(string, string)>, name: string)
    ensures Occurrences(Latin1Headers(hs), name) == Occurrences(hs, name)
    decreases |hs|
  {
    if hs != [] {
      assert Latin1Headers(hs)[1..] == Latin1Headers(hs[1..]);
      OccurrencesLatin1(hs[1..], name);
    }
  }

  /**
   * Whenever `wsgi` starts a response, it sends exactly one content type
   * and one content length, which reads back as the size of the body it
   * returns.
   */
  lemma ServedHeaders(c: Config, env: Environ, h: Handlers, lib: Lib)
    requires Served(c, env, h, lib).call.Some?
    ensures var reply := Served(c, env, h, lib);
      var hs := reply.call.value.1;
      reply.result.Ok? && |reply.result.value| == 1
      && Occurrences(hs, ContentTypeKey) == 1 && Occurrences(hs, ContentLengthKey) == 1
      && hs[|hs| - 1].0 == ContentLengthKey
      && Latin1ToUtf8(hs[|hs| - 1].1) == Some(DecimalString(|reply.result.value[0]|))
  {
    var fields := BuiltFields(env, lib).value;
    var tried := Tried(c, RequestView(env, fields, [], None), h, lib);
    var recovered := Recovered(c, tried.0, tried.1, tried.2, h, lib);
    var s, out := recovered.0, recovered.1;
    var body := BodyBytes(out.value, lib).value;
    var ct := if IsJsonBody(out.value) then "application/json" else s.headers.contentType;
    var raw := FinishHeaderList(s.headers.headerMap, s.jar, ct, body, lib);
    FinishHeaders(Headers(ct, s.headers.headerMap), s.jar, body, lib);
    OccurrencesLatin1(raw, ContentTypeKey);
    OccurrencesLatin1(raw, ContentLengthKey);
    FinishValuesRecoverable(raw, |raw| - 1);
  }

  /**
   * No route matching, with the default `routeNotFound` handler: the
   * response is "404 Not Found" with the default error page (JSON for a
   * JSON request).
   */
  lemma NotFoundServed(c: Config, env: Environ, h: Handlers, lib: Lib)
    requires BuiltFields(env, lib).Ok?
    requires MatchingRoute(c.routes, env, lib) == HttpErr(RouteNotFound())
    requires c.tagMap.Get("routeNotFound") == Some(DefaultTag(404, "No such route."))
    ensures var out := DefaultErrorOutput(404, "No such route.", BuiltFields(env, lib).value.contentType);
      var body := BodyBytes(out, lib);
      body.Ok? ==>
        Served(c, env, h, lib).call.Some? && Served(c, env, h, lib).call.value.0 == Utf8ToLatin1("404 Not Found")
        && Served(c, env, h, lib).result == Ok([body.value])
  {
    var v := RequestView(env, BuiltFields(env, lib).value, [], None);
    var s2 := InitialState().(statusLine := "404 Not Found");
    var out := DefaultErrorOutput(404, "No such route.", v.fields.contentType);
    NotFoundRecovered(c, v, h, lib);
    ServedVia(c, env, h, lib, s2, out);
    FinishedOk(s2, out, lib);
  }

  /** The recovery step of `NotFoundServed`: status "404 Not Found" and the default page. */
  lemma NotFoundRecovered(c: Config, v: RequestView, h: Handlers, lib: Lib)
    requires MatchingRoute(c.routes, v.environ, lib) == HttpErr(RouteNotFound())
    requires c.tagMap.Get("routeNotFound") == Some(DefaultTag(404, "No such route."))
    ensures var t := Tried(c, v, h, lib);
      Recovered(c, t.0, t.1, t.2, h, lib)
        == (InitialState().(statusLine := "404 Not Found"), Ok(DefaultErrorOutput(404, "No such route.", v.fields.contentType)))
  {
    var t := Tried(c, v, h, lib);
    assert t == (v, InitialState(), HttpErr(RouteNotFound()));
    RouteNotFoundLine();
    assert c.tagMap.m["routeNotFound"] == DefaultTag(404, "No such route.");
  }

  /** `wsgi` on a request that builds: the recovered state and output are finished. */
  lemma ServedVia(c: Config, env: Environ, h: Handlers, lib: Lib, s: ResState, out: PyObj)
    requires BuiltFields(env, lib).Ok? && StateOk(s)
    requires var t := Tried(c, RequestView(env, BuiltFields(env, lib).value, [], None), h, lib);
      Recovered(c, t.0, t.1, t.2, h, lib) == (s, Ok(out))
    ensures Served(c, env, h, lib) == Finished(s, Ok(out), lib)
  {
  }

  /** An output whose body converts is sent under the state's status line. */
  lemma FinishedOk(s: ResState, out: PyObj, lib: Lib)
    requires StateOk(s)
    ensures BodyBytes(out, lib).Ok? ==>
      Finished(s, Ok(out), lib).call.Some? && Finished(s, Ok(out), lib).call.value.0 == Utf8ToLatin1(s.statusLine)
      && Finished(s, Ok(out), lib).result == Ok([BodyBytes(out, lib).value])
  {
  }

  /**
   * A handler that raises anything but an `HttpError`, with the default
   * `unexpectedError` handler: the error page is sent with the status line
   * the handler's calls left on the response, "200 OK" for a handler that
   * set none and "302 Found" after a redirect. The
   * `HttpError(..., 500, "unexpectedError")` built in that clause only
   * supplies the tag.
   */
  lemma UnexpectedKeepsStatus(c: Config, env: Environ, h: Handlers, lib: Lib, acts: seq<ResAction>, f: Fault)
    requires BuiltFields(env, lib).Ok?
    requires MatchingRoute(c.routes, env, lib).Ok?
    requires c.tagMap.Get(UnexpectedTag) == Some(DefaultUnexpected)
    requires var rt := MatchingRoute(c.routes, env, lib).value;
      h.route(Plug(rt.fn, c.plugins), Captured(RequestView(env, BuiltFields(env, lib).value, [], None), rt, lib)) == HandlerRun(acts, OtherErr(f))
    requires ActAll(InitialState(), acts, lib).1.Ok?
    ensures Served(c, env, h, lib).call.Some?
    ensures Served(c, env, h, lib).call.value.0 == Utf8ToLatin1(ActAll(InitialState(), acts, lib).0.statusLine)
    ensures Served(c, env, h, lib).result == Ok([Utf8Encode(UnexpectedOutput(c.debug, lib.tracebackText))])
  {
    var v := RequestView(env, BuiltFields(env, lib).value, [], None);
    var page := UnexpectedOutput(c.debug, lib.tracebackText);
    var s := ActAll(InitialState(), acts, lib).0;
    UnexpectedRecovered(c, v, h, lib, acts, f);
    ServedVia(c, env, h, lib, s, PyStr(page));
    FinishedPage(s, page, lib);
  }

  /** With no call before the exception, that status line is "200 OK". */
  lemma UnexpectedWithoutCalls(c: Config, env: Environ, h: Handlers, lib: Lib, f: Fault)
    requires BuiltFields(env, lib).Ok?
    requires MatchingRoute(c.routes, env, lib).Ok?
    requires c.tagMap.Get(UnexpectedTag) == Some(DefaultUnexpected)
    requires var rt := MatchingRoute(c.routes, env, lib).value;
      h.route(Plug(rt.fn, c.plugins), Captured(RequestView(env, BuiltFields(env, lib).value, [], None), rt, lib)) == HandlerRun([], OtherErr(f))
    ensures Served(c, env, h, lib).call.Some? && Served(c, env, h, lib).call.value.0 == Utf8ToLatin1("200 OK")
  {
    UnexpectedKeepsStatus(c, env, h, lib, [], f);
  }

  /** A redirect and then an exception: the error page goes out as "302 Found". */
  lemma UnexpectedAfterRedirect(c: Config, env: Environ, h: Handlers, lib: Lib, url: string, f: Fault)
    requires BuiltFields(env, lib).Ok?
    requires MatchingRoute(c.routes, env, lib).Ok?
    requires c.tagMap.Get(UnexpectedTag) == Some(DefaultUnexpected)
    requires var rt := MatchingRoute(c.routes, env, lib).value;
      h.route(Plug(rt.fn, c.plugins), Captured(RequestView(env, BuiltFields(env, lib).value, [], None), rt, lib)) == HandlerRun([Redirect(url)], OtherErr(f))
    ensures Served(c, env, h, lib).call.Some? && Served(c, env, h, lib).call.value.0 == Utf8ToLatin1("302 Found")
  {
    RedirectRun(url, lib);
    UnexpectedKeepsStatus(c, env, h, lib, [Redirect(url)], f);
  }

  /** A run of one redirect does not raise and leaves "302 Found". */
  lemma RedirectRun(url: string, lib: Lib)
    ensures ActAll(InitialState(), [Redirect(url)], lib).1.Ok?
    ensures ActAll(InitialState(), [Redirect(url)], lib).0.statusLine == "302 Found"
  {
    var first := Act(InitialState(), Redirect(url), lib);
    assert ActAll(InitialState(), [Redirect(url)], lib) == ActAll(first.0, [], lib);
  }

  /** The recovery step of `UnexpectedKeepsStatus`: the state the calls left and the default page. */
  lemma UnexpectedRecovered(c: Config, v: RequestView, h: Handlers, lib: Lib, acts: seq<ResAction>, f: Fault)
    requires MatchingRoute(c.routes, v.environ, lib).Ok?
    requires c.tagMap.Get(UnexpectedTag) == Some(DefaultUnexpected)
    requires var rt := MatchingRoute(c.routes, v.environ, lib).value;
      h.route(Plug(rt.fn, c.plugins), Captured(v, rt, lib)) == HandlerRun(acts, OtherErr(f))
    requires ActAll(InitialState(), acts, lib).1.Ok?
    ensures var t := Tried(c, v, h, lib);
      Recovered(c, t.0, t.1, t.2, h, lib)
        == (ActAll(InitialState(), acts, lib).0, Ok(PyStr(UnexpectedOutput(c.debug, lib.tracebackText))))
  {
    TriedRaises(c, v, h, lib, acts, OtherErr(f));
    var t := Tried(c, v, h, lib);
    RecoveredUnexpected(c, t.0, t.1, f, h, lib);
  }

  /** The generic `except` clause with the default handler: the state is kept and the page returned. */
  lemma RecoveredUnexpected(c: Config, v: RequestView, s: ResState, f: Fault, h: Handlers, lib: Lib)
    requires StateOk(s) && c.tagMap.Get(UnexpectedTag) == Some(DefaultUnexpected)
    ensures Recovered(c, v, s, OtherErr(f), h, lib) == (s, Ok(PyStr(UnexpectedOutput(c.debug, lib.tracebackText))))
  {
    assert UnexpectedTag in c.tagMap.m && c.tagMap.m[UnexpectedTag] == DefaultUnexpected;
  }

  /** The `try` block when the handler's calls all go through: the state they leave, and the handler's own result. */
  lemma TriedRaises(c: Config, v: RequestView, h: Handlers, lib: Lib, acts: seq<ResAction>, out: Outcome<PyObj>)
    requires MatchingRoute(c.routes, v.environ, lib).Ok?
    requires var rt := MatchingRoute(c.routes, v.environ, lib).value;
      h.route(Plug(rt.fn, c.plugins), Captured(v, rt, lib)) == HandlerRun(acts, out)
    requires ActAll(InitialState(), acts, lib).1.Ok?
    ensures Tried(c, v, h, lib).1 == ActAll(InitialState(), acts, lib).0 && Tried(c, v, h, lib).2 == out
  {
  }

  /**
   * A handler that raises an `HttpError` after calls that went through:
   * the error's status line replaces the one the calls left, and the
   * output comes from the handler of the error's tag when the table has
   * one, else it is the error's own body.
   */
  lemma HttpErrRecovered(c: Config, v: RequestView, h: Handlers, lib: Lib, acts: seq<ResAction>, e: HttpError)
    requires MatchingRoute(c.routes, v.environ, lib).Ok?
    requires var rt := MatchingRoute(c.routes, v.environ, lib).value;
      h.route(Plug(rt.fn, c.plugins), Captured(v, rt, lib)) == HandlerRun(acts, HttpErr(e))
    requires ActAll(InitialState(), acts, lib).1.Ok?
    ensures var t := Tried(c, v, h, lib);
      var s := ActAll(InitialState(), acts, lib).0.(statusLine := e.statusLine);
      Recovered(c, t.0, t.1, t.2, h, lib)
        == if e.viloTag.Some? && e.viloTag.value in c.tagMap.m then ErrorOutput(c.tagMap.m[e.viloTag.value], t.0, HttpExc(e), s, c.debug, h, lib)
           else (s, Ok(e.body))
  {
    TriedRaises(c, v, h, lib, acts, HttpErr(e));
  }

  /**
   * A handler raises an `HttpError` whose tag is absent or not in the
   * table, as `error(body, 418)` does: its body goes out under its own
   * status line, whatever status the handler's calls had set; a body that
   * cannot be turned into bytes escapes `wsgi` with no response started.
   */
  lemma HttpErrorServed(c: Config, env: Environ, h: Handlers, lib: Lib, acts: seq<ResAction>, e: HttpError)
    requires BuiltFields(env, lib).Ok?
    requires MatchingRoute(c.routes, env, lib).Ok?
    requires var rt := MatchingRoute(c.routes, env, lib).value;
      h.route(Plug(rt.fn, c.plugins), Captured(RequestView(env, BuiltFields(env, lib).value, [], None), rt, lib)) == HandlerRun(acts, HttpErr(e))
    requires ActAll(InitialState(), acts, lib).1.Ok?
    requires e.viloTag.None? || e.viloTag.value !in c.tagMap.m
    ensures BodyBytes(e.body, lib).Ok? ==>
      Served(c, env, h, lib).call.Some? && Served(c, env, h, lib).call.value.0 == Utf8ToLatin1(e.statusLine)
      && Served(c, env, h, lib).result == Ok([BodyBytes(e.body, lib).value])
    ensures !BodyBytes(e.body, lib).Ok? ==> Served(c, env, h, lib).call.None?
  {
    var v := RequestView(env, BuiltFields(env, lib).value, [], None);
    var s := ActAll(InitialState(), acts, lib).0.(statusLine := e.statusLine);
    HttpErrRecovered(c, v, h, lib, acts, e);
    ServedVia(c, env, h, lib, s, e.body);
    FinishedOk(s, e.body, lib);
  }

  /**
   * A handler raises an `HttpError` whose tag has a framework handler,
   * such as `error(body, 404, "fileNotFound")`: the response carries the
   * error's status line and that handler's default page for the request's
   * content type; the error's own body is not sent.
   */
  lemma TaggedErrorServed(c: Config, env: Environ, h: Handlers, lib: Lib, acts: seq<ResAction>, e: HttpError, code: int, msg: string)
    requires BuiltFields(env, lib).Ok?
    requires MatchingRoute(c.routes, env, lib).Ok?
    requires var rt := MatchingRoute(c.routes, env, lib).value;
      h.route(Plug(rt.fn, c.plugins), Captured(RequestView(env, BuiltFields(env, lib).value, [], None), rt, lib)) == HandlerRun(acts, HttpErr(e))
    requires ActAll(InitialState(), acts, lib).1.Ok?
    requires e.viloTag.Some? && c.tagMap.Get(e.viloTag.value) == Some(DefaultTag(code, msg))
    ensures var out := DefaultErrorOutput(code, msg, BuiltFields(env, lib).value.contentType);
      BodyBytes(out, lib).Ok? ==>
        Served(c, env, h, lib).call.Some? && Served(c, env, h, lib).call.value.0 == Utf8ToLatin1(e.statusLine)
        && Served(c, env, h, lib).result == Ok([BodyBytes(out, lib).value])
  {
    var v := RequestView(env, BuiltFields(env, lib).value, [], None);
    var rt := MatchingRoute(c.routes, env, lib).value;
    var s := ActAll(InitialState(), acts, lib).0.(statusLine := e.statusLine);
    var out := DefaultErrorOutput(code, msg, v.fields.contentType);
    assert Captured(v, rt, lib).fields == v.fields;
    assert e.viloTag.value in c.tagMap.m && c.tagMap.m[e.viloTag.value] == DefaultTag(code, msg);
    HttpErrRecovered(c, v, h, lib, acts, e);
    ServedVia(c, env, h, lib, s, out);
    FinishedOk(s, out, lib);
  }

  /** A string output is sent as its UTF-8 bytes, under the state's status line. */
  lemma FinishedPage(s: ResState, text: string, lib: Lib)
    requires StateOk(s)
    ensures Finished(s, Ok(PyStr(text)), lib).call.Some?
    ensures Finished(s, Ok(PyStr(text)), lib).call.value.0 == Utf8ToLatin1(s.statusLine)
    ensures Finished(s, Ok(PyStr(text)), lib).result == Ok([Utf8Encode(text)])
  {
  }

  // ---------------------------------------------------------------------
  // The application object
  // ---------------------------------------------------------------------

  class App {
    var routeList: seq<Route>
    var pluginList: seq<nat>
    var errorTagMap: OrderedMap<string, ErrHandler>
    var inDebugMode: bool

    /** Every wildcard route is well formed, and the error tags are the four the framework defines. */
    ghost predicate Valid()
      reads this
    {
      errorTagMap.Valid() && errorTagMap.keys == TagNames
      && forall i :: 0 <= i < |routeList| && routeList[i].mode == Wildcard ==> ValidWildcardPath(routeList[i].path)
    }

    function State(): Config
      reads this
    {
      Config(routeList, pluginList, errorTagMap, inDebugMode)
    }

    /** `buildApp()`. */
    constructor ()
      ensures Valid()
      ensures routeList == [] && pluginList == [] && errorTagMap == DefaultTagMap() && !inDebugMode
    {
      routeList := [];
      pluginList := [];
      errorTagMap := DefaultTagMap();
      inDebugMode := false;
    }

    /** `app.addRoute(verb, path, fn, mode, name)`: the route is built, then added last. */
    method AddRoute(verb: VerbArg, path: string, fn: Fn, mode: Option<string>, name: Option<string>) returns (r: Outcome<()>)
      requires Valid()
      modifies this`routeList
      ensures Valid()
      ensures r == Discard(BuildRoute(verb, path, fn, mode, name))
      ensures r.Ok? ==> routeList == old(routeList) + [BuildRoute(verb, path, fn, mode, name).value]
      ensures !r.Ok? ==> routeList == old(routeList)
    {
      var route := BuildRoute(verb, path, fn, mode, name);
      if !route.Ok? {
        return route.PropagateFailure();
      }
      routeList := routeList + [route.value];
      r := Ok(());
    }

    /** `@app.route(verb, path, mode, name)` on `fn`: adds the route and gives back `fn` unchanged. */
    method Route(verb: VerbArg, path: string, mode: Option<string>, name: Option<string>, fn: Fn) returns (r: Outcome<Fn>)
      requires Valid()
      modifies this`routeList
      ensures Valid()
      ensures r.Ok? <==> BuildRoute(verb, path, fn, mode, name).Ok?
      ensures r.Ok? ==> r.value == fn && routeList == old(routeList) + [BuildRoute(verb, path, fn, mode, name).value]
      ensures !r.Ok? ==> routeList == old(routeList)
    {
      var added := AddRoute(verb, path, fn, mode, name);
      if !added.Ok? {
        return added.PropagateFailure();
      }
      r := Ok(fn);
    }

    /** `app.install(plugin)`. */
    method Install(plugin: nat)
      modifies this`pluginList
      ensures pluginList == old(pluginList) + [plugin]
    {
      pluginList := pluginList + [plugin];
    }

    /** `app.setDebug(boolean)`. */
    method SetDebug(flag: PyObj)
      modifies this`inDebugMode
      ensures inDebugMode == Truthy(flag)
    {
      inDebugMode := Truthy(flag);
    }

    /** `@app.onViloErrorTag(tag)` on a handler: only the four known tags can be given a handler. */
    method OnViloErrorTag(tag: string, handler: nat) returns (r: Outcome<nat>)
      requires Valid()
      modifies this`errorTagMap
      ensures Valid()
      ensures tag !in old(errorTagMap.m) ==> r == OtherErr(MissingKey(tag)) && errorTagMap == old(errorTagMap)
      ensures tag in old(errorTagMap.m) ==> r == Ok(handler) && errorTagMap == old(errorTagMap).Put(tag, Custom(handler))
    {
      if tag !in errorTagMap.m {
        return OtherErr(MissingKey(tag));
      }
      errorTagMap := errorTagMap.Put(tag, Custom(handler));
      r := Ok(handler);
    }

    /** `plugRoute(route)`: the plugins applied to the route's function in installation order. */
    method PlugRoute(route: Route) returns (pfn: Fn)
      ensures pfn == Plug(route.fn, pluginList)
    {
      pfn := route.fn;
      var i := 0;
      while i < |pluginList|
        invariant 0 <= i <= |pluginList|
        invariant pfn == Plug(route.fn, pluginList[..i])
      {
        assert pluginList[..i + 1][..i] == pluginList[..i];
        pfn := Plugged(pluginList[i], pfn);
        i := i + 1;
      }
      assert pluginList[..i] == pluginList;
    }

    /** `getMatchingRoute(req)`, which leaves the matched route's captures or match in the request. */
    method GetMatchingRoute(req: Request, lib: Lib) returns (r: Outcome<Route>)
      modifies req`wildcards, req`matched
      ensures r == MatchingRoute(routeList, req.environ, lib)
      ensures r.Ok? ==> ViewOf(req) == Captured(old(ViewOf(req)), r.value, lib)
      ensures !r.Ok? ==> ViewOf(req) == old(ViewOf(req))
    {
      var reqVerb := GetVerb(req.environ);
      if !reqVerb.Ok? {
        return reqVerb.PropagateFailure();
      }
      var reqPath := GetPathInfo(req.environ);
      if !reqPath.Ok? {
        return reqPath.PropagateFailure();
      }
      var found := FindRoute(req, reqVerb.value, lib);
      if !found.Ok? {
        return found.PropagateFailure();
      }
      if found.value.None? {
        return HttpErr(RouteNotFound());
      }
      r := Ok(found.value.value);
    }

    /** The loop of `getMatchingRoute`: the first route that lists the verb and matches, if any. */
    method FindRoute(req: Request, verb: string, lib: Lib) returns (r: Outcome<Option<Route>>)
      requires GetPathInfo(req.environ).Ok?
      modifies req`wildcards, req`matched
      ensures r == MatchFrom(routeList, verb, req.environ, lib)
      ensures r.Ok? && r.value.Some? ==> ViewOf(req) == Captured(old(ViewOf(req)), r.value.value, lib)
      ensures !(r.Ok? && r.value.Some?) ==> ViewOf(req) == old(ViewOf(req))
    {
      var env := req.environ;
      var i := 0;
      while i < |routeList|
        invariant 0 <= i <= |routeList|
        invariant MatchFrom(routeList[i..], verb, env, lib) == MatchFrom(routeList, verb, env, lib)
        invariant ViewOf(req) == old(ViewOf(req))
      {
        var rt := routeList[i];
        MatchFromAt(routeList, i, verb, env, lib);
        if verb in rt.verbs {
          var m := CheckRouteOn(rt, req, lib);
          if !m.Ok? {
            return m.PropagateFailure();
          }
          if m.value {
            return Ok(Some(rt));
          }
        }
        i := i + 1;
      }
      r := Ok(None);
    }

    /** An error handler called as `efn(req, res, err)`. */
    method CallErrorHandler(hnd: ErrHandler, req: Request, res: Response, exc: Exc, h: Handlers, lib: Lib) returns (r: Outcome<PyObj>)
      requires res.Valid()
      modifies res
      ensures res.Valid()
      ensures (Snapshot(res), r) == ErrorOutput(hnd, ViewOf(req), exc, old(Snapshot(res)), inDebugMode, h, lib)
    {
      match hnd {
        case DefaultTag(code, msg) =>
          r := Ok(DefaultErrorOutput(code, msg, req.contentType));
        case DefaultUnexpected =>
          r := Ok(PyStr(UnexpectedOutput(inDebugMode, lib.tracebackText)));
        case Custom(id) =>
          r := RunHandler(res, h.onError(id, ViewOf(req), exc), lib);
      }
    }

    /** The `try` block of `wsgi`. */
    method Try(req: Request, res: Response, h: Handlers, lib: Lib) returns (r: Outcome<PyObj>)
      requires res.Valid() && Snapshot(res) == InitialState()
      modifies req`wildcards, req`matched, res
      ensures res.Valid()
      ensures (ViewOf(req), Snapshot(res), r) == Tried(State(), old(ViewOf(req)), h, lib)
    {
      var mRoute := GetMatchingRoute(req, lib);
      if !mRoute.Ok? {
        return mRoute.PropagateFailure();
      }
      var pfn := PlugRoute(mRoute.value);
      r := RunHandler(res, h.route(pfn, ViewOf(req)), lib);
    }

    /** The `except` clauses of `wsgi`. */
    method Recover(req: Request, res: Response, out: Outcome<PyObj>, h: Handlers, lib: Lib) returns (r: Outcome<PyObj>)
      requires res.Valid()
      modifies res
      ensures res.Valid()
      ensures (Snapshot(res), r) == Recovered(State(), ViewOf(req), old(Snapshot(res)), out, h, lib)
    {
      if out.Ok? {
        return out;
      }
      if out.HttpErr? {
        var e := out.error;
        res.statusLine := e.statusLine;
        if e.viloTag.Some? && e.viloTag.value in errorTagMap.m {
          r := CallErrorHandler(errorTagMap.m[e.viloTag.value], req, res, HttpExc(e), h, lib);
        } else {
          r := Ok(e.body);
        }
        return;
      }
      if UnexpectedTag !in errorTagMap.m {
        return OtherErr(MissingKey(UnexpectedTag));
      }
      r := CallErrorHandler(errorTagMap.m[UnexpectedTag], req, res, OtherExc(out.fault), h, lib);
    }

    /** `res._finish(handlerOut)`, after the `except` clauses, or the exception they left. */
    static method FinishReply(res: Response, out: Outcome<PyObj>, lib: Lib) returns (r: Outcome<seq<seq<byte>>>)
      requires res.Valid()
      modifies res`contentType, res.startResponse
      ensures var reply := Finished(old(Snapshot(res)), out, lib);
        r == reply.result
        && res.startResponse.calls == old(res.startResponse.calls) + (if reply.call.Some? then [reply.call.value] else [])
    {
      if !out.Ok? {
        return out.PropagateFailure();
      }
      r := res.Finish(out.value, lib);
    }

    /** The rest of `wsgi` once the request is built: the `try` block, its `except` clauses and `res._finish`. */
    method Respond(req: Request, startResponse: StartResponse, h: Handlers, lib: Lib) returns (r: Outcome<seq<seq<byte>>>)
      modifies req`wildcards, req`matched, startResponse
      ensures var tried := Tried(State(), old(ViewOf(req)), h, lib);
        var recovered := Recovered(State(), tried.0, tried.1, tried.2, h, lib);
        var reply := Finished(recovered.0, recovered.1, lib);
        r == reply.result
        && startResponse.calls == old(startResponse.calls) + (if reply.call.Some? then [reply.call.value] else [])
    {
      ghost var tried := Tried(State(), ViewOf(req), h, lib);
      var res := new Response(startResponse);
      var out := Try(req, res, h, lib);
      assert (ViewOf(req), Snapshot(res), out) == tried;
      out := Recover(req, res, out, h, lib);
      r := FinishReply(res, out, lib);
    }

    /** `app.wsgi(environ, start_response)`. */
    method Wsgi(env: Environ, startResponse: StartResponse, h: Handlers, lib: Lib) returns (r: Outcome<seq<seq<byte>>>)
      modifies startResponse
      ensures r == Served(State(), env, h, lib).result
      ensures var call := Served(State(), env, h, lib).call;
        startResponse.calls == old(startResponse.calls) + (if call.Some? then [call.value] else [])
    {
      var built := BuildRequest(env, lib);
      if !built.Ok? {
        return built.PropagateFailure();
      }
      assert ViewOf(built.value) == RequestView(env, BuiltFields(env, lib).value, [], None);
      r := Respond(built.value, startResponse, h, lib);
    }
  }
}
