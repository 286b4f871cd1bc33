/**
 * Routes (vilo.py:430-495): how a route's mode is chosen, the syntax a
 * wildcard path must follow, and how a wildcard path is matched against
 * the request path, segment by segment, with the captures it collects.
 */
module Routes {
  import opened Wrappers
  import opened Text
  import opened Py

  /** The three routing modes. */
  datatype Mode = Exact | Wildcard | Re

  /**
   * A route handler as a value: the function given to `addRoute`, or a
   * plugin applied to a handler. Plugins and handlers are given by id.
   */
  datatype Fn = Base(id: nat) | Plugged(plugin: nat, inner: Fn)

  /** `detectRouteMode(path)`: parentheses mean a regular expression, then a star means a wildcard. */
  function DetectRouteMode(path: string): (m: Mode)
    ensures m == Re <==> '(' in path && ')' in path
    ensures m == Wildcard <==> !('(' in path && ')' in path) && '*' in path
    ensures m == Exact <==> !('(' in path && ')' in path) && '*' !in path
  {
    if '(' in path && ')' in path then Re
    else if '*' in path then Wildcard
    else Exact
  }

  // ---------------------------------------------------------------------
  // validateWildcardPath (vilo.py:436-449)
  // ---------------------------------------------------------------------

  const LeadingStarMsg: string := "WildcardError:: Path can't being with '*'."
  const InnerStarMsg: string := "WildcardError:: Non-trailing '*' must span entire segment."
  const TrailingStarMsg: string := "WildcardError:: Invalid trailing wildcard, must be '*' or '**'."

  /** A segment before the last is a literal or exactly `*`. */
  predicate InnerSegmentOk(seg: string) {
    '*' !in seg || seg == "*"
  }

  /** The last segment is a literal, `*` or `**`. */
  predicate LastSegmentOk(seg: string) {
    '*' !in seg || seg == "*" || seg == "**"
  }

  predicate InnerSegmentsOk(segs: seq<string>) {
    forall k :: 0 <= k < |segs| - 1 ==> InnerSegmentOk(segs[k])
  }

  /** The wildcard syntax: a star somewhere, none at the very start, and stars only as whole segments. */
  predicate ValidWildcardPath(wPath: string) {
    var segs := Split(wPath, '/');
    '*' in wPath && !StartsWith(wPath, "*") && InnerSegmentsOk(segs) && LastSegmentOk(segs[|segs| - 1])
  }

  /** `validateWildcardPath(wPath)`: `True`, or the assertion or syntax error for the first rule broken. */
  function ValidateWildcardPath(wPath: string): (r: Outcome<bool>)
    ensures r.Ok? <==> ValidWildcardPath(wPath)
    ensures r.Ok? ==> r.value
    ensures '*' !in wPath ==> r == OtherErr(AssertionFailed)
    ensures '*' in wPath && StartsWith(wPath, "*") ==> r == OtherErr(WildcardSyntax(LeadingStarMsg))
    ensures '*' in wPath && !StartsWith(wPath, "*") && !InnerSegmentsOk(Split(wPath, '/')) ==>
      r == OtherErr(WildcardSyntax(InnerStarMsg))
    ensures ('*' in wPath && !StartsWith(wPath, "*") && InnerSegmentsOk(Split(wPath, '/'))
             && !LastSegmentOk(Split(wPath, '/')[|Split(wPath, '/')| - 1])) ==>
      r == OtherErr(WildcardSyntax(TrailingStarMsg))
  {
    if '*' !in wPath then OtherErr(AssertionFailed)
    else if StartsWith(wPath, "*") then OtherErr(WildcardSyntax(LeadingStarMsg))
    else
      var segs := Split(wPath, '/');
      if !InnerSegmentsOk(segs) then OtherErr(WildcardSyntax(InnerStarMsg))
      else if !LastSegmentOk(segs[|segs| - 1]) then OtherErr(WildcardSyntax(TrailingStarMsg))
      else Ok(true)
  }

  /** A valid wildcard path has at least one '/', so it splits into two or more segments. */
  lemma ValidWildcardHasSlash(wPath: string)
    requires ValidWildcardPath(wPath)
    ensures CountChar(wPath, '/') >= 1
  {
  }

  // ---------------------------------------------------------------------
  // buildRoute (vilo.py:451-460)
  // ---------------------------------------------------------------------

  /** The `verb` argument: one method name, or a list of them. */
  datatype VerbArg = VerbStr(verb: string) | VerbList(verbs: seq<string>)

  /** A route as `buildRoute` stores it. */
  datatype Route = Route(verbs: seq<string>, path: string, fn: Fn, mode: Mode, name: Option<string>)

  /** The mode a mode name stands for. */
  function ModeNamed(name: string): (m: Option<Mode>)
    ensures m.Some? <==> name in ["re", "wildcard", "exact"]
  {
    if name == "re" then Some(Re)
    else if name == "wildcard" then Some(Wildcard)
    else if name == "exact" then Some(Exact)
    else None
  }

  /** The mode `buildRoute` settles on: detected from the path when none (or "") is given, else the given one if it is known. */
  function ChosenMode(path: string, mode: Option<string>): Option<Mode> {
    if mode.None? || mode.value == "" then Some(DetectRouteMode(path)) else ModeNamed(mode.value)
  }

  /** `verb = [verb] if type(verb) is str else verb`. */
  function VerbsOf(verb: VerbArg): (vs: seq<string>)
    ensures verb.VerbStr? ==> vs == [verb.verb]
    ensures verb.VerbList? ==> vs == verb.verbs
  {
    match verb
    case VerbStr(v) => [v]
    case VerbList(vs) => vs
  }

  /** `buildRoute(verb, path, fn, mode, name)`. */
  function BuildRoute(verb: VerbArg, path: string, fn: Fn, mode: Option<string>, name: Option<string>): (r: Outcome<Route>)
    ensures r.Ok? <==> ChosenMode(path, mode).Some? && (ChosenMode(path, mode).value == Wildcard ==> ValidWildcardPath(path))
    ensures r.Ok? ==> r.value == Route(VerbsOf(verb), path, fn, ChosenMode(path, mode).value, name)
    ensures r.Ok? && r.value.mode == Wildcard ==> ValidWildcardPath(path)
    ensures ChosenMode(path, mode).None? ==> r == OtherErr(AssertionFailed)
    ensures ChosenMode(path, mode) == Some(Wildcard) && !r.Ok? ==> r == ValidateWildcardPath(path).PropagateFailure()
  {
    match ChosenMode(path, mode)
    case None => OtherErr(AssertionFailed)
    case Some(m) =>
      if m == Wildcard && !ValidateWildcardPath(path).Ok? then ValidateWildcardPath(path).PropagateFailure()
      else Ok(Route(VerbsOf(verb), path, fn, m, name))
  }

  // ---------------------------------------------------------------------
  // The matching checkWildcardMatch performs (vilo.py:462-495)
  // ---------------------------------------------------------------------

  /** The pattern cut at every '/'. */
  function PatternSegments(wPath: string): seq<string> {
    Split(wPath, '/')
  }

  /** The request path cut at its first `n` slashes, `n` being the pattern's number of slashes. */
  function PathSegments(wPath: string, aPath: string): seq<string> {
    SplitN(aPath, '/', CountChar(wPath, '/'))
  }

  /** A capture list with `acc` in front of a successful result. */
  function Prepend(acc: seq<string>, o: Outcome<Option<seq<string>>>): Outcome<Option<seq<string>>> {
    if o.Ok? && o.value.Some? then Ok(Some(acc + o.value.value)) else o
  }

  /**
   * The loop over the segments before the last (vilo.py:472-478), in order:
   * its two asserts, a capture for `*`, and `False` at the first literal
   * that differs. `Ok(None)` stands for `return False`.
   */
  function MatchSegments(aSegs: seq<string>, wSegs: seq<string>): Outcome<Option<seq<string>>>
    requires |aSegs| == |wSegs|
  {
    if aSegs == [] then Ok(Some([]))
    else if !InnerSegmentOk(wSegs[0]) || '/' in aSegs[0] then OtherErr(AssertionFailed)
    else if wSegs[0] == "*" then Prepend([aSegs[0]], MatchSegments(aSegs[1..], wSegs[1..]))
    else if wSegs[0] != aSegs[0] then Ok(None)
    else MatchSegments(aSegs[1..], wSegs[1..])
  }

  /**
   * What `checkWildcardMatch(wPath, aPath, req)` computes: `Ok(Some(caps))`
   * for `True` with the captures it stores in `req.wildcards`, `Ok(None)` for
   * `False`, or the exception it raises. As written (vilo.py:490), a literal
   * last segment is judged by comparing the last segments the loop saw,
   * which are unbound when the loop never ran.
   */
  function WildcardMatch(wPath: string, aPath: string): Outcome<Option<seq<string>>> {
    var aSegs, wSegs := PathSegments(wPath, aPath), PatternSegments(wPath);
    if |aSegs| != |wSegs| then Ok(None) else MatchAll(aSegs, wSegs)
  }

  /** The segment walk once the piece counts agree: the loop, then the last segment. */
  function MatchAll(aSegs: seq<string>, wSegs: seq<string>): Outcome<Option<seq<string>>>
    requires |aSegs| == |wSegs| >= 1
  {
    var k := |wSegs| - 1;
    var inner :- MatchSegments(aSegs[..k], wSegs[..k]);
    match inner
    case None => Ok(None)
    case Some(caps) => MatchLast(caps, aSegs, wSegs)
  }

  /** The last segment (vilo.py:481-491), after the loop captured `caps`. */
  function MatchLast(caps: seq<string>, aSegs: seq<string>, wSegs: seq<string>): Outcome<Option<seq<string>>>
    requires |aSegs| == |wSegs| >= 1
  {
    var k := |wSegs| - 1;
    var laSeg, lwSeg := aSegs[k], wSegs[k];
    if !LastSegmentOk(lwSeg) then OtherErr(AssertionFailed)
    else if lwSeg == "*" then (if '/' in laSeg then Ok(None) else Ok(Some(caps + [laSeg])))
    else if lwSeg == "**" then Ok(Some(caps + [laSeg]))
    else if k == 0 then OtherErr(UnboundLocal)
    else if wSegs[k - 1] != aSegs[k - 1] then Ok(None)
    else Ok(Some(caps))
  }

  /** The path segments that face a `*` pattern segment, left to right. */
  function StarCaptures(aSegs: seq<string>, wSegs: seq<string>): (caps: seq<string>)
    requires |aSegs| == |wSegs|
    ensures |caps| <= |aSegs|
  {
    if aSegs == [] then []
    else (if wSegs[0] == "*" then [aSegs[0]] else []) + StarCaptures(aSegs[1..], wSegs[1..])
  }

  /** Every literal pattern segment equals the path segment it faces. */
  predicate LiteralsAgree(aSegs: seq<string>, wSegs: seq<string>)
    requires |aSegs| == |wSegs|
  {
    forall j :: 0 <= j < |wSegs| ==> wSegs[j] == "*" || wSegs[j] == aSegs[j]
  }

  /**
   * On segments the asserts accept, the loop succeeds exactly when every
   * literal agrees, and then captures the segments facing a `*`, in order.
   */
  lemma {:induction false} MatchSegmentsSpec(aSegs: seq<string>, wSegs: seq<string>)
    requires |aSegs| == |wSegs|
    requires forall j :: 0 <= j < |wSegs| ==> InnerSegmentOk(wSegs[j]) && '/' !in aSegs[j]
    ensures MatchSegments(aSegs, wSegs) ==
      if LiteralsAgree(aSegs, wSegs) then Ok(Some(StarCaptures(aSegs, wSegs))) else Ok(None)
  {
    if aSegs != [] {
      assert InnerSegmentOk(wSegs[0]) && '/' !in aSegs[0];
      MatchSegmentsSpec(aSegs[1..], wSegs[1..]);
      var rest := MatchSegments(aSegs[1..], wSegs[1..]);
      assert StarCaptures(aSegs, wSegs) ==
        (if wSegs[0] == "*" then [aSegs[0]] else []) + StarCaptures(aSegs[1..], wSegs[1..]);
      if LiteralsAgree(aSegs[1..], wSegs[1..]) && (wSegs[0] == "*" || wSegs[0] == aSegs[0]) {
        forall j | 0 <= j < |wSegs| ensures wSegs[j] == "*" || wSegs[j] == aSegs[j] {
          if j > 0 {
            assert wSegs[1..][j - 1] == wSegs[j] && aSegs[1..][j - 1] == aSegs[j];
          }
        }
        assert LiteralsAgree(aSegs, wSegs);
        assert rest == Ok(Some(StarCaptures(aSegs[1..], wSegs[1..])));
        if wSegs[0] == "*" {
          assert MatchSegments(aSegs, wSegs) == Prepend([aSegs[0]], rest);
        } else {
          assert MatchSegments(aSegs, wSegs) == rest;
          assert StarCaptures(aSegs, wSegs) == StarCaptures(aSegs[1..], wSegs[1..]);
        }
      } else if !(wSegs[0] == "*" || wSegs[0] == aSegs[0]) {
        assert !LiteralsAgree(aSegs, wSegs);
      } else {
        var j :| 0 <= j < |wSegs| - 1 && !(wSegs[1..][j] == "*" || wSegs[1..][j] == aSegs[1..][j]);
        assert !(wSegs[j + 1] == "*" || wSegs[j + 1] == aSegs[j + 1]);
      }
    }
  }

  /** The pattern's last segment is `*` or `**`, which capture the rest of the path. */
  predicate CapturesLast(lwSeg: string) {
    lwSeg == "*" || lwSeg == "**"
  }

  /** The last segment on a valid pattern with two or more segments: `False`, or the captures extended by a final `*` or `**`. */
  lemma MatchLastSpec(caps: seq<string>, aSegs: seq<string>, wSegs: seq<string>)
    requires |aSegs| == |wSegs| >= 2
    requires LastSegmentOk(wSegs[|wSegs| - 1])
    ensures var k := |wSegs| - 1;
      MatchLast(caps, aSegs, wSegs).Ok?
      && (MatchLast(caps, aSegs, wSegs) == Ok(None) <==>
           (wSegs[k] == "*" && '/' in aSegs[k]) || (!CapturesLast(wSegs[k]) && wSegs[k - 1] != aSegs[k - 1]))
      && (MatchLast(caps, aSegs, wSegs).value.Some? ==>
           MatchLast(caps, aSegs, wSegs).value.value == caps + (if CapturesLast(wSegs[k]) then [aSegs[k]] else []))
  {
  }

  /** The segment pairs of a valid pattern and any path whose piece counts agree. */
  predicate WellFormedSegments(aSegs: seq<string>, wSegs: seq<string>) {
    |aSegs| == |wSegs| >= 2
    && (forall j :: 0 <= j < |wSegs| - 1 ==> InnerSegmentOk(wSegs[j]) && '/' !in aSegs[j])
    && LastSegmentOk(wSegs[|wSegs| - 1])
  }

  /** A valid pattern and its path satisfy the asserts of the loop and of the last segment. */
  lemma SegmentsWellFormed(wPath: string, aPath: string)
    requires ValidWildcardPath(wPath)
    requires |PathSegments(wPath, aPath)| == |PatternSegments(wPath)|
    ensures WellFormedSegments(PathSegments(wPath, aPath), PatternSegments(wPath))
  {
    ValidWildcardHasSlash(wPath);
  }

  /** The segment walk on well-formed pairs: when it says `False`, and which captures it returns. */
  lemma {:induction false} MatchAllSpec(aSegs: seq<string>, wSegs: seq<string>)
    requires WellFormedSegments(aSegs, wSegs)
    ensures var k := |wSegs| - 1;
      MatchAll(aSegs, wSegs).Ok?
      && (MatchAll(aSegs, wSegs) == Ok(None) <==> Rejects(aSegs, wSegs))
      && (MatchAll(aSegs, wSegs).value.Some? ==>
           LiteralsAgree(aSegs[..k], wSegs[..k])
           && MatchAll(aSegs, wSegs).value.value ==
                StarCaptures(aSegs[..k], wSegs[..k]) + (if CapturesLast(wSegs[k]) then [aSegs[k]] else []))
  {
    var k := |wSegs| - 1;
    MatchSegmentsSpec(aSegs[..k], wSegs[..k]);
    MatchLastSpec(StarCaptures(aSegs[..k], wSegs[..k]), aSegs, wSegs);
  }

  /** `checkWildcardMatch` never raises on a pattern `validateWildcardPath` accepted. */
  lemma WildcardMatchTotal(wPath: string, aPath: string)
    requires ValidWildcardPath(wPath)
    ensures WildcardMatch(wPath, aPath).Ok?
  {
    if |PathSegments(wPath, aPath)| == |PatternSegments(wPath)| {
      SegmentsWellFormed(wPath, aPath);
      MatchAllSpec(PathSegments(wPath, aPath), PatternSegments(wPath));
    }
  }

  /**
   * The cases in which the walk says `False`: the piece counts differ, a
   * literal segment before the last differs, a final `*` faces a remainder
   * holding '/', or (as written) the pattern ends in a literal and the
   * segment pair before it differs.
   */
  predicate Rejects(aSegs: seq<string>, wSegs: seq<string>)
    requires |wSegs| >= 2
  {
    var k := |wSegs| - 1;
    |aSegs| != |wSegs|
    || !LiteralsAgree(aSegs[..k], wSegs[..k])
    || (wSegs[k] == "*" && '/' in aSegs[k])
    || (!CapturesLast(wSegs[k]) && wSegs[k - 1] != aSegs[k - 1])
  }

  /** On a valid pattern, `checkWildcardMatch` returns `False` exactly in the `Rejects` cases. */
  lemma WildcardMatchFalse(wPath: string, aPath: string)
    requires ValidWildcardPath(wPath)
    ensures |PatternSegments(wPath)| >= 2
    ensures WildcardMatch(wPath, aPath) == Ok(None) <==> Rejects(PathSegments(wPath, aPath), PatternSegments(wPath))
  {
    ValidWildcardHasSlash(wPath);
    var aSegs, wSegs := PathSegments(wPath, aPath), PatternSegments(wPath);
    if |aSegs| == |wSegs| {
      SegmentsWellFormed(wPath, aPath);
      MatchAllSpec(aSegs, wSegs);
    }
  }

  /**
   * When `checkWildcardMatch` returns `True` on a valid pattern, every literal
   * segment before the last agrees with the path, and the captures are the
   * path segments facing each `*` from left to right, then the path's
   * remainder when the pattern ends in `*` or `**`.
   */
  lemma WildcardMatchCaptures(wPath: string, aPath: string)
    requires ValidWildcardPath(wPath)
    requires WildcardMatch(wPath, aPath).Ok? && WildcardMatch(wPath, aPath).value.Some?
    ensures var aSegs, wSegs := PathSegments(wPath, aPath), PatternSegments(wPath);
      var k := |wSegs| - 1;
      |aSegs| == |wSegs| && LiteralsAgree(aSegs[..k], wSegs[..k])
      && WildcardMatch(wPath, aPath).value.value ==
        StarCaptures(aSegs[..k], wSegs[..k]) + (if CapturesLast(wSegs[k]) then [aSegs[k]] else [])
  {
    SegmentsWellFormed(wPath, aPath);
    MatchAllSpec(PathSegments(wPath, aPath), PatternSegments(wPath));
  }

  // Worked cases of `checkWildcardMatch` as written, each split into the
  // text facts, the segments, and the walk over the segments.

  /** Once the segments are known, the match is the segment walk. */
  lemma WildcardMatchOn(wPath: string, aPath: string, aSegs: seq<string>, wSegs: seq<string>)
    requires PathSegments(wPath, aPath) == aSegs && PatternSegments(wPath) == wSegs && |aSegs| == |wSegs| >= 1
    ensures WildcardMatch(wPath, aPath) == MatchAll(aSegs, wSegs)
  {
  }

  // A trailing `*` does not span two segments: "/foo/*" rejects "/foo/bar/baz".
  lemma StarRejectsDeeperPath()
    ensures WildcardMatch("/foo/*", "/foo/bar/baz") == Ok(None)
  {
    StarRejectsDeeperPathSegments();
    StarRejectsDeeperPathWalk();
    WildcardMatchOn("/foo/*", "/foo/bar/baz", ["", "foo", "bar/baz"], ["", "foo", "*"]);
  }

  lemma StarRejectsDeeperPathSegments()
    ensures PatternSegments("/foo/*") == ["", "foo", "*"]
    ensures PathSegments("/foo/*", "/foo/bar/baz") == ["", "foo", "bar/baz"]
  {
    StarRejectsDeeperPathText();
    SplitNCons("", '/', "foo/*", 2);
    SplitNCons("foo", '/', "*", 1);
    SplitNCons("", '/', "foo/bar/baz", 2);
    SplitNCons("foo", '/', "bar/baz", 1);
    assert SplitN("*", '/', 0) == ["*"];
    assert SplitN("bar/baz", '/', 0) == ["bar/baz"];
  }

  lemma StarRejectsDeeperPathText()
    ensures "/foo/*" == "" + ['/'] + "foo/*"
    ensures "foo/*" == "foo" + ['/'] + "*"
    ensures [""] + (["foo"] + (["*"])) == ["", "foo", "*"]
    ensures "/foo/bar/baz" == "" + ['/'] + "foo/bar/baz"
    ensures "foo/bar/baz" == "foo" + ['/'] + "bar/baz"
    ensures [""] + (["foo"] + (["bar/baz"])) == ["", "foo", "bar/baz"]
  {
  }

  lemma StarRejectsDeeperPathWalk()
    ensures MatchAll(["", "foo", "bar/baz"], ["", "foo", "*"]) == Ok(None)
  {
    assert ["", "foo", "bar/baz"][..2] == ["", "foo"] && ["", "foo", "*"][..2] == ["", "foo"];
    assert ["", "foo"][1..] == ["foo"];
  }

  // A trailing `**` captures the unsplit rest: "/s/**" on "/s/foo/bar" gives "foo/bar".
  lemma DoubleStarCapturesRest()
    ensures WildcardMatch("/s/**", "/s/foo/bar") == Ok(Some(["foo/bar"]))
  {
    DoubleStarCapturesRestSegments();
    DoubleStarCapturesRestWalk();
    WildcardMatchOn("/s/**", "/s/foo/bar", ["", "s", "foo/bar"], ["", "s", "**"]);
  }

  lemma DoubleStarCapturesRestSegments()
    ensures PatternSegments("/s/**") == ["", "s", "**"]
    ensures PathSegments("/s/**", "/s/foo/bar") == ["", "s", "foo/bar"]
  {
    DoubleStarCapturesRestText();
    SplitNCons("", '/', "s/**", 2);
    SplitNCons("s", '/', "**", 1);
    SplitNCons("", '/', "s/foo/bar", 2);
    SplitNCons("s", '/', "foo/bar", 1);
    assert SplitN("**", '/', 0) == ["**"];
    assert SplitN("foo/bar", '/', 0) == ["foo/bar"];
  }

  lemma DoubleStarCapturesRestText()
    ensures "/s/**" == "" + ['/'] + "s/**"
    ensures "s/**" == "s" + ['/'] + "**"
    ensures [""] + (["s"] + (["**"])) == ["", "s", "**"]
    ensures "/s/foo/bar" == "" + ['/'] + "s/foo/bar"
    ensures "s/foo/bar" == "s" + ['/'] + "foo/bar"
    ensures [""] + (["s"] + (["foo/bar"])) == ["", "s", "foo/bar"]
  {
  }

  lemma DoubleStarCapturesRestWalk()
    ensures MatchAll(["", "s", "foo/bar"], ["", "s", "**"]) == Ok(Some(["foo/bar"]))
  {
    assert ["", "s", "foo/bar"][..2] == ["", "s"] && ["", "s", "**"][..2] == ["", "s"];
    assert ["", "s"][1..] == ["s"] && ["", "s"][1..] == ["s"];
    assert ["s"][1..] == [] && MatchSegments(["", "s"], ["", "s"]) == Ok(Some([]));
    assert LastSegmentOk("**") && "**" != "*";
    assert [] + ["foo/bar"] == ["foo/bar"];
  }

  // Captures come left to right: "/*/**" on "/a/b/c" gives "a" then "b/c".
  lemma CapturesInOrder()
    ensures WildcardMatch("/*/**", "/a/b/c") == Ok(Some(["a", "b/c"]))
  {
    CapturesInOrderSegments();
    CapturesInOrderWalk();
    WildcardMatchOn("/*/**", "/a/b/c", ["", "a", "b/c"], ["", "*", "**"]);
  }

  lemma CapturesInOrderSegments()
    ensures PatternSegments("/*/**") == ["", "*", "**"]
    ensures PathSegments("/*/**", "/a/b/c") == ["", "a", "b/c"]
  {
    CapturesInOrderText();
    SplitNCons("", '/', "*/**", 2);
    SplitNCons("*", '/', "**", 1);
    SplitNCons("", '/', "a/b/c", 2);
    SplitNCons("a", '/', "b/c", 1);
    assert SplitN("**", '/', 0) == ["**"];
    assert SplitN("b/c", '/', 0) == ["b/c"];
  }

  lemma CapturesInOrderText()
    ensures "/*/**" == "" + ['/'] + "*/**"
    ensures "*/**" == "*" + ['/'] + "**"
    ensures [""] + (["*"] + (["**"])) == ["", "*", "**"]
    ensures "/a/b/c" == "" + ['/'] + "a/b/c"
    ensures "a/b/c" == "a" + ['/'] + "b/c"
    ensures [""] + (["a"] + (["b/c"])) == ["", "a", "b/c"]
  {
  }

  lemma CapturesInOrderWalk()
    ensures MatchAll(["", "a", "b/c"], ["", "*", "**"]) == Ok(Some(["a", "b/c"]))
  {
    assert ["", "a", "b/c"][..2] == ["", "a"] && ["", "*", "**"][..2] == ["", "*"];
    assert ["", "a"][1..] == ["a"] && ["", "*"][1..] == ["*"];
    assert ["a"][1..] == [] && ["*"][1..] == [];
    assert InnerSegmentOk("*") && '/' !in "a";
    assert MatchSegments([], []) == Ok(Some([])) && ["a"] + [] == ["a"];
    assert MatchSegments(["a"], ["*"]) == Ok(Some(["a"]));
    assert MatchSegments(["", "a"], ["", "*"]) == Ok(Some(["a"]));
    assert LastSegmentOk("**") && "**" != "*";
    assert ["a"] + ["b/c"] == ["a", "b/c"];
  }

  // As written, a literal last segment is not compared: "/*/x/y" accepts "/a/x/z".
  lemma LastLiteralUncompared()
    ensures WildcardMatch("/*/x/y", "/a/x/z") == Ok(Some(["a"]))
  {
    LastLiteralUncomparedSegments();
    LastLiteralUncomparedWalk();
    WildcardMatchOn("/*/x/y", "/a/x/z", ["", "a", "x", "z"], ["", "*", "x", "y"]);
  }

  lemma LastLiteralUncomparedSegments()
    ensures PatternSegments("/*/x/y") == ["", "*", "x", "y"]
    ensures PathSegments("/*/x/y", "/a/x/z") == ["", "a", "x", "z"]
  {
    LastLiteralUncomparedText();
    SplitNCons("", '/', "*/x/y", 3);
    SplitNCons("*", '/', "x/y", 2);
    SplitNCons("x", '/', "y", 1);
    SplitNCons("", '/', "a/x/z", 3);
    SplitNCons("a", '/', "x/z", 2);
    SplitNCons("x", '/', "z", 1);
    assert SplitN("y", '/', 0) == ["y"];
    assert SplitN("z", '/', 0) == ["z"];
  }

  lemma LastLiteralUncomparedText()
    ensures "/*/x/y" == "" + ['/'] + "*/x/y"
    ensures "*/x/y" == "*" + ['/'] + "x/y"
    ensures "x/y" == "x" + ['/'] + "y"
    ensures [""] + (["*"] + (["x"] + (["y"]))) == ["", "*", "x", "y"]
    ensures "/a/x/z" == "" + ['/'] + "a/x/z"
    ensures "a/x/z" == "a" + ['/'] + "x/z"
    ensures "x/z" == "x" + ['/'] + "z"
    ensures [""] + (["a"] + (["x"] + (["z"]))) == ["", "a", "x", "z"]
  {
  }

  lemma LastLiteralUncomparedWalk()
    ensures MatchAll(["", "a", "x", "z"], ["", "*", "x", "y"]) == Ok(Some(["a"]))
  {
    assert ["", "a", "x", "z"][..3] == ["", "a", "x"] && ["", "*", "x", "y"][..3] == ["", "*", "x"];
    assert ["", "a", "x"][1..] == ["a", "x"] && ["", "*", "x"][1..] == ["*", "x"];
    assert ["a", "x"][1..] == ["x"] && ["*", "x"][1..] == ["x"];
    assert ["x"][1..] == [];
    assert InnerSegmentOk("*") && InnerSegmentOk("x") && '/' !in "a";
    assert MatchSegments(["x"], ["x"]) == Ok(Some([]));
    assert ["a"] + [] == ["a"];
    assert MatchSegments(["a", "x"], ["*", "x"]) == Prepend(["a"], MatchSegments(["x"], ["x"]));
    assert MatchSegments(["a", "x"], ["*", "x"]) == Ok(Some(["a"]));
    assert MatchSegments(["", "a", "x"], ["", "*", "x"]) == Ok(Some(["a"]));
    assert LastSegmentOk("y") && "y" != "*" && "y" != "**";
  }

  // As written, a literal after a `*` compares the `*` itself: "/*/do" rejects "/foo/do".
  lemma LiteralAfterStarRejects()
    ensures WildcardMatch("/*/do", "/foo/do") == Ok(None)
  {
    LiteralAfterStarRejectsSegments();
    LiteralAfterStarRejectsWalk();
    WildcardMatchOn("/*/do", "/foo/do", ["", "foo", "do"], ["", "*", "do"]);
  }

  lemma LiteralAfterStarRejectsSegments()
    ensures PatternSegments("/*/do") == ["", "*", "do"]
    ensures PathSegments("/*/do", "/foo/do") == ["", "foo", "do"]
  {
    LiteralAfterStarRejectsText();
    SplitNCons("", '/', "*/do", 2);
    SplitNCons("*", '/', "do", 1);
    SplitNCons("", '/', "foo/do", 2);
    SplitNCons("foo", '/', "do", 1);
    assert SplitN("do", '/', 0) == ["do"];
  }

  lemma LiteralAfterStarRejectsText()
    ensures "/*/do" == "" + ['/'] + "*/do"
    ensures "*/do" == "*" + ['/'] + "do"
    ensures [""] + (["*"] + (["do"])) == ["", "*", "do"]
    ensures "/foo/do" == "" + ['/'] + "foo/do"
    ensures "foo/do" == "foo" + ['/'] + "do"
    ensures [""] + (["foo"] + (["do"])) == ["", "foo", "do"]
  {
  }

  lemma LiteralAfterStarRejectsWalk()
    ensures MatchAll(["", "foo", "do"], ["", "*", "do"]) == Ok(None)
  {
    assert ["", "foo", "do"][..2] == ["", "foo"] && ["", "*", "do"][..2] == ["", "*"];
    assert ["", "foo"][1..] == ["foo"] && ["", "*"][1..] == ["*"];
  }

  // Nothing rejects an empty capture: "/*" matches "/" with the capture "".
  lemma EmptyCapture()
    ensures WildcardMatch("/*", "/") == Ok(Some([""]))
  {
    EmptyCaptureSegments();
    EmptyCaptureWalk();
    WildcardMatchOn("/*", "/", ["", ""], ["", "*"]);
  }

  lemma EmptyCaptureSegments()
    ensures PatternSegments("/*") == ["", "*"]
    ensures PathSegments("/*", "/") == ["", ""]
  {
    EmptyCaptureText();
    SplitNCons("", '/', "*", 1);
    SplitNCons("", '/', "", 1);
    assert SplitN("*", '/', 0) == ["*"];
    assert SplitN("", '/', 0) == [""];
  }

  lemma EmptyCaptureText()
    ensures "/*" == "" + ['/'] + "*"
    ensures [""] + (["*"]) == ["", "*"]
    ensures "/" == "" + ['/'] + ""
    ensures [""] + ([""]) == ["", ""]
  {
  }

  lemma EmptyCaptureWalk()
    ensures MatchAll(["", ""], ["", "*"]) == Ok(Some([""]))
  {
    assert ["", ""][..1] == [""] && ["", "*"][..1] == [""];
    assert [""][1..] == [];
    assert MatchSegments([""], [""]) == Ok(Some([]));
    assert LastSegmentOk("*") && '/' !in "";
    assert [] + [""] == [""];
  }
}
