/**
 * Matching a route against a request (vilo.py:462-517): the segment loop
 * of `checkWildcardMatch`, which stores its captures in `req.wildcards`,
 * `checkReMatch`, which stores the match in `req.matched`, and
 * `checkRouteMatch`, which picks one by the route's mode.
 */
module Matching {
  import opened Wrappers
  import opened Text
  import opened Py
  import opened Routes
  import opened Requests

  /** The `True`/`False` a match result stands for; exceptions pass through. */
  function Matched(o: Outcome<Option<seq<string>>>): (r: Outcome<bool>)
    ensures r.Ok? <==> o.Ok?
    ensures r.Ok? ==> (r.value <==> o.value.Some?)
    ensures o.HttpErr? ==> r == HttpErr(o.error)
    ensures o.OtherErr? ==> r == OtherErr(o.fault)
  {
    if o.Ok? then Ok(o.value.Some?) else o.PropagateFailure()
  }

  /** Captures put in front of a result, twice, are the two lists put in front once. */
  lemma PrependTwice(a: seq<string>, b: seq<string>, o: Outcome<Option<seq<string>>>)
    ensures Prepend(a, Prepend(b, o)) == Prepend(a + b, o)
  {
    if o.Ok? && o.value.Some? {
      assert a + (b + o.value.value) == (a + b) + o.value.value;
    }
  }

  /** Putting no captures in front changes nothing. */
  lemma PrependNothing(o: Outcome<Option<seq<string>>>)
    ensures Prepend([], o) == o
  {
    if o.Ok? && o.value.Some? {
      assert [] + o.value.value == o.value.value;
    }
  }

  /** One step of the segment walk, at position `i` of the first `k` segments. */
  lemma MatchSegmentsAt(aSegs: seq<string>, wSegs: seq<string>, i: nat, k: nat)
    requires |aSegs| == |wSegs| && i < k <= |wSegs|
    ensures var tail := MatchSegments(aSegs[i + 1..k], wSegs[i + 1..k]);
      MatchSegments(aSegs[i..k], wSegs[i..k]) ==
        if !InnerSegmentOk(wSegs[i]) || '/' in aSegs[i] then OtherErr(AssertionFailed)
        else if wSegs[i] == "*" then Prepend([aSegs[i]], tail)
        else if wSegs[i] != aSegs[i] then Ok(None)
        else tail
  {
    assert aSegs[i..k][0] == aSegs[i] && wSegs[i..k][0] == wSegs[i];
    assert aSegs[i..k][1..] == aSegs[i + 1..k] && wSegs[i..k][1..] == wSegs[i + 1..k];
  }

  /**
   * `checkWildcardMatch(wPath, aPath, req)`: the path and the pattern cut
   * at the pattern's slashes, walked segment by segment, with the captures
   * stored in `req.wildcards` only when the paths match.
   */
  method CheckWildcardMatch(wPath: string, aPath: string, req: Request) returns (r: Outcome<bool>)
    modifies req`wildcards
    ensures r == Matched(WildcardMatch(wPath, aPath))
    ensures r == Ok(true) ==> req.wildcards == WildcardMatch(wPath, aPath).value.value
    ensures r != Ok(true) ==> req.wildcards == old(req.wildcards)
  {
    // 1. Prelims.
    var wSlashCount := CountChar(wPath, '/');
    var aSegLi := SplitN(aPath, '/', wSlashCount);
    var wSegLi := SplitN(wPath, '/', wSlashCount);
    if |aSegLi| != |wSegLi| {
      return Ok(false);
    }
    // 2. and 3.
    var walked := WalkSegments(aSegLi, wSegLi);
    if !walked.Ok? {
      return walked.PropagateFailure();
    }
    if walked.value.None? {
      return Ok(false);
    }
    // 4. Finish.
    req.wildcards := walked.value.value;
    r := Ok(true);
  }

  /**
   * Steps 2 and 3 of `checkWildcardMatch`: the loop over all segments but
   * the last, then the last one, with the captures collected in order.
   * `Ok(None)` stands for `return False`.
   */
  method WalkSegments(aSegLi: seq<string>, wSegLi: seq<string>) returns (r: Outcome<Option<seq<string>>>)
    requires |aSegLi| == |wSegLi| >= 1
    ensures r == MatchAll(aSegLi, wSegLi)
  {
    var wildcards: seq<string> := [];
    // `aSeg` and `wSeg` hold the last pair the loop saw.
    var k := |wSegLi| - 1;
    var aSeg: Option<string> := None;
    var wSeg: Option<string> := None;
    var i := 0;
    assert aSegLi[0..k] == aSegLi[..k] && wSegLi[0..k] == wSegLi[..k];
    PrependNothing(MatchSegments(aSegLi[..k], wSegLi[..k]));
    while i < k
      invariant 0 <= i <= k
      invariant Prepend(wildcards, MatchSegments(aSegLi[i..k], wSegLi[i..k])) == MatchSegments(aSegLi[..k], wSegLi[..k])
      invariant i == 0 ==> aSeg.None? && wSeg.None?
      invariant i > 0 ==> aSeg == Some(aSegLi[i - 1]) && wSeg == Some(wSegLi[i - 1])
    {
      aSeg, wSeg := Some(aSegLi[i]), Some(wSegLi[i]);
      MatchSegmentsAt(aSegLi, wSegLi, i, k);
      if !(wSeg.value == "*" || '*' !in wSeg.value) || '/' in aSeg.value {
        return OtherErr(AssertionFailed);
      }
      if wSeg.value == "*" {
        PrependTwice(wildcards, [aSeg.value], MatchSegments(aSegLi[i + 1..k], wSegLi[i + 1..k]));
        wildcards := wildcards + [aSeg.value];
      } else if wSeg.value != aSeg.value {
        return Ok(None);
      }
      i := i + 1;
    }
    assert MatchSegments(aSegLi[..k], wSegLi[..k]) == Ok(Some(wildcards)) by {
      assert aSegLi[k..k] == [] && wSegLi[k..k] == [];
      assert wildcards + [] == wildcards;
    }
    // The last segment.
    var laSeg, lwSeg := aSegLi[k], wSegLi[k];
    if !(lwSeg == "*" || lwSeg == "**" || '*' !in lwSeg) {
      return OtherErr(AssertionFailed);
    }
    if lwSeg == "*" {
      if '/' in laSeg {
        return Ok(None);
      }
      wildcards := wildcards + [laSeg];
    } else if lwSeg == "**" {
      wildcards := wildcards + [laSeg];
    } else if wSeg.None? {
      // `wSeg` is unbound: the loop never ran.
      return OtherErr(UnboundLocal);
    } else if wSeg.value != aSeg.value {
      return Ok(None);
    }
    r := Ok(Some(wildcards));
  }

  /** `checkReMatch(rePath, aPath, req)`: whether the expression matches at the start, the match kept in `req.matched`. */
  method CheckReMatch(rePath: string, aPath: string, req: Request, lib: Lib) returns (r: bool)
    modifies req`matched
    ensures r <==> lib.reMatch(rePath, aPath).Some?
    ensures r ==> req.matched == lib.reMatch(rePath, aPath)
    ensures !r ==> req.matched == old(req.matched)
  {
    var m := lib.reMatch(rePath, aPath);
    if m.None? {
      return false;
    }
    req.matched := m;
    r := true;
  }

  /** What `checkRouteMatch(route, req)` returns for the request's path. */
  function RouteMatch(route: Route, env: Environ, lib: Lib): Outcome<bool> {
    var aPath :- GetPathInfo(env);
    if route.mode == Exact then Ok(route.path == aPath)
    else if route.mode == Wildcard then Matched(WildcardMatch(route.path, aPath))
    else Ok(lib.reMatch(route.path, aPath).Some?)
  }

  /** `checkRouteMatch(route, req)`: the path info against the route, as its mode says. */
  method CheckRouteMatch(route: Route, req: Request, lib: Lib) returns (r: Outcome<bool>)
    modifies req`wildcards, req`matched
    ensures r == RouteMatch(route, req.environ, lib)
    ensures route.mode != Wildcard || r != Ok(true) ==> req.wildcards == old(req.wildcards)
    ensures route.mode != Re || r != Ok(true) ==> req.matched == old(req.matched)
    ensures route.mode == Wildcard && r == Ok(true) ==>
      req.wildcards == WildcardMatch(route.path, GetPathInfo(req.environ).value).value.value
    ensures route.mode == Re && r == Ok(true) ==> req.matched == lib.reMatch(route.path, GetPathInfo(req.environ).value)
  {
    var aPath := GetPathInfo(req.environ);
    if !aPath.Ok? {
      return aPath.PropagateFailure();
    }
    if route.mode == Exact {
      return Ok(route.path == aPath.value);
    }
    if route.mode == Wildcard {
      r := CheckWildcardMatch(route.path, aPath.value, req);
      return;
    }
    var b := CheckReMatch(route.path, aPath.value, req, lib);
    r := Ok(b);
  }

  /** An exact route matches exactly the request whose path info is its path ("/" when absent). */
  lemma ExactRouteMatch(route: Route, env: Environ, lib: Lib)
    requires route.mode == Exact && GetPathInfo(env).Ok?
    ensures RouteMatch(route, env, lib) == Ok(route.path == GetPathInfo(env).value)
    ensures "PATH_INFO" !in env.vars ==> (RouteMatch(route, env, lib) == Ok(true) <==> route.path == "/")
  {
  }

  /** A wildcard route that `addRoute` accepted never makes `checkRouteMatch` raise, unless the path info cannot be read. */
  lemma WildcardRouteTotal(route: Route, env: Environ, lib: Lib)
    requires route.mode == Wildcard && ValidWildcardPath(route.path) && GetPathInfo(env).Ok?
    ensures RouteMatch(route, env, lib).Ok?
  {
    WildcardMatchTotal(route.path, GetPathInfo(env).value);
  }
}
