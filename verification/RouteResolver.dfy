/** Which registered route serves a request path. */
module RouteResolver {
  import opened Wrappers
  import opened Text

  /** The default resolver: the first path segment, or the catch-all route. */
  function DefaultResolve(routes: set<string>, target: string): string {
    var parts := Split(target, '/');
    if |parts| >= 2 && parts[1] in routes then parts[1] else "*"
  }

  function WithoutSlash(target: string): string {
    if target != [] && target[0] == '/' then target[1..] else target
  }

  /** A prefix of `path` that ends where a segment ends. */
  predicate SegmentPrefix(p: string, path: string) {
    p <= path && (|p| == |path| || path[|p|] == '/')
  }

  /** `r` is the longest of the routes that are segment prefixes, or the catch-all if there is none. */
  ghost predicate LongestMatch(routes: set<string>, path: string, r: string) {
    || (r in routes && SegmentPrefix(r, path) && forall p :: p in routes && SegmentPrefix(p, path) ==> |p| <= |r|)
    || (r == "*" && forall p :: p in routes ==> !SegmentPrefix(p, path))
  }

  method LastIndexOf(s: string, pat: char) returns (r: int)
    ensures -1 <= r < |s| && (r >= 0 ==> s[r] == pat)
    ensures forall i :: r < i < |s| ==> s[i] != pat
  {
    var pos := 0;
    while pos < |s|
      invariant pos <= |s| && forall i :: |s| - pos <= i < |s| ==> s[i] != pat
    {
      if s[|s| - pos - 1] == pat {
        return |s| - pos - 1;
      }
      pos := pos + 1;
    }
    return -1;
  }

  /**
   `LongestFirstRouteResolver::resolve`. A target that is itself a route is returned as it is.
   None stands for the panic on an empty target that is not a route.
   */
  method Resolve(routes: set<string>, target: string) returns (r: Option<string>)
    ensures r.None? <==> target == [] && target !in routes
    ensures target in routes ==> r == Some(target)
    ensures r.Some? && target !in routes && target[0] == '/' ==> LongestMatch(routes, target[1..], r.value)
    ensures r.Some? && target !in routes && target[0] != '/' ==> LongestMatch(routes, target, r.value)
  {
    if target in routes {
      return Some(target);
    }
    if target == [] {
      return None;
    }
    var path := WithoutSlash(target);
    var cur := path;
    var lastIndex := LastIndexOf(cur, '/');
    while lastIndex >= 0
      invariant SegmentPrefix(cur, path)
      invariant -1 <= lastIndex < |cur| && (lastIndex >= 0 ==> cur[lastIndex] == '/')
      invariant forall i :: lastIndex < i < |cur| ==> cur[i] != '/'
      invariant forall p :: p in routes && SegmentPrefix(p, path) ==> |p| <= |cur|
      decreases |cur|
    {
      if cur in routes {
        return Some(cur);
      }
      forall p | p in routes && SegmentPrefix(p, path)
        ensures |p| <= lastIndex
      {
        Shorter(p, cur, lastIndex, path);
      }
      cur := cur[..lastIndex];
      lastIndex := LastIndexOf(cur, '/');
    }
    if cur in routes {
      return Some(cur);
    }
    forall p | p in routes
      ensures !SegmentPrefix(p, path)
    {
      if SegmentPrefix(p, path) { Shorter(p, cur, -1, path); }
    }
    return Some("*");
  }

  /** A segment prefix no longer than `cur`, and not `cur`, ends at one of its slashes. */
  lemma Shorter(p: string, cur: string, last: int, path: string)
    requires SegmentPrefix(p, path) && SegmentPrefix(cur, path) && |p| <= |cur| && p != cur
    requires -1 <= last < |cur| && forall i :: last < i < |cur| ==> cur[i] != '/'
    ensures |p| <= last
  {
    assert p == path[..|p|] && cur == path[..|cur|];
    assert |p| < |cur| ==> cur[|p|] == path[|p|];
  }

  lemma FirstSegment(target: string)
    requires target != [] && target[0] == '/'
    ensures var path := target[1..];
      |Split(target, '/')| >= 2 && Split(target, '/')[1] == path[..IndexOf(path, '/')]
  {
    assert target == [] + ['/'] + target[1..];
    SplitConcat([], '/', target[1..]);
    var path := target[1..];
    if IndexOf(path, '/') == |path| {
      assert path[..|path|] == path;
    }
  }

  lemma OnlyFirstSegment(p: string, path: string)
    requires '/' !in p
    ensures SegmentPrefix(p, path) <==> p == path[..IndexOf(path, '/')]
  {
    if SegmentPrefix(p, path) {
      assert forall j :: 0 <= j < |p| ==> path[j] == p[j];
      IndexOfIs(path, '/', |p|);
      assert p == path[..|p|];
    }
  }

  /** When no route has a slash, both resolvers agree on every path that starts with one. */
  lemma AgreesWithDefault(routes: set<string>, target: string, r: string)
    requires forall p :: p in routes ==> '/' !in p
    requires target != [] && target[0] == '/'
    requires LongestMatch(routes, target[1..], r)
    ensures target !in routes && r == DefaultResolve(routes, target)
  {
    var path := target[1..];
    FirstSegment(target);
    assert target[0] in target;
    var first := path[..IndexOf(path, '/')];
    forall p | p in routes
      ensures SegmentPrefix(p, path) <==> p == first
    {
      OnlyFirstSegment(p, path);
    }
    if first in routes { OnlyFirstSegment(first, path); }
  }
}
