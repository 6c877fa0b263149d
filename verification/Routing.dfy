/** Uri routing: path-segment prefix matching and the longest registered match. */
module Routing {
  import opened Targets

  /** path lies within uri, on segment boundaries. */
  predicate UriMatches(uri: string, path: string) {
    && uri != ""
    && uri <= path
    && (|path| == |uri| || path[|uri|] == '/' || uri[|uri| - 1] == '/')
  }

  // ----- An order on uris -----

  /** Matching is a partial order on non-empty strings. */
  lemma MatchesIsPartialOrder(a: string, b: string, c: string)
    ensures a != "" ==> UriMatches(a, a)
    ensures UriMatches(a, b) && UriMatches(b, a) ==> a == b
    ensures UriMatches(a, b) && UriMatches(b, c) ==> UriMatches(a, c)
  {
    if UriMatches(a, b) && UriMatches(b, c) && |a| < |b| {
      assert c[|a|] == b[|a|];
    }
  }

  /** The uris that match one path form a chain, ordered by length. */
  lemma MatchesOfAPathFormAChain(a: string, b: string, path: string)
    requires UriMatches(a, path) && UriMatches(b, path)
    ensures |a| <= |b| ==> UriMatches(a, b)
    ensures UriMatches(a, b) || UriMatches(b, a)
  {
    if |a| <= |b| {
      assert a == b[..|a|];
      assert |a| < |b| ==> b[|a|] == path[|a|];
    } else {
      assert b == a[..|b|];
      assert a[|b|] == path[|b|];
    }
  }

  // ----- The segment reading of a match -----

  lemma JoinOfLonger(a: seq<string>, b: seq<string>, c: char)
    requires a != [] && a < b
    ensures JoinWith(a, c) + [c] <= JoinWith(b, c)
  {
    assert b == a + b[|a|..];
    JoinOfConcat(a, b[|a|..], c);
  }

  /** The segments of u are a proper prefix of those of path exactly when path goes on below u. */
  lemma BelowIsProperPrefix(u: string, path: string)
    ensures SplitOn(u, '/') < SplitOn(path, '/') <==> u + ['/'] <= path
  {
    if u + ['/'] <= path {
      assert path == u + ['/'] + path[|u| + 1..];
      SplitOfConcat(u, '/', path[|u| + 1..]);
    }
    if SplitOn(u, '/') < SplitOn(path, '/') {
      JoinOfLonger(SplitOn(u, '/'), SplitOn(path, '/'), '/');
      JoinOfSplit(u, '/');
      JoinOfSplit(path, '/');
    }
  }

  lemma SplitIsInjective(u: string, path: string)
    ensures SplitOn(u, '/') == SplitOn(path, '/') <==> u == path
  {
    JoinOfSplit(u, '/');
    JoinOfSplit(path, '/');
  }

  lemma TrailingSlash(u: string)
    ensures SplitOn(u + ['/'], '/') == SplitOn(u, '/') + [""]
  {
    assert u + ['/'] == u + ['/'] + "";
    SplitOfConcat(u, '/', "");
  }

  lemma MatchesByPrefix(uri: string, path: string)
    requires uri != ""
    ensures uri[|uri| - 1] != '/' ==> (UriMatches(uri, path) <==> uri == path || uri + ['/'] <= path)
    ensures uri[|uri| - 1] == '/' ==> (UriMatches(uri, path) <==> uri <= path)
  {
  }

  /** The character test says the same as a test on segment lists: a uri without a trailing
      slash matches exactly the paths whose segments start with its segments; a uri with
      one matches exactly the paths that go on beyond the segments before that slash. */
  lemma MatchesIsSegmentPrefix(uri: string, path: string)
    requires uri != ""
    ensures uri[|uri| - 1] != '/' ==>
              (UriMatches(uri, path) <==> SplitOn(uri, '/') <= SplitOn(path, '/'))
    ensures uri[|uri| - 1] == '/' ==>
              var segments := SplitOn(uri, '/');
              && segments[|segments| - 1] == ""
              && (UriMatches(uri, path) <==> segments[..|segments| - 1] < SplitOn(path, '/'))
  {
    MatchesByPrefix(uri, path);
    if uri[|uri| - 1] != '/' {
      BelowIsProperPrefix(uri, path);
      SplitIsInjective(uri, path);
    } else {
      var u := uri[..|uri| - 1];
      assert uri == u + ['/'];
      TrailingSlash(u);
      BelowIsProperPrefix(u, path);
    }
  }

  // ----- The longest registered match -----

  /** r is the route of path among uris: the greatest matching uri, or "" when none matches. */
  ghost predicate IsRoute(uris: set<string>, path: string, r: string) {
    if r == "" then forall u :: u in uris ==> !UriMatches(u, path)
    else r in uris && UriMatches(r, path) && forall u :: u in uris && UriMatches(u, path) ==> UriMatches(u, r)
  }

  lemma RouteIsUnique(uris: set<string>, path: string, r: string, r': string)
    requires IsRoute(uris, path, r) && IsRoute(uris, path, r')
    ensures r == r'
  {
    if r != "" && r' != "" {
      MatchesIsPartialOrder(r, r', r);
    }
  }

  /** best is the longest match found among `seen`, in the loop's terms. */
  ghost predicate LongestSoFar(seen: set<string>, path: string, best: string) {
    && (best == "" || (best in seen && UriMatches(best, path)))
    && forall u :: u in seen && UriMatches(u, path) ==> |u| <= |best|
  }

  lemma LongestIsRoute(uris: set<string>, path: string, best: string)
    requires LongestSoFar(uris, path, best)
    ensures IsRoute(uris, path, best)
  {
    forall u | u in uris && UriMatches(u, path) ensures UriMatches(u, best) {
      MatchesOfAPathFormAChain(u, best, path);
    }
  }

  /** The server's loop over the registered uris, in any iteration order. */
  method LongestUriMatch(uris: set<string>, path: string) returns (best: string)
    ensures IsRoute(uris, path, best)
  {
    best := "";
    var todo := uris;
    while todo != {}
      invariant todo <= uris
      invariant LongestSoFar(uris - todo, path, best)
    {
      var u :| u in todo;
      if UriMatches(u, path) && |u| > |best| {
        best := u;
      }
      todo := todo - {u};
    }
    LongestIsRoute(uris, path, best);
  }

  lemma RouteExists(uris: set<string>, path: string)
    ensures exists r :: IsRoute(uris, path, r)
  {
    var best := RouteWitness(uris, path);
    LongestIsRoute(uris, path, best);
  }

  lemma {:induction false} RouteWitness(uris: set<string>, path: string) returns (best: string)
    ensures LongestSoFar(uris, path, best)
  {
    if uris == {} {
      best := "";
    } else {
      var u :| u in uris;
      best := RouteWitness(uris - {u}, path);
      if UriMatches(u, path) && |u| > |best| {
        best := u;
      }
    }
  }

  /** The route of a path, as a value. */
  ghost function Route(uris: set<string>, path: string): (r: string)
    ensures IsRoute(uris, path, r)
  {
    RouteExists(uris, path);
    var r :| IsRoute(uris, path, r);
    r
  }

  /** Adding a uri changes a route exactly when the new uri lies at or below the old route,
      and then the route becomes the new uri. */
  lemma AddUriReroutesOnlyToIt(uris: set<string>, uri: string, path: string)
    ensures var before := Route(uris, path);
            Route(uris + {uri}, path)
            == if UriMatches(uri, path) && |before| < |uri| then uri else before
  {
    var before := Route(uris, path);
    var r := if UriMatches(uri, path) && |before| < |uri| then uri else before;
    forall u | u in uris + {uri} && UriMatches(u, path) ensures |u| <= |r| {
    }
    LongestIsRoute(uris + {uri}, path, r);
    RouteIsUnique(uris + {uri}, path, r, Route(uris + {uri}, path));
  }

  /** Removing a uri only moves the paths that were routed to it, and up their chain. */
  lemma RemoveUriReroutesOnlyFromIt(uris: set<string>, uri: string, path: string)
    ensures Route(uris, path) != uri ==> Route(uris - {uri}, path) == Route(uris, path)
    ensures Route(uris - {uri}, path) <= Route(uris, path)
  {
    var before, after := Route(uris, path), Route(uris - {uri}, path);
    if before != uri {
      RouteIsUnique(uris - {uri}, path, before, after);
    }
  }

  // ----- What is reported to the application -----

  /** The allowedUris setting: unset, or a set of uris. */
  datatype Allowed = Everything | Only(uris: set<string>)

  /** The upgrade filter: without one every upgrade passes. */
  method UpgradeAllowed(allowed: Allowed, path: string) returns (ok: bool)
    ensures ok <==> allowed.Everything? || exists u :: u in allowed.uris && UriMatches(u, path)
  {
    if allowed.Everything? {
      return true;
    }
    var todo := allowed.uris;
    while todo != {}
      invariant todo <= allowed.uris
      invariant forall u :: u in allowed.uris - todo ==> !UriMatches(u, path)
    {
      var u :| u in todo;
      if UriMatches(u, path) {
        return true;
      }
      todo := todo - {u};
    }
    return false;
  }

  /** The part of the target a client was matched on: its registered uri, else the longest
      allowed uri, else nothing. */
  ghost function BaseOf(matched: string, allowed: Allowed, path: string): string {
    if matched == "" && allowed.Only? then Route(allowed.uris, path) else matched
  }

  method FindBase(matched: string, allowed: Allowed, path: string) returns (base: string)
    requires matched == "" || UriMatches(matched, path)
    ensures base == BaseOf(matched, allowed, path) && base <= path
    ensures matched != "" || allowed.Everything? ==> base == matched
    ensures matched == "" && allowed.Only? ==> IsRoute(allowed.uris, path, base)
  {
    base := matched;
    if matched == "" && allowed.Only? {
      base := LongestUriMatch(allowed.uris, path);
      RouteIsUnique(allowed.uris, path, base, Route(allowed.uris, path));
    }
  }

  /** The remainder of the target handed to the added callback. */
  method UriAppend(target: string, matched: string, allowed: Allowed) returns (append: string)
    requires matched == "" || UriMatches(matched, PathOf(target))
    ensures BaseOf(matched, allowed, PathOf(target)) + append == target
    ensures matched != "" || allowed.Everything? ==> matched + append == target
    ensures matched == "" && allowed.Only? ==>
              IsRoute(allowed.uris, PathOf(target), BaseOf(matched, allowed, PathOf(target)))
  {
    var path, _ := ParseTarget(target, map[]);
    var base := FindBase(matched, allowed, path);
    var n := if |base| < |target| then |base| else |target|;
    append := target[n..];
    assert base <= target;
  }

  /** A client that passed the upgrade filter is always reported under a non-empty base. */
  lemma FilteredClientHasABase(registered: set<string>, allowed: Allowed, path: string)
    requires allowed.Only? && exists u :: u in allowed.uris && UriMatches(u, path)
    ensures BaseOf(Route(registered, path), allowed, path) != ""
  {
    assert IsRoute(allowed.uris, path, Route(allowed.uris, path));
  }
}
