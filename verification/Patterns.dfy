/** Route patterns and request paths as lists of segments, and what it means for a
    pattern to match a path. Nothing here knows about the tree. */
module Patterns {
  import opened Strings
  import opened Wrappers

  type Path = seq<string>

  predicate IsParam(s: string) {
    s != "" && s[0] == ':'
  }

  predicate IsWildcard(s: string) {
    s != "" && s[0] == '*'
  }

  predicate IsStatic(s: string) {
    !IsParam(s) && !IsWildcard(s)
  }

  /** The parameter name a segment carries; empty for a static one. */
  function ParamName(s: string): string {
    if IsStatic(s) then "" else s[1..]
  }

  function ToSegments(route: string): Path {
    Split(route, '/')[1..]
  }

  /** Where a route or a request path lives: `/` is the root itself, a string without
      any slash has no segments at all and names nothing. */
  function Locate(route: string): Option<Path> {
    if route == "/" then Some([])
    else if ToSegments(route) == [] then None
    else Some(ToSegments(route))
  }

  function Render(p: Path): string {
    if p == [] then "/" else "/" + Join(p, '/')
  }

  lemma LocateRenders(route: string)
    requires HasPrefix(route, "/")
    ensures Locate(route).Some?
    ensures Render(Locate(route).value) == route
  {
    if route != "/" {
      assert route == "" + "/" + route[1..];
      SplitOfPrefix("", route[1..], '/');
      assert ToSegments(route) == Split(route[1..], '/');
      JoinOfSplit(route[1..], '/');
    }
  }

  /** And every list of slash-free segments is the place of its rendering. */
  lemma RenderLocates(p: Path)
    requires p != [""] && NoneContains(p, '/')
    ensures Locate(Render(p)) == Some(p)
  {
    if p != [] {
      var joined := Join(p, '/');
      SplitOfJoin(p, '/');
      assert joined != "" by { assert Split("", '/') == [""]; }
      SplitOfPrefix("", joined, '/');
      assert "" + "/" + joined == Render(p);
    }
  }

  /** Distinct absolute routes live in distinct places. */
  lemma LocateInjective(r1: string, r2: string)
    requires HasPrefix(r1, "/") && HasPrefix(r2, "/")
    requires Locate(r1) == Locate(r2)
    ensures r1 == r2
  {
    LocateRenders(r1);
    LocateRenders(r2);
  }

  /** A wildcard stands only at the end. */
  ghost predicate WellFormed(p: Path) {
    forall i :: 0 <= i < |p| - 1 ==> !IsWildcard(p[i])
  }

  predicate EndsInWildcard(p: Path) {
    p != [] && IsWildcard(p[|p| - 1])
  }

  predicate SegmentMatches(s: string, x: string) {
    IsParam(s) || (IsStatic(s) && s == x)
  }

  /** The first `n` segments of the pattern match those of the path one by one. */
  ghost predicate PrefixMatches(p: Path, path: Path, n: nat)
    requires n <= |p| && n <= |path|
  {
    forall i :: 0 <= i < n ==> SegmentMatches(p[i], path[i])
  }

  /** A wildcard takes one or more trailing segments; everything else takes one. */
  ghost predicate Matches(p: Path, path: Path) {
    if EndsInWildcard(p) then |p| <= |path| && PrefixMatches(p, path, |p| - 1)
    else |p| == |path| && PrefixMatches(p, path, |p|)
  }

  /** Two patterns are compatible when they are different and, at the first index where
      they differ, both segments are static. The root is compatible with all others. */
  ghost predicate Compatible(p: Path, q: Path) {
    p != q &&
    forall i :: 0 <= i < |p| && i < |q| && p[..i] == q[..i] && p[i] != q[i] ==> IsStatic(p[i]) && IsStatic(q[i])
  }

  lemma CompatibleSymmetric(p: Path, q: Path)
    requires Compatible(p, q)
    ensures Compatible(q, p)
  {
  }

  lemma NeverCompatibleWithItself(p: Path)
    ensures !Compatible(p, p)
  {
  }

  /** Either one list is a prefix of the other or there is a first difference. */
  lemma {:induction false} FirstDifference(p: Path, q: Path) returns (k: nat)
    ensures k <= |p| && k <= |q| && p[..k] == q[..k]
    ensures k < |p| && k < |q| ==> p[k] != q[k]
  {
    k := 0;
    while k < |p| && k < |q| && p[k] == q[k]
      invariant k <= |p| && k <= |q| && p[..k] == q[..k]
    {
      k := k + 1;
    }
  }

  /** A path matching a proper prefix of a well-formed pattern is too short for the pattern. */
  lemma PrefixMatchIsShort(p: Path, q: Path, path: Path)
    requires WellFormed(q) && p < q && Matches(p, path)
    ensures |path| < |q|
  {
    if p != [] {
      assert p[|p| - 1] == q[|p| - 1];
    }
  }

  /** No path matches two compatible patterns. */
  lemma CompatibleDisjoint(p: Path, q: Path, path: Path)
    requires WellFormed(p) && WellFormed(q)
    requires Matches(p, path) && Matches(q, path)
    ensures !Compatible(p, q)
  {
    var k := FirstDifference(p, q);
    assert p[..k] <= p && q[..k] <= q;
    if p < q {
      PrefixMatchIsShort(p, q, path);
    } else if q < p {
      PrefixMatchIsShort(q, p, path);
    } else if p != q {
      assert k < |p| && k < |q|;
      assert !IsWildcard(p[k]) ==> SegmentMatches(p[k], path[k]);
      assert !IsWildcard(q[k]) ==> SegmentMatches(q[k], path[k]);
    }
  }

  /** The parameters bound by the first `n` segments, later names replacing earlier ones. */
  function Bind(p: Path, path: Path, n: nat): map<string, string>
    requires n <= |p| && n <= |path|
  {
    if n == 0 then map[]
    else
      var before := Bind(p, path, n - 1);
      if IsParam(p[n - 1]) then before[ParamName(p[n - 1]) := path[n - 1]]
      else if IsWildcard(p[n - 1]) then before[ParamName(p[n - 1]) := Join(path[n - 1..], '/')]
      else before
  }

  lemma {:induction false} BindOfPrefix(p: Path, q: Path, path: Path, n: nat)
    requires p <= q && n <= |p| && n <= |path|
    ensures Bind(p, path, n) == Bind(q, path, n)
  {
    if n > 0 {
      BindOfPrefix(p, q, path, n - 1);
    }
  }

  /** What `Resolve` hands back beside the value: nothing for the root. */
  function Params(p: Path, path: Path): Option<map<string, string>>
    requires |p| <= |path|
  {
    if p == [] then None else Some(Bind(p, path, |p|))
  }

  /** Substituting parameters back into a pattern. */
  function Substitute(p: Path, params: map<string, string>): Path
    requires forall i :: 0 <= i < |p| && !IsStatic(p[i]) ==> ParamName(p[i]) in params
  {
    seq(|p|, i requires 0 <= i < |p| => if IsStatic(p[i]) then p[i] else params[ParamName(p[i])])
  }

  ghost predicate DistinctNames(p: Path) {
    forall i, j :: 0 <= i < j < |p| && !IsStatic(p[i]) && !IsStatic(p[j]) ==> ParamName(p[i]) != ParamName(p[j])
  }

  /** The value the i-th segment of a pattern takes from a path. */
  function Taken(p: Path, path: Path, i: nat): string
    requires i < |p| <= |path|
  {
    if IsWildcard(p[i]) then Join(path[i..], '/') else path[i]
  }

  /** Every name is bound, to what its last occurrence took. */
  lemma {:induction false} BindTakesLast(p: Path, path: Path, n: nat, i: nat)
    requires i < n <= |p| <= |path| && !IsStatic(p[i])
    requires forall j :: i < j < n && !IsStatic(p[j]) ==> ParamName(p[j]) != ParamName(p[i])
    ensures ParamName(p[i]) in Bind(p, path, n)
    ensures Bind(p, path, n)[ParamName(p[i])] == Taken(p, path, i)
  {
    if i < n - 1 {
      BindTakesLast(p, path, n - 1, i);
    }
  }

  lemma {:induction false} BindBinds(p: Path, path: Path, n: nat, i: nat)
    requires i < n <= |p| <= |path| && !IsStatic(p[i])
    ensures ParamName(p[i]) in Bind(p, path, n)
  {
    if i < n - 1 {
      BindBinds(p, path, n - 1, i);
    }
  }

  /** Joining all but the tail, with the tail already joined, is joining everything. */
  lemma {:induction false} JoinTail(path: Path, n: nat)
    requires n < |path|
    ensures Join(path[..n] + [Join(path[n..], '/')], '/') == Join(path, '/')
  {
    if n == 0 {
      assert path[..0] + [Join(path, '/')] == [Join(path, '/')];
      assert path[0..] == path;
    } else {
      JoinTail(path[1..], n - 1);
      var whole := path[..n] + [Join(path[n..], '/')];
      assert path[1..][..n - 1] == path[1..n] && path[1..][n - 1..] == path[n..];
      assert whole[1..] == path[1..n] + [Join(path[n..], '/')];
    }
  }

  /** When every parameter name occurs once, putting the bound parameters back into the
      matching pattern rebuilds the requested path, slashes in a wildcard's value included. */
  lemma ParametersRoundTrip(p: Path, path: Path)
    requires WellFormed(p) && DistinctNames(p) && Matches(p, path)
    ensures forall i :: 0 <= i < |p| && !IsStatic(p[i]) ==> ParamName(p[i]) in Bind(p, path, |p|)
    ensures Render(Substitute(p, Bind(p, path, |p|))) == Render(path)
  {
    var params := Bind(p, path, |p|);
    forall i | 0 <= i < |p| && !IsStatic(p[i])
      ensures ParamName(p[i]) in params && params[ParamName(p[i])] == Taken(p, path, i)
    {
      BindTakesLast(p, path, |p|, i);
    }
    var built := Substitute(p, params);
    if EndsInWildcard(p) {
      var n := |p| - 1;
      forall i | 0 <= i < n ensures built[i] == path[i] {
        assert SegmentMatches(p[i], path[i]);
      }
      assert built == path[..n] + [Join(path[n..], '/')];
      JoinTail(path, n);
    } else {
      forall i | 0 <= i < |p| ensures built[i] == path[i] {
        assert SegmentMatches(p[i], path[i]);
      }
      assert built == path;
    }
  }

  /** Segment `i` is the last of the pattern to carry its name. */
  ghost predicate LastOfName(q: Path, i: nat) {
    i < |q| && !IsStatic(q[i]) && forall j :: i < j < |q| && !IsStatic(q[j]) ==> q[j][1..] != q[i][1..]
  }

  ghost predicate Named(q: Path, name: string) {
    exists i :: 0 <= i < |q| && !IsStatic(q[i]) && q[i][1..] == name
  }

  /** What a path must bind for a pattern it matches: nothing for the root; otherwise exactly
      the names its `:name` and `*name` segments carry, each to what the last segment of that
      name takes, one segment of the path or all that are left. */
  ghost predicate Binds(q: Path, path: Path, params: Option<map<string, string>>) {
    && (params == None <==> q == [])
    && (params.Some? ==>
          && |q| <= |path|
          && (forall name :: name in params.value <==> Named(q, name))
          && (forall i :: 0 <= i < |q| && LastOfName(q, i) ==>
                q[i][1..] in params.value
                && params.value[q[i][1..]] == if q[i][0] == '*' then Join(path[i..], '/') else path[i]))
  }

  lemma {:induction false} BindNames(q: Path, path: Path, n: nat, name: string)
    requires n <= |q| <= |path|
    ensures name in Bind(q, path, n) <==> exists i :: 0 <= i < n && !IsStatic(q[i]) && q[i][1..] == name
  {
    if n > 0 {
      BindNames(q, path, n - 1, name);
    }
  }

  /** The parameters of a matching pattern are what it must bind. */
  lemma ParamsBind(q: Path, path: Path)
    requires |q| <= |path|
    ensures Binds(q, path, Params(q, path))
  {
    if q != [] {
      var params := Params(q, path).value;
      forall name ensures name in params <==> Named(q, name) {
        BindNames(q, path, |q|, name);
      }
      forall i | 0 <= i < |q| && LastOfName(q, i) ensures q[i][1..] in params && params[q[i][1..]] == Taken(q, path, i) {
        BindTakesLast(q, path, |q|, i);
      }
    }
  }

  /** Bound parameters rebuild the path, if no name occurs twice. */
  lemma BoundRebuilds(q: Path, path: Path, params: map<string, string>)
    requires WellFormed(q) && DistinctNames(q) && Matches(q, path) && Binds(q, path, Some(params))
    ensures forall i :: 0 <= i < |q| && !IsStatic(q[i]) ==> ParamName(q[i]) in params
    ensures Render(Substitute(q, params)) == Render(path)
  {
    ParametersRoundTrip(q, path);
    forall i | 0 <= i < |q| && !IsStatic(q[i])
      ensures ParamName(q[i]) in params && params[ParamName(q[i])] == Bind(q, path, |q|)[ParamName(q[i])]
    {
      assert LastOfName(q, i);
      BindTakesLast(q, path, |q|, i);
    }
    assert Substitute(q, params) == Substitute(q, Bind(q, path, |q|));
  }

  /** Putting the parameters back into the pattern gives the route. */
  ghost predicate Rebuilds(q: Path, params: map<string, string>, route: string) {
    && (forall i :: 0 <= i < |q| && !IsStatic(q[i]) ==> ParamName(q[i]) in params)
    && Render(Substitute(q, params)) == route
  }

  /** What `Resolve` must hand back beside the value of the pattern `q` for a route at `path`. */
  ghost predicate BindsRoute(q: Path, path: Path, route: string, params: Option<map<string, string>>) {
    && Binds(q, path, params)
    && (HasPrefix(route, "/") && DistinctNames(q) && params.Some? ==> Rebuilds(q, params.value, route))
  }

  lemma ParamsBindRoute(q: Path, path: Path, route: string)
    requires WellFormed(q) && Matches(q, path) && Locate(route) == Some(path)
    ensures BindsRoute(q, path, route, Params(q, path))
  {
    ParamsBind(q, path);
    if HasPrefix(route, "/") && DistinctNames(q) && q != [] {
      BoundRebuilds(q, path, Params(q, path).value);
      LocateRenders(route);
    }
  }
}
