/** The route tree as a value: every node's path from the root, with the value stored
    there if any. The heap tree of module `PathTree` is proved to behave like this. */
module RouteTrie {
  import opened Wrappers
  import opened Entities
  import opened Patterns

  type Trie = map<Path, Option<FunctionKey>>

  datatype AddError = WildcardNotLast | WildcardDefined | ParameterDefined | StaticDefined | RouteTaken

  datatype DeleteError = NoSuchNode

  function Parent(p: Path): Path
    requires p != []
  {
    p[..|p| - 1]
  }

  function Last(p: Path): string
    requires p != []
  {
    p[|p| - 1]
  }

  function Child(p: Path, s: string): Path {
    p + [s]
  }

  /** The tree's invariant: the root exists, nodes have their parents, only static nodes
      have siblings, and a wildcard has no children. */
  ghost predicate TrieOk(t: Trie) {
    && [] in t
    && (forall p, s :: Child(p, s) in t ==> p in t && !EndsInWildcard(p))
    && (forall p, s, u :: Child(p, s) in t && Child(p, u) in t && s != u ==> IsStatic(s) && IsStatic(u))
  }

  lemma ChildInverse(p: Path, s: string)
    ensures Child(p, s) != [] && Parent(Child(p, s)) == p && Last(Child(p, s)) == s
  {
  }

  lemma ChildrenDiffer()
    ensures forall p, s, q, u :: Child(p, s) == Child(q, u) ==> p == q && s == u
  {
    forall p, s, q, u | Child(p, s) == Child(q, u) ensures p == q && s == u {
      ChildInverse(p, s);
      ChildInverse(q, u);
    }
  }

  ghost predicate HasChildren(t: Trie, p: Path) {
    exists s :: Child(p, s) in t
  }

  /** Registered routes: the nodes that hold a value. */
  ghost function Routes(t: Trie): map<Path, FunctionKey> {
    map p | p in t && t[p].Some? :: t[p].value
  }

  function Empty(): Trie {
    map[[] := None]
  }

  // ---- AddRoute ----

  /** Valueless nodes for every missing prefix of `p`. */
  ghost function Grow(t: Trie, p: Path): Trie {
    map q | q in t.Keys + Prefixes(p) :: if q in t then t[q] else None
  }

  ghost function Prefixes(p: Path): set<Path> {
    set i | 0 <= i <= |p| :: p[..i]
  }

  /** What the children already at `p` object to in a new segment `s`. The tests come in
      the order of the source. */
  ghost function ClashAt(t: Trie, p: Path, s: string): Option<AddError> {
    if !HasChildren(t, p) then None
    else if IsWildcard(s) || (exists c :: Child(p, c) in t && IsWildcard(c)) then Some(WildcardDefined)
    else if exists c :: Child(p, c) in t && IsParam(c) && c != s then Some(ParameterDefined)
    else if IsParam(s) && (exists c :: Child(p, c) in t && IsStatic(c)) then Some(StaticDefined)
    else None
  }

  /** The error `AddRoute` reports from `p[..i]` on, if it reports one at all. */
  ghost function AddErrorFrom(t: Trie, p: Path, i: nat): Option<AddError>
    requires i <= |p|
    decreases |p| - i
  {
    if i == |p| then None
    else if EndsInWildcard(p[..i]) then Some(WildcardNotLast)
    else if ClashAt(t, p[..i], p[i]).Some? then ClashAt(t, p[..i], p[i])
    else if i == |p| - 1 && p in t && t[p].Some? then Some(RouteTaken)
    else AddErrorFrom(t, p, i + 1)
  }

  ghost function AddErrorOf(t: Trie, p: Path): Option<AddError> {
    if p == [] then if p in t && t[p].Some? then Some(RouteTaken) else None
    else AddErrorFrom(t, p, 0)
  }

  /** The first wildcard of an ill-formed pattern. */
  ghost function FirstWildcard(p: Path): (k: nat)
    requires exists i :: 0 <= i < |p| && IsWildcard(p[i])
    ensures k < |p| && IsWildcard(p[k]) && forall j :: 0 <= j < k ==> !IsWildcard(p[j])
  {
    if IsWildcard(p[0]) then 0 else
      assert exists i :: 0 <= i < |p[1..]| && IsWildcard(p[1..][i]) by {
        var i :| 0 <= i < |p| && IsWildcard(p[i]);
        assert p[1..][i - 1] == p[i];
      }
      1 + FirstWildcard(p[1..])
  }

  /** The tree after `AddRoute`: the route and its missing ancestors, or the nodes an
      inner wildcard leaves behind, or nothing new. */
  ghost function Added(t: Trie, p: Path, v: FunctionKey): Trie {
    match AddErrorOf(t, p)
    case None => Grow(t, p)[p := Some(v)]
    case Some(WildcardNotLast) =>
      if WellFormed(p) then t else Grow(t, p[..FirstWildcard(p) + 1])
    case Some(_) => t
  }

  // ---- DeleteRoute ----

  /** `DeleteRoute` walks down to the parent without checking that the nodes are there. */
  ghost predicate CanWalkToParent(t: Trie, p: Path) {
    p == [] || Parent(p) in t
  }

  /** A leaf goes away; a node with children only loses its value. Ancestors stay. */
  ghost function Removed(t: Trie, p: Path): Trie {
    if p == [] || HasChildren(t, p) then (if p in t then t[p := None] else t)
    else t - {p}
  }

  // ---- The invariant is kept ----

  /** Hanging a new node under a childless non-wildcard, or a static one among static ones. */
  lemma AttachKeepsOk(t: Trie, p: Path, s: string)
    requires TrieOk(t) && p in t && Child(p, s) !in t && !EndsInWildcard(p)
    requires forall u :: Child(p, u) in t ==> IsStatic(u) && IsStatic(s)
    ensures TrieOk(t[Child(p, s) := None])
  {
    ChildrenDiffer();
  }

  /** Taking away a leaf. */
  lemma CutKeepsOk(t: Trie, p: Path, s: string)
    requires TrieOk(t) && !HasChildren(t, Child(p, s))
    ensures TrieOk(t - {Child(p, s)})
  {
    ChildInverse(p, s);
    assert forall u :: Child(Child(p, s), u) in t ==> HasChildren(t, Child(p, s));
  }

  // ---- One step of AddRoute ----

  /** What `AddRoute` objects to when it finds child `c` where it needs segment `s`. */
  function ClashOf(c: string, s: string): Option<AddError> {
    if IsWildcard(c) || IsWildcard(s) then Some(WildcardDefined)
    else if IsParam(c) && c != s then Some(ParameterDefined)
    else if IsStatic(c) && !IsStatic(s) then Some(StaticDefined)
    else None
  }

  lemma PrefixIsChild(p: Path, i: nat)
    requires i < |p|
    ensures Child(p[..i], p[i]) == p[..i + 1]
  {
  }

  /** Inspecting any one child decides, provided an exact match is preferred. */
  lemma AnyChildDecides(t: Trie, p: Path, c: string, s: string)
    requires TrieOk(t) && Child(p, c) in t && (Child(p, s) in t ==> c == s)
    ensures ClashAt(t, p, s) == ClashOf(c, s)
  {
    assert HasChildren(t, p);
  }

  lemma ChildlessNeverClashes(t: Trie, p: Path, s: string)
    requires forall u :: Child(p, u) !in t
    ensures ClashAt(t, p, s) == None
  {
  }

  /** A new segment that does not clash is static, and so are its siblings. */
  lemma NewSiblingsStatic(t: Trie, p: Path, s: string)
    requires TrieOk(t) && ClashAt(t, p, s) == None && Child(p, s) !in t
    ensures forall u :: Child(p, u) in t ==> IsStatic(u) && IsStatic(s)
  {
    assert forall u :: Child(p, u) in t ==> HasChildren(t, p);
  }

  // ---- Grow ----

  lemma InPrefixes(q: Path, p: Path)
    ensures q in Prefixes(p) <==> q <= p
  {
    if q <= p {
      assert p[..|q|] == q;
    }
  }

  lemma {:induction false} PrefixClosed(t: Trie, p: Path, q: Path)
    requires TrieOk(t) && p in t && q <= p
    ensures q in t
    decreases |p|
  {
    if q != p {
      assert Child(Parent(p), Last(p)) == p;
      PrefixClosed(t, Parent(p), q);
    }
  }

  lemma GrowStart(t: Trie, p: Path)
    requires TrieOk(t)
    ensures Grow(t, p[..0]) == t
  {
    forall q ensures q in Prefixes(p[..0]) ==> q == [] {
      InPrefixes(q, p[..0]);
    }
  }

  lemma GrowStep(t: Trie, p: Path, i: nat)
    requires i < |p|
    ensures Grow(t, p[..i + 1]) == if p[..i + 1] in t then Grow(t, p[..i]) else Grow(t, p[..i])[p[..i + 1] := None]
  {
    forall q ensures q in Prefixes(p[..i + 1]) <==> q in Prefixes(p[..i]) || q == p[..i + 1] {
      InPrefixes(q, p[..i]);
      InPrefixes(q, p[..i + 1]);
    }
  }

  /** Growing a path adds no children to its last node. */
  lemma GrowAddsNothingBelow(t: Trie, p: Path, s: string)
    ensures Child(p, s) in Grow(t, p) <==> Child(p, s) in t
  {
    InPrefixes(Child(p, s), p);
  }

  lemma GrowOfPresent(t: Trie, p: Path)
    requires TrieOk(t) && p in t
    ensures Grow(t, p) == t
  {
    forall q | q in Prefixes(p) ensures q in t {
      InPrefixes(q, p);
      PrefixClosed(t, p, q);
    }
  }

  lemma GrowKeepsClash(t: Trie, p: Path, s: string)
    ensures ClashAt(Grow(t, p), p, s) == ClashAt(t, p, s)
  {
    forall u ensures Child(p, u) in Grow(t, p) <==> Child(p, u) in t {
      GrowAddsNothingBelow(t, p, u);
    }
    assert HasChildren(Grow(t, p), p) <==> HasChildren(t, p);
  }

  // ---- The three ways AddRoute ends ----

  /** Standing on a wildcard with segments left. */
  lemma EndsOnWildcard(t: Trie, p: Path, i: nat, v: FunctionKey)
    requires i < |p| && WellFormed(p[..i]) && EndsInWildcard(p[..i])
    requires AddErrorFrom(t, p, 0) == AddErrorFrom(t, p, i)
    ensures AddErrorOf(t, p) == Some(WildcardNotLast) && Added(t, p, v) == Grow(t, p[..i])
  {
    assert IsWildcard(p[i - 1]);
    var k := FirstWildcard(p);
    assert forall j :: 0 <= j < i - 1 ==> p[..i][j] == p[j];
  }

  /** A clash: the node above has children, so it was there before and nothing was created. */
  lemma EndsInClash(t: Trie, p: Path, i: nat, v: FunctionKey)
    requires TrieOk(t) && i < |p| && !EndsInWildcard(p[..i]) && AddErrorFrom(t, p, 0) == AddErrorFrom(t, p, i)
    requires ClashAt(t, p[..i], p[i]).Some?
    ensures AddErrorOf(t, p) == ClashAt(t, p[..i], p[i])
    ensures Added(t, p, v) == t && Grow(t, p[..i]) == t
  {
    GrowOfPresent(t, p[..i]);
  }

  /** `AddRoute` has no objection to any segment of `p`. */
  ghost predicate ReachesLast(t: Trie, p: Path) {
    && p != [] && !EndsInWildcard(Parent(p)) && AddErrorFrom(t, p, 0) == AddErrorFrom(t, p, |p| - 1)
    && ClashAt(t, Parent(p), Last(p)).None?
  }

  /** The last segment fits: the route is taken or registered. */
  lemma EndsAtLast(t: Trie, p: Path, v: FunctionKey)
    requires TrieOk(t) && ReachesLast(t, p)
    ensures AddErrorOf(t, p) == if p in t && t[p].Some? then Some(RouteTaken) else None
    ensures Added(t, p, v) == if p in t && t[p].Some? then Grow(t, p) else Grow(t, p)[p := Some(v)]
  {
    assert AddErrorFrom(t, p, |p| - 1) == if p in t && t[p].Some? then Some(RouteTaken) else AddErrorFrom(t, p, |p|);
    if p in t {
      GrowOfPresent(t, p);
    }
  }

  lemma AtRoot(t: Trie, v: FunctionKey)
    requires TrieOk(t)
    ensures AddErrorOf(t, []) == if t[[]].Some? then Some(RouteTaken) else None
    ensures Added(t, [], v) == if t[[]].Some? then t else t[[] := Some(v)]
  {
    GrowOfPresent(t, []);
  }

  lemma NoClashMovesOn(t: Trie, p: Path, i: nat)
    requires i < |p| - 1 && !EndsInWildcard(p[..i]) && ClashAt(t, p[..i], p[i]).None?
    ensures AddErrorFrom(t, p, i) == AddErrorFrom(t, p, i + 1)
  {
  }

  lemma StaysWellFormed(p: Path, i: nat)
    requires i < |p| && WellFormed(p[..i]) && !EndsInWildcard(p[..i])
    ensures WellFormed(p[..i + 1])
  {
    forall j | 0 <= j < i ensures !IsWildcard(p[j]) {
      assert p[j] == p[..i][j];
    }
  }

  // ---- Lookup ----

  /** The plain reference: the value of a registered pattern matching the path, if any. */
  ghost function Lookup(routes: map<Path, FunctionKey>, path: Path): Option<FunctionKey> {
    if exists q :: q in routes && Matches(q, path) then
      var q :| q in routes && Matches(q, path);
      Some(routes[q])
    else None
  }

  /** All nodes of a tree are well-formed and pairwise compatible. */
  lemma {:induction false} NodesWellFormed(t: Trie, p: Path)
    requires TrieOk(t) && p in t
    ensures WellFormed(p)
  {
    forall i | 0 <= i < |p| - 1 ensures !IsWildcard(p[i]) {
      PrefixIsChild(p, i + 1);
      PrefixClosed(t, p, p[..i + 2]);
      assert p[..i + 1][i] == p[i];
    }
  }

  lemma NodesCompatible(t: Trie, p: Path, q: Path)
    requires TrieOk(t) && p in t && q in t && p != q
    ensures Compatible(p, q)
  {
    forall i | 0 <= i < |p| && i < |q| && p[..i] == q[..i] && p[i] != q[i] ensures IsStatic(p[i]) && IsStatic(q[i]) {
      PrefixIsChild(p, i);
      PrefixIsChild(q, i);
      PrefixClosed(t, p, p[..i + 1]);
      PrefixClosed(t, q, q[..i + 1]);
    }
  }

  /** At most one node of a tree matches a path. */
  lemma AtMostOneMatch(t: Trie, p: Path, q: Path, path: Path)
    requires TrieOk(t) && p in t && q in t && Matches(p, path) && Matches(q, path)
    ensures p == q
  {
    if p != q {
      NodesWellFormed(t, p);
      NodesWellFormed(t, q);
      NodesCompatible(t, p, q);
      CompatibleDisjoint(p, q, path);
    }
  }

  /** Hence any matching node decides the lookup. */
  lemma MatchDecides(t: Trie, q: Path, path: Path)
    requires TrieOk(t) && q in t && Matches(q, path)
    ensures Lookup(Routes(t), path) == t[q]
    ensures forall r :: r in t && Matches(r, path) ==> r == q
  {
    forall r | r in t && Matches(r, path) ensures r == q {
      AtMostOneMatch(t, r, q, path);
    }
    if t[q].Some? {
      assert q in Routes(t);
    }
  }

  /** Every node matching the path lies at or below `c`. */
  ghost predicate MatchesLieBelow(t: Trie, c: Path, path: Path) {
    forall q :: q in t && Matches(q, path) ==> c <= q
  }

  /** `Resolve` can stand at `c` after reading `|c|` segments. */
  ghost predicate Reading(t: Trie, c: Path, path: Path) {
    && c in t && |c| <= |path| && !EndsInWildcard(c)
    && PrefixMatches(c, path, |c|) && MatchesLieBelow(t, c, path)
  }

  lemma ReadingStarts(t: Trie, path: Path)
    requires TrieOk(t)
    ensures Reading(t, [], path)
  {
  }

  /** Below `c`, a matching node can only continue with one particular segment. */
  lemma NextSegment(t: Trie, c: Path, path: Path, s: string, q: Path)
    requires TrieOk(t) && Reading(t, c, path) && |c| < |path|
    requires Child(c, s) in t && (Child(c, path[|c|]) in t ==> s == path[|c|])
    requires q in t && Matches(q, path)
    ensures |c| < |q| && q[|c|] == s
    ensures s == path[|c|] || !IsStatic(s)
  {
    var i := |c|;
    assert c == q[..i];
    assert |q| == i ==> q == c;
    PrefixIsChild(q, i);
    PrefixClosed(t, q, q[..i + 1]);
    assert Child(c, q[i]) in t;
    assert !(i == |q| - 1 && EndsInWildcard(q)) ==> SegmentMatches(q[i], path[i]);
  }

  /** No child fits the next segment: nothing matches. */
  lemma DeadEnd(t: Trie, c: Path, path: Path)
    requires TrieOk(t) && Reading(t, c, path) && |c| < |path|
    requires Child(c, path[|c|]) !in t
    requires !HasChildren(t, c) || exists s :: Child(c, s) in t && IsStatic(s)
    ensures forall q :: q in t ==> !Matches(q, path)
    ensures Lookup(Routes(t), path) == None
  {
    forall q | q in t && Matches(q, path) ensures false {
      var i := |c|;
      assert c == q[..i] && (|q| == i ==> q == c);
      PrefixIsChild(q, i);
      PrefixClosed(t, q, q[..i + 1]);
      var s :| Child(c, s) in t && IsStatic(s);
      NextSegment(t, c, path, s, q);
    }
  }

  /** Following a fitting child. */
  lemma StepDown(t: Trie, c: Path, path: Path, s: string)
    requires TrieOk(t) && Reading(t, c, path) && |c| < |path|
    requires Child(c, s) in t && (Child(c, path[|c|]) in t ==> s == path[|c|])
    requires s == path[|c|] || !IsStatic(s)
    ensures MatchesLieBelow(t, Child(c, s), path) && c <= Child(c, s) && |Child(c, s)| == |c| + 1
    ensures IsWildcard(s) || |c| + 1 == |path| ==> Matches(Child(c, s), path)
    ensures !IsWildcard(s) ==> Reading(t, Child(c, s), path)
  {
    var d := Child(c, s);
    ChildInverse(c, s);
    forall q | q in t && Matches(q, path) ensures d <= q {
      NextSegment(t, c, path, s, q);
      assert q[..|c|] == c && q[..|c| + 1] == d;
    }
    assert forall i :: 0 <= i < |c| ==> d[i] == c[i];
  }

  /** The answer `Resolve` must give for a route: the value registered at the pattern that
      matches, and what that pattern binds; no parameters when no node matches. */
  ghost predicate Answered(t: Trie, path: Path, route: string, result: Option<FunctionKey>, params: Option<map<string, string>>) {
    && result == Lookup(Routes(t), path)
    && (forall q :: q in t && Matches(q, path) ==> BindsRoute(q, path, route, params))
    && ((forall q :: q in t ==> !Matches(q, path)) ==> params == None)
  }

  lemma MatchAnswers(t: Trie, q: Path, path: Path, route: string)
    requires TrieOk(t) && q in t && Matches(q, path) && Locate(route) == Some(path)
    ensures |q| <= |path| && Answered(t, path, route, t[q], Params(q, path))
  {
    hide TrieOk, Matches, Lookup, Routes, BindsRoute, Params, Locate;
    MatchIsLong(q, path);
    MatchDecides(t, q, path);
    NodesWellFormed(t, q);
    ParamsBindRoute(q, path, route);
  }

  lemma MatchIsLong(q: Path, path: Path)
    requires Matches(q, path)
    ensures |q| <= |path|
  {
  }

  lemma DeadEndAnswers(t: Trie, c: Path, path: Path, route: string)
    requires TrieOk(t) && Reading(t, c, path) && |c| < |path|
    requires Child(c, path[|c|]) !in t
    requires !HasChildren(t, c) || exists s :: Child(c, s) in t && IsStatic(s)
    ensures Answered(t, path, route, None, None)
  {
    hide Matches, Lookup, Routes, BindsRoute;
    DeadEnd(t, c, path);
  }
}
