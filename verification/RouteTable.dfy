/** What the route tree guarantees about the table of registered routes. */
module RouteTable {
  import opened Wrappers
  import opened Entities
  import opened Strings
  import opened Patterns
  import opened RouteTrie

  type Table = map<Path, FunctionKey>

  // ---- When AddRoute accepts ----

  /** `AddRoute` passes the i-th segment without objection. */
  ghost predicate StepFine(t: Trie, p: Path, i: nat)
    requires i < |p|
  {
    !EndsInWildcard(p[..i]) && ClashAt(t, p[..i], p[i]).None?
  }

  lemma {:induction false} AcceptedStepwise(t: Trie, p: Path, i: nat)
    requires i < |p|
    ensures AddErrorFrom(t, p, i).None? <==>
            (forall j :: i <= j < |p| ==> StepFine(t, p, j)) && !(p in t && t[p].Some?)
    decreases |p| - i
  {
    assert AddErrorFrom(t, p, |p|) == None;
    assert StepFine(t, p, i) <==> !EndsInWildcard(p[..i]) && ClashAt(t, p[..i], p[i]).None?;
    if i < |p| - 1 {
      AcceptedStepwise(t, p, i + 1);
    }
  }

  /** The new pattern fits every node of the tree. */
  ghost predicate Fits(t: Trie, p: Path) {
    && WellFormed(p)
    && (forall q :: q in t && q != p ==> Compatible(p, q))
    && (p in t ==> t[p] == None && !EndsInWildcard(p))
  }

  lemma StepsFineFit(t: Trie, p: Path)
    requires TrieOk(t) && forall j :: 0 <= j < |p| ==> StepFine(t, p, j)
    ensures WellFormed(p)
    ensures forall q :: q in t && q != p ==> Compatible(p, q)
    ensures p in t ==> !EndsInWildcard(p)
  {
    forall i | 0 <= i < |p| - 1 ensures !IsWildcard(p[i]) {
      assert StepFine(t, p, i + 1);
      assert p[..i + 1][i] == p[i];
    }
    forall q, i | q in t && 0 <= i < |p| && i < |q| && p[..i] == q[..i] && p[i] != q[i]
      ensures IsStatic(p[i]) && IsStatic(q[i])
    {
      assert StepFine(t, p, i);
      PrefixIsChild(q, i);
      PrefixClosed(t, q, q[..i + 1]);
      assert HasChildren(t, p[..i]);
    }
    if p in t && p != [] {
      assert StepFine(t, p, |p| - 1);
      PrefixIsChild(p, |p| - 1);
      assert p[..|p|] == p;
      assert HasChildren(t, p[..|p| - 1]);
    }
  }

  lemma FitStepsFine(t: Trie, p: Path, i: nat)
    requires TrieOk(t) && Fits(t, p) && i < |p|
    ensures StepFine(t, p, i)
  {
    PrefixIsChild(p, i);
    forall c | Child(p[..i], c) in t
      ensures if c == p[i] then !IsWildcard(c) else IsStatic(c) && IsStatic(p[i])
    {
      var q := Child(p[..i], c);
      assert q[..i] == p[..i] && q[i] == c;
      assert c == p[i] && i == |p| - 1 ==> q == p;
    }
  }

  /** `AddRoute` accepts a route exactly when it fits the nodes of the tree. */
  lemma AcceptedIffFits(t: Trie, p: Path)
    requires TrieOk(t)
    ensures AddErrorOf(t, p).None? <==> Fits(t, p)
  {
    if p != [] {
      AcceptedStepwise(t, p, 0);
      if AddErrorOf(t, p).None? {
        StepsFineFit(t, p);
      } else if Fits(t, p) {
        forall j | 0 <= j < |p| ensures StepFine(t, p, j) {
          FitStepsFine(t, p, j);
        }
      }
    }
  }

  // ---- Which error it is ----

  /** What is wrong at the i-th segment: a wildcard stands before it; or a node there bears a
      wildcard, another parameter or a static segment that the new segment cannot stand beside. */
  ghost predicate Blames(t: Trie, p: Path, i: nat, err: AddError) {
    && i < |p|
    && match err
       case WildcardNotLast => i > 0 && IsWildcard(p[i - 1])
       case WildcardDefined => exists c :: Child(p[..i], c) in t && (IsWildcard(c) || IsWildcard(p[i]))
       case ParameterDefined => exists c :: Child(p[..i], c) in t && IsParam(c) && c != p[i]
       case StaticDefined => IsParam(p[i]) && exists c :: Child(p[..i], c) in t && IsStatic(c)
       case RouteTaken => i == |p| - 1 && p in Routes(t) && !IsWildcard(p[i])
  }

  lemma {:induction false} ErrorIsBlamed(t: Trie, p: Path, i: nat) returns (k: nat)
    requires i < |p| && AddErrorFrom(t, p, i).Some?
    ensures i <= k && Blames(t, p, k, AddErrorFrom(t, p, i).value)
    decreases |p| - i
  {
    k := i;
    if EndsInWildcard(p[..i]) {
    } else if ClashAt(t, p[..i], p[i]).Some? {
      assert exists s :: Child(p[..i], s) in t;
    } else if i == |p| - 1 && p in t && t[p].Some? {
      PrefixIsChild(p, i);
      assert p[..|p|] == p;
      assert IsWildcard(p[i]) ==> HasChildren(t, p[..i]);
    } else {
      assert AddErrorFrom(t, p, |p|) == None;
      k := ErrorIsBlamed(t, p, i + 1);
    }
  }

  /** An existing node without a wildcard at its end meets no clash on the way. */
  lemma NodeMeetsNoClash(t: Trie, p: Path, i: nat)
    requires TrieOk(t) && p in t && !EndsInWildcard(p) && i < |p|
    ensures !EndsInWildcard(p[..i]) && ClashAt(t, p[..i], p[i]).None?
  {
    PrefixIsChild(p, i);
    PrefixClosed(t, p, p[..i + 1]);
    PrefixClosed(t, p, p[..i]);
    if i > 0 {
      PrefixIsChild(p, i - 1);
    }
    if i + 1 < |p| {
      PrefixIsChild(p, i + 1);
      PrefixClosed(t, p, p[..i + 2]);
    } else {
      assert p[..i + 1] == p;
    }
  }

  lemma {:induction false} TakenFrom(t: Trie, p: Path, i: nat)
    requires TrieOk(t) && p in Routes(t) && !EndsInWildcard(p) && i < |p|
    ensures AddErrorFrom(t, p, i) == Some(RouteTaken)
    decreases |p| - i
  {
    hide TrieOk, ClashAt;
    NodeMeetsNoClash(t, p, i);
    if i < |p| - 1 {
      TakenFrom(t, p, i + 1);
    }
  }

  /** `AddRoute` says that a route is taken exactly when it is registered, but for a wildcard's,
      and any other error is true of some segment. */
  lemma ErrorExplained(t: Trie, p: Path)
    requires TrieOk(t)
    ensures AddErrorOf(t, p) == Some(RouteTaken) <==> p in Routes(t) && !EndsInWildcard(p)
    ensures AddErrorOf(t, p).Some? && AddErrorOf(t, p).value != RouteTaken ==> exists i: nat :: Blames(t, p, i, AddErrorOf(t, p).value)
  {
    if p != [] {
      if AddErrorOf(t, p).Some? {
        var k := ErrorIsBlamed(t, p, 0);
      }
      if p in Routes(t) && !EndsInWildcard(p) {
        TakenFrom(t, p, 0);
      }
    }
  }

  // ---- When nothing is left over ----

  /** Every node leads to a registered route: true as long as nothing was deleted and no
      ill-formed route was tried. */
  ghost predicate Live(t: Trie) {
    forall p {:trigger LeadsToRoute(t, p)} :: p in t && p != [] ==> LeadsToRoute(t, p)
  }

  ghost predicate LeadsToRoute(t: Trie, p: Path) {
    exists q :: q in Routes(t) && p <= q
  }

  lemma CompatibleWithPrefix(p: Path, q: Path, n: Path)
    requires Compatible(p, q) && n <= q && n != p
    ensures Compatible(p, n)
  {
    forall i | 0 <= i < |p| && i < |n| && p[..i] == n[..i] && p[i] != n[i] ensures IsStatic(p[i]) && IsStatic(n[i]) {
      assert n[..i] == q[..i];
    }
  }

  /** A node that is no registered route is no wildcard either. */
  lemma UnregisteredNode(t: Trie, p: Path)
    requires TrieOk(t) && Live(t) && p in t && p !in Routes(t)
    ensures t[p] == None && !EndsInWildcard(p)
  {
    if p != [] {
      assert LeadsToRoute(t, p);
      var q :| q in Routes(t) && p <= q;
      NodesWellFormed(t, q);
      assert |p| == |q| ==> p == q;
      assert q[|p| - 1] == p[|p| - 1];
    }
  }

  lemma CompatibleWithAllNodes(t: Trie, p: Path, n: Path)
    requires Live(t) && n in t && n != p && forall q :: q in Routes(t) ==> Compatible(p, q)
    ensures Compatible(p, n)
  {
    if n != [] {
      assert LeadsToRoute(t, n);
      var q :| q in Routes(t) && n <= q;
      CompatibleWithPrefix(p, q, n);
    }
  }

  lemma CompatibleFits(t: Trie, p: Path)
    requires TrieOk(t) && Live(t) && WellFormed(p) && forall q :: q in Routes(t) ==> Compatible(p, q)
    ensures Fits(t, p)
  {
    hide Compatible, TrieOk, Live;
    forall n | n in t && n != p ensures Compatible(p, n) {
      CompatibleWithAllNodes(t, p, n);
    }
    if p in t {
      assert p !in Routes(t) by { NeverCompatibleWithItself(p); }
      UnregisteredNode(t, p);
    }
  }

  /** In such a tree a route is accepted exactly when it is well-formed and compatible with
      every registered route. */
  lemma AcceptedIffCompatible(t: Trie, p: Path)
    requires TrieOk(t) && Live(t)
    ensures AddErrorOf(t, p).None? <==> WellFormed(p) && forall q :: q in Routes(t) ==> Compatible(p, q)
  {
    AcceptedIffFits(t, p);
    if WellFormed(p) && forall q :: q in Routes(t) ==> Compatible(p, q) {
      CompatibleFits(t, p);
    }
  }

  /** Whatever the tree went through, acceptance implies compatibility. */
  lemma AcceptedIsCompatible(t: Trie, p: Path)
    requires TrieOk(t) && AddErrorOf(t, p).None?
    ensures WellFormed(p) && forall q :: q in Routes(t) ==> Compatible(p, q)
  {
    AcceptedIffFits(t, p);
  }

  lemma AddedToEmpty(p: Path, v: FunctionKey)
    requires WellFormed(p)
    ensures AddErrorOf(Empty(), p).None?
  {
    AcceptedIffFits(Empty(), p);
  }

  lemma Leftovers(v: FunctionKey)
    ensures Removed(Added(Empty(), ["a", "b"], v), ["a", "b"]) == map[[] := None, ["a"] := None]
  {
    var p: Path := ["a", "b"];
    AddedToEmpty(p, v);
    var grown := Added(Empty(), p, v);
    forall q ensures q in grown <==> q == [] || q == ["a"] || q == p {
      InPrefixes(q, p);
      assert q <= p ==> q == p[..|q|];
    }
    assert !HasChildren(grown, p) by {
      forall s ensures Child(p, s) !in grown {
        assert |Child(p, s)| == 3;
      }
    }
  }

  /** Deleting prunes no ancestors, so what is left of a deleted route can refuse a route
      that is compatible with all registered ones. */
  lemma LeftoversRefuse(v: FunctionKey)
    ensures var t := Removed(Added(Empty(), ["a", "b"], v), ["a", "b"]);
            Routes(t) == map[] && AddErrorOf(t, [":x"]) == Some(StaticDefined)
  {
    Leftovers(v);
    var t: Trie := map[[] := None, ["a"] := None];
    assert Child([], "a") == ["a"];
    forall c | Child([], c) in t ensures c == "a" {
      assert Child([], c)[0] == c;
    }
    assert [":x"][..0] == [];
  }

  // ---- What the operations do to the table ----

  lemma {:induction false} GrowKeepsOk(t: Trie, p: Path, n: nat)
    requires TrieOk(t) && n <= |p| && forall j :: 0 <= j < n ==> StepFine(t, p, j)
    ensures TrieOk(Grow(t, p[..n]))
  {
    if n == 0 {
      GrowStart(t, p);
    } else {
      var c := p[..n - 1];
      GrowKeepsOk(t, p, n - 1);
      GrowStep(t, p, n - 1);
      PrefixIsChild(p, n - 1);
      if p[..n] !in t {
        assert StepFine(t, p, n - 1);
        NewSiblingsStatic(t, c, p[n - 1]);
        forall u ensures Child(c, u) in Grow(t, c) <==> Child(c, u) in t {
          GrowAddsNothingBelow(t, c, u);
        }
        InPrefixes(c, c);
        AttachKeepsOk(Grow(t, c), c, p[n - 1]);
      }
    }
  }

  /** The steps before the first wildcard of an ill-formed pattern raise no objection when
      that wildcard is what `AddRoute` complains about. */
  lemma {:induction false} StepsBeforeWildcard(t: Trie, p: Path, i: nat, n: nat)
    requires i <= n < |p| && AddErrorFrom(t, p, i) == Some(WildcardNotLast)
    requires forall j :: 0 <= j < n - 1 ==> !IsWildcard(p[j])
    ensures forall j :: i <= j < n ==> StepFine(t, p, j)
    decreases n - i
  {
    if i < n {
      assert !EndsInWildcard(p[..i]) by { assert i > 0 ==> p[..i][i - 1] == p[i - 1]; }
      ClashIsNotWildcardNotLast(t, p[..i], p[i]);
      StepsBeforeWildcard(t, p, i + 1, n);
      assert StepFine(t, p, i);
    }
  }

  lemma ClashIsNotWildcardNotLast(t: Trie, p: Path, s: string)
    ensures ClashAt(t, p, s) != Some(WildcardNotLast) && ClashAt(t, p, s) != Some(RouteTaken)
  {
  }

  lemma StoringKeepsOk(t: Trie, p: Path, v: Option<FunctionKey>)
    requires TrieOk(t) && p in t
    ensures TrieOk(t[p := v])
  {
  }

  lemma AddedKeepsOk(t: Trie, p: Path, v: FunctionKey)
    requires TrieOk(t)
    ensures TrieOk(Added(t, p, v))
  {
    hide TrieOk;
    assert p[..|p|] == p;
    if AddErrorOf(t, p).None? {
      if p == [] {
        GrowStart(t, p);
      } else {
        AcceptedStepwise(t, p, 0);
        GrowKeepsOk(t, p, |p|);
      }
      InPrefixes(p, p);
      StoringKeepsOk(Grow(t, p), p, Some(v));
    } else if AddErrorOf(t, p) == Some(WildcardNotLast) && !WellFormed(p) {
      var k := FirstWildcard(p);
      var i :| 0 <= i < |p| - 1 && IsWildcard(p[i]);
      StepsBeforeWildcard(t, p, 0, k + 1);
      GrowKeepsOk(t, p, k + 1);
    }
  }

  lemma RemovedKeepsOk(t: Trie, p: Path)
    requires TrieOk(t)
    ensures TrieOk(Removed(t, p))
  {
    if p == [] || HasChildren(t, p) {
    } else {
      assert p == Child(Parent(p), Last(p));
      CutKeepsOk(t, Parent(p), Last(p));
    }
  }

  /** An accepted route enters the table; a refused one changes nothing in it, not even
      when its inner wildcard left valueless nodes behind. */
  lemma AddedInTable(t: Trie, p: Path, v: FunctionKey)
    requires TrieOk(t)
    ensures Routes(Added(t, p, v)) == if AddErrorOf(t, p).None? then Routes(t)[p := v] else Routes(t)
  {
    forall q ensures Routes(Grow(t, q)) == Routes(t) {
    }
  }

  lemma RemovedFromTable(t: Trie, p: Path)
    requires TrieOk(t)
    ensures Routes(Removed(t, p)) == Routes(t) - {p}
  {
  }

  lemma AcceptedIsNew(t: Trie, p: Path, v: FunctionKey)
    requires TrieOk(t) && AddErrorOf(t, p).None?
    ensures Added(t, p, v) == Grow(t, p)[p := Some(v)] && p !in Routes(t) && (p in t ==> t[p] == None)
    ensures HasChildren(Added(t, p, v), p) <==> HasChildren(t, p)
  {
    AcceptedIffFits(t, p);
    forall s ensures Child(p, s) in Added(t, p, v) <==> Child(p, s) in t {
      GrowAddsNothingBelow(t, p, s);
      assert |Child(p, s)| != |p|;
    }
  }

  /** Deleting an accepted route right away restores every lookup. */
  lemma AddThenDelete(t: Trie, p: Path, v: FunctionKey, path: Path)
    requires TrieOk(t) && AddErrorOf(t, p).None?
    ensures CanWalkToParent(Added(t, p, v), p)
    ensures Routes(Removed(Added(t, p, v), p)) == Routes(t)
    ensures Lookup(Routes(Removed(Added(t, p, v), p)), path) == Lookup(Routes(t), path)
  {
    AcceptedIsNew(t, p, v);
    AddedKeepsOk(t, p, v);
    AddedInTable(t, p, v);
    RemovedFromTable(Added(t, p, v), p);
    if p != [] {
      InPrefixes(Parent(p), p);
    }
  }

  /** The tree itself is restored exactly when the new node was hung under an existing one,
      or stood there already with children of its own. */
  lemma AddThenDeleteRestores(t: Trie, p: Path, v: FunctionKey)
    requires TrieOk(t) && AddErrorOf(t, p).None?
    ensures Removed(Added(t, p, v), p) == t <==>
            p == [] || (if p in t then HasChildren(t, p) else Parent(p) in t)
  {
    hide AddErrorOf, HasChildren, Added;
    AcceptedIsNew(t, p, v);
    if p in t {
      GrowOfPresent(t, p);
    } else {
      InPrefixes(Parent(p), p);
      NoChildrenBelowMissing(t, p);
      if Parent(p) in t {
        GrowUnderExisting(t, p);
      } else {
        assert Parent(p) in Grow(t, p) - {p};
      }
    }
  }

  lemma NoChildrenBelowMissing(t: Trie, p: Path)
    requires TrieOk(t) && p !in t
    ensures !HasChildren(t, p)
  {
  }

  lemma GrowUnderExisting(t: Trie, p: Path)
    requires TrieOk(t) && p != [] && Parent(p) in t
    ensures Grow(t, p) == t + map[p := if p in t then t[p] else None]
  {
    forall q ensures q in Prefixes(p) ==> q == p || q in t {
      InPrefixes(q, p);
      if q <= p && q != p {
        assert q <= Parent(p);
        PrefixClosed(t, Parent(p), q);
      }
    }
    InPrefixes(p, p);
  }

  lemma AddedKeepsLive(t: Trie, p: Path, v: FunctionKey)
    requires TrieOk(t) && Live(t) && AddErrorOf(t, p).None?
    ensures Live(Added(t, p, v))
  {
    AddedInTable(t, p, v);
    var a := Added(t, p, v);
    forall n | n in a && n != [] ensures LeadsToRoute(a, n) {
      InPrefixes(n, p);
      if n <= p {
        assert p in Routes(a);
      } else {
        assert LeadsToRoute(t, n);
        var q :| q in Routes(t) && n <= q;
        assert q in Routes(a);
      }
    }
  }
}
