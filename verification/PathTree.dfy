/** The mutable prefix tree of `internal/pathtree/tree.go`. */
module PathTree {
  import opened Wrappers
  import opened Entities
  import opened Strings
  import opened Patterns
  import opened RouteTrie

  /** What a root knows of one of its nodes: the node itself, its children, its value. */
  datatype Cell = Cell(node: Node, kids: map<string, Node>, value: Option<FunctionKey>)

  type View = map<Path, Cell>

  class Node {
    const segment: string
    const parameter: string
    const isStatic: bool
    const isParameter: bool
    const isWildcard: bool
    var children: map<string, Node>
    var value: Option<FunctionKey>

    // Where the node stands; in a root, also all nodes of its tree and the tree by path.
    ghost const at: Path
    ghost var repr: set<Node>
    ghost var view: View

    ghost predicate Holds(p: Path, kids: map<string, Node>, v: Option<FunctionKey>)
      reads this
    {
      at == p && children == kids && value == v
    }

    ghost predicate Mirrors()
      reads this, repr
    {
      forall p :: p in view ==> view[p].node in repr && view[p].node.Holds(p, view[p].kids, view[p].value)
    }

    ghost predicate Valid()
      reads this, repr
      ensures Valid() ==> this in repr
    {
      this in repr && Rooted(view, this) && Mirrors() && Linked(view) && TrieOk(TrieOf(view))
    }

    /** A valid tree of these nodes with this value. */
    ghost predicate Keeps(r: set<Node>, t: Trie)
      reads this, repr
    {
      Valid() && repr == r && Trie() == t
    }

    lemma KeepsMeans(r: set<Node>, t: Trie)
      requires Keeps(r, t)
      ensures Valid() && repr == r && Trie() == t
    {
    }

    lemma KeepsItself()
      requires Valid()
      ensures Keeps(repr, Trie())
    {
    }

    /** The tree as a value. */
    ghost function Trie(): Trie
      reads this
    {
      TrieOf(view)
    }

    constructor ()
      ensures Valid() && fresh(this) && repr == {this}
      ensures Trie() == Empty()
    {
      segment, children, parameter := "", map[], "";
      isStatic, isParameter, isWildcard, value := false, false, false, None;
      at := [];
      new;
      repr := {this};
      view := map[[] := Cell(this, map[], None)];
    }

    /** `createNode`: a detached node for a segment. */
    constructor Create(segment: string, ghost p: Path)
      requires p != [] && Last(p) == segment
      ensures Labelled(this, p) && Holds(p, map[], None)
      ensures this.segment == segment && (isParameter <==> HasPrefix(segment, ":")) && (isWildcard <==> HasPrefix(segment, "*"))
      ensures isStatic <==> !isParameter && !isWildcard
      ensures parameter == if isStatic then "" else segment[1..]
    {
      this.segment, this.children, this.value := segment, map[], None;
      this.isParameter := IsParam(segment);
      this.isWildcard := IsWildcard(segment);
      this.isStatic := !IsParam(segment) && !IsWildcard(segment);
      this.parameter := if IsParam(segment) then TrimPrefix(segment, ":")
      else if IsWildcard(segment) then TrimPrefix(segment, "*") else "";
      this.at := p;
    }

    /** Hangs a new node for the segment below the current one. */
    method Attach(current: Node, ghost p: Path, segment: string)
      requires Mirrors() && p in view && view[p].node == current
      modifies this`repr, this`view, current`children
      ensures Mirrors()
      ensures segment in current.children && fresh(current.children[segment]) && Labelled(current.children[segment], Child(p, segment))
      ensures repr == old(repr) + {current.children[segment]}
      ensures view == Extended(old(view), p, segment, current.children[segment])
    {
      var child := new Node.Create(segment, Child(p, segment));
      current.children := current.children[segment := child];
      repr := repr + {child};
      view := Extended(view, p, segment, child);
      forall q | q in view
        ensures view[q].node in repr && view[q].node.Holds(q, view[q].kids, view[q].value)
      {
        if q != Child(p, segment) && q != p {
          assert q in old(view);
        }
      }
    }

    /** Sets a node's value. */
    method Store(node: Node, ghost p: Path, v: Option<FunctionKey>)
      requires Mirrors() && p in view && view[p].node == node
      modifies this`view, node`value
      ensures Mirrors()
      ensures view == old(view)[p := old(view)[p].(value := v)]
    {
      node.value := v;
      view := view[p := view[p].(value := v)];
      forall q | q in view
        ensures view[q].node in repr && view[q].node.Holds(q, view[q].kids, view[q].value)
      {
        if q != p {
          assert q in old(view);
        }
      }
    }

    /** Adds the child a route needs, keeping the tree well-formed. */
    method CreateChild(current: Node, ghost p: Path, segment: string) returns (child: Node)
      requires Valid() && p in view && view[p].node == current
      requires segment !in current.children && !EndsInWildcard(p)
      requires forall s :: s in current.children ==> IsStatic(s) && IsStatic(segment)
      modifies this`repr, this`view, current`children
      ensures Valid() && old(repr) <= repr && fresh(repr - old(repr))
      ensures Trie() == old(Trie())[Child(p, segment) := None]
      ensures Child(p, segment) in view && view[Child(p, segment)].node == child
    {
      ghost var w := view;
      assert forall s :: Child(p, s) in w <==> s in w[p].kids;
      AttachKeepsOk(Trie(), p, segment);
      Attach(current, p, segment);
      child := current.children[segment];
      ChildlessBelow(w, Child(p, segment));
      ExtendedKeepsLinks(w, p, segment, child);
      ExtendedGrows(w, p, segment, child);
    }

    /** The child to inspect for a segment: its own if there is one, else any. */
    method Inspect(segment: string) returns (child: Node?)
      ensures child == null <==> children == map[]
      ensures child != null ==> exists s :: s in children && children[s] == child && (segment in children ==> s == segment)
    {
      if segment in children {
        child := children[segment];
      } else if children == map[] {
        child := null;
      } else {
        var s :| s in children;
        child := children[s];
      }
    }

    /** What the flags of an inspected child say against segment `s`. */
    function Clash(s: string): (clash: Option<AddError>)
      requires Labelled(this, at) && at != []
      ensures clash == ClashOf(segment, s)
    {
      var isParam, isWild := HasPrefix(s, ":"), HasPrefix(s, "*");
      if isWildcard || isWild then Some(WildcardDefined)
      else if isParameter && segment != s then Some(ParameterDefined)
      else if isStatic && (isParam || isWild) then Some(StaticDefined)
      else None
    }

    /** Stores a value in a node that has none. */
    method Claim(node: Node, ghost p: Path, v: FunctionKey) returns (taken: bool)
      requires Valid() && p in view && view[p].node == node
      modifies this`view, node`value
      ensures Valid() && taken == old(Trie())[p].Some?
      ensures Trie() == if taken then old(Trie()) else old(Trie())[p := Some(v)]
    {
      hide TrieOk, Linked;
      if node.value.Some? {
        return true;
      }
      RevaluedKeepsLinks(view, p, Some(v));
      Store(node, p, Some(v));
      return false;
    }

    /** Finds the child a route needs below `current`, creating it when it is missing and
        the children already there allow it. */
    method Advance(current: Node, ghost p: Path, segment: string) returns (clash: Option<AddError>, child: Node)
      requires Valid() && p in view && view[p].node == current && !EndsInWildcard(p)
      modifies this`repr, this`view, current`children
      ensures Valid() && old(repr) <= repr && fresh(repr - old(repr))
      ensures clash == ClashAt(old(Trie()), p, segment)
      ensures clash.Some? ==> Trie() == old(Trie())
      ensures clash.None? ==>
                && Child(p, segment) in view && view[Child(p, segment)].node == child
                && Trie() == if Child(p, segment) in old(Trie()) then old(Trie()) else old(Trie())[Child(p, segment) := None]
    {
      hide TrieOk, Linked, ClashAt;
      KidsAreChildren(view, p);
      var found := current.Inspect(segment);
      if found == null {
        ChildlessNeverClashes(Trie(), p, segment);
        child := CreateChild(current, p, segment);
        return None, child;
      }
      assert Child(p, found.segment) in Trie();
      AnyChildDecides(Trie(), p, found.segment, segment);
      clash, child := found.Clash(segment), found;
      if clash == None && segment !in current.children {
        NewSiblingsStatic(Trie(), p, segment);
        child := CreateChild(current, p, segment);
      }
    }

    /** One round of the loop of `AddRoute`, seen from the tree `t` it started in. */
    method Grown(current: Node, segments: Path, i: nat, ghost t: Trie) returns (clash: Option<AddError>, child: Node)
      requires Valid() && i < |segments| && Trie() == Grow(t, segments[..i])
      requires segments[..i] in view && view[segments[..i]].node == current && !EndsInWildcard(segments[..i])
      modifies this`repr, this`view, current`children
      ensures Valid() && old(repr) <= repr && fresh(repr - old(repr))
      ensures clash == ClashAt(t, segments[..i], segments[i])
      ensures clash.Some? ==> Trie() == old(Trie())
      ensures clash.None? ==> Trie() == Grow(t, segments[..i + 1])
      ensures clash.None? ==> segments[..i + 1] in view && view[segments[..i + 1]].node == child
    {
      hide TrieOk, Linked, Grow, ClashAt;
      ghost var p := segments[..i];
      GrowKeepsClash(t, p, segments[i]);
      GrowAddsNothingBelow(t, p, segments[i]);
      GrowStep(t, segments, i);
      PrefixIsChild(segments, i);
      clash, child := Advance(current, p, segments[i]);
    }

    /** The loop of `AddRoute`: walks down the segments and stops at the first objection
        or at the last segment's node. */
    method Descend(segments: Path, ghost v: FunctionKey) returns (err: Option<AddError>, last: Node)
      requires Valid() && segments != []
      modifies this, repr
      ensures Valid() && old(repr) <= repr && fresh(repr - old(repr))
      ensures err.Some? ==> err == AddErrorOf(old(Trie()), segments) && Trie() == Added(old(Trie()), segments, v)
      ensures err.None? ==> ReachesLast(old(Trie()), segments) && Trie() == Grow(old(Trie()), segments)
      ensures err.None? ==> segments in view && view[segments].node == last
    {
      hide TrieOk, Linked, Grow, Added, AddErrorFrom, AddErrorOf;
      last := this;
      ghost var t := Trie();
      GrowStart(t, segments);
      var i := 0;
      while true
        invariant 0 <= i < |segments|
        invariant Valid() && old(repr) <= repr && fresh(repr - old(repr))
        invariant segments[..i] in view && view[segments[..i]].node == last
        invariant Trie() == Grow(t, segments[..i]) && WellFormed(segments[..i])
        invariant AddErrorFrom(t, segments, 0) == AddErrorFrom(t, segments, i)
        decreases |segments| - i
      {
        NodeIsLabelled(view, segments[..i]);
        if last.isWildcard {
          EndsOnWildcard(t, segments, i, v);
          return Some(WildcardNotLast), last;
        }
        err, last := Grown(last, segments, i, t);
        if err.Some? {
          EndsInClash(t, segments, i, v);
          return;
        }
        if i == |segments| - 1 {
          assert segments[..i + 1] == segments;
          return;
        }
        StaysWellFormed(segments, i);
        NoClashMovesOn(t, segments, i);
        i := i + 1;
      }
    }

    method AddRoute(route: string, v: FunctionKey) returns (err: Option<AddError>)
      requires Valid()
      modifies this, repr
      ensures Valid() && old(repr) <= repr && fresh(repr - old(repr))
      ensures match Locate(route)
              case None => err == None && Trie() == old(Trie())
              case Some(p) => err == AddErrorOf(old(Trie()), p) && Trie() == Added(old(Trie()), p, v)
    {
      if route == "/" {
        ghost var t := Trie();
        var taken := Claim(this, [], v);
        AtRoot(t, v);
        return if taken then Some(RouteTaken) else None;
      }
      var segments := ToSegments(route);
      if segments == [] {
        return None;
      }
      var last;
      ghost var t := Trie();
      err, last := Descend(segments, v);
      if err == None {
        var taken := Claim(last, segments, v);
        EndsAtLast(t, segments, v);
        return if taken then Some(RouteTaken) else None;
      }
    }

    /** Takes the segment's node off the current one. */
    method Detach(current: Node, ghost p: Path, segment: string)
      requires Mirrors() && p in view && view[p].node == current && segment in current.children
      modifies this`view, current`children
      ensures Mirrors()
      ensures view == Cut(old(view), p, segment)
    {
      current.children := current.children - {segment};
      view := Cut(view, p, segment);
      forall q | q in view
        ensures view[q].node in repr && view[q].node.Holds(q, view[q].kids, view[q].value)
      {
        if q != p {
          assert q in old(view);
        }
      }
    }

    method DeleteRoute(route: string) returns (err: Option<DeleteError>)
      requires Valid()
      requires Locate(route).Some? ==> CanWalkToParent(Trie(), Locate(route).value)
      modifies this, repr
      ensures Valid() && repr == old(repr)
      ensures match Locate(route)
              case None => err == None && Trie() == old(Trie())
              case Some(p) => (err.Some? <==> p !in old(Trie())) && Trie() == Removed(old(Trie()), p)
    {
      hide TrieOk, Linked;
      if route == "/" {
        RevaluedKeepsLinks(view, [], None);
        Store(this, [], None);
        return None;
      }
      var segments := ToSegments(route);
      var current := this;
      var i := 0;
      while i < |segments|
        invariant 0 <= i <= |segments| && (i == |segments| ==> i == 0)
        invariant Valid() && repr == old(repr) && view == old(view)
        invariant segments[..i] in view && view[segments[..i]].node == current
      {
        ghost var p := segments[..i];
        PrefixIsChild(segments, i);
        KidsAreChildren(view, p);
        if i == |segments| - 1 {
          assert segments[..i + 1] == segments;
          if segments[i] !in current.children {
            return Some(NoSuchNode);
          }
          RemoveChild(current, p, segments[i]);
          return None;
        }
        PrefixClosed(Trie(), Parent(segments), segments[..i + 1]);
        current := current.children[segments[i]];
        i := i + 1;
      }
      return None;
    }

    /** Drops a leaf, or only the value of a node that has children. */
    method RemoveChild(current: Node, ghost p: Path, segment: string)
      requires Valid() && p in view && view[p].node == current && segment in current.children
      modifies this, repr
      ensures Valid() && repr == old(repr)
      ensures Trie() == Removed(old(Trie()), Child(p, segment))
    {
      hide TrieOk, Linked;
      KidsAreChildren(view, p);
      KidsAreChildren(view, Child(p, segment));
      var child := current.children[segment];
      if child.children == map[] {
        CutKeepsLinks(view, p, segment);
        CutShrinks(view, p, segment);
        CutKeepsOk(Trie(), p, segment);
        Detach(current, p, segment);
      } else {
        RevaluedKeepsLinks(view, Child(p, segment), None);
        Store(child, Child(p, segment), None);
      }
    }

    method Resolve(path: string) returns (result: Option<FunctionKey>, params: Option<map<string, string>>)
      requires Valid()
      ensures match Locate(path)
              case None => result == None && params == None
              case Some(p) => Answered(Trie(), p, path, result, params)
    {
      hide TrieOk, Linked, Matches, Reading, MatchesLieBelow, Answered;
      if path == "/" {
        RootMatches();
        MatchAnswers(Trie(), [], [], path);
        return value, None;
      }
      var segments := ToSegments(path);
      var current := this;
      var bound: map<string, string> := map[];
      ghost var c: Path := [];
      ghost var t := Trie();
      ReadingStarts(t, segments);
      var i := 0;
      while i < |segments|
        invariant 0 <= i <= |segments| && (i == |segments| ==> i == 0)
        invariant c in view && view[c].node == current && |c| == i
        invariant Reading(t, c, segments)
        invariant bound == Bind(c, segments, i)
      {
        KidsAreChildren(view, c);
        var child := current.Inspect(segments[i]);
        if child == null || (segments[i] !in current.children && !(child.isParameter || child.isWildcard)) {
          DeadEndAnswers(t, c, segments, path);
          return None, None;
        }
        StepDown(t, c, segments, child.segment);
        BindOfPrefix(c, Child(c, child.segment), segments, i);
        c := Child(c, child.segment);
        current := child;
        if current.isParameter {
          bound := bound[current.parameter := segments[i]];
        }
        if current.isWildcard {
          bound := bound[current.parameter := Join(segments[i..], '/')];
          MatchAnswers(t, c, segments, path);
          return current.value, Some(bound);
        }
        if i == |segments| - 1 {
          MatchAnswers(t, c, segments, path);
          return current.value, Some(bound);
        }
        i := i + 1;
      }
      return None, None;
    }
  }

  lemma RootMatches()
    ensures Matches([], [])
  {
  }

  /** The node stands at `p` and its flags and parameter name describe its own segment. */
  ghost predicate Labelled(n: Node, p: Path) {
    && n.at == p
    && (if p == [] then !n.isStatic && !n.isParameter && !n.isWildcard
        else
          && n.segment == Last(p) && n.parameter == ParamName(n.segment)
          && n.isStatic == IsStatic(n.segment) && n.isParameter == IsParam(n.segment) && n.isWildcard == IsWildcard(n.segment))
  }

  ghost predicate Rooted(w: View, root: Node) {
    [] in w && w[[]].node == root
  }

  ghost function TrieOf(w: View): Trie {
    map p | p in w :: w[p].value
  }

  /** Children are exactly the nodes one step below, each under its own segment. */
  ghost predicate Linked(w: View) {
    && (forall p :: p in w ==> Labelled(w[p].node, p))
    && (forall p, s :: p in w && s in w[p].kids ==> Child(p, s) in w && w[p].kids[s] == w[Child(p, s)].node)
    && (forall p, s :: p in w && Child(p, s) in w ==> s in w[p].kids)
  }

  ghost function Extended(w: View, p: Path, s: string, child: Node): View
    requires p in w
  {
    w[Child(p, s) := Cell(child, map[], None)][p := w[p].(kids := w[p].kids[s := child])]
  }

  ghost function Cut(w: View, p: Path, s: string): View
    requires p in w
  {
    w[p := w[p].(kids := w[p].kids - {s})] - {Child(p, s)}
  }

  lemma ExtendedKeepsLinks(w: View, p: Path, s: string, child: Node)
    requires Linked(w) && p in w && Child(p, s) !in w && Labelled(child, Child(p, s))
    requires forall u :: Child(Child(p, s), u) !in w
    ensures Linked(Extended(w, p, s, child))
  {
    var c, w' := Child(p, s), Extended(w, p, s, child);
    ChildInverse(p, s);
    forall q, u | q in w' && Child(q, u) in w' ensures u in w'[q].kids {
      ChildInverse(q, u);
    }
    forall q, u | q in w' && u in w'[q].kids ensures Child(q, u) in w' && w'[q].kids[u] == w'[Child(q, u)].node {
      ChildInverse(q, u);
    }
    forall q | q in w' ensures Labelled(w'[q].node, q) {
    }
  }

  lemma ChildlessBelow(w: View, p: Path)
    requires TrieOk(TrieOf(w)) && p !in w
    ensures forall u :: Child(p, u) !in w
  {
    assert forall u :: Child(p, u) in w ==> Child(p, u) in TrieOf(w);
  }

  lemma RevaluedKeepsLinks(w: View, p: Path, v: Option<FunctionKey>)
    requires Linked(w) && p in w && TrieOk(TrieOf(w))
    ensures var w' := w[p := w[p].(value := v)];
            Linked(w') && TrieOf(w') == TrieOf(w)[p := v] && TrieOk(TrieOf(w'))
  {
  }

  lemma NodeIsLabelled(w: View, p: Path)
    requires Linked(w) && p in w
    ensures Labelled(w[p].node, p)
  {
  }

  lemma KidsAreChildren(w: View, p: Path)
    requires Linked(w) && p in w
    ensures forall s :: s in w[p].kids <==> Child(p, s) in TrieOf(w)
    ensures forall s :: s in w[p].kids ==>
              w[p].kids[s] == w[Child(p, s)].node && Labelled(w[p].kids[s], w[p].kids[s].at) && w[p].kids[s].at != [] && w[p].kids[s].segment == s
  {
    forall s | s in w[p].kids
      ensures w[p].kids[s] == w[Child(p, s)].node && Labelled(w[p].kids[s], w[p].kids[s].at) && w[p].kids[s].at != [] && w[p].kids[s].segment == s
    {
      ChildInverse(p, s);
    }
  }

  lemma ExtendedGrows(w: View, p: Path, s: string, child: Node)
    requires p in w && Child(p, s) !in w
    ensures TrieOf(Extended(w, p, s, child)) == TrieOf(w)[Child(p, s) := None]
  {
    ChildInverse(p, s);
  }

  lemma CutKeepsLinks(w: View, p: Path, s: string)
    requires Linked(w) && p in w && Child(p, s) in w
    requires forall u :: Child(Child(p, s), u) !in w
    ensures Linked(Cut(w, p, s))
  {
    var w' := Cut(w, p, s);
    forall q, u | q in w' && Child(q, u) in w' ensures u in w'[q].kids {
      ChildInverse(q, u);
    }
    forall q, u | q in w' && u in w'[q].kids ensures Child(q, u) in w' && w'[q].kids[u] == w'[Child(q, u)].node {
      ChildInverse(q, u);
      ChildInverse(p, s);
      assert u in w[q].kids;
    }
    forall q | q in w' ensures Labelled(w'[q].node, q) {
    }
  }

  lemma CutShrinks(w: View, p: Path, s: string)
    requires p in w && Child(p, s) in w
    ensures TrieOf(Cut(w, p, s)) == TrieOf(w) - {Child(p, s)}
  {
  }
}
