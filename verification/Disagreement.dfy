/** Short sessions in which the caches stop agreeing with the store. */
module Disagreement {
  import opened Wrappers
  import opened Entities
  import opened Strings
  import opened Patterns
  import opened RouteTrie
  import opened RouteTable
  import opened Routing
  import opened Watcher
  import opened Session
  import opened ExactAgreement

  function Write(key: string, s: Subscription): KVPair {
    KVPair(key, Some(SubscriptionValue(s)))
  }

  function Erase(key: string): KVPair {
    KVPair(key, None)
  }

  /** The store and cache after one write into an empty session. */
  lemma FirstWrite(path: string, key: string, s: Subscription)
    requires key != path && s.kind == TYPE_SYNC && Locate(s.path).Some?
    ensures LiveAfter(path, [Write(key, s)]) == map[key := SubscriptionValue(s)]
    ensures CacheAfter(path, [Write(key, s)]) ==
            Some(Routing.State(map[TreeKeyOf(s) := Added(Empty(), Locate(s.path).value, s.Callee())], map[]))
  {
    assert [] + [Write(key, s)] == [Write(key, s)];
    OneMoreChange(path, [], Write(key, s));
  }

  /** Two spaces may hold the same path, since a space checks only its own subscriptions.
      The cache refuses the second, and deleting it then takes the first one's route. */
  lemma SpacesShareTrees(path: string, k1: string, s1: Subscription, k2: string, s2: Subscription, request: string)
    requires k1 != path && k2 != path && k1 != k2
    requires s1.kind == s2.kind == TYPE_SYNC && TreeKeyOf(s1) == TreeKeyOf(s2) && s1.path == s2.path && s1.space != s2.space
    requires Locate(s1.path).Some? && WellFormed(Locate(s1.path).value)
    ensures var changes := [Write(k1, s1)] + [Write(k2, s2)] + [Erase(k2)];
            && LiveAfter(path, changes) == map[k1 := SubscriptionValue(s1)]
            && CacheAfter(path, changes).Some?
            && SyncLookup(CacheAfter(path, changes).value, TreeKeyOf(s1), request) == None
  {
    hide Added, AddErrorOf, Removed, WellFormed;
    var k, p := TreeKeyOf(s1), Locate(s1.path).value;
    FirstWrite(path, k1, s1);
    OneMoreChange(path, [Write(k1, s1)], Write(k2, s2));
    OneMoreChange(path, [Write(k1, s1)] + [Write(k2, s2)], Erase(k2));
    EmptyIsOk();
    var t := Added(Empty(), p, s1.Callee());
    AddedKeepsOk(Empty(), p, s1.Callee());
    AddedInTable(Empty(), p, s1.Callee());
    AddedToEmpty(p, s1.Callee());
    var u := Added(t, p, s2.Callee());
    AddedKeepsOk(t, p, s2.Callee());
    AddedInTable(t, p, s2.Callee());
    TakenIsRefused(t, p);
    RegisteredCanGo(u, p);
    RemovedFromTable(u, p);
    var live := LiveAfter(path, [Write(k1, s1)] + [Write(k2, s2)]);
    assert live[k2] == SubscriptionValue(s2);
    assert LiveAfter(path, [Write(k1, s1)] + [Write(k2, s2)] + [Erase(k2)]) == map[k1 := SubscriptionValue(s1)];
  }

  lemma TakenIsRefused(t: Trie, p: Path)
    requires TrieOk(t) && p in Routes(t)
    ensures AddErrorOf(t, p).Some?
  {
    AcceptedIffFits(t, p);
  }

  /** A path refused because of another space's has no nodes in the tree; deleting it walks
      off the tree, which the source does not survive. */
  lemma RefusedThenDeleted(path: string, k1: string, s1: Subscription, k2: string, s2: Subscription)
    requires k1 != path && k2 != path && k1 != k2
    requires s1.kind == s2.kind == TYPE_SYNC && TreeKeyOf(s1) == TreeKeyOf(s2)
    requires s1.path == Render([":x"]) && s2.path == Render(["a", "b"])
    ensures CacheAfter(path, [Write(k1, s1)] + [Write(k2, s2)] + [Erase(k2)]) == None
  {
    hide Added, AddErrorOf, Removed;
    var p, q: Path := [":x"], ["a", "b"];
    RenderLocates(p);
    RenderLocates(q);
    FirstWrite(path, k1, s1);
    OneMoreChange(path, [Write(k1, s1)], Write(k2, s2));
    OneMoreChange(path, [Write(k1, s1)] + [Write(k2, s2)], Erase(k2));
    OnlyParam(s1.Callee());
    ParamRefusesStatic(s2.Callee());
    var live := LiveAfter(path, [Write(k1, s1)] + [Write(k2, s2)]);
    assert live[k2] == SubscriptionValue(s2);
  }

  lemma OnlyParam(f: FunctionKey)
    ensures Added(Empty(), [":x"], f) == map[[] := None, [":x"] := Some(f)]
  {
    var p: Path := [":x"];
    AddedToEmpty(p, f);
    forall q ensures q in Grow(Empty(), p) <==> q == [] || q == p {
      InPrefixes(q, p);
      assert q <= p ==> q == p[..|q|];
    }
  }

  lemma ParamRefusesStatic(f: FunctionKey)
    ensures forall v :: var t: Trie := map[[] := None, [":x"] := Some(v)];
              Added(t, ["a", "b"], f) == t && !CanWalkToParent(t, ["a", "b"])
  {
    var p: Path := ["a", "b"];
    assert WellFormed(p) && Parent(p) == ["a"];
    forall v ensures var t: Trie := map[[] := None, [":x"] := Some(v)]; Added(t, p, f) == t {
      var t: Trie := map[[] := None, [":x"] := Some(v)];
      assert p[..0] == [] && Child([], ":x") == [":x"];
      assert Child(p[..0], ":x") in t;
      assert ClashAt(t, p[..0], p[0]).Some?;
    }
  }

  /** Within one space a path may be deleted and a conflicting one created; what is left of
      the first makes the cache refuse the second, so a live subscription is not found. */
  lemma LeftoversHide(path: string, k1: string, s1: Subscription, k2: string, s2: Subscription, request: string)
    requires k1 != path && k2 != path && k1 != k2
    requires s1.kind == s2.kind == TYPE_SYNC && TreeKeyOf(s1) == TreeKeyOf(s2)
    requires s1.path == Render(["a", "b"]) && s2.path == Render([":x"])
    ensures var changes := [Write(k1, s1)] + [Erase(k1)] + [Write(k2, s2)];
            && LiveAfter(path, changes) == map[k2 := SubscriptionValue(s2)]
            && CacheAfter(path, changes).Some?
            && SyncLookup(CacheAfter(path, changes).value, TreeKeyOf(s2), request) == None
  {
    hide Added, AddErrorOf, Removed;
    var p, q: Path := ["a", "b"], [":x"];
    RenderLocates(p);
    RenderLocates(q);
    FirstWrite(path, k1, s1);
    OneMoreChange(path, [Write(k1, s1)], Erase(k1));
    OneMoreChange(path, [Write(k1, s1)] + [Erase(k1)], Write(k2, s2));
    EmptyIsOk();
    AddedToEmpty(p, s1.Callee());
    AddedKeepsOk(Empty(), p, s1.Callee());
    AddedInTable(Empty(), p, s1.Callee());
    var t := Added(Empty(), p, s1.Callee());
    RegisteredCanGo(t, p);
    LeftoversRefuse(s1.Callee());
    RemovedKeepsOk(t, p);
    AddedInTable(Removed(t, p), q, s2.Callee());
    assert LiveAfter(path, [Write(k1, s1)])[k1] == SubscriptionValue(s1);
    assert LiveAfter(path, [Write(k1, s1)] + [Erase(k1)]) == map[];
  }

  /** An update appends an async subscription's function once more, and a deletion takes only
      one of the two away: a function is left listed that nothing live subscribes. */
  lemma UpdateLingers(path: string, key: string, s: Subscription, t: Subscription)
    requires key != path && s.kind == t.kind == TYPE_ASYNC && ListKeyOf(s) == ListKeyOf(t) && s.Callee() == t.Callee()
    ensures var changes := [Write(key, s)] + [Write(key, t)] + [Erase(key)];
            && LiveAfter(path, changes) == map[] && CacheAfter(path, changes).Some?
            && ListAt(CacheAfter(path, changes).value.lists, ListKeyOf(s)) == [s.Callee()]
  {
    OneMoreChange(path, [], Write(key, s));
    assert [] + [Write(key, s)] == [Write(key, s)];
    OneMoreChange(path, [Write(key, s)], Write(key, t));
    OneMoreChange(path, [Write(key, s)] + [Write(key, t)], Erase(key));
    assert [s.Callee(), t.Callee()][1..] == [t.Callee()];
  }
}
