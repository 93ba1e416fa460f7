/** The cache that folds subscription events into route trees and function lists
    (`internal/cache/subscription_cache.go`). */
module SubscriptionCache {
  import opened Wrappers
  import opened Entities
  import opened Patterns
  import opened RouteTrie
  import opened PathTree
  import opened Routing

  type AsyncMap = map<string, map<string, map<string, seq<FunctionKey>>>>
  type SyncMap = map<string, map<string, Node>>

  /** `async[method][path][eventType]`, reading a missing map as an empty one. */
  function AsyncAt(async: AsyncMap, k: ListKey): seq<FunctionKey> {
    if k.0 in async && k.1 in async[k.0] && k.2 in async[k.0][k.1] then async[k.0][k.1][k.2] else []
  }

  predicate HasAsync(async: AsyncMap, k: ListKey) {
    k.0 in async && k.1 in async[k.0] && k.2 in async[k.0][k.1]
  }

  function SyncAt(sync: SyncMap, k: TreeKey): Option<Node> {
    if k.0 in sync && k.1 in sync[k.0] then Some(sync[k.0][k.1]) else None
  }

  /** A tree the cache holds: its root, its nodes, its value. */
  datatype Held = Held(root: Node, repr: set<Node>, trie: Trie)

  type Holding = map<TreeKey, Held>

  /** The nested maps and the flat ones hold the same things. */
  ghost predicate AsyncMirrors(async: AsyncMap, lists: map<ListKey, seq<FunctionKey>>) {
    forall k: ListKey :: (HasAsync(async, k) <==> k in lists) && AsyncAt(async, k) == ListAt(lists, k)
  }

  ghost predicate SyncMirrors(sync: SyncMap, held: Holding) {
    forall k: TreeKey :: SyncAt(sync, k) == if k in held then Some(held[k].root) else None
  }

  /** No two trees share a node. */
  ghost predicate Apart(held: Holding, repr: set<Node>) {
    && (forall k :: k in held ==> held[k].root in held[k].repr && held[k].repr <= repr)
    && (forall k, l :: k in held && l in held && k != l ==> held[k].repr !! held[l].repr)
  }

  lemma ApartFrom(held: Holding, repr: set<Node>, k: TreeKey)
    requires Apart(held, repr) && k in held
    ensures forall l :: l in held ==> held[l].root in held[l].repr && held[l].repr <= repr && (l != k ==> held[l].repr !! held[k].repr)
  {
  }

  /** A tree that took on nodes nobody else has. */
  lemma StillApart(held: Holding, repr: set<Node>, k: TreeKey, h: Held)
    requires Apart(held, repr) && h.root in h.repr && forall l :: l in held && l != k ==> held[l].repr !! h.repr
    ensures Apart(held[k := h], repr + h.repr)
  {
  }

  ghost function TreesOf(held: Holding): map<TreeKey, Trie> {
    map k | k in held :: held[k].trie
  }

  lemma RootFound(sync: SyncMap, held: Holding, k: TreeKey, root: Node)
    requires SyncMirrors(sync, held) && SyncAt(sync, k) == Some(root)
    ensures k in held && held[k].root == root
    ensures TreesOf(held)[k := TreeAt(TreesOf(held), k)] == TreesOf(held)
  {
  }

  /** Replacing what is held at a key by the same root with another value. */
  lemma Regrown(sync: SyncMap, held: Holding, k: TreeKey, h: Held)
    requires SyncMirrors(sync, held) && k in held && held[k].root == h.root
    ensures SyncMirrors(sync, held[k := h])
    ensures TreesOf(held[k := h]) == TreesOf(held)[k := h.trie] && k in TreesOf(held) && TreesOf(held)[k] == held[k].trie
  {
    forall l: TreeKey ensures SyncAt(sync, l) == if l in held[k := h] then Some(held[k := h][l].root) else None {
    }
  }

  class SubscriptionCache {
    var async: AsyncMap
    var sync: SyncMap

    ghost var held: Holding
    ghost var repr: set<Node>
    ghost var lists: map<ListKey, seq<FunctionKey>>

    ghost predicate Owns()
      reads `held, `repr, repr
    {
      forall k :: k in held ==>
        held[k].root in repr && held[k].root.repr == held[k].repr <= repr && held[k].root.Keeps(held[k].repr, held[k].trie)
    }

    ghost predicate Valid()
      reads this, repr
    {
      AsyncMirrors(async, lists) && SyncMirrors(sync, held) && Apart(held, repr) && Owns()
    }

    /** The cache as a value. */
    ghost function State(): State
      reads `held, `lists
    {
      Routing.State(TreesOf(held), lists)
    }

    constructor ()
      ensures Valid() && repr == {}
      ensures State() == Routing.State(map[], map[])
    {
      async, sync := map[], map[];
      held, repr, lists := map[], {}, map[];
    }

    /** `AddRoute` on one of the trees; the others keep their nodes and values. */
    method Grow(ghost k: TreeKey, root: Node, path: string, v: FunctionKey)
      requires Apart(held, repr) && Owns() && k in held && held[k].root == root
      modifies this`held, this`repr, repr
      ensures Apart(held, repr) && Owns() && fresh(repr - old(repr))
      ensures k in held && held == old(held)[k := held[k]]
      ensures held[k].root == root && held[k].trie == WithRoute(old(held[k].trie), path, v)
    {
      hide Node.Valid, Node.Trie, Node.Keeps, WithRoute, Apart;
      ApartFrom(held, repr, k);
      root.KeepsMeans(held[k].repr, held[k].trie);
      ghost var t := held[k].trie;
      var err := root.AddRoute(path, v);
      assert root.Trie() == WithRoute(t, path, v) by { WithRouteIs(t, path, v); }
      root.KeepsItself();
      forall l | l in held && l != k ensures held[l].root.repr == held[l].repr && held[l].root.Keeps(held[l].repr, held[l].trie) {
      }
      StillApart(held, repr, k, Held(root, root.repr, root.Trie()));
      held, repr := held[k := Held(root, root.repr, root.Trie())], repr + root.repr;
    }

    method AddToTree(root: Node, s: Subscription)
      requires Valid() && SyncAt(sync, TreeKeyOf(s)) == Some(root)
      modifies this`held, this`repr, repr
      ensures Valid() && fresh(repr - old(repr))
      ensures State() == old(State()).(trees := old(State()).trees[TreeKeyOf(s) := WithRoute(old(State()).trees[TreeKeyOf(s)], s.path, s.Callee())])
    {
      hide Owns, Apart, WithRoute, AsyncMirrors, SyncMirrors, SyncAt, TreesOf;
      RootFound(sync, held, TreeKeyOf(s), root);
      ghost var before := held;
      Grow(TreeKeyOf(s), root, s.path, s.Callee());
      Regrown(sync, before, TreeKeyOf(s), held[TreeKeyOf(s)]);
    }

    /** Creates the tree of a method and event type when it is missing. */
    method EnsureTree(s: Subscription) returns (root: Node)
      requires Valid()
      modifies this`sync, this`held, this`repr
      ensures Valid() && fresh(repr - old(repr)) && old(repr) <= repr
      ensures SyncAt(sync, TreeKeyOf(s)) == Some(root)
      ensures State() == old(State()).(trees := old(State()).trees[TreeKeyOf(s) := TreeAt(old(State()).trees, TreeKeyOf(s))])
    {
      hide Node.Valid, Node.Trie, Node.Keeps, AsyncMirrors, SyncMirrors, TreesOf, Apart;
      ghost var k := TreeKeyOf(s);
      var m := sync;
      if s.httpMethod !in m {
        EmptyMethodMirrors(m, held, s.httpMethod);
        m := m[s.httpMethod := map[]];
      }
      if s.eventType !in m[s.httpMethod] {
        root := new Node();
        root.KeepsItself();
        NewRoot(m, held, repr, s, Held(root, {root}, Empty()));
        m := m[s.httpMethod := m[s.httpMethod][s.eventType := root]];
        held, repr := held[k := Held(root, {root}, Empty())], repr + {root};
      } else {
        root := m[s.httpMethod][s.eventType];
        RootFound(m, held, k, root);
      }
      sync := m;
    }

    method Modified(v: Value)
      requires Valid()
      modifies this, repr
      ensures Valid() && fresh(repr - old(repr))
      ensures State() == AfterModified(old(State()), v)
    {
      hide Owns, Apart, WithRoute, AsyncMirrors, SyncMirrors, SyncAt, TreesOf, TreeKeyOf;
      if !v.SubscriptionValue? {
        return;
      }
      var s := v.sub;
      if s.kind == TYPE_SYNC {
        var root := EnsureTree(s);
        AddToTree(root, s);
      } else {
        Append(s);
      }
    }

    /** Appends to the list of an async subscription, whether or not it is there already. */
    method Append(s: Subscription)
      requires Valid()
      modifies this`async, this`lists
      ensures Valid()
      ensures State() == old(State()).(lists := old(lists)[ListKeyOf(s) := ListAt(old(lists), ListKeyOf(s)) + [s.Callee()]])
    {
      hide Owns, Apart, SyncMirrors, TreesOf, AsyncMirrors, ListAt;
      AsyncFound(async, lists, ListKeyOf(s));
      var m := async;
      // ensureAsyncMethodPath
      if s.httpMethod !in m {
        m := m[s.httpMethod := map[]];
      }
      if s.path !in m[s.httpMethod] {
        m := m[s.httpMethod := m[s.httpMethod][s.path := map[]]];
      }
      var types := m[s.httpMethod][s.path];
      var ids := if s.eventType in types then types[s.eventType] + [s.Callee()] else [s.Callee()];
      assert ids == AsyncAt(async, ListKeyOf(s)) + [s.Callee()];
      m := m[s.httpMethod := m[s.httpMethod][s.path := types[s.eventType := ids]]];
      AsyncPut(async, m, lists, s, ids);
      async := m;
      lists := lists[ListKeyOf(s) := ids];
    }

    /** `DeleteRoute` on one of the trees. */
    method Prune(ghost k: TreeKey, root: Node, path: string)
      requires Apart(held, repr) && Owns() && k in held && held[k].root == root
      requires Locate(path).Some? ==> CanWalkToParent(held[k].trie, Locate(path).value)
      modifies this`held, repr
      ensures Apart(held, repr) && Owns()
      ensures k in held && held == old(held)[k := held[k]]
      ensures held[k].root == root && held[k].trie == WithoutRoute(old(held[k].trie), path)
    {
      hide Node.Valid, Node.Trie, Node.Keeps, WithoutRoute, Apart;
      ApartFrom(held, repr, k);
      root.KeepsMeans(held[k].repr, held[k].trie);
      ghost var t := held[k].trie;
      var err := root.DeleteRoute(path);
      assert root.Trie() == WithoutRoute(t, path) by { WithoutRouteIs(t, path); }
      root.KeepsItself();
      forall l | l in held && l != k ensures held[l].root.repr == held[l].repr && held[l].root.Keeps(held[l].repr, held[l].trie) {
      }
      StillApart(held, repr, k, Held(root, root.repr, root.Trie()));
      assert repr + root.repr == repr;
      held := held[k := Held(root, root.repr, root.Trie())];
    }

    method Deleted(v: Value)
      requires Valid() && CanDelete(State(), v)
      modifies this, repr
      ensures Valid() && repr == old(repr)
      ensures State() == AfterDeleted(old(State()), v)
    {
      hide Owns, Apart, WithoutRoute, AsyncMirrors, SyncMirrors, SyncAt, TreesOf, TreeKeyOf, Locate;
      if !v.SubscriptionValue? {
        return;
      }
      if v.sub.kind == TYPE_SYNC {
        DeleteEndpoint(v.sub);
      } else {
        DeleteSubscription(v.sub);
      }
    }

    method DeleteEndpoint(s: Subscription)
      requires Valid()
      requires TreeKeyOf(s) in State().trees && Locate(s.path).Some? ==>
                 CanWalkToParent(State().trees[TreeKeyOf(s)], Locate(s.path).value)
      modifies this, repr
      ensures Valid() && repr == old(repr)
      ensures State() == if TreeKeyOf(s) !in old(State()).trees then old(State())
                         else old(State()).(trees := old(State()).trees[TreeKeyOf(s) := WithoutRoute(old(State()).trees[TreeKeyOf(s)], s.path)])
    {
      hide Owns, Apart, WithoutRoute, AsyncMirrors, SyncMirrors, TreesOf, Locate;
      ghost var before := held;
      if s.httpMethod !in sync || s.eventType !in sync[s.httpMethod] {
        RootMissing(sync, held, TreeKeyOf(s));
        return;
      }
      var root := sync[s.httpMethod][s.eventType];
      RootFound(sync, held, TreeKeyOf(s), root);
      TreeFound(held, TreeKeyOf(s));
      Prune(TreeKeyOf(s), root, s.path);
      Regrown(sync, before, TreeKeyOf(s), held[TreeKeyOf(s)]);
    }

    method DeleteSubscription(s: Subscription)
      requires Valid()
      modifies this`async, this`lists
      ensures Valid()
      ensures State() == var k := ListKeyOf(s);
                         var rest := RemoveFirst(ListAt(old(lists), k), s.Callee());
                         old(State()).(lists := if rest == [] then old(lists) - {k} else old(lists)[k := rest])
    {
      hide Owns, Apart, SyncMirrors, TreesOf, AsyncMirrors;
      AsyncFound(async, lists, ListKeyOf(s));
      if !HasAsync(async, ListKeyOf(s)) {
        assert lists - {ListKeyOf(s)} == lists;
        return;
      }
      var ids := async[s.httpMethod][s.path][s.eventType];
      ids := Without(ids, s.Callee());
      var m := async;
      if |ids| == 0 {
        var types: map<string, seq<FunctionKey>> := m[s.httpMethod][s.path];
        m := m[s.httpMethod := m[s.httpMethod][s.path := types - {s.eventType}]];
        AsyncDrop(async, m, lists, s);
        lists := lists - {ListKeyOf(s)};
      } else {
        m := m[s.httpMethod := m[s.httpMethod][s.path := m[s.httpMethod][s.path][s.eventType := ids]]];
        AsyncPut(async, m, lists, s, ids);
        lists := lists[ListKeyOf(s) := ids];
      }
      async := m;
    }
  }

  /** The removal loop of `deleteSubscription`. */
  method Without(ids: seq<FunctionKey>, key: FunctionKey) returns (rest: seq<FunctionKey>)
    ensures rest == RemoveFirst(ids, key)
  {
    for i := 0 to |ids|
      invariant key !in ids[..i]
    {
      RemoveFirstOfJoin(ids[..i], ids[i..], key);
      assert ids == ids[..i] + ids[i..];
      if ids[i] == key {
        return ids[..i] + ids[i + 1..];
      }
    }
    RemoveFirstCounts(ids, key);
    assert ids[..|ids|] == ids;
    return ids;
  }

  lemma RootMissing(sync: SyncMap, held: Holding, k: TreeKey)
    requires SyncMirrors(sync, held) && SyncAt(sync, k) == None
    ensures k !in held && k !in TreesOf(held)
  {
  }

  lemma TreeFound(held: Holding, k: TreeKey)
    requires k in held
    ensures k in TreesOf(held) && TreesOf(held)[k] == held[k].trie
  {
  }

  lemma AsyncFound(async: AsyncMap, lists: map<ListKey, seq<FunctionKey>>, k: ListKey)
    requires AsyncMirrors(async, lists)
    ensures (HasAsync(async, k) <==> k in lists) && AsyncAt(async, k) == ListAt(lists, k)
  {
  }

  /** Dropping a list from the nested maps. */
  lemma AsyncDrop(before: AsyncMap, after: AsyncMap, lists: map<ListKey, seq<FunctionKey>>, s: Subscription)
    requires AsyncMirrors(before, lists) && !HasAsync(after, ListKeyOf(s))
    requires forall k: ListKey :: k != ListKeyOf(s) ==> (HasAsync(after, k) <==> HasAsync(before, k)) && AsyncAt(after, k) == AsyncAt(before, k)
    ensures AsyncMirrors(after, lists - {ListKeyOf(s)})
  {
  }

  lemma EmptyMethodMirrors(sync: SyncMap, held: Holding, m: string)
    requires SyncMirrors(sync, held) && m !in sync
    ensures SyncMirrors(sync[m := map[]], held)
  {
    forall l: TreeKey ensures SyncAt(sync[m := map[]], l) == if l in held then Some(held[l].root) else None {
      assert SyncAt(sync, l) == if l in held then Some(held[l].root) else None;
    }
  }

  /** A fresh tree for a key that has none. */
  lemma NewRoot(sync: SyncMap, held: Holding, repr: set<Node>, s: Subscription, h: Held)
    requires SyncMirrors(sync, held) && Apart(held, repr)
    requires s.httpMethod in sync && s.eventType !in sync[s.httpMethod]
    requires h.root in h.repr && h.repr !! repr
    ensures var k := TreeKeyOf(s);
            && k !in held
            && SyncMirrors(sync[s.httpMethod := sync[s.httpMethod][s.eventType := h.root]], held[k := h])
            && Apart(held[k := h], repr + h.repr)
            && TreesOf(held[k := h]) == TreesOf(held)[k := h.trie] && k !in TreesOf(held)
  {
    var k := TreeKeyOf(s);
    var sync' := sync[s.httpMethod := sync[s.httpMethod][s.eventType := h.root]];
    assert SyncAt(sync, k) == None;
    forall l: TreeKey ensures SyncAt(sync', l) == if l in held[k := h] then Some(held[k := h][l].root) else None {
      assert SyncAt(sync, l) == if l in held then Some(held[l].root) else None;
    }
  }

  /** Storing a non-empty list in the nested maps. */
  lemma AsyncPut(before: AsyncMap, after: AsyncMap, lists: map<ListKey, seq<FunctionKey>>, s: Subscription, ids: seq<FunctionKey>)
    requires AsyncMirrors(before, lists)
    requires HasAsync(after, ListKeyOf(s)) && AsyncAt(after, ListKeyOf(s)) == ids
    requires forall k: ListKey :: k != ListKeyOf(s) ==> (HasAsync(after, k) <==> HasAsync(before, k)) && AsyncAt(after, k) == AsyncAt(before, k)
    ensures AsyncMirrors(after, lists[ListKeyOf(s) := ids])
  {
  }
}
