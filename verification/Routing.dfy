/** The routing state the subscription cache keeps, as a value: one route tree per method
    and event type, one list of functions per method, path and event type. */
module Routing {
  import opened Wrappers
  import opened Entities
  import opened Patterns
  import opened RouteTrie

  type TreeKey = (string, string)
  type ListKey = (string, string, string)

  datatype State = State(trees: map<TreeKey, Trie>, lists: map<ListKey, seq<FunctionKey>>)

  ghost function TreeAt(trees: map<TreeKey, Trie>, k: TreeKey): Trie {
    if k in trees then trees[k] else Empty()
  }

  function ListAt(lists: map<ListKey, seq<FunctionKey>>, k: ListKey): seq<FunctionKey> {
    if k in lists then lists[k] else []
  }

  function TreeKeyOf(s: Subscription): TreeKey {
    (s.httpMethod, s.eventType)
  }

  function ListKeyOf(s: Subscription): ListKey {
    (s.httpMethod, s.path, s.eventType)
  }

  /** The tree after `AddRoute(path, v)`; a path without any slash names no node. */
  ghost function WithRoute(t: Trie, path: string, v: FunctionKey): Trie {
    match Locate(path)
    case None => t
    case Some(p) => Added(t, p, v)
  }

  lemma WithRouteIs(t: Trie, path: string, v: FunctionKey)
    ensures WithRoute(t, path, v) == match Locate(path) case None => t case Some(p) => Added(t, p, v)
  {
  }

  ghost function WithoutRoute(t: Trie, path: string): Trie {
    match Locate(path)
    case None => t
    case Some(p) => Removed(t, p)
  }

  lemma WithoutRouteIs(t: Trie, path: string)
    ensures WithoutRoute(t, path) == match Locate(path) case None => t case Some(p) => Removed(t, p)
  {
  }

  /** The list without the first occurrence of a key. */
  function RemoveFirst(ids: seq<FunctionKey>, key: FunctionKey): seq<FunctionKey> {
    if ids == [] then []
    else if ids[0] == key then ids[1..]
    else [ids[0]] + RemoveFirst(ids[1..], key)
  }

  ghost function AfterModified(r: State, v: Value): State {
    if !v.SubscriptionValue? then r
    else
      var s := v.sub;
      if s.kind == TYPE_SYNC then
        r.(trees := r.trees[TreeKeyOf(s) := WithRoute(TreeAt(r.trees, TreeKeyOf(s)), s.path, s.Callee())])
      else
        r.(lists := r.lists[ListKeyOf(s) := ListAt(r.lists, ListKeyOf(s)) + [s.Callee()]])
  }

  /** `Deleted` walks down the tree without checking that the nodes are there. */
  ghost predicate CanDelete(r: State, v: Value) {
    v.SubscriptionValue? && v.sub.kind == TYPE_SYNC && TreeKeyOf(v.sub) in r.trees && Locate(v.sub.path).Some? ==>
      CanWalkToParent(r.trees[TreeKeyOf(v.sub)], Locate(v.sub.path).value)
  }

  ghost function AfterDeleted(r: State, v: Value): State {
    if !v.SubscriptionValue? then r
    else
      var s := v.sub;
      if s.kind == TYPE_SYNC then
        if TreeKeyOf(s) in r.trees then
          r.(trees := r.trees[TreeKeyOf(s) := WithoutRoute(r.trees[TreeKeyOf(s)], s.path)])
        else r
      else
        var rest := RemoveFirst(ListAt(r.lists, ListKeyOf(s)), s.Callee());
        r.(lists := if rest == [] then r.lists - {ListKeyOf(s)} else r.lists[ListKeyOf(s) := rest])
  }

  ghost predicate StateOk(r: State) {
    && (forall k :: k in r.trees ==> TrieOk(r.trees[k]))
    && (forall k :: k in r.lists ==> r.lists[k] != [])
  }

  // ---- Lists ----

  /** Removing takes away one occurrence if there is one, the earliest. */
  lemma {:induction false} RemoveFirstCounts(ids: seq<FunctionKey>, key: FunctionKey)
    ensures multiset(RemoveFirst(ids, key)) == multiset(ids) - multiset{key}
    ensures key !in ids ==> RemoveFirst(ids, key) == ids
  {
    if ids != [] {
      assert ids == [ids[0]] + ids[1..];
      RemoveFirstCounts(ids[1..], key);
    }
  }

  lemma {:induction false} RemoveFirstOfJoin(a: seq<FunctionKey>, b: seq<FunctionKey>, key: FunctionKey)
    ensures RemoveFirst(a + b, key) == if key in a then RemoveFirst(a, key) + b else a + RemoveFirst(b, key)
  {
    if a == [] {
      assert a + b == b;
    } else if a[0] == key {
      assert (a + b)[1..] == a[1..] + b;
    } else {
      RemoveFirstOfJoin(a[1..], b, key);
      assert (a + b)[1..] == a[1..] + b;
      assert key in a <==> key in a[1..] by { assert a == [a[0]] + a[1..]; }
      assert [a[0]] + (RemoveFirst(a[1..], key) + b) == RemoveFirst(a, key) + b;
      assert [a[0]] + (a[1..] + RemoveFirst(b, key)) == a + RemoveFirst(b, key);
    }
  }
}
