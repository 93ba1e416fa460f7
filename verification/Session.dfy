/** One watch session end to end: store changes, watcher events, cache, sync lookups. */
module Session {
  import opened Wrappers
  import opened Entities
  import opened Patterns
  import opened RouteTrie
  import opened RouteTable
  import opened Routing
  import opened Watcher

  /** The cache after a run of events; nothing once a deletion walked off a tree. */
  ghost function Fold(events: seq<Event>): Option<Routing.State> {
    if events == [] then Some(Routing.State(map[], map[]))
    else
      match Fold(events[..|events| - 1])
      case None => None
      case Some(r) => Tell(r, events[|events| - 1])
  }

  ghost function Tell(r: Routing.State, e: Event): Option<Routing.State> {
    match e
    case Modified(_, v) => Some(AfterModified(r, v))
    case Deleted(_, v) => if CanDelete(r, v) then Some(AfterDeleted(r, v)) else None
  }

  /** The cache after the session has handled these changes. */
  ghost function CacheAfter(path: string, changes: seq<KVPair>): Option<Routing.State> {
    Fold(Watch(path, changes).outgoing)
  }

  /** What the store holds below the watched path after these changes. */
  ghost function LiveAfter(path: string, changes: seq<KVPair>): map<string, Value> {
    Watch(path, changes).cache
  }

  lemma FoldOneMore(events: seq<Event>, e: Event)
    ensures Fold(events + [e]) == if Fold(events).None? then None else Tell(Fold(events).value, e)
  {
    assert (events + [e])[..|events|] == events;
  }

  /** How one more change moves the store and the cache. */
  lemma OneMoreChange(path: string, changes: seq<KVPair>, kv: KVPair)
    ensures var live, live' := LiveAfter(path, changes), LiveAfter(path, changes + [kv]);
            var cache, cache' := CacheAfter(path, changes), CacheAfter(path, changes + [kv]);
            if kv.key == path || (kv.value.None? && kv.key !in live) then live' == live && cache' == cache
            else if kv.value.Some? then
              && live' == live[kv.key := kv.value.value]
              && cache' == if cache.None? then None else Some(AfterModified(cache.value, kv.value.value))
            else
              && live' == live - {kv.key}
              && cache' == if cache.None? || !CanDelete(cache.value, live[kv.key]) then None
                           else Some(AfterDeleted(cache.value, live[kv.key]))
  {
    WatchOneMore(path, changes, kv);
    var s := Watch(path, changes);
    if kv.value.Some? {
      FoldOneMore(s.outgoing, Modified(kv.key, kv.value.value));
    } else if kv.key in s.cache {
      FoldOneMore(s.outgoing, Deleted(kv.key, s.cache[kv.key]));
    }
  }

  // ---- Sync lookups ----

  /** `Target.SyncSubscriber`, the function it returns. */
  ghost function SyncLookup(r: Routing.State, k: TreeKey, path: string): Option<FunctionKey> {
    if k in r.trees && Locate(path).Some? then Lookup(Routes(r.trees[k]), Locate(path).value) else None
  }

  /** The value is a sync subscription for the method and event type `k` and the pattern `p`,
      whose space and function ID are those of `f`. */
  ghost predicate Serves(v: Value, k: TreeKey, p: Path, f: FunctionKey) {
    && v.SubscriptionValue? && v.sub.kind == TYPE_SYNC && v.sub.httpMethod == k.0 && v.sub.eventType == k.1
    && Locate(v.sub.path) == Some(p) && v.sub.space == f.space && v.sub.functionID == f.id
  }

  ghost predicate Holds(live: map<string, Value>, key: string, k: TreeKey, p: Path, f: FunctionKey) {
    key in live && Serves(live[key], k, p, f)
  }

  /** Every route in the cache belongs to a subscription in the store. */
  ghost predicate NoStale(live: map<string, Value>, r: Routing.State) {
    forall k, p :: k in r.trees && p in Routes(r.trees[k]) ==> HasOwner(live, k, p, Routes(r.trees[k])[p])
  }

  ghost predicate HasOwner(live: map<string, Value>, k: TreeKey, p: Path, f: FunctionKey) {
    exists key :: Holds(live, key, k, p, f)
  }

  ghost predicate IsRoute(v: Value) {
    v.SubscriptionValue? && v.sub.kind == TYPE_SYNC && Locate(v.sub.path).Some?
  }

  /** If the value is a sync subscription, its route is registered for its function. */
  ghost predicate Routed(v: Value, r: Routing.State) {
    IsRoute(v) ==>
      && TreeKeyOf(v.sub) in r.trees
      && Locate(v.sub.path).value in Routes(r.trees[TreeKeyOf(v.sub)])
      && Routes(r.trees[TreeKeyOf(v.sub)])[Locate(v.sub.path).value] == v.sub.Callee()
  }

  /** Every sync subscription in the store has its route in the cache. */
  ghost predicate Complete(live: map<string, Value>, r: Routing.State) {
    forall key :: key in live ==> Routed(live[key], r)
  }

  ghost predicate SameRouting(v: Value, w: Value) {
    && v.SubscriptionValue? && w.SubscriptionValue?
    && v.sub.kind == w.sub.kind && TreeKeyOf(v.sub) == TreeKeyOf(w.sub) && v.sub.path == w.sub.path && v.sub.Callee() == w.sub.Callee()
  }

  /** A write over a stored subscription keeps what routing depends on. */
  ghost predicate KeepsRouting(path: string, changes: seq<KVPair>) {
    forall i :: 0 <= i < |changes| ==> WriteKeepsRouting(path, LiveAfter(path, changes[..i]), changes[i])
  }

  ghost predicate WriteKeepsRouting(path: string, live: map<string, Value>, kv: KVPair) {
    kv.key != path && kv.value.Some? && kv.key in live && live[kv.key].SubscriptionValue? ==>
      SameRouting(live[kv.key], kv.value.value)
  }

  lemma WithRouteInTable(t: Trie, path: string, v: FunctionKey)
    requires TrieOk(t)
    ensures TrieOk(WithRoute(t, path, v))
    ensures Routes(WithRoute(t, path, v)) ==
            if Locate(path).Some? && AddErrorOf(t, Locate(path).value).None? then Routes(t)[Locate(path).value := v] else Routes(t)
  {
    if Locate(path).Some? {
      AddedKeepsOk(t, Locate(path).value, v);
      AddedInTable(t, Locate(path).value, v);
    }
  }

  lemma WithoutRouteInTable(t: Trie, path: string)
    requires TrieOk(t)
    ensures TrieOk(WithoutRoute(t, path))
    ensures Routes(WithoutRoute(t, path)) == if Locate(path).Some? then Routes(t) - {Locate(path).value} else Routes(t)
  {
    if Locate(path).Some? {
      RemovedKeepsOk(t, Locate(path).value);
      RemovedFromTable(t, Locate(path).value);
    }
  }

  lemma ModifiedKeepsOk(r: Routing.State, v: Value)
    requires StateOk(r)
    ensures StateOk(AfterModified(r, v))
  {
    if v.SubscriptionValue? && v.sub.kind == TYPE_SYNC {
      WithRouteInTable(TreeAt(r.trees, TreeKeyOf(v.sub)), v.sub.path, v.sub.Callee());
    }
  }

  lemma DeletedKeepsOk(r: Routing.State, v: Value)
    requires StateOk(r)
    ensures StateOk(AfterDeleted(r, v))
  {
    if v.SubscriptionValue? && v.sub.kind == TYPE_SYNC && TreeKeyOf(v.sub) in r.trees {
      WithoutRouteInTable(r.trees[TreeKeyOf(v.sub)], v.sub.path);
    }
  }

  lemma OwnersSurviveWrite(live: map<string, Value>, key: string, v: Value, k: TreeKey, p: Path, f: FunctionKey)
    requires key in live && live[key].SubscriptionValue? ==> SameRouting(live[key], v)
    requires HasOwner(live, k, p, f)
    ensures HasOwner(live[key := v], k, p, f)
  {
    var owner :| Holds(live, owner, k, p, f);
    assert Holds(live[key := v], owner, k, p, f);
  }

  lemma ModifiedKeepsNoStale(live: map<string, Value>, r: Routing.State, key: string, v: Value)
    requires StateOk(r) && NoStale(live, r)
    requires key in live && live[key].SubscriptionValue? ==> SameRouting(live[key], v)
    ensures NoStale(live[key := v], AfterModified(r, v))
  {
    var r', live' := AfterModified(r, v), live[key := v];
    var sync := v.SubscriptionValue? && v.sub.kind == TYPE_SYNC;
    if sync {
      WithRouteInTable(TreeAt(r.trees, TreeKeyOf(v.sub)), v.sub.path, v.sub.Callee());
    }
    forall k, p | k in r'.trees && p in Routes(r'.trees[k]) ensures HasOwner(live', k, p, Routes(r'.trees[k])[p]) {
      if k in r.trees && p in Routes(r.trees[k]) && Routes(r'.trees[k])[p] == Routes(r.trees[k])[p] {
        OwnersSurviveWrite(live, key, v, k, p, Routes(r.trees[k])[p]);
      } else {
        assert Holds(live', key, k, p, v.sub.Callee());
      }
    }
  }

  lemma DeletedKeepsNoStale(live: map<string, Value>, r: Routing.State, key: string)
    requires StateOk(r) && NoStale(live, r) && key in live
    ensures NoStale(live - {key}, AfterDeleted(r, live[key]))
  {
    var v := live[key];
    var r' := AfterDeleted(r, v);
    if v.SubscriptionValue? && v.sub.kind == TYPE_SYNC && TreeKeyOf(v.sub) in r.trees {
      WithoutRouteInTable(r.trees[TreeKeyOf(v.sub)], v.sub.path);
    }
    forall k, p | k in r'.trees && p in Routes(r'.trees[k]) ensures HasOwner(live - {key}, k, p, Routes(r'.trees[k])[p]) {
      var owner :| Holds(live, owner, k, p, Routes(r.trees[k])[p]);
      assert Holds(live - {key}, owner, k, p, Routes(r.trees[k])[p]);
    }
  }

  lemma PrefixKeepsRouting(path: string, changes: seq<KVPair>, kv: KVPair)
    requires KeepsRouting(path, changes + [kv])
    ensures KeepsRouting(path, changes)
    ensures WriteKeepsRouting(path, LiveAfter(path, changes), kv)
  {
    var all := changes + [kv];
    assert all[..|changes|] == changes && all[|changes|] == kv;
    forall i | 0 <= i < |changes| ensures WriteKeepsRouting(path, LiveAfter(path, changes[..i]), changes[i]) {
      assert all[..i] == changes[..i] && all[i] == changes[i];
    }
  }

  /** No stale routing, conflicting paths and several spaces included: as long as no
      deletion walks off a tree, a cached route always has a live owner. */
  lemma {:induction false} NeverStale(path: string, changes: seq<KVPair>)
    requires KeepsRouting(path, changes)
    ensures CacheAfter(path, changes).Some? ==>
              StateOk(CacheAfter(path, changes).value) && NoStale(LiveAfter(path, changes), CacheAfter(path, changes).value)
  {
    if changes != [] {
      var front, kv := changes[..|changes| - 1], changes[|changes| - 1];
      assert changes == front + [kv];
      PrefixKeepsRouting(path, front, kv);
      NeverStale(path, front);
      OneMoreChange(path, front, kv);
      if CacheAfter(path, front).Some? && kv.key != path {
        var r := CacheAfter(path, front).value;
        if kv.value.Some? {
          ModifiedKeepsOk(r, kv.value.value);
          ModifiedKeepsNoStale(LiveAfter(path, front), r, kv.key, kv.value.value);
        } else if kv.key in LiveAfter(path, front) {
          DeletedKeepsOk(r, LiveAfter(path, front)[kv.key]);
          DeletedKeepsNoStale(LiveAfter(path, front), r, kv.key);
        }
      }
    }
  }
}
