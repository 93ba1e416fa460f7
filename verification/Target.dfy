/** The lookups the router makes, and the loops that feed the caches behind them
    (`internal/cache/target.go`, `internal/cache/watcher.go`). */
module Target {
  import opened Wrappers
  import opened Entities
  import opened Strings
  import opened Patterns
  import opened RouteTrie
  import opened PathTree
  import opened Routing
  import opened Watcher
  import opened SubscriptionCache
  import opened Session
  import FunctionCache

  datatype SyncMatch = SyncMatch(space: string, functionID: string, params: Option<map<string, string>>)

  datatype AsyncMatch = AsyncMatch(space: string, functionID: string)

  /** The answer names the function of the one registered pattern that matches, with the
      parameters that pattern binds. */
  ghost predicate Answers(r: Routing.State, k: TreeKey, path: string, answer: Option<SyncMatch>) {
    match answer
    case None => SyncLookup(r, k, path) == None
    case Some(sub) =>
      && SyncLookup(r, k, path) == Some(FunctionKey(sub.space, sub.functionID))
      && forall q :: q in Routes(r.trees[k]) && Matches(q, Locate(path).value) ==> BindsRoute(q, Locate(path).value, path, sub.params)
  }

  class Target {
    const functionCache: FunctionCache.FunctionCache
    const subscriptionCache: SubscriptionCache

    constructor (functionCache: FunctionCache.FunctionCache, subscriptionCache: SubscriptionCache)
      ensures this.functionCache == functionCache && this.subscriptionCache == subscriptionCache
    {
      this.functionCache, this.subscriptionCache := functionCache, subscriptionCache;
    }

    method Function(space: string, id: string) returns (fn: Option<Function>)
      ensures fn.Some? <==> FunctionKey(space, id) in functionCache.cache
      ensures fn.Some? ==> fn.value == functionCache.cache[FunctionKey(space, id)]
    {
      var key := FunctionKey(space, id);
      fn := if key in functionCache.cache then Some(functionCache.cache[key]) else None;
    }

    method SyncSubscriber(httpMethod: string, path: string, eventType: string) returns (answer: Option<SyncMatch>)
      requires subscriptionCache.Valid()
      ensures Answers(subscriptionCache.State(), (httpMethod, eventType), path, answer)
    {
      hide Node.Valid, Node.Trie, Node.Keeps, Apart, AsyncMirrors, Lookup, Matches, BindsRoute;
      var sync := subscriptionCache.sync;
      ghost var held, k := subscriptionCache.held, (httpMethod, eventType);
      if httpMethod !in sync || eventType !in sync[httpMethod] {
        RootMissing(sync, held, k);
        return None;
      }
      var root := sync[httpMethod][eventType];
      RootFound(sync, held, k, root);
      TreeFound(held, k);
      root.KeepsMeans(held[k].repr, held[k].trie);
      var value, params := root.Resolve(path);
      if value == None {
        return None;
      }
      return Some(SyncMatch(value.value.space, value.value.id, params));
    }

    method AsyncSubscribers(httpMethod: string, path: string, eventType: string) returns (subscribers: seq<AsyncMatch>)
      requires subscriptionCache.Valid()
      ensures var ids := ListAt(subscriptionCache.State().lists, (httpMethod, path, eventType));
              |subscribers| == |ids| && forall i :: 0 <= i < |ids| ==> subscribers[i] == AsyncMatch(ids[i].space, ids[i].id)
    {
      hide Apart, SyncMirrors;
      var keys := AsyncAt(subscriptionCache.async, (httpMethod, path, eventType));
      AsyncFound(subscriptionCache.async, subscriptionCache.lists, (httpMethod, path, eventType));
      subscribers := [];
      for i := 0 to |keys|
        invariant |subscribers| == i
        invariant forall j :: 0 <= j < i ==> subscribers[j] == AsyncMatch(keys[j].space, keys[j].id)
      {
        subscribers := subscribers + [AsyncMatch(keys[i].space, keys[i].id)];
      }
    }
  }

  // ---- The loops of `React` ----

  lemma {:induction false} FoldPrefix(events: seq<Event>, i: nat)
    requires i <= |events| && Session.Fold(events).Some?
    ensures Session.Fold(events[..i]).Some?
    decreases |events|
  {
    if i < |events| {
      FoldPrefix(events[..|events| - 1], i);
      assert events[..|events| - 1][..i] == events[..i];
    } else {
      assert events[..i] == events;
    }
  }

  /** Hands events to the subscriptions' cache; `told` is what it was handed before. */
  method ReactSubscriptions(path: string, cache: SubscriptionCache, ghost told: seq<Event>, events: seq<Event>)
    requires cache.Valid() && Session.Fold(told) == Some(cache.State())
    requires Session.Fold(told + events).Some?
    modifies cache, cache.repr
    ensures cache.Valid() && fresh(cache.repr - old(cache.repr))
    ensures Session.Fold(told + events) == Some(cache.State())
  {
    hide Session.Fold, CanDelete, AfterModified, AfterDeleted, SubscriptionCache.Owns;
    assert told + events[..0] == told;
    for i := 0 to |events|
      invariant cache.Valid() && fresh(cache.repr - old(cache.repr))
      invariant Session.Fold(told + events[..i]) == Some(cache.State())
    {
      var event := events[i];
      FoldPrefix(told + events, |told| + i + 1);
      assert (told + events)[..|told| + i + 1] == told + events[..i] + [event];
      assert told + events[..i + 1] == told + events[..i] + [event];
      FoldOneMore(told + events[..i], event);
      var key := TrimPrefix(event.key, path);
      match event {
        case Modified(_, v) => cache.Modified(v);
        case Deleted(_, v) => cache.Deleted(v);
      }
    }
    assert events[..|events|] == events;
  }

  lemma {:induction false} FunctionFoldPrefix(path: string, events: seq<Event>, i: nat)
    requires i <= |events| && FunctionCache.Fold(path, events).Some?
    ensures FunctionCache.Fold(path, events[..i]).Some?
    decreases |events|
  {
    if i < |events| {
      FunctionFoldPrefix(path, events[..|events| - 1], i);
      assert events[..|events| - 1][..i] == events[..i];
    } else {
      assert events[..i] == events;
    }
  }

  /** Hands events to the functions' cache. */
  method ReactFunctions(path: string, cache: FunctionCache.FunctionCache, ghost told: seq<Event>, events: seq<Event>)
    requires FunctionCache.Fold(path, told) == Some(cache.cache)
    requires FunctionCache.Fold(path, told + events).Some?
    modifies cache
    ensures FunctionCache.Fold(path, told + events) == Some(cache.cache)
  {
    hide FunctionCache.Fold, FunctionCache.HasTwoPieces, FunctionCache.SplitKey;
    assert told + events[..0] == told;
    for i := 0 to |events|
      invariant FunctionCache.Fold(path, told + events[..i]) == Some(cache.cache)
    {
      var event := events[i];
      FunctionFoldPrefix(path, told + events, |told| + i + 1);
      assert (told + events)[..|told| + i + 1] == told + events[..i] + [event];
      assert told + events[..i + 1] == told + events[..i] + [event];
      FunctionCache.FoldOneMore(path, told + events[..i], event);
      var key := TrimPrefix(event.key, path);
      match event {
        case Modified(_, v) => cache.Modified(key, v);
        case Deleted(_, v) => cache.Deleted(key, v);
      }
    }
    assert events[..|events|] == events;
  }
}
