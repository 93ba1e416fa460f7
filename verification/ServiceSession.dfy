/** Runs of the service seen by the watchers: what the caches know after them. */
module ServiceSession {
  import opened Wrappers
  import opened Entities
  import opened Strings
  import opened Patterns
  import opened RouteTrie
  import opened Routing
  import opened Codec
  import opened Catalog
  import opened ServiceModel
  import opened Store
  import opened ServiceFeed
  import opened Watcher
  import opened Session
  import opened Agreement
  import FunctionCache

  /** All changes a run of the service makes, in order. */
  ghost function RunFeed(r: Roots, ops: seq<Op>): seq<KVPair> {
    if ops == [] then []
    else
      var front := ops[..|ops| - 1];
      RunFeed(r, front) + Emits(r, Run(front), ops[|ops| - 1])
  }

  /** What a watcher of a root is told of them. */
  ghost function Below(root: string, feed: seq<KVPair>): seq<KVPair> {
    if feed == [] then []
    else
      var kv := feed[|feed| - 1];
      Below(root, feed[..|feed| - 1]) + if HasPrefix(kv.key, root) then [kv] else []
  }

  lemma BelowEmits(root: string, feed: seq<KVPair>, emitted: seq<KVPair>)
    requires |emitted| <= 1
    ensures Below(root, feed + emitted) == Below(root, feed) + (if |emitted| == 1 && HasPrefix(emitted[0].key, root) then emitted else [])
  {
    if |emitted| == 1 {
      assert (feed + emitted)[..|feed|] == feed;
    } else {
      assert feed + emitted == feed;
    }
  }

  /** The root an operation writes below. */
  ghost function RootOf(r: Roots, op: Op): string {
    match op
    case CreateFunction(_) => r.functions
    case UpdateFunction(_) => r.functions
    case DeleteFunction(_, _) => r.functions
    case CreateEventType(_) => r.eventTypes
    case UpdateEventType(_) => r.eventTypes
    case DeleteEventType(_, _) => r.eventTypes
    case CreateSubscription(_) => r.subscriptions
    case UpdateSubscription(_, _) => r.subscriptions
    case DeleteSubscription(_, _) => r.subscriptions
  }

  lemma EmitsBelow(r: Roots, c: Catalog, op: Op)
    ensures |Emits(r, c, op)| <= 1
    ensures |Emits(r, c, op)| == 1 ==> ErrorOf(c, op).None? && HasPrefix(Emits(r, c, op)[0].key, RootOf(r, op))
  {
    hide ErrorOf, NormalFunction, NormalEventType, NormalSubscription, WithID;
    if ErrorOf(c, op).None? {
      var key := Emits(r, c, op)[0].key;
      assert key == RootOf(r, op) + key[|RootOf(r, op)|..];
    }
  }

  lemma SharedPrefix(root: string, other: string, key: string)
    requires HasPrefix(key, root) && HasPrefix(key, other)
    ensures !Apart(root, other)
  {
    assert key == root + key[|root|..] && key == other + key[|other|..];
    CommonKey(root, other, key[|root|..], key[|other|..]);
  }

  /** The live values below a root are the stored entities under their full keys. */
  ghost predicate Reflects(root: string, live: map<string, Value>, values: map<string, Value>) {
    && (forall k :: k in values ==> root + k in live && live[root + k] == values[k])
    && (forall full :: full in live ==> HasPrefix(full, root) && full[|root|..] in values)
  }

  ghost function SubscriptionValues(subs: map<string, Subscription>): map<string, Value> {
    map k | k in subs :: SubscriptionValue(subs[k])
  }

  ghost function FunctionValues(fns: map<string, Function>): map<string, Value> {
    map k | k in fns :: FunctionValue(fns[k])
  }

  lemma FullKeyTrims(root: string, k: string)
    ensures HasPrefix(root + k, root) && (root + k)[|root|..] == k
  {
  }

  lemma ReflectsHas(root: string, live: map<string, Value>, values: map<string, Value>, k: string)
    requires Reflects(root, live, values) && k in values
    ensures root + k in live && live[root + k] == values[k]
  {
  }

  lemma ReflectsWrite(root: string, live: map<string, Value>, values: map<string, Value>, k: string, v: Value)
    requires Reflects(root, live, values)
    ensures Reflects(root, live[root + k := v], values[k := v])
  {
    FullKeyTrims(root, k);
    forall l | l in values && l != k ensures root + l != root + k {
      FullKeyTrims(root, l);
    }
  }

  lemma ReflectsDelete(root: string, live: map<string, Value>, values: map<string, Value>, k: string)
    requires Reflects(root, live, values)
    ensures Reflects(root, live - {root + k}, values - {k})
  {
    FullKeyTrims(root, k);
    forall l | l in values && l != k ensures root + l != root + k {
      FullKeyTrims(root, l);
    }
    forall full | full in live - {root + k} ensures full[|root|..] != k {
      assert full == root + full[|root|..];
    }
  }

  /** How a watched root moves with one more change below it. */
  lemma ReflectsChange(root: string, changes: seq<KVPair>, kv: KVPair, values: map<string, Value>, k: string)
    requires Reflects(root, LiveAfter(root, changes), values) && k != "" && kv.key == root + k
    ensures Reflects(root, LiveAfter(root, changes + [kv]), if kv.value.Some? then values[k := kv.value.value] else values - {k})
  {
    hide Watch, Reflects;
    WatchOneMore(root, changes, kv);
    FullKeyTrims(root, k);
    var live := LiveAfter(root, changes);
    if kv.value.Some? {
      ReflectsWrite(root, live, values, k, kv.value.value);
    } else {
      ReflectsDelete(root, live, values, k);
      assert kv.key !in live ==> live - {kv.key} == live;
    }
  }

  lemma ExtendKeepsRouting(path: string, changes: seq<KVPair>, kv: KVPair)
    requires KeepsRouting(path, changes) && WriteKeepsRouting(path, LiveAfter(path, changes), kv)
    ensures KeepsRouting(path, changes + [kv])
  {
    var all := changes + [kv];
    forall i | 0 <= i < |all| ensures WriteKeepsRouting(path, LiveAfter(path, all[..i]), all[i]) {
      if i < |changes| {
        assert all[..i] == changes[..i] && all[i] == changes[i];
      } else {
        assert all[..i] == changes;
      }
    }
  }

  // ---- Subscriptions ----

  /** What an operation does to the subscriptions, as their watcher sees it. */
  ghost predicate SubscriptionMove(root: string, kv: KVPair, k: string, before: map<string, Subscription>, after: map<string, Subscription>) {
    && k != "" && kv.key == root + k
    && SubscriptionValues(after) == (if kv.value.Some? then SubscriptionValues(before)[k := kv.value.value] else SubscriptionValues(before) - {k})
    && (kv.value.Some? ==> kv.value.value.SubscriptionValue?)
    && (kv.value.Some? && k in before ==> SameRouting(SubscriptionValue(before[k]), kv.value.value))
  }

  lemma SubscriptionStep(r: Roots, c: Catalog, op: Op) returns (k: string)
    requires CatalogOk(c) && OpOk(op) && RootsApart(r)
    ensures var emitted := Emits(r, c, op);
            if |emitted| == 1 && HasPrefix(emitted[0].key, r.subscriptions)
            then SubscriptionMove(r.subscriptions, emitted[0], k, c.subscriptions, Apply(c, op).subscriptions)
            else Apply(c, op).subscriptions == c.subscriptions
  {
    hide CatalogOk, Apart, SubscriptionID, NormalSubscription, PathFree;
    EmitsBelow(r, c, op);
    var emitted := Emits(r, c, op);
    k := "";
    if ErrorOf(c, op).None? {
      if HasPrefix(emitted[0].key, r.subscriptions) {
        SharedPrefix(RootOf(r, op), r.subscriptions, emitted[0].key);
      }
      match op
      case CreateSubscription(raw) =>
        k := Key(NormalSubscription(raw).space, WithID(NormalSubscription(raw)).id);
      case UpdateSubscription(id, raw) =>
        var s := NormalSubscription(raw);
        assert s.id == id by { NormalKeepsID(raw); }
        k := Key(s.space, s.id);
        UpdateFinds(c, id, s);
      case DeleteSubscription(space, id) =>
        k := Key(space, id);
      case _ =>
    }
  }

  lemma NormalKeepsID(raw: Subscription)
    ensures NormalSubscription(raw).id == raw.id
  {
  }

  lemma MoveKeepsRouting(root: string, live: map<string, Value>, kv: KVPair, k: string, before: map<string, Subscription>, after: map<string, Subscription>)
    requires SubscriptionMove(root, kv, k, before, after) && Reflects(root, live, SubscriptionValues(before))
    ensures WriteKeepsRouting(root, live, kv)
  {
    FullKeyTrims(root, k);
  }

  /** After any run of the service, a watcher of the subscriptions knows exactly the stored
      ones, and the writes it saw kept their routing. */
  lemma {:induction false} SubscriptionsReflected(r: Roots, ops: seq<Op>)
    requires RootsApart(r) && forall i :: 0 <= i < |ops| ==> OpOk(ops[i])
    ensures var changes := Below(r.subscriptions, RunFeed(r, ops));
            && KeepsRouting(r.subscriptions, changes)
            && Reflects(r.subscriptions, LiveAfter(r.subscriptions, changes), SubscriptionValues(Run(ops).subscriptions))
  {
    if ops != [] {
      hide CatalogOk, Apply, Emits, KeepsRouting, Watch, RootsApart, WriteKeepsRouting, Reflects, Below, SubscriptionValues;
      var front, op := ops[..|ops| - 1], ops[|ops| - 1];
      var c, root := Run(front), r.subscriptions;
      SubscriptionsReflected(r, front);
      RunKeepsOk(front);
      var changes, emitted := Below(root, RunFeed(r, front)), Emits(r, c, op);
      EmitsBelow(r, c, op);
      BelowEmits(root, RunFeed(r, front), emitted);
      var k := SubscriptionStep(r, c, op);
      if |emitted| == 1 && HasPrefix(emitted[0].key, root) {
        assert emitted == [emitted[0]];
        MoveKeepsRouting(root, LiveAfter(root, changes), emitted[0], k, c.subscriptions, Apply(c, op).subscriptions);
        ReflectsChange(root, changes, emitted[0], SubscriptionValues(c.subscriptions), k);
        ExtendKeepsRouting(root, changes, emitted[0]);
      } else {
        assert changes + [] == changes;
      }
    } else {
      assert Reflects(r.subscriptions, map[], SubscriptionValues(map[]));
    }
  }

  /** The service stores, under `key`, a sync subscription for the method and event type `k`
      that matches the request and whose space and function ID are those of `f`. */
  ghost predicate Serving(subs: map<string, Subscription>, key: string, k: TreeKey, f: FunctionKey, request: string) {
    && key in subs && subs[key].kind == TYPE_SYNC && subs[key].httpMethod == k.0 && subs[key].eventType == k.1
    && subs[key].space == f.space && subs[key].functionID == f.id
    && Locate(request).Some? && Locate(subs[key].path).Some? && Matches(Locate(subs[key].path).value, Locate(request).value)
  }

  /** A cached route belongs to a stored subscription. */
  lemma RouteIsServed(root: string, live: map<string, Value>, subs: map<string, Subscription>, k: TreeKey, q: Path, f: FunctionKey, request: string)
    requires Reflects(root, live, SubscriptionValues(subs)) && HasOwner(live, k, q, f)
    requires Locate(request).Some? && Matches(q, Locate(request).value)
    ensures exists key :: Serving(subs, key, k, f, request)
  {
    var full :| Holds(live, full, k, q, f);
    var key := full[|root|..];
    assert full == root + key;
    assert live[full] == SubscriptionValues(subs)[key];
    assert Serving(subs, key, k, f, request);
  }

  /** After any run of the service, whatever its spaces and conflicts, a sync lookup that
      answers at all answers with the function of a stored, matching subscription. */
  lemma ServiceNeverStale(r: Roots, ops: seq<Op>, k: TreeKey, request: string)
    requires RootsApart(r) && forall i :: 0 <= i < |ops| ==> OpOk(ops[i])
    ensures var cache := CacheAfter(r.subscriptions, Below(r.subscriptions, RunFeed(r, ops)));
            cache.Some? && SyncLookup(cache.value, k, request).Some? ==>
              exists key :: Serving(Run(ops).subscriptions, key, k, SyncLookup(cache.value, k, request).value, request)
  {
    hide Watch, Session.Fold, Reflects, Below, RunFeed, Run, KeepsRouting, RootsApart, StateOk, Matches, Routes, Serving, Holds;
    var root := r.subscriptions;
    var changes := Below(root, RunFeed(r, ops));
    SubscriptionsReflected(r, ops);
    NeverStale(root, changes);
    var cache, live := CacheAfter(root, changes), LiveAfter(root, changes);
    if cache.Some? && SyncLookup(cache.value, k, request).Some? {
      var p := Locate(request).value;
      var q :| q in Routes(cache.value.trees[k]) && Matches(q, p) && Routes(cache.value.trees[k])[q] == SyncLookup(cache.value, k, request).value;
      RouteIsServed(root, live, Run(ops).subscriptions, k, q, Routes(cache.value.trees[k])[q], request);
    }
  }

  lemma ServedIsHeld(root: string, live: map<string, Value>, subs: map<string, Subscription>, key: string, k: TreeKey, f: FunctionKey, request: string)
    requires Reflects(root, live, SubscriptionValues(subs)) && Serving(subs, key, k, f, request)
    ensures Holds(live, root + key, k, Locate(subs[key].path).value, f)
  {
    hide Reflects, Matches, Locate, HasPrefix;
    assert SubscriptionValues(subs)[key] == SubscriptionValue(subs[key]);
    ReflectsHas(root, live, SubscriptionValues(subs), key);
    var p := Locate(subs[key].path).value;
    assert Locate(subs[key].path) == Some(p);
    assert Serves(live[root + key], k, p, f);
  }

  /** And if all sync paths the run ever stored per method and event type are compatible, it
      answers exactly when a stored subscription matches. */
  lemma ServiceLookupsAgree(r: Roots, ops: seq<Op>, k: TreeKey, f: FunctionKey, request: string)
    requires RootsApart(r) && forall i :: 0 <= i < |ops| ==> OpOk(ops[i])
    requires SeenOk(Seen(r.subscriptions, Below(r.subscriptions, RunFeed(r, ops)))) && Locate(request).Some?
    ensures var cache := CacheAfter(r.subscriptions, Below(r.subscriptions, RunFeed(r, ops)));
            cache.Some? && (SyncLookup(cache.value, k, request) == Some(f) <==> exists key :: Serving(Run(ops).subscriptions, key, k, f, request))
  {
    hide Watch, Session.Fold, Reflects, Below, RunFeed, Run, KeepsRouting, RootsApart, Matches, SyncLookup, Holds, SeenOk, Seen;
    var root := r.subscriptions;
    var changes := Below(root, RunFeed(r, ops));
    SubscriptionsReflected(r, ops);
    LookupsAgree(root, changes, k, request);
    ServiceNeverStale(r, ops, k, request);
    var live := LiveAfter(root, changes);
    if exists key :: Serving(Run(ops).subscriptions, key, k, f, request) {
      var key :| Serving(Run(ops).subscriptions, key, k, f, request);
      ServedIsHeld(root, live, Run(ops).subscriptions, key, k, f, request);
    }
  }

  // ---- When nothing is deleted and one space is used ----

  /** The sighting is of a stored subscription. */
  ghost predicate Stored(root: string, a: Sighting, subs: map<string, Subscription>) {
    exists key :: StoredAt(root, a, subs, key)
  }

  ghost predicate StoredAt(root: string, a: Sighting, subs: map<string, Subscription>, key: string) {
    key in subs && SightingOf(root + key, SubscriptionValue(subs[key])) == {a}
  }

  lemma MoveKeepsStored(root: string, a: Sighting, kv: KVPair, k: string, before: map<string, Subscription>, after: map<string, Subscription>)
    requires SubscriptionMove(root, kv, k, before, after) && kv.value.Some?
    requires Stored(root, a, before) || a in SightingsOf(root, kv)
    ensures Stored(root, a, after)
  {
    assert k in SubscriptionValues(after) && SubscriptionValues(after)[k] == kv.value.value;
    assert after[k] == kv.value.value.sub;
    if a in SightingsOf(root, kv) {
      assert StoredAt(root, a, after, k);
    } else {
      var key :| StoredAt(root, a, before, key);
      assert key in SubscriptionValues(after);
      assert key != k ==> SubscriptionValues(after)[key] == SubscriptionValues(before)[key];
      assert StoredAt(root, a, after, key);
    }
  }

  ghost predicate NoDeletion(ops: seq<Op>) {
    forall i :: 0 <= i < |ops| ==> OpOk(ops[i]) && !ops[i].DeleteSubscription?
  }

  lemma CreationWrites(r: Roots, c: Catalog, op: Op)
    requires !op.DeleteSubscription? && RootsApart(r) && |Emits(r, c, op)| == 1 && HasPrefix(Emits(r, c, op)[0].key, r.subscriptions)
    ensures Emits(r, c, op)[0].value.Some?
  {
    hide ErrorOf, Apart, NormalFunction, NormalEventType, NormalSubscription, WithID;
    EmitsBelow(r, c, op);
    SharedPrefix(RootOf(r, op), r.subscriptions, Emits(r, c, op)[0].key);
  }

  lemma {:induction false} SeenAreStored(r: Roots, ops: seq<Op>, a: Sighting)
    requires RootsApart(r) && NoDeletion(ops) && a in Seen(r.subscriptions, Below(r.subscriptions, RunFeed(r, ops)))
    ensures Stored(r.subscriptions, a, Run(ops).subscriptions)
  {
    if ops != [] {
      hide CatalogOk, Apply, Emits, RootsApart, Below, SightingsOf, Stored, SubscriptionMove;
      var front, op := ops[..|ops| - 1], ops[|ops| - 1];
      var c, root, feed := Run(front), r.subscriptions, RunFeed(r, front);
      RunKeepsOk(front);
      var emitted := Emits(r, c, op);
      EmitsBelow(r, c, op);
      BelowEmits(root, feed, emitted);
      var k := SubscriptionStep(r, c, op);
      if |emitted| == 1 && HasPrefix(emitted[0].key, root) {
        assert emitted == [emitted[0]];
        SeenGrows(root, Below(root, feed), emitted[0]);
        CreationWrites(r, c, op);
        if a !in SightingsOf(root, emitted[0]) {
          SeenAreStored(r, front, a);
        }
        MoveKeepsStored(root, a, emitted[0], k, c.subscriptions, Apply(c, op).subscriptions);
      } else {
        assert Below(root, feed) + [] == Below(root, feed);
        SeenAreStored(r, front, a);
      }
    }
  }

  lemma StoredAreCompatible(root: string, subs: map<string, Subscription>, space: string, a: Sighting, b: Sighting)
    requires PathsOk(subs) && (forall key :: key in subs ==> subs[key].space == space)
    requires Stored(root, a, subs) && Stored(root, b, subs) && a.k == b.k
    ensures WellFormed(a.p) && (a == b || Compatible(a.p, b.p))
  {
    hide Compatible, WellFormed;
    var i :| StoredAt(root, a, subs, i);
    var j :| StoredAt(root, b, subs, j);
    StoredPattern(root, a, subs, i);
    StoredPattern(root, b, subs, j);
    if i != j {
      assert SameTree(subs[i], subs[j]);
    }
  }

  lemma StoredPattern(root: string, a: Sighting, subs: map<string, Subscription>, key: string)
    requires StoredAt(root, a, subs, key)
    ensures subs[key].kind == TYPE_SYNC && a == Sighting(root + key, TreeKeyOf(subs[key]), PatternOf(subs[key]))
  {
    var s := subs[key];
    assert a in SightingOf(root + key, SubscriptionValue(s));
  }

  /** The service's own path check suffices as long as one space is used and no subscription
      is deleted: after every such run a sync lookup answers exactly when a stored
      subscription matches. */
  lemma OneSpaceAgrees(r: Roots, ops: seq<Op>, space: string, k: TreeKey, f: FunctionKey, request: string)
    requires RootsApart(r) && NoDeletion(ops) && Locate(request).Some?
    requires forall key :: key in Run(ops).subscriptions ==> Run(ops).subscriptions[key].space == space
    ensures var cache := CacheAfter(r.subscriptions, Below(r.subscriptions, RunFeed(r, ops)));
            cache.Some? && (SyncLookup(cache.value, k, request) == Some(f) <==> exists key :: Serving(Run(ops).subscriptions, key, k, f, request))
  {
    hide Watch, Session.Fold, Below, RunFeed, Run, RootsApart, Matches, SyncLookup, Seen, PathsOk, Stored, Serving, FunctionsOk, EventTypesOk, Compatible, WellFormed;
    RunKeepsOk(ops);
    var seen, subs := Seen(r.subscriptions, Below(r.subscriptions, RunFeed(r, ops))), Run(ops).subscriptions;
    forall a, b | a in seen && b in seen && a.k == b.k ensures WellFormed(a.p) && (a == b || Compatible(a.p, b.p)) {
      SeenAreStored(r, ops, a);
      SeenAreStored(r, ops, b);
      StoredAreCompatible(r.subscriptions, subs, space, a, b);
    }
    ServiceLookupsAgree(r, ops, k, f, request);
  }

  // ---- Functions ----

  /** What an operation does to the functions, as their watcher sees it. */
  ghost predicate FunctionMove(root: string, kv: KVPair, space: string, id: string, before: map<string, Function>, after: map<string, Function>) {
    && '/' !in space && '/' !in id && kv.key == root + Key(space, id)
    && if kv.value.Some? then
         && kv.value.value.FunctionValue? && kv.value.value.fn.space == space && kv.value.value.fn.id == id
         && after == before[Key(space, id) := kv.value.value.fn]
       else Key(space, id) in before && after == before - {Key(space, id)}
  }

  lemma FunctionStep(r: Roots, c: Catalog, op: Op) returns (space: string, id: string)
    requires FunctionsOk(c.functions) && RootsApart(r)
    ensures var emitted := Emits(r, c, op);
            if |emitted| == 1 && HasPrefix(emitted[0].key, r.functions)
            then FunctionMove(r.functions, emitted[0], space, id, c.functions, Apply(c, op).functions)
            else Apply(c, op).functions == c.functions
  {
    hide FunctionsOk, Apart, PathFree, NormalSubscription, NormalEventType, IsName;
    EmitsBelow(r, c, op);
    var emitted := Emits(r, c, op);
    space, id := "", "";
    if ErrorOf(c, op).None? {
      if HasPrefix(emitted[0].key, r.functions) {
        SharedPrefix(r.functions, RootOf(r, op), emitted[0].key);
      }
      match op
      case CreateFunction(raw) =>
        space, id := NormalFunction(raw).space, raw.id;
        NamesHaveNoSlash(space);
        NamesHaveNoSlash(id);
      case UpdateFunction(raw) =>
        space, id := NormalFunction(raw).space, raw.id;
        NamesHaveNoSlash(space);
        NamesHaveNoSlash(id);
      case DeleteFunction(s, i) =>
        space, id := s, i;
        FunctionNamedOnce(c, s, i, s, i);
      case _ =>
    }
  }

  /** The functions' cache after the session has handled these changes. */
  ghost function FunctionsAfter(root: string, changes: seq<KVPair>): Option<FunctionCache.Cached> {
    FunctionCache.Fold(root, Watch(root, changes).outgoing)
  }

  lemma FunctionsFollow(root: string, changes: seq<KVPair>, kv: KVPair, space: string, id: string, before: map<string, Function>, after: map<string, Function>)
    requires FunctionMove(root, kv, space, id, before, after) && Reflects(root, LiveAfter(root, changes), FunctionValues(before))
    requires FunctionsAfter(root, changes).Some? && FunctionCache.Agrees(FunctionsAfter(root, changes).value, before)
    ensures FunctionsAfter(root, changes + [kv]).Some? && FunctionCache.Agrees(FunctionsAfter(root, changes + [kv]).value, after)
    ensures Reflects(root, LiveAfter(root, changes + [kv]), FunctionValues(after))
  {
    hide Watch, FunctionCache.Fold, FunctionCache.Tell, FunctionCache.Agrees, Reflects, TrimPrefix, HasPrefix;
    var k, live, told := Key(space, id), LiveAfter(root, changes), Watch(root, changes).outgoing;
    var c := FunctionsAfter(root, changes).value;
    WatchOneMore(root, changes, kv);
    ReflectsChange(root, changes, kv, FunctionValues(before), k);
    FullKeyTrims(root, k);
    if kv.value.Some? {
      assert FunctionValues(after) == FunctionValues(before)[k := kv.value.value];
      FunctionCache.FoldOneMore(root, told, Modified(kv.key, kv.value.value));
      FunctionCache.WriteAgrees(root, c, before, kv.value.value.fn);
    } else {
      assert FunctionValues(after) == FunctionValues(before) - {k};
      assert kv.key in live by { ReflectsHas(root, live, FunctionValues(before), k); }
      FunctionCache.FoldOneMore(root, told, Deleted(kv.key, live[kv.key]));
      FunctionCache.DeleteAgrees(root, c, before, space, id, live[kv.key]);
    }
  }

  /** After any run of the service the functions' cache, fed by its own watcher, holds under
      each space and ID exactly the function stored there, and never met a key it could not
      split; writes below the other roots do not reach it. */
  lemma {:induction false} FunctionsAgree(r: Roots, ops: seq<Op>)
    requires RootsApart(r) && forall i :: 0 <= i < |ops| ==> OpOk(ops[i])
    ensures var changes := Below(r.functions, RunFeed(r, ops));
            && Reflects(r.functions, LiveAfter(r.functions, changes), FunctionValues(Run(ops).functions))
            && FunctionsAfter(r.functions, changes).Some?
            && FunctionCache.Agrees(FunctionsAfter(r.functions, changes).value, Run(ops).functions)
  {
    if ops != [] {
      hide Apply, Emits, FunctionsAfter, Watch, RootsApart, Reflects, Below, FunctionValues, FunctionCache.Agrees, FunctionMove;
      var front, op := ops[..|ops| - 1], ops[|ops| - 1];
      var c, root := Run(front), r.functions;
      FunctionsAgree(r, front);
      RunKeepsOk(front);
      var feed, emitted := RunFeed(r, front), Emits(r, c, op);
      EmitsBelow(r, c, op);
      BelowEmits(root, feed, emitted);
      var space, id := FunctionStep(r, c, op);
      if |emitted| == 1 && HasPrefix(emitted[0].key, root) {
        assert emitted == [emitted[0]];
        FunctionsFollow(root, Below(root, feed), emitted[0], space, id, c.functions, Apply(c, op).functions);
      } else {
        assert Below(root, feed) + [] == Below(root, feed);
      }
    }
  }
}
