/** What the async lists hold after any watch session. */
module AsyncLists {
  import opened Wrappers
  import opened Entities
  import opened Routing
  import opened Watcher
  import opened Session

  /** The value is an async subscription for the method, path and event type `lk`, whose space
      and function ID are those of `f`. */
  ghost predicate Files(v: Value, lk: ListKey, f: FunctionKey) {
    && v.SubscriptionValue? && v.sub.kind != TYPE_SYNC
    && v.sub.httpMethod == lk.0 && v.sub.path == lk.1 && v.sub.eventType == lk.2
    && v.sub.space == f.space && v.sub.functionID == f.id
  }

  ghost function Multiplicity(r: Routing.State, lk: ListKey, f: FunctionKey): nat {
    multiset(ListAt(r.lists, lk))[f]
  }

  /** One more per write, one less per deletion, never below zero. */
  ghost function Tally(events: seq<Event>, lk: ListKey, f: FunctionKey): nat {
    if events == [] then 0
    else
      var before := Tally(events[..|events| - 1], lk, f);
      var e := events[|events| - 1];
      if !Files(e.value, lk, f) then before
      else if e.Modified? then before + 1
      else if before > 0 then before - 1
      else 0
  }

  lemma ModifiedTally(r: Routing.State, v: Value, lk: ListKey, f: FunctionKey)
    ensures Multiplicity(AfterModified(r, v), lk, f) == Multiplicity(r, lk, f) + if Files(v, lk, f) then 1 else 0
  {
  }

  lemma DeletedTally(r: Routing.State, v: Value, lk: ListKey, f: FunctionKey)
    ensures Multiplicity(AfterDeleted(r, v), lk, f) ==
            if Files(v, lk, f) && Multiplicity(r, lk, f) > 0 then Multiplicity(r, lk, f) - 1 else Multiplicity(r, lk, f)
  {
    hide RemoveFirst;
    if v.SubscriptionValue? && v.sub.kind != TYPE_SYNC && lk == ListKeyOf(v.sub) {
      var ids, key := ListAt(r.lists, lk), v.sub.Callee();
      RemoveFirstLowers(ids, key, f);
      assert ListAt(AfterDeleted(r, v).lists, lk) == RemoveFirst(ids, key);
    } else {
      assert ListAt(AfterDeleted(r, v).lists, lk) == ListAt(r.lists, lk);
    }
  }

  lemma RemoveFirstLowers(ids: seq<FunctionKey>, key: FunctionKey, f: FunctionKey)
    ensures multiset(RemoveFirst(ids, key))[f] == if key == f && multiset(ids)[f] > 0 then multiset(ids)[f] - 1 else multiset(ids)[f]
  {
    RemoveFirstCounts(ids, key);
  }

  /** For every run of events the multiplicity of a function in a list is the tally. */
  lemma {:induction false} MultiplicityIsTally(events: seq<Event>, lk: ListKey, f: FunctionKey)
    requires Fold(events).Some?
    ensures Multiplicity(Fold(events).value, lk, f) == Tally(events, lk, f)
  {
    if events != [] {
      var front, e := events[..|events| - 1], events[|events| - 1];
      MultiplicityIsTally(front, lk, f);
      ModifiedTally(Fold(front).value, e.value, lk, f);
      DeletedTally(Fold(front).value, e.value, lk, f);
    }
  }

  /** The live keys filed under `lk` for `f`. */
  ghost function Filed(live: map<string, Value>, lk: ListKey, f: FunctionKey): set<string> {
    set key | key in live && Files(live[key], lk, f)
  }

  /** How often a subscription filed under `lk` for `f` was written again while live. */
  ghost function Rewrites(path: string, changes: seq<KVPair>, lk: ListKey, f: FunctionKey): nat {
    if changes == [] then 0
    else
      var front, kv := changes[..|changes| - 1], changes[|changes| - 1];
      Rewrites(path, front, lk, f) +
      if kv.key != path && kv.value.Some? && kv.key in Filed(LiveAfter(path, front), lk, f) then 1 else 0
  }

  lemma WriteFiles(live: map<string, Value>, key: string, v: Value, lk: ListKey, f: FunctionKey)
    requires key in live && live[key].SubscriptionValue? ==> SameRouting(live[key], v)
    ensures |Filed(live[key := v], lk, f)| + (if key in Filed(live, lk, f) then 1 else 0) ==
            |Filed(live, lk, f)| + if Files(v, lk, f) then 1 else 0
  {
    var before, after := Filed(live, lk, f), Filed(live[key := v], lk, f);
    if Files(v, lk, f) {
      assert after == before + {key};
    } else {
      assert after == before;
    }
  }

  lemma DeleteFiles(live: map<string, Value>, key: string, lk: ListKey, f: FunctionKey)
    requires key in live
    ensures |Filed(live - {key}, lk, f)| == |Filed(live, lk, f)| - if Files(live[key], lk, f) then 1 else 0
  {
    assert Filed(live - {key}, lk, f) == Filed(live, lk, f) - {key};
  }

  /** The list holds a function once for each live subscription, and once more for every
      time one of them was written again: so it lists exactly the live subscriptions if
      and only if none was ever updated. */
  lemma {:induction false} MultiplicityExact(path: string, changes: seq<KVPair>, lk: ListKey, f: FunctionKey)
    requires KeepsRouting(path, changes) && CacheAfter(path, changes).Some?
    ensures Multiplicity(CacheAfter(path, changes).value, lk, f) == |Filed(LiveAfter(path, changes), lk, f)| + Rewrites(path, changes, lk, f)
  {
    hide KeepsRouting, Watch, Fold, Multiplicity, AfterModified, AfterDeleted, CanDelete;
    if changes == [] {
      NothingListed(path, lk, f);
    } else {
      var front, kv := changes[..|changes| - 1], changes[|changes| - 1];
      assert changes == front + [kv];
      PrefixKeepsRouting(path, front, kv);
      OneMoreChange(path, front, kv);
      MultiplicityExact(path, front, lk, f);
      var live, r := LiveAfter(path, front), CacheAfter(path, front).value;
      if kv.key != path && kv.value.Some? {
        WriteFiles(live, kv.key, kv.value.value, lk, f);
        ModifiedTally(r, kv.value.value, lk, f);
      } else if kv.key != path && kv.key in live {
        DeleteFiles(live, kv.key, lk, f);
        DeletedTally(r, live[kv.key], lk, f);
        if Files(live[kv.key], lk, f) {
          assert kv.key in Filed(live, lk, f);
        }
      }
    }
  }

  lemma NothingListed(path: string, lk: ListKey, f: FunctionKey)
    ensures CacheAfter(path, []).Some? && Multiplicity(CacheAfter(path, []).value, lk, f) == 0 && LiveAfter(path, []) == map[]
  {
  }

  // ---- Order ----

  /** The live keys in the order in which they came to life. */
  ghost function Arrivals(path: string, changes: seq<KVPair>): seq<string> {
    if changes == [] then []
    else
      var front, kv := changes[..|changes| - 1], changes[|changes| - 1];
      var before := Arrivals(path, front);
      if kv.key == path then before
      else if kv.value.Some? then if kv.key in LiveAfter(path, front) then before else before + [kv.key]
      else Drop(before, kv.key)
  }

  ghost function Drop(keys: seq<string>, key: string): seq<string> {
    if keys == [] then []
    else if keys[0] == key then keys[1..]
    else [keys[0]] + Drop(keys[1..], key)
  }

  function Entry(v: Value, lk: ListKey): seq<FunctionKey> {
    if v.SubscriptionValue? && v.sub.kind != TYPE_SYNC && lk == (v.sub.httpMethod, v.sub.path, v.sub.eventType)
    then [FunctionKey(v.sub.space, v.sub.functionID)] else []
  }

  /** The functions the given keys file under `lk`, in order. */
  ghost function Listed(keys: seq<string>, live: map<string, Value>, lk: ListKey): seq<FunctionKey> {
    if keys == [] then []
    else (if keys[0] in live then Entry(live[keys[0]], lk) else []) + Listed(keys[1..], live, lk)
  }

  /** No key is written while live. */
  ghost predicate OncePerLifetime(path: string, changes: seq<KVPair>) {
    forall i :: 0 <= i < |changes| ==> FreshWrite(LiveAfter(path, changes[..i]), changes[i])
  }

  ghost predicate FreshWrite(live: map<string, Value>, kv: KVPair) {
    kv.value.Some? ==> kv.key !in live
  }

  /** No two live keys file the same function in one list. */
  ghost predicate OneKeyEach(live: map<string, Value>) {
    forall key, key', lk :: key in live && key' in live && key != key' ==>
      Entry(live[key], lk) == [] || Entry(live[key], lk) != Entry(live[key'], lk)
  }

  ghost predicate OneKeyThroughout(path: string, changes: seq<KVPair>) {
    forall i :: 0 <= i <= |changes| ==> OneKeyEach(LiveAfter(path, changes[..i]))
  }

  lemma OnceOneMore(path: string, changes: seq<KVPair>, kv: KVPair)
    ensures OncePerLifetime(path, changes + [kv]) <==> OncePerLifetime(path, changes) && FreshWrite(LiveAfter(path, changes), kv)
  {
    hide FreshWrite, Watch;
    var all := changes + [kv];
    assert all[..|changes|] == changes && all[|changes|] == kv;
    forall i | 0 <= i < |changes| ensures all[..i] == changes[..i] && all[i] == changes[i] {
    }
    if OncePerLifetime(path, all) {
      forall i | 0 <= i < |changes| ensures FreshWrite(LiveAfter(path, changes[..i]), changes[i]) {
        assert FreshWrite(LiveAfter(path, all[..i]), all[i]);
      }
      assert FreshWrite(LiveAfter(path, all[..|changes|]), all[|changes|]);
    }
    if OncePerLifetime(path, changes) && FreshWrite(LiveAfter(path, changes), kv) {
      forall i | 0 <= i < |all| ensures FreshWrite(LiveAfter(path, all[..i]), all[i]) {
        assert i < |changes| ==> FreshWrite(LiveAfter(path, changes[..i]), changes[i]);
      }
    }
  }

  lemma OneKeyOneMore(path: string, changes: seq<KVPair>, kv: KVPair)
    ensures OneKeyThroughout(path, changes + [kv]) <==> OneKeyThroughout(path, changes) && OneKeyEach(LiveAfter(path, changes + [kv]))
  {
    hide OneKeyEach, Watch;
    var all := changes + [kv];
    assert all[..|all|] == all;
    forall i | 0 <= i <= |changes| ensures all[..i] == changes[..i] {
    }
    if OneKeyThroughout(path, all) {
      forall i | 0 <= i <= |changes| ensures OneKeyEach(LiveAfter(path, changes[..i])) {
        assert OneKeyEach(LiveAfter(path, all[..i]));
      }
    }
    if OneKeyThroughout(path, changes) && OneKeyEach(LiveAfter(path, all)) {
      forall i | 0 <= i <= |all| ensures OneKeyEach(LiveAfter(path, all[..i])) {
        assert i <= |changes| ==> OneKeyEach(LiveAfter(path, changes[..i]));
      }
    }
  }

  ghost predicate Distinct(keys: seq<string>) {
    forall i, j :: 0 <= i < j < |keys| ==> keys[i] != keys[j]
  }

  lemma {:induction false} ListedAppend(keys: seq<string>, key: string, live: map<string, Value>, v: Value, lk: ListKey)
    requires key !in keys
    ensures Listed(keys + [key], live[key := v], lk) == Listed(keys, live, lk) + Entry(v, lk)
  {
    if keys == [] {
      assert [key][1..] == [];
    } else {
      ListedAppend(keys[1..], key, live, v, lk);
      assert (keys + [key])[1..] == keys[1..] + [key];
    }
  }

  lemma DistinctCons(key: string, keys: seq<string>)
    ensures Distinct([key] + keys) <==> key !in keys && Distinct(keys)
  {
    var all := [key] + keys;
    assert forall i :: 0 <= i < |keys| ==> all[i + 1] == keys[i];
    if Distinct(all) {
      forall i | 0 <= i < |keys| ensures keys[i] != key {
        assert all[0] != all[i + 1];
      }
      forall i, j | 0 <= i < j < |keys| ensures keys[i] != keys[j] {
        assert all[i + 1] != all[j + 1];
      }
    }
    if key !in keys && Distinct(keys) {
      forall i, j | 0 <= i < j < |all| ensures all[i] != all[j] {
        assert all[j] == keys[j - 1];
      }
    }
  }

  lemma {:induction false} DropsKey(keys: seq<string>, key: string)
    requires Distinct(keys)
    ensures Distinct(Drop(keys, key)) && forall k :: k in Drop(keys, key) <==> k in keys && k != key
  {
    hide Distinct;
    if keys != [] {
      assert keys == [keys[0]] + keys[1..];
      DistinctCons(keys[0], keys[1..]);
      if keys[0] != key {
        DropsKey(keys[1..], key);
        DistinctCons(keys[0], Drop(keys[1..], key));
      }
    }
  }

  lemma {:induction false} ListedWithout(keys: seq<string>, key: string, live: map<string, Value>, lk: ListKey)
    requires key !in keys
    ensures Listed(keys, live - {key}, lk) == Listed(keys, live, lk)
  {
    if keys != [] {
      ListedWithout(keys[1..], key, live, lk);
    }
  }

  /** Dropping a key drops its function, and no other. */
  lemma {:induction false} ListedDrop(keys: seq<string>, key: string, live: map<string, Value>, lk: ListKey)
    requires Distinct(keys) && key in keys && key in live && OneKeyEach(live)
    ensures Listed(Drop(keys, key), live - {key}, lk) ==
            if Entry(live[key], lk) == [] then Listed(keys, live, lk)
            else RemoveFirst(Listed(keys, live, lk), live[key].sub.Callee())
  {
    var tail := Listed(keys[1..], live, lk);
    assert keys == [keys[0]] + keys[1..];
    DistinctCons(keys[0], keys[1..]);
    if keys[0] == key {
      ListedWithout(keys[1..], key, live, lk);
      if Entry(live[key], lk) != [] {
        assert ([live[key].sub.Callee()] + tail)[1..] == tail;
      } else {
        assert [] + tail == tail;
      }
    } else {
      ListedDrop(keys[1..], key, live, lk);
      var rest := Drop(keys, key);
      assert rest[1..] == Drop(keys[1..], key);
      if keys[0] in live && Entry(live[keys[0]], lk) != [] {
        assert ([live[keys[0]].sub.Callee()] + tail)[1..] == tail;
      } else {
        assert [] + tail == tail;
      }
    }
  }

  /** If no subscription is written twice in one lifetime, and no two live ones ever file the
      same function in one list, the list is exactly the live subscriptions' functions, in the
      order of their arrival. */
  lemma {:induction false} ListsInArrivalOrder(path: string, changes: seq<KVPair>, lk: ListKey)
    requires OncePerLifetime(path, changes) && OneKeyThroughout(path, changes) && CacheAfter(path, changes).Some?
    ensures InOrder(Arrivals(path, changes), LiveAfter(path, changes), CacheAfter(path, changes).value, lk)
  {
    if changes != [] {
      var front, kv := changes[..|changes| - 1], changes[|changes| - 1];
      assert changes == front + [kv];
      OnceOneMore(path, front, kv);
      OneKeyOneMore(path, front, kv);
      OneMoreChange(path, front, kv);
      ListsInArrivalOrder(path, front, lk);
      var keys, live, r := Arrivals(path, front), LiveAfter(path, front), CacheAfter(path, front).value;
      hide Watch, Fold, KeepsRouting, OncePerLifetime, OneKeyThroughout, Listed, Drop, OneKeyEach, Distinct;
      if kv.key == path {
      } else if kv.value.Some? {
        ArrivalKeepsOrder(keys, live, r, kv.key, kv.value.value, lk);
      } else if kv.key in live {
        DepartureKeepsOrder(keys, live, r, kv.key, lk);
      } else {
        DropAbsent(keys, kv.key);
      }
    }
  }

  /** The list of `lk` is what these keys, all the live ones, file there in this order. */
  ghost predicate InOrder(keys: seq<string>, live: map<string, Value>, r: Routing.State, lk: ListKey) {
    && Distinct(keys) && (forall key :: key in keys <==> key in live)
    && OneKeyEach(live) && ListAt(r.lists, lk) == Listed(keys, live, lk)
  }

  lemma ArrivalKeepsOrder(keys: seq<string>, live: map<string, Value>, r: Routing.State, key: string, v: Value, lk: ListKey)
    requires InOrder(keys, live, r, lk) && key !in live && OneKeyEach(live[key := v])
    ensures InOrder(keys + [key], live[key := v], AfterModified(r, v), lk)
  {
    hide Listed, OneKeyEach;
    ListedAppend(keys, key, live, v, lk);
    assert ListAt(AfterModified(r, v).lists, lk) == ListAt(r.lists, lk) + Entry(v, lk);
  }

  lemma DepartureKeepsOrder(keys: seq<string>, live: map<string, Value>, r: Routing.State, key: string, lk: ListKey)
    requires InOrder(keys, live, r, lk) && key in live
    ensures InOrder(Drop(keys, key), live - {key}, AfterDeleted(r, live[key]), lk)
  {
    hide Listed, Distinct, Drop, RemoveFirst;
    DropsKey(keys, key);
    ListedDrop(keys, key, live, lk);
    var v := live[key];
    assert ListAt(AfterDeleted(r, v).lists, lk) ==
           if Entry(v, lk) == [] then ListAt(r.lists, lk) else RemoveFirst(ListAt(r.lists, lk), v.sub.Callee());
  }

  lemma {:induction false} DropAbsent(keys: seq<string>, key: string)
    requires key !in keys
    ensures Drop(keys, key) == keys
  {
    if keys != [] {
      DropAbsent(keys[1..], key);
      assert keys == [keys[0]] + keys[1..];
    }
  }

  lemma FiledOnce(live: map<string, Value>, lk: ListKey, f: FunctionKey)
    requires OneKeyEach(live)
    ensures |Filed(live, lk, f)| == if Filed(live, lk, f) == {} then 0 else 1
  {
    var filed := Filed(live, lk, f);
    if filed != {} {
      var key :| key in filed;
      forall other | other in filed ensures other == key {
        assert Entry(live[key], lk) == [f] == Entry(live[other], lk);
      }
      assert filed == {key};
    }
  }

  /** And then a function is listed once if it has a live subscription there, and not at all
      otherwise. */
  lemma NoneTwice(path: string, changes: seq<KVPair>, lk: ListKey, f: FunctionKey)
    requires OncePerLifetime(path, changes) && OneKeyEach(LiveAfter(path, changes))
    requires KeepsRouting(path, changes) && CacheAfter(path, changes).Some?
    ensures Multiplicity(CacheAfter(path, changes).value, lk, f) == if Filed(LiveAfter(path, changes), lk, f) == {} then 0 else 1
  {
    MultiplicityExact(path, changes, lk, f);
    NoRewrites(path, changes, lk, f);
    FiledOnce(LiveAfter(path, changes), lk, f);
  }

  lemma {:induction false} NoRewrites(path: string, changes: seq<KVPair>, lk: ListKey, f: FunctionKey)
    requires OncePerLifetime(path, changes)
    ensures Rewrites(path, changes, lk, f) == 0
  {
    if changes != [] {
      var front, kv := changes[..|changes| - 1], changes[|changes| - 1];
      assert changes == front + [kv];
      OnceOneMore(path, front, kv);
      NoRewrites(path, front, lk, f);
    }
  }
}
