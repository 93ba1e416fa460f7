/** Exactly when the cache's sync trees agree with the store: change by change, and over a
    whole session. */
module ExactAgreement {
  import opened Wrappers
  import opened Entities
  import opened Patterns
  import opened RouteTrie
  import opened RouteTable
  import opened Routing
  import opened Watcher
  import opened Session

  // ---- One change ----

  /** The pattern fits the nodes of its tree, or is routed to this function already. */
  ghost predicate Welcome(t: Trie, p: Path, f: FunctionKey) {
    Fits(t, p) || (p in Routes(t) && Routes(t)[p] == f)
  }

  /** A written sync subscription is welcome in its tree. */
  ghost predicate WelcomeWrite(r: Routing.State, v: Value) {
    IsRoute(v) ==> Welcome(TreeAt(r.trees, TreeKeyOf(v.sub)), Locate(v.sub.path).value, v.sub.Callee())
  }

  /** No other live subscription has the tree and pattern of the one at the key. */
  ghost predicate AloneInPlace(live: map<string, Value>, key: string)
    requires key in live
  {
    forall other :: other in live && other != key ==> !SamePlace(live[other], live[key])
  }

  ghost predicate SamePlace(v: Value, w: Value) {
    IsRoute(v) && IsRoute(w) && TreeKeyOf(v.sub) == TreeKeyOf(w.sub) && Locate(v.sub.path) == Locate(w.sub.path)
  }

  /** While the cache agrees with the store, a write of any value under any key, a repeated
      one included, keeps it so exactly when what it writes is welcome. */
  lemma WriteAgreesIff(live: map<string, Value>, r: Routing.State, key: string, v: Value)
    requires StateOk(r) && NoStale(live, r) && Complete(live, r)
    requires key in live && live[key].SubscriptionValue? ==> SameRouting(live[key], v)
    ensures Complete(live[key := v], AfterModified(r, v)) <==> WelcomeWrite(r, v)
  {
    hide Added, AddErrorOf, TrieOk, NoStale, Routes, Removed, Fits;
    if IsRoute(v) {
      RouteAgreesIff(live, r, key, v);
    } else {
      forall other | other in live && other != key ensures Routed(live[other], AfterModified(r, v)) {
        assert Routed(live[other], r);
        OtherTreesStay(r, v, live[other]);
      }
    }
  }

  /** A value that is no route takes no route away. */
  lemma OtherTreesStay(r: Routing.State, v: Value, w: Value)
    requires !IsRoute(v) && Routed(w, r)
    ensures Routed(w, AfterModified(r, v))
  {
  }

  lemma RouteAgreesIff(live: map<string, Value>, r: Routing.State, key: string, v: Value)
    requires StateOk(r) && Complete(live, r) && IsRoute(v)
    ensures Complete(live[key := v], AfterModified(r, v)) <==> WelcomeWrite(r, v)
  {
    hide Added, AddErrorOf, TrieOk, Routes, Removed, Fits;
    var k, p, f := TreeKeyOf(v.sub), Locate(v.sub.path).value, v.sub.Callee();
    var t := TreeAt(r.trees, k);
    var r', live' := AfterModified(r, v), live[key := v];
    EmptyIsOk();
    WithRouteInTable(t, v.sub.path, f);
    AcceptedIffFits(t, p);
    if Complete(live', r') {
      assert Routed(live'[key], r');
    }
    if Welcome(t, p, f) {
      if AddErrorOf(t, p).None? {
        AcceptedIsNew(t, p, f);
      }
      forall other | other in live' ensures Routed(live'[other], r') {
        if other != key {
          assert Routed(live[other], r);
        }
      }
    }
  }

  lemma EmptyIsOk()
    ensures TrieOk(Empty()) && Routes(Empty()) == map[]
  {
  }

  /** While the cache agrees with the store, a deletion is safe, and keeps the agreement
      exactly when no other live subscription has the same tree and pattern. */
  lemma DeleteAgreesIff(live: map<string, Value>, r: Routing.State, key: string)
    requires StateOk(r) && Complete(live, r) && key in live
    ensures CanDelete(r, live[key])
    ensures Complete(live - {key}, AfterDeleted(r, live[key])) <==> AloneInPlace(live, key)
  {
    hide TrieOk, Routes, Removed;
    var v := live[key];
    assert Routed(v, r);
    if IsRoute(v) {
      WithoutRouteInTable(r.trees[TreeKeyOf(v.sub)], v.sub.path);
      RegisteredCanGo(r.trees[TreeKeyOf(v.sub)], Locate(v.sub.path).value);
    }
    forall other | other in live && other != key
      ensures Routed(live[other], AfterDeleted(r, v)) <==> !SamePlace(live[other], v)
    {
      assert Routed(live[other], r);
    }
    if Complete(live - {key}, AfterDeleted(r, v)) {
      forall other | other in live && other != key ensures !SamePlace(live[other], v) {
        assert other in live - {key};
      }
    }
  }

  lemma RegisteredCanGo(t: Trie, p: Path)
    requires TrieOk(t) && p in Routes(t)
    ensures CanWalkToParent(t, p)
  {
    if p != [] {
      PrefixClosed(t, p, Parent(p));
    }
  }

  // ---- A whole session ----

  /** The cache has not walked off a tree and routes every live sync subscription. */
  ghost predicate AgreesAfter(path: string, changes: seq<KVPair>) {
    CacheAfter(path, changes).Some? && Complete(LiveAfter(path, changes), CacheAfter(path, changes).value)
  }

  ghost predicate AgreesThroughout(path: string, changes: seq<KVPair>) {
    forall i :: 0 <= i <= |changes| ==> AgreesAfter(path, changes[..i])
  }

  /** What can be said of a change before it is made: a write is welcome in its tree, a
      deleted subscription is alone in its place. */
  ghost predicate FitChange(path: string, live: map<string, Value>, r: Routing.State, kv: KVPair) {
    kv.key != path ==>
      if kv.value.Some? then WelcomeWrite(r, kv.value.value)
      else kv.key in live ==> AloneInPlace(live, kv.key)
  }

  ghost predicate FitNext(path: string, changes: seq<KVPair>, kv: KVPair) {
    CacheAfter(path, changes).Some? ==> FitChange(path, LiveAfter(path, changes), CacheAfter(path, changes).value, kv)
  }

  ghost predicate FitThroughout(path: string, changes: seq<KVPair>) {
    forall i :: 0 <= i < |changes| ==> FitNext(path, changes[..i], changes[i])
  }

  lemma AgreesOneMore(path: string, changes: seq<KVPair>, kv: KVPair)
    ensures AgreesThroughout(path, changes + [kv]) <==> AgreesThroughout(path, changes) && AgreesAfter(path, changes + [kv])
  {
    hide AgreesAfter;
    var all := changes + [kv];
    assert all[..|all|] == all;
    forall i | 0 <= i <= |changes| ensures all[..i] == changes[..i] {
    }
    if AgreesThroughout(path, all) {
      forall i | 0 <= i <= |changes| ensures AgreesAfter(path, changes[..i]) {
        assert AgreesAfter(path, all[..i]);
      }
    }
    if AgreesThroughout(path, changes) && AgreesAfter(path, all) {
      forall i | 0 <= i <= |all| ensures AgreesAfter(path, all[..i]) {
        assert i <= |changes| ==> AgreesAfter(path, changes[..i]);
      }
    }
  }

  lemma FitsOneMore(path: string, changes: seq<KVPair>, kv: KVPair)
    ensures FitThroughout(path, changes + [kv]) <==> FitThroughout(path, changes) && FitNext(path, changes, kv)
  {
    hide FitNext;
    var all := changes + [kv];
    assert all[..|changes|] == changes && all[|changes|] == kv;
    forall i | 0 <= i < |changes| ensures all[..i] == changes[..i] && all[i] == changes[i] {
    }
    if FitThroughout(path, all) {
      forall i | 0 <= i < |changes| ensures FitNext(path, changes[..i], changes[i]) {
        assert FitNext(path, all[..i], all[i]);
      }
      assert FitNext(path, all[..|changes|], all[|changes|]);
    }
    if FitThroughout(path, changes) && FitNext(path, changes, kv) {
      forall i | 0 <= i < |all| ensures FitNext(path, all[..i], all[i]) {
        assert i < |changes| ==> FitNext(path, changes[..i], changes[i]);
      }
    }
  }

  /** From agreement, the next change keeps it exactly when it fits. */
  lemma NextAgreesIff(path: string, changes: seq<KVPair>, kv: KVPair)
    requires KeepsRouting(path, changes + [kv]) && AgreesAfter(path, changes)
    ensures AgreesAfter(path, changes + [kv]) <==> FitNext(path, changes, kv)
  {
    hide KeepsRouting, Watch, Fold, Complete, NoStale, StateOk, CanDelete, AfterModified, AfterDeleted, WelcomeWrite, AloneInPlace;
    PrefixKeepsRouting(path, changes, kv);
    NeverStale(path, changes);
    OneMoreChange(path, changes, kv);
    var live, r := LiveAfter(path, changes), CacheAfter(path, changes).value;
    if kv.key != path && kv.value.Some? {
      WriteAgreesIff(live, r, kv.key, kv.value.value);
    } else if kv.key != path && kv.key in live {
      DeleteAgreesIff(live, r, kv.key);
    }
  }

  /** Over every session in which repeated writes keep their routing, the cache agrees with
      the store after every change if and only if every change fits: each route written fits
      the nodes its tree then has, or is routed to its function already, and each
      subscription deleted has no other live one in its place. */
  lemma {:induction false} AgreesThroughoutIff(path: string, changes: seq<KVPair>)
    requires KeepsRouting(path, changes)
    ensures AgreesThroughout(path, changes) <==> FitThroughout(path, changes)
  {
    hide AgreesAfter, FitNext, KeepsRouting, AgreesThroughout, FitThroughout;
    if changes == [] {
      AgreesAtFirst(path);
    } else {
      var front, kv := changes[..|changes| - 1], changes[|changes| - 1];
      assert changes == front + [kv];
      PrefixKeepsRouting(path, front, kv);
      AgreesThroughoutIff(path, front);
      AgreesOneMore(path, front, kv);
      FitsOneMore(path, front, kv);
      if AgreesThroughout(path, front) {
        AgreesNow(path, front);
        NextAgreesIff(path, front, kv);
      }
    }
  }

  lemma AgreesAtFirst(path: string)
    ensures AgreesThroughout(path, []) && FitThroughout(path, [])
  {
  }

  lemma AgreesNow(path: string, changes: seq<KVPair>)
    requires AgreesThroughout(path, changes)
    ensures AgreesAfter(path, changes)
  {
    assert changes[..|changes|] == changes;
  }

  // ---- What agreement is worth ----

  /** A cache that agrees with the store answers a function exactly when a live subscription
      of that function matches. */
  lemma AgreeingAnswers(live: map<string, Value>, r: Routing.State, k: TreeKey, f: FunctionKey, request: string)
    requires StateOk(r) && NoStale(live, r) && Complete(live, r) && Locate(request).Some?
    ensures SyncLookup(r, k, request) == Some(f) <==>
            exists key, q :: Holds(live, key, k, q, f) && Matches(q, Locate(request).value)
  {
    hide TrieOk, Matches, Lookup;
    var p := Locate(request).value;
    if k in r.trees {
      if q :| q in Routes(r.trees[k]) && Matches(q, p) {
        MatchDecides(r.trees[k], q, p);
        assert HasOwner(live, k, q, Routes(r.trees[k])[q]);
        var key :| Holds(live, key, k, q, Routes(r.trees[k])[q]);
        assert Holds(live, key, k, q, Routes(r.trees[k])[q]) && Matches(q, p);
      } else {
        NoMatchNoAnswer(r.trees[k], p);
      }
    }
    forall key, q | Holds(live, key, k, q, f) && Matches(q, p) ensures SyncLookup(r, k, request) == Some(f) {
      assert Routed(live[key], r);
      MatchDecides(r.trees[k], q, p);
    }
  }

  lemma NoMatchNoAnswer(t: Trie, p: Path)
    requires forall q :: q in Routes(t) ==> !Matches(q, p)
    ensures Lookup(Routes(t), p) == None
  {
  }

  /** So the condition on the changes is worth exact lookups after every one of them. */
  lemma FitSessionAnswers(path: string, changes: seq<KVPair>, i: nat, k: TreeKey, f: FunctionKey, request: string)
    requires KeepsRouting(path, changes) && FitThroughout(path, changes) && i <= |changes| && Locate(request).Some?
    ensures CacheAfter(path, changes[..i]).Some?
    ensures SyncLookup(CacheAfter(path, changes[..i]).value, k, request) == Some(f) <==>
            exists key, q :: Holds(LiveAfter(path, changes[..i]), key, k, q, f) && Matches(q, Locate(request).value)
  {
    hide FitThroughout, Complete, NoStale, StateOk, Matches, Holds, Watch, Fold, SyncLookup;
    AgreesThroughoutIff(path, changes);
    assert AgreesAfter(path, changes[..i]);
    assert KeepsRouting(path, changes[..i]) by { FrontKeepsRouting(path, changes, i); }
    NeverStale(path, changes[..i]);
    AgreeingAnswers(LiveAfter(path, changes[..i]), CacheAfter(path, changes[..i]).value, k, f, request);
  }

  lemma FrontKeepsRouting(path: string, changes: seq<KVPair>, i: nat)
    requires KeepsRouting(path, changes) && i <= |changes|
    ensures KeepsRouting(path, changes[..i])
  {
    forall j | 0 <= j < i ensures WriteKeepsRouting(path, LiveAfter(path, changes[..i][..j]), changes[..i][j]) {
      assert changes[..i][..j] == changes[..j];
    }
  }
}
