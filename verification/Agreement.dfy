/** When the cache's sync lookups agree with the store after every change. */
module Agreement {
  import opened Wrappers
  import opened Entities
  import opened Patterns
  import opened RouteTrie
  import opened RouteTable
  import opened Routing
  import opened Watcher
  import opened Session

  /** A sync subscription seen under a key, by its tree and its pattern. */
  datatype Sighting = Sighting(key: string, k: TreeKey, p: Path)

  ghost function SightingOf(key: string, v: Value): set<Sighting> {
    if IsRoute(v) then {Sighting(key, TreeKeyOf(v.sub), Locate(v.sub.path).value)} else {}
  }

  ghost function SightingsOf(path: string, kv: KVPair): set<Sighting> {
    if kv.key != path && kv.value.Some? then SightingOf(kv.key, kv.value.value) else {}
  }

  /** All sync subscriptions ever seen, deleted ones included. */
  ghost function Seen(path: string, changes: seq<KVPair>): set<Sighting> {
    if changes == [] then {} else Seen(path, changes[..|changes| - 1]) + SightingsOf(path, changes[|changes| - 1])
  }

  /** The patterns ever seen in one tree are well-formed and pairwise compatible, except
      that one key may come back with the same pattern. */
  ghost predicate SeenOk(seen: set<Sighting>) {
    && (forall a :: a in seen ==> WellFormed(a.p))
    && (forall a, b :: a in seen && b in seen && a.k == b.k ==> a == b || Compatible(a.p, b.p))
  }

  ghost predicate LeadsToSighting(seen: set<Sighting>, k: TreeKey, n: Path) {
    exists a :: a in seen && a.k == k && n <= a.p
  }

  /** Every node of a tree was made for a pattern seen there, and wildcards hold values. */
  ghost predicate NodesSeen(seen: set<Sighting>, k: TreeKey, t: Trie) {
    && (forall n {:trigger LeadsToSighting(seen, k, n)} :: n in t && n != [] ==> LeadsToSighting(seen, k, n))
    && (forall n :: n in t && EndsInWildcard(n) ==> t[n].Some?)
  }

  ghost predicate LiveSeen(seen: set<Sighting>, live: map<string, Value>) {
    forall key :: key in live ==> SightingOf(key, live[key]) <= seen
  }

  ghost predicate Agreeing(seen: set<Sighting>, live: map<string, Value>, r: Routing.State) {
    && StateOk(r) && NoStale(live, r) && Complete(live, r) && LiveSeen(seen, live)
    && (forall k :: k in r.trees ==> NodesSeen(seen, k, r.trees[k]))
  }

  lemma CompatibleWithNode(seen: set<Sighting>, k: TreeKey, t: Trie, a: Sighting, n: Path)
    requires SeenOk(seen) && a in seen && a.k == k && NodesSeen(seen, k, t) && n in t && n != a.p
    ensures Compatible(a.p, n)
  {
    if n != [] {
      assert LeadsToSighting(seen, k, n);
      var b :| b in seen && b.k == k && n <= b.p;
      if a != b {
        CompatibleWithPrefix(a.p, b.p, n);
      }
    }
  }

  /** A pattern compatible with all others seen is accepted unless it is registered. */
  lemma SeenIsAccepted(seen: set<Sighting>, t: Trie, a: Sighting)
    requires TrieOk(t) && SeenOk(seen) && a in seen && NodesSeen(seen, a.k, t) && a.p !in Routes(t)
    ensures AddErrorOf(t, a.p).None?
  {
    hide Compatible, TrieOk, AddErrorOf;
    forall n | n in t && n != a.p ensures Compatible(a.p, n) {
      CompatibleWithNode(seen, a.k, t, a, n);
    }
    AcceptedIffFits(t, a.p);
  }

  lemma ProperPrefixNoWildcard(p: Path, n: Path)
    requires WellFormed(p) && n <= p
    ensures n == p || !EndsInWildcard(n)
  {
    if n != [] && |n| < |p| {
      assert n[|n| - 1] == p[|n| - 1];
    }
  }

  lemma AddedNodesSeen(seen: set<Sighting>, t: Trie, a: Sighting, f: FunctionKey)
    requires TrieOk(t) && a in seen && NodesSeen(seen, a.k, t) && WellFormed(a.p)
    ensures NodesSeen(seen, a.k, Added(t, a.p, f))
  {
    var t' := Added(t, a.p, f);
    if AddErrorOf(t, a.p).None? {
      forall n | n in t' && n != [] ensures LeadsToSighting(seen, a.k, n) {
        InPrefixes(n, a.p);
        if n in t {
          assert LeadsToSighting(seen, a.k, n);
        }
      }
      forall n | n in t' && EndsInWildcard(n) ensures t'[n].Some? {
        InPrefixes(n, a.p);
        if n <= a.p {
          ProperPrefixNoWildcard(a.p, n);
        }
      }
    }
  }

  lemma RemovedNodesSeen(seen: set<Sighting>, k: TreeKey, t: Trie, p: Path)
    requires TrieOk(t) && NodesSeen(seen, k, t)
    ensures NodesSeen(seen, k, Removed(t, p))
  {
    forall n | n in Removed(t, p) && n != [] ensures LeadsToSighting(seen, k, n) {
      assert n in t;
    }
  }

  lemma MoreSeen(seen: set<Sighting>, more: set<Sighting>, k: TreeKey, t: Trie)
    requires NodesSeen(seen, k, t) && seen <= more
    ensures NodesSeen(more, k, t)
  {
    forall n | n in t && n != [] ensures LeadsToSighting(more, k, n) {
      assert LeadsToSighting(seen, k, n);
    }
  }

  /** A registered route of the pattern just written belongs to the same key. */
  lemma OwnRoute(seen: set<Sighting>, live: map<string, Value>, r: Routing.State, a: Sighting)
    requires SeenOk(seen) && NoStale(live, r) && LiveSeen(seen, live) && a in seen
    requires a.k in r.trees && a.p in Routes(r.trees[a.k])
    ensures Holds(live, a.key, a.k, a.p, Routes(r.trees[a.k])[a.p])
  {
    var f := Routes(r.trees[a.k])[a.p];
    assert HasOwner(live, a.k, a.p, f);
    var owner :| Holds(live, owner, a.k, a.p, f);
    assert SightingOf(owner, live[owner]) == {Sighting(owner, a.k, a.p)};
    NeverCompatibleWithItself(a.p);
  }

  /** After a write of a sync subscription its route is registered, whether it was already
      or not. */
  lemma RegisteredAfterWrite(seen: set<Sighting>, live: map<string, Value>, r: Routing.State, a: Sighting, v: Value)
    requires SeenOk(seen) && a in seen && StateOk(r) && NoStale(live, r) && LiveSeen(seen, live)
    requires NodesSeen(seen, a.k, TreeAt(r.trees, a.k))
    requires v.SubscriptionValue? && v.sub.kind == TYPE_SYNC && TreeKeyOf(v.sub) == a.k && Locate(v.sub.path) == Some(a.p)
    requires a.key in live && live[a.key].SubscriptionValue? ==> SameRouting(live[a.key], v)
    ensures Routes(Added(TreeAt(r.trees, a.k), a.p, v.sub.Callee())) == Routes(TreeAt(r.trees, a.k))[a.p := v.sub.Callee()]
  {
    hide TrieOk, Added, AddErrorOf, NoStale, NodesSeen, SeenOk, LiveSeen;
    var t := TreeAt(r.trees, a.k);
    assert TrieOk(t) by { EmptyOk(); }
    AddedInTable(t, a.p, v.sub.Callee());
    if a.p in Routes(t) {
      OwnRoute(seen, live, r, a);
      assert Routes(t)[a.p] == v.sub.Callee();
      assert Routes(t)[a.p := v.sub.Callee()] == Routes(t);
    } else {
      SeenIsAccepted(seen, t, a);
    }
  }

  lemma EmptyOk()
    ensures TrieOk(Empty()) && Routes(Empty()) == map[] && forall seen, k :: NodesSeen(seen, k, Empty())
  {
  }

  /** The tree of a written subscription keeps all its other routes, so whatever else is
      routed stays so. */
  lemma OthersStayRouted(r: Routing.State, a: Sighting, f: FunctionKey, t: Trie, v: Value)
    requires Routes(t) == Routes(TreeAt(r.trees, a.k))[a.p := f]
    requires Routed(v, r) && (IsRoute(v) ==> Sighting(a.key, TreeKeyOf(v.sub), Locate(v.sub.path).value) != a || v.sub.Callee() == f)
    ensures Routed(v, r.(trees := r.trees[a.k := t]))
  {
  }

  /** A write keeps the agreement. */
  lemma WriteKeepsAgreeing(seen: set<Sighting>, live: map<string, Value>, r: Routing.State, path: string, kv: KVPair)
    requires kv.key != path && kv.value.Some? && Agreeing(seen, live, r)
    requires SeenOk(seen + SightingsOf(path, kv)) && WriteKeepsRouting(path, live, kv)
    ensures Agreeing(seen + SightingsOf(path, kv), live[kv.key := kv.value.value], AfterModified(r, kv.value.value))
  {
    hide TrieOk, Added, AddErrorOf, NodesSeen, SeenOk, Compatible, Routes, Removed, NoStale, StateOk, Complete, IsRoute;
    var v, seen' := kv.value.value, seen + SightingsOf(path, kv);
    ModifiedKeepsOk(r, v);
    ModifiedKeepsNoStale(live, r, kv.key, v);
    assert LiveSeen(seen', live[kv.key := v]);
    WriteNodesSeen(seen, live, r, path, kv);
    WriteKeepsComplete(seen, live, r, path, kv);
  }

  lemma WriteNodesSeen(seen: set<Sighting>, live: map<string, Value>, r: Routing.State, path: string, kv: KVPair)
    requires kv.key != path && kv.value.Some? && Agreeing(seen, live, r) && SeenOk(seen + SightingsOf(path, kv))
    ensures forall k :: k in AfterModified(r, kv.value.value).trees ==>
              NodesSeen(seen + SightingsOf(path, kv), k, AfterModified(r, kv.value.value).trees[k])
  {
    hide TrieOk, Added, AddErrorOf, NodesSeen, Compatible, Routes, Removed, NoStale, Complete, LiveSeen;
    var v, seen' := kv.value.value, seen + SightingsOf(path, kv);
    var r' := AfterModified(r, v);
    EmptyOk();
    forall k | k in r'.trees ensures NodesSeen(seen', k, r'.trees[k]) {
      if k in r.trees {
        MoreSeen(seen, seen', k, r.trees[k]);
      }
      if IsRoute(v) && k == TreeKeyOf(v.sub) {
        AddedNodesSeen(seen', TreeAt(r.trees, k), Sighting(kv.key, k, Locate(v.sub.path).value), v.sub.Callee());
      }
    }
  }

  lemma WriteKeepsComplete(seen: set<Sighting>, live: map<string, Value>, r: Routing.State, path: string, kv: KVPair)
    requires kv.key != path && kv.value.Some? && Agreeing(seen, live, r)
    requires SeenOk(seen + SightingsOf(path, kv)) && WriteKeepsRouting(path, live, kv)
    ensures Complete(live[kv.key := kv.value.value], AfterModified(r, kv.value.value))
  {
    hide TrieOk, Added, AddErrorOf, NodesSeen, Compatible, Routes, Removed, NoStale;
    var v, seen' := kv.value.value, seen + SightingsOf(path, kv);
    var r', live' := AfterModified(r, v), live[kv.key := v];
    if IsRoute(v) {
      var a := Sighting(kv.key, TreeKeyOf(v.sub), Locate(v.sub.path).value);
      EmptyOk();
      if a.k in r.trees {
        MoreSeen(seen, seen', a.k, r.trees[a.k]);
      }
      RegisteredAfterWrite(seen', live, r, a, v);
      forall key | key in live' ensures Routed(live'[key], r') {
        if key != kv.key {
          if IsRoute(live[key]) {
            var b := Sighting(key, TreeKeyOf(live[key].sub), Locate(live[key].sub.path).value);
            assert b in seen' && (b.k == a.k ==> Compatible(a.p, b.p));
            NeverCompatibleWithItself(a.p);
          }
          OthersStayRouted(r, a, v.sub.Callee(), Added(TreeAt(r.trees, a.k), a.p, v.sub.Callee()), live[key]);
        }
      }
    } else {
      assert r'.trees.Keys >= r.trees.Keys;
    }
  }

  /** A deletion of a stored value is safe and keeps the agreement. */
  lemma DeleteKeepsAgreeing(seen: set<Sighting>, live: map<string, Value>, r: Routing.State, key: string)
    requires SeenOk(seen) && Agreeing(seen, live, r) && key in live
    ensures CanDelete(r, live[key])
    ensures Agreeing(seen, live - {key}, AfterDeleted(r, live[key]))
  {
    hide TrieOk, NodesSeen, SeenOk, Compatible, Routes, Removed, NoStale, StateOk, Complete;
    RouteCanGo(live, r, key);
    DeletedKeepsOk(r, live[key]);
    DeletedKeepsNoStale(live, r, key);
    DeleteNodesSeen(seen, r, live[key]);
    DeleteKeepsComplete(seen, live, r, key);
  }

  lemma RouteCanGo(live: map<string, Value>, r: Routing.State, key: string)
    requires StateOk(r) && Complete(live, r) && key in live
    ensures CanDelete(r, live[key])
  {
    if IsRoute(live[key]) {
      var k, p := TreeKeyOf(live[key].sub), Locate(live[key].sub.path).value;
      assert Routed(live[key], r);
      if p != [] {
        PrefixClosed(r.trees[k], p, Parent(p));
      }
    }
  }

  lemma DeleteNodesSeen(seen: set<Sighting>, r: Routing.State, v: Value)
    requires StateOk(r) && forall k :: k in r.trees ==> NodesSeen(seen, k, r.trees[k])
    ensures forall k :: k in AfterDeleted(r, v).trees ==> NodesSeen(seen, k, AfterDeleted(r, v).trees[k])
  {
    hide NodesSeen, Removed;
    if IsRoute(v) && TreeKeyOf(v.sub) in r.trees {
      RemovedNodesSeen(seen, TreeKeyOf(v.sub), r.trees[TreeKeyOf(v.sub)], Locate(v.sub.path).value);
    }
  }

  lemma DeleteKeepsComplete(seen: set<Sighting>, live: map<string, Value>, r: Routing.State, key: string)
    requires SeenOk(seen) && StateOk(r) && Complete(live, r) && LiveSeen(seen, live) && key in live
    ensures Complete(live - {key}, AfterDeleted(r, live[key]))
  {
    hide TrieOk, Compatible, Routes, Removed;
    var v := live[key];
    var r' := AfterDeleted(r, v);
    if IsRoute(v) && TreeKeyOf(v.sub) in r.trees {
      var a := Sighting(key, TreeKeyOf(v.sub), Locate(v.sub.path).value);
      WithoutRouteInTable(r.trees[a.k], v.sub.path);
      forall other | other in live - {key} ensures Routed(live[other], r') {
        if IsRoute(live[other]) {
          var b := Sighting(other, TreeKeyOf(live[other].sub), Locate(live[other].sub.path).value);
          assert SightingOf(other, live[other]) == {b} && SightingOf(key, v) == {a};
          assert b in seen && a in seen && a != b;
          NeverCompatibleWithItself(a.p);
        }
      }
    }
  }

  lemma {:induction false} SeenGrows(path: string, changes: seq<KVPair>, kv: KVPair)
    ensures Seen(path, changes + [kv]) == Seen(path, changes) + SightingsOf(path, kv)
  {
    assert (changes + [kv])[..|changes|] == changes;
  }

  /** Along a session whose patterns are compatible and whose writes keep the routing, the
      cache never loses its footing and agrees with the store after every change. */
  lemma {:induction false} StaysAgreeing(path: string, changes: seq<KVPair>)
    requires KeepsRouting(path, changes) && SeenOk(Seen(path, changes))
    ensures CacheAfter(path, changes).Some?
    ensures Agreeing(Seen(path, changes), LiveAfter(path, changes), CacheAfter(path, changes).value)
  {
    hide Agreeing, SeenOk, KeepsRouting, CanDelete, AfterModified, AfterDeleted, WriteKeepsRouting, SightingsOf;
    if changes == [] {
      StartsAgreeing();
    } else {
      var front, kv := changes[..|changes| - 1], changes[|changes| - 1];
      assert changes == front + [kv];
      PrefixKeepsRouting(path, front, kv);
      SeenGrows(path, front, kv);
      FewerSeen(Seen(path, front), Seen(path, changes));
      StaysAgreeing(path, front);
      OneMoreChange(path, front, kv);
      var live, r := LiveAfter(path, front), CacheAfter(path, front).value;
      if kv.key == path || (kv.value.None? && kv.key !in live) {
        NothingSeen(path, kv);
        assert Seen(path, changes) == Seen(path, front);
      } else if kv.value.Some? {
        WriteKeepsAgreeing(Seen(path, front), live, r, path, kv);
      } else {
        NothingSeen(path, kv);
        assert Seen(path, changes) == Seen(path, front);
        DeleteKeepsAgreeing(Seen(path, front), live, r, kv.key);
      }
    }
  }

  lemma StartsAgreeing()
    ensures Agreeing({}, map[], Routing.State(map[], map[]))
  {
  }

  lemma FewerSeen(seen: set<Sighting>, more: set<Sighting>)
    requires SeenOk(more) && seen <= more
    ensures SeenOk(seen)
  {
  }

  lemma NothingSeen(path: string, kv: KVPair)
    requires kv.key == path || kv.value.None?
    ensures SightingsOf(path, kv) == {}
  {
  }

  /** After every change of such a session a sync lookup returns exactly the function of
      the live subscription whose pattern matches, of which there is at most one, and
      nothing when there is none. */
  lemma LookupsAgree(path: string, changes: seq<KVPair>, k: TreeKey, request: string)
    requires KeepsRouting(path, changes) && SeenOk(Seen(path, changes))
    requires Locate(request).Some?
    ensures CacheAfter(path, changes).Some?
    ensures var live, found, p := LiveAfter(path, changes), SyncLookup(CacheAfter(path, changes).value, k, request), Locate(request).value;
            && (forall key, q, f :: Holds(live, key, k, q, f) && Matches(q, p) ==> found == Some(f))
            && ((forall key, q, f :: Holds(live, key, k, q, f) ==> !Matches(q, p)) ==> found == None)
            && (forall key, key', q, q', f, f' ::
                  Holds(live, key, k, q, f) && Holds(live, key', k, q', f') && Matches(q, p) && Matches(q', p) ==> key == key')
  {
    StaysAgreeing(path, changes);
    var seen, live, r, p := Seen(path, changes), LiveAfter(path, changes), CacheAfter(path, changes).value, Locate(request).value;
    forall key, q, f | Holds(live, key, k, q, f) && Matches(q, p)
      ensures SyncLookup(r, k, request) == Some(f)
    {
      assert Routed(live[key], r);
      MatchDecides(r.trees[k], q, p);
    }
    forall key, key', q, q', f, f' | Holds(live, key, k, q, f) && Holds(live, key', k, q', f') && Matches(q, p) && Matches(q', p)
      ensures key == key'
    {
      assert SightingOf(key, live[key]) == {Sighting(key, k, q)} && SightingOf(key', live[key']) == {Sighting(key', k, q')};
      if Sighting(key, k, q) != Sighting(key', k, q') {
        CompatibleDisjoint(q, q', p);
      }
    }
    if SyncLookup(r, k, request).Some? {
      var q :| q in Routes(r.trees[k]) && Matches(q, p);
      assert HasOwner(live, k, q, Routes(r.trees[k])[q]);
    }
  }
}
