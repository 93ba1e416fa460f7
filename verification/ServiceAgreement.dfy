/** Exactly when the subscription cache agrees with what the service stores: sync trees and
    async lists after runs of the service. */
module ServiceAgreement {
  import opened Wrappers
  import opened Entities
  import opened Strings
  import opened Patterns
  import opened RouteTrie
  import opened Routing
  import opened Catalog
  import opened ServiceModel
  import opened Store
  import opened ServiceFeed
  import opened Watcher
  import opened Session
  import opened ExactAgreement
  import opened AsyncLists
  import opened ServiceSession

  ghost predicate AllOk(ops: seq<Op>) {
    forall i :: 0 <= i < |ops| ==> OpOk(ops[i])
  }

  // ---- Sync trees ----

  /** Over every run of the service the cache agrees with the store after every change if and
      only if every change fits. */
  lemma ServiceAgreesIff(r: Roots, ops: seq<Op>)
    requires RootsApart(r) && AllOk(ops)
    ensures var changes := Below(r.subscriptions, RunFeed(r, ops));
            AgreesThroughout(r.subscriptions, changes) <==> FitThroughout(r.subscriptions, changes)
  {
    hide AgreesThroughout, FitThroughout, KeepsRouting;
    SubscriptionsReflected(r, ops);
    AgreesThroughoutIff(r.subscriptions, Below(r.subscriptions, RunFeed(r, ops)));
  }

  /** And a deletion fits exactly when no other stored sync subscription has the same method,
      event type and path; one that has is of another space. */
  lemma DeletionFitsIff(root: string, live: map<string, Value>, c: Catalog, k: string)
    requires CatalogOk(c) && Reflects(root, live, SubscriptionValues(c.subscriptions)) && k in c.subscriptions
    ensures root + k in live
    ensures AloneInPlace(live, root + k) <==> forall l :: l in c.subscriptions && l != k ==> !SameSpot(c.subscriptions[l], c.subscriptions[k])
    ensures forall l :: l in c.subscriptions && l != k && SameSpot(c.subscriptions[l], c.subscriptions[k]) ==>
              c.subscriptions[l].space != c.subscriptions[k].space
  {
    hide CatalogOk, Reflects, SamePlace, SameSpot;
    var subs := c.subscriptions;
    ReflectsHas(root, live, SubscriptionValues(subs), k);
    forall l | l in subs ensures root + l in live && live[root + l] == SubscriptionValue(subs[l]) {
      ReflectsHas(root, live, SubscriptionValues(subs), l);
    }
    forall l | l in subs ensures SamePlace(SubscriptionValue(subs[l]), SubscriptionValue(subs[k])) <==> SameSpot(subs[l], subs[k]) {
      PlaceIsSpot(c, l, k);
    }
    forall full | full in live ensures |root| <= |full| && full[|root|..] in subs && full == root + full[|root|..] {
      ReflectsOnly(root, live, SubscriptionValues(subs), full);
    }
    if AloneInPlace(live, root + k) {
      forall l | l in subs && l != k ensures !SameSpot(subs[l], subs[k]) {
        RootPlusDiffers(root, l, k);
      }
    }
    forall l | l in subs && l != k && SameSpot(subs[l], subs[k]) ensures subs[l].space != subs[k].space {
      SpotsDiffer(c, l, k);
    }
  }

  predicate SameSpot(s: Subscription, t: Subscription) {
    s.kind == TYPE_SYNC && t.kind == TYPE_SYNC && s.httpMethod == t.httpMethod && s.eventType == t.eventType && s.path == t.path
  }

  lemma ReflectsOnly(root: string, live: map<string, Value>, values: map<string, Value>, full: string)
    requires Reflects(root, live, values) && full in live
    ensures full[..|root|] == root && full[|root|..] in values && full == root + full[|root|..]
  {
  }

  lemma RootPlusDiffers(root: string, k: string, l: string)
    requires k != l
    ensures root + k != root + l
  {
    FullKeyTrims(root, k);
    FullKeyTrims(root, l);
  }

  /** Absolute paths in one place are the same path. */
  lemma PlaceIsSpot(c: Catalog, k: string, l: string)
    requires CatalogOk(c) && k in c.subscriptions && l in c.subscriptions
    ensures SamePlace(SubscriptionValue(c.subscriptions[k]), SubscriptionValue(c.subscriptions[l])) <==> SameSpot(c.subscriptions[k], c.subscriptions[l])
  {
    hide Locate, FunctionsOk, EventTypesOk, PathsOk, SubscriptionID;
    var s, t := c.subscriptions[k], c.subscriptions[l];
    assert ServiceModel.Filed(k, s, c.eventTypes, c.functions) && ServiceModel.Filed(l, t, c.eventTypes, c.functions);
    LocateRenders(s.path);
    LocateRenders(t.path);
    if Locate(s.path) == Locate(t.path) {
      LocateInjective(s.path, t.path);
    }
  }

  lemma SpotsDiffer(c: Catalog, k: string, l: string)
    requires CatalogOk(c) && k in c.subscriptions && l in c.subscriptions && k != l && SameSpot(c.subscriptions[k], c.subscriptions[l])
    ensures c.subscriptions[k].space != c.subscriptions[l].space
  {
    hide CatalogOk;
    if c.subscriptions[k].space == c.subscriptions[l].space {
      OnePerRoute(c, k, l);
    }
  }

  // ---- Async lists ----

  /** Stored subscriptions file a function at most once in one list. */
  lemma StoredOneKeyEach(root: string, live: map<string, Value>, c: Catalog)
    requires CatalogOk(c) && Reflects(root, live, SubscriptionValues(c.subscriptions))
    ensures OneKeyEach(live)
  {
    hide CatalogOk, Reflects;
    var subs := c.subscriptions;
    forall full, full', lk | full in live && full' in live && full != full'
      ensures Entry(live[full], lk) == [] || Entry(live[full], lk) != Entry(live[full'], lk)
    {
      ReflectsOnly(root, live, SubscriptionValues(subs), full);
      ReflectsOnly(root, live, SubscriptionValues(subs), full');
      var k, l := full[|root|..], full'[|root|..];
      ReflectsHas(root, live, SubscriptionValues(subs), k);
      ReflectsHas(root, live, SubscriptionValues(subs), l);
      EntriesDiffer(c, k, l, lk);
    }
  }

  lemma EntriesDiffer(c: Catalog, k: string, l: string, lk: ListKey)
    requires CatalogOk(c) && k in c.subscriptions && l in c.subscriptions && k != l
    ensures var v, w := SubscriptionValue(c.subscriptions[k]), SubscriptionValue(c.subscriptions[l]);
            Entry(v, lk) == [] || Entry(v, lk) != Entry(w, lk)
  {
    hide FunctionsOk, EventTypesOk, PathsOk, SubscriptionID;
    var s, t := c.subscriptions[k], c.subscriptions[l];
    assert ServiceModel.Filed(k, s, c.eventTypes, c.functions) && ServiceModel.Filed(l, t, c.eventTypes, c.functions);
    if Entry(SubscriptionValue(s), lk) != [] && Entry(SubscriptionValue(s), lk) == Entry(SubscriptionValue(t), lk) {
      assert [s.Callee()][0] == [t.Callee()][0];
      OnePerRoute(c, k, l);
    }
  }

  /** An async subscription of the function is stored for the list. */
  ghost predicate Subscribes(subs: map<string, Subscription>, lk: ListKey, f: FunctionKey) {
    exists k :: k in subs && Files(SubscriptionValue(subs[k]), lk, f)
  }

  lemma FiledIffSubscribed(root: string, live: map<string, Value>, subs: map<string, Subscription>, lk: ListKey, f: FunctionKey)
    requires Reflects(root, live, SubscriptionValues(subs))
    ensures AsyncLists.Filed(live, lk, f) != {} <==> Subscribes(subs, lk, f)
  {
    hide Reflects, Files;
    if full :| full in AsyncLists.Filed(live, lk, f) {
      ReflectsOnly(root, live, SubscriptionValues(subs), full);
      var k := full[|root|..];
      ReflectsHas(root, live, SubscriptionValues(subs), k);
      assert Files(SubscriptionValue(subs[k]), lk, f);
    }
    if Subscribes(subs, lk, f) {
      var k :| k in subs && Files(SubscriptionValue(subs[k]), lk, f);
      ReflectsHas(root, live, SubscriptionValues(subs), k);
      assert root + k in AsyncLists.Filed(live, lk, f);
    }
  }

  /** After every run of the service a list holds a function once if an async subscription of
      it is stored there, and once more for every update of one while it was stored: so the
      lists agree with the store if and only if there was no such update. */
  lemma ServiceListsExact(r: Roots, ops: seq<Op>, lk: ListKey, f: FunctionKey)
    requires RootsApart(r) && AllOk(ops) && CacheAfter(r.subscriptions, Below(r.subscriptions, RunFeed(r, ops))).Some?
    ensures var changes := Below(r.subscriptions, RunFeed(r, ops));
            Multiplicity(CacheAfter(r.subscriptions, changes).value, lk, f) ==
            (if Subscribes(Run(ops).subscriptions, lk, f) then 1 else 0) + Rewrites(r.subscriptions, changes, lk, f)
  {
    hide CatalogOk, Reflects, KeepsRouting, Watch, Session.Fold, Multiplicity, OneKeyEach, Below, RunFeed, Run, Subscribes, Rewrites, RootsApart;
    var root := r.subscriptions;
    var changes := Below(root, RunFeed(r, ops));
    var live := LiveAfter(root, changes);
    SubscriptionsReflected(r, ops);
    RunKeepsOk(ops);
    StoredOneKeyEach(root, live, Run(ops));
    FiledIffSubscribed(root, live, Run(ops).subscriptions, lk, f);
    FiledOnce(live, lk, f);
    MultiplicityExact(root, changes, lk, f);
  }

  ghost predicate NoUpdate(ops: seq<Op>) {
    forall i :: 0 <= i < |ops| ==> OpOk(ops[i]) && !ops[i].UpdateSubscription?
  }

  /** A creation writes a key that holds nothing. */
  lemma CreationIsFresh(r: Roots, c: Catalog, op: Op, k: string, live: map<string, Value>)
    requires CatalogOk(c) && RootsApart(r) && !op.UpdateSubscription? && Reflects(r.subscriptions, live, SubscriptionValues(c.subscriptions))
    requires |Emits(r, c, op)| == 1 && HasPrefix(Emits(r, c, op)[0].key, r.subscriptions)
    requires Emits(r, c, op)[0].key == r.subscriptions + k
    ensures FreshWrite(live, Emits(r, c, op)[0])
  {
    hide CatalogOk, Apart, SubscriptionID, NormalSubscription, NormalFunction, NormalEventType, PathFree, Reflects, AuthorizerExists;
    EmitsBelow(r, c, op);
    SharedPrefix(RootOf(r, op), r.subscriptions, Emits(r, c, op)[0].key);
    if op.CreateSubscription? && r.subscriptions + k in live {
      FullKeyTrims(r.subscriptions, k);
      ReflectsOnly(r.subscriptions, live, SubscriptionValues(c.subscriptions), r.subscriptions + k);
      var s := WithID(NormalSubscription(op.sub));
      FullKeyTrims(r.subscriptions, Key(s.space, s.id));
    }
  }

  lemma {:induction false} CreationsAreFresh(r: Roots, ops: seq<Op>)
    requires RootsApart(r) && NoUpdate(ops)
    ensures var changes := Below(r.subscriptions, RunFeed(r, ops));
            OncePerLifetime(r.subscriptions, changes) && OneKeyThroughout(r.subscriptions, changes)
  {
    hide CatalogOk, Apply, Emits, OncePerLifetime, OneKeyThroughout, OneKeyEach, Watch, RootsApart, Reflects, Below, FreshWrite, SubscriptionValues, KeepsRouting;
    if ops == [] {
      FreshAtFirst(r.subscriptions);
      assert Below(r.subscriptions, RunFeed(r, ops)) == [] by { NothingBelow(r.subscriptions); }
    } else {
      var front, op := ops[..|ops| - 1], ops[|ops| - 1];
      var c, root, feed := Run(front), r.subscriptions, RunFeed(r, front);
      CreationsAreFresh(r, front);
      RunKeepsOk(front);
      RunKeepsOk(ops);
      SubscriptionsReflected(r, front);
      SubscriptionsReflected(r, ops);
      var changes, emitted := Below(root, feed), Emits(r, c, op);
      EmitsBelow(r, c, op);
      BelowEmits(root, feed, emitted);
      if |emitted| == 1 && HasPrefix(emitted[0].key, root) {
        assert emitted == [emitted[0]];
        var k := emitted[0].key[|root|..];
        CreationIsFresh(r, c, op, k, LiveAfter(root, changes));
        OnceOneMore(root, changes, emitted[0]);
        OneKeyOneMore(root, changes, emitted[0]);
        StoredOneKeyEach(root, LiveAfter(root, changes + [emitted[0]]), Run(ops));
      } else {
        assert changes + [] == changes;
      }
    }
  }

  lemma NothingBelow(root: string)
    ensures Below(root, []) == []
  {
  }

  lemma FreshAtFirst(path: string)
    ensures OncePerLifetime(path, []) && OneKeyThroughout(path, [])
  {
  }

  /** As long as the service updates no subscription, the list of every method, path and event
      type is exactly the stored async subscriptions' functions, in the order in which they
      were created. */
  lemma ServiceListsInOrder(r: Roots, ops: seq<Op>, lk: ListKey)
    requires RootsApart(r) && NoUpdate(ops) && CacheAfter(r.subscriptions, Below(r.subscriptions, RunFeed(r, ops))).Some?
    ensures var changes := Below(r.subscriptions, RunFeed(r, ops));
            && InOrder(Arrivals(r.subscriptions, changes), LiveAfter(r.subscriptions, changes), CacheAfter(r.subscriptions, changes).value, lk)
            && Reflects(r.subscriptions, LiveAfter(r.subscriptions, changes), SubscriptionValues(Run(ops).subscriptions))
  {
    hide OncePerLifetime, OneKeyThroughout, InOrder, Reflects, KeepsRouting;
    CreationsAreFresh(r, ops);
    SubscriptionsReflected(r, ops);
    ListsInArrivalOrder(r.subscriptions, Below(r.subscriptions, RunFeed(r, ops)), lk);
  }
}
