/** The configuration service over the shared store. Calls are sequential and the store
    itself does not fail. */
module Service {
  import opened Wrappers
  import opened Entities
  import opened Strings
  import opened Patterns
  import opened RouteTrie
  import opened RouteTable
  import opened PathTree
  import opened Codec
  import opened Catalog
  import opened ServiceModel
  import opened ServiceFeed
  import opened Store
  import opened Watcher
  import opened PathConflicts
  import opened Acceptance

  /** What an operation answers: its value, or the error of the specification. */
  ghost predicate Answers<T>(r: Result<T, ServiceError>, err: Option<ServiceError>, value: T) {
    r == match err { case Some(e) => Err(e) case None => Ok(value) }
  }

  function DecodedSubscriptions(kvs: seq<Pair>): seq<Subscription> {
    if kvs == [] then []
    else
      var v := kvs[|kvs| - 1].1;
      DecodedSubscriptions(kvs[..|kvs| - 1]) + if v.SubscriptionValue? then [v.sub] else []
  }

  function DecodedEventTypes(kvs: seq<Pair>): seq<EventType> {
    if kvs == [] then []
    else
      var v := kvs[|kvs| - 1].1;
      DecodedEventTypes(kvs[..|kvs| - 1]) + if v.EventTypeValue? then [v.et] else []
  }

  lemma {:induction false} SubscriptionDecoded(kvs: seq<Pair>, s: Subscription)
    ensures s in DecodedSubscriptions(kvs) <==> exists j :: 0 <= j < |kvs| && kvs[j].1 == SubscriptionValue(s)
  {
    if kvs != [] {
      var front := kvs[..|kvs| - 1];
      SubscriptionDecoded(front, s);
      if s in DecodedSubscriptions(front) {
        var j :| 0 <= j < |front| && front[j].1 == SubscriptionValue(s);
        assert kvs[j].1 == SubscriptionValue(s);
      } else if exists j :: 0 <= j < |kvs| && kvs[j].1 == SubscriptionValue(s) {
        var j :| 0 <= j < |kvs| && kvs[j].1 == SubscriptionValue(s);
        assert j < |front| ==> front[j].1 == SubscriptionValue(s);
      }
    }
  }

  lemma {:induction false} EventTypeDecoded(kvs: seq<Pair>, t: EventType)
    ensures t in DecodedEventTypes(kvs) <==> exists j :: 0 <= j < |kvs| && kvs[j].1 == EventTypeValue(t)
  {
    if kvs != [] {
      var front := kvs[..|kvs| - 1];
      EventTypeDecoded(front, t);
      if t in DecodedEventTypes(front) {
        var j :| 0 <= j < |front| && front[j].1 == EventTypeValue(t);
        assert kvs[j].1 == EventTypeValue(t);
      } else if exists j :: 0 <= j < |kvs| && kvs[j].1 == EventTypeValue(t) {
        var j :| 0 <= j < |kvs| && kvs[j].1 == EventTypeValue(t);
        assert j < |front| ==> front[j].1 == EventTypeValue(t);
      }
    }
  }

  /** Each entity is listed under its own key. */
  ghost predicate OwnKeys(kvs: seq<Pair>) {
    forall j :: 0 <= j < |kvs| ==>
      && (kvs[j].1.SubscriptionValue? ==> kvs[j].0 == Key(kvs[j].1.sub.space, kvs[j].1.sub.id))
      && (kvs[j].1.EventTypeValue? ==> kvs[j].0 == EventTypeKeyOf(kvs[j].1.et))
  }

  ghost predicate NoneTwice<T>(items: seq<T>) {
    forall i, j :: 0 <= i < j < |items| ==> items[i] != items[j]
  }

  lemma {:induction false} DecodedOnce(kvs: seq<Pair>)
    requires DistinctKeys(kvs) && OwnKeys(kvs)
    ensures NoneTwice(DecodedSubscriptions(kvs)) && NoneTwice(DecodedEventTypes(kvs))
  {
    if kvs != [] {
      var front, v := kvs[..|kvs| - 1], kvs[|kvs| - 1].1;
      DecodedOnce(front);
      if v.SubscriptionValue? {
        SubscriptionDecoded(front, v.sub);
        assert v.sub !in DecodedSubscriptions(front);
      }
      if v.EventTypeValue? {
        EventTypeDecoded(front, v.et);
        assert v.et !in DecodedEventTypes(front);
      }
    }
  }

  /** The tree of the competing paths of a listing, in the listing's order, errors ignored. */
  method TreeOfListed(kvs: seq<Pair>, s: Subscription) returns (tree: Node)
    requires ListedOk(kvs, s)
    ensures tree.Valid() && fresh(tree.repr)
    ensures TrieOk(tree.Trie()) && Live(tree.Trie()) && Routes(tree.Trie()).Keys == PatternsOf(kvs, s)
  {
    hide TrieOk, Live, Routes, Added, AddErrorOf, Node.Valid, ListedOk, PatternsOf;
    tree := new Node();
    PatternsStart(s);
    assert kvs[..0] == [];
    for i := 0 to |kvs|
      invariant tree.Valid() && fresh(tree.repr)
      invariant TrieOk(tree.Trie()) && Live(tree.Trie()) && Routes(tree.Trie()).Keys == PatternsOf(kvs[..i], s)
    {
      var v := kvs[i].1;
      if Competing(v, s) {
        NextListed(tree.Trie(), kvs, i, s, FunctionKey(v.sub.space, ""));
        ListedHasPath(kvs, i, s);
        var _ := tree.AddRoute(v.sub.path, FunctionKey(v.sub.space, ""));
      } else {
        NextListed(tree.Trie(), kvs, i, s, FunctionKey("", ""));
      }
    }
    assert kvs[..|kvs|] == kvs;
  }

  class Service {
    const kv: KV
    const eventTypeStore: Prefixed
    const functionStore: Prefixed
    const subscriptionStore: Prefixed

    ghost function Roots(): Roots {
      ServiceFeed.Roots(functionStore.root, eventTypeStore.root, subscriptionStore.root)
    }

    ghost function Contents(): Catalog
      reads kv
    {
      CatalogOf(Roots(), kv.data)
    }

    ghost predicate Valid()
      reads kv
    {
      && eventTypeStore.kv == functionStore.kv == subscriptionStore.kv == kv
      && RootsApart(Roots()) && Typed(Roots(), kv.data) && CatalogOk(Contents())
    }

    constructor (kv: KV, eventTypes: Prefixed, functions: Prefixed, subscriptions: Prefixed)
      requires eventTypes.kv == functions.kv == subscriptions.kv == kv
      requires var r := ServiceFeed.Roots(functions.root, eventTypes.root, subscriptions.root);
               RootsApart(r) && Typed(r, kv.data) && CatalogOk(CatalogOf(r, kv.data))
      ensures Valid() && this.kv == kv
      ensures Roots() == ServiceFeed.Roots(functions.root, eventTypes.root, subscriptions.root)
    {
      this.kv, this.eventTypeStore, this.functionStore, this.subscriptionStore := kv, eventTypes, functions, subscriptions;
    }

    // ---- Functions ----

    method CreateFunction(raw: Function) returns (r: Result<Function, ServiceError>)
      requires Valid()
      modifies kv
      ensures Valid() && Contents() == Apply(old(Contents()), Op.CreateFunction(raw))
      ensures Answers(r, ErrorOf(old(Contents()), Op.CreateFunction(raw)), NormalFunction(raw))
      ensures kv.feed == old(kv.feed) + Emits(Roots(), old(Contents()), Op.CreateFunction(raw))
      ensures r.Err? ==> Contents() == old(Contents()) && kv.feed == old(kv.feed)
      ensures r.Ok? ==>
                var key := r.value.space + "/" + r.value.id;
                && FunctionKept(raw, r.value)
                && Contents() == old(Contents()).(functions := old(Contents()).functions[key := r.value])
                && kv.feed == old(kv.feed) + [KVPair(functionStore.root + key, Some(FunctionValue(r.value)))]
    {
      hide Store.View, Typed, RootsApart, CatalogOk;
      FunctionKeeps(raw);
      OpKeepsOk(Contents(), Op.CreateFunction(raw));
      var fn := NormalFunction(raw);
      if !ValidFunction(fn) {
        return Err(ValidationFailed);
      }
      HasFunction(FunctionKeyOf(fn));
      var got := functionStore.Get(FunctionKeyOf(fn));
      if got.Ok? {
        return Err(AlreadyExists);
      }
      PutFunction(Roots(), kv.data, FunctionKeyOf(fn), fn);
      var _ := functionStore.AtomicPut(FunctionKeyOf(fn), FunctionValue(fn));
      return Ok(fn);
    }

    method UpdateFunction(raw: Function) returns (r: Result<Function, ServiceError>)
      requires Valid()
      modifies kv
      ensures Valid() && Contents() == Apply(old(Contents()), Op.UpdateFunction(raw))
      ensures Answers(r, ErrorOf(old(Contents()), Op.UpdateFunction(raw)), NormalFunction(raw))
      ensures kv.feed == old(kv.feed) + Emits(Roots(), old(Contents()), Op.UpdateFunction(raw))
      ensures r.Err? ==> Contents() == old(Contents()) && kv.feed == old(kv.feed)
      ensures r.Ok? ==>
                var key := r.value.space + "/" + r.value.id;
                && FunctionKept(raw, r.value)
                && Contents() == old(Contents()).(functions := old(Contents()).functions[key := r.value])
                && kv.feed == old(kv.feed) + [KVPair(functionStore.root + key, Some(FunctionValue(r.value)))]
    {
      hide Store.View, Typed, RootsApart, CatalogOk;
      FunctionKeeps(raw);
      OpKeepsOk(Contents(), Op.UpdateFunction(raw));
      var fn := NormalFunction(raw);
      if !ValidFunction(fn) {
        return Err(ValidationFailed);
      }
      HasFunction(FunctionKeyOf(fn));
      var got := functionStore.Get(FunctionKeyOf(fn));
      if got.Err? {
        return Err(FunctionNotFound);
      }
      PutFunction(Roots(), kv.data, FunctionKeyOf(fn), fn);
      functionStore.Put(FunctionKeyOf(fn), FunctionValue(fn));
      return Ok(fn);
    }

    /** A function that is subscribed or authorizes an event type of its space stays. */
    method DeleteFunction(space: string, id: string) returns (r: Result<(), ServiceError>)
      requires Valid()
      modifies kv
      ensures Valid() && Contents() == Apply(old(Contents()), Op.DeleteFunction(space, id))
      ensures Answers(r, ErrorOf(old(Contents()), Op.DeleteFunction(space, id)), ())
      ensures kv.feed == old(kv.feed) + Emits(Roots(), old(Contents()), Op.DeleteFunction(space, id))
      ensures r.Err? ==> Contents() == old(Contents()) && kv.feed == old(kv.feed)
      ensures r.Ok? ==>
                && space + "/" + id in old(Contents()).functions
                && Contents() == old(Contents()).(functions := old(Contents()).functions - {space + "/" + id})
                && kv.feed == old(kv.feed) + [KVPair(functionStore.root + (space + "/" + id), None)]
    {
      hide Store.View, Typed, RootsApart, CatalogOk;
      ghost var op := Op.DeleteFunction(space, id);
      OpKeepsOk(Contents(), op);
      var subs := ListSubscriptions(space);
      for i := 0 to |subs|
        invariant forall s :: s in subs[..i] ==> s.functionID != id
      {
        assert subs[i] in subs && subs[..i + 1] == subs[..i] + [subs[i]];
        if id == subs[i].functionID {
          ghost var k :| k in Contents().subscriptions && InSpace(k, space) && Contents().subscriptions[k] == subs[i];
          return Err(HasSubscriptions);
        }
      }
      assert subs[..|subs|] == subs;
      assert forall k :: k in Contents().subscriptions && InSpace(k, space) ==> Contents().subscriptions[k] in subs;
      var types := ListEventTypes(space);
      for i := 0 to |types|
        invariant forall t :: t in types[..i] ==> t.authorizerID != Some(id)
      {
        assert types[i] in types && types[..i + 1] == types[..i] + [types[i]];
        if types[i].authorizerID == Some(id) {
          ghost var k :| k in Contents().eventTypes && InSpace(k, space) && Contents().eventTypes[k] == types[i];
          return Err(IsAuthorizer);
        }
      }
      assert types[..|types|] == types;
      assert forall k :: k in Contents().eventTypes && InSpace(k, space) ==> Contents().eventTypes[k] in types;
      HasFunction(Key(space, id));
      assert Key(space, id) !in Contents().functions ==> Contents().functions - {Key(space, id)} == Contents().functions;
      DropFunction(Roots(), kv.data, Key(space, id));
      var err := functionStore.Delete(Key(space, id));
      if err.Some? {
        return Err(FunctionNotFound);
      }
      return Ok(());
    }

    // ---- Event types ----

    method CreateEventType(raw: EventType) returns (r: Result<EventType, ServiceError>)
      requires Valid()
      modifies kv
      ensures Valid() && Contents() == Apply(old(Contents()), Op.CreateEventType(raw))
      ensures Answers(r, ErrorOf(old(Contents()), Op.CreateEventType(raw)), NormalEventType(raw))
      ensures kv.feed == old(kv.feed) + Emits(Roots(), old(Contents()), Op.CreateEventType(raw))
      ensures r.Err? ==> Contents() == old(Contents()) && kv.feed == old(kv.feed)
      ensures r.Ok? ==>
                var key := r.value.space + "/" + r.value.name;
                && EventTypeKept(raw, r.value)
                && Contents() == old(Contents()).(eventTypes := old(Contents()).eventTypes[key := r.value])
                && kv.feed == old(kv.feed) + [KVPair(eventTypeStore.root + key, Some(EventTypeValue(r.value)))]
    {
      hide Store.View, Typed, RootsApart, CatalogOk;
      EventTypeKeeps(raw);
      OpKeepsOk(Contents(), Op.CreateEventType(raw));
      var et := NormalEventType(raw);
      if !ValidEventType(et) {
        return Err(ValidationFailed);
      }
      HasEventType(EventTypeKeyOf(et));
      var got := eventTypeStore.Get(EventTypeKeyOf(et));
      if got.Ok? {
        return Err(AlreadyExists);
      }
      var authorized := FindsAuthorizer(et);
      if !authorized {
        return Err(AuthorizerMissing);
      }
      PutEventType(Roots(), kv.data, EventTypeKeyOf(et), et);
      var _ := eventTypeStore.AtomicPut(EventTypeKeyOf(et), EventTypeValue(et));
      return Ok(et);
    }

    method UpdateEventType(raw: EventType) returns (r: Result<EventType, ServiceError>)
      requires Valid()
      modifies kv
      ensures Valid() && Contents() == Apply(old(Contents()), Op.UpdateEventType(raw))
      ensures Answers(r, ErrorOf(old(Contents()), Op.UpdateEventType(raw)), NormalEventType(raw))
      ensures kv.feed == old(kv.feed) + Emits(Roots(), old(Contents()), Op.UpdateEventType(raw))
      ensures r.Err? ==> Contents() == old(Contents()) && kv.feed == old(kv.feed)
      ensures r.Ok? ==>
                var key := r.value.space + "/" + r.value.name;
                && EventTypeKept(raw, r.value)
                && Contents() == old(Contents()).(eventTypes := old(Contents()).eventTypes[key := r.value])
                && kv.feed == old(kv.feed) + [KVPair(eventTypeStore.root + key, Some(EventTypeValue(r.value)))]
    {
      hide Store.View, Typed, RootsApart, CatalogOk;
      EventTypeKeeps(raw);
      OpKeepsOk(Contents(), Op.UpdateEventType(raw));
      var et := NormalEventType(raw);
      if !ValidEventType(et) {
        return Err(ValidationFailed);
      }
      HasEventType(EventTypeKeyOf(et));
      var got := eventTypeStore.Get(EventTypeKeyOf(et));
      if got.Err? {
        return Err(EventTypeNotFound);
      }
      var authorized := FindsAuthorizer(et);
      if !authorized {
        return Err(AuthorizerMissing);
      }
      PutEventType(Roots(), kv.data, EventTypeKeyOf(et), et);
      eventTypeStore.Put(EventTypeKeyOf(et), EventTypeValue(et));
      return Ok(et);
    }

    method FindsAuthorizer(et: EventType) returns (found: bool)
      requires Valid()
      ensures found == AuthorizerExists(Contents(), et)
    {
      if et.authorizerID.None? {
        return true;
      }
      HasFunction(Key(et.space, et.authorizerID.value));
      var got := functionStore.Get(Key(et.space, et.authorizerID.value));
      return got.Ok?;
    }

    method DeleteEventType(space: string, name: string) returns (r: Result<(), ServiceError>)
      requires Valid()
      modifies kv
      ensures Valid() && Contents() == Apply(old(Contents()), Op.DeleteEventType(space, name))
      ensures Answers(r, ErrorOf(old(Contents()), Op.DeleteEventType(space, name)), ())
      ensures kv.feed == old(kv.feed) + Emits(Roots(), old(Contents()), Op.DeleteEventType(space, name))
      ensures r.Err? ==> Contents() == old(Contents()) && kv.feed == old(kv.feed)
      ensures r.Ok? ==>
                && space + "/" + name in old(Contents()).eventTypes
                && Contents() == old(Contents()).(eventTypes := old(Contents()).eventTypes - {space + "/" + name})
                && kv.feed == old(kv.feed) + [KVPair(eventTypeStore.root + (space + "/" + name), None)]
    {
      hide Store.View, Typed, RootsApart, CatalogOk;
      OpKeepsOk(Contents(), Op.DeleteEventType(space, name));
      var subs := ListSubscriptions(space);
      for i := 0 to |subs|
        invariant forall s :: s in subs[..i] ==> s.eventType != name
      {
        assert subs[i] in subs && subs[..i + 1] == subs[..i] + [subs[i]];
        if name == subs[i].eventType {
          ghost var k :| k in Contents().subscriptions && InSpace(k, space) && Contents().subscriptions[k] == subs[i];
          return Err(HasSubscriptions);
        }
      }
      assert subs[..|subs|] == subs;
      assert forall k :: k in Contents().subscriptions && InSpace(k, space) ==> Contents().subscriptions[k] in subs;
      HasEventType(Key(space, name));
      assert Key(space, name) !in Contents().eventTypes ==> Contents().eventTypes - {Key(space, name)} == Contents().eventTypes;
      DropEventType(Roots(), kv.data, Key(space, name));
      var err := eventTypeStore.Delete(Key(space, name));
      if err.Some? {
        return Err(EventTypeNotFound);
      }
      return Ok(());
    }

    // ---- Subscriptions ----

    method CreateSubscription(raw: Subscription) returns (r: Result<Subscription, ServiceError>)
      requires Valid()
      modifies kv
      ensures Valid() && Contents() == Apply(old(Contents()), Op.CreateSubscription(raw))
      ensures Answers(r, ErrorOf(old(Contents()), Op.CreateSubscription(raw)), WithID(NormalSubscription(raw)))
      ensures kv.feed == old(kv.feed) + Emits(Roots(), old(Contents()), Op.CreateSubscription(raw))
      ensures r.Err? ==> Contents() == old(Contents()) && kv.feed == old(kv.feed)
      ensures r.Ok? ==>
                var key := r.value.space + "/" + r.value.id;
                && SubscriptionKept(raw, r.value)
                && Contents() == old(Contents()).(subscriptions := old(Contents()).subscriptions[key := r.value])
                && kv.feed == old(kv.feed) + [KVPair(subscriptionStore.root + key, Some(SubscriptionValue(r.value)))]
      ensures r.Ok? ==> r.value.id == SubscriptionID(r.value)
    {
      hide Store.View, Typed, RootsApart, CatalogOk, SubscriptionID, PathFree, NormalSubscription, ValidSubscription;
      SubscriptionKeeps(raw);
      OpKeepsOk(Contents(), Op.CreateSubscription(raw));
      var s := NormalSubscription(raw);
      if !ValidSubscription(s) {
        return Err(ValidationFailed);
      }
      var sub := s.(id := SubscriptionID(s));
      HasSubscription(Key(sub.space, sub.id));
      var got := subscriptionStore.Get(Key(sub.space, sub.id));
      if got.Ok? {
        return Err(AlreadyExists);
      }
      if sub.kind == TYPE_SYNC {
        var conflict := CheckForPathConflict(s);
        if conflict {
          return Err(PathConflict);
        }
      }
      HasEventType(Key(sub.space, sub.eventType));
      var et := eventTypeStore.Get(Key(sub.space, sub.eventType));
      if et.Err? {
        return Err(EventTypeNotFound);
      }
      HasFunction(Key(sub.space, sub.functionID));
      var fn := functionStore.Get(Key(sub.space, sub.functionID));
      if fn.Err? {
        return Err(FunctionNotFound);
      }
      PutSubscription(Roots(), kv.data, Key(sub.space, sub.id), sub);
      var _ := subscriptionStore.AtomicPut(Key(sub.space, sub.id), SubscriptionValue(sub));
      return Ok(sub);
    }

    /** The value goes where the body's ID says; only if that is the ID asked for, as the HTTP
        layer makes it, does an accepted update leave the catalog in order. */
    method UpdateSubscription(id: string, raw: Subscription) returns (r: Result<Subscription, ServiceError>)
      requires Valid()
      modifies kv
      ensures Valid() <==> r.Err? || raw.id == id
      ensures Contents() == Apply(old(Contents()), Op.UpdateSubscription(id, raw))
      ensures Answers(r, ErrorOf(old(Contents()), Op.UpdateSubscription(id, raw)), NormalSubscription(raw))
      ensures kv.feed == old(kv.feed) + Emits(Roots(), old(Contents()), Op.UpdateSubscription(id, raw))
      ensures r.Err? ==> Contents() == old(Contents()) && kv.feed == old(kv.feed)
      ensures r.Ok? ==>
                var key := r.value.space + "/" + r.value.id;
                && SubscriptionKept(raw, r.value)
                && Contents() == old(Contents()).(subscriptions := old(Contents()).subscriptions[key := r.value])
                && kv.feed == old(kv.feed) + [KVPair(subscriptionStore.root + key, Some(SubscriptionValue(r.value)))]
      ensures r.Ok? ==> r.value.id == raw.id
    {
      hide Store.View, Typed, RootsApart, CatalogOk, SubscriptionID, PathFree, ValidSubscription;
      SubscriptionKeeps(raw);
      ghost var op := Op.UpdateSubscription(id, raw);
      if ErrorOf(Contents(), op).None? {
        UpdateSubscriptionKeepsOkIff(Contents(), op);
      }
      var s := NormalSubscription(raw);
      if !ValidSubscription(s) {
        return Err(ValidationFailed);
      }
      HasSubscription(Key(s.space, id));
      var got := subscriptionStore.Get(Key(s.space, id));
      if got.Err? {
        return Err(SubscriptionNotFound);
      }
      if !SameRoute(s, got.value.sub) {
        return Err(InvalidUpdate);
      }
      HasFunction(Key(s.space, s.functionID));
      var fn := functionStore.Get(Key(s.space, s.functionID));
      if fn.Err? {
        return Err(FunctionNotFound);
      }
      PutSubscription(Roots(), kv.data, Key(s.space, s.id), s);
      subscriptionStore.Put(Key(s.space, s.id), SubscriptionValue(s));
      return Ok(s);
    }

    method DeleteSubscription(space: string, id: string) returns (r: Result<(), ServiceError>)
      requires Valid()
      modifies kv
      ensures Valid() && Contents() == Apply(old(Contents()), Op.DeleteSubscription(space, id))
      ensures Answers(r, ErrorOf(old(Contents()), Op.DeleteSubscription(space, id)), ())
      ensures kv.feed == old(kv.feed) + Emits(Roots(), old(Contents()), Op.DeleteSubscription(space, id))
      ensures r.Err? ==> Contents() == old(Contents()) && kv.feed == old(kv.feed)
      ensures r.Ok? ==>
                && space + "/" + id in old(Contents()).subscriptions
                && Contents() == old(Contents()).(subscriptions := old(Contents()).subscriptions - {space + "/" + id})
                && kv.feed == old(kv.feed) + [KVPair(subscriptionStore.root + (space + "/" + id), None)]
    {
      hide Store.View, Typed, RootsApart, CatalogOk;
      OpKeepsOk(Contents(), Op.DeleteSubscription(space, id));
      HasSubscription(Key(space, id));
      var got := subscriptionStore.Get(Key(space, id));
      if got.Err? {
        return Err(SubscriptionNotFound);
      }
      DropSubscription(Roots(), kv.data, Key(space, id));
      var err := subscriptionStore.Delete(Key(space, id));
      return Ok(());
    }

    /** Rebuilds a tree from the stored paths, in whatever order they are listed and ignoring
        errors, and tries the new one. */
    method CheckForPathConflict(s: Subscription) returns (conflict: bool)
      requires Valid() && ValidSubscription(s) && s.kind == TYPE_SYNC
      ensures conflict == !PathFree(Contents().subscriptions, s)
    {
      hide Store.View, Typed, RootsApart, CatalogOk, Lists, TrieOk, Live, PathFree, Added, AddErrorOf, Node.Valid, ListedOk, PatternsOf;
      var kvs := subscriptionStore.List(s.space + "/");
      ListedAreOk(kvs, s);
      var tree := TreeOfListed(kvs, s);
      AcceptedIffFree(tree.Trie(), kvs, s, Contents().subscriptions);
      LocateRenders(s.path);
      var err := tree.AddRoute(s.path, FunctionKey(s.space, ""));
      return err.Some?;
    }

    /** What a listing of the space holds of competing subscriptions. */
    lemma ListedAreOk(kvs: seq<Pair>, s: Subscription)
      requires Valid() && ValidSubscription(s) && s.kind == TYPE_SYNC
      requires Lists(kvs, subscriptionStore.Contents() - {""}, s.space + "/")
      ensures ListedOk(kvs, s)
      ensures forall j :: 0 <= j < |kvs| && Competing(kvs[j].1, s) ==>
                var subs := Contents().subscriptions;
                kvs[j].0 in subs && subs[kvs[j].0] == kvs[j].1.sub && SameTree(subs[kvs[j].0], s) && kvs[j].1.sub.space == s.space
      ensures forall k :: k in Contents().subscriptions && SameTree(Contents().subscriptions[k], s) ==>
                exists j :: 0 <= j < |kvs| && kvs[j].1 == SubscriptionValue(Contents().subscriptions[k])
    {
      hide Store.View, FunctionsOk, EventTypesOk, PathsOk, SubscriptionID, Compatible, WellFormed;
      var subs := Contents().subscriptions;
      forall j | 0 <= j < |kvs| && Competing(kvs[j].1, s)
        ensures kvs[j].0 in subs && subs[kvs[j].0] == kvs[j].1.sub && kvs[j].1.sub.space == s.space && HasPrefix(kvs[j].1.sub.path, "/")
      {
        ListedInSpace(kvs[j].0, kvs[j].1.sub, s.space);
      }
      forall k | k in subs && SameTree(subs[k], s) ensures exists j :: 0 <= j < |kvs| && kvs[j].1 == SubscriptionValue(subs[k]) {
        assert Filed(k, subs[k], Contents().eventTypes, Contents().functions);
        InOwnSpace(subs[k].space, subs[k].id);
        assert Contains(kvs, k);
      }
      ListedPathsOk(kvs, s, subs);
    }

    /** A subscription listed below a space's directory is of that space. */
    lemma ListedInSpace(key: string, sub: Subscription, space: string)
      requires Valid() && ValidSpace(space) && HasPrefix(key, space + "/")
      requires key in subscriptionStore.Contents() && key != "" && subscriptionStore.Contents()[key] == SubscriptionValue(sub)
      ensures key in Contents().subscriptions && Contents().subscriptions[key] == sub && sub.space == space && ValidSubscription(sub)
    {
      hide Store.View, FunctionsOk, EventTypesOk, PathsOk, SubscriptionID;
      HasSubscription(key);
      assert Filed(key, sub, Contents().eventTypes, Contents().functions);
      NamesHaveNoSlash(space);
      NamesHaveNoSlash(sub.space);
      OnlyInOwnSpace(sub.space, sub.id, space);
    }

    lemma HasSubscription(key: string)
      requires Valid() && key != ""
      ensures key in subscriptionStore.Contents() <==> key in Contents().subscriptions
      ensures key in Contents().subscriptions ==> subscriptionStore.Contents()[key] == SubscriptionValue(Contents().subscriptions[key])
    {
    }

    // ---- Listing ----

    method ListSubscriptions(space: string) returns (subs: seq<Subscription>)
      requires Valid()
      ensures forall s :: s in subs <==> exists k :: k in Contents().subscriptions && InSpace(k, space) && Contents().subscriptions[k] == s
      ensures NoneTwice(subs)
    {
      hide Store.View, Typed, RootsApart, CatalogOk, Lists, NoneTwice;
      var kvs := subscriptionStore.List(space + "/");
      subs := [];
      for i := 0 to |kvs|
        invariant subs == DecodedSubscriptions(kvs[..i])
      {
        assert kvs[..i + 1][..i] == kvs[..i];
        if kvs[i].1.SubscriptionValue? {
          subs := subs + [kvs[i].1.sub];
        }
      }
      assert kvs[..|kvs|] == kvs;
      ListedSubscriptions(kvs, space);
      ListedOnce(subscriptionStore, kvs, space + "/");
    }

    method ListEventTypes(space: string) returns (types: seq<EventType>)
      requires Valid()
      ensures forall t :: t in types <==> exists k :: k in Contents().eventTypes && InSpace(k, space) && Contents().eventTypes[k] == t
      ensures NoneTwice(types)
    {
      hide Store.View, Typed, RootsApart, CatalogOk, Lists, NoneTwice;
      var kvs := eventTypeStore.List(space + "/");
      types := [];
      for i := 0 to |kvs|
        invariant types == DecodedEventTypes(kvs[..i])
      {
        assert kvs[..i + 1][..i] == kvs[..i];
        if kvs[i].1.EventTypeValue? {
          types := types + [kvs[i].1.et];
        }
      }
      assert kvs[..|kvs|] == kvs;
      ListedEventTypes(kvs, space);
      ListedOnce(eventTypeStore, kvs, space + "/");
    }

    /** A listing decodes to the subscriptions of the space. */
    lemma ListedSubscriptions(kvs: seq<Pair>, space: string)
      requires Valid() && Lists(kvs, subscriptionStore.Contents() - {""}, space + "/")
      ensures forall s :: s in DecodedSubscriptions(kvs) <==>
                          exists k :: k in Contents().subscriptions && InSpace(k, space) && Contents().subscriptions[k] == s
    {
      hide Store.View, CatalogOk;
      forall s ensures s in DecodedSubscriptions(kvs) <==>
                       exists k :: k in Contents().subscriptions && InSpace(k, space) && Contents().subscriptions[k] == s {
        SubscriptionDecoded(kvs, s);
        if exists k :: k in Contents().subscriptions && InSpace(k, space) && Contents().subscriptions[k] == s {
          var k :| k in Contents().subscriptions && InSpace(k, space) && Contents().subscriptions[k] == s;
          assert Contains(kvs, k);
        }
        if s in DecodedSubscriptions(kvs) {
          var j :| 0 <= j < |kvs| && kvs[j].1 == SubscriptionValue(s);
          assert kvs[j].0 in Contents().subscriptions;
        }
      }
    }

    lemma ListedEventTypes(kvs: seq<Pair>, space: string)
      requires Valid() && Lists(kvs, eventTypeStore.Contents() - {""}, space + "/")
      ensures forall t :: t in DecodedEventTypes(kvs) <==>
                          exists k :: k in Contents().eventTypes && InSpace(k, space) && Contents().eventTypes[k] == t
    {
      hide Store.View, CatalogOk;
      forall t ensures t in DecodedEventTypes(kvs) <==>
                       exists k :: k in Contents().eventTypes && InSpace(k, space) && Contents().eventTypes[k] == t {
        EventTypeDecoded(kvs, t);
        if exists k :: k in Contents().eventTypes && InSpace(k, space) && Contents().eventTypes[k] == t {
          var k :| k in Contents().eventTypes && InSpace(k, space) && Contents().eventTypes[k] == t;
          assert Contains(kvs, k);
        }
        if t in DecodedEventTypes(kvs) {
          var j :| 0 <= j < |kvs| && kvs[j].1 == EventTypeValue(t);
          assert kvs[j].0 in Contents().eventTypes;
        }
      }
    }

    lemma ListedOnce(entities: Prefixed, kvs: seq<Pair>, dir: string)
      requires Valid() && (entities == subscriptionStore || entities == eventTypeStore)
      requires Lists(kvs, entities.Contents() - {""}, dir)
      ensures NoneTwice(DecodedSubscriptions(kvs)) && NoneTwice(DecodedEventTypes(kvs))
    {
      hide Store.View, PathsOk, FunctionsOk, SubscriptionID, NoneTwice;
      forall j | 0 <= j < |kvs|
        ensures kvs[j].1.SubscriptionValue? ==> kvs[j].0 == Key(kvs[j].1.sub.space, kvs[j].1.sub.id)
        ensures kvs[j].1.EventTypeValue? ==> kvs[j].0 == EventTypeKeyOf(kvs[j].1.et)
      {
        if entities == subscriptionStore {
          HasSubscription(kvs[j].0);
        } else {
          HasEventType(kvs[j].0);
        }
      }
      DecodedOnce(kvs);
    }

    lemma HasEventType(key: string)
      requires Valid() && key != ""
      ensures key in eventTypeStore.Contents() <==> key in Contents().eventTypes
    {
    }

    lemma HasFunction(key: string)
      requires Valid() && key != ""
      ensures key in functionStore.Contents() <==> key in Contents().functions
      ensures key in Contents().functions ==> functionStore.Contents()[key] == FunctionValue(Contents().functions[key])
    {
    }
  }
}
