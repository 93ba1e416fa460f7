/** The configuration service over every sequential run of its operations. */
module ServiceModel {
  import opened Wrappers
  import opened Entities
  import opened Strings
  import opened Patterns
  import opened Codec
  import opened Catalog

  datatype Op =
    | CreateFunction(fn: Function) | UpdateFunction(fn: Function) | DeleteFunction(space: string, id: string)
    | CreateEventType(et: EventType) | UpdateEventType(et: EventType) | DeleteEventType(space: string, name: string)
    | CreateSubscription(sub: Subscription) | UpdateSubscription(id: string, sub: Subscription) | DeleteSubscription(space: string, id: string)

  function PatternOf(s: Subscription): Path {
    match Locate(s.path)
    case Some(p) => p
    case None => []
  }

  /** Both subscriptions would go into the same route tree of one space. */
  predicate SameTree(s: Subscription, t: Subscription) {
    && s.kind == TYPE_SYNC && t.kind == TYPE_SYNC
    && s.space == t.space && s.httpMethod == t.httpMethod && s.eventType == t.eventType
  }

  /** What `checkForPathConflict` decides: the path is well-formed and compatible with those
      of all stored sync subscriptions of its space, method and event type. */
  ghost predicate PathFree(subs: map<string, Subscription>, s: Subscription) {
    WellFormed(PatternOf(s)) && forall k :: k in subs && SameTree(subs[k], s) ==> Compatible(PatternOf(s), PatternOf(subs[k]))
  }

  function WithID(s: Subscription): Subscription {
    s.(id := SubscriptionID(s))
  }

  ghost predicate AuthorizerExists(c: Catalog, et: EventType) {
    et.authorizerID.None? || Key(et.space, et.authorizerID.value) in c.functions
  }

  /** The error an operation answers with; the tests come in the order of the source. */
  ghost function ErrorOf(c: Catalog, op: Op): Option<ServiceError> {
    match op
    case CreateFunction(raw) =>
      var fn := NormalFunction(raw);
      if !ValidFunction(fn) then Some(ValidationFailed)
      else if FunctionKeyOf(fn) in c.functions then Some(AlreadyExists)
      else None
    case UpdateFunction(raw) =>
      var fn := NormalFunction(raw);
      if !ValidFunction(fn) then Some(ValidationFailed)
      else if FunctionKeyOf(fn) !in c.functions then Some(FunctionNotFound)
      else None
    case DeleteFunction(space, id) =>
      if exists k :: k in c.subscriptions && InSpace(k, space) && c.subscriptions[k].functionID == id then Some(HasSubscriptions)
      else if exists k :: k in c.eventTypes && InSpace(k, space) && c.eventTypes[k].authorizerID == Some(id) then Some(IsAuthorizer)
      else if Key(space, id) !in c.functions then Some(FunctionNotFound)
      else None
    case CreateEventType(raw) =>
      var et := NormalEventType(raw);
      if !ValidEventType(et) then Some(ValidationFailed)
      else if EventTypeKeyOf(et) in c.eventTypes then Some(AlreadyExists)
      else if !AuthorizerExists(c, et) then Some(AuthorizerMissing)
      else None
    case UpdateEventType(raw) =>
      var et := NormalEventType(raw);
      if !ValidEventType(et) then Some(ValidationFailed)
      else if EventTypeKeyOf(et) !in c.eventTypes then Some(EventTypeNotFound)
      else if !AuthorizerExists(c, et) then Some(AuthorizerMissing)
      else None
    case DeleteEventType(space, name) =>
      if exists k :: k in c.subscriptions && InSpace(k, space) && c.subscriptions[k].eventType == name then Some(HasSubscriptions)
      else if Key(space, name) !in c.eventTypes then Some(EventTypeNotFound)
      else None
    case CreateSubscription(raw) =>
      var s := NormalSubscription(raw);
      if !ValidSubscription(s) then Some(ValidationFailed)
      else if Key(s.space, SubscriptionID(s)) in c.subscriptions then Some(AlreadyExists)
      else if s.kind == TYPE_SYNC && !PathFree(c.subscriptions, s) then Some(PathConflict)
      else if Key(s.space, s.eventType) !in c.eventTypes then Some(EventTypeNotFound)
      else if Key(s.space, s.functionID) !in c.functions then Some(FunctionNotFound)
      else None
    case UpdateSubscription(id, raw) =>
      var s := NormalSubscription(raw);
      if !ValidSubscription(s) then Some(ValidationFailed)
      else if Key(s.space, id) !in c.subscriptions then Some(SubscriptionNotFound)
      else if !SameRoute(s, c.subscriptions[Key(s.space, id)]) then Some(InvalidUpdate)
      else if Key(s.space, s.functionID) !in c.functions then Some(FunctionNotFound)
      else None
    case DeleteSubscription(space, id) =>
      if Key(space, id) !in c.subscriptions then Some(SubscriptionNotFound) else None
  }

  /** `validateSubscriptionUpdate`: nothing but the space, the ID and the metadata differs. */
  predicate SameRoute(s: Subscription, t: Subscription) {
    s.kind == t.kind && s.eventType == t.eventType && s.functionID == t.functionID && s.path == t.path && s.httpMethod == t.httpMethod
  }

  /** The stores after an operation; one that fails changes nothing. */
  ghost function Apply(c: Catalog, op: Op): Catalog {
    if ErrorOf(c, op).Some? then c
    else
      match op
      case CreateFunction(raw) => c.(functions := c.functions[FunctionKeyOf(NormalFunction(raw)) := NormalFunction(raw)])
      case UpdateFunction(raw) => c.(functions := c.functions[FunctionKeyOf(NormalFunction(raw)) := NormalFunction(raw)])
      case DeleteFunction(space, id) => c.(functions := c.functions - {Key(space, id)})
      case CreateEventType(raw) => c.(eventTypes := c.eventTypes[EventTypeKeyOf(NormalEventType(raw)) := NormalEventType(raw)])
      case UpdateEventType(raw) => c.(eventTypes := c.eventTypes[EventTypeKeyOf(NormalEventType(raw)) := NormalEventType(raw)])
      case DeleteEventType(space, name) => c.(eventTypes := c.eventTypes - {Key(space, name)})
      case CreateSubscription(raw) =>
          var s := WithID(NormalSubscription(raw));
        c.(subscriptions := c.subscriptions[Key(s.space, s.id) := s])
      case UpdateSubscription(_, raw) =>
        var s := NormalSubscription(raw);
        c.(subscriptions := c.subscriptions[Key(s.space, s.id) := s])
      case DeleteSubscription(space, id) => c.(subscriptions := c.subscriptions - {Key(space, id)})
  }

  // ---- What every run keeps ----

  ghost predicate FunctionsOk(fns: map<string, Function>) {
    forall k :: k in fns ==> k == FunctionKeyOf(fns[k]) && ValidFunction(fns[k])
  }

  ghost predicate EventTypesOk(ets: map<string, EventType>, fns: map<string, Function>) {
    forall k :: k in ets ==>
      && k == EventTypeKeyOf(ets[k]) && ValidEventType(ets[k])
      && (ets[k].authorizerID.Some? ==> Key(ets[k].space, ets[k].authorizerID.value) in fns)
  }

  /** A stored subscription sits under its own ID, and its event type and function exist. */
  ghost predicate Filed(k: string, s: Subscription, ets: map<string, EventType>, fns: map<string, Function>) {
    && ValidSubscription(s) && s.id == SubscriptionID(s) && k == Key(s.space, s.id)
    && Key(s.space, s.eventType) in ets && Key(s.space, s.functionID) in fns
  }

  ghost predicate PathsOk(subs: map<string, Subscription>) {
    && (forall k :: k in subs && subs[k].kind == TYPE_SYNC ==> WellFormed(PatternOf(subs[k])))
    && (forall k, l :: k in subs && l in subs && k != l && SameTree(subs[k], subs[l]) ==> Compatible(PatternOf(subs[k]), PatternOf(subs[l])))
  }

  ghost predicate CatalogOk(c: Catalog) {
    && FunctionsOk(c.functions) && EventTypesOk(c.eventTypes, c.functions)
    && (forall k :: k in c.subscriptions ==> Filed(k, c.subscriptions[k], c.eventTypes, c.functions))
    && PathsOk(c.subscriptions)
  }

  /** The HTTP layer hands `UpdateSubscription` a body carrying the ID of the request path. */
  ghost predicate OpOk(op: Op) {
    op.UpdateSubscription? ==> op.sub.id == op.id
  }

  lemma NamesHaveNoSlash(s: string)
    requires IsName(s)
    ensures '/' !in s
  {
    NameHasNo(s, '/');
  }

  lemma FunctionOpsKeepOk(c: Catalog, op: Op)
    requires CatalogOk(c) && (op.CreateFunction? || op.UpdateFunction?)
    ensures CatalogOk(Apply(c, op))
  {
  }

  /** A function someone refers to can be reached by only one space and ID, under which the
      scans of `DeleteFunction` find the reference. */
  lemma DeleteFunctionKeepsOk(c: Catalog, op: Op)
    requires CatalogOk(c) && op.DeleteFunction?
    ensures CatalogOk(Apply(c, op))
  {
    if ErrorOf(c, op).None? {
      var gone := Key(op.space, op.id);
      forall k | k in c.subscriptions ensures Key(c.subscriptions[k].space, c.subscriptions[k].functionID) != gone {
        var s := c.subscriptions[k];
        assert Filed(k, s, c.eventTypes, c.functions);
        FunctionNamedOnce(c, s.space, s.functionID, op.space, op.id);
        InOwnSpace(s.space, s.id);
      }
      forall k | k in c.eventTypes && c.eventTypes[k].authorizerID.Some?
        ensures Key(c.eventTypes[k].space, c.eventTypes[k].authorizerID.value) != gone
      {
        var et := c.eventTypes[k];
        FunctionNamedOnce(c, et.space, et.authorizerID.value, op.space, op.id);
        InOwnSpace(et.space, et.name);
      }
      forall k | k in c.subscriptions ensures Filed(k, c.subscriptions[k], c.eventTypes, c.functions - {gone}) {
        assert Filed(k, c.subscriptions[k], c.eventTypes, c.functions);
      }
    }
  }

  /** A key of a stored function names its space and ID. */
  lemma FunctionNamedOnce(c: Catalog, space: string, id: string, space': string, id': string)
    requires FunctionsOk(c.functions) && Key(space, id) in c.functions
    ensures Key(space, id) == Key(space', id') ==> space == space' && id == id'
    ensures '/' !in space && '/' !in id
  {
    var fn := c.functions[Key(space, id)];
    NamesHaveNoSlash(fn.space);
    NamesHaveNoSlash(fn.id);
    KeyUnique(fn.space, fn.id, space, id);
    if Key(space, id) == Key(space', id') {
      KeyUnique(fn.space, fn.id, space', id');
    }
  }

  lemma EventTypeWritesKeepOk(c: Catalog, op: Op)
    requires CatalogOk(c) && (op.CreateEventType? || op.UpdateEventType?)
    ensures CatalogOk(Apply(c, op))
  {
    if ErrorOf(c, op).None? {
      var c' := Apply(c, op);
      forall k | k in c.subscriptions ensures Filed(k, c.subscriptions[k], c'.eventTypes, c.functions) {
        assert Filed(k, c.subscriptions[k], c.eventTypes, c.functions);
      }
    }
  }

  lemma DeleteEventTypeKeepsOk(c: Catalog, op: Op)
    requires CatalogOk(c) && op.DeleteEventType?
    ensures CatalogOk(Apply(c, op))
  {
    hide Filed, PathsOk, FunctionsOk, InSpace, Key;
    if ErrorOf(c, op).None? {
      forall k | k in c.subscriptions ensures Filed(k, c.subscriptions[k], c.eventTypes - {Key(op.space, op.name)}, c.functions) {
        assert InSpace(k, op.space) ==> c.subscriptions[k].eventType != op.name;
        KeepsItsType(k, c.subscriptions[k], c.eventTypes, c.functions, op.space, op.name);
      }
    }
  }

  /** The scan finds every subscription of an event type below the type's own space. */
  lemma KeepsItsType(k: string, s: Subscription, ets: map<string, EventType>, fns: map<string, Function>, space: string, name: string)
    requires Filed(k, s, ets, fns) && (InSpace(k, space) ==> s.eventType != name)
    ensures Filed(k, s, ets - {Key(space, name)}, fns)
  {
    hide SubscriptionID, InSpace;
    NamesHaveNoSlash(s.space);
    NamesHaveNoSlash(s.eventType);
    InOwnSpace(s.space, s.id);
    if Key(s.space, s.eventType) == Key(space, name) {
      KeyUnique(s.space, s.eventType, space, name);
    }
  }

  lemma DeleteSubscriptionKeepsOk(c: Catalog, op: Op)
    requires CatalogOk(c) && op.DeleteSubscription?
    ensures CatalogOk(Apply(c, op))
  {
  }

  lemma NewPathKeepsPathsOk(subs: map<string, Subscription>, k: string, s: Subscription)
    requires PathsOk(subs) && k !in subs && (s.kind == TYPE_SYNC ==> PathFree(subs, s))
    ensures PathsOk(subs[k := s])
  {
    hide Compatible, WellFormed, PatternOf;
    var subs' := subs[k := s];
    forall l, m | l in subs' && m in subs' && l != m && SameTree(subs'[l], subs'[m])
      ensures Compatible(PatternOf(subs'[l]), PatternOf(subs'[m]))
    {
      if m == k {
        CompatibleSymmetric(PatternOf(s), PatternOf(subs[l]));
      }
    }
  }

  lemma CreateSubscriptionKeepsOk(c: Catalog, op: Op)
    requires CatalogOk(c) && op.CreateSubscription? && OpOk(op)
    ensures CatalogOk(Apply(c, op))
  {
    hide PathsOk, PathFree, ValidSubscription, SubscriptionID, NormalSubscription, FunctionsOk, EventTypesOk;
    if ErrorOf(c, op).None? {
      var s := WithID(NormalSubscription(op.sub));
      FiledWithID(NormalSubscription(op.sub), c.eventTypes, c.functions);
      WithIDKeepsPath(c.subscriptions, NormalSubscription(op.sub));
      NewPathKeepsPathsOk(c.subscriptions, Key(s.space, s.id), s);
    }
  }

  lemma FiledWithID(s: Subscription, ets: map<string, EventType>, fns: map<string, Function>)
    requires ValidSubscription(s) && Key(s.space, s.eventType) in ets && Key(s.space, s.functionID) in fns
    ensures Filed(Key(s.space, WithID(s).id), WithID(s), ets, fns)
  {
    IDIgnoresID(s, WithID(s));
  }

  lemma WithIDKeepsPath(subs: map<string, Subscription>, s: Subscription)
    ensures PathFree(subs, WithID(s)) <==> PathFree(subs, s)
    ensures WithID(s).kind == s.kind && WithID(s).space == s.space && WithID(s).id == SubscriptionID(s)
  {
  }

  /** IDs depend on nothing but kind, event type, function, path and method. */
  lemma IDIgnoresID(s: Subscription, t: Subscription)
    requires SameRoute(s, t)
    ensures SubscriptionID(s) == SubscriptionID(t)
  {
  }

  lemma SameRouteKeepsPathsOk(subs: map<string, Subscription>, k: string, s: Subscription)
    requires PathsOk(subs) && k in subs && SameRoute(s, subs[k]) && s.space == subs[k].space
    ensures PathsOk(subs[k := s])
  {
    hide Compatible, WellFormed;
    var subs' := subs[k := s];
    assert PatternOf(s) == PatternOf(subs[k]);
    forall l, m | l in subs' && m in subs' && l != m && SameTree(subs'[l], subs'[m])
      ensures Compatible(PatternOf(subs'[l]), PatternOf(subs'[m]))
    {
      assert SameTree(subs[l], subs[m]);
    }
  }

  /** The stored subscription an update finds. */
  lemma UpdateFinds(c: Catalog, id: string, s: Subscription)
    requires CatalogOk(c) && ValidSubscription(s)
    requires Key(s.space, id) in c.subscriptions && SameRoute(s, c.subscriptions[Key(s.space, id)])
    ensures c.subscriptions[Key(s.space, id)].space == s.space && SubscriptionID(s) == id
  {
    hide SubscriptionID, PathsOk, FunctionsOk, EventTypesOk;
    var before := c.subscriptions[Key(s.space, id)];
    assert Filed(Key(s.space, id), before, c.eventTypes, c.functions);
    NamesHaveNoSlash(s.space);
    NamesHaveNoSlash(before.space);
    SpaceUnique(s.space, id, before.space, before.id);
    IDIgnoresID(s, before);
  }

  /** An accepted update keeps everything in order exactly when the body carries the ID it
      was sent to: the source writes the new value under the body's ID. */
  lemma UpdateSubscriptionKeepsOkIff(c: Catalog, op: Op)
    requires CatalogOk(c) && op.UpdateSubscription? && ErrorOf(c, op).None?
    ensures CatalogOk(Apply(c, op)) <==> op.sub.id == op.id
  {
    hide PathsOk, ValidSubscription, SubscriptionID, FunctionsOk, EventTypesOk;
    var s := NormalSubscription(op.sub);
    UpdateFinds(c, op.id, s);
    var subs := Apply(c, op).subscriptions;
    if op.sub.id == op.id {
      assert Key(s.space, s.eventType) in c.eventTypes by {
        assert Filed(Key(s.space, op.id), c.subscriptions[Key(s.space, op.id)], c.eventTypes, c.functions);
      }
      assert Filed(Key(s.space, op.id), s, c.eventTypes, c.functions);
      SameRouteKeepsPathsOk(c.subscriptions, Key(s.space, op.id), s);
    } else {
      assert subs[Key(s.space, s.id)] == s;
      assert !Filed(Key(s.space, s.id), s, c.eventTypes, c.functions);
    }
  }

  lemma OpKeepsOk(c: Catalog, op: Op)
    requires CatalogOk(c) && OpOk(op)
    ensures CatalogOk(Apply(c, op))
  {
    hide CatalogOk, Apply;
    match op
    case CreateFunction(_) => FunctionOpsKeepOk(c, op);
    case UpdateFunction(_) => FunctionOpsKeepOk(c, op);
    case DeleteFunction(_, _) => DeleteFunctionKeepsOk(c, op);
    case CreateEventType(_) => EventTypeWritesKeepOk(c, op);
    case UpdateEventType(_) => EventTypeWritesKeepOk(c, op);
    case DeleteEventType(_, _) => DeleteEventTypeKeepsOk(c, op);
    case CreateSubscription(_) => CreateSubscriptionKeepsOk(c, op);
    case UpdateSubscription(_, _) =>
      if ErrorOf(c, op).None? {
        UpdateSubscriptionKeepsOkIff(c, op);
      } else {
        FailureChangesNothing(c, op);
      }
    case DeleteSubscription(_, _) => DeleteSubscriptionKeepsOk(c, op);
  }

  lemma FailureChangesNothing(c: Catalog, op: Op)
    requires ErrorOf(c, op).Some?
    ensures Apply(c, op) == c
  {
  }

  ghost function Run(ops: seq<Op>): Catalog {
    if ops == [] then Catalog(map[], map[], map[]) else Apply(Run(ops[..|ops| - 1]), ops[|ops| - 1])
  }

  /** Over every run of the service each stored subscription's event type and function
      exist, each authorizer exists, and the sync paths of one space, method and event type
      are well-formed and pairwise compatible. */
  lemma {:induction false} RunKeepsOk(ops: seq<Op>)
    requires forall i :: 0 <= i < |ops| ==> OpOk(ops[i])
    ensures CatalogOk(Run(ops))
  {
    if ops != [] {
      RunKeepsOk(ops[..|ops| - 1]);
      OpKeepsOk(Run(ops[..|ops| - 1]), ops[|ops| - 1]);
    }
  }

  /** So there is at most one sync subscription per space, method, path and event type, and
      one async subscription per function beside. */
  lemma OnePerRoute(c: Catalog, k: string, l: string)
    requires CatalogOk(c) && k in c.subscriptions && l in c.subscriptions
    requires var s, t := c.subscriptions[k], c.subscriptions[l];
             s.space == t.space && s.kind == t.kind && s.httpMethod == t.httpMethod && s.path == t.path && s.eventType == t.eventType
             && (s.kind == TYPE_ASYNC ==> s.functionID == t.functionID)
    ensures k == l
  {
    assert Filed(k, c.subscriptions[k], c.eventTypes, c.functions);
    assert Filed(l, c.subscriptions[l], c.eventTypes, c.functions);
  }

  /** And in one space equal IDs mean the same route. */
  lemma StoredIDsInjective(c: Catalog, k: string, l: string)
    requires CatalogOk(c) && k in c.subscriptions && l in c.subscriptions
    requires c.subscriptions[k].id == c.subscriptions[l].id && BytesOnly(c.subscriptions[k]) && BytesOnly(c.subscriptions[l])
    ensures var s, t := c.subscriptions[k], c.subscriptions[l];
            && s.kind == t.kind && s.httpMethod == t.httpMethod && s.path == t.path && s.eventType == t.eventType
            && (s.kind == TYPE_ASYNC ==> s.functionID == t.functionID)
  {
    var s, t := c.subscriptions[k], c.subscriptions[l];
    assert Filed(k, s, c.eventTypes, c.functions) && Filed(l, t, c.eventTypes, c.functions);
    SubscriptionIDInjective(s, t);
  }

  /** A stored subscription answers to its own space and ID and to no other pair of strings,
      slashes in them included: so a deletion removes the one it names. */
  lemma SubscriptionNamedOnce(c: Catalog, space: string, id: string)
    requires CatalogOk(c) && ErrorOf(c, DeleteSubscription(space, id)).None?
    ensures c.subscriptions[Key(space, id)].space == space && c.subscriptions[Key(space, id)].id == id
  {
    hide SubscriptionID, FunctionsOk, EventTypesOk, PathsOk;
    var s := c.subscriptions[Key(space, id)];
    assert Filed(Key(space, id), s, c.eventTypes, c.functions);
    NamesHaveNoSlash(s.space);
    IDHasNoSlash(s);
    KeyUnique(s.space, s.id, space, id);
  }
}
