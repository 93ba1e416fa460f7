/** What the service's runs look like from the store's side, and what that means for the
    caches that watch it. */
module ServiceFeed {
  import opened Wrappers
  import opened Entities
  import opened Strings
  import opened Patterns
  import opened Codec
  import opened Catalog
  import opened ServiceModel
  import opened Store
  import opened Watcher

  /** Where each kind of entity is stored. */
  datatype Roots = Roots(functions: string, eventTypes: string, subscriptions: string)

  ghost predicate RootsApart(r: Roots) {
    Apart(r.functions, r.eventTypes) && Apart(r.functions, r.subscriptions) && Apart(r.eventTypes, r.subscriptions)
  }

  /** The prefixes the gateway uses. */
  const GATEWAY_ROOTS := Roots("/serverless-event-gateway/functions/", "/serverless-event-gateway/eventtypes/", "/serverless-event-gateway/subscriptions/")

  const GATEWAY_CORS_ROOT := "/serverless-event-gateway/cors/"

  /** None of the gateway's four prefixes lies below another. */
  lemma GatewayRootsApart()
    ensures RootsApart(GATEWAY_ROOTS)
    ensures Apart(GATEWAY_CORS_ROOT, GATEWAY_ROOTS.functions)
    ensures Apart(GATEWAY_CORS_ROOT, GATEWAY_ROOTS.eventTypes) && Apart(GATEWAY_CORS_ROOT, GATEWAY_ROOTS.subscriptions)
  {
    var r := GATEWAY_ROOTS;
    assert r.functions[26] == 'f' && r.eventTypes[26] == 'e' && r.subscriptions[26] == 's' && GATEWAY_CORS_ROOT[26] == 'c';
  }

  ghost function FunctionsIn(view: map<string, Value>): map<string, Function> {
    map k | k in view && k != "" && view[k].FunctionValue? :: view[k].fn
  }

  ghost function EventTypesIn(view: map<string, Value>): map<string, EventType> {
    map k | k in view && k != "" && view[k].EventTypeValue? :: view[k].et
  }

  ghost function SubscriptionsIn(view: map<string, Value>): map<string, Subscription> {
    map k | k in view && k != "" && view[k].SubscriptionValue? :: view[k].sub
  }

  /** The catalog as the store's contents spell it. */
  ghost function CatalogOf(r: Roots, data: map<string, Value>): Catalog {
    Catalog(FunctionsIn(View(r.functions, data)), EventTypesIn(View(r.eventTypes, data)), SubscriptionsIn(View(r.subscriptions, data)))
  }

  /** Everything below a root is of its kind, but for the root's own key. */
  ghost predicate Typed(r: Roots, data: map<string, Value>) {
    && OnlyFunctions(View(r.functions, data)) && OnlyEventTypes(View(r.eventTypes, data)) && OnlySubscriptions(View(r.subscriptions, data))
  }

  ghost predicate OnlyFunctions(view: map<string, Value>) {
    forall k :: k in view && k != "" ==> view[k].FunctionValue?
  }

  ghost predicate OnlyEventTypes(view: map<string, Value>) {
    forall k :: k in view && k != "" ==> view[k].EventTypeValue?
  }

  ghost predicate OnlySubscriptions(view: map<string, Value>) {
    forall k :: k in view && k != "" ==> view[k].SubscriptionValue?
  }

  lemma PutInFunctions(view: map<string, Value>, key: string, fn: Function)
    requires key != ""
    ensures FunctionsIn(view[key := FunctionValue(fn)]) == FunctionsIn(view)[key := fn]
  {
  }

  lemma PutInEventTypes(view: map<string, Value>, key: string, et: EventType)
    requires key != ""
    ensures EventTypesIn(view[key := EventTypeValue(et)]) == EventTypesIn(view)[key := et]
  {
  }

  lemma PutInSubscriptions(view: map<string, Value>, key: string, s: Subscription)
    requires key != ""
    ensures SubscriptionsIn(view[key := SubscriptionValue(s)]) == SubscriptionsIn(view)[key := s]
  {
  }

  lemma PutFunction(r: Roots, data: map<string, Value>, key: string, fn: Function)
    requires RootsApart(r) && Typed(r, data) && key != ""
    ensures var data' := data[r.functions + key := FunctionValue(fn)];
            Typed(r, data') && CatalogOf(r, data') == CatalogOf(r, data).(functions := CatalogOf(r, data).functions[key := fn])
  {
    hide View, FunctionsIn, EventTypesIn, SubscriptionsIn;
    PutInFunctions(View(r.functions, data), key, fn);
    PutInView(r.functions, data, key, FunctionValue(fn));
    OtherViewUntouched(r.functions, r.eventTypes, data, key, FunctionValue(fn));
    OtherViewUntouched(r.functions, r.subscriptions, data, key, FunctionValue(fn));
  }

  lemma PutEventType(r: Roots, data: map<string, Value>, key: string, et: EventType)
    requires RootsApart(r) && Typed(r, data) && key != ""
    ensures var data' := data[r.eventTypes + key := EventTypeValue(et)];
            Typed(r, data') && CatalogOf(r, data') == CatalogOf(r, data).(eventTypes := CatalogOf(r, data).eventTypes[key := et])
  {
    hide View, FunctionsIn, EventTypesIn, SubscriptionsIn;
    PutInEventTypes(View(r.eventTypes, data), key, et);
    PutInView(r.eventTypes, data, key, EventTypeValue(et));
    OtherViewUntouched(r.eventTypes, r.functions, data, key, EventTypeValue(et));
    OtherViewUntouched(r.eventTypes, r.subscriptions, data, key, EventTypeValue(et));
  }

  lemma PutSubscription(r: Roots, data: map<string, Value>, key: string, s: Subscription)
    requires RootsApart(r) && Typed(r, data) && key != ""
    ensures var data' := data[r.subscriptions + key := SubscriptionValue(s)];
            Typed(r, data') && CatalogOf(r, data') == CatalogOf(r, data).(subscriptions := CatalogOf(r, data).subscriptions[key := s])
  {
    hide View, FunctionsIn, EventTypesIn, SubscriptionsIn;
    PutInSubscriptions(View(r.subscriptions, data), key, s);
    PutInView(r.subscriptions, data, key, SubscriptionValue(s));
    OtherViewUntouched(r.subscriptions, r.functions, data, key, SubscriptionValue(s));
    OtherViewUntouched(r.subscriptions, r.eventTypes, data, key, SubscriptionValue(s));
  }

  lemma DropFunction(r: Roots, data: map<string, Value>, key: string)
    requires RootsApart(r) && Typed(r, data) && key != ""
    ensures var data' := data - {r.functions + key};
            Typed(r, data') && CatalogOf(r, data') == CatalogOf(r, data).(functions := CatalogOf(r, data).functions - {key})
  {
    hide View;
    DeleteInView(r.functions, data, key);
    OtherViewUntouched(r.functions, r.eventTypes, data, key, Malformed);
    OtherViewUntouched(r.functions, r.subscriptions, data, key, Malformed);
  }

  lemma DropEventType(r: Roots, data: map<string, Value>, key: string)
    requires RootsApart(r) && Typed(r, data) && key != ""
    ensures var data' := data - {r.eventTypes + key};
            Typed(r, data') && CatalogOf(r, data') == CatalogOf(r, data).(eventTypes := CatalogOf(r, data).eventTypes - {key})
  {
    hide View;
    DeleteInView(r.eventTypes, data, key);
    OtherViewUntouched(r.eventTypes, r.functions, data, key, Malformed);
    OtherViewUntouched(r.eventTypes, r.subscriptions, data, key, Malformed);
  }

  lemma DropSubscription(r: Roots, data: map<string, Value>, key: string)
    requires RootsApart(r) && Typed(r, data) && key != ""
    ensures var data' := data - {r.subscriptions + key};
            Typed(r, data') && CatalogOf(r, data') == CatalogOf(r, data).(subscriptions := CatalogOf(r, data).subscriptions - {key})
  {
    hide View;
    DeleteInView(r.subscriptions, data, key);
    OtherViewUntouched(r.subscriptions, r.functions, data, key, Malformed);
    OtherViewUntouched(r.subscriptions, r.eventTypes, data, key, Malformed);
  }

  /** The change an operation makes to the store, if any. */
  ghost function Emits(r: Roots, c: Catalog, op: Op): seq<KVPair> {
    if ErrorOf(c, op).Some? then []
    else
      match op
      case CreateFunction(raw) => [KVPair(r.functions + FunctionKeyOf(NormalFunction(raw)), Some(FunctionValue(NormalFunction(raw))))]
      case UpdateFunction(raw) => [KVPair(r.functions + FunctionKeyOf(NormalFunction(raw)), Some(FunctionValue(NormalFunction(raw))))]
      case DeleteFunction(space, id) => [KVPair(r.functions + Key(space, id), None)]
      case CreateEventType(raw) => [KVPair(r.eventTypes + EventTypeKeyOf(NormalEventType(raw)), Some(EventTypeValue(NormalEventType(raw))))]
      case UpdateEventType(raw) => [KVPair(r.eventTypes + EventTypeKeyOf(NormalEventType(raw)), Some(EventTypeValue(NormalEventType(raw))))]
      case DeleteEventType(space, name) => [KVPair(r.eventTypes + Key(space, name), None)]
      case CreateSubscription(raw) =>
        var s := WithID(NormalSubscription(raw));
        [KVPair(r.subscriptions + Key(s.space, s.id), Some(SubscriptionValue(s)))]
      case UpdateSubscription(_, raw) =>
        var s := NormalSubscription(raw);
        [KVPair(r.subscriptions + Key(s.space, s.id), Some(SubscriptionValue(s)))]
      case DeleteSubscription(space, id) => [KVPair(r.subscriptions + Key(space, id), None)]
  }
}
