/** What the service keeps of what it is given, and exactly what it accepts. */
module Acceptance {
  import opened Wrappers
  import opened Entities
  import opened Strings
  import opened Patterns
  import opened Codec
  import opened Catalog
  import opened ServiceModel

  // ---- What is kept of a body ----

  predicate SpaceKept(given: string, kept: string) {
    kept == if given == "" then "default" else given
  }

  predicate PathKept(given: string, kept: string) {
    kept == if given != "" && given[0] == '/' then given else "/" + given
  }

  /** No method is a POST; any other is kept letter by letter, in upper case. */
  ghost predicate MethodKept(given: string, kept: string) {
    if given == "" then kept == "POST"
    else
      && |kept| == |given|
      && forall i :: 0 <= i < |given| ==>
           && !('a' <= kept[i] <= 'z')
           && (kept[i] == given[i] || ('a' <= given[i] <= 'z' && kept[i] as int == given[i] as int - 32))
  }

  predicate FunctionKept(raw: Function, fn: Function) {
    SpaceKept(raw.space, fn.space) && fn.id == raw.id && fn.provider == raw.provider && fn.metadata == raw.metadata
  }

  predicate EventTypeKept(raw: EventType, et: EventType) {
    SpaceKept(raw.space, et.space) && et.name == raw.name && et.authorizerID == raw.authorizerID && et.metadata == raw.metadata
  }

  /** Everything but the ID, which a creation computes and an update takes from the body. */
  ghost predicate SubscriptionKept(raw: Subscription, s: Subscription) {
    && SpaceKept(raw.space, s.space) && PathKept(raw.path, s.path) && MethodKept(raw.httpMethod, s.httpMethod)
    && s.kind == raw.kind && s.eventType == raw.eventType && s.functionID == raw.functionID && s.metadata == raw.metadata
  }

  lemma FunctionKeeps(raw: Function)
    ensures FunctionKept(raw, NormalFunction(raw))
  {
  }

  lemma EventTypeKeeps(raw: EventType)
    ensures EventTypeKept(raw, NormalEventType(raw))
  {
  }

  lemma SubscriptionKeeps(raw: Subscription)
    ensures SubscriptionKept(raw, NormalSubscription(raw)) && SubscriptionKept(raw, WithID(NormalSubscription(raw)))
    ensures WithID(NormalSubscription(raw)).id == SubscriptionID(WithID(NormalSubscription(raw))) && NormalSubscription(raw).id == raw.id
  {
    MethodIsKept(raw.httpMethod);
    if raw.path == "" {
      assert !HasPrefix("", "/");
    } else {
      assert HasPrefix(raw.path, "/") <==> raw.path[0] == '/';
    }
    IDIgnoresID(NormalSubscription(raw), WithID(NormalSubscription(raw)));
  }

  lemma MethodIsKept(m: string)
    ensures MethodKept(m, if m == "" then METHOD_POST else Upper(m))
  {
  }

  /** What is left out passes validation, and a path is never at fault. */
  lemma ValidInFields(raw: Subscription)
    ensures ValidSubscription(NormalSubscription(raw)) <==>
            && (raw.space == "" || (|raw.space| >= 3 && IsName(raw.space))) && (raw.kind == "async" || raw.kind == "sync")
            && IsName(raw.eventType) && raw.functionID != ""
            && (raw.httpMethod == "" || Upper(raw.httpMethod) in {"GET", "POST", "DELETE", "PUT", "PATCH", "HEAD", "OPTIONS"})
  {
    DefaultSpaceIsValid();
  }

  lemma DefaultSpaceIsValid()
    ensures ValidSpace("default")
  {
    var s := "default";
    assert forall i :: 0 <= i < |s| ==> s[i] in {'d', 'e', 'f', 'a', 'u', 'l', 't'};
  }

  // ---- What is accepted ----

  /** A function is created when its name is valid and free, updated when it is taken. */
  lemma FunctionWritesAccepted(c: Catalog, raw: Function, space: string)
    requires SpaceKept(raw.space, space)
    ensures ErrorOf(c, CreateFunction(raw)).None? <==> ValidSpace(space) && IsName(raw.id) && space + "/" + raw.id !in c.functions
    ensures ErrorOf(c, UpdateFunction(raw)).None? <==> ValidSpace(space) && IsName(raw.id) && space + "/" + raw.id in c.functions
  {
  }

  /** A function is deleted exactly when it is stored and no stored subscription calls it and
      no stored event type is authorized by it. */
  lemma FunctionDeletionAccepted(c: Catalog, space: string, id: string)
    requires CatalogOk(c)
    ensures ErrorOf(c, DeleteFunction(space, id)).None? <==>
            && space + "/" + id in c.functions
            && (forall k :: k in c.subscriptions ==> !(c.subscriptions[k].space == space && c.subscriptions[k].functionID == id))
            && (forall k :: k in c.eventTypes ==> !(c.eventTypes[k].space == space && c.eventTypes[k].authorizerID == Some(id)))
  {
    hide CatalogOk, InSpace, Key;
    assert Key(space, id) == space + "/" + id by { KeySpelled(space, id); }
    if Key(space, id) in c.functions {
      FunctionNamed(c, space, id);
      forall k | k in c.subscriptions ensures InSpace(k, space) <==> c.subscriptions[k].space == space {
        SubscriptionInSpace(c, k, space);
      }
      forall k | k in c.eventTypes ensures InSpace(k, space) <==> c.eventTypes[k].space == space {
        EventTypeInSpace(c, k, space);
      }
    }
  }

  lemma KeySpelled(space: string, id: string)
    ensures Key(space, id) == space + "/" + id
  {
  }

  lemma FunctionNamed(c: Catalog, space: string, id: string)
    requires CatalogOk(c) && Key(space, id) in c.functions
    ensures '/' !in space
  {
    FunctionNamedOnce(c, space, id, space, id);
  }

  /** Stored subscriptions are listed below their own space, and only there. */
  lemma SubscriptionInSpace(c: Catalog, k: string, space: string)
    requires CatalogOk(c) && k in c.subscriptions
    ensures InSpace(k, space) <==> c.subscriptions[k].space == space
  {
    hide SubscriptionID, FunctionsOk, EventTypesOk, PathsOk;
    var s := c.subscriptions[k];
    assert Filed(k, s, c.eventTypes, c.functions);
    InOwnSpace(s.space, s.id);
    if InSpace(k, space) {
      NamesHaveNoSlash(s.space);
      IDHasNoSlash(s);
      var rest := k[|space| + 1..];
      assert k == Key(space, rest);
      KeyUnique(s.space, s.id, space, rest);
    }
  }

  lemma EventTypeInSpace(c: Catalog, k: string, space: string)
    requires CatalogOk(c) && k in c.eventTypes && '/' !in space
    ensures InSpace(k, space) <==> c.eventTypes[k].space == space
  {
    hide FunctionsOk, PathsOk, Filed;
    var et := c.eventTypes[k];
    InOwnSpace(et.space, et.name);
    NamesHaveNoSlash(et.space);
    if InSpace(k, space) {
      OnlyInOwnSpace(et.space, et.name, space);
    }
  }

  lemma EventTypeWritesAccepted(c: Catalog, raw: EventType, space: string)
    requires SpaceKept(raw.space, space)
    ensures ErrorOf(c, CreateEventType(raw)).None? <==>
            && ValidSpace(space) && raw.name != "" && space + "/" + raw.name !in c.eventTypes
            && (raw.authorizerID.Some? ==> space + "/" + raw.authorizerID.value in c.functions)
    ensures ErrorOf(c, UpdateEventType(raw)).None? <==>
            && ValidSpace(space) && raw.name != "" && space + "/" + raw.name in c.eventTypes
            && (raw.authorizerID.Some? ==> space + "/" + raw.authorizerID.value in c.functions)
  {
  }

  /** An event type is deleted exactly when it is stored and no stored subscription of its
      space is for it. */
  lemma EventTypeDeletionAccepted(c: Catalog, space: string, name: string)
    requires CatalogOk(c)
    ensures ErrorOf(c, DeleteEventType(space, name)).None? <==>
            && space + "/" + name in c.eventTypes
            && forall k :: k in c.subscriptions ==> !(c.subscriptions[k].space == space && c.subscriptions[k].eventType == name)
  {
    hide CatalogOk, InSpace, Key;
    assert Key(space, name) == space + "/" + name by { KeySpelled(space, name); }
    forall k | k in c.subscriptions ensures InSpace(k, space) <==> c.subscriptions[k].space == space {
      SubscriptionInSpace(c, k, space);
    }
  }

  /** Both subscriptions go the same way: for async ones that includes the function. */
  predicate SameWay(s: Subscription, t: Subscription) {
    && s.space == t.space && s.kind == t.kind && s.eventType == t.eventType && s.path == t.path && s.httpMethod == t.httpMethod
    && (s.kind == TYPE_ASYNC ==> s.functionID == t.functionID)
  }

  ghost predicate AllBytes(c: Catalog) {
    forall k :: k in c.subscriptions ==> BytesOnly(c.subscriptions[k])
  }

  /** An ID is taken exactly when a stored subscription goes the same way. */
  lemma TakenIffSameWay(c: Catalog, s: Subscription)
    requires CatalogOk(c) && AllBytes(c) && BytesOnly(s) && ValidSubscription(s)
    ensures Key(s.space, SubscriptionID(s)) in c.subscriptions <==> exists k :: k in c.subscriptions && SameWay(c.subscriptions[k], s)
  {
    hide SubscriptionID, FunctionsOk, EventTypesOk, PathsOk, BytesOnly;
    var key := Key(s.space, SubscriptionID(s));
    if key in c.subscriptions {
      var t := c.subscriptions[key];
      assert Filed(key, t, c.eventTypes, c.functions);
      NamesHaveNoSlash(s.space);
      IDHasNoSlash(s);
      KeyUnique(s.space, SubscriptionID(s), t.space, t.id);
      SubscriptionIDInjective(s, t);
      assert SameWay(c.subscriptions[key], s);
    }
    forall k | k in c.subscriptions && SameWay(c.subscriptions[k], s) ensures k == key {
      assert Filed(k, c.subscriptions[k], c.eventTypes, c.functions);
      SameWaySameID(c.subscriptions[k], s);
    }
  }

  lemma SameWaySameID(s: Subscription, t: Subscription)
    requires SameWay(s, t)
    ensures SubscriptionID(s) == SubscriptionID(t)
  {
  }

  /** A valid subscription is created exactly when no stored one goes the same way, a sync
      path is free, and its event type and function are stored. */
  lemma SubscriptionCreationAccepted(c: Catalog, raw: Subscription)
    requires CatalogOk(c) && AllBytes(c) && BytesOnly(NormalSubscription(raw))
    ensures var s := NormalSubscription(raw);
            ErrorOf(c, CreateSubscription(raw)).None? <==>
            && ValidSubscription(s)
            && !(exists k :: k in c.subscriptions && SameWay(c.subscriptions[k], s))
            && (s.kind == "sync" ==> PathFree(c.subscriptions, s))
            && s.space + "/" + s.eventType in c.eventTypes && s.space + "/" + s.functionID in c.functions
  {
    hide CatalogOk, AllBytes, BytesOnly, SubscriptionID, PathFree, NormalSubscription, ValidSubscription, SameWay;
    var s := NormalSubscription(raw);
    if ValidSubscription(s) {
      TakenIffSameWay(c, s);
    }
  }

  /** A valid subscription is updated exactly when one is stored under the ID asked for and
      its kind, event type, function, path and method are the stored one's: the function is
      there as long as the stored one is. */
  lemma SubscriptionUpdateAccepted(c: Catalog, id: string, raw: Subscription)
    requires CatalogOk(c)
    ensures var s := NormalSubscription(raw);
            ErrorOf(c, UpdateSubscription(id, raw)).None? <==>
            && ValidSubscription(s) && s.space + "/" + id in c.subscriptions
            && var t := c.subscriptions[s.space + "/" + id];
            s.kind == t.kind && s.eventType == t.eventType && s.functionID == t.functionID && s.path == t.path && s.httpMethod == t.httpMethod
  {
    hide CatalogOk, SubscriptionID, NormalSubscription, ValidSubscription;
    var s := NormalSubscription(raw);
    if ValidSubscription(s) && Key(s.space, id) in c.subscriptions && SameRoute(s, c.subscriptions[Key(s.space, id)]) {
      UpdateFinds(c, id, s);
      CalleeStored(c, Key(s.space, id));
    }
  }

  lemma CalleeStored(c: Catalog, k: string)
    requires CatalogOk(c) && k in c.subscriptions
    ensures Key(c.subscriptions[k].space, c.subscriptions[k].functionID) in c.functions
  {
    assert Filed(k, c.subscriptions[k], c.eventTypes, c.functions);
  }

  /** An update of a stored subscription's metadata alone is always accepted, and changes that
      alone. */
  lemma MetadataUpdateAccepted(c: Catalog, k: string, metadata: map<string, string>)
    requires CatalogOk(c) && k in c.subscriptions
    ensures var s := c.subscriptions[k].(metadata := metadata);
            && ErrorOf(c, UpdateSubscription(s.id, s)).None?
            && Apply(c, UpdateSubscription(s.id, s)) == c.(subscriptions := c.subscriptions[k := s])
  {
    hide CatalogOk, SubscriptionID, NormalSubscription;
    var s := c.subscriptions[k].(metadata := metadata);
    StoredIsNormal(c, k, metadata);
    SubscriptionUpdateAccepted(c, s.id, s);
  }

  lemma StoredIsNormal(c: Catalog, k: string, metadata: map<string, string>)
    requires CatalogOk(c) && k in c.subscriptions
    ensures var s := c.subscriptions[k].(metadata := metadata);
            NormalSubscription(s) == s && ValidSubscription(s) && k == s.space + "/" + s.id
  {
    hide SubscriptionID, FunctionsOk, EventTypesOk, PathsOk;
    var s := c.subscriptions[k];
    assert Filed(k, s, c.eventTypes, c.functions);
    MethodsAreUpper(s.httpMethod);
  }

  lemma MethodsAreUpper(m: string)
    requires m in METHODS
    ensures m != "" && Upper(m) == m
  {
    forall i | 0 <= i < |m| ensures !('a' <= m[i] <= 'z') {
      assert m[i] in "GETPOSTDELETEPUTPATCHHEADOPTIONS";
    }
  }

  /** A subscription is deleted exactly when one of that space and ID is stored. */
  lemma SubscriptionDeletionAccepted(c: Catalog, space: string, id: string)
    requires CatalogOk(c)
    ensures ErrorOf(c, DeleteSubscription(space, id)).None? <==>
            exists k :: k in c.subscriptions && c.subscriptions[k].space == space && c.subscriptions[k].id == id
  {
    hide CatalogOk;
    if ErrorOf(c, DeleteSubscription(space, id)).None? {
      SubscriptionNamedOnce(c, space, id);
    }
    forall k | k in c.subscriptions && c.subscriptions[k].space == space && c.subscriptions[k].id == id ensures k == Key(space, id) {
      assert k == Key(c.subscriptions[k].space, c.subscriptions[k].id) by { StoredIsNormal(c, k, map[]); }
    }
  }

  // ---- What a refusal means ----

  /** What is the matter with the operation when the error is its answer. */
  ghost predicate Explains(c: Catalog, op: Op, err: ServiceError) {
    match err
    case ValidationFailed =>
      || ((op.CreateFunction? || op.UpdateFunction?) && !ValidFunction(NormalFunction(op.fn)))
      || ((op.CreateEventType? || op.UpdateEventType?) && !ValidEventType(NormalEventType(op.et)))
      || ((op.CreateSubscription? || op.UpdateSubscription?) && !ValidSubscription(NormalSubscription(op.sub)))
    case AlreadyExists =>
      || (op.CreateFunction? && FunctionKeyOf(NormalFunction(op.fn)) in c.functions)
      || (op.CreateEventType? && EventTypeKeyOf(NormalEventType(op.et)) in c.eventTypes)
      || (op.CreateSubscription? && Key(NormalSubscription(op.sub).space, SubscriptionID(NormalSubscription(op.sub))) in c.subscriptions)
    case PathConflict => op.CreateSubscription? && op.sub.kind == TYPE_SYNC && !PathFree(c.subscriptions, NormalSubscription(op.sub))
    case InvalidUpdate => op.UpdateSubscription? && exists k :: k in c.subscriptions && !SameRoute(NormalSubscription(op.sub), c.subscriptions[k])
    case FunctionNotFound =>
      || (op.UpdateFunction? && FunctionKeyOf(NormalFunction(op.fn)) !in c.functions)
      || (op.DeleteFunction? && Key(op.space, op.id) !in c.functions)
      || ((op.CreateSubscription? || op.UpdateSubscription?) && Key(NormalSubscription(op.sub).space, op.sub.functionID) !in c.functions)
    case EventTypeNotFound =>
      || (op.UpdateEventType? && EventTypeKeyOf(NormalEventType(op.et)) !in c.eventTypes)
      || (op.DeleteEventType? && Key(op.space, op.name) !in c.eventTypes)
      || (op.CreateSubscription? && Key(NormalSubscription(op.sub).space, op.sub.eventType) !in c.eventTypes)
    case SubscriptionNotFound =>
      || (op.UpdateSubscription? && Key(NormalSubscription(op.sub).space, op.id) !in c.subscriptions)
      || (op.DeleteSubscription? && Key(op.space, op.id) !in c.subscriptions)
    case AuthorizerMissing =>
      && (op.CreateEventType? || op.UpdateEventType?) && op.et.authorizerID.Some?
      && Key(NormalEventType(op.et).space, op.et.authorizerID.value) !in c.functions
    case HasSubscriptions =>
      || (op.DeleteFunction? && exists k :: k in c.subscriptions && InSpace(k, op.space) && c.subscriptions[k].functionID == op.id)
      || (op.DeleteEventType? && exists k :: k in c.subscriptions && InSpace(k, op.space) && c.subscriptions[k].eventType == op.name)
    case IsAuthorizer =>
      op.DeleteFunction? && exists k :: k in c.eventTypes && InSpace(k, op.space) && c.eventTypes[k].authorizerID == Some(op.id)
  }

  /** Every refusal names something that is the matter. */
  lemma RefusalExplained(c: Catalog, op: Op)
    requires ErrorOf(c, op).Some?
    ensures Explains(c, op, ErrorOf(c, op).value)
  {
    hide ValidFunction, ValidEventType, ValidSubscription, PathFree, SubscriptionID, Upper, InSpace, Key;
    if op.UpdateSubscription? && ErrorOf(c, op) == Some(InvalidUpdate) {
      assert !SameRoute(NormalSubscription(op.sub), c.subscriptions[Key(NormalSubscription(op.sub).space, op.id)]);
    }
  }
}
