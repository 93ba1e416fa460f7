/** What the configuration service stores, and what each of its operations does to it
    (`libkv/function.go`, `libkv/eventtype.go`, `libkv/subscription.go`). */
module Catalog {
  import opened Wrappers
  import opened Entities
  import opened Strings
  import opened Patterns
  import opened Codec

  const DEFAULT_SPACE := "default"
  const METHOD_POST := "POST"
  const METHODS := {"GET", "POST", "DELETE", "PUT", "PATCH", "HEAD", "OPTIONS"}

  /** The three stores, each keyed by `space/id`. */
  datatype Catalog = Catalog(
    functions: map<string, Function>, eventTypes: map<string, EventType>, subscriptions: map<string, Subscription>)

  datatype ServiceError =
    | ValidationFailed | AlreadyExists | PathConflict | InvalidUpdate
    | FunctionNotFound | EventTypeNotFound | SubscriptionNotFound | AuthorizerMissing
    | HasSubscriptions | IsAuthorizer

  // ---- Validation ----

  predicate NameChar(c: char) {
    IsLetter(c) || IsDigit(c) || c == '.' || c == '-' || c == '_'
  }

  predicate IsName(s: string) {
    s != "" && forall i :: 0 <= i < |s| ==> NameChar(s[i])
  }

  predicate ValidSpace(s: string) {
    |s| >= 3 && IsName(s)
  }

  function SpaceOr(s: string): string {
    if s == "" then DEFAULT_SPACE else s
  }

  function Upper(s: string): string {
    seq(|s|, i requires 0 <= i < |s| => if 'a' <= s[i] <= 'z' then (s[i] as int - 32) as char else s[i])
  }

  function NormalFunction(fn: Function): Function {
    fn.(space := SpaceOr(fn.space))
  }

  predicate ValidFunction(fn: Function) {
    ValidSpace(fn.space) && IsName(fn.id)
  }

  function NormalEventType(et: EventType): EventType {
    et.(space := SpaceOr(et.space))
  }

  predicate ValidEventType(et: EventType) {
    ValidSpace(et.space) && et.name != ""
  }

  function NormalSubscription(s: Subscription): Subscription {
    s.(path := EnsurePrefix(s.path, "/"), space := SpaceOr(s.space), httpMethod := if s.httpMethod == "" then METHOD_POST else Upper(s.httpMethod))
  }

  predicate ValidSubscription(s: Subscription) {
    && ValidSpace(s.space) && (s.kind == TYPE_ASYNC || s.kind == TYPE_SYNC) && IsName(s.eventType)
    && s.functionID != "" && HasPrefix(s.path, "/") && s.httpMethod in METHODS
  }

  // ---- Keys and IDs ----

  /** `FunctionKey.String`, `EventTypeKey.String` and `subscriptionPath` alike. */
  function Key(space: string, id: string): string {
    space + "/" + id
  }

  function FunctionKeyOf(fn: Function): string {
    Key(fn.space, fn.id)
  }

  function EventTypeKeyOf(et: EventType): string {
    Key(et.space, et.name)
  }

  predicate InSpace(key: string, space: string) {
    HasPrefix(key, space + "/")
  }

  /** Every Go string is a sequence of bytes. */
  ghost predicate BytesOnly(s: Subscription) {
    IsBytes(s.functionID) && IsBytes(s.path)
  }

  function IDFields(s: Subscription): seq<string> {
    if s.kind == TYPE_ASYNC then [s.kind, s.eventType, s.functionID, PathEscape(s.path), s.httpMethod]
    else [s.kind, s.eventType, PathEscape(s.path), s.httpMethod]
  }

  lemma {:induction false} EscapeIsBytes(s: string)
    requires IsBytes(s)
    ensures IsBytes(PathEscape(s))
  {
    if s != "" {
      EscapeIsBytes(s[1..]);
    }
  }

  lemma IDFieldsAreBytes(s: Subscription)
    requires BytesOnly(s) && ValidSubscription(s)
    ensures IsBytes(Join(IDFields(s), ','))
  {
    hide PathEscape, Join;
    EscapeIsBytes(s.path);
    forall i | 0 <= i < |s.eventType| ensures IsByte(s.eventType[i]) {
      assert NameChar(s.eventType[i]);
    }
    JoinIsBytes(IDFields(s));
  }

  lemma {:induction false} JoinIsBytes(parts: seq<string>)
    requires forall i :: 0 <= i < |parts| ==> IsBytes(parts[i])
    ensures IsBytes(Join(parts, ','))
  {
    if |parts| > 1 {
      JoinIsBytes(parts[1..]);
    }
  }

  /** `newSubscriptionID`. */
  function SubscriptionID(s: Subscription): string {
    Base64(Join(IDFields(s), ','))
  }

  lemma NameHasNo(s: string, c: char)
    requires IsName(s) && !NameChar(c)
    ensures c !in s
  {
  }

  lemma MethodHasNoComma(m: string)
    requires m in METHODS
    ensures ',' !in m
  {
  }

  /** What the ID's text splits into: every field but the function ID is free of commas, so
      the function ID's own pieces stand between the first two and the last two. */
  lemma FieldsSplit(s: Subscription)
    requires ValidSubscription(s)
    ensures Split(Join(IDFields(s), ','), ',') ==
            [s.kind, s.eventType] + (if s.kind == TYPE_ASYNC then Split(s.functionID, ',') else []) + [PathEscape(s.path), s.httpMethod]
  {
    hide PathEscape, Split, IsName;
    NameHasNo(s.eventType, ',');
    EscapedHasNoComma(s.path);
    MethodHasNoComma(s.httpMethod);
    var ends := [PathEscape(s.path), s.httpMethod];
    assert NoneContains(ends, ',');
    SplitOfJoin(ends, ',');
    var tail := Join(ends, ',');
    assert tail == PathEscape(s.path) + [','] + s.httpMethod by { JoinOfTwo(PathEscape(s.path), s.httpMethod); }
    if s.kind == TYPE_ASYNC {
      SplitOfConcat(s.functionID, tail, ',');
      var rest := s.functionID + [','] + tail;
      SplitOfPrefix(s.eventType, rest, ',');
      SplitOfPrefix(s.kind, s.eventType + [','] + rest, ',');
      assert Join(IDFields(s), ',') == s.kind + [','] + (s.eventType + [','] + rest) by { JoinOfFive(s.kind, s.eventType, s.functionID, PathEscape(s.path), s.httpMethod); }
    } else {
      SplitOfPrefix(s.eventType, tail, ',');
      SplitOfPrefix(s.kind, s.eventType + [','] + tail, ',');
      assert Join(IDFields(s), ',') == s.kind + [','] + (s.eventType + [','] + tail) by { JoinOfFour(s.kind, s.eventType, PathEscape(s.path), s.httpMethod); }
    }
  }

  lemma JoinOfTwo(a: string, b: string)
    ensures Join([a, b], ',') == a + [','] + b
  {
    assert [a, b][1..] == [b];
  }

  lemma JoinOfFour(a: string, b: string, c: string, d: string)
    ensures Join([a, b, c, d], ',') == a + [','] + (b + [','] + Join([c, d], ','))
  {
    assert [a, b, c, d][1..] == [b, c, d] && [b, c, d][1..] == [c, d];
  }

  lemma JoinOfFive(a: string, b: string, c: string, d: string, e: string)
    ensures Join([a, b, c, d, e], ',') == a + [','] + (b + [','] + (c + [','] + Join([d, e], ',')))
  {
    assert [a, b, c, d, e][1..] == [b, c, d, e];
    JoinOfFour(b, c, d, e);
  }

  /** Equal IDs mean the same kind, event type, path and method, and for async the same
      function, commas in a function ID notwithstanding. */
  lemma SubscriptionIDInjective(s: Subscription, t: Subscription)
    requires BytesOnly(s) && ValidSubscription(s) && BytesOnly(t) && ValidSubscription(t)
    requires SubscriptionID(s) == SubscriptionID(t)
    ensures s.kind == t.kind && s.eventType == t.eventType && s.path == t.path && s.httpMethod == t.httpMethod
    ensures s.kind == TYPE_ASYNC ==> s.functionID == t.functionID
  {
    hide PathEscape, Join, Split, Base64, IDFields, IsName;
    IDFieldsAreBytes(s);
    IDFieldsAreBytes(t);
    Base64Injective(Join(IDFields(s), ','), Join(IDFields(t), ','));
    FieldsSplit(s);
    FieldsSplit(t);
    var f, g := Split(s.functionID, ','), Split(t.functionID, ',');
    SameFields(s.kind, s.eventType, if s.kind == TYPE_ASYNC then f else [], PathEscape(s.path), s.httpMethod,
               t.kind, t.eventType, if t.kind == TYPE_ASYNC then g else [], PathEscape(t.path), t.httpMethod);
    PathEscapeInjective(s.path, t.path);
    JoinOfSplit(s.functionID, ',');
    JoinOfSplit(t.functionID, ',');
  }

  /** First two, middle, last two. */
  lemma SameFields(a: string, b: string, m: seq<string>, c: string, d: string, a': string, b': string, m': seq<string>, c': string, d': string)
    requires [a, b] + m + [c, d] == [a', b'] + m' + [c', d']
    ensures a == a' && b == b' && m == m' && c == c' && d == d'
  {
    var l, l' := [a, b] + m + [c, d], [a', b'] + m' + [c', d'];
    assert |l| == |m| + 4 && |l'| == |m'| + 4;
    assert l[0] == a && l'[0] == a' && l[1] == b && l'[1] == b';
    assert l[|l| - 2] == c && l'[|l| - 2] == c' && l[|l| - 1] == d && l'[|l| - 1] == d';
    assert l[2..|l| - 2] == m && l'[2..|l| - 2] == m';
  }

  lemma IDHasNoSlash(s: Subscription)
    ensures '/' !in SubscriptionID(s)
  {
    Base64HasNoSlash(Join(IDFields(s), ','));
  }

  /** A key with a single slash can be read in only one way. */
  lemma KeyUnique(space: string, id: string, space': string, id': string)
    requires '/' !in space && '/' !in id && Key(space, id) == Key(space', id')
    ensures space == space' && id == id'
  {
    SplitOfPrefix(space, id, '/');
    SplitWithoutSeparator(id, '/');
    SplitOfConcat(space', id', '/');
    SplitOfOne(space', '/');
    SplitOfOne(id', '/');
    var parts := Split(Key(space, id), '/');
    assert parts == [space] + [id] && parts == [space'] + [id'];
    assert parts[0] == space && parts[0] == space' && parts[1] == id && parts[1] == id';
  }

  /** Slash-free spaces can be read off their keys. */
  lemma SpaceUnique(space: string, id: string, space': string, id': string)
    requires '/' !in space && '/' !in space' && Key(space, id) == Key(space', id')
    ensures space == space' && id == id'
  {
    SplitOfPrefix(space, id, '/');
    SplitOfPrefix(space', id', '/');
    var parts := Split(Key(space, id), '/');
    assert parts == [space] + Split(id, '/') && parts == [space'] + Split(id', '/');
    assert parts[0] == space && parts[0] == space';
    assert (space + "/" + id)[|space| + 1..] == id;
    assert (space' + "/" + id')[|space'| + 1..] == id';
  }

  lemma InOwnSpace(space: string, id: string)
    ensures InSpace(Key(space, id), space)
  {
    assert Key(space, id)[..|space| + 1] == space + "/";
  }

  lemma OnlyInOwnSpace(space: string, id: string, other: string)
    requires '/' !in space && '/' !in other && InSpace(Key(space, id), other)
    ensures space == other
  {
    var rest := Key(space, id)[|other| + 1..];
    assert Key(space, id) == Key(other, rest);
    SpaceUnique(space, id, other, rest);
  }
}
