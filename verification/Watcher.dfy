/** One watch session: store changes become Modified and Deleted events
    (`internal/cache/watcher.go`). */
module Watcher {
  import opened Wrappers
  import opened Entities
  import opened Strings

  /** A change reported by the store; no value means the key is gone. */
  datatype KVPair = KVPair(key: string, value: Option<Value>)

  datatype Event = Modified(key: string, value: Value) | Deleted(key: string, value: Value)

  /** The session's memory of the last value per key, and what it has sent so far. */
  datatype Session = Session(cache: map<string, Value>, outgoing: seq<Event>)

  function Observe(path: string, s: Session, kv: KVPair): Session {
    if kv.key == path then s
    else match kv.value
      case Some(v) => Session(s.cache[kv.key := v], s.outgoing + [Modified(kv.key, v)])
      case None =>
        if kv.key in s.cache then Session(s.cache - {kv.key}, s.outgoing + [Deleted(kv.key, s.cache[kv.key])])
        else s
  }

  function Watch(path: string, changes: seq<KVPair>): Session {
    if changes == [] then Session(map[], [])
    else Observe(path, Watch(path, changes[..|changes| - 1]), changes[|changes| - 1])
  }

  function Flatten(batches: seq<seq<KVPair>>): seq<KVPair> {
    if batches == [] then [] else Flatten(batches[..|batches| - 1]) + batches[|batches| - 1]
  }

  lemma WatchNothing(path: string)
    ensures Watch(path, Flatten([])) == Session(map[], [])
  {
  }

  lemma WatchOneMore(path: string, changes: seq<KVPair>, kv: KVPair)
    ensures Watch(path, changes + [kv]) == Observe(path, Watch(path, changes), kv)
  {
    assert (changes + [kv])[..|changes|] == changes;
  }

  lemma FlattenOneMore(batches: seq<seq<KVPair>>, batch: seq<KVPair>)
    ensures Flatten(batches + [batch]) == Flatten(batches) + batch
  {
    assert (batches + [batch])[..|batches|] == batches;
  }

  class Watcher {
    const path: string

    /** The root and relative paths make the source panic; a trailing slash is added. */
    constructor (path: string)
      requires path != "/" && HasPrefix(path, "/")
      ensures this.path == if path[|path| - 1] == '/' then path else path + "/"
    {
      this.path := if path[|path| - 1] == '/' then path else path + "/";
    }

    /** Reads batches until the channel closes or shutdown is chosen, which it can be from the
        moment shutdown is asked for: once `closing` batches have been read, if ever.
        `consumed` says how many batches were read. */
    method ProcessEvents(incoming: seq<seq<KVPair>>, closing: Option<nat>)
      returns (shutdown: bool, outgoing: seq<Event>, consumed: nat)
      ensures consumed <= |incoming|
      ensures if shutdown then closing.Some? && closing.value <= consumed else consumed == |incoming|
      ensures outgoing == Watch(path, Flatten(incoming[..consumed])).outgoing
    {
      hide Watch, Flatten;
      WatchNothing(path);
      var cache: map<string, Value> := map[];
      outgoing, consumed := [], 0;
      while true
        invariant consumed <= |incoming|
        invariant Watch(path, Flatten(incoming[..consumed])) == Session(cache, outgoing)
        decreases |incoming| - consumed
      {
        if closing.Some? && closing.value <= consumed {
          var chosen: bool := *;
          if chosen {
            return true, outgoing, consumed;
          }
        }
        if consumed == |incoming| {
          return false, outgoing, consumed;
        }
        var kvs := incoming[consumed];
        ghost var before := Flatten(incoming[..consumed]);
        var i := 0;
        assert before + kvs[..0] == before;
        while i < |kvs|
          invariant 0 <= i <= |kvs|
          invariant Watch(path, before + kvs[..i]) == Session(cache, outgoing)
        {
          var kv := kvs[i];
          assert before + kvs[..i + 1] == before + kvs[..i] + [kv];
          WatchOneMore(path, before + kvs[..i], kv);
          i := i + 1;
          if kv.key == path {
            continue;
          }
          match kv.value {
            case Some(v) =>
              outgoing := outgoing + [Modified(kv.key, v)];
              cache := cache[kv.key := v];
            case None =>
              if kv.key in cache {
                outgoing := outgoing + [Deleted(kv.key, cache[kv.key])];
                cache := cache - {kv.key};
              }
          }
        }
        assert kvs[..i] == kvs && incoming[..consumed + 1] == incoming[..consumed] + [kvs];
        FlattenOneMore(incoming[..consumed], kvs);
        consumed := consumed + 1;
      }
    }
  }

  // ---- What a session tells its listener ----

  function ReplayChanges(path: string, changes: seq<KVPair>): map<string, Value> {
    if changes == [] then map[]
    else
      var before := ReplayChanges(path, changes[..|changes| - 1]);
      var kv := changes[|changes| - 1];
      if kv.key == path then before
      else if kv.value.Some? then before[kv.key := kv.value.value]
      else before - {kv.key}
  }

  function Hear(m: map<string, Value>, e: Event): map<string, Value> {
    match e
    case Modified(k, v) => m[k := v]
    case Deleted(k, _) => m - {k}
  }

  function ReplayEvents(events: seq<Event>): map<string, Value> {
    if events == [] then map[]
    else Hear(ReplayEvents(events[..|events| - 1]), events[|events| - 1])
  }

  lemma ReplayOneMore(events: seq<Event>, e: Event)
    ensures ReplayEvents(events + [e]) == Hear(ReplayEvents(events), e)
  {
    assert (events + [e])[..|events|] == events;
  }

  /** Replaying the events rebuilds the store as the changes describe it, and that is what
      the session remembers. */
  lemma {:induction false} EventsReplayChanges(path: string, changes: seq<KVPair>)
    ensures ReplayEvents(Watch(path, changes).outgoing) == ReplayChanges(path, changes)
    ensures Watch(path, changes).cache == ReplayChanges(path, changes)
  {
    if changes != [] {
      var before, kv := Watch(path, changes[..|changes| - 1]), changes[|changes| - 1];
      EventsReplayChanges(path, changes[..|changes| - 1]);
      if kv.value.Some? {
        ReplayOneMore(before.outgoing, Modified(kv.key, kv.value.value));
      } else if kv.key in before.cache {
        ReplayOneMore(before.outgoing, Deleted(kv.key, before.cache[kv.key]));
      }
    }
  }

  /** The last event about key `k` is at `j` and is a Modified with value `v`. */
  ghost predicate LastTold(events: seq<Event>, j: nat, k: string, v: Value) {
    j < |events| && events[j] == Modified(k, v) && forall l :: j < l < |events| ==> events[l].key != k
  }

  lemma {:induction false} RememberedWasTold(path: string, changes: seq<KVPair>, k: string)
    requires k in Watch(path, changes).cache
    ensures exists j :: LastTold(Watch(path, changes).outgoing, j, k, Watch(path, changes).cache[k])
  {
    var s := Watch(path, changes);
    var front, kv := changes[..|changes| - 1], changes[|changes| - 1];
    var before := Watch(path, front);
    if kv.key != path && kv.key == k {
      assert LastTold(s.outgoing, |before.outgoing|, k, s.cache[k]);
    } else {
      RememberedWasTold(path, front, k);
      var j :| LastTold(before.outgoing, j, k, before.cache[k]);
      assert LastTold(s.outgoing, j, k, s.cache[k]);
    }
  }

  /** A Deleted event follows a Modified of the same key with no event about that key in
      between, and carries exactly the value told then. */
  lemma {:induction false} DeletedCarriesLastValue(path: string, changes: seq<KVPair>, i: nat)
    requires i < |Watch(path, changes).outgoing| && Watch(path, changes).outgoing[i].Deleted?
    ensures var out := Watch(path, changes).outgoing;
            exists j :: LastTold(out[..i], j, out[i].key, out[i].value)
  {
    var out := Watch(path, changes).outgoing;
    var front, kv := changes[..|changes| - 1], changes[|changes| - 1];
    var before := Watch(path, front);
    assert out[..|before.outgoing|] == before.outgoing;
    if i < |before.outgoing| {
      DeletedCarriesLastValue(path, front, i);
      assert out[..i] == before.outgoing[..i];
    } else {
      RememberedWasTold(path, front, kv.key);
    }
  }

  function Writes(path: string, changes: seq<KVPair>): seq<Event> {
    if changes == [] then []
    else
      var kv := changes[|changes| - 1];
      Writes(path, changes[..|changes| - 1]) + if kv.key != path && kv.value.Some? then [Modified(kv.key, kv.value.value)] else []
  }

  function ModifiedOnly(events: seq<Event>): seq<Event> {
    if events == [] then []
    else ModifiedOnly(events[..|events| - 1]) + if events[|events| - 1].Modified? then [events[|events| - 1]] else []
  }

  /** Every write outside the directory key is told once, in order. */
  lemma {:induction false} WritesAreTold(path: string, changes: seq<KVPair>)
    ensures ModifiedOnly(Watch(path, changes).outgoing) == Writes(path, changes)
  {
    if changes != [] {
      var front := changes[..|changes| - 1];
      WritesAreTold(path, front);
      var before, s := Watch(path, front).outgoing, Watch(path, changes).outgoing;
      assert s[..|before|] == before;
      assert |s| > |before| ==> s[..|s| - 1] == before;
    }
  }
}
