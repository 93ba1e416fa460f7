/** The shared key-value store and its namespaced views (`internal/store/prefixed.go`). */
module Store {
  import opened Wrappers
  import opened Entities
  import opened Strings
  import opened Watcher

  datatype StoreError = KeyNotFound | KeyExists

  type Pair = (string, Value)

  /** The part of the store below a root, with keys relative to it. */
  ghost function View(root: string, data: map<string, Value>): map<string, Value> {
    map k | k in RelativeKeys(root, data) && root + k in data :: data[root + k]
  }

  ghost function RelativeKeys(root: string, data: map<string, Value>): set<string> {
    set full | full in data && HasPrefix(full, root) :: full[|root|..]
  }

  lemma InView(root: string, data: map<string, Value>, k: string)
    ensures k in RelativeKeys(root, data) <==> root + k in data
  {
    assert HasPrefix(root + k, root) && (root + k)[|root|..] == k;
    forall full | full in data && HasPrefix(full, root) && full[|root|..] == k ensures full == root + k {
    }
  }

  /** Neither root lies below the other. */
  predicate Apart(root: string, other: string) {
    !HasPrefix(root, other) && !HasPrefix(other, root)
  }

  lemma RootPlusInjective(root: string, k: string, l: string)
    requires root + k == root + l
    ensures k == l
  {
    assert (root + k)[|root|..] == k && (root + l)[|root|..] == l;
  }

  lemma PutInView(root: string, data: map<string, Value>, key: string, v: Value)
    ensures View(root, data[root + key := v]) == View(root, data)[key := v]
  {
    var after := View(root, data[root + key := v]);
    forall k ensures k in after <==> k in View(root, data)[key := v] {
      InView(root, data, k);
      InView(root, data[root + key := v], k);
      if root + k == root + key { RootPlusInjective(root, k, key); }
    }
    forall k | k in after ensures after[k] == View(root, data)[key := v][k] {
      InView(root, data, k);
      InView(root, data[root + key := v], k);
      if root + k == root + key { RootPlusInjective(root, k, key); }
    }
  }

  lemma DeleteInView(root: string, data: map<string, Value>, key: string)
    ensures View(root, data - {root + key}) == View(root, data) - {key}
  {
    var after := View(root, data - {root + key});
    forall k ensures k in after <==> k in View(root, data) - {key} {
      InView(root, data, k);
      InView(root, data - {root + key}, k);
      if root + k == root + key { RootPlusInjective(root, k, key); }
    }
    forall k | k in after ensures after[k] == View(root, data)[k] {
      InView(root, data, k);
      InView(root, data - {root + key}, k);
    }
  }

  /** A key below both roots. */
  lemma CommonKey(root: string, other: string, key: string, k: string)
    requires root + key == other + k
    ensures !Apart(root, other)
  {
    var full := root + key;
    assert full[..|root|] == root && full[..|other|] == other;
    if |root| <= |other| {
      assert other[..|root|] == root;
    } else {
      assert root[..|other|] == other;
    }
  }

  lemma ApartKeysDiffer(root: string, other: string, key: string, k: string)
    requires Apart(root, other)
    ensures root + key != other + k
  {
    if root + key == other + k {
      CommonKey(root, other, key, k);
    }
  }

  /** Writing or deleting below one root is not seen below another. */
  lemma OtherViewUntouched(root: string, other: string, data: map<string, Value>, key: string, v: Value)
    requires Apart(root, other)
    ensures View(other, data[root + key := v]) == View(other, data)
    ensures View(other, data - {root + key}) == View(other, data)
  {
    forall k ensures (k in View(other, data[root + key := v]) <==> k in View(other, data))
                     && (k in View(other, data - {root + key}) <==> k in View(other, data)) {
      ApartKeysDiffer(root, other, key, k);
      InView(other, data, k);
      InView(other, data[root + key := v], k);
      InView(other, data - {root + key}, k);
    }
    forall k | k in View(other, data)
      ensures View(other, data[root + key := v])[k] == View(other, data)[k]
      ensures View(other, data - {root + key})[k] == View(other, data)[k]
    {
      ApartKeysDiffer(root, other, key, k);
    }
  }

  /** A listing holds each key below the directory once, in any order. */
  ghost predicate Lists(pairs: seq<Pair>, data: map<string, Value>, dir: string) {
    && (forall i :: 0 <= i < |pairs| ==> pairs[i].0 in data && HasPrefix(pairs[i].0, dir) && pairs[i].1 == data[pairs[i].0])
    && DistinctKeys(pairs)
    && (forall k :: k in data && HasPrefix(k, dir) ==> Contains(pairs, k))
  }

  ghost predicate Contains(pairs: seq<Pair>, k: string) {
    exists i :: 0 <= i < |pairs| && pairs[i].0 == k
  }

  /** The store itself; `feed` is what it reports to watchers. */
  class KV {
    var data: map<string, Value>
    var feed: seq<KVPair>

    constructor ()
      ensures data == map[] && feed == []
    {
      data, feed := map[], [];
    }

    method Put(key: string, v: Value)
      modifies this
      ensures data == old(data)[key := v] && feed == old(feed) + [KVPair(key, Some(v))]
    {
      data, feed := data[key := v], feed + [KVPair(key, Some(v))];
    }

    method Get(key: string) returns (r: Result<Value, StoreError>)
      ensures r == if key in data then Ok(data[key]) else Err(KeyNotFound)
    {
      r := if key in data then Ok(data[key]) else Err(KeyNotFound);
    }

    method Delete(key: string) returns (err: Option<StoreError>)
      modifies this
      ensures err == if key in old(data) then None else Some(KeyNotFound)
      ensures data == old(data) - {key}
      ensures feed == old(feed) + if key in old(data) then [KVPair(key, None)] else []
    {
      if key !in data {
        assert data - {key} == data;
        return Some(KeyNotFound);
      }
      data, feed := data - {key}, feed + [KVPair(key, None)];
      return None;
    }

    /** With no previous pair given, only a missing key is written. */
    method AtomicPut(key: string, v: Value) returns (err: Option<StoreError>)
      modifies this
      ensures err == if key in old(data) then Some(KeyExists) else None
      ensures err.Some? ==> data == old(data) && feed == old(feed)
      ensures err.None? ==> data == old(data)[key := v] && feed == old(feed) + [KVPair(key, Some(v))]
    {
      if key in data {
        return Some(KeyExists);
      }
      Put(key, v);
      return None;
    }

    method List(dir: string) returns (pairs: seq<Pair>)
      ensures Lists(pairs, data, dir)
    {
      var rest := data.Keys;
      pairs := [];
      while rest != {}
        invariant rest <= data.Keys
        invariant forall i :: 0 <= i < |pairs| ==> pairs[i].0 in data && pairs[i].0 !in rest && HasPrefix(pairs[i].0, dir) && pairs[i].1 == data[pairs[i].0]
        invariant forall i, j :: 0 <= i < j < |pairs| ==> pairs[i].0 != pairs[j].0
        invariant forall k :: k in data && k !in rest && HasPrefix(k, dir) ==> Contains(pairs, k)
      {
        var k :| k in rest;
        rest := rest - {k};
        ghost var before := pairs;
        if HasPrefix(k, dir) {
          pairs := pairs + [(k, data[k])];
          assert pairs[|before|].0 == k;
        }
        forall l | l in data && l !in rest && HasPrefix(l, dir) ensures Contains(pairs, l) {
          if l != k {
            var i :| 0 <= i < |before| && before[i].0 == l;
            assert pairs[i].0 == l;
          }
        }
      }
    }
  }

  /** A namespaced view: every operation happens below its root. */
  class Prefixed {
    const root: string
    const kv: KV

    constructor (root: string, kv: KV)
      ensures this.kv == kv
      ensures this.root == if root != "" && root[|root| - 1] == '/' then root else root + "/"
    {
      this.kv := kv;
      this.root := if root != "" && root[|root| - 1] == '/' then root else root + "/";
    }

    ghost function Contents(): map<string, Value>
      reads kv
    {
      View(root, kv.data)
    }

    method Put(key: string, v: Value)
      modifies kv
      ensures kv.data == old(kv.data)[root + key := v] && kv.feed == old(kv.feed) + [KVPair(root + key, Some(v))]
      ensures Contents() == old(Contents())[key := v]
    {
      PutInView(root, kv.data, key, v);
      kv.Put(root + key, v);
    }

    method Get(key: string) returns (r: Result<Value, StoreError>)
      ensures r == if key in Contents() then Ok(Contents()[key]) else Err(KeyNotFound)
    {
      InView(root, kv.data, key);
      r := kv.Get(root + key);
    }

    method Delete(key: string) returns (err: Option<StoreError>)
      modifies kv
      ensures err == if key in old(Contents()) then None else Some(KeyNotFound)
      ensures kv.data == old(kv.data) - {root + key}
      ensures kv.feed == old(kv.feed) + if key in old(Contents()) then [KVPair(root + key, None)] else []
      ensures Contents() == old(Contents()) - {key}
    {
      InView(root, kv.data, key);
      DeleteInView(root, kv.data, key);
      err := kv.Delete(root + key);
    }

    method AtomicPut(key: string, v: Value) returns (err: Option<StoreError>)
      modifies kv
      ensures err == if key in old(Contents()) then Some(KeyExists) else None
      ensures err.Some? ==> kv.data == old(kv.data) && kv.feed == old(kv.feed)
      ensures err.None? ==> kv.data == old(kv.data)[root + key := v] && kv.feed == old(kv.feed) + [KVPair(root + key, Some(v))]
      ensures err.None? ==> Contents() == old(Contents())[key := v]
    {
      InView(root, kv.data, key);
      PutInView(root, kv.data, key, v);
      err := kv.AtomicPut(root + key, v);
    }

    /** The pairs below a directory, relative to the root, without the root's own key. */
    method List(dir: string) returns (pairs: seq<Pair>)
      ensures Lists(pairs, Contents() - {""}, dir)
    {
      var prefixed := kv.List(root + dir);
      pairs := [];
      for i := 0 to |prefixed|
        invariant pairs == Strip(root, prefixed[..i])
      {
        assert prefixed[..i + 1][..i] == prefixed[..i];
        if prefixed[i].0 == root {
          continue;
        }
        pairs := pairs + [(TrimPrefix(prefixed[i].0, root), prefixed[i].1)];
      }
      assert prefixed[..|prefixed|] == prefixed;
      StripLists(root, dir, prefixed, kv.data);
    }
  }

  function Strip(root: string, pairs: seq<Pair>): seq<Pair> {
    if pairs == [] then []
    else
      var last := pairs[|pairs| - 1];
      Strip(root, pairs[..|pairs| - 1]) + if last.0 == root then [] else [(TrimPrefix(last.0, root), last.1)]
  }

  ghost predicate AllBelow(root: string, pairs: seq<Pair>) {
    forall i :: 0 <= i < |pairs| ==> HasPrefix(pairs[i].0, root)
  }

  /** What stripping keeps: each pair but the root's own, under its relative key. */
  lemma {:induction false} StripKeeps(root: string, pairs: seq<Pair>, i: nat)
    requires AllBelow(root, pairs) && i < |Strip(root, pairs)|
    ensures var p := Strip(root, pairs)[i]; p.0 != "" && (root + p.0, p.1) in pairs
  {
    var front, last := pairs[..|pairs| - 1], pairs[|pairs| - 1];
    if i < |Strip(root, front)| {
      StripKeeps(root, front, i);
    } else {
      assert last.0 == root + TrimPrefix(last.0, root);
    }
  }

  lemma {:induction false} StripFinds(root: string, pairs: seq<Pair>, k: string)
    requires AllBelow(root, pairs) && k != "" && Contains(pairs, root + k)
    ensures Contains(Strip(root, pairs), k)
  {
    var front, last := pairs[..|pairs| - 1], pairs[|pairs| - 1];
    var stripped := Strip(root, front);
    if last.0 == root + k {
      assert TrimPrefix(last.0, root) == k && |root + k| > |root|;
      assert Strip(root, pairs)[|stripped|].0 == k;
    } else {
      var i :| 0 <= i < |pairs| && pairs[i].0 == root + k;
      assert front[i].0 == root + k;
      StripFinds(root, front, k);
      var j :| 0 <= j < |stripped| && stripped[j].0 == k;
      assert Strip(root, pairs)[j].0 == k;
    }
  }

  ghost predicate DistinctKeys(pairs: seq<Pair>) {
    forall i, j :: 0 <= i < j < |pairs| ==> pairs[i].0 != pairs[j].0
  }

  lemma {:induction false} StripDistinct(root: string, pairs: seq<Pair>)
    requires AllBelow(root, pairs) && DistinctKeys(pairs)
    ensures DistinctKeys(Strip(root, pairs))
  {
    if pairs != [] {
      var front, last := pairs[..|pairs| - 1], pairs[|pairs| - 1];
      StripDistinct(root, front);
      forall i | 0 <= i < |Strip(root, front)| ensures Strip(root, front)[i].0 != TrimPrefix(last.0, root) {
        StripKeeps(root, front, i);
        assert last.0 == root + TrimPrefix(last.0, root);
      }
    }
  }

  lemma StripLists(root: string, dir: string, pairs: seq<Pair>, data: map<string, Value>)
    requires Lists(pairs, data, root + dir)
    ensures Lists(Strip(root, pairs), View(root, data) - {""}, dir)
  {
    var below := View(root, data) - {""};
    forall i | 0 <= i < |pairs| ensures HasPrefix(pairs[i].0, root) {
      assert pairs[i].0[..|root|] == (root + dir)[..|root|];
    }
    StripDistinct(root, pairs);
    var stripped := Strip(root, pairs);
    forall i | 0 <= i < |stripped|
      ensures stripped[i].0 in below && HasPrefix(stripped[i].0, dir) && stripped[i].1 == below[stripped[i].0]
    {
      StripKeeps(root, pairs, i);
      var k := stripped[i].0;
      InView(root, data, k);
      assert HasPrefix(root + k, root + dir);
      assert k == (root + k)[|root|..] && dir == (root + dir)[|root|..];
    }
    forall k | k in below && HasPrefix(k, dir) ensures Contains(stripped, k) {
      InView(root, data, k);
      assert HasPrefix(root + k, root + dir);
      StripFinds(root, pairs, k);
    }
  }
}
