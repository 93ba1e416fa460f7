/** The cache of functions, keyed by what the store key splits into
    (`internal/cache/function_cache.go`). */
module FunctionCache {
  import opened Wrappers
  import opened Entities
  import opened Strings
  import opened Catalog
  import opened Watcher

  type Cached = map<FunctionKey, Function>

  /** The source indexes the second piece of the split key without looking. */
  predicate HasTwoPieces(key: string) {
    |Split(key, '/')| >= 2
  }

  function SplitKey(key: string): FunctionKey
    requires HasTwoPieces(key)
  {
    FunctionKey(Split(key, '/')[0], Split(key, '/')[1])
  }

  class FunctionCache {
    var cache: Cached

    constructor ()
      ensures cache == map[]
    {
      cache := map[];
    }

    method Modified(k: string, v: Value)
      requires v.FunctionValue? ==> HasTwoPieces(k)
      modifies this
      ensures cache == if v.FunctionValue? then old(cache)[SplitKey(k) := v.fn] else old(cache)
    {
      if !v.FunctionValue? {
        return;
      }
      var segments := Split(k, '/');
      cache := cache[FunctionKey(segments[0], segments[1]) := v.fn];
    }

    method Deleted(k: string, v: Value)
      requires HasTwoPieces(k)
      modifies this
      ensures cache == old(cache) - {SplitKey(k)}
    {
      var segments := Split(k, '/');
      cache := cache - {FunctionKey(segments[0], segments[1])};
    }
  }

  /** What one event does to the cache; nothing when the key has no second piece. */
  ghost function Tell(root: string, c: Cached, e: Event): Option<Cached> {
    var key := TrimPrefix(e.key, root);
    if e.Modified? && !e.value.FunctionValue? then Some(c)
    else if !HasTwoPieces(key) then None
    else if e.Modified? then Some(c[SplitKey(key) := e.value.fn])
    else Some(c - {SplitKey(key)})
  }

  ghost function Fold(root: string, events: seq<Event>): Option<Cached> {
    if events == [] then Some(map[])
    else
      match Fold(root, events[..|events| - 1])
      case None => None
      case Some(c) => Tell(root, c, events[|events| - 1])
  }

  lemma FoldOneMore(root: string, events: seq<Event>, e: Event)
    ensures Fold(root, events + [e]) == if Fold(root, events).None? then None else Tell(root, Fold(root, events).value, e)
  {
    assert (events + [e])[..|events|] == events;
  }

  /** Prefixing on the way in, trimming and splitting on the way out give the key back. */
  lemma KeyChain(root: string, space: string, id: string)
    requires '/' !in space && '/' !in id
    ensures var key := TrimPrefix(root + Key(space, id), root);
            key == Key(space, id) && HasTwoPieces(key) && SplitKey(key) == FunctionKey(space, id)
  {
    assert HasPrefix(root + Key(space, id), root);
    SplitOfPrefix(space, id, '/');
    SplitWithoutSeparator(id, '/');
    assert Key(space, id) == space + ['/'] + id;
    assert ([space] + [id])[0] == space && ([space] + [id])[1] == id;
  }

  /** The cache and the stored functions say the same about every space and ID. */
  ghost predicate Agrees(c: Cached, fns: map<string, Function>) {
    forall fk: FunctionKey :: (fk in c <==> Key(fk.space, fk.id) in fns) && (fk in c ==> c[fk] == fns[Key(fk.space, fk.id)])
  }

  lemma WriteAgrees(root: string, c: Cached, fns: map<string, Function>, fn: Function)
    requires Agrees(c, fns) && '/' !in fn.space && '/' !in fn.id
    ensures var key := FunctionKeyOf(fn);
            Tell(root, c, Modified(root + key, FunctionValue(fn))).Some?
            && Agrees(Tell(root, c, Modified(root + key, FunctionValue(fn))).value, fns[key := fn])
  {
    KeyChain(root, fn.space, fn.id);
    forall fk: FunctionKey ensures Key(fk.space, fk.id) == FunctionKeyOf(fn) <==> fk == FunctionKey(fn.space, fn.id) {
      if Key(fk.space, fk.id) == FunctionKeyOf(fn) {
        KeyUnique(fn.space, fn.id, fk.space, fk.id);
      }
    }
  }

  lemma DeleteAgrees(root: string, c: Cached, fns: map<string, Function>, space: string, id: string, v: Value)
    requires Agrees(c, fns) && '/' !in space && '/' !in id
    ensures var e := Event.Deleted(root + Key(space, id), v);
            Tell(root, c, e).Some? && Agrees(Tell(root, c, e).value, fns - {Key(space, id)})
  {
    KeyChain(root, space, id);
    forall fk: FunctionKey ensures Key(fk.space, fk.id) == Key(space, id) <==> fk == FunctionKey(space, id) {
      if Key(fk.space, fk.id) == Key(space, id) {
        KeyUnique(space, id, fk.space, fk.id);
      }
    }
  }
}
