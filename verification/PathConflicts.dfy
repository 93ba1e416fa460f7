/** Why rebuilding a tree from a listing decides path conflicts, whatever the order of the
    listing and although errors for existing paths are ignored. */
module PathConflicts {
  import opened Wrappers
  import opened Entities
  import opened Strings
  import opened Patterns
  import opened RouteTrie
  import opened RouteTable
  import opened Catalog
  import opened ServiceModel
  import opened Store

  /** The listed value is a sync subscription for the same method and event type. */
  predicate Competing(v: Value, s: Subscription) {
    v.SubscriptionValue? && v.sub.kind == TYPE_SYNC && v.sub.httpMethod == s.httpMethod && v.sub.eventType == s.eventType
  }

  ghost function PatternsOf(kvs: seq<Pair>, s: Subscription): set<Path> {
    set j | 0 <= j < |kvs| && Competing(kvs[j].1, s) :: PatternOf(kvs[j].1.sub)
  }

  /** The competing paths of a listing are well-formed and pairwise compatible. */
  ghost predicate ListedOk(kvs: seq<Pair>, s: Subscription) {
    && (forall j :: 0 <= j < |kvs| && Competing(kvs[j].1, s) ==> Locate(kvs[j].1.sub.path).Some? && WellFormed(PatternOf(kvs[j].1.sub)))
    && (forall j, l :: 0 <= j < |kvs| && 0 <= l < |kvs| && j != l && Competing(kvs[j].1, s) && Competing(kvs[l].1, s) ==>
          Compatible(PatternOf(kvs[j].1.sub), PatternOf(kvs[l].1.sub)))
  }

  /** Distinct stored subscriptions of one tree are compatible, so the listing is in order. */
  lemma ListedPathsOk(kvs: seq<Pair>, s: Subscription, subs: map<string, Subscription>)
    requires PathsOk(subs) && s.kind == TYPE_SYNC && DistinctKeys(kvs)
    requires forall j :: 0 <= j < |kvs| && Competing(kvs[j].1, s) ==>
               kvs[j].0 in subs && subs[kvs[j].0] == kvs[j].1.sub && kvs[j].1.sub.space == s.space && HasPrefix(kvs[j].1.sub.path, "/")
    ensures ListedOk(kvs, s)
  {
    hide Compatible, WellFormed;
    forall j | 0 <= j < |kvs| && Competing(kvs[j].1, s)
      ensures Locate(kvs[j].1.sub.path).Some? && WellFormed(PatternOf(kvs[j].1.sub))
    {
      LocateRenders(kvs[j].1.sub.path);
    }
    forall j, l | 0 <= j < |kvs| && 0 <= l < |kvs| && j != l && Competing(kvs[j].1, s) && Competing(kvs[l].1, s)
      ensures Compatible(PatternOf(kvs[j].1.sub), PatternOf(kvs[l].1.sub))
    {
      assert kvs[j].0 != kvs[l].0;
      assert SameTree(subs[kvs[j].0], subs[kvs[l].0]);
    }
  }

  lemma ListedHasPath(kvs: seq<Pair>, i: nat, s: Subscription)
    requires ListedOk(kvs, s) && i < |kvs| && Competing(kvs[i].1, s)
    ensures Locate(kvs[i].1.sub.path) == Some(PatternOf(kvs[i].1.sub))
  {
  }

  lemma PatternsStart(s: Subscription)
    ensures PatternsOf([], s) == {} && TrieOk(Empty()) && Live(Empty()) && Routes(Empty()).Keys == {}
  {
  }

  /** Adding the next existing path never fails. */
  lemma NextListed(t: Trie, kvs: seq<Pair>, i: nat, s: Subscription, f: FunctionKey)
    requires i < |kvs| && ListedOk(kvs, s)
    requires TrieOk(t) && Live(t) && Routes(t).Keys == PatternsOf(kvs[..i], s)
    ensures if !Competing(kvs[i].1, s) then PatternsOf(kvs[..i + 1], s) == PatternsOf(kvs[..i], s)
            else
              var t' := Added(t, PatternOf(kvs[i].1.sub), f);
              TrieOk(t') && Live(t') && Routes(t').Keys == PatternsOf(kvs[..i + 1], s)
  {
    hide TrieOk, Live, Compatible, AddErrorOf, Added;
    NextPattern(kvs, i, s);
    if Competing(kvs[i].1, s) {
      var p := PatternOf(kvs[i].1.sub);
      forall q | q in Routes(t) ensures Compatible(p, q) {
        assert q in PatternsOf(kvs[..i], s);
      }
      AcceptedIffCompatible(t, p);
      AddedKeepsOk(t, p, f);
      AddedKeepsLive(t, p, f);
      AddedInTable(t, p, f);
    }
  }

  lemma NextPattern(kvs: seq<Pair>, i: nat, s: Subscription)
    requires i < |kvs|
    ensures PatternsOf(kvs[..i + 1], s) == PatternsOf(kvs[..i], s) + if Competing(kvs[i].1, s) then {PatternOf(kvs[i].1.sub)} else {}
  {
    var next := kvs[..i + 1];
    assert forall j :: 0 <= j < i ==> next[j] == kvs[..i][j];
    assert next[i] == kvs[i];
    forall p | p in PatternsOf(kvs[..i], s) ensures p in PatternsOf(next, s) {
      var j :| 0 <= j < i && Competing(kvs[..i][j].1, s) && PatternOf(kvs[..i][j].1.sub) == p;
      assert Competing(next[j].1, s) && PatternOf(next[j].1.sub) == p;
    }
    forall p | p in PatternsOf(next, s)
      ensures p in PatternsOf(kvs[..i], s) || (Competing(kvs[i].1, s) && p == PatternOf(kvs[i].1.sub))
    {
      var j :| 0 <= j < i + 1 && Competing(next[j].1, s) && PatternOf(next[j].1.sub) == p;
      if j < i {
        assert Competing(kvs[..i][j].1, s) && PatternOf(kvs[..i][j].1.sub) == p;
      }
    }
    if Competing(kvs[i].1, s) {
      assert Competing(next[i].1, s);
    }
  }

  /** With all existing paths in, the tree accepts the new one exactly when it is free. */
  lemma AcceptedIffFree(t: Trie, kvs: seq<Pair>, s: Subscription, subs: map<string, Subscription>)
    requires TrieOk(t) && Live(t) && Routes(t).Keys == PatternsOf(kvs, s)
    requires forall j :: 0 <= j < |kvs| && Competing(kvs[j].1, s) ==>
               kvs[j].0 in subs && subs[kvs[j].0] == kvs[j].1.sub && SameTree(subs[kvs[j].0], s)
    requires forall k :: k in subs && SameTree(subs[k], s) ==> exists j :: 0 <= j < |kvs| && kvs[j].1 == SubscriptionValue(subs[k])
    ensures AddErrorOf(t, PatternOf(s)).None? <==> PathFree(subs, s)
  {
    hide TrieOk, Live, Compatible, AddErrorOf, WellFormed;
    AcceptedIffCompatible(t, PatternOf(s));
    forall k | k in subs && SameTree(subs[k], s) ensures PatternOf(subs[k]) in Routes(t) {
      var j :| 0 <= j < |kvs| && kvs[j].1 == SubscriptionValue(subs[k]);
      assert Competing(kvs[j].1, s);
    }
    forall q | q in Routes(t) ensures exists k :: k in subs && SameTree(subs[k], s) && PatternOf(subs[k]) == q {
      assert q in PatternsOf(kvs, s);
      var j :| 0 <= j < |kvs| && Competing(kvs[j].1, s) && PatternOf(kvs[j].1.sub) == q;
      assert SameTree(subs[kvs[j].0], s);
    }
  }
}
