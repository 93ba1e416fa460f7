/** Runs of `AddRoute` and `DeleteRoute` against the plain table of registered routes. */
module RouteHistory {
  import opened Wrappers
  import opened Entities
  import opened Strings
  import opened Patterns
  import opened RouteTrie
  import opened RouteTable

  datatype RouteOp = Add(p: Path, v: FunctionKey) | Delete(p: Path)

  /** The tree beside the table a caller believes it holds. */
  datatype State = State(trie: Trie, table: Table)

  /** Accepted routes are registered; only registered routes are deleted. */
  ghost function Step(s: State, op: RouteOp): State {
    match op
    case Add(p, v) => State(Added(s.trie, p, v), if AddErrorOf(s.trie, p).None? then s.table[p := v] else s.table)
    case Delete(p) => if p in s.table then State(Removed(s.trie, p), s.table - {p}) else s
  }

  ghost function Run(ops: seq<RouteOp>): State {
    if ops == [] then State(Empty(), map[]) else Step(Run(ops[..|ops| - 1]), ops[|ops| - 1])
  }

  ghost predicate TableOk(table: Table) {
    && (forall p :: p in table ==> WellFormed(p))
    && (forall p, q :: p in table && q in table && p != q ==> Compatible(p, q))
  }

  /** After any run the tree holds exactly the table, whose patterns are well-formed and
      pairwise compatible, and deleting any of them is safe. */
  lemma {:induction false} RunKeepsTable(ops: seq<RouteOp>)
    ensures var s := Run(ops);
            && TrieOk(s.trie) && Routes(s.trie) == s.table && TableOk(s.table)
            && (forall p :: p in s.table ==> CanWalkToParent(s.trie, p))
  {
    if ops != [] {
      var before := ops[..|ops| - 1];
      RunKeepsTable(before);
      StepKeepsTable(Run(before), ops[|ops| - 1]);
    }
    var s := Run(ops);
    forall p, q | p in s.table && q in s.table ensures WellFormed(p) && (p != q ==> Compatible(p, q)) && CanWalkToParent(s.trie, p) {
      NodesWellFormed(s.trie, p);
      if p != q {
        NodesCompatible(s.trie, p, q);
      }
      if p != [] {
        PrefixClosed(s.trie, p, Parent(p));
      }
    }
  }

  lemma StepKeepsTable(s: State, op: RouteOp)
    requires TrieOk(s.trie) && Routes(s.trie) == s.table
    ensures TrieOk(Step(s, op).trie) && Routes(Step(s, op).trie) == Step(s, op).table
  {
    match op
    case Add(p, v) =>
      AddedKeepsOk(s.trie, p, v);
      AddedInTable(s.trie, p, v);
    case Delete(p) =>
      RemovedKeepsOk(s.trie, p);
      RemovedFromTable(s.trie, p);
  }

  /** After any run at most one registered pattern matches a path, and the lookup answers
      with that pattern's value, or with nothing when there is none. */
  lemma RunResolves(ops: seq<RouteOp>, path: Path)
    ensures var s := Run(ops);
            && (forall p, q :: p in s.table && q in s.table && Matches(p, path) && Matches(q, path) ==> p == q)
            && (forall p :: p in s.table && Matches(p, path) ==> Lookup(Routes(s.trie), path) == Some(s.table[p]))
            && ((forall p :: p in s.table ==> !Matches(p, path)) ==> Lookup(Routes(s.trie), path) == None)
  {
    RunKeepsTable(ops);
    var s := Run(ops);
    forall p, q | p in s.table && q in s.table && Matches(p, path) && Matches(q, path) ensures p == q {
      AtMostOneMatch(s.trie, p, q, path);
    }
  }

  // ---- Order does not matter ----

  type Entry = (Path, FunctionKey)

  /** Adds the routes one by one; nothing once one of them is refused. */
  ghost function AddAll(rs: seq<Entry>): Option<Trie> {
    if rs == [] then Some(Empty())
    else
      var last := rs[|rs| - 1];
      match AddAll(rs[..|rs| - 1])
      case None => None
      case Some(t) => if AddErrorOf(t, last.0).None? then Some(Added(t, last.0, last.1)) else None
  }

  /** The routes are well-formed and pairwise compatible, none occurring twice. */
  ghost predicate AllFit(rs: multiset<Entry>) {
    && (forall r :: r in rs ==> rs[r] == 1 && WellFormed(r.0))
    && (forall r, q :: r in rs && q in rs && r != q ==> Compatible(r.0, q.0))
  }

  ghost predicate Holds(table: Table, rs: multiset<Entry>) {
    forall p, v :: (p in table && table[p] == v) <==> (p, v) in rs
  }

  lemma OneMoreFits(rs: multiset<Entry>, r: Entry)
    ensures AllFit(rs + multiset{r}) <==> AllFit(rs) && WellFormed(r.0) && forall q :: q in rs ==> Compatible(r.0, q.0)
  {
    var more := rs + multiset{r};
    if AllFit(more) {
      assert r !in rs by { assert more[r] == rs[r] + 1; }
      forall q | q in rs ensures rs[q] == 1 && WellFormed(q.0) && Compatible(r.0, q.0) {
        assert q in more && r in more;
      }
    }
    if AllFit(rs) && WellFormed(r.0) && forall q :: q in rs ==> Compatible(r.0, q.0) {
      assert r !in rs by { NeverCompatibleWithItself(r.0); }
      forall q, u | q in more && u in more && q != u ensures Compatible(q.0, u.0) {
        if u == r { CompatibleSymmetric(r.0, q.0); }
      }
    }
  }

  lemma AddOneMore(t: Trie, rs: multiset<Entry>, r: Entry)
    requires TrieOk(t) && Live(t) && Holds(Routes(t), rs) && AllFit(rs)
    ensures AddErrorOf(t, r.0).None? <==> AllFit(rs + multiset{r})
    ensures AddErrorOf(t, r.0).None? ==> var a := Added(t, r.0, r.1); TrieOk(a) && Live(a) && Holds(Routes(a), rs + multiset{r})
  {
    hide TrieOk, Live, AddErrorOf, Added, Compatible, AllFit, Routes;
    OneMoreFits(rs, r);
    AcceptedIffCompatible(t, r.0);
    forall q | q in Routes(t) ensures (q, Routes(t)[q]) in rs {
    }
    forall q: Entry | q in rs ensures q.0 in Routes(t) {
      assert (q.0, q.1) in rs;
    }
    if AddErrorOf(t, r.0).None? {
      AddedKeepsOk(t, r.0, r.1);
      AddedKeepsLive(t, r.0, r.1);
      AddedInTable(t, r.0, r.1);
      NeverCompatibleWithItself(r.0);
    }
  }

  lemma {:induction false} AddAllIffFit(rs: seq<Entry>)
    ensures AddAll(rs).Some? <==> AllFit(multiset(rs))
    ensures AddAll(rs).Some? ==> var t := AddAll(rs).value; TrieOk(t) && Live(t) && Holds(Routes(t), multiset(rs))
  {
    hide TrieOk, Live, AddErrorOf, Added, Compatible, AllFit, Holds;
    if rs == [] {
      NothingFits();
    } else {
      var front, last := rs[..|rs| - 1], rs[|rs| - 1];
      assert rs == front + [last];
      AddAllIffFit(front);
      OneMoreFits(multiset(front), last);
      if AddAll(front).Some? {
        AddOneMore(AddAll(front).value, multiset(front), last);
      }
    }
  }

  lemma NothingFits()
    ensures AllFit(multiset{}) && TrieOk(Empty()) && Live(Empty()) && Holds(Routes(Empty()), multiset{})
  {
  }

  /** A live tree is determined by its table. */
  lemma LiveTriesEqual(t: Trie, u: Trie)
    requires TrieOk(t) && Live(t) && TrieOk(u) && Live(u) && Routes(t) == Routes(u)
    ensures t == u
  {
    forall q ensures q in t <==> q in u {
      if q in t { HasNode(t, u, q); }
      if q in u { HasNode(u, t, q); }
    }
    forall q | q in t ensures t[q] == u[q] {
      assert q in Routes(t) <==> q in Routes(u);
      assert q in Routes(t) ==> Routes(t)[q] == t[q].value && Routes(u)[q] == u[q].value;
    }
  }

  lemma HasNode(t: Trie, u: Trie, q: Path)
    requires Live(t) && TrieOk(u) && Routes(t) == Routes(u) && q in t
    ensures q in u
  {
    if q != [] {
      assert LeadsToRoute(t, q);
      var r :| r in Routes(t) && q <= r;
      assert r in Routes(u);
      PrefixClosed(u, r, q);
    }
  }

  /** Whether a bag of routes can all be registered, and the tree that results, do not
      depend on the order of insertion. */
  lemma OrderIrrelevant(rs: seq<Entry>, rs': seq<Entry>)
    requires multiset(rs) == multiset(rs')
    ensures AddAll(rs) == AddAll(rs')
  {
    AddAllIffFit(rs);
    AddAllIffFit(rs');
    if AddAll(rs).Some? {
      var t, u := AddAll(rs).value, AddAll(rs').value;
      assert Routes(t) == Routes(u) by {
        forall p ensures p in Routes(t) <==> p in Routes(u) {
          if p in Routes(t) { assert (p, Routes(t)[p]) in multiset(rs'); }
          if p in Routes(u) { assert (p, Routes(u)[p]) in multiset(rs); }
        }
        forall p | p in Routes(t) ensures Routes(t)[p] == Routes(u)[p] {
          assert (p, Routes(t)[p]) in multiset(rs');
        }
      }
      LiveTriesEqual(t, u);
    }
  }
}
