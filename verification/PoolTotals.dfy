/** Sums over the workers of a pool. */
module PoolTotals {
  import opened WorkerPool

  ghost function Total(f: Worker -> int, workers: seq<Worker>): int {
    if workers == [] then 0 else Total(f, workers[..|workers| - 1]) + f(workers[|workers| - 1])
  }

  lemma {:induction false} TotalMoved(f: Worker -> int, workers: seq<Worker>, i: nat, w: Worker)
    requires i < |workers|
    ensures Total(f, workers[i := w]) == Total(f, workers) - f(workers[i]) + f(w)
  {
    var last := |workers| - 1;
    if i < last {
      TotalMoved(f, workers[..last], i, w);
      assert workers[i := w][..last] == workers[..last][i := w];
    } else {
      assert workers[i := w][..last] == workers[..last];
    }
  }

  lemma TotalMore(f: Worker -> int, workers: seq<Worker>, w: Worker)
    ensures Total(f, workers + [w]) == Total(f, workers) + f(w)
  {
    assert (workers + [w])[..|workers|] == workers;
  }

  lemma {:induction false} TotalAtLeast(f: Worker -> int, workers: seq<Worker>, i: nat)
    requires i < |workers| && forall w :: f(w) >= 0
    ensures Total(f, workers) >= f(workers[i])
  {
    var last := |workers| - 1;
    if i < last {
      TotalAtLeast(f, workers[..last], i);
    } else {
      TotalNonNegative(f, workers[..last]);
    }
  }

  lemma {:induction false} TotalNonNegative(f: Worker -> int, workers: seq<Worker>)
    requires forall w :: f(w) >= 0
    ensures Total(f, workers) >= 0
  {
    if workers != [] {
      TotalNonNegative(f, workers[..|workers| - 1]);
    }
  }

  /** The items the workers hold, by what a worker at each place holds. */
  ghost function Held(h: Worker -> multiset<Item>, workers: seq<Worker>): multiset<Item> {
    if workers == [] then multiset{} else Held(h, workers[..|workers| - 1]) + h(workers[|workers| - 1])
  }

  lemma {:induction false} HeldMoved(h: Worker -> multiset<Item>, workers: seq<Worker>, i: nat, w: Worker)
    requires i < |workers|
    ensures Held(h, workers[i := w]) + h(workers[i]) == Held(h, workers) + h(w)
  {
    var last := |workers| - 1;
    var front, more := workers[..last], workers[i := w];
    assert Held(h, more) == Held(h, more[..last]) + h(more[last]);
    if i < last {
      HeldMoved(h, front, i, w);
      assert more[..last] == front[i := w];
      Exchange(Held(h, front[i := w]), h(workers[i]), Held(h, front), h(w), h(workers[last]));
    } else {
      assert more[..last] == front;
      Exchange(h(w), h(workers[i]), h(workers[i]), h(w), Held(h, front));
    }
  }

  lemma Exchange(a: multiset<Item>, b: multiset<Item>, c: multiset<Item>, d: multiset<Item>, e: multiset<Item>)
    requires a + b == c + d
    ensures a + e + b == c + e + d && e + a + b == e + c + d
  {
    assert a + e + b == a + b + e && c + e + d == c + d + e && e + a + b == a + b + e && e + c + d == c + d + e;
  }

  lemma HeldMore(h: Worker -> multiset<Item>, workers: seq<Worker>, w: Worker)
    ensures Held(h, workers + [w]) == Held(h, workers) + h(w)
  {
    assert (workers + [w])[..|workers|] == workers;
  }

  lemma {:induction false} NothingHeld(h: Worker -> multiset<Item>, workers: seq<Worker>)
    requires forall i :: 0 <= i < |workers| ==> h(workers[i]) == multiset{}
    ensures Held(h, workers) == multiset{}
  {
    if workers != [] {
      var front := workers[..|workers| - 1];
      forall i | 0 <= i < |front| ensures h(front[i]) == multiset{} {
        assert front[i] == workers[i];
      }
      NothingHeld(h, front);
      assert h(workers[|workers| - 1]) == multiset{};
      assert Held(h, workers) == multiset{} + multiset{};
    }
  }
}
