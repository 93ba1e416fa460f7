/** What every interleaving of the worker pool keeps. */
module PoolSafety {
  import opened Wrappers
  import opened Entities
  import opened Strings
  import opened WorkerPool
  import opened PoolTotals

  // ---- What a worker counts for ----

  ghost function Live(w: Worker): int {
    if w.Exited? then 0 else 1
  }

  /** How far the gauge runs ahead of the queue on this worker's account. */
  ghost function Ahead(w: Worker): int {
    if w.Received? then 1 else if w.Counting? then -1 else 0
  }

  ghost predicate Busy(w: Worker) {
    w.Received? || w.Invoking? || w.Sending? || w.Counting? || w.Looking? || w.Called? || w.Finishing?
  }

  /** Busy, and the function of the event not yet decided upon. */
  ghost predicate BeforeCall(w: Worker) {
    w.Received? || w.Invoking? || w.Looking? || (w.Sending? && w.stage.Before?) || (w.Counting? && w.stage.Before?)
  }

  /** The event in process. */
  ghost function InProcess(w: Worker): multiset<Item> {
    if Busy(w) then multiset{w.e} else multiset{}
  }

  ghost function Undecided(w: Worker): multiset<Item> {
    if BeforeCall(w) then multiset{w.e} else multiset{}
  }

  ghost function Offering(producers: seq<Producer>): nat {
    if producers == [] then 0
    else Offering(producers[..|producers| - 1]) + if producers[|producers| - 1].Offered? then 1 else 0
  }

  lemma {:induction false} OfferingMoved(producers: seq<Producer>, p: nat, q: Producer)
    requires p < |producers|
    ensures Offering(producers[p := q]) == Offering(producers) - (if producers[p].Offered? then 1 else 0) + if q.Offered? then 1 else 0
  {
    var last := |producers| - 1;
    if p < last {
      OfferingMoved(producers[..last], p, q);
      assert producers[p := q][..last] == producers[..last][p := q];
    } else {
      assert producers[p := q][..last] == producers[..last];
    }
  }

  // ---- Invariants ----

  /** The wait group counts exactly the workers that have not exited. */
  ghost predicate WaitGroupOk(s: State) {
    s.waitGroup == Total(Live, s.workers)
  }

  /** The gauge is the queue length, less the sends not yet counted, plus the receives not
      yet counted. */
  ghost predicate GaugeOk(s: State) {
    s.gauge == |Queue(s)| - Offering(s.producers) + Total(Ahead, s.workers)
  }

  /** Every attempt is accepted or dropped, the backlog is bounded, and every accepted event
      is queued, in process or processed, each exactly once. */
  ghost predicate Conserved(cfg: Config, s: State) {
    && s.attempts == |s.accepted| + s.dropped && |Queue(s)| <= cfg.backlogLength
    && s.accepted == multiset(Queue(s)) + Held(InProcess, s.workers) + s.processed
  }

  /** Every accepted event waits for its function, or was handed to it once, or was given up;
      nothing is handed over twice. */
  ghost predicate CalledOnce(s: State) {
    s.accepted == multiset(Queue(s)) + Held(Undecided, s.workers) + s.called + s.skipped
  }

  lemma QueueSplits(s: State)
    requires Queue(s) != []
    ensures multiset(Queue(s)) == multiset{Queue(s)[0]} + multiset(Queue(s)[1..])
  {
    assert Queue(s) == [Queue(s)[0]] + Queue(s)[1..];
  }

  // ---- One move of a worker ----

  ghost predicate Makes(cfg: Config, s: State, w: Worker, m: Move, w': Worker) {
    Moved(w, m, Queue(s), HasRoom(cfg, s), s.closed) == Some(w')
  }

  lemma MoveCounts(cfg: Config, s: State, w: Worker, m: Move, w': Worker)
    requires Makes(cfg, s, w, m, w')
    ensures var t := Effect(cfg, s, w, m);
            && t.waitGroup - Live(w') == s.waitGroup - Live(w)
            && t.gauge - |Queue(t)| - Ahead(w') == s.gauge - |Queue(s)| - Ahead(w)
            && t.producers == s.producers
  {
    hide SystemType, AllOfType, IsSystem;
  }

  lemma WorkKeepsCounts(cfg: Config, s: State, i: nat, m: Move)
    requires WaitGroupOk(s) && GaugeOk(s) && NextOfWorker(cfg, s, i, m).Some?
    ensures WaitGroupOk(NextOfWorker(cfg, s, i, m).value) && GaugeOk(NextOfWorker(cfg, s, i, m).value)
  {
    hide Moved, Effect, HasRoom, Live, Ahead, Total, Offering;
    var w' := NextOfWorker(cfg, s, i, m).value.workers[i];
    MoveCounts(cfg, s, s.workers[i], m, w');
    TotalMoved(Live, s.workers, i, w');
    TotalMoved(Ahead, s.workers, i, w');
  }

  ghost function Copies(s: State, x: Item): nat {
    multiset(Queue(s))[x]
  }

  lemma EnqueueCounts(cfg: Config, s: State, e: Item, x: Item)
    ensures var t := Enqueue(cfg, s, e);
            && t.accepted[x] - Copies(t, x) == s.accepted[x] - Copies(s, x)
            && t.attempts - t.dropped - |t.accepted| == s.attempts - s.dropped - |s.accepted|
            && (|Queue(s)| <= cfg.backlogLength ==> |Queue(t)| <= cfg.backlogLength)
            && t.processed == s.processed && t.called == s.called && t.skipped == s.skipped
  {
    assert HasRoom(cfg, s) ==> multiset(Queue(s) + [e]) == multiset(Queue(s)) + multiset{e};
  }

  lemma TakeCounts(s: State, x: Item)
    requires Queue(s) != []
    ensures multiset(Queue(s)[1..])[x] == Copies(s, x) - multiset{Queue(s)[0]}[x]
  {
    QueueSplits(s);
  }

  lemma MoveHolds(w: Worker, m: Move, queue: seq<Item>, room: bool, closed: bool, w': Worker)
    requires Moved(w, m, queue, room, closed) == Some(w')
    ensures m.Take? ==> queue != [] && !Busy(w) && Busy(w') && w'.e == queue[0]
    ensures m.Finish? ==> w.Finishing? && Busy(w) && !Busy(w')
    ensures !m.Take? && !m.Finish? ==> Busy(w') == Busy(w) && (Busy(w) ==> w'.e == w.e)
    ensures m.Send? ==> w.Sending? && w.todo != []
  {
    hide SystemType, AllOfType, IsSystem;
  }

  lemma MoveDecides(w: Worker, m: Move, queue: seq<Item>, room: bool, closed: bool, w': Worker)
    requires Moved(w, m, queue, room, closed) == Some(w')
    ensures m.Take? ==> queue != [] && !BeforeCall(w) && BeforeCall(w') && w'.e == queue[0]
    ensures m.Call? || m.Skip? ==> w.Looking? && BeforeCall(w) && !BeforeCall(w')
    ensures !m.Take? && !m.Call? && !m.Skip? ==> BeforeCall(w') == BeforeCall(w) && (BeforeCall(w) ==> w'.e == w.e)
  {
    hide SystemType, AllOfType, IsSystem;
  }

  ghost predicate SameQueue(s: State, t: State) {
    t.backlog == s.backlog && t.accepted == s.accepted && t.attempts == s.attempts && t.dropped == s.dropped
  }

  lemma EffectOnBags(cfg: Config, s: State, w: Worker, m: Move)
    ensures var t := Effect(cfg, s, w, m);
            && (m.Send? && w.Sending? && w.todo != [] ==> t == Enqueue(cfg, s, w.todo[0]))
            && (m.Take? && Queue(s) != [] ==> t == s.(backlog := Some(Queue(s)[1..])))
            && (m.Finish? && w.Finishing? ==> t == s.(processed := s.processed + multiset{w.e}))
            && (m.Call? && w.Looking? ==> t == s.(called := s.called + multiset{w.e}))
            && (m.Skip? && w.Looking? ==> t == s.(skipped := s.skipped + multiset{w.e}))
            && (!m.Send? && !m.Take? ==> SameQueue(s, t))
            && (!m.Finish? && !m.Send? ==> t.processed == s.processed)
            && (!m.Call? && !m.Skip? && !m.Send? ==> t.called == s.called && t.skipped == s.skipped)
  {
  }

  /** The copies of an event a move of a worker leaves. */
  lemma MoveConserves(cfg: Config, s: State, w: Worker, m: Move, w': Worker, x: Item)
    requires Makes(cfg, s, w, m, w')
    ensures var t := Effect(cfg, s, w, m);
            && t.accepted[x] - Copies(t, x) - InProcess(w')[x] - t.processed[x] == s.accepted[x] - Copies(s, x) - InProcess(w)[x] - s.processed[x]
            && t.attempts - t.dropped - |t.accepted| == s.attempts - s.dropped - |s.accepted|
            && (|Queue(s)| <= cfg.backlogLength ==> |Queue(t)| <= cfg.backlogLength)
  {
    hide Moved, Busy, HasRoom, Enqueue, Effect;
    EffectOnBags(cfg, s, w, m);
    MoveHolds(w, m, Queue(s), HasRoom(cfg, s), s.closed, w');
    if m.Take? {
      TakeCounts(s, x);
    }
    if m.Send? {
      EnqueueCounts(cfg, s, w.todo[0], x);
    }
  }

  lemma MoveCallsOnce(cfg: Config, s: State, w: Worker, m: Move, w': Worker, x: Item)
    requires Makes(cfg, s, w, m, w')
    ensures var t := Effect(cfg, s, w, m);
            t.accepted[x] - Copies(t, x) - Undecided(w')[x] - t.called[x] - t.skipped[x] == s.accepted[x] - Copies(s, x) - Undecided(w)[x] - s.called[x] - s.skipped[x]
  {
    hide Moved, Busy, BeforeCall, HasRoom, Enqueue, Effect;
    EffectOnBags(cfg, s, w, m);
    MoveHolds(w, m, Queue(s), HasRoom(cfg, s), s.closed, w');
    MoveDecides(w, m, Queue(s), HasRoom(cfg, s), s.closed, w');
    if m.Take? {
      TakeCounts(s, x);
    }
    if m.Send? {
      EnqueueCounts(cfg, s, w.todo[0], x);
    }
  }

  // ---- Every interleaving ----

  ghost predicate Accounted(cfg: Config, s: State) {
    WaitGroupOk(s) && GaugeOk(s) && Conserved(cfg, s) && CalledOnce(s)
  }

  lemma WorkConserves(cfg: Config, s: State, i: nat, m: Move)
    requires Conserved(cfg, s) && NextOfWorker(cfg, s, i, m).Some?
    ensures Conserved(cfg, NextOfWorker(cfg, s, i, m).value)
  {
    hide Moved, Effect, HasRoom, Busy, Held;
    var t := NextOfWorker(cfg, s, i, m).value;
    var w, w' := s.workers[i], t.workers[i];
    HeldMoved(InProcess, s.workers, i, w');
    MoveConserves(cfg, s, w, m, w', Item("", 0, FunctionKey("", "")));
    forall x ensures t.accepted[x] == (multiset(Queue(t)) + Held(InProcess, t.workers) + t.processed)[x] {
      MoveConserves(cfg, s, w, m, w', x);
      assert (Held(InProcess, t.workers) + InProcess(w))[x] == (Held(InProcess, s.workers) + InProcess(w'))[x];
    }
  }

  lemma WorkCallsOnce(cfg: Config, s: State, i: nat, m: Move)
    requires CalledOnce(s) && NextOfWorker(cfg, s, i, m).Some?
    ensures CalledOnce(NextOfWorker(cfg, s, i, m).value)
  {
    hide Moved, Effect, HasRoom, BeforeCall, Held;
    var t := NextOfWorker(cfg, s, i, m).value;
    var w, w' := s.workers[i], t.workers[i];
    HeldMoved(Undecided, s.workers, i, w');
    forall x ensures t.accepted[x] == (multiset(Queue(t)) + Held(Undecided, t.workers) + t.called + t.skipped)[x] {
      MoveCallsOnce(cfg, s, w, m, w', x);
      assert (Held(Undecided, t.workers) + Undecided(w))[x] == (Held(Undecided, s.workers) + Undecided(w'))[x];
    }
  }

  lemma StartAccounted(cfg: Config, s: State, a: Action)
    requires Accounted(cfg, s) && NextOfStart(cfg, s, a).Some?
    ensures Accounted(cfg, NextOfStart(cfg, s, a).value)
  {
    hide Total, Held, Offering, Live, Ahead, InProcess, Undecided;
    if a.Spawn? {
      NewWorker(s.workers);
    }
  }

  lemma NewWorker(workers: seq<Worker>)
    ensures Total(Live, workers + [Polling]) == Total(Live, workers) + 1
    ensures Total(Ahead, workers + [Polling]) == Total(Ahead, workers)
    ensures Held(InProcess, workers + [Polling]) == Held(InProcess, workers)
    ensures Held(Undecided, workers + [Polling]) == Held(Undecided, workers)
  {
    TotalMore(Live, workers, Polling);
    TotalMore(Ahead, workers, Polling);
    HeldMore(InProcess, workers, Polling);
    HeldMore(Undecided, workers, Polling);
  }

  lemma EnqueueConserves(cfg: Config, s: State, e: Item)
    requires Conserved(cfg, s) && CalledOnce(s)
    ensures Conserved(cfg, Enqueue(cfg, s, e)) && CalledOnce(Enqueue(cfg, s, e))
  {
    hide Held;
    assert HasRoom(cfg, s) ==> multiset(Queue(s) + [e]) == multiset(Queue(s)) + multiset{e};
  }

  /** What requests do to their own positions and to the gauge. */
  lemma ProducerCounts(cfg: Config, s: State, a: Action)
    requires NextOfProducer(cfg, s, a).Some?
    ensures var t := NextOfProducer(cfg, s, a).value;
            t.gauge - |Queue(t)| + Offering(t.producers) == s.gauge - |Queue(s)| + Offering(s.producers)
            && t.workers == s.workers && t.waitGroup == s.waitGroup
  {
    hide Offering, AllQuit;
    match a
    case Arrive => OfferingMore(s.producers);
    case Offer(p, e) => OfferingMoved(s.producers, p, Offered);
    case Count(p) => OfferingMoved(s.producers, p, Serving);
    case Depart(p) => OfferingMoved(s.producers, p, Gone);
    case _ =>
  }

  ghost predicate SameBags(s: State, t: State) {
    && t.backlog == s.backlog && t.workers == s.workers
    && t.attempts == s.attempts && t.dropped == s.dropped && t.accepted == s.accepted
    && t.called == s.called && t.skipped == s.skipped && t.processed == s.processed
  }

  lemma SameBagsConserve(cfg: Config, s: State, t: State)
    requires Conserved(cfg, s) && CalledOnce(s) && SameBags(s, t)
    ensures Conserved(cfg, t) && CalledOnce(t)
  {
  }

  lemma ProducerBags(cfg: Config, s: State, a: Action)
    requires NextOfProducer(cfg, s, a).Some?
    ensures SameBags(if a.Offer? then Enqueue(cfg, s, a.e) else s, NextOfProducer(cfg, s, a).value)
  {
    hide AllQuit;
  }

  lemma ProducerAccounted(cfg: Config, s: State, a: Action)
    requires Accounted(cfg, s) && NextOfProducer(cfg, s, a).Some?
    ensures Accounted(cfg, NextOfProducer(cfg, s, a).value)
  {
    hide Conserved, CalledOnce, NextOfProducer, Enqueue, SameBags, Total, Offering;
    if a.Offer? {
      EnqueueConserves(cfg, s, a.e);
    }
    ProducerBags(cfg, s, a);
    ProducerCounts(cfg, s, a);
    SameBagsConserve(cfg, if a.Offer? then Enqueue(cfg, s, a.e) else s, NextOfProducer(cfg, s, a).value);
  }

  lemma OfferingMore(producers: seq<Producer>)
    ensures Offering(producers + [Serving]) == Offering(producers)
  {
    assert (producers + [Serving])[..|producers|] == producers;
  }

  lemma NextAccounted(cfg: Config, s: State, a: Action)
    requires Accounted(cfg, s) && Next(cfg, s, a).Some?
    ensures Accounted(cfg, Next(cfg, s, a).value)
  {
    hide WaitGroupOk, GaugeOk, Conserved, CalledOnce, NextOfWorker, NextOfProducer, NextOfStart;
    match a
    case Work(i, m) =>
      WorkKeepsCounts(cfg, s, i, m);
      WorkConserves(cfg, s, i, m);
      WorkCallsOnce(cfg, s, i, m);
    case Start => StartAccounted(cfg, s, a);
    case Spawn => StartAccounted(cfg, s, a);
    case Started => StartAccounted(cfg, s, a);
    case DrainBegin => DrainAccounted(cfg, s, a);
    case DrainPass(_) => DrainAccounted(cfg, s, a);
    case DrainReturn(_) => DrainAccounted(cfg, s, a);
    case _ => ProducerAccounted(cfg, s, a);
  }

  lemma DrainAccounted(cfg: Config, s: State, a: Action)
    requires Accounted(cfg, s) && NextOfDrain(s, a).Some?
    ensures Accounted(cfg, NextOfDrain(s, a).value)
  {
    hide Total, Held, Offering;
  }

  /** In every reachable state of every interleaving the wait group, the gauge and the
      bags of events are accounted for. */
  lemma {:induction false} RunAccounted(cfg: Config, s: State, actions: seq<Action>)
    requires Accounted(cfg, s) && Run(cfg, s, actions).Some?
    ensures Accounted(cfg, Run(cfg, s, actions).value)
    decreases |actions|
  {
    if actions != [] {
      hide Accounted, Next;
      NextAccounted(cfg, s, actions[0]);
      RunAccounted(cfg, Next(cfg, s, actions[0]).value, actions[1..]);
    }
  }

  lemma InitiallyAccounted(cfg: Config)
    ensures Accounted(cfg, Initial())
  {
  }

  /** So in every interleaving: nothing is lost, nothing is processed or handed to a function
      more often than it was accepted, the backlog is bounded, and every attempt is either
      accepted or counted as dropped. */
  lemma NothingLostNothingTwice(cfg: Config, actions: seq<Action>)
    requires Run(cfg, Initial(), actions).Some?
    ensures var s := Run(cfg, Initial(), actions).value;
            && s.accepted == multiset(Queue(s)) + Held(InProcess, s.workers) + s.processed
            && s.called + s.skipped <= s.accepted && s.processed <= s.accepted
            && |Queue(s)| <= cfg.backlogLength && s.attempts == |s.accepted| + s.dropped
  {
    InitiallyAccounted(cfg);
    RunAccounted(cfg, Initial(), actions);
  }
}
