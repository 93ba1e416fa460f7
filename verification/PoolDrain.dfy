/** Draining the worker pool: what holds when `Drain` returns. */
module PoolDrain {
  import opened Wrappers
  import opened Entities
  import opened WorkerPool
  import opened PoolTotals
  import opened PoolSafety

  /** Workers, backlog and the lock of `StartWorkers` fit together. */
  ghost predicate StartedOk(cfg: Config, s: State) {
    && (s.workers != [] || s.starting.Some? ==> s.backlog.Some?)
    && (s.starting.Some? ==> s.starting.value <= cfg.workersNumber && (s.starting.value < cfg.workersNumber ==> s.workers != []))
    && (s.backlog.Some? && s.starting.None? && cfg.workersNumber >= 1 ==> s.workers != [])
  }

  predicate SawDrain(w: Worker) {
    w.Rechecking? || Quit(w)
  }

  ghost predicate NoneSawDrain(workers: seq<Worker>) {
    forall i :: 0 <= i < |workers| ==> !SawDrain(workers[i])
  }

  ghost predicate NoneBusy(workers: seq<Worker>) {
    forall i :: 0 <= i < |workers| ==> !Busy(workers[i])
  }

  /** Before draining begins nobody has seen it. */
  ghost predicate OpenOk(s: State) {
    !s.closed ==> s.late == 0 && s.stranded == 0 && s.drains == [] && NoneSawDrain(s.workers)
  }

  /** Once no worker will look again, the queue holds exactly what requests put there since
      the last look. */
  ghost predicate StrandedOk(cfg: Config, s: State) {
    && s.stranded <= s.late
    && (s.closed && cfg.workersNumber >= 1 && AllQuit(s.workers) ==> |Queue(s)| == s.stranded)
  }

  /** Nothing is queued or in process, and nothing more will be accepted but late requests. */
  ghost predicate Drained(s: State) {
    s.closed && Queue(s) == [] && NoneBusy(s.workers)
  }

  ghost predicate DrainsOk(cfg: Config, s: State) {
    cfg.workersNumber >= 1 && s.late == 0 && (exists d :: 0 <= d < |s.drains| && !s.drains[d].Begun?) ==> Drained(s)
  }

  ghost predicate DrainingOk(cfg: Config, s: State) {
    StartedOk(cfg, s) && OpenOk(s) && StrandedOk(cfg, s) && DrainsOk(cfg, s) && WaitGroupOk(s)
  }

  // ---- Workers ----

  lemma MoveOfQuitter(w: Worker, m: Move, queue: seq<Item>, room: bool, closed: bool, w': Worker)
    requires Moved(w, m, queue, room, closed) == Some(w')
    ensures Quit(w) ==> m.Leave? && Quit(w')
    ensures !Quit(w) && Quit(w') ==> m.Pass? && w.Rechecking? && queue == []
    ensures SawDrain(w') ==> SawDrain(w) || closed
    ensures queue == [] && !Busy(w) ==> !Busy(w') && !m.Send?
  {
    hide SystemType, AllOfType, IsSystem;
  }

  /** What a move of a worker leaves alone. */
  lemma EffectOnShape(cfg: Config, s: State, w: Worker, m: Move)
    ensures var t := Effect(cfg, s, w, m);
            && t.closed == s.closed && t.starting == s.starting && t.drains == s.drains && t.late == s.late
            && t.backlog.Some? == s.backlog.Some?
            && (m.Leave? ==> t.backlog == s.backlog && t.stranded == s.stranded)
            && (t.stranded == s.stranded || t.stranded == 0) && (m.Pass? && w.Rechecking? ==> t.stranded == 0 && t.backlog == s.backlog)
            && (!m.Send? && Queue(s) == [] ==> Queue(t) == [])
  {
  }

  lemma WorkKeepsDraining(cfg: Config, s: State, i: nat, m: Move)
    requires DrainingOk(cfg, s) && NextOfWorker(cfg, s, i, m).Some?
    ensures DrainingOk(cfg, NextOfWorker(cfg, s, i, m).value)
  {
    hide Moved, Effect, HasRoom, Busy, Quit, SawDrain, WaitGroupOk, GaugeOk;
    var t := NextOfWorker(cfg, s, i, m).value;
    var w, w' := s.workers[i], t.workers[i];
    EffectOnShape(cfg, s, w, m);
    MoveOfQuitter(w, m, Queue(s), HasRoom(cfg, s), s.closed, w');
    WorkKeepsWaitGroup(cfg, s, i, m);
    if AllQuit(t.workers) {
      if Quit(w) {
        OthersQuit(s.workers, i, w');
      }
    }
  }

  lemma WorkKeepsWaitGroup(cfg: Config, s: State, i: nat, m: Move)
    requires WaitGroupOk(s) && NextOfWorker(cfg, s, i, m).Some?
    ensures WaitGroupOk(NextOfWorker(cfg, s, i, m).value)
  {
    hide Moved, Effect, HasRoom, Live, Total;
    var w' := NextOfWorker(cfg, s, i, m).value.workers[i];
    MoveCounts(cfg, s, s.workers[i], m, w');
    TotalMoved(Live, s.workers, i, w');
  }

  lemma OthersQuit(workers: seq<Worker>, i: nat, w: Worker)
    requires i < |workers| && AllQuit(workers[i := w]) && Quit(workers[i])
    ensures AllQuit(workers)
  {
    forall j | 0 <= j < |workers| ensures Quit(workers[j]) {
      assert j != i ==> workers[i := w][j] == workers[j];
    }
  }

  // ---- Everybody else ----

  lemma OneMoreWorker(workers: seq<Worker>)
    ensures NoneSawDrain(workers) ==> NoneSawDrain(workers + [Polling])
    ensures NoneBusy(workers) ==> NoneBusy(workers + [Polling])
    ensures !AllQuit(workers + [Polling])
  {
    assert (workers + [Polling])[|workers|] == Polling;
  }

  lemma SpawnKeepsDraining(cfg: Config, s: State)
    requires DrainingOk(cfg, s) && NextOfStart(cfg, s, Spawn).Some?
    ensures DrainingOk(cfg, NextOfStart(cfg, s, Spawn).value)
  {
    hide Total, Live, NoneSawDrain, NoneBusy, AllQuit;
    NewWorker(s.workers);
    OneMoreWorker(s.workers);
  }

  lemma StartKeepsDraining(cfg: Config, s: State, a: Action)
    requires DrainingOk(cfg, s) && NextOfStart(cfg, s, a).Some?
    ensures DrainingOk(cfg, NextOfStart(cfg, s, a).value)
  {
    hide Total, Live, Busy, Quit, SawDrain;
    if a.Spawn? {
      hide NextOfStart, DrainingOk;
      SpawnKeepsDraining(cfg, s);
    }
  }

  /** What requests leave alone, and what an accepted one changes. */
  lemma ProducerShape(cfg: Config, s: State, a: Action)
    requires NextOfProducer(cfg, s, a).Some?
    ensures var t := NextOfProducer(cfg, s, a).value;
            && t.workers == s.workers && t.closed == s.closed && t.starting == s.starting && t.drains == s.drains
            && t.waitGroup == s.waitGroup && t.backlog.Some? == s.backlog.Some?
            && if a.Offer? && HasRoom(cfg, s) then
                 && |Queue(t)| == |Queue(s)| + 1
                 && t.late == (if s.closed then s.late + 1 else s.late)
                 && t.stranded == (if s.closed && AllQuit(s.workers) then s.stranded + 1 else s.stranded)
               else Queue(t) == Queue(s) && t.late == s.late && t.stranded == s.stranded
  {
    hide AllQuit;
  }

  lemma ProducerKeepsDraining(cfg: Config, s: State, a: Action)
    requires DrainingOk(cfg, s) && NextOfProducer(cfg, s, a).Some?
    ensures DrainingOk(cfg, NextOfProducer(cfg, s, a).value)
  {
    hide Total, Live, NoneSawDrain, NoneBusy, AllQuit, NextOfProducer, HasRoom, Queue;
    ProducerShape(cfg, s, a);
  }

  lemma {:induction false} SomeoneLive(workers: seq<Worker>)
    requires Total(Live, workers) == 0
    ensures forall i :: 0 <= i < |workers| ==> workers[i].Exited?
  {
    forall i | 0 <= i < |workers| ensures workers[i].Exited? {
      TotalAtLeast(Live, workers, i);
    }
  }

  /** When the wait group lets a drain pass, nothing is in process and the queue holds only
      what late requests put there after the last look. */
  lemma AtPass(cfg: Config, s: State)
    requires DrainingOk(cfg, s) && cfg.workersNumber >= 1 && s.closed && s.waitGroup == 0
    ensures |Queue(s)| == s.stranded && NoneBusy(s.workers)
  {
    SomeoneLive(s.workers);
  }

  lemma DrainKeepsDraining(cfg: Config, s: State, a: Action)
    requires DrainingOk(cfg, s) && NextOfDrain(s, a).Some?
    ensures DrainingOk(cfg, NextOfDrain(s, a).value)
  {
    hide Total, Live, Busy;
    match a
    case DrainBegin =>
      var drains := s.drains + [Begun];
      assert forall d :: 0 <= d < |drains| && !drains[d].Begun? ==> drains[d] == s.drains[d];
      if !s.closed && s.workers != [] {
        assert !SawDrain(s.workers[0]);
      }
    case DrainPass(d) =>
      if cfg.workersNumber >= 1 {
        AtPass(cfg, s);
      }
    case DrainReturn(d) =>
      assert !s.drains[d].Begun?;
    case _ =>
  }

  lemma NextKeepsDraining(cfg: Config, s: State, a: Action)
    requires DrainingOk(cfg, s) && Next(cfg, s, a).Some?
    ensures DrainingOk(cfg, Next(cfg, s, a).value)
  {
    hide DrainingOk, NextOfWorker, NextOfProducer, NextOfStart, NextOfDrain;
    match a
    case Work(i, m) => WorkKeepsDraining(cfg, s, i, m);
    case Start => StartKeepsDraining(cfg, s, a);
    case Spawn => StartKeepsDraining(cfg, s, a);
    case Started => StartKeepsDraining(cfg, s, a);
    case DrainBegin => DrainKeepsDraining(cfg, s, a);
    case DrainPass(_) => DrainKeepsDraining(cfg, s, a);
    case DrainReturn(_) => DrainKeepsDraining(cfg, s, a);
    case _ => ProducerKeepsDraining(cfg, s, a);
  }

  lemma {:induction false} RunKeepsDraining(cfg: Config, s: State, actions: seq<Action>)
    requires DrainingOk(cfg, s) && Run(cfg, s, actions).Some?
    ensures DrainingOk(cfg, Run(cfg, s, actions).value)
    decreases |actions|
  {
    if actions != [] {
      hide DrainingOk, Next;
      NextKeepsDraining(cfg, s, actions[0]);
      RunKeepsDraining(cfg, Next(cfg, s, actions[0]).value, actions[1..]);
    }
  }

  // ---- What `Drain` promises ----

  lemma IdleAccount(cfg: Config, s: State)
    requires Conserved(cfg, s) && NoneBusy(s.workers)
    ensures s.accepted == multiset(Queue(s)) + s.processed
  {
    NothingHeld(InProcess, s.workers);
  }

  /** Drain safety, in every interleaving with at least one worker: once a drain is past its
      wait and until it has returned, if no request got an event in after draining began, the
      backlog is empty and every accepted event has been processed, those the workers emitted
      while draining included. */
  lemma DrainSafety(cfg: Config, actions: seq<Action>, d: nat)
    requires Run(cfg, Initial(), actions).Some? && cfg.workersNumber >= 1
    requires var s := Run(cfg, Initial(), actions).value;
             d < |s.drains| && !s.drains[d].Begun? && s.late == 0
    ensures var s := Run(cfg, Initial(), actions).value;
            Queue(s) == [] && s.accepted == s.processed
  {
    hide Conserved, Next;
    RunKeepsDraining(cfg, Initial(), actions);
    InitiallyAccounted(cfg);
    RunAccounted(cfg, Initial(), actions);
    var s := Run(cfg, Initial(), actions).value;
    assert Drained(s);
    IdleAccount(cfg, s);
  }

  /** Exactly when a drain leaves something behind: at the moment the wait group lets it
      pass, the backlog holds precisely what requests put there since the last worker's last
      look at it. */
  lemma DrainLeaves(cfg: Config, actions: seq<Action>)
    requires Run(cfg, Initial(), actions).Some? && cfg.workersNumber >= 1
    requires var s := Run(cfg, Initial(), actions).value; s.closed && s.waitGroup == 0
    ensures var s := Run(cfg, Initial(), actions).value;
            && |Queue(s)| == s.stranded <= s.late
            && (s.accepted == s.processed <==> s.stranded == 0)
  {
    hide Conserved, Next;
    RunKeepsDraining(cfg, Initial(), actions);
    InitiallyAccounted(cfg);
    RunAccounted(cfg, Initial(), actions);
    var s := Run(cfg, Initial(), actions).value;
    AtPass(cfg, s);
    IdleAccount(cfg, s);
    assert |s.accepted| == |Queue(s)| + |s.processed|;
  }
}
