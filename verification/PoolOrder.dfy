/** How many workers there can be: starting and draining in order, and out of order. */
module PoolOrder {
  import opened Wrappers
  import opened WorkerPool
  import opened PoolTotals
  import opened PoolSafety

  // ---- Exactly when the bound holds ----

  /** The workers there are and those still to be started. */
  function Pledged(s: State): int {
    s.waitGroup + if s.starting.Some? then s.starting.value else 0
  }

  /** `StartWorkers` finds an inactive router without workers. */
  predicate CleanStart(s: State, a: Action) {
    a.Start? && !s.active ==> s.waitGroup == 0
  }

  ghost predicate CleanStarts(cfg: Config, s: State, actions: seq<Action>)
    decreases |actions|
  {
    actions != [] && Next(cfg, s, actions[0]).Some? ==>
      CleanStart(s, actions[0]) && CleanStarts(cfg, Next(cfg, s, actions[0]).value, actions[1..])
  }

  /** In every state of the run the workers stay within the configured number. */
  ghost predicate Within(cfg: Config, s: State, actions: seq<Action>)
    decreases |actions|
  {
    && Pledged(s) <= cfg.workersNumber
    && (actions != [] && Next(cfg, s, actions[0]).Some? ==> Within(cfg, Next(cfg, s, actions[0]).value, actions[1..]))
  }

  /** Only a start on an inactive router pledges workers. */
  lemma PledgedByStarts(cfg: Config, s: State, a: Action)
    requires Next(cfg, s, a).Some?
    ensures var t := Next(cfg, s, a).value;
            if a.Start? && !s.active then Pledged(t) == s.waitGroup + cfg.workersNumber else Pledged(t) <= Pledged(s)
  {
    hide Moved, AllQuit, HasRoom, Effect;
    if a.Work? {
      EffectOnOrder(cfg, s, s.workers[a.i], a.m);
    }
  }

  lemma {:induction false} WithinIffClean(cfg: Config, s: State, actions: seq<Action>)
    requires Accounted(cfg, s) && Pledged(s) <= cfg.workersNumber && Run(cfg, s, actions).Some?
    ensures Within(cfg, s, actions) <==> CleanStarts(cfg, s, actions)
    decreases |actions|
  {
    if actions != [] {
      hide Accounted, Next, Pledged;
      var t := Next(cfg, s, actions[0]).value;
      assert s.waitGroup >= 0 by { Accounts(cfg, s); TotalNonNegative(Live, s.workers); }
      NextAccounted(cfg, s, actions[0]);
      PledgedByStarts(cfg, s, actions[0]);
      if Pledged(t) <= cfg.workersNumber {
        WithinIffClean(cfg, t, actions[1..]);
      }
    }
  }

  /** Over every run the workers, those still to be started included, stay within the
      configured number if and only if every start on an inactive router finds the wait
      group at zero. */
  lemma BoundedIffCleanStarts(cfg: Config, actions: seq<Action>)
    requires Run(cfg, Initial(), actions).Some?
    ensures Within(cfg, Initial(), actions) <==> CleanStarts(cfg, Initial(), actions)
  {
    InitiallyAccounted(cfg);
    WithinIffClean(cfg, Initial(), actions);
  }

  lemma {:induction false} EndsWithin(cfg: Config, s: State, actions: seq<Action>)
    requires Within(cfg, s, actions) && Run(cfg, s, actions).Some?
    ensures Run(cfg, s, actions).value.waitGroup <= cfg.workersNumber
    decreases |actions|
  {
    if actions != [] {
      hide Next;
      EndsWithin(cfg, Next(cfg, s, actions[0]).value, actions[1..]);
    }
  }

  // ---- Starting and draining in order ----

  ghost predicate InFlight(drains: seq<Draining>, d: nat) {
    d < |drains| && !drains[d].Returned?
  }

  /** A drain starts only on an active router, and only when no other is under way. */
  ghost predicate Orderly(s: State, a: Action) {
    a.DrainBegin? ==> s.active && forall d: nat :: !InFlight(s.drains, d)
  }

  ghost predicate OrderlyRun(cfg: Config, s: State, actions: seq<Action>)
    decreases |actions|
  {
    actions != [] && Next(cfg, s, actions[0]).Some? ==>
      Orderly(s, actions[0]) && OrderlyRun(cfg, Next(cfg, s, actions[0]).value, actions[1..])
  }

  ghost predicate OrderOk(s: State) {
    && (!s.active ==> s.waitGroup == 0)
    && (s.starting.Some? ==> s.active)
    && (forall d: nat :: InFlight(s.drains, d) ==> s.active && s.starting.None?)
    && (forall d: nat, e: nat :: InFlight(s.drains, d) && InFlight(s.drains, e) ==> d == e)
    && (forall d: nat :: InFlight(s.drains, d) && s.drains[d].Passed? ==> s.waitGroup == 0)
  }

  lemma WorkKeepsOrder(cfg: Config, s: State, i: nat, m: Move)
    requires OrderOk(s) && WaitGroupOk(s) && NextOfWorker(cfg, s, i, m).Some?
    ensures OrderOk(NextOfWorker(cfg, s, i, m).value)
  {
    hide Moved, Effect, HasRoom, InFlight;
    var w := s.workers[i];
    EffectOnOrder(cfg, s, w, m);
    if m.Leave? {
      LeaverIsLive(w, Queue(s), HasRoom(cfg, s), s.closed);
      TotalAtLeast(Live, s.workers, i);
    }
  }

  lemma LeaverIsLive(w: Worker, queue: seq<Item>, room: bool, closed: bool)
    requires Moved(w, Leave, queue, room, closed).Some?
    ensures Live(w) == 1
  {
  }

  lemma EffectOnOrder(cfg: Config, s: State, w: Worker, m: Move)
    ensures var t := Effect(cfg, s, w, m);
            t.active == s.active && t.starting == s.starting && t.drains == s.drains && t.waitGroup == s.waitGroup - if m.Leave? then 1 else 0
  {
  }

  lemma DrainKeepsOrder(cfg: Config, s: State, a: Action)
    requires OrderOk(s) && Orderly(s, a) && NextOfDrain(s, a).Some?
    ensures OrderOk(NextOfDrain(s, a).value)
  {
    var drains := NextOfDrain(s, a).value.drains;
    match a
    case DrainBegin => assert forall d: nat :: InFlight(drains, d) ==> InFlight(s.drains, d) || d == |s.drains|;
    case DrainPass(e) => assert forall d: nat :: InFlight(drains, d) ==> InFlight(s.drains, d) && (d != e ==> drains[d] == s.drains[d]);
    case DrainReturn(e) => assert InFlight(s.drains, e) && forall d: nat :: InFlight(drains, d) ==> InFlight(s.drains, d) && d != e;
    case _ =>
  }

  lemma OthersKeepOrder(cfg: Config, s: State, a: Action)
    requires OrderOk(s) && Orderly(s, a) && Next(cfg, s, a).Some? && !a.Work?
    ensures OrderOk(Next(cfg, s, a).value)
  {
    hide HasRoom, AllQuit, InFlight, NextOfDrain;
    if a.DrainBegin? || a.DrainPass? || a.DrainReturn? {
      DrainKeepsOrder(cfg, s, a);
    }
  }

  lemma Accounts(cfg: Config, s: State)
    requires Accounted(cfg, s)
    ensures WaitGroupOk(s) && GaugeOk(s)
  {
  }

  lemma NextKeepsOrder(cfg: Config, s: State, a: Action)
    requires OrderOk(s) && WaitGroupOk(s) && Orderly(s, a) && Next(cfg, s, a).Some?
    ensures OrderOk(Next(cfg, s, a).value)
  {
    hide OrderOk, Orderly, NextOfWorker, WaitGroupOk;
    if a.Work? {
      WorkKeepsOrder(cfg, s, a.i, a.m);
    } else {
      OthersKeepOrder(cfg, s, a);
    }
  }

  /** Run in order, starts are clean and an inactive router has no workers. */
  lemma {:induction false} OrderlyIsClean(cfg: Config, s: State, actions: seq<Action>)
    requires OrderOk(s) && Accounted(cfg, s) && OrderlyRun(cfg, s, actions) && Run(cfg, s, actions).Some?
    ensures CleanStarts(cfg, s, actions) && OrderOk(Run(cfg, s, actions).value)
    decreases |actions|
  {
    hide Accounted, Next;
    assert WaitGroupOk(s) by { Accounts(cfg, s); }
    if actions != [] {
      hide OrderOk;
      assert CleanStart(s, actions[0]) by { OrderedStart(s, actions[0]); }
      NextAccounted(cfg, s, actions[0]);
      NextKeepsOrder(cfg, s, actions[0]);
      OrderlyIsClean(cfg, Next(cfg, s, actions[0]).value, actions[1..]);
    }
  }

  lemma OrderedStart(s: State, a: Action)
    requires OrderOk(s)
    ensures CleanStart(s, a)
  {
  }

  /** In particular, if drains start only on an active router and do not overlap, the wait
      group counts the live workers, of which there are never more than configured, and none
      while the router is inactive. */
  lemma NeverTooManyWorkers(cfg: Config, actions: seq<Action>)
    requires OrderlyRun(cfg, Initial(), actions) && Run(cfg, Initial(), actions).Some?
    ensures var s := Run(cfg, Initial(), actions).value;
            s.waitGroup == Total(Live, s.workers) <= cfg.workersNumber && (!s.active ==> s.waitGroup == 0)
  {
    InitiallyAccounted(cfg);
    RunAccounted(cfg, Initial(), actions);
    OrderlyIsClean(cfg, Initial(), actions);
    BoundedIffCleanStarts(cfg, actions);
    EndsWithin(cfg, Initial(), actions);
  }
}
