/** Why draining ends: a measure every step of a worker lowers. */
module PoolProgress {
  import opened Wrappers
  import opened Entities
  import opened Strings
  import opened WorkerPool
  import opened PoolTotals
  import opened PoolSafety
  import opened PoolDrain

  /** Only user events are being announced, and what is announced is a system event. */
  ghost predicate Announces(w: Worker) {
    w.Sending? || w.Counting? ==> !IsSystem(w.e) && AllOfType(w.todo, SystemType(w.stage))
  }

  ghost predicate EmittersOk(workers: seq<Worker>) {
    forall i :: 0 <= i < |workers| ==> Announces(workers[i])
  }

  lemma SystemTypesAreSystem(stage: Stage, e: Item)
    requires e.eventType == SystemType(stage)
    ensures IsSystem(e)
  {
  }

  // ---- Weights, with at most `k` subscribers per system event ----

  /** A queued user event may yet bring two rounds of system events. */
  function Weight(k: nat, e: Item): nat {
    if IsSystem(e) then 8 else 10 + 20 * k
  }

  function Place(k: nat, w: Worker): nat {
    match w
    case Exited => 0
    case Leaving => 1
    case Rechecking => 2
    case Waiting => 3
    case Polling => 4
    case Finishing(_) => 5
    case Called(e, _) => if IsSystem(e) then 6 else 7 + 10 * k
    case Looking(e) => if IsSystem(e) then 7 else 8 + 10 * k
    case Sending(_, stage, todo) => (if stage.Before? then 9 + 10 * k else 6) + 10 * |todo|
    case Counting(_, stage, todo) => (if stage.Before? then 10 + 10 * k else 7) + 10 * |todo|
    case Invoking(e) => if IsSystem(e) then 8 else 10 + 20 * k
    case Received(e) => if IsSystem(e) then 9 else 11 + 20 * k
  }

  ghost function PlaceIn(k: nat): Worker -> int {
    (w: Worker) => Place(k, w)
  }

  ghost function QueueWeight(k: nat, queue: seq<Item>): nat {
    if queue == [] then 0 else QueueWeight(k, queue[..|queue| - 1]) + Weight(k, queue[|queue| - 1])
  }

  ghost function Measure(k: nat, s: State): int {
    QueueWeight(k, Queue(s)) + Total(PlaceIn(k), s.workers)
  }

  lemma QueueWeightMore(k: nat, queue: seq<Item>, e: Item)
    ensures QueueWeight(k, queue + [e]) == QueueWeight(k, queue) + Weight(k, e)
  {
    assert (queue + [e])[..|queue|] == queue;
  }

  lemma {:induction false} QueueWeightTake(k: nat, queue: seq<Item>)
    requires queue != []
    ensures QueueWeight(k, queue) == Weight(k, queue[0]) + QueueWeight(k, queue[1..])
  {
    var last := |queue| - 1;
    if last > 0 {
      QueueWeightTake(k, queue[..last]);
      assert queue[1..][..last - 1] == queue[..last][1..];
    }
  }

  ghost predicate FewSubscribers(k: nat, m: Move) {
    m.Emit? ==> |m.todo| <= k
  }

  /** The step of a worker by itself: what it gives up is more than what it queues. */
  lemma MoveDescends(k: nat, w: Worker, m: Move, queue: seq<Item>, room: bool, closed: bool, w': Worker)
    requires Moved(w, m, queue, room, closed) == Some(w') && Announces(w) && FewSubscribers(k, m)
    ensures m.Take? ==> queue != [] && Place(k, w') < Place(k, w) + Weight(k, queue[0])
    ensures m.Send? ==> w.Sending? && w.todo != [] && IsSystem(w.todo[0]) && !IsSystem(w.e)
    ensures m.Send? ==> Place(k, w') + (if room then Weight(k, w.todo[0]) else 0) < Place(k, w)
    ensures !m.Take? && !m.Send? ==> Place(k, w') < Place(k, w)
    ensures Announces(w')
  {
    hide IsSystem, SystemType;
    if m.Send? && w.Sending? {
      SystemTypesAreSystem(w.stage, w.todo[0]);
    }
  }

  lemma EffectOnQueue(cfg: Config, s: State, w: Worker, m: Move)
    ensures var t := Effect(cfg, s, w, m);
            && (m.Take? && Queue(s) != [] ==> Queue(t) == Queue(s)[1..])
            && (m.Send? && w.Sending? && w.todo != [] ==>
                  Queue(t) == if HasRoom(cfg, s) then Queue(s) + [w.todo[0]] else Queue(s))
            && (!m.Take? && !m.Send? ==> Queue(t) == Queue(s))
  {
  }

  /** Every step of a worker lowers the measure. */
  lemma WorkDescends(cfg: Config, k: nat, s: State, i: nat, m: Move)
    requires EmittersOk(s.workers) && NextOfWorker(cfg, s, i, m).Some? && FewSubscribers(k, m)
    ensures var t := NextOfWorker(cfg, s, i, m).value;
            EmittersOk(t.workers) && Measure(k, t) < Measure(k, s)
  {
    hide Moved, Effect, HasRoom, Announces, Place, Total, Weight, QueueWeight, FewSubscribers;
    var t := NextOfWorker(cfg, s, i, m).value;
    var w, w' := s.workers[i], t.workers[i];
    MoveDescends(k, w, m, Queue(s), HasRoom(cfg, s), s.closed, w');
    TotalMoved(PlaceIn(k), s.workers, i, w');
    EffectOnQueue(cfg, s, w, m);
    if m.Take? {
      QueueWeightTake(k, Queue(s));
    }
    if m.Send? {
      QueueWeightMore(k, Queue(s), w.todo[0]);
    }
    forall j | 0 <= j < |t.workers| ensures Announces(t.workers[j]) {
      assert j != i ==> t.workers[j] == s.workers[j];
    }
  }

  /** What a step may add from outside the workers. */
  function Brings(k: nat, a: Action): nat {
    match a
    case Spawn => 4
    case Offer(_, e) => Weight(k, e)
    case _ => 0
  }

  lemma OthersBring(cfg: Config, k: nat, s: State, a: Action)
    requires EmittersOk(s.workers) && Next(cfg, s, a).Some? && !a.Work?
    ensures var t := Next(cfg, s, a).value;
            EmittersOk(t.workers) && Measure(k, t) <= Measure(k, s) + Brings(k, a)
  {
    hide Announces, Total, Weight, QueueWeight, AllQuit;
    if a.Spawn? {
      TotalMore(PlaceIn(k), s.workers, Polling);
      assert Announces(Polling) by { IdleAnnounces(); }
    }
    match a
    case Offer(p, e) => QueueWeightMore(k, Queue(s), e);
    case Start => assert Queue(Next(cfg, s, a).value) == Queue(s);
    case Spawn => assert PlaceIn(k)(Polling) == 4;
    case _ =>
  }

  lemma IdleAnnounces()
    ensures Announces(Polling)
  {
  }

  function Works(actions: seq<Action>): nat {
    if actions == [] then 0 else (if actions[0].Work? then 1 else 0) + Works(actions[1..])
  }

  function Brought(k: nat, actions: seq<Action>): nat {
    if actions == [] then 0 else Brings(k, actions[0]) + Brought(k, actions[1..])
  }

  ghost predicate FewSubscribersAll(k: nat, actions: seq<Action>) {
    forall i :: 0 <= i < |actions| && actions[i].Work? ==> FewSubscribers(k, actions[i].m)
  }

  /** In every interleaving in which a system event has at most `k` subscribers, workers take
      no more steps than the measure they started from and what came in from outside allow. */
  lemma {:induction false} WorkIsBounded(cfg: Config, k: nat, s: State, actions: seq<Action>)
    requires EmittersOk(s.workers) && FewSubscribersAll(k, actions) && Run(cfg, s, actions).Some?
    ensures var t := Run(cfg, s, actions).value;
            EmittersOk(t.workers) && Works(actions) + Measure(k, t) <= Measure(k, s) + Brought(k, actions)
    decreases |actions|
  {
    if actions != [] {
      hide EmittersOk, Measure, Brings, FewSubscribers;
      var a := actions[0];
      var t := Next(cfg, s, a).value;
      if a.Work? {
        WorkDescends(cfg, k, s, a.i, a.m);
      } else {
        OthersBring(cfg, k, s, a);
      }
      forall i | 0 <= i < |actions[1..]| && actions[1..][i].Work? ensures FewSubscribers(k, actions[1..][i].m) {
        assert actions[1..][i] == actions[i + 1];
      }
      hide Next;
      WorkIsBounded(cfg, k, t, actions[1..]);
    }
  }

  lemma MeasureNonNegative(k: nat, s: State)
    ensures Measure(k, s) >= 0
  {
    TotalNonNegative(PlaceIn(k), s.workers);
  }

  /** So once requests stop and no workers are started, workers stop too: the number of
      their steps is bounded beforehand. */
  lemma WorkersStop(cfg: Config, k: nat, s: State, actions: seq<Action>)
    requires EmittersOk(s.workers) && FewSubscribersAll(k, actions) && Run(cfg, s, actions).Some?
    requires forall i :: 0 <= i < |actions| ==> !actions[i].Spawn? && !actions[i].Offer?
    ensures Works(actions) <= Measure(k, s)
  {
    WorkIsBounded(cfg, k, s, actions);
    NothingBrought(k, actions);
    MeasureNonNegative(k, Run(cfg, s, actions).value);
  }

  lemma {:induction false} NothingBrought(k: nat, actions: seq<Action>)
    requires forall i :: 0 <= i < |actions| ==> !actions[i].Spawn? && !actions[i].Offer?
    ensures Brought(k, actions) == 0
    decreases |actions|
  {
    if actions != [] {
      NothingBrought(k, actions[1..]);
    }
  }

  /** Once draining has begun, a worker that has not exited is never stuck. */
  lemma NeverStuck(cfg: Config, s: State, i: nat) returns (m: Move)
    requires s.closed && i < |s.workers| && !s.workers[i].Exited?
    ensures NextOfWorker(cfg, s, i, m).Some? && FewSubscribers(0, m)
  {
    match s.workers[i]
    case Polling => m := if Queue(s) == [] then Pass else Take;
    case Waiting => m := SeeDrain;
    case Rechecking => m := if Queue(s) == [] then Pass else Take;
    case Received(_) => m := Uncount;
    case Invoking(_) => m := Emit([]);
    case Sending(_, _, todo) => m := if todo == [] then EndEmit else Send;
    case Counting(_, _, _) => m := CountSent;
    case Looking(_) => m := Skip;
    case Called(_, _) => m := Emit([]);
    case Finishing(_) => m := Finish;
    case Leaving => m := Leave;
  }

  ghost predicate OnlyWork(actions: seq<Action>) {
    forall i :: 0 <= i < |actions| ==> actions[i].Work?
  }

  /** And from every state in which draining has begun the workers alone can run until all
      have exited and every waiting `Drain` may pass. */
  lemma {:induction false} DrainCanPass(cfg: Config, s: State) returns (actions: seq<Action>)
    requires s.closed && EmittersOk(s.workers) && WaitGroupOk(s)
    ensures OnlyWork(actions) && Run(cfg, s, actions).Some?
    ensures Run(cfg, s, actions).value.waitGroup == 0 && Run(cfg, s, actions).value.drains == s.drains
    decreases Measure(0, s)
  {
    hide Moved, Effect, EmittersOk, FewSubscribers, Measure, Total, Live;
    if i :| 0 <= i < |s.workers| && !s.workers[i].Exited? {
      var m := NeverStuck(cfg, s, i);
      WorkDescends(cfg, 0, s, i, m);
      WorkKeepsWaitGroup(cfg, s, i, m);
      EffectOnShape(cfg, s, s.workers[i], m);
      MeasureNonNegative(0, s);
      var t := NextOfWorker(cfg, s, i, m).value;
      var rest := DrainCanPass(cfg, t);
      actions := [Work(i, m)] + rest;
    } else {
      actions := [];
      AllExited(s.workers);
    }
  }

  lemma {:induction false} AllExited(workers: seq<Worker>)
    requires forall i :: 0 <= i < |workers| ==> workers[i].Exited?
    ensures Total(Live, workers) == 0
  {
    if workers != [] {
      AllExited(workers[..|workers| - 1]);
    }
  }

  // ---- From the start ----

  lemma {:induction false} RunKeepsEmitters(cfg: Config, s: State, actions: seq<Action>)
    requires EmittersOk(s.workers) && Run(cfg, s, actions).Some?
    ensures EmittersOk(Run(cfg, s, actions).value.workers)
    decreases |actions|
  {
    if actions != [] {
      hide EmittersOk, Measure, Brings;
      var a := actions[0];
      if a.Work? {
        WorkDescends(cfg, if a.m.Emit? then |a.m.todo| else 0, s, a.i, a.m);
      } else {
        OthersBring(cfg, 0, s, a);
      }
      var t := Next(cfg, s, a).value;
      hide Next;
      RunKeepsEmitters(cfg, t, actions[1..]);
    }
  }

  /** Whatever a worker enqueues, in whatever interleaving, is a system event sent on behalf
      of a user event: processing a system event emits none. */
  lemma SystemEventsEmitNone(cfg: Config, actions: seq<Action>, i: nat)
    requires Run(cfg, Initial(), actions).Some?
    requires NextOfWorker(cfg, Run(cfg, Initial(), actions).value, i, Send).Some?
    ensures var w := Run(cfg, Initial(), actions).value.workers[i];
            w.Sending? && w.todo != [] && IsSystem(w.todo[0]) && !IsSystem(w.e)
  {
    hide IsSystem, SystemType;
    RunKeepsEmitters(cfg, Initial(), actions);
    var w := Run(cfg, Initial(), actions).value.workers[i];
    assert Announces(w);
    SystemTypesAreSystem(w.stage, w.todo[0]);
  }

  /** Nothing left to do, so every waiting `Drain` may pass. */
  lemma AtRestDrainsPass(cfg: Config, t: State)
    requires t.closed && WaitGroupOk(t) && forall i, m :: NextOfWorker(cfg, t, i, m).None?
    ensures forall d :: 0 <= d < |t.drains| && t.drains[d].Begun? ==> Next(cfg, t, DrainPass(d)).Some?
  {
    hide NextOfWorker;
    forall i | 0 <= i < |t.workers| ensures t.workers[i].Exited? {
      if !t.workers[i].Exited? {
        var m := NeverStuck(cfg, t, i);
      }
    }
    AllExited(t.workers);
  }

  lemma ReachedOk(cfg: Config, before: seq<Action>, actions: seq<Action>)
    requires Run(cfg, Initial(), before).Some? && Run(cfg, Initial(), before).value.closed
    requires Run(cfg, Run(cfg, Initial(), before).value, actions).Some?
    ensures EmittersOk(Run(cfg, Initial(), before).value.workers)
    ensures var t := Run(cfg, Run(cfg, Initial(), before).value, actions).value; t.closed && WaitGroupOk(t)
  {
    hide EmittersOk, Next;
    NoEmitters();
    RunKeepsEmitters(cfg, Initial(), before);
    StaysClosed(cfg, Run(cfg, Initial(), before).value, actions);
    RunJoin(cfg, Initial(), before, actions);
    InitiallyAccounted(cfg);
    RunAccounted(cfg, Initial(), before + actions);
  }

  /** Drain termination: after draining has begun, with requests and starts at rest, the
      workers' steps are bounded, and when none of them can take another every waiting
      `Drain` may pass. */
  lemma DrainTerminates(cfg: Config, k: nat, before: seq<Action>, actions: seq<Action>)
    requires Run(cfg, Initial(), before).Some? && Run(cfg, Initial(), before).value.closed
    requires Run(cfg, Run(cfg, Initial(), before).value, actions).Some? && FewSubscribersAll(k, actions)
    requires forall i :: 0 <= i < |actions| ==> !actions[i].Spawn? && !actions[i].Offer?
    ensures var s := Run(cfg, Initial(), before).value;
            var t := Run(cfg, s, actions).value;
            && Works(actions) <= Measure(k, s)
            && ((forall i, m :: NextOfWorker(cfg, t, i, m).None?) ==>
                  forall d :: 0 <= d < |t.drains| && t.drains[d].Begun? ==> Next(cfg, t, DrainPass(d)).Some?)
  {
    hide Measure, EmittersOk, NextOfWorker, Next, Run, WaitGroupOk, FewSubscribersAll;
    ReachedOk(cfg, before, actions);
    var s := Run(cfg, Initial(), before).value;
    var t := Run(cfg, s, actions).value;
    WorkersStop(cfg, k, s, actions);
    if forall i, m :: NextOfWorker(cfg, t, i, m).None? {
      AtRestDrainsPass(cfg, t);
    }
  }

  lemma NoEmitters()
    ensures EmittersOk([])
  {
  }

  lemma {:induction false} StaysClosed(cfg: Config, s: State, actions: seq<Action>)
    requires s.closed && Run(cfg, s, actions).Some?
    ensures Run(cfg, s, actions).value.closed
    decreases |actions|
  {
    if actions != [] {
      hide Moved, AllQuit, HasRoom;
      StaysClosed(cfg, Next(cfg, s, actions[0]).value, actions[1..]);
    }
  }
}
