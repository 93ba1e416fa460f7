/** The router's own methods as one goroutine runs them (`router/router.go`). Each atomic
    step is also taken in the worker pool's state, which the fields always agree with. */
module Router {
  import opened Wrappers
  import opened Entities
  import Strings
  import opened WorkerPool
  import opened PoolTotals
  import opened PoolSafety
  import opened PoolProgress
  import opened PoolRaces

  /** Who is enqueuing: a request, or a worker announcing a system event. */
  datatype Sender = ByRequest(p: nat) | ByWorker(i: nat)

  ghost predicate CanSend(s: State, sender: Sender, e: Item) {
    match sender
    case ByRequest(p) => p < |s.producers| && s.producers[p].Serving?
    case ByWorker(i) => i < |s.workers| && s.workers[i].Sending? && s.workers[i].todo != [] && s.workers[i].todo[0] == e
  }

  /** The workers after a send, dropped or not. */
  ghost function WorkersAfterSend(workers: seq<Worker>, sender: Sender): seq<Worker> {
    if sender.ByWorker? && sender.i < |workers| && workers[sender.i].Sending? && workers[sender.i].todo != [] then
      var w := workers[sender.i];
      workers[sender.i := Sending(w.e, w.stage, w.todo[1..])]
    else workers
  }

  /** What enqueuing leaves alone. */
  ghost predicate Untouched(s: State, t: State) {
    && s.active == t.active && s.closed == t.closed && s.starting == t.starting && s.drains == t.drains && s.waitGroup == t.waitGroup
    && s.called == t.called && s.skipped == t.skipped && s.processed == t.processed
  }

  ghost predicate SameBacklog(s: State, t: State) {
    s.backlog == t.backlog && s.attempts == t.attempts && s.accepted == t.accepted && s.dropped == t.dropped && s.gauge == t.gauge
  }

  /** The sender has these copies to offer; a request may offer anything while it is served. */
  ghost predicate Announcing(s: State, sender: Sender, e: Item, stage: Stage, todo: seq<Item>) {
    match sender
    case ByRequest(p) => p < |s.producers| && s.producers[p].Serving?
    case ByWorker(i) => i < |s.workers| && s.workers[i] == Sending(e, stage, todo)
  }

  ghost function Announced(workers: seq<Worker>, sender: Sender, e: Item, stage: Stage, todo: seq<Item>): seq<Worker> {
    if sender.ByWorker? && sender.i < |workers| then workers[sender.i := Sending(e, stage, todo)] else workers
  }

  /** A queue after offering it some items one by one. */
  function Filled(queue: seq<Item>, items: seq<Item>, capacity: nat): seq<Item> {
    if items == [] then queue
    else
      var before := Filled(queue, items[..|items| - 1], capacity);
      if |before| < capacity then before + [items[|items| - 1]] else before
  }

  /** What is offered in one go is taken from the front as far as there is room. */
  lemma {:induction false} FilledTakesPrefix(queue: seq<Item>, items: seq<Item>, capacity: nat, n: nat)
    requires n == if capacity <= |queue| then 0 else if |items| <= capacity - |queue| then |items| else capacity - |queue|
    ensures Filled(queue, items, capacity) == queue + items[..n]
    decreases |items|
  {
    if items == [] {
      assert queue + items[..0] == queue;
    } else {
      var front := items[..|items| - 1];
      var m := if capacity <= |queue| then 0 else if |front| <= capacity - |queue| then |front| else capacity - |queue|;
      FilledTakesPrefix(queue, front, capacity, m);
      if |queue + front[..m]| < capacity {
        assert queue + front[..m] + [items[|items| - 1]] == queue + items[..n];
      } else {
        assert front[..m] == items[..n];
      }
    }
  }

  lemma {:induction false} FilledJoin(queue: seq<Item>, a: seq<Item>, b: seq<Item>, capacity: nat)
    ensures Filled(queue, a + b, capacity) == Filled(Filled(queue, a, capacity), b, capacity)
    decreases |b|
  {
    if b == [] {
      assert a + b == a;
    } else {
      FilledJoin(queue, a, b[..|b| - 1], capacity);
      assert (a + b)[..|a + b| - 1] == a + b[..|b| - 1];
    }
  }

  lemma FilledMore(s: State, t: State, cfg: Config, queue: seq<Item>, items: seq<Item>, e: Item)
    requires s.backlog.Some? == t.backlog.Some? && Queue(t) == if HasRoom(cfg, s) then Queue(s) + [e] else Queue(s)
    requires Queue(s) == Filled(queue, items, if s.backlog.Some? then cfg.backlogLength else 0)
    ensures Queue(t) == Filled(queue, items + [e], if s.backlog.Some? then cfg.backlogLength else 0)
  {
    assert (items + [e])[..|items|] == items;
  }

  /** A successful send, not yet counted. */
  ghost predicate Sent(before: State, s: State, sender: Sender) {
    match sender
    case ByRequest(p) =>
      && p < |before.producers| && before.producers[p].Serving? && s.producers == before.producers[p := Offered]
      && s.workers == before.workers
    case ByWorker(i) =>
      && i < |before.workers| && before.workers[i].Sending? && before.workers[i].todo != [] && s.producers == before.producers
      && s.workers == before.workers[i := Counting(before.workers[i].e, before.workers[i].stage, before.workers[i].todo[1..])]
  }

  /** What came of a call: nothing called, or the function's success or failure. */
  datatype Outcome = GivenUp | Answered(ok: bool)

  /** What a call meets: who subscribes its announcements, whether a plugin objects to the
      first, whether the function is missing, and whether it succeeds. */
  datatype Invocation = Invocation(invoking: seq<FunctionKey>, event: nat, objection: bool, missing: bool, ok: bool, reported: seq<FunctionKey>, report: nat)
  {
    predicate Within(most: nat) {
      |invoking| <= most && |reported| <= most
    }
  }

  /** The sync subscription a request finds, and what it meets there. */
  datatype Sync = Sync(authorized: bool, call: Invocation)

  /** What a request meets: who subscribes its arrival, whether a plugin objects, its sync
      subscription if any, its async subscribers and which of them pass authorization. */
  datatype Request = Request(
    received: seq<FunctionKey>, announcement: nat, objection: bool, sync: Option<Sync>,
    subscribers: seq<FunctionKey>, authorized: seq<bool>)

  /** The name of what is announced at a stage. */
  function Announcement(stage: Stage): string {
    match stage
    case Before => "eventgateway.function.invoking"
    case After(true) => "eventgateway.function.invoked"
    case After(false) => "eventgateway.function.invocationFailed"
  }

  lemma AnnouncementIs(stage: Stage)
    ensures SystemType(stage) == Announcement(stage)
  {
  }

  /** One copy of the event for each key, in order. */
  ghost predicate AreCopies(items: seq<Item>, eventType: string, event: nat, keys: seq<FunctionKey>) {
    |items| == |keys| && forall j :: 0 <= j < |keys| ==> items[j] == Item(eventType, event, keys[j])
  }

  /** What a user event's call announces: the call, and after it its success or failure by
      name; nothing more when it was given up. */
  ghost predicate AroundCall(items: seq<Item>, call: Invocation) {
    var n := |call.invoking|;
    && n <= |items|
    && AreCopies(items[..n], "eventgateway.function.invoking", call.event, call.invoking)
    && if call.objection || call.missing then |items| == n
       else AreCopies(items[n..], if call.ok then "eventgateway.function.invoked" else "eventgateway.function.invocationFailed", call.report, call.reported)
  }

  /** An event's function is called, unless it is missing or a plugin objects to the call of a
      user event, which is then given up; a system event's call is not announced. */
  ghost predicate Settles(s: State, t: State, e: Item, call: Invocation, announced: seq<Item>) {
    var system := Strings.HasPrefix(e.eventType, "eventgateway.");
    && (if system then announced == [] else AroundCall(announced, call))
    && if call.missing || (!system && call.objection) then t.skipped == s.skipped + multiset{e} && t.called == s.called
       else t.called == s.called + multiset{e} && t.skipped == s.skipped
  }

  lemma OnlyInvoking(first: seq<Item>, call: Invocation)
    requires AreCopies(first, Announcement(Before), call.event, call.invoking) && (call.objection || call.missing)
    ensures AroundCall(first, call)
  {
    assert first[..|call.invoking|] == first;
  }

  lemma InvokingAndOutcome(first: seq<Item>, second: seq<Item>, call: Invocation)
    requires AreCopies(first, Announcement(Before), call.event, call.invoking) && !call.objection && !call.missing
    requires AreCopies(second, Announcement(After(call.ok)), call.report, call.reported)
    ensures AroundCall(first + second, call)
  {
    var n := |call.invoking|;
    assert (first + second)[..n] == first && (first + second)[n..] == second;
  }

  /** The keys that pass, in order. */
  function Authorized(keys: seq<FunctionKey>, flags: seq<bool>): seq<FunctionKey>
    requires |flags| == |keys|
  {
    if keys == [] then []
    else
      var last := |keys| - 1;
      Authorized(keys[..last], flags[..last]) + if flags[last] then [keys[last]] else []
  }

  function Passed(flags: seq<bool>): nat {
    if flags == [] then 0 else Passed(flags[..|flags| - 1]) + if flags[|flags| - 1] then 1 else 0
  }

  /** Each key that passes stands once, after those that pass before it; no other stands. */
  lemma {:induction false} AuthorizedExactly(keys: seq<FunctionKey>, flags: seq<bool>)
    requires |flags| == |keys|
    ensures |Authorized(keys, flags)| == Passed(flags)
    ensures forall j :: 0 <= j < |keys| && flags[j] ==>
              Passed(flags[..j]) < Passed(flags) && Authorized(keys, flags)[Passed(flags[..j])] == keys[j]
  {
    if keys != [] {
      var last := |keys| - 1;
      AuthorizedExactly(keys[..last], flags[..last]);
      forall j | 0 <= j < |keys| && flags[j]
        ensures Passed(flags[..j]) < Passed(flags) && Authorized(keys, flags)[Passed(flags[..j])] == keys[j]
      {
        if j < last {
          assert flags[..last][..j] == flags[..j] && flags[..last][j] && keys[..last][j] == keys[j];
        }
      }
    }
  }

  lemma NobodyAuthorized()
    ensures Authorized([], []) == []
  {
  }

  lemma AuthorizedMore(keys: seq<FunctionKey>, flags: seq<bool>, j: nat)
    requires |flags| == |keys| && j < |keys|
    ensures Authorized(keys[..j + 1], flags[..j + 1]) ==
            var kept := Authorized(keys[..j], flags[..j]);
            if flags[j] then kept + [keys[j]] else kept
  {
    assert keys[..j + 1][..j] == keys[..j] && flags[..j + 1][..j] == flags[..j];
    assert Authorized(keys[..j], flags[..j]) + [] == Authorized(keys[..j], flags[..j]);
  }

  lemma {:induction false} AllAuthorized(keys: seq<FunctionKey>, flags: seq<bool>)
    requires |flags| == |keys| && forall j :: 0 <= j < |keys| ==> flags[j]
    ensures Authorized(keys, flags) == keys
  {
    if keys != [] {
      var last := |keys| - 1;
      AllAuthorized(keys[..last], flags[..last]);
      assert keys == keys[..last] + [keys[last]];
    }
  }

  lemma {:induction false} CopiesAre(eventType: string, event: nat, keys: seq<FunctionKey>)
    ensures AreCopies(CopiesFor(eventType, event, keys), eventType, event, keys)
  {
    if keys != [] {
      CopiesAre(eventType, event, keys[1..]);
      var items := CopiesFor(eventType, event, keys);
      forall j | 0 <= j < |keys| ensures items[j] == Item(eventType, event, keys[j]) {
        assert j > 0 ==> items[j] == CopiesFor(eventType, event, keys[1..])[j - 1];
      }
    }
  }

  /** One copy of an event per subscriber. */
  function CopiesFor(eventType: string, event: nat, keys: seq<FunctionKey>): seq<Item> {
    if keys == [] then [] else [Item(eventType, event, keys[0])] + CopiesFor(eventType, event, keys[1..])
  }

  class Router {
    const workersNumber: nat
    const backlogLength: nat
    /** The most subscribers a system event has. */
    const mostSubscribers: nat
    var active: bool
    var drain: bool
    var backlog: Option<seq<Item>>
    var drainWaitGroup: int
    var metricBacklog: int
    var metricEventsDropped: nat

    ghost var at: State

    ghost predicate Valid()
      reads this
    {
      && at.active == active && at.closed == drain && at.backlog == backlog && at.waitGroup == drainWaitGroup
      && at.gauge == metricBacklog && at.dropped == metricEventsDropped
    }

    ghost function Cfg(): Config {
      Config(workersNumber, backlogLength)
    }

    /** The work left. */
    ghost function Left(s: State): int {
      Measure(mostSubscribers, s)
    }

    constructor (workersNumber: nat, backlogLength: nat, mostSubscribers: nat)
      ensures this.workersNumber == workersNumber && this.backlogLength == backlogLength && this.mostSubscribers == mostSubscribers
      ensures Valid() && at == Initial()
    {
      this.workersNumber, this.backlogLength, this.mostSubscribers := workersNumber, backlogLength, mostSubscribers;
      active, drain, backlog, drainWaitGroup, metricBacklog, metricEventsDropped := false, false, None, 0, 0, 0;
      at := Initial();
    }

    /** Takes an atomic step of the pool. */
    ghost method Advance(from: State, a: Action)
      requires Leads(Cfg(), from, at) && Next(Cfg(), at, a).Some?
      modifies `at
      ensures at == Next(Cfg(), old(at), a).value && Leads(Cfg(), from, at)
    {
      Step(Cfg(), from, at, a);
      at := Next(Cfg(), at, a).value;
    }

    method IsDraining() returns (draining: bool)
      requires Valid()
      ensures draining == at.closed
    {
      return drain;
    }

    method StartWorkers()
      requires Valid() && at.starting.None?
      modifies this
      ensures Valid() && Leads(Cfg(), old(at), at)
      ensures old(active) ==> at == old(at)
      ensures !old(active) ==>
                at == old(at).(active := true, backlog := if old(backlog).None? then Some([]) else old(backlog),
                               waitGroup := old(drainWaitGroup) + workersNumber, workers := old(at.workers) + Polls(workersNumber))
    {
      hide Leads;
      ghost var from := at;
      Nowhere(Cfg(), from);
      if active {
        return;
      }
      active := true;
      if backlog == None {
        backlog := Some([]);
      }
      Advance(from, Start);
      assert from.workers + Polls(0) == from.workers;
      for i := 0 to workersNumber
        invariant Valid() && Leads(Cfg(), from, at)
        invariant at == from.(active := true, backlog := if from.backlog.None? then Some([]) else from.backlog, starting := Some(workersNumber - i),
                              waitGroup := from.waitGroup + i, workers := from.workers + Polls(i))
      {
        drainWaitGroup := drainWaitGroup + 1;
        Advance(from, Spawn);
        assert from.workers + Polls(i) + [Polling] == from.workers + Polls(i + 1);
      }
      Advance(from, Started);
    }

    /** A step of a worker, which brings it nearer to its end. */
    ghost method AdvanceWork(from: State, i: nat, m: Move)
      requires Leads(Cfg(), from, at) && EmittersOk(at.workers) && NextOfWorker(Cfg(), at, i, m).Some? && FewSubscribers(mostSubscribers, m)
      modifies `at
      ensures at == NextOfWorker(Cfg(), old(at), i, m).value && Leads(Cfg(), from, at)
      ensures EmittersOk(at.workers) && Left(at) < Left(old(at))
    {
      hide EmittersOk, Measure, NextOfWorker;
      WorkDescends(Cfg(), mostSubscribers, at, i, m);
      Advance(from, Work(i, m));
    }

    /** The attempt to send, as a step of the sender. */
    ghost method Attempt(from: State, sender: Sender, e: Item)
      requires Leads(Cfg(), from, at) && CanSend(at, sender, e) && EmittersOk(at.workers)
      modifies `at
      ensures Leads(Cfg(), from, at)
      ensures Untouched(old(at), at) && SameBacklog(at, Enqueue(Cfg(), old(at), e))
      ensures HasRoom(Cfg(), old(at)) ==> Sent(old(at), at, sender)
      ensures !HasRoom(Cfg(), old(at)) ==> at.workers == WorkersAfterSend(old(at.workers), sender) && at.producers == old(at.producers)
      ensures sender.ByWorker? ==> EmittersOk(at.workers) && Left(at) < Left(old(at))
    {
      hide Leads, EmittersOk, Left, AllQuit;
      if sender.ByWorker? {
        AdvanceWork(from, sender.i, Send);
      } else {
        Advance(from, Offer(sender.p, e));
      }
    }

    /** The gauge update after a successful send, as a step of the sender. */
    ghost method CountAttempt(from: State, before: State, sender: Sender)
      requires Leads(Cfg(), from, at) && Sent(before, at, sender) && (sender.ByWorker? ==> EmittersOk(at.workers))
      modifies `at
      ensures Leads(Cfg(), from, at)
      ensures Untouched(old(at), at) && SameBacklog(at, old(at).(gauge := old(at.gauge) + 1))
      ensures at.workers == WorkersAfterSend(before.workers, sender) && at.producers == before.producers
      ensures sender.ByWorker? ==> EmittersOk(at.workers) && Left(at) < Left(old(at))
    {
      hide Leads, EmittersOk, Left, AllQuit;
      if sender.ByWorker? {
        AdvanceWork(from, sender.i, CountSent);
      } else {
        Advance(from, Count(sender.p));
      }
    }

    /** The non-blocking send, then the gauge or the count of dropped events. */
    method EnqueueWork(ghost sender: Sender, e: Item)
      requires Valid() && CanSend(at, sender, e) && EmittersOk(at.workers)
      modifies this
      ensures Valid() && Leads(Cfg(), old(at), at)
      ensures if HasRoom(Cfg(), old(at)) then
                && backlog == Some(old(backlog).value + [e]) && at.accepted == old(at.accepted) + multiset{e}
                && metricBacklog == old(metricBacklog) + 1 && metricEventsDropped == old(metricEventsDropped)
              else
                && backlog == old(backlog) && at.accepted == old(at.accepted)
                && metricBacklog == old(metricBacklog) && metricEventsDropped == old(metricEventsDropped) + 1
      ensures at.attempts == old(at.attempts) + 1
      ensures at.workers == WorkersAfterSend(old(at.workers), sender) && at.producers == old(at.producers) && Untouched(old(at), at)
      ensures sender.ByWorker? ==> EmittersOk(at.workers) && Left(at) < Left(old(at))
    {
      hide Leads, EmittersOk, Left, CanSend, Sent, WorkersAfterSend, Enqueue;
      ghost var from := at;
      Nowhere(Cfg(), from);
      EnqueueSpelled(Cfg(), from, e);
      if backlog.Some? && |backlog.value| < backlogLength {
        backlog := Some(backlog.value + [e]);
        Attempt(from, sender, e);
        metricBacklog := metricBacklog + 1;
        CountAttempt(from, from, sender);
      } else {
        metricEventsDropped := metricEventsDropped + 1;
        Attempt(from, sender, e);
      }
    }

    /** A run after which, of all positions, only that of worker `i` has changed. */
    ghost predicate Alone(s: State, t: State, i: nat, w: Worker) {
      && Leads(Cfg(), s, t) && EmittersOk(t.workers) && Left(t) <= Left(s)
      && i < |s.workers| && t.workers == s.workers[i := w] && t.producers == s.producers
      && t.active == s.active && t.closed == s.closed && t.starting == s.starting && t.drains == s.drains && t.waitGroup == s.waitGroup
      && (s.backlog.Some? ==> t.backlog.Some?)
    }

    lemma AloneJoins(s: State, t: State, u: State, i: nat, w: Worker, w': Worker)
      requires Alone(s, t, i, w) && Alone(t, u, i, w')
      ensures Alone(s, u, i, w')
    {
      hide Leads, EmittersOk, Left;
      Join(Cfg(), s, t, u);
    }

    lemma StandsAlone(s: State, i: nat)
      requires i < |s.workers| && EmittersOk(s.workers)
      ensures Alone(s, s, i, s.workers[i])
    {
      hide Leads, EmittersOk, Left;
      Nowhere(Cfg(), s);
    }

    /** One more step of the lone worker. */
    ghost method Proceed(from: State, i: nat, w: Worker, m: Move, w': Worker)
      requires Alone(from, at, i, w) && !m.Leave? && FewSubscribers(mostSubscribers, m)
      requires Moved(w, m, Queue(at), HasRoom(Cfg(), at), at.closed) == Some(w')
      modifies `at
      ensures Alone(from, at, i, w') && Left(at) < Left(old(at))
      ensures at == Effect(Cfg(), old(at), w, m).(workers := old(at.workers)[i := w'])
    {
      hide Leads, EmittersOk, Left, Moved, HasRoom, Effect;
      EffectKeeps(Cfg(), at, w, m);
      AdvanceWork(from, i, m);
    }

    ghost function Capacity(s: State): nat {
      if s.backlog.Some? then backlogLength else 0
    }

    /** A run in which a sender has offered some items one by one and has these left. */
    ghost predicate HasOffered(s: State, t: State, sender: Sender, e: Item, stage: Stage, offered: seq<Item>, todo: seq<Item>) {
      && Leads(Cfg(), s, t) && Untouched(s, t) && t.producers == s.producers
      && t.workers == Announced(s.workers, sender, e, stage, todo) && EmittersOk(t.workers) && Announcing(t, sender, e, stage, todo)
      && (sender.ByWorker? ==> Left(t) <= Left(s))
      && t.attempts == s.attempts + |offered| && t.backlog.Some? == s.backlog.Some?
      && Queue(t) == Filled(Queue(s), offered, Capacity(s))
    }

    lemma OffersNothing(s: State, sender: Sender, e: Item, stage: Stage, todo: seq<Item>)
      requires EmittersOk(s.workers) && Announcing(s, sender, e, stage, todo)
      ensures HasOffered(s, s, sender, e, stage, [], todo)
    {
      hide EmittersOk, Left, Leads;
      Nowhere(Cfg(), s);
    }

    /** Offers one copy. */
    method OfferCopy(ghost from: State, ghost sender: Sender, ghost e: Item, ghost stage: Stage, ghost offered: seq<Item>, item: Item, ghost rest: seq<Item>)
      requires Valid() && HasOffered(from, at, sender, e, stage, offered, [item] + rest)
      modifies this
      ensures Valid() && HasOffered(from, at, sender, e, stage, offered + [item], rest)
    {
      hide Leads, EmittersOk, Left, Filled;
      ghost var mid := at;
      assert ([item] + rest)[1..] == rest;
      EnqueueWork(sender, item);
      Join(Cfg(), from, mid, at);
      FilledMore(mid, at, Cfg(), Queue(from), offered, item);
    }

    /** The subscribers' copies of an event go out one by one, to those who pass authorization;
        a system event needs none. */
    method HandleAsyncSubscriptions(ghost sender: Sender, ghost e: Item, ghost stage: Stage, eventType: string, event: nat,
                                    keys: seq<FunctionKey>, authorized: seq<bool>)
      requires Valid() && EmittersOk(at.workers) && Announcing(at, sender, e, stage, CopiesFor(eventType, event, keys))
      requires |authorized| == |keys| && (sender.ByWorker? ==> forall j :: 0 <= j < |keys| ==> authorized[j])
      modifies this
      ensures Valid() && HasOffered(old(at), at, sender, e, stage, CopiesFor(eventType, event, Authorized(keys, authorized)), [])
    {
      hide HasOffered, Announcing, EmittersOk, Authorized;
      ghost var from := at;
      OffersNothing(from, sender, e, stage, CopiesFor(eventType, event, keys));
      assert keys[0..] == keys && keys[..0] == [] && authorized[..0] == [];
      assert Authorized([], []) == [] by { NobodyAuthorized(); }
      for j := 0 to |keys|
        invariant Valid()
        invariant HasOffered(from, at, sender, e, stage, CopiesFor(eventType, event, Authorized(keys[..j], authorized[..j])), CopiesFor(eventType, event, keys[j..]))
      {
        assert keys[j..][1..] == keys[j + 1..];
        ghost var kept := Authorized(keys[..j], authorized[..j]);
        AuthorizedMore(keys, authorized, j);
        if authorized[j] {
          CopiesForMore(eventType, event, kept, keys[j]);
          OfferCopy(from, sender, e, stage, CopiesFor(eventType, event, kept), Item(eventType, event, keys[j]), CopiesFor(eventType, event, keys[j + 1..]));
        } else {
          RequestMovesOn(from, at, sender, e, stage, CopiesFor(eventType, event, kept), CopiesFor(eventType, event, keys[j..]), CopiesFor(eventType, event, keys[j + 1..]));
        }
      }
      assert keys[..|keys|] == keys && authorized[..|keys|] == authorized;
    }

    /** Only a worker is bound to offer what it announced. */
    lemma RequestMovesOn(s: State, t: State, sender: Sender, e: Item, stage: Stage, offered: seq<Item>, todo: seq<Item>, rest: seq<Item>)
      requires sender.ByRequest? && HasOffered(s, t, sender, e, stage, offered, todo)
      ensures HasOffered(s, t, sender, e, stage, offered, rest)
    {
    }

    /** The `emitSystem` family around a call: nothing is announced of a system event; of a
        user event each subscriber's copy is offered, and a plugin may object. */
    method EmitSystem(ghost i: nat, e: Item, stage: Stage, event: nat, keys: seq<FunctionKey>, objection: bool)
      returns (objected: bool, ghost announced: seq<Item>)
      requires Valid() && EmittersOk(at.workers) && |keys| <= mostSubscribers
      requires i < |at.workers| && at.workers[i] == match stage case Before => Invoking(e) case After(ok) => Called(e, ok)
      modifies this
      ensures Valid() && Alone(old(at), at, i, if stage.Before? then Looking(e) else Finishing(e)) && Left(at) < Left(old(at))
      ensures at.called == old(at.called) && at.skipped == old(at.skipped) && at.processed == old(at.processed)
      ensures if Strings.HasPrefix(e.eventType, "eventgateway.") then announced == [] && !objected
              else AreCopies(announced, Announcement(stage), event, keys) && objected == objection
      ensures Offers(old(at), at, announced)
    {
      hide Leads, EmittersOk, Left, HasRoom, SystemType, AllOfType, HasOffered, Filled, AreCopies, Announcement;
      ghost var from := at;
      StandsAlone(from, i);
      announced := [];
      if IsSystem(e) {
        assert Filled(Queue(from), [], Capacity(from)) == Queue(from) by { NothingOffered(Queue(from), SystemType(stage), Capacity(from)); }
        Proceed(from, i, at.workers[i], Emit([]), if stage.Before? then Looking(e) else Finishing(e));
        return false, [];
      }
      announced := EmitCopies(i, e, stage, event, keys);
      return objection, announced;
    }

    /** The announcement of a user event. */
    method EmitCopies(ghost i: nat, ghost e: Item, stage: Stage, event: nat, keys: seq<FunctionKey>) returns (ghost announced: seq<Item>)
      requires Valid() && EmittersOk(at.workers) && |keys| <= mostSubscribers && !IsSystem(e)
      requires i < |at.workers| && at.workers[i] == match stage case Before => Invoking(e) case After(ok) => Called(e, ok)
      modifies this
      ensures Valid() && Alone(old(at), at, i, if stage.Before? then Looking(e) else Finishing(e)) && Left(at) < Left(old(at))
      ensures at.called == old(at.called) && at.skipped == old(at.skipped) && at.processed == old(at.processed)
      ensures AreCopies(announced, Announcement(stage), event, keys) && Offers(old(at), at, announced)
    {
      hide Leads, EmittersOk, Left, HasRoom, IsSystem, SystemType, AllOfType, HasOffered, Filled, AreCopies, Announcement, Alone, CopiesFor, Authorized;
      ghost var from := at;
      var eventType := SystemType(stage);
      AnnouncementIs(stage);
      announced := CopiesFor(eventType, event, keys);
      CopiesAre(eventType, event, keys);
      CopiesAreOfType(eventType, event, keys);
      BeginsAnnouncing(from, i, e, stage, announced);
      ghost var mid := at;
      var all := seq(|keys|, _ => true);
      AllAuthorized(keys, all);
      HandleAsyncSubscriptions(ByWorker(i), e, stage, eventType, event, keys, all);
      OfferedAlone(mid, at, i, e, stage, announced);
      AloneJoins(from, mid, at, i, Sending(e, stage, announced), Sending(e, stage, []));
      EndsAnnouncing(from, i, e, stage);
    }

    ghost method BeginsAnnouncing(from: State, i: nat, e: Item, stage: Stage, announced: seq<Item>)
      requires at == from && EmittersOk(at.workers) && !IsSystem(e) && AllOfType(announced, SystemType(stage)) && |announced| <= mostSubscribers
      requires i < |at.workers| && at.workers[i] == match stage case Before => Invoking(e) case After(ok) => Called(e, ok)
      modifies `at
      ensures Alone(from, at, i, Sending(e, stage, announced)) && Left(at) < Left(from) && EmittersOk(at.workers)
      ensures at == from.(workers := from.workers[i := Sending(e, stage, announced)])
    {
      hide Leads, EmittersOk, Left, HasRoom, IsSystem, SystemType, AllOfType;
      StandsAlone(from, i);
      Proceed(from, i, at.workers[i], Emit(announced), Sending(e, stage, announced));
    }

    ghost method EndsAnnouncing(from: State, i: nat, e: Item, stage: Stage)
      requires Alone(from, at, i, Sending(e, stage, []))
      modifies `at
      ensures Alone(from, at, i, if stage.Before? then Looking(e) else Finishing(e)) && Left(at) < Left(old(at))
      ensures at == old(at).(workers := at.workers)
    {
      hide Leads, EmittersOk, Left, HasRoom;
      Proceed(from, i, Sending(e, stage, []), EndEmit, if stage.Before? then Looking(e) else Finishing(e));
    }

    /** What the backlog has been offered in between. */
    ghost predicate Offers(s: State, t: State, offered: seq<Item>) {
      && t.attempts == s.attempts + |offered| && t.backlog.Some? == s.backlog.Some?
      && Queue(t) == Filled(Queue(s), offered, Capacity(s))
    }

    lemma OffersJoin(s: State, t: State, u: State, a: seq<Item>, b: seq<Item>)
      requires Offers(s, t, a) && Offers(t, u, b)
      ensures Offers(s, u, a + b)
    {
      FilledJoin(Queue(s), a, b, Capacity(s));
    }

    lemma OfferedAlone(s: State, t: State, i: nat, e: Item, stage: Stage, offered: seq<Item>)
      requires i < |s.workers| && HasOffered(s, t, ByWorker(i), e, stage, offered, [])
      ensures Alone(s, t, i, Sending(e, stage, []))
      ensures t.called == s.called && t.skipped == s.skipped && t.processed == s.processed && Offers(s, t, offered)
    {
    }

    /** Announces the call, looks the function up, calls it, announces the outcome. */
    method CallFunction(ghost i: nat, e: Item, call: Invocation) returns (outcome: Outcome, ghost announced: seq<Item>)
      requires Valid() && i < |at.workers| && at.workers[i] == Invoking(e) && EmittersOk(at.workers) && call.Within(mostSubscribers)
      modifies this
      ensures Valid() && Alone(old(at), at, i, Finishing(e)) && Left(at) < Left(old(at))
      ensures at.called == old(at.called) + (if outcome.Answered? then multiset{e} else multiset{})
      ensures at.skipped == old(at.skipped) + (if outcome.GivenUp? then multiset{e} else multiset{})
      ensures at.processed == old(at.processed)
      ensures if Strings.HasPrefix(e.eventType, "eventgateway.")
              then announced == [] && outcome == (if call.missing then GivenUp else Answered(call.ok))
              else AroundCall(announced, call) && outcome == (if call.objection || call.missing then GivenUp else Answered(call.ok))
      ensures Offers(old(at), at, announced)
    {
      hide Leads, EmittersOk, Left, HasRoom, Moved, Filled, AreCopies, Announcement, AroundCall, Offers, Alone;
      ghost var from := at;
      var objected;
      objected, announced := EmitSystem(i, e, Before, call.event, call.invoking, call.objection);
      ghost var system, first := Strings.HasPrefix(e.eventType, "eventgateway."), announced;
      if objected || call.missing {
        GivesUp(from, i, e, announced);
        if !system {
          OnlyInvoking(first, call);
        }
        return GivenUp, announced;
      }
      Calls(from, i, e, call.ok, announced);
      ghost var mid := at;
      objected, announced := EmitSystem(i, e, After(call.ok), call.report, call.reported, false);
      AloneJoins(from, mid, at, i, Called(e, call.ok), Finishing(e));
      OffersJoin(from, mid, at, first, announced);
      if !system {
        InvokingAndOutcome(first, announced, call);
      }
      announced := first + announced;
      outcome := Answered(call.ok);
    }

    /** The event is given up. */
    ghost method GivesUp(from: State, i: nat, e: Item, offered: seq<Item>)
      requires Alone(from, at, i, Looking(e)) && Offers(from, at, offered)
      modifies `at
      ensures Alone(from, at, i, Finishing(e)) && Offers(from, at, offered) && Left(at) < Left(old(at))
      ensures at == old(at).(skipped := old(at.skipped) + multiset{e}, workers := at.workers)
    {
      hide Leads, EmittersOk, Left, HasRoom, Filled, Moved;
      Looks(e, Queue(at), HasRoom(Cfg(), at), at.closed, true);
      Proceed(from, i, Looking(e), Skip, Finishing(e));
    }

    /** The event's function is called. */
    ghost method Calls(from: State, i: nat, e: Item, ok: bool, offered: seq<Item>)
      requires Alone(from, at, i, Looking(e)) && Offers(from, at, offered)
      modifies `at
      ensures Alone(from, at, i, Called(e, ok)) && Offers(from, at, offered) && Left(at) < Left(old(at))
      ensures i < |at.workers| && at.workers[i] == Called(e, ok) && EmittersOk(at.workers)
      ensures at == old(at).(called := old(at.called) + multiset{e}, workers := at.workers)
    {
      hide Leads, EmittersOk, Left, HasRoom, Filled, Moved;
      Looks(e, Queue(at), HasRoom(Cfg(), at), at.closed, ok);
      Proceed(from, i, Looking(e), Call(ok), Called(e, ok));
    }

    method ProcessEvent(ghost i: nat, e: Item, call: Invocation) returns (ghost announced: seq<Item>)
      requires Valid() && i < |at.workers| && at.workers[i] == Invoking(e) && EmittersOk(at.workers) && call.Within(mostSubscribers)
      modifies this
      ensures Valid() && Alone(old(at), at, i, Polling) && Left(at) < Left(old(at))
      ensures at.processed == old(at.processed) + multiset{e} && Settles(old(at), at, e, call, announced)
      ensures Offers(old(at), at, announced)
    {
      hide Leads, EmittersOk, Left, HasRoom, Filled, AroundCall;
      ghost var from := at;
      var outcome;
      outcome, announced := CallFunction(i, e, call);
      Proceed(from, i, Finishing(e), Finish, Polling);
    }

    /** What each of the selects does with an event it receives. */
    method Receive(ghost i: nat, call: Invocation) returns (ghost announced: seq<Item>)
      requires Valid() && backlog.Some? && backlog.value != [] && i < |at.workers| && at.workers[i] == Polling && EmittersOk(at.workers)
      requires call.Within(mostSubscribers)
      modifies this
      ensures Valid() && Alone(old(at), at, i, Polling) && Left(at) < Left(old(at))
      ensures at.processed == old(at.processed) + multiset{old(backlog).value[0]}
      ensures Settles(old(at), at, old(backlog).value[0], call, announced)
      ensures backlog == Some(Filled(old(backlog).value[1..], announced, backlogLength))
    {
      hide Leads, EmittersOk, Left, HasRoom, Settles, Filled;
      ghost var from := at;
      StandsAlone(from, i);
      var e := backlog.value[0];
      backlog := Some(backlog.value[1..]);
      Proceed(from, i, Polling, Take, Received(e));
      metricBacklog := metricBacklog - 1;
      Proceed(from, i, Received(e), Uncount, Invoking(e));
      ghost var mid := at;
      announced := ProcessEvent(i, e, call);
      AloneJoins(from, mid, at, i, Invoking(e), Polling);
      SettlesFrom(from, mid, at, e, call, announced);
    }

    lemma SettlesFrom(s: State, t: State, u: State, e: Item, call: Invocation, announced: seq<Item>)
      requires s.called == t.called && s.skipped == t.skipped && Settles(t, u, e, call, announced)
      ensures Settles(s, u, e, call, announced)
    {
    }

    /** What a call meets is for the caches, the plugins and the function to decide. */
    method AnyCall() returns (call: Invocation)
      ensures call.Within(mostSubscribers)
    {
      assert Invocation([], 0, false, false, true, [], 0).Within(mostSubscribers);
      call :| call.Within(mostSubscribers);
    }

    /** The loop of worker `i` once draining has begun, run with nobody in between: it empties
        the backlog, what it announces itself included, and exits. The second and third
        select then have only one case ready each. */
    method Loop(ghost i: nat)
      requires Valid() && drain && backlog.Some? && i < |at.workers| && at.workers[i] == Polling && EmittersOk(at.workers)
      modifies this
      ensures Valid() && Leads(Cfg(), old(at), at) && EmittersOk(at.workers)
      ensures at.workers == old(at.workers)[i := Exited] && backlog == Some([]) && drain
      ensures drainWaitGroup == old(drainWaitGroup) - 1
    {
      hide Leads, EmittersOk, Left, HasRoom, Effect, Moved;
      ghost var from := at;
      StandsAlone(from, i);
      while true
        invariant Valid() && Alone(from, at, i, Polling) && backlog.Some? && drain
        decreases Left(at)
      {
        LeftNonNegative(at);
        if backlog.value != [] {
          ghost var mid := at;
          var call := AnyCall();
          var announced := Receive(i, call);
          AloneJoins(from, mid, at, i, Polling, Polling);
          continue;
        }
        FindsNothing(from, i);
        drainWaitGroup := drainWaitGroup - 1;
        LeaveIs(at, i);
        AdvanceWork(from, i, Leave);
        return;
      }
    }

    // ---- Requests ----

    /** A run in which a request came in and, for all that was offered, nobody else moved. */
    ghost predicate OnlyServes(s: State, t: State, p: nat, offered: seq<Item>) {
      && Leads(Cfg(), s, t) && Untouched(s, t) && EmittersOk(t.workers) && t.workers == s.workers
      && p == |s.producers| && t.producers == s.producers + [Serving] && Offers(s, t, offered)
    }

    /** Hands an event to its subscribers on behalf of a request. */
    method OfferFor(ghost p: nat, eventType: string, event: nat, keys: seq<FunctionKey>, authorized: seq<bool>, ghost from: State, ghost before: seq<Item>)
      returns (ghost offered: seq<Item>)
      requires Valid() && OnlyServes(from, at, p, before) && |authorized| == |keys|
      modifies this
      ensures Valid() && OnlyServes(from, at, p, before + offered)
      ensures AreCopies(offered, eventType, event, Authorized(keys, authorized))
    {
      hide Leads, EmittersOk, Left, Filled, AreCopies, Authorized;
      ghost var mid, none := at, Item("", 0, FunctionKey("", ""));
      HandleAsyncSubscriptions(ByRequest(p), none, Before, eventType, event, keys, authorized);
      offered := CopiesFor(eventType, event, Authorized(keys, authorized));
      CopiesAre(eventType, event, Authorized(keys, authorized));
      OffersJoin(from, mid, at, before, offered);
      Join(Cfg(), from, mid, at);
    }

    /** Announces something on behalf of a request: its arrival, or the call of its function. */
    method Announce(ghost p: nat, eventType: string, event: nat, keys: seq<FunctionKey>, ghost from: State, ghost before: seq<Item>)
      returns (ghost offered: seq<Item>)
      requires Valid() && OnlyServes(from, at, p, before)
      modifies this
      ensures Valid() && OnlyServes(from, at, p, before + offered) && AreCopies(offered, eventType, event, keys)
    {
      hide OnlyServes, AreCopies;
      var all := seq(|keys|, _ => true);
      AllAuthorized(keys, all);
      offered := OfferFor(p, eventType, event, keys, all, from, before);
    }

    /** A sync subscription's function is called by the request itself. */
    method CallForRequest(ghost p: nat, call: Invocation, ghost from: State, ghost before: seq<Item>) returns (ghost announced: seq<Item>)
      requires Valid() && OnlyServes(from, at, p, before)
      modifies this
      ensures Valid() && OnlyServes(from, at, p, before + announced) && AroundCall(announced, call)
    {
      hide OnlyServes, AreCopies, AroundCall, Announcement;
      announced := Announce(p, SystemType(Before), call.event, call.invoking, from, before);
      AnnouncementIs(Before);
      AnnouncementIs(After(call.ok));
      if call.objection || call.missing {
        OnlyInvoking(announced, call);
        return;
      }
      ghost var first := announced;
      announced := Announce(p, SystemType(After(call.ok)), call.report, call.reported, from, before + first);
      InvokingAndOutcome(first, announced, call);
      assert before + first + announced == before + (first + announced);
      announced := first + announced;
    }

    /** What a request does to the pool. While draining it is refused and does nothing, and a
        system event is refused. Any other event is announced; unless a plugin objects, its
        sync function is called if there is one that authorization lets it call, and it is
        offered, last, to each async subscriber that passes authorization. */
    method ServeHTTP(eventType: string, event: nat, request: Request)
      returns (served: bool, ghost received: seq<Item>, ghost around: seq<Item>, ghost offered: seq<Item>)
      requires Valid() && EmittersOk(at.workers) && |request.authorized| == |request.subscribers|
      modifies this
      ensures Valid() && Leads(Cfg(), old(at), at) && Untouched(old(at), at) && at.workers == old(at.workers)
      ensures old(drain) ==> at == old(at)
      ensures !old(drain) ==> at.producers == old(at.producers) + [Gone]
      ensures served <==> !old(drain) && !Strings.HasPrefix(eventType, "eventgateway.") && !request.objection
      ensures if old(drain) || Strings.HasPrefix(eventType, "eventgateway.") then received == []
              else AreCopies(received, "eventgateway.event.received", request.announcement, request.received)
      ensures if served && request.sync.Some? && request.sync.value.authorized then AroundCall(around, request.sync.value.call) else around == []
      ensures if served then AreCopies(offered, eventType, event, Authorized(request.subscribers, request.authorized)) else offered == []
      ensures Offers(old(at), at, received + around + offered)
    {
      hide Leads, EmittersOk, OnlyServes, AreCopies, AroundCall, Authorized, Filled;
      ghost var from, p := at, |at.producers|;
      received, around, offered := [], [], [];
      Nowhere(Cfg(), from);
      assert Filled(Queue(from), [], Capacity(from)) == Queue(from) by { NothingOffered(Queue(from), "", Capacity(from)); }
      assert received + around + offered == [];
      var draining := IsDraining();
      Advance(from, Arrive);
      if draining {
        return false, [], [], [];
      }
      if Strings.HasPrefix(eventType, "eventgateway.") {
        DepartUnserved(from, p);
        return false, [], [], [];
      }
      StartsServing(from, at, p);
      assert [] + received == received;
      received := Announce(p, EVENT_RECEIVED, request.announcement, request.received, from, []);
      assert [] + received == received && received + [] + [] == received;
      if request.objection {
        DepartServed(from, p, received);
        return false, received, [], [];
      }
      assert received + [] == received;
      if request.sync.Some? && request.sync.value.authorized {
        around := CallForRequest(p, request.sync.value.call, from, received);
      }
      offered := OfferFor(p, eventType, event, request.subscribers, request.authorized, from, received + around);
      DepartServed(from, p, received + around + offered);
      return true, received, around, offered;
    }

    lemma StartsServing(s: State, t: State, p: nat)
      requires Leads(Cfg(), s, t) && EmittersOk(s.workers) && p == |s.producers| && t == s.(producers := s.producers + [Serving])
      ensures OnlyServes(s, t, p, [])
    {
    }

    ghost method DepartUnserved(from: State, p: nat)
      requires Leads(Cfg(), from, at) && p == |from.producers| && at == from.(producers := from.producers + [Serving])
      modifies `at
      ensures Leads(Cfg(), from, at) && at == from.(producers := from.producers + [Gone])
    {
      hide Leads;
      Advance(from, Depart(p));
      assert at.producers == from.producers + [Gone];
    }

    ghost method DepartServed(from: State, p: nat, offered: seq<Item>)
      requires OnlyServes(from, at, p, offered)
      modifies `at
      ensures Leads(Cfg(), from, at) && Untouched(from, at) && at.workers == from.workers && at.producers == from.producers + [Gone]
      ensures Offers(from, at, offered)
      ensures SameBacklog(at, old(at)) && at.active == old(at.active) && at.closed == old(at.closed) && at.waitGroup == old(at.waitGroup)
    {
      hide Leads, EmittersOk, Filled;
      Advance(from, Depart(p));
      assert at.producers == from.producers + [Gone];
    }

    /** Nothing in the backlog, drain closed, still nothing in the backlog. */
    ghost method FindsNothing(from: State, i: nat)
      requires Alone(from, at, i, Polling) && at.backlog == Some([]) && at.closed
      modifies `at
      ensures Alone(from, at, i, Leaving) && at == old(at).(workers := old(at.workers)[i := Leaving], stranded := 0)
    {
      hide Leads, EmittersOk, Left, HasRoom;
      Proceed(from, i, Polling, Pass, Waiting);
      Proceed(from, i, Waiting, SeeDrain, Rechecking);
      Proceed(from, i, Rechecking, Pass, Leaving);
      assert at.workers == old(at.workers)[i := Leaving];
    }

    lemma LeaveIs(s: State, i: nat)
      requires i < |s.workers| && s.workers[i] == Leaving
      ensures NextOfWorker(Cfg(), s, i, Leave) == Some(s.(waitGroup := s.waitGroup - 1, workers := s.workers[i := Exited]))
    {
    }

    lemma LeftNonNegative(s: State)
      ensures Left(s) >= 0
    {
      MeasureNonNegative(mostSubscribers, s);
    }

    /** The part of `Drain` before the wait. */
    method BeginDrain()
      requires Valid() && at.starting.None?
      modifies this
      ensures Valid() && Leads(Cfg(), old(at), at)
      ensures at == old(at).(closed := true, drains := old(at.drains) + [Begun])
    {
      hide Leads;
      Nowhere(Cfg(), at);
      if !drain {
        drain := true;
      }
      Advance(at, DrainBegin);
    }

    /** The part of `Drain` after it; the wait ends when the wait group is at zero. */
    method EndDrain(ghost d: nat)
      requires Valid() && at.starting.None? && d < |at.drains| && at.drains[d].Begun? && drainWaitGroup == 0
      modifies this
      ensures Valid() && Leads(Cfg(), old(at), at)
      ensures at == old(at).(active := false, drains := old(at.drains)[d := Returned])
    {
      hide Leads;
      ghost var from := at;
      Nowhere(Cfg(), from);
      Advance(from, DrainPass(d));
      if active {
        active := false;
      }
      Advance(from, DrainReturn(d));
    }
  }

  lemma {:induction false} CopiesForMore(eventType: string, event: nat, keys: seq<FunctionKey>, key: FunctionKey)
    ensures CopiesFor(eventType, event, keys + [key]) == CopiesFor(eventType, event, keys) + [Item(eventType, event, key)]
  {
    if keys == [] {
      assert [key][1..] == [];
    } else {
      CopiesForMore(eventType, event, keys[1..], key);
      assert (keys + [key])[1..] == keys[1..] + [key];
    }
  }

  lemma NothingOffered(queue: seq<Item>, eventType: string, capacity: nat)
    ensures AllOfType([], eventType) && Filled(queue, [], capacity) == queue
  {
  }

  lemma CopiesAreOfType(eventType: string, event: nat, keys: seq<FunctionKey>)
    ensures |CopiesFor(eventType, event, keys)| == |keys| && AllOfType(CopiesFor(eventType, event, keys), eventType)
  {
  }

  lemma Looks(e: Item, queue: seq<Item>, room: bool, closed: bool, ok: bool)
    ensures Moved(Looking(e), Skip, queue, room, closed) == Some(Finishing(e))
    ensures Moved(Looking(e), Call(ok), queue, room, closed) == Some(Called(e, ok))
  {
  }

  lemma EnqueueSpelled(cfg: Config, s: State, e: Item)
    ensures var t := Enqueue(cfg, s, e);
            && t.attempts == s.attempts + 1 && t.gauge == s.gauge
            && if HasRoom(cfg, s) then
                 t.backlog == Some(s.backlog.value + [e]) && t.accepted == s.accepted + multiset{e} && t.dropped == s.dropped
               else t.backlog == s.backlog && t.accepted == s.accepted && t.dropped == s.dropped + 1
  {
  }

  lemma EffectKeeps(cfg: Config, s: State, w: Worker, m: Move)
    requires !m.Leave?
    ensures var t := Effect(cfg, s, w, m);
            t.producers == s.producers && t.active == s.active && t.closed == s.closed && t.starting == s.starting && t.drains == s.drains && t.waitGroup == s.waitGroup
            && (s.backlog.Some? ==> t.backlog.Some?)
  {
  }

  function Polls(n: nat): seq<Worker> {
    seq(n, _ => Polling)
  }
}
