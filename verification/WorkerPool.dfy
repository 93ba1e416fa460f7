/** The router's worker pool as interleaved atomic steps (`router/router.go`): a bounded
    backlog, workers in their three-select loop, requests that enqueue, and draining. */
module WorkerPool {
  import opened Wrappers
  import opened Entities
  import opened Strings

  /** An event on its way to one asynchronous subscriber. */
  datatype Item = Item(eventType: string, event: nat, target: FunctionKey)

  const EVENT_RECEIVED := "eventgateway.event.received"
  const FUNCTION_INVOKING := "eventgateway.function.invoking"
  const FUNCTION_INVOKED := "eventgateway.function.invoked"
  const FUNCTION_INVOCATION_FAILED := "eventgateway.function.invocationFailed"

  predicate IsSystem(e: Item) {
    HasPrefix(e.eventType, "eventgateway.")
  }

  /** The system event around a function call: before it, or after it by its outcome. */
  datatype Stage = Before | After(ok: bool)

  function SystemType(stage: Stage): string {
    match stage
    case Before => FUNCTION_INVOKING
    case After(ok) => if ok then FUNCTION_INVOKED else FUNCTION_INVOCATION_FAILED
  }

  /** Where a worker is. `Received` and `Counting` stand between a channel operation and the
      gauge update that follows it; `Sending` holds the copies of a system event still to be
      offered to the backlog, one per subscriber that passed authorization. */
  datatype Worker =
    | Polling | Waiting | Rechecking
    | Received(e: Item) | Invoking(e: Item)
    | Sending(e: Item, stage: Stage, todo: seq<Item>) | Counting(e: Item, stage: Stage, todo: seq<Item>)
    | Looking(e: Item) | Called(e: Item, ok: bool) | Finishing(e: Item)
    | Leaving | Exited

  /** A request that found the router not draining, before and after a successful send. */
  datatype Producer = Serving | Offered | Gone

  /** A call of `Drain`: waiting on the wait group, past it, returned. */
  datatype Draining = Begun | Passed | Returned

  datatype Config = Config(workersNumber: nat, backlogLength: nat)

  /** The router's fields, its goroutines, and what has happened so far. While `starting` is
      set, `StartWorkers` holds the lock with that many workers left to start. */
  datatype State = State(
    active: bool, closed: bool, starting: Option<nat>, backlog: Option<seq<Item>>, waitGroup: int, gauge: int,
    workers: seq<Worker>, producers: seq<Producer>, drains: seq<Draining>,
    attempts: nat, dropped: nat, accepted: multiset<Item>, called: multiset<Item>, skipped: multiset<Item>, processed: multiset<Item>,
    late: nat, stranded: nat)

  function Initial(): State {
    State(false, false, None, None, 0, 0, [], [], [], 0, 0, multiset{}, multiset{}, multiset{}, multiset{}, 0, 0)
  }

  function Queue(s: State): seq<Item> {
    if s.backlog.Some? then s.backlog.value else []
  }

  predicate Quit(w: Worker) {
    w.Leaving? || w.Exited?
  }

  /** No worker will look at the backlog again. */
  ghost predicate AllQuit(workers: seq<Worker>) {
    forall i :: 0 <= i < |workers| ==> Quit(workers[i])
  }

  // ---- enqueueWork ----

  /** The non-blocking send finds room; a send on the missing channel never does. */
  predicate HasRoom(cfg: Config, s: State) {
    s.backlog.Some? && |s.backlog.value| < cfg.backlogLength
  }

  function Enqueue(cfg: Config, s: State, e: Item): State {
    if HasRoom(cfg, s) then
      s.(backlog := Some(s.backlog.value + [e]), attempts := s.attempts + 1, accepted := s.accepted + multiset{e})
    else s.(attempts := s.attempts + 1, dropped := s.dropped + 1)
  }

  // ---- Workers ----

  datatype Move =
    | Take | Pass | SeeDrain | Uncount | Emit(todo: seq<Item>) | Send | CountSent | EndEmit
    | Call(ok: bool) | Skip | Finish | Leave

  ghost predicate AllOfType(todo: seq<Item>, eventType: string) {
    forall i :: 0 <= i < |todo| ==> todo[i].eventType == eventType
  }

  /** Where a worker goes next; nothing when it cannot make the move. System events emit
      none; a user event emits to whatever subscribers there are. */
  ghost function Moved(w: Worker, m: Move, queue: seq<Item>, room: bool, closed: bool): Option<Worker> {
    match m
    case Take => if (w.Polling? || w.Waiting? || w.Rechecking?) && queue != [] then Some(Received(queue[0])) else None
    case Pass =>
      if queue != [] then None
      else if w.Polling? then Some(Waiting)
      else if w.Rechecking? then Some(Leaving)
      else None
    case SeeDrain => if w.Waiting? && closed then Some(Rechecking) else None
    case Uncount => if w.Received? then Some(Invoking(w.e)) else None
    case Emit(todo) =>
      if w.Invoking? then
        if IsSystem(w.e) then (if todo == [] then Some(Looking(w.e)) else None)
        else if AllOfType(todo, SystemType(Before)) then Some(Sending(w.e, Before, todo))
        else None
      else if w.Called? then
        if IsSystem(w.e) then (if todo == [] then Some(Finishing(w.e)) else None)
        else if AllOfType(todo, SystemType(After(w.ok))) then Some(Sending(w.e, After(w.ok), todo))
        else None
      else None
    case Send =>
      if w.Sending? && w.todo != [] then
        Some(if room then Counting(w.e, w.stage, w.todo[1..]) else Sending(w.e, w.stage, w.todo[1..]))
      else None
    case CountSent => if w.Counting? then Some(Sending(w.e, w.stage, w.todo)) else None
    case EndEmit => if w.Sending? && w.todo == [] then Some(if w.stage.Before? then Looking(w.e) else Finishing(w.e)) else None
    case Call(ok) => if w.Looking? then Some(Called(w.e, ok)) else None
    case Skip => if w.Looking? then Some(Finishing(w.e)) else None
    case Finish => if w.Finishing? then Some(Polling) else None
    case Leave => if w.Leaving? then Some(Exited) else None
  }

  /** What the move of a worker at `w` does to everything but the worker itself. */
  function Effect(cfg: Config, s: State, w: Worker, m: Move): State {
    match m
    case Take => if Queue(s) != [] then s.(backlog := Some(Queue(s)[1..])) else s
    case Pass => if w.Rechecking? then s.(stranded := 0) else s
    case Uncount => s.(gauge := s.gauge - 1)
    case Send => if w.Sending? && w.todo != [] then Enqueue(cfg, s, w.todo[0]) else s
    case CountSent => s.(gauge := s.gauge + 1)
    case Call(_) => if w.Looking? then s.(called := s.called + multiset{w.e}) else s
    case Skip => if w.Looking? then s.(skipped := s.skipped + multiset{w.e}) else s
    case Finish => if w.Finishing? then s.(processed := s.processed + multiset{w.e}) else s
    case Leave => s.(waitGroup := s.waitGroup - 1)
    case _ => s
  }

  ghost function NextOfWorker(cfg: Config, s: State, i: nat, m: Move): Option<State> {
    if i >= |s.workers| then None
    else
      match Moved(s.workers[i], m, Queue(s), HasRoom(cfg, s), s.closed)
      case None => None
      case Some(w) => Some(Effect(cfg, s, s.workers[i], m).(workers := s.workers[i := w]))
  }

  // ---- Everybody else ----

  datatype Action =
    | Start | Spawn | Started
    | Arrive | Offer(p: nat, e: Item) | Count(p: nat) | Depart(p: nat)
    | Work(i: nat, m: Move)
    | DrainBegin | DrainPass(d: nat) | DrainReturn(d: nat)

  /** `StartWorkers` under its lock, one worker at a time. */
  function NextOfStart(cfg: Config, s: State, a: Action): Option<State> {
    match a
    case Start =>
      if s.starting.Some? then None
      else if s.active then Some(s)
      else Some(s.(active := true, starting := Some(cfg.workersNumber), backlog := if s.backlog.None? then Some([]) else s.backlog))
    case Spawn =>
      if s.starting.None? || s.starting.value == 0 then None
      else Some(s.(starting := Some(s.starting.value - 1), waitGroup := s.waitGroup + 1, workers := s.workers + [Polling]))
    case Started => if s.starting == Some(0) then Some(s.(starting := None)) else None
    case _ => None
  }

  /** Requests: refused once draining has begun, otherwise offering what they like. */
  ghost function NextOfProducer(cfg: Config, s: State, a: Action): Option<State> {
    match a
    case Arrive => Some(if s.closed then s else s.(producers := s.producers + [Serving]))
    case Offer(p, e) =>
      if p >= |s.producers| || !s.producers[p].Serving? then None
      else if HasRoom(cfg, s) then
        Some(Enqueue(cfg, s, e).(
             producers := s.producers[p := Offered],
             late := if s.closed then s.late + 1 else s.late,
             stranded := if s.closed && AllQuit(s.workers) then s.stranded + 1 else s.stranded))
      else Some(Enqueue(cfg, s, e))
    case Count(p) =>
      if p >= |s.producers| || !s.producers[p].Offered? then None
      else Some(s.(producers := s.producers[p := Serving], gauge := s.gauge + 1))
    case Depart(p) =>
      if p >= |s.producers| || !s.producers[p].Serving? then None
      else Some(s.(producers := s.producers[p := Gone]))
    case _ => None
  }

  function NextOfDrain(s: State, a: Action): Option<State> {
    match a
    case DrainBegin => if s.starting.Some? then None else Some(s.(closed := true, drains := s.drains + [Begun]))
    case DrainPass(d) =>
      if d < |s.drains| && s.drains[d].Begun? && s.waitGroup == 0 then Some(s.(drains := s.drains[d := Passed])) else None
    case DrainReturn(d) =>
      if d < |s.drains| && s.drains[d].Passed? && s.starting.None? then Some(s.(active := false, drains := s.drains[d := Returned]))
      else None
    case _ => None
  }

  ghost function Next(cfg: Config, s: State, a: Action): Option<State> {
    match a
    case Work(i, m) => NextOfWorker(cfg, s, i, m)
    case Start => NextOfStart(cfg, s, a)
    case Spawn => NextOfStart(cfg, s, a)
    case Started => NextOfStart(cfg, s, a)
    case DrainBegin => NextOfDrain(s, a)
    case DrainPass(_) => NextOfDrain(s, a)
    case DrainReturn(_) => NextOfDrain(s, a)
    case _ => NextOfProducer(cfg, s, a)
  }

  /** The state after a run of actions, if each could be taken. */
  ghost function Run(cfg: Config, s: State, actions: seq<Action>): Option<State>
    decreases |actions|
  {
    if actions == [] then Some(s)
    else
      match Next(cfg, s, actions[0])
      case None => None
      case Some(s') => Run(cfg, s', actions[1..])
  }

  lemma {:induction false} RunJoin(cfg: Config, s: State, a: seq<Action>, b: seq<Action>)
    ensures Run(cfg, s, a + b) == if Run(cfg, s, a).None? then None else Run(cfg, Run(cfg, s, a).value, b)
    decreases |a|
  {
    if a == [] {
      assert a + b == b;
    } else {
      assert (a + b)[1..] == a[1..] + b;
      if Next(cfg, s, a[0]).Some? {
        RunJoin(cfg, Next(cfg, s, a[0]).value, a[1..], b);
      }
    }
  }
}
