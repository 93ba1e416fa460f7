/** The backlog is first in, first out in every interleaving. */
module PoolFifo {
  import opened Wrappers
  import opened WorkerPool

  /** What a step puts into the backlog. */
  ghost function Entering(cfg: Config, s: State, a: Action): seq<Item> {
    if !HasRoom(cfg, s) then []
    else
      match a
      case Offer(_, e) => [e]
      case Work(i, Send) => if i < |s.workers| && s.workers[i].Sending? && s.workers[i].todo != [] then [s.workers[i].todo[0]] else []
      case _ => []
  }

  /** What a worker holds after a step in which it received. */
  ghost function TakenUp(cfg: Config, s: State, a: Action): seq<Item> {
    match Next(cfg, s, a)
    case None => []
    case Some(t) => if a.Work? && a.m.Take? && a.i < |t.workers| && t.workers[a.i].Received? then [t.workers[a.i].e] else []
  }

  ghost function AllEntering(cfg: Config, s: State, actions: seq<Action>): seq<Item>
    decreases |actions|
  {
    if actions == [] then []
    else
      match Next(cfg, s, actions[0])
      case None => []
      case Some(t) => Entering(cfg, s, actions[0]) + AllEntering(cfg, t, actions[1..])
  }

  ghost function AllTakenUp(cfg: Config, s: State, actions: seq<Action>): seq<Item>
    decreases |actions|
  {
    if actions == [] then []
    else
      match Next(cfg, s, actions[0])
      case None => []
      case Some(t) => TakenUp(cfg, s, actions[0]) + AllTakenUp(cfg, t, actions[1..])
  }

  lemma WorkMovesQueue(cfg: Config, s: State, i: nat, m: Move)
    requires NextOfWorker(cfg, s, i, m).Some?
    ensures var t := NextOfWorker(cfg, s, i, m).value;
            Queue(s) + Entering(cfg, s, Work(i, m)) == TakenUp(cfg, s, Work(i, m)) + Queue(t)
  {
    hide IsSystem, SystemType, AllOfType;
  }

  lemma NextMovesQueue(cfg: Config, s: State, a: Action)
    requires Next(cfg, s, a).Some?
    ensures Queue(s) + Entering(cfg, s, a) == TakenUp(cfg, s, a) + Queue(Next(cfg, s, a).value)
  {
    if a.Work? {
      WorkMovesQueue(cfg, s, a.i, a.m);
    } else {
      hide AllQuit;
    }
  }

  /** In every interleaving workers receive events in the order in which they entered the
      backlog; what entered and was not received is what is queued. */
  lemma {:induction false} FirstInFirstOut(cfg: Config, s: State, actions: seq<Action>)
    requires Run(cfg, s, actions).Some?
    ensures Queue(s) + AllEntering(cfg, s, actions) == AllTakenUp(cfg, s, actions) + Queue(Run(cfg, s, actions).value)
    decreases |actions|
  {
    if actions != [] {
      hide Next, Entering, TakenUp, Queue;
      var a, rest := actions[0], actions[1..];
      var t := Next(cfg, s, a).value;
      NextMovesQueue(cfg, s, a);
      FirstInFirstOut(cfg, t, rest);
      Regroup(Queue(s), Entering(cfg, s, a), AllEntering(cfg, t, rest), TakenUp(cfg, s, a), Queue(t), AllTakenUp(cfg, t, rest), Queue(Run(cfg, t, rest).value));
    }
  }

  lemma Regroup(q: seq<Item>, a: seq<Item>, b: seq<Item>, c: seq<Item>, r: seq<Item>, d: seq<Item>, u: seq<Item>)
    requires q + a == c + r && r + b == d + u
    ensures q + (a + b) == (c + d) + u
  {
    assert q + (a + b) == (q + a) + b == c + (r + b) == (c + d) + u;
  }
}
