/** Two interleavings the conditions on draining are there to exclude. */
module PoolRaces {
  import opened Wrappers
  import opened Entities
  import opened WorkerPool

  /** Some run leads from one state to another. */
  ghost predicate Leads(cfg: Config, s: State, t: State) {
    exists actions :: Run(cfg, s, actions) == Some(t)
  }

  lemma Step(cfg: Config, s: State, t: State, a: Action)
    requires Leads(cfg, s, t) && Next(cfg, t, a).Some?
    ensures Leads(cfg, s, Next(cfg, t, a).value)
  {
    var actions :| Run(cfg, s, actions) == Some(t);
    RunJoin(cfg, s, actions, [a]);
    assert Run(cfg, s, actions + [a]) == Next(cfg, t, a);
  }

  lemma Join(cfg: Config, s: State, t: State, u: State)
    requires Leads(cfg, s, t) && Leads(cfg, t, u)
    ensures Leads(cfg, s, u)
  {
    var a :| Run(cfg, s, a) == Some(t);
    var b :| Run(cfg, t, b) == Some(u);
    RunJoin(cfg, s, a, b);
    assert Run(cfg, s, a + b) == Some(u);
  }

  lemma Nowhere(cfg: Config, s: State)
    ensures Leads(cfg, s, s)
  {
    assert Run(cfg, s, []) == Some(s);
  }

  const ONE := Config(1, 1)

  /** A new lone worker. */
  lemma StartOne(s: State) returns (t: State)
    requires s.starting.None? && !s.active
    ensures Leads(ONE, s, t)
    ensures t == s.(active := true, backlog := if s.backlog.None? then Some([]) else s.backlog, waitGroup := s.waitGroup + 1, workers := s.workers + [Polling])
  {
    hide Leads;
    Nowhere(ONE, s);
    t := s;
    Step(ONE, s, t, Start);
    t := Next(ONE, t, Start).value;
    Step(ONE, s, t, Spawn);
    t := Next(ONE, t, Spawn).value;
    Step(ONE, s, t, Started);
    t := Next(ONE, t, Started).value;
  }

  /** An idle worker that finds nothing to do and drain begun exits. */
  lemma LeaveOne(s: State, i: nat) returns (t: State)
    requires s.closed && i < |s.workers| && s.workers[i] == Polling && s.backlog == Some([])
    ensures Leads(ONE, s, t)
    ensures t == s.(waitGroup := s.waitGroup - 1, workers := s.workers[i := Exited], stranded := 0)
  {
    hide Leads;
    Nowhere(ONE, s);
    t := s;
    Step(ONE, s, t, Work(i, Pass));
    t := Next(ONE, t, Work(i, Pass)).value;
    Step(ONE, s, t, Work(i, SeeDrain));
    t := Next(ONE, t, Work(i, SeeDrain)).value;
    Step(ONE, s, t, Work(i, Pass));
    t := Next(ONE, t, Work(i, Pass)).value;
    Step(ONE, s, t, Work(i, Leave));
    t := Next(ONE, t, Work(i, Leave)).value;
    assert t.workers == s.workers[i := Exited];
  }

  lemma One(s: State, a: Action) returns (t: State)
    requires Next(ONE, s, a).Some?
    ensures Leads(ONE, s, t) && t == Next(ONE, s, a).value
  {
    hide Next;
    Nowhere(ONE, s);
    Step(ONE, s, s, a);
    t := Next(ONE, s, a).value;
  }

  /** A request that looked before draining began and enqueues after the last worker has
      gone: `Drain` returns and its event stays behind, never processed. */
  lemma LateRequest(e: Item) returns (s: State)
    ensures Leads(ONE, Initial(), s)
    ensures s.drains == [Returned] && Queue(s) == [e] && s.processed == multiset{} && s.late == 1
  {
    hide Leads;
    s := StartOne(Initial());
    var t := One(s, Arrive);
    Join(ONE, Initial(), s, t);
    s := One(t, DrainBegin);
    Join(ONE, Initial(), t, s);
    t := LeaveOne(s, 0);
    Join(ONE, Initial(), s, t);
    s := LatePart(t, e);
    Join(ONE, Initial(), t, s);
  }

  lemma LatePart(s: State, e: Item) returns (t: State)
    requires s.closed && s.active && s.starting.None? && s.backlog == Some([]) && s.waitGroup == 0
    requires s.drains == [Begun] && s.producers == [Serving]
    ensures Leads(ONE, s, t)
    ensures t.drains == [Returned] && Queue(t) == [e] && t.processed == s.processed && t.late == s.late + 1
  {
    hide Leads, AllQuit;
    t := One(s, DrainPass(0));
    var u := One(t, Offer(0, e));
    Join(ONE, s, t, u);
    t := One(u, DrainReturn(0));
    Join(ONE, s, u, t);
  }

  /** Two drains at once: the second to return declares the router inactive while the worker
      started in between is running, and the next start makes one worker too many. */
  lemma OverlappingDrains() returns (s: State)
    ensures Leads(ONE, Initial(), s)
    ensures s.workers == [Exited, Polling, Polling] && s.waitGroup == 2
  {
    hide Leads;
    s := StartOne(Initial());
    var t := One(s, DrainBegin);
    Join(ONE, Initial(), s, t);
    s := One(t, DrainBegin);
    Join(ONE, Initial(), t, s);
    t := LeaveOne(s, 0);
    Join(ONE, Initial(), s, t);
    s := OverlapPart(t);
    Join(ONE, Initial(), t, s);
  }

  lemma OverlapPart(s: State) returns (t: State)
    requires s.closed && s.active && s.starting.None? && s.backlog == Some([]) && s.waitGroup == 0
    requires s.drains == [Begun, Begun] && s.workers == [Exited]
    ensures Leads(ONE, s, t)
    ensures t.workers == [Exited, Polling, Polling] && t.waitGroup == 2
  {
    hide Leads;
    t := One(s, DrainPass(0));
    var u := One(t, DrainPass(1));
    Join(ONE, s, t, u);
    t := One(u, DrainReturn(0));
    Join(ONE, s, u, t);
    u := StartOne(t);
    Join(ONE, s, t, u);
    t := One(u, DrainReturn(1));
    Join(ONE, s, u, t);
    u := StartOne(t);
    Join(ONE, s, t, u);
    t := u;
  }
}
