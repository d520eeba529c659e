/**
 Concrete runs.  Each shows that a caveat of the safety theorems is needed: the
 state it excludes is one that the code does reach.
 */
module BrokerWitness {
  import opened Wrappers
  import opened BrokerCore
  import opened BrokerInvariant
  import opened BrokerKept
  import opened BrokerSafety
  import opened BrokerDeadlock

  lemma ReachStep(s: Core, step: Step)
    requires Reachable(s) && Enabled(s, step)
    ensures Reachable(Apply(s, step))
  {
    var now, steps :| CanRun(Init(now), steps) && RunFrom(Init(now), steps) == s;
    RunAppend(Init(now), steps, step);
    assert CanRun(Init(now), steps + [step]);
  }

  lemma InitReachable(now: int)
    ensures Reachable(Init(now))
  {
    assert CanRun(Init(now), []);
  }

  // -------------------------------------------------------- building blocks

  lemma Join(s: Core, w: WorkerId) returns (s': Core)
    requires Reachable(s) && CanRegister(s, w)
    ensures Reachable(s') && s' == s.(workers := s'.workers, conns := s'.conns)
    ensures s'.workers == s.workers[w := |s.conns|]
    ensures s'.conns == s.conns + [Conn(w, 2, false, [], PcOnJoin(w))]
  {
    ReachStep(s, Joining(w, 2));
    s' := Register(s, w, 2);
  }

  lemma Submit(s: Core, t: TaskId) returns (s': Core)
    requires Reachable(s) && s.queue == [] && t !in s.rows && t != 0
    ensures Reachable(s') && s'.queue == [t] && s'.rows == s.rows[t := NewRow(0, s.now, 0)]
    ensures s'.subs == s.subs + [Submitter(0, 0, 0, None)]
    ensures s' == s.(queue := [t], rows := s'.rows, subs := s'.subs, pushed := s'.pushed)
  {
    var i := |s.subs|;
    ReachStep(s, Submission(DStartSubmit(0, 0, 1)));
    s' := StartSubmit(s, 0, 0, 1);
    ReachStep(s', Submission(DCreateTask(i, t)));
    s' := CreateTask(s', i, t);
    ReachStep(s', Submission(DPushTask(i)));
    s' := PushTask(s', i);
  }

  /** A single task is submitted, received, and matched to the idle worker `w`. */
  lemma SubmitAndMatch(s: Core, t: TaskId, w: WorkerId) returns (s': Core)
    requires Reachable(s) && s.sched.Waiting? && s.queue == [] && t !in s.rows && t != 0 && Suits(s, w, 0)
    ensures Reachable(s') && s'.sched == Matched(t, s.workers[w]) && s'.queue == []
    ensures s'.rows == s.rows[t := NewRow(0, s.now, 0)] && s'.workers == s.workers
    ensures s'.active == s.active && s'.lock == s.lock && s'.subs == s.subs + [Submitter(0, 0, 0, None)]
    ensures var c := s.workers[w]; s'.conns == s.conns[c := s.conns[c].(busy := true)]
  {
    s' := Submit(s, t);
    ReachStep(s', Matchmaking(DDequeue));
    s' := Dequeue(s');
    ReachStep(s', Matchmaking(DLookup));
    s' := Lookup(s');
    ReachStep(s', Matchmaking(DMatch(w)));
    s' := Match(s', w);
  }

  /** The scheduler sends a matched task to a connection that is still open. */
  lemma Dispatch(s: Core) returns (s': Core)
    requires Reachable(s) && CanMapTask(s) && Open(s.conns[s.sched.target].pc) && s.sched.task in s.rows
    ensures Reachable(s') && s'.sched.Waiting? && s'.queue == s.queue && s'.lock == s.lock
    ensures s'.workers == s.workers && s'.subs == s.subs
    ensures var t, c := s.sched.task, s.sched.target;
            && s'.rows.Keys == s.rows.Keys && IsRunning(s', t)
            && s'.active == s.active[t := s.conns[c].worker]
            && s'.conns == s.conns[c := s.conns[c].(unanswered := s.conns[c].unanswered + [t])]
  {
    ReachStep(s, Dispatching(DMapTask));
    s' := MapTask(s);
    ReachStep(s', Dispatching(DMarkRunning));
    s' := MarkRunning(s');
    ReachStep(s', Dispatching(DSend));
    s' := Send(s');
  }

  /** A worker's socket fails and its cleanup takes the lock with the tasks in `list`. */
  lemma Disconnect(s: Core, c: ConnId, list: seq<TaskId>) returns (s': Core)
    requires Reachable(s) && At(s, c) && s.conns[c].pc.Reading? && s.lock.None?
    requires Enumerates(list, MappedTo(s, s.conns[c].worker))
    ensures Reachable(s') && s'.sched == s.sched && s'.queue == s.queue && s'.active == s.active
    ensures s'.rows == s.rows && s'.subs == s.subs && s'.lock == Some(c)
    ensures s'.workers == s.workers - {s.conns[c].worker}
    ensures s'.conns == s.conns[c := s.conns[c].(pc := Requeue(list), unanswered := [])]
  {
    ReachStep(s, CleaningUp(c, DReadError));
    s' := ReadError(s, c);
    ReachStep(s', CleaningUp(c, DUnregister));
    s' := Unregister(s', c);
    ReachStep(s', CleaningUp(c, DClose));
    s' := Close(s', c);
    ReachStep(s', CleaningUp(c, DScan(list)));
    s' := Scan(s', c, list);
  }

  /** A batch handler creates and pushes `n` tasks while every other goroutine pauses. */
  lemma {:induction false} PushMany(s: Core, i: nat, n: nat, m: TaskId) returns (s': Core)
    requires Reachable(s) && i < |s.subs| && s.subs[i].hand.None? && s.subs[i].left >= n
    requires |s.queue| + n <= QUEUE_CAPACITY && m > 0 && forall t :: t in s.rows ==> t < m
    ensures Reachable(s') && |s'.queue| == |s.queue| + n
    ensures s'.sched == s.sched && s'.conns == s.conns && s'.lock == s.lock && s'.active == s.active
    decreases n
  {
    s' := s;
    if n > 0 {
      ReachStep(s, Submission(DCreateTask(i, m)));
      s' := CreateTask(s, i, m);
      ReachStep(s', Submission(DPushTask(i)));
      s' := PushTask(s', i);
      s' := PushMany(s', i, n - 1, m + 1);
    }
  }

  // ------------------------------------------------------------- the runs

  /** The only worker joined under ID `v`, and task 1 is matched to it. */
  lemma OneMatch(v: WorkerId) returns (s: Core)
    ensures Reachable(s) && s.sched == Matched(1, 0) && s.queue == [] && s.lock == None
    ensures s.rows.Keys == {1} && s.active == map[] && s.workers == map[v := 0]
    ensures s.conns == [Conn(v, 2, true, [], PcOnJoin(v))] && s.subs == [Submitter(0, 0, 0, None)]
  {
    InitReachable(0);
    var s0 := Join(Init(0), v);
    s := SubmitAndMatch(s0, 1, v);
    assert s.rows.Keys == {1};
    assert s0.subs == [];
  }

  /** ... and has been sent to it. */
  lemma OneDispatch(v: WorkerId) returns (s: Core)
    ensures Reachable(s) && s.sched.Waiting? && s.queue == [] && s.lock == None
    ensures s.rows.Keys == {1} && IsRunning(s, 1) && s.active == map[1 := v] && s.workers == map[v := 0]
    ensures s.conns == [Conn(v, 2, true, [1], PcOnJoin(v))] && s.subs == [Submitter(0, 0, 0, None)]
  {
    var s0 := OneMatch(v);
    s := Dispatch(s0);
    assert s0.conns[0].unanswered + [1] == [1];
  }

  /** A worker that registers with a seven-byte ID strands the task it is given: the log line panics first. */
  lemma ShortIdStrandsATask() returns (s: Core)
    ensures Reachable(s) && Unfinished(s, 1) && Stranded(s, 1) && !Served(s, 1)
  {
    s := OneDispatch("worker7");
    assert At(s, 0) && s.conns[0].pc.Crashed? && 1 in s.conns[0].unanswered;
    NoTaskIsLost(s, 1);
  }

  /**
   The worker matched to a task disconnects, cleans up and registers again before
   the scheduler records the match: now an idle worker has a mapped task.
   */
  lemma IdleWorkerCanBeMapped() returns (s: Core)
    ensures Reachable(s) && At(s, 1) && Registered(s.conns[1].pc) && !s.conns[1].busy
    ensures 1 in s.active && s.active[1] == s.conns[1].worker
  {
    var w := "worker-8";
    s := OneMatch(w);
    s := Disconnect(s, 0, []);
    ReachStep(s, CleaningUp(0, DUnlock));
    s := Unlock(s, 0);
    s := Join(s, w);
    ReachStep(s, Dispatching(DMapTask));
    s := MapTask(s);
  }

  /** Task 1 runs on one worker, and task 2 is matched to another. */
  lemma TwoWorkers(v: WorkerId, w: WorkerId) returns (s: Core)
    requires v != w
    ensures Reachable(s) && s.sched == Matched(2, 1) && s.queue == [] && s.lock == None && s.rows.Keys == {1, 2}
    ensures s.active == map[1 := v] && |s.conns| == 2
    ensures s.conns[0] == Conn(v, 2, true, [1], PcOnJoin(v))
    ensures s.subs == [Submitter(0, 0, 0, None), Submitter(0, 0, 0, None)]
  {
    s := OneDispatch(v);
    s := Join(s, w);
    s := SubmitAndMatch(s, 2, w);
  }

  /** Task 1 is being requeued under the lock while the scheduler waits to record task 2. */
  lemma RequeueDuringMatch() returns (s: Core)
    ensures Reachable(s) && s.sched == Matched(2, 1) && s.queue == [] && s.rows.Keys == {1, 2}
    ensures s.lock == Some(0) && At(s, 0) && s.conns[0].pc == RequeuePush([1])
    ensures s.subs == [Submitter(0, 0, 0, None), Submitter(0, 0, 0, None)]
  {
    var v, w := "worker-8", "worker-9";
    assert v != w by { assert v[7] != w[7]; }
    s := TwoWorkers(v, w);
    assert MappedTo(s, v) == {1};
    s := Disconnect(s, 0, [1]);
    s := ReachRequeuePush(s, 1);
  }

  lemma ReachRequeuePush(s: Core, t: TaskId) returns (s': Core)
    requires Reachable(s) && At(s, 0) && s.conns[0].pc == Requeue([t]) && t in s.rows
    ensures Reachable(s') && s' == s.(rows := s'.rows, conns := s'.conns, active := s'.active)
    ensures s'.rows.Keys == s.rows.Keys && At(s', 0) && s'.conns[0].pc == RequeuePush([t])
  {
    ReachStep(s, CleaningUp(0, DUnmapLost));
    s' := UnmapLost(s, 0);
    ReachStep(s', CleaningUp(0, DMarkLost));
    s' := MarkLost(s', 0);
  }

  /**
   With 1000 tasks queued, a disconnecting worker that has to requeue one more
   blocks in the send while holding the lock that the scheduler is waiting for.
   */
  lemma FullQueueDeadlocks() returns (s: Core)
    ensures Reachable(s) && Deadlocked(s) && Doomed(s) && s.sched.Matched? && |s.queue| == 1000
  {
    s := RequeueDuringMatch();
    ReachStep(s, Submission(DStartSubmit(7, 0, 1000)));
    s := StartSubmit(s, 7, 0, 1000);
    s := PushMany(s, 2, 1000, 3);
    DeadlockedIsDoomed(s);
  }
}
