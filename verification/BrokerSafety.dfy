/** What the task protocol guarantees in every interleaving, and where it stops. */
module BrokerSafety {
  import opened BrokerCore
  import opened BrokerInvariant
  import opened BrokerKept

  // --------------------------------------------- goroutines do not interfere

  /** No other goroutine moves connection `c`; at most the scheduler writes one more dispatch to it. */
  predicate LeftAlone(s: Core, s': Core, c: ConnId)
    requires At(s, c)
  {
    At(s', c) && s'.conns[c].pc == s.conns[c].pc && s.conns[c].unanswered <= s'.conns[c].unanswered
  }

  lemma ReplyLeavesOthers(s: Core, d: ConnId, step: ReplyStep, c: ConnId)
    requires At(s, c) && d != c && ReplyEnabled(s, d, step)
    ensures LeftAlone(s, ReplyApply(s, d, step), c)
  {
  }

  lemma CleanupLeavesOthers(s: Core, d: ConnId, step: CleanupStep, c: ConnId)
    requires At(s, c) && d != c && CleanupEnabled(s, d, step)
    ensures LeftAlone(s, CleanupApply(s, d, step), c)
  {
  }

  lemma MatchLeavesOthers(s: Core, step: MatchStep, c: ConnId)
    requires At(s, c) && MatchEnabled(s, step)
    ensures LeftAlone(s, MatchApply(s, step), c)
  {
  }

  lemma DispatchLeavesOthers(s: Core, step: DispatchStep, c: ConnId)
    requires At(s, c) && DispatchEnabled(s, step)
    ensures LeftAlone(s, DispatchApply(s, step), c)
  {
  }

  predicate ActsOn(step: Step, c: ConnId) { (step.Replying? || step.CleaningUp?) && step.c == c }

  lemma OthersLeaveAlone(s: Core, step: Step, c: ConnId)
    requires Enabled(s, step) && At(s, c) && !ActsOn(step, c)
    ensures LeftAlone(s, Apply(s, step), c)
  {
    match step
    case Clock(_) =>
    case Submission(_) =>
    case Joining(_, _) =>
    case Replying(d, u) => ReplyLeavesOthers(s, d, u, c);
    case CleaningUp(d, u) => CleanupLeavesOthers(s, d, u, c);
    case Matchmaking(u) => MatchLeavesOthers(s, u, c);
    case Dispatching(u) => DispatchLeavesOthers(s, u, c);
  }

  // ------------------------------------------------------ finished is final

  predicate SameRow(s: Core, s': Core, t: TaskId) {
    t in s.rows && t in s'.rows && s'.rows[t] == s.rows[t]
  }

  lemma ReplyKeepsFinished(s: Core, c: ConnId, step: ReplyStep, t: TaskId)
    requires Inv(s) && ReplyEnabled(s, c, step) && t in s.rows && s.rows[t].status.Finished()
    ensures SameRow(s, ReplyApply(s, c, step), t)
  {
    assert ConnOk(s, c);
  }

  lemma CleanupKeepsFinished(s: Core, c: ConnId, step: CleanupStep, t: TaskId)
    requires Inv(s) && CleanupEnabled(s, c, step) && t in s.rows && s.rows[t].status.Finished()
    ensures SameRow(s, CleanupApply(s, c, step), t)
  {
    assert ConnOk(s, c);
  }

  lemma MatchKeepsFinished(s: Core, step: MatchStep, t: TaskId)
    requires Inv(s) && MatchEnabled(s, step) && t in s.rows && s.rows[t].status.Finished()
    ensures SameRow(s, MatchApply(s, step), t)
  {
  }

  lemma DispatchKeepsFinished(s: Core, step: DispatchStep, t: TaskId)
    requires Inv(s) && DispatchEnabled(s, step) && t in s.rows && s.rows[t].status.Finished()
    ensures SameRow(s, DispatchApply(s, step), t)
  {
  }

  lemma StepKeepsFinished(s: Core, step: Step, t: TaskId)
    requires Inv(s) && Enabled(s, step)
    requires t in s.rows && s.rows[t].status.Finished()
    ensures SameRow(s, Apply(s, step), t)
  {
    match step
    case Clock(_) =>
    case Submission(_) =>
    case Joining(_, _) =>
    case Replying(c, u) => ReplyKeepsFinished(s, c, u, t);
    case CleaningUp(c, u) => CleanupKeepsFinished(s, c, u, t);
    case Matchmaking(u) => MatchKeepsFinished(s, u, t);
    case Dispatching(u) => DispatchKeepsFinished(s, u, t);
  }

  /** Once a row is completed or failed no later step of any goroutine changes any of its columns. */
  lemma {:induction false} FinishedIsFinal(s: Core, steps: seq<Step>, t: TaskId)
    requires Inv(s) && CanRun(s, steps)
    requires t in s.rows && s.rows[t].status.Finished()
    ensures t in RunFrom(s, steps).rows && RunFrom(s, steps).rows[t] == s.rows[t]
    decreases |steps|
  {
    if steps != [] {
      StepKeepsInv(s, steps[0]);
      StepKeepsFinished(s, steps[0], t);
      FinishedIsFinal(Apply(s, steps[0]), steps[1..], t);
    }
  }

  // ------------------------------------------------- answers are recorded

  /** The reply `a` to task `t` has been read by `c` and not written yet. */
  predicate InHand(s: Core, c: ConnId, t: TaskId, a: Answer) {
    At(s, c) && Answering(s.conns[c].pc) && s.conns[c].pc.task == t && s.conns[c].pc.answer == a
  }

  /** The row of `t` carries exactly the answer `a`; it failed if the answer has an error text. */
  predicate Recorded(s: Core, t: TaskId, a: Answer) {
    && t in s.rows
    && s.rows[t].stdout == a.stdout && s.rows[t].receipt == a.receipt && s.rows[t].error == a.error
    && s.rows[t].status == (if a.error == "" then Completed else Failed)
  }

  lemma StepKeepsAnswer(s: Core, step: Step, c: ConnId, t: TaskId, a: Answer)
    requires Inv(s) && Enabled(s, step) && InHand(s, c, t, a)
    ensures InHand(Apply(s, step), c, t, a) || Recorded(Apply(s, step), t, a)
  {
    assert ConnOk(s, c);
    if ActsOn(step, c) {
      if step.Replying? {
        var s' := ReplyApply(s, c, step.reply);
        assert InHand(s', c, t, a) || Recorded(s', t, a);
      }
    } else {
      OthersLeaveAlone(s, step, c);
    }
  }

  /** A reply that was read is never lost or altered: it is still in hand, or it is the task's final row. */
  lemma {:induction false} AnswerIsRecordedVerbatim(s: Core, steps: seq<Step>, c: ConnId, t: TaskId, a: Answer)
    requires Inv(s) && CanRun(s, steps) && (InHand(s, c, t, a) || Recorded(s, t, a))
    ensures InHand(RunFrom(s, steps), c, t, a) || Recorded(RunFrom(s, steps), t, a)
    decreases |steps|
  {
    if steps != [] {
      StepKeepsInv(s, steps[0]);
      if Recorded(s, t, a) {
        StepKeepsFinished(s, steps[0], t);
      } else {
        StepKeepsAnswer(s, steps[0], c, t, a);
      }
      AnswerIsRecordedVerbatim(Apply(s, steps[0]), steps[1..], c, t, a);
    }
  }

  // ------------------------------------------------------- consistent rows

  /** What a status request can see: results only on finished rows, an error text exactly on failed ones. */
  predicate RowOk(r: Row) {
    match r.status
    case Completed => r.error == ""
    case Failed => r.error != ""
    case _ => r.stdout == "" && r.receipt == "" && r.error == ""
  }

  predicate RowsOk(s: Core) { forall t :: t in s.rows ==> RowOk(s.rows[t]) }

  lemma SubmitKeepsRows(s: Core, step: SubmitStep)
    requires RowsOk(s) && SubmitEnabled(s, step)
    ensures RowsOk(SubmitApply(s, step))
  {
  }

  lemma ReplyKeepsRows(s: Core, c: ConnId, step: ReplyStep)
    requires RowsOk(s) && ReplyEnabled(s, c, step)
    ensures RowsOk(ReplyApply(s, c, step))
  {
  }

  lemma CleanupKeepsRows(s: Core, c: ConnId, step: CleanupStep)
    requires RowsOk(s) && CleanupEnabled(s, c, step)
    ensures RowsOk(CleanupApply(s, c, step))
  {
  }

  lemma MatchKeepsRows(s: Core, step: MatchStep)
    requires RowsOk(s) && MatchEnabled(s, step)
    ensures RowsOk(MatchApply(s, step))
  {
  }

  lemma DispatchKeepsRows(s: Core, step: DispatchStep)
    requires RowsOk(s) && DispatchEnabled(s, step)
    ensures RowsOk(DispatchApply(s, step))
  {
  }

  lemma {:induction false} RunKeepsRows(s: Core, steps: seq<Step>)
    requires RowsOk(s) && CanRun(s, steps)
    ensures RowsOk(RunFrom(s, steps))
    decreases |steps|
  {
    if steps != [] {
      match steps[0] {
        case Clock(_) =>
        case Submission(u) => SubmitKeepsRows(s, u);
        case Joining(_, _) =>
        case Replying(c, u) => ReplyKeepsRows(s, c, u);
        case CleaningUp(c, u) => CleanupKeepsRows(s, c, u);
        case Matchmaking(u) => MatchKeepsRows(s, u);
        case Dispatching(u) => DispatchKeepsRows(s, u);
      }
      RunKeepsRows(Apply(s, steps[0]), steps[1..]);
    }
  }

  /** In every reachable state every row is consistent. */
  lemma VisibleRowsAreConsistent(s: Core, t: TaskId)
    requires Reachable(s) && t in s.rows
    ensures RowOk(s.rows[t])
  {
    var now, steps :| CanRun(Init(now), steps) && RunFrom(Init(now), steps) == s;
    RunKeepsRows(Init(now), steps);
  }

  // -------------------------------------------------------- no task is lost

  /** Connection `c` still has to process a reply for `t`, or to requeue it. */
  predicate AnswersFor(s: Core, c: ConnId, t: TaskId) {
    At(s, c) &&
    var k := s.conns[c];
    || (t in k.unanswered && !k.pc.Crashed?)
    || (Answering(k.pc) && k.pc.task == t)
    || (k.pc.Closed? && t in s.active && s.active[t] == k.worker)
    || ((k.pc.Requeue? || k.pc.RequeueMark?) && t in k.pc.todo)
  }

  /** Somebody will still dispatch, answer or requeue the unfinished task `t`. */
  ghost predicate Served(s: Core, t: TaskId)
    requires Unfinished(s, t)
  {
    if IsPending(s, t) then
      || t in s.queue || SubmitterHolds(s, t) || SchedHas(s, t)
      || (exists c: ConnId :: At(s, c) && s.conns[c].pc.RequeuePush? && t in s.conns[c].pc.todo)
    else
      SchedHolds(s, t) || exists c: ConnId :: AnswersFor(s, c, t)
  }

  /** `t` was dispatched to a worker whose ID is shorter than the eight bytes the registration log line slices. */
  ghost predicate Stranded(s: Core, t: TaskId) {
    exists c: ConnId :: At(s, c) && |s.conns[c].worker| < 8 && t in s.conns[c].unanswered
  }

  /** In every reachable state an unfinished task is looked after, unless a worker with a short ID has it. */
  lemma NoTaskIsLost(s: Core, t: TaskId)
    requires Reachable(s) && Unfinished(s, t)
    ensures Served(s, t) <==> !Stranded(s, t)
  {
    ReachableInv(s);
    if Stranded(s, t) { StrandedIsNotServed(s, t); } else { UnstrandedIsServed(s, t); }
  }

  lemma UnstrandedIsServed(s: Core, t: TaskId)
    requires Inv(s) && Unfinished(s, t) && !Stranded(s, t)
    ensures Served(s, t)
  {
    assert TaskOk(s, t);
    if IsRunning(s, t) && !SchedHolds(s, t) {
      var c := s.keeper[t];
      assert ConnOk(s, c);
      assert AnswersFor(s, c, t);
    }
  }

  lemma StrandedIsNotServed(s: Core, t: TaskId)
    requires Inv(s) && Stranded(s, t)
    ensures Unfinished(s, t) && !Served(s, t)
  {
    var c: ConnId :| At(s, c) && |s.conns[c].worker| < 8 && t in s.conns[c].unanswered;
    assert ConnOk(s, c);
    forall d: ConnId ensures !AnswersFor(s, d, t) {
      if At(s, d) { assert ConnOk(s, d) && Apart(s, c, d); }
    }
  }

  /** When every worker that ever registered has an ID of at least eight bytes, no task is ever lost. */
  lemma NoTaskIsLostWithFullIds(s: Core, t: TaskId)
    requires Reachable(s) && Unfinished(s, t)
    requires forall c: ConnId :: At(s, c) ==> |s.conns[c].worker| >= 8
    ensures Served(s, t)
  {
    NoTaskIsLost(s, t);
  }

  lemma StepKeepsStranded(s: Core, step: Step, t: TaskId)
    requires Inv(s) && Enabled(s, step) && Stranded(s, t)
    ensures Stranded(Apply(s, step), t)
  {
    var c: ConnId :| At(s, c) && |s.conns[c].worker| < 8 && t in s.conns[c].unanswered;
    assert ConnOk(s, c);
    OthersLeaveAlone(s, step, c);
    StepKeepsInv(s, step);
    assert ConnOk(Apply(s, step), c);
  }

  /** A stranded task stays stranded, unfinished and unserved, however the run goes on. */
  lemma {:induction false} StrandedForever(s: Core, steps: seq<Step>, t: TaskId)
    requires Inv(s) && CanRun(s, steps) && Stranded(s, t)
    ensures Unfinished(RunFrom(s, steps), t)
    ensures Stranded(RunFrom(s, steps), t) && !Served(RunFrom(s, steps), t)
    decreases |steps|
  {
    if steps == [] {
      StrandedIsNotServed(s, t);
    } else {
      StepKeepsInv(s, steps[0]);
      StepKeepsStranded(s, steps[0], t);
      StrandedForever(Apply(s, steps[0]), steps[1..], t);
    }
  }

  // ------------------------------------------------- one holder at a time

  /** A dispatched task is unanswered on one connection only, and nobody else can dispatch it. */
  lemma OneHolderPerTask(s: Core, t: TaskId, c: ConnId, d: ConnId)
    requires Reachable(s) && At(s, c) && At(s, d)
    requires t in s.conns[c].unanswered || (Answering(s.conns[c].pc) && s.conns[c].pc.task == t)
    requires t in s.conns[d].unanswered || (Answering(s.conns[d].pc) && s.conns[d].pc.task == t)
    ensures c == d && IsRunning(s, t) && !SchedHolds(s, t)
  {
    ReachableInv(s);
    assert ConnOk(s, c) && ConnOk(s, d);
  }

  /** One task per worker: no two entries of activeTasks name the same worker. */
  lemma OneTaskPerWorker(s: Core, t: TaskId, u: TaskId)
    requires Reachable(s) && t in s.active && u in s.active && s.active[t] == s.active[u]
    ensures t == u
  {
    ReachableInv(s);
    assert Injective(s, t, u);
  }

  /** A dispatch is unanswered only on a busy worker of a suitable tier that is mapped to it, one at a time. */
  lemma UnansweredMeansBusyAndMapped(s: Core, c: ConnId, t: TaskId)
    requires Reachable(s) && At(s, c) && t in s.conns[c].unanswered
    ensures s.conns[c].unanswered == [t] && s.conns[c].busy
    ensures t in s.active && s.active[t] == s.conns[c].worker && Suitable(s, t, c)
  {
    ReachableInv(s);
    assert ConnOk(s, c);
  }

  /** The scheduler is in the middle of a dispatch to an earlier connection of the same worker ID. */
  predicate StaleDispatch(s: Core, c: ConnId)
    requires At(s, c)
  {
    && (s.sched.Mapped? || s.sched.Marked? || s.sched.SendFailed?)
    && s.sched.target != c && At(s, s.sched.target)
    && s.conns[s.sched.target].worker == s.conns[c].worker
    && s.sched.task in s.active
  }

  /** An idle registered worker has a mapped task exactly during a stale dispatch to its worker ID. */
  lemma IdleWorkerIsMappedIff(s: Core, c: ConnId)
    requires Reachable(s) && At(s, c) && Registered(s.conns[c].pc) && !s.conns[c].busy
    ensures s.conns[c].unanswered == []
    ensures (exists t :: t in s.active && s.active[t] == s.conns[c].worker) <==> StaleDispatch(s, c)
  {
    ReachableInv(s);
    assert ConnOk(s, c);
    if t :| t in s.active && s.active[t] == s.conns[c].worker {
      assert TaskOk(s, t);
      if !SchedMid(s, t) { MappedWorkerIsBusy(s, t, c); }
    }
    if StaleDispatch(s, c) {
      assert TaskOk(s, s.sched.task);
    }
  }

  // -------------------------------------------------------------- quiescence

  /** Nothing is in motion: no queue entry, no submission, no reply, no cleanup; the scheduler waits. */
  predicate Quiet(s: Core) {
    && s.queue == [] && s.sched.Waiting?
    && (forall i :: 0 <= i < |s.subs| ==> s.subs[i].hand.None?)
    && (forall c :: 0 <= c < |s.conns| ==>
          s.conns[c].pc.Reading? || s.conns[c].pc.Gone? || s.conns[c].pc.Crashed?)
  }

  /** In a quiet state each unfinished task is running on the one busy registered worker it is mapped to. */
  lemma QuietMeansRunning(s: Core, t: TaskId)
    requires Reachable(s) && Quiet(s) && Unfinished(s, t)
    ensures IsRunning(s, t) && t in s.active && s.active[t] in s.workers
    ensures var c := s.workers[s.active[t]];
            && At(s, c) && Registered(s.conns[c].pc) && s.conns[c].busy
            && s.conns[c].unanswered == [t] && Suitable(s, t, c)
    ensures forall u :: u in s.active && s.active[u] == s.active[t] ==> u == t
  {
    ReachableInv(s);
    assert TaskOk(s, t);
    assert s.rows[t].status.Running?;
    var c := s.keeper[t];
    assert ConnOk(s, c);
    forall u | u in s.active && s.active[u] == s.active[t] ensures u == t { assert Injective(s, u, t); }
  }

  // ------------------------------------------------------- bounded matching

  /** The matching loop sleeps at most 61 times, and loops back only while 30 s have not passed. */
  lemma MatchingSleepsAtMost61Times(s: Core)
    requires Reachable(s)
    ensures s.sched.Matching? ==> s.sched.sleeps <= 60
    ensures s.sched.Sleeping? || s.sched.Rechecked? ==> s.sched.sleeps <= 61
  {
    ReachableInv(s);
  }

  /**
   A task is failed for want of a worker only when it is older than 30 s and nothing
   has happened to it; its row then says so, and no other row changes.
   */
  lemma ExpiresOnlyOldPendingTasks(s: Core)
    requires Reachable(s) && CanExpire(s)
    ensures var t := s.sched.task;
            && IsPending(s, t) && t !in s.active && s.now - s.rows[t].createdAt > 30_000_000_000
            && (forall c: ConnId :: !AnswersFor(s, c, t))
            && Recorded(Expire(s), t, Answer("", "", "Task matching timed out: no suitable worker online"))
            && Expire(s).rows - {t} == s.rows - {t}
  {
    ReachableInv(s);
    forall c: ConnId ensures !AnswersFor(s, c, s.sched.task) {
      if At(s, c) { assert ConnOk(s, c); }
    }
  }

  /** The re-read status is always pending: the scheduler alone moves the task it is matching. */
  lemma MatchedTaskStaysPending(s: Core)
    requires Reachable(s) && s.sched.Sleeping?
    ensures IsPending(s, s.sched.task) && s.sched.task !in s.active
  {
    ReachableInv(s);
  }

  // -------------------------------------------------------------- deadlocks

  ghost predicate SchedulerCanStep(s: Core) {
    (exists m :: MatchEnabled(s, m)) || (exists d :: DispatchEnabled(s, d))
  }

  /** The scheduler is blocked in exactly four ways: nothing to do, asleep, on the lock, on a full queue. */
  lemma SchedulerBlockedIff(s: Core)
    requires Reachable(s)
    ensures !SchedulerCanStep(s) <==>
            || (s.sched.Waiting? && s.queue == [])
            || (s.sched.Sleeping? && s.now < s.sched.until)
            || ((s.sched.Matched? || s.sched.SendFailed?) && s.lock.Some?)
            || (s.sched.Requeuing? && !HasRoom(s))
  {
    ReachableInv(s);
    SomeStepFor(s);
  }

  lemma SomeStepFor(s: Core)
    requires Inv(s)
    ensures s.sched.Waiting? && s.queue != [] ==> MatchEnabled(s, DDequeue)
    ensures s.sched.Taken? ==> MatchEnabled(s, DLookup)
    ensures s.sched.Matching? ==> exists m :: MatchEnabled(s, m)
    ensures s.sched.Sleeping? && s.sched.until <= s.now ==> MatchEnabled(s, DRecheck)
    ensures s.sched.Rechecked? ==> MatchEnabled(s, DCheckAge)
    ensures s.sched.Expiring? ==> MatchEnabled(s, DExpire)
    ensures s.sched.ExpirySaved? ==> MatchEnabled(s, DTellExpiredTask)
    ensures s.sched.ExpiryTold? ==> MatchEnabled(s, DTellExpiredBatch)
    ensures s.sched.Matched? && s.lock.None? ==> DispatchEnabled(s, DMapTask)
    ensures s.sched.Mapped? ==> DispatchEnabled(s, DMarkRunning)
    ensures s.sched.Marked? ==> DispatchEnabled(s, DFailSend)
    ensures s.sched.SendFailed? && s.lock.None? ==> DispatchEnabled(s, DUnmapSend)
    ensures s.sched.SendUnmapped? ==> DispatchEnabled(s, DIdleSend)
    ensures s.sched.SendIdled? ==> DispatchEnabled(s, DMarkSend)
    ensures s.sched.Requeuing? && HasRoom(s) ==> DispatchEnabled(s, DPushSend)
  {
    if s.sched.Matching? {
      if w :| w in s.workers && Suits(s, w, s.sched.row.tier) {
        assert MatchEnabled(s, DMatch(w));
      } else {
        assert MatchEnabled(s, DNoMatch);
      }
    }
  }

  /** The goroutine holding the lock can step exactly when it is not about to push into a full queue. */
  lemma LockHolderProgress(s: Core)
    requires Reachable(s) && s.lock.Some?
    ensures At(s, s.lock.value) && HoldsLock(s.conns[s.lock.value].pc)
    ensures (exists u :: CleanupEnabled(s, s.lock.value, u)) <==>
            (s.conns[s.lock.value].pc.RequeuePush? ==> HasRoom(s))
  {
    ReachableInv(s);
    var c := s.lock.value;
    assert ConnOk(s, c);
    match s.conns[c].pc
    case Requeue(todo) => assert CleanupEnabled(s, c, if todo == [] then DUnlock else DUnmapLost);
    case RequeueMark(_) => assert CleanupEnabled(s, c, DMarkLost);
    case RequeuePush(_) => assert HasRoom(s) ==> CleanupEnabled(s, c, DPushLost);
  }

  /** The queue is full and its only reader waits for a push into it, its own or the lock holder's. */
  predicate Deadlocked(s: Core) {
    && !HasRoom(s)
    && (|| s.sched.Requeuing?
        || ((s.sched.Matched? || s.sched.SendFailed?)
            && s.lock.Some? && At(s, s.lock.value) && s.conns[s.lock.value].pc.RequeuePush?))
  }

  predicate Jammed(s: Core, s': Core) {
    Deadlocked(s') && s'.sched == s.sched && s'.queue == s.queue
  }

  lemma ReplyKeepsJam(s: Core, c: ConnId, step: ReplyStep)
    requires Inv(s) && Deadlocked(s) && ReplyEnabled(s, c, step)
    ensures Jammed(s, ReplyApply(s, c, step))
  {
  }

  lemma CleanupKeepsJam(s: Core, c: ConnId, step: CleanupStep)
    requires Inv(s) && Deadlocked(s) && CleanupEnabled(s, c, step)
    ensures Jammed(s, CleanupApply(s, c, step))
  {
    assert ConnOk(s, c);
  }

  lemma SchedulerIsJammed(s: Core)
    requires Deadlocked(s)
    ensures !SchedulerCanStep(s)
  {
    forall m ensures !MatchEnabled(s, m) { }
    forall d ensures !DispatchEnabled(s, d) { }
  }

  /** Such a state never resolves: however the run goes on, the scheduler and the queue stay where they are. */
  lemma {:induction false} DeadlockIsPermanent(s: Core, steps: seq<Step>)
    requires Inv(s) && Deadlocked(s) && CanRun(s, steps)
    ensures Jammed(s, RunFrom(s, steps))
    ensures !SchedulerCanStep(RunFrom(s, steps))
    decreases |steps|
  {
    if steps == [] {
      SchedulerIsJammed(s);
    } else {
      StepKeepsInv(s, steps[0]);
      StepKeepsJam(s, steps[0]);
      DeadlockIsPermanent(Apply(s, steps[0]), steps[1..]);
    }
  }

  lemma StepKeepsJam(s: Core, step: Step)
    requires Inv(s) && Deadlocked(s) && Enabled(s, step)
    ensures Jammed(s, Apply(s, step))
  {
    SchedulerIsJammed(s);
    match step
    case Clock(_) =>
    case Submission(_) =>
    case Joining(_, _) =>
    case Replying(c, u) => ReplyKeepsJam(s, c, u);
    case CleaningUp(c, u) => CleanupKeepsJam(s, c, u);
    case Matchmaking(_) => assert false;
    case Dispatching(_) => assert false;
  }
}
