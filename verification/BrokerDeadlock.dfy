/**
 When a full queue is fatal.  The scheduler is the queue's only reader; it is lost
 exactly when getting back to the receive needs more pushes than there are free slots.
 */
module BrokerDeadlock {
  import opened Wrappers
  import opened BrokerCore
  import opened BrokerInvariant
  import opened BrokerKept
  import opened BrokerSafety
  import opened BrokerCopies

  // ---------------------------------------------------------- forced pushes

  function Free(s: Core): nat { if HasRoom(s) then QUEUE_CAPACITY - |s.queue| else 0 }

  /** Pushes the lock holder has to make before it unlocks. */
  function LockDebt(s: Core): nat {
    if s.lock.Some? && At(s, s.lock.value) && HoldsLock(s.conns[s.lock.value].pc)
    then |s.conns[s.lock.value].pc.todo|
    else 0
  }

  predicate OpenTarget(s: Core, c: ConnId) { At(s, c) && Open(s.conns[c].pc) }

  predicate Trap(k: Conn, tier: int) { k.pc.Crashed? && !k.busy && (tier == 0 || k.tier == tier) }

  /** A suitable idle worker that never leaves, so that the scan cannot come up empty. */
  ghost predicate Trapped(s: Core, tier: int) { exists c: ConnId :: At(s, c) && Trap(s.conns[c], tier) }

  /** Pushes that must happen before the scheduler can receive again, whatever the others do. */
  ghost function Forced(s: Core): nat {
    match s.sched
    case Taken(t) => if IsPending(s, t) && Trapped(s, s.rows[t].tier) then LockDebt(s) else 0
    case Matching(_, row, _) => if Trapped(s, row.tier) then LockDebt(s) else 0
    case Matched(_, c) => LockDebt(s) + if OpenTarget(s, c) then 0 else 1
    case Mapped(_, c) => if OpenTarget(s, c) then 0 else LockDebt(s) + 1
    case Marked(_, c) => if OpenTarget(s, c) then 0 else LockDebt(s) + 1
    case SendFailed(_, _) => LockDebt(s) + 1
    case SendUnmapped(_, _) => 1
    case SendIdled(_) => 1
    case Requeuing(_) => 1
    case _ => 0
  }

  ghost predicate Doomed(s: Core) { Forced(s) > Free(s) }

  // --------------------------------------------------- doomed states stay so

  /** The other goroutines leave the scheduler where it is and do not improve its chances. */
  ghost predicate NoBetter(s: Core, s': Core) {
    && s'.sched == s.sched && s'.taken == s.taken
    && Free(s') <= Free(s) && LockDebt(s') - Free(s') >= LockDebt(s) - Free(s)
    && (forall c: ConnId :: At(s, c) ==> At(s', c) && NoBetterConn(s.conns[c], s'.conns[c]))
    && (forall c: ConnId :: At(s', c) && !At(s, c) ==> !HasTarget(s) || s.sched.target != c)
    && (s.sched.Taken? && IsPending(s, s.sched.task) ==>
          IsPending(s', s.sched.task) && s'.rows[s.sched.task].tier == s.rows[s.sched.task].tier)
  }

  predicate NoBetterConn(k: Conn, k': Conn) {
    && (Open(k'.pc) ==> Open(k.pc)) && (k.pc.Crashed? ==> k'.pc.Crashed?)
    && (k'.busy ==> k.busy) && k'.tier == k.tier
  }

  lemma TrapStays(s: Core, s': Core, tier: int)
    requires NoBetter(s, s') && Trapped(s, tier)
    ensures Trapped(s', tier)
  {
    var c: ConnId :| At(s, c) && Trap(s.conns[c], tier);
    assert At(s', c) && Trap(s'.conns[c], tier);
  }

  lemma NoBetterStaysDoomed(s: Core, s': Core)
    requires Doomed(s) && NoBetter(s, s')
    ensures Doomed(s')
  {
    if s.sched.Taken? && IsPending(s, s.sched.task) && Trapped(s, s.rows[s.sched.task].tier) {
      TrapStays(s, s', s.rows[s.sched.task].tier);
    }
    if s.sched.Matching? && Trapped(s, s.sched.row.tier) { TrapStays(s, s', s.sched.row.tier); }
  }

  lemma SubmitIsNoBetter(s: Core, step: SubmitStep)
    requires SubmitEnabled(s, step)
    ensures NoBetter(s, SubmitApply(s, step))
  {
  }

  lemma RegisterIsNoBetter(s: Core, w: WorkerId, tier: int)
    requires Inv(s) && CanRegister(s, w)
    ensures NoBetter(s, Register(s, w, tier))
  {
    if s.lock.Some? { assert Register(s, w, tier).conns[s.lock.value] == s.conns[s.lock.value]; }
  }

  lemma SaveIsNoBetter(s: Core, c: ConnId)
    requires CanSaveReply(s, c) && ConnOk(s, c)
    ensures NoBetter(s, SaveReply(s, c))
  {
  }

  lemma ReplyIsNoBetter(s: Core, c: ConnId, step: ReplyStep)
    requires ReplyEnabled(s, c, step) && !step.DSaveReply? && ConnOk(s, c)
    ensures NoBetter(s, ReplyApply(s, c, step))
  {
  }

  lemma CleanupIsNoBetter(s: Core, c: ConnId, step: CleanupStep)
    requires CleanupEnabled(s, c, step) && ConnOk(s, c)
    ensures NoBetter(s, CleanupApply(s, c, step))
  {
  }

  /** A trap is registered and suits, so the scan does find a worker. */
  lemma TrapIsFound(s: Core, tier: int)
    requires Inv(s) && s.sched.Matching? && Trapped(s, s.sched.row.tier)
    ensures !CanNoMatch(s)
  {
    var c: ConnId :| At(s, c) && Trap(s.conns[c], s.sched.row.tier);
    assert ConnOk(s, c);
    assert Suits(s, s.conns[c].worker, s.sched.row.tier);
  }

  lemma MatchStaysDoomed(s: Core, step: MatchStep)
    requires Inv(s) && MatchEnabled(s, step) && Doomed(s)
    ensures Doomed(MatchApply(s, step)) && MatchApply(s, step).taken == s.taken
  {
    if s.sched.Taken? {
      TrapStaysOnLookup(s);
    } else {
      assert s.sched.Matching?;
      TrapIsFound(s, s.sched.row.tier);
      assert WorkerOk(s, step.w);
      MatchKeepsDebt(s, step.w);
    }
  }

  lemma TrapStaysOnLookup(s: Core)
    requires Inv(s) && CanLookup(s) && Doomed(s)
    ensures Doomed(Lookup(s))
  {
    var tier := s.rows[s.sched.task].tier;
    var c: ConnId :| At(s, c) && Trap(s.conns[c], tier);
    assert At(Lookup(s), c) && Trap(Lookup(s).conns[c], tier);
  }

  lemma MatchKeepsDebt(s: Core, w: WorkerId)
    requires CanMatch(s, w) && WorkerOk(s, w)
    ensures LockDebt(Match(s, w)) == LockDebt(s) && OpenTarget(Match(s, w), s.workers[w])
  {
  }

  lemma DispatchStaysDoomed(s: Core, step: DispatchStep)
    requires Inv(s) && DispatchEnabled(s, step) && Doomed(s)
    ensures Doomed(DispatchApply(s, step)) && DispatchApply(s, step).taken == s.taken
  {
  }

  lemma StepStaysDoomed(s: Core, step: Step)
    requires Inv(s) && Enabled(s, step) && Doomed(s)
    ensures Doomed(Apply(s, step)) && Apply(s, step).taken == s.taken
  {
    match step
    case Clock(d) => NoBetterStaysDoomed(s, Tick(s, d));
    case Submission(u) => SubmitIsNoBetter(s, u); NoBetterStaysDoomed(s, SubmitApply(s, u));
    case Joining(w, tier) => RegisterIsNoBetter(s, w, tier); NoBetterStaysDoomed(s, Register(s, w, tier));
    case Replying(c, u) =>
      assert ConnOk(s, c);
      if u.DSaveReply? { SaveIsNoBetter(s, c); } else { ReplyIsNoBetter(s, c, u); }
      NoBetterStaysDoomed(s, ReplyApply(s, c, u));
    case CleaningUp(c, u) =>
      assert ConnOk(s, c);
      CleanupIsNoBetter(s, c, u);
      NoBetterStaysDoomed(s, CleanupApply(s, c, u));
    case Matchmaking(u) => MatchStaysDoomed(s, u);
    case Dispatching(u) => DispatchStaysDoomed(s, u);
  }

  lemma {:induction false} DoomIsPermanent(s: Core, steps: seq<Step>)
    requires Inv(s) && Doomed(s) && CanRun(s, steps)
    ensures Doomed(RunFrom(s, steps)) && RunFrom(s, steps).taken == s.taken
    ensures Deadlocked(s) ==> Jammed(s, RunFrom(s, steps)) && !SchedulerCanStep(RunFrom(s, steps))
    decreases |steps|
  {
    if Deadlocked(s) { DeadlockIsPermanent(s, steps); }
    if steps != [] {
      StepKeepsInv(s, steps[0]);
      StepStaysDoomed(s, steps[0]);
      DoomIsPermanent(Apply(s, steps[0]), steps[1..]);
    }
  }

  // ------------------------------------------------- other states can go on

  function SchedRank(s: Core): nat {
    match s.sched
    case Waiting => 0
    case ExpiryTold(_) => 1
    case ExpirySaved(_, _) => 2
    case Expiring(_, _) => 3
    case Rechecked(_, _, _) => 4
    case Sleeping(_, _, _, _) => 5
    case Requeuing(_) => 6
    case SendIdled(_) => 7
    case SendUnmapped(_, _) => 8
    case SendFailed(_, _) => 9
    case Marked(_, _) => 10
    case Mapped(_, _) => 11
    case Matched(_, _) => 12
    case Matching(_, _, _) => 13
    case Taken(_) => 14
  }

  /** Steps a connection goroutine needs to leave the registry. */
  function Stage(k: Conn): int {
    match k.pc
    case ReplyIdled(_, _, _) => 6
    case Saved(_, _) => 5
    case Told(_) => 4
    case Reading => 3
    case Leaving => 2
    case _ => 0
  }

  /** Steps the lock holder needs to unlock. */
  function LockStage(s: Core): nat {
    if s.lock.None? || !At(s, s.lock.value) then 0
    else match s.conns[s.lock.value].pc
      case Requeue(todo) => if todo == [] then 1 else 4
      case RequeueMark(_) => 3
      case RequeuePush(_) => 2
      case _ => 0
  }

  /** What others have to do before the scheduler itself can take the step that lowers its rank. */
  ghost function Effort(s: Core): nat {
    match s.sched
    case Sleeping(_, row, _, until) => if until <= s.now && s.now - row.createdAt > EXPIRY_NS then 0 else 1
    case Rechecked(_, row, _) => if s.now - row.createdAt > EXPIRY_NS then 0 else 1
    case Matched(_, _) => LockStage(s)
    case SendFailed(_, _) => LockStage(s)
    case Matching(_, _, _) => SumNonNegative(Stage, s.conns); Sum(Stage, s.conns)
    case _ => 0
  }

  ghost predicate Nearer(s: Core, s': Core) {
    && !Doomed(s') && s'.taken == s.taken
    && (SchedRank(s') < SchedRank(s) || (SchedRank(s') == SchedRank(s) && Effort(s') < Effort(s)))
  }

  /** The lock holder's next step, when the scheduler needs the lock. */
  lemma TowardsUnlock(s: Core) returns (step: Step)
    requires !Doomed(s) && s.lock.Some? && (s.sched.Matched? || s.sched.SendFailed?)
    requires At(s, s.lock.value) && ConnOk(s, s.lock.value)
    ensures Enabled(s, step) && Nearer(s, Apply(s, step))
  {
    var c := s.lock.value;
    var u: CleanupStep;
    match s.conns[c].pc {
      case Requeue(todo) => u := if todo == [] then DUnlock else DUnmapLost;
      case RequeueMark(_) => u := DMarkLost;
      case RequeuePush(_) => u := DPushLost;
    }
    step := CleaningUp(c, u);
    HolderStep(s, c, u);
  }

  /** Each step of the lock holder brings the unlock nearer and pays for the slot it takes. */
  lemma HolderStep(s: Core, c: ConnId, u: CleanupStep)
    requires At(s, c) && s.lock == Some(c) && HoldsLock(s.conns[c].pc) && CleanupEnabled(s, c, u)
    requires |s.conns[c].pc.todo| <= 1
    ensures var s' := CleanupApply(s, c, u);
            && s'.sched == s.sched && s'.taken == s.taken && LockStage(s') < LockStage(s)
            && LockDebt(s') - Free(s') == LockDebt(s) - Free(s)
            && forall d: ConnId :: OpenTarget(s', d) == OpenTarget(s, d)
  {
  }

  /** A suitable idle worker that is no trap can be made to leave, one step at a time. */
  lemma TowardsLeaving(s: Core, w: WorkerId) returns (step: Step)
    requires Inv(s) && s.sched.Matching? && !Trapped(s, s.sched.row.tier) && Suits(s, w, s.sched.row.tier)
    ensures Enabled(s, step) && Nearer(s, Apply(s, step))
  {
    var c := s.workers[w];
    assert ConnOk(s, c) && WorkerOk(s, w);
    assert !Trap(s.conns[c], s.sched.row.tier);
    step := LeavingStep(s, c);
    var s' := Apply(s, step);
    SumChange(Stage, s.conns, s'.conns, c);
    NoNewTrap(s, s', s.sched.row.tier);
  }

  lemma LeavingStep(s: Core, c: ConnId) returns (step: Step)
    requires At(s, c) && ConnOk(s, c) && Registered(s.conns[c].pc) && !s.conns[c].busy && !s.conns[c].pc.Crashed?
    ensures Enabled(s, step)
    ensures var s' := Apply(s, step);
            && OnlyConn(s, s', c) && s'.sched == s.sched && s'.taken == s.taken
            && !s'.conns[c].pc.Crashed? && Stage(s'.conns[c]) < Stage(s.conns[c])
  {
    match s.conns[c].pc
    case ReplyIdled(_, _, _) => step := Replying(c, DSaveReply);
    case Saved(_, _) => step := Replying(c, DTellTask);
    case Told(_) => step := Replying(c, DTellBatch);
    case Reading => step := CleaningUp(c, DReadError);
    case Leaving => step := CleaningUp(c, DUnregister);
  }

  lemma NoNewTrap(s: Core, s': Core, tier: int)
    requires !Trapped(s, tier) && |s'.conns| == |s.conns|
    requires forall c: ConnId :: At(s, c) && Trap(s'.conns[c], tier) ==> Trap(s.conns[c], tier)
    ensures !Trapped(s', tier)
  {
    forall c: ConnId | At(s', c) ensures !Trap(s'.conns[c], tier) { assert !Trap(s.conns[c], tier); }
  }

  /** A found worker takes the task; when all suitable workers can leave, the search comes up empty. */
  lemma TowardsMatch(s: Core) returns (step: Step)
    requires Inv(s) && !Doomed(s) && s.sched.Matching?
    ensures Enabled(s, step) && Nearer(s, Apply(s, step))
  {
    if Trapped(s, s.sched.row.tier) {
      var c: ConnId :| At(s, c) && Trap(s.conns[c], s.sched.row.tier);
      assert ConnOk(s, c);
      var w := s.conns[c].worker;
      MatchKeepsDebt(s, w);
      step := Matchmaking(DMatch(w));
    } else if w :| w in s.workers && Suits(s, w, s.sched.row.tier) {
      step := TowardsLeaving(s, w);
    } else {
      step := Matchmaking(DNoMatch);
    }
  }

  /** A task waiting for a worker can always be let grow too old. */
  lemma TowardsExpiry(s: Core) returns (step: Step)
    requires Inv(s) && (s.sched.Sleeping? || s.sched.Rechecked?)
    ensures Enabled(s, step) && Nearer(s, Apply(s, step))
  {
    if Effort(s) > 0 {
      step := Clock(EXPIRY_NS + 1 + if s.sched.Sleeping? && s.sched.until > s.now then s.sched.until - s.now else 0);
    } else {
      step := Matchmaking(if s.sched.Sleeping? then DRecheck else DCheckAge);
    }
  }

  lemma TowardsNotice(s: Core) returns (step: Step)
    requires Inv(s) && (s.sched.Expiring? || s.sched.ExpirySaved? || s.sched.ExpiryTold?)
    ensures Enabled(s, step) && Nearer(s, Apply(s, step))
  {
    match s.sched
    case Expiring(_, _) => step := Matchmaking(DExpire);
    case ExpirySaved(_, _) => step := Matchmaking(DTellExpiredTask);
    case ExpiryTold(_) => step := Matchmaking(DTellExpiredBatch);
  }

  lemma TowardsLookup(s: Core) returns (step: Step)
    requires Inv(s) && !Doomed(s) && s.sched.Taken?
    ensures Enabled(s, step) && Nearer(s, Apply(s, step))
  {
    step := Matchmaking(DLookup);
    var s' := Lookup(s);
    if s'.sched.Matching? && Trapped(s', s'.sched.row.tier) {
      var c: ConnId :| At(s', c) && Trap(s'.conns[c], s'.sched.row.tier);
      assert At(s, c) && Trap(s.conns[c], s.rows[s.sched.task].tier);
    }
  }

  lemma TowardsSend(s: Core) returns (step: Step)
    requires Inv(s) && !Doomed(s)
    requires (s.sched.Matched? && s.lock.None?) || s.sched.Mapped? || s.sched.Marked?
    ensures Enabled(s, step) && Nearer(s, Apply(s, step))
  {
    match s.sched
    case Matched(_, _) => step := Dispatching(DMapTask);
    case Mapped(_, _) => step := Dispatching(DMarkRunning);
    case Marked(_, c) => step := Dispatching(if OpenTarget(s, c) then DSend else DFailSend);
  }

  lemma TowardsPush(s: Core) returns (step: Step)
    requires Inv(s) && !Doomed(s)
    requires (s.sched.SendFailed? && s.lock.None?) || s.sched.SendUnmapped? || s.sched.SendIdled? || s.sched.Requeuing?
    ensures Enabled(s, step) && Nearer(s, Apply(s, step))
  {
    match s.sched
    case SendFailed(_, _) => step := Dispatching(DUnmapSend);
    case SendUnmapped(_, _) => step := Dispatching(DIdleSend);
    case SendIdled(_) => step := Dispatching(DMarkSend);
    case Requeuing(_) => step := Dispatching(DPushSend);
  }

  lemma NextStep(s: Core) returns (step: Step)
    requires Inv(s) && !Doomed(s) && !s.sched.Waiting?
    ensures Enabled(s, step) && Nearer(s, Apply(s, step))
  {
    if s.sched.Taken? {
      step := TowardsLookup(s);
    } else if s.sched.Matching? {
      step := TowardsMatch(s);
    } else if s.sched.Sleeping? || s.sched.Rechecked? {
      step := TowardsExpiry(s);
    } else if s.sched.Expiring? || s.sched.ExpirySaved? || s.sched.ExpiryTold? {
      step := TowardsNotice(s);
    } else if (s.sched.Matched? || s.sched.SendFailed?) && s.lock.Some? {
      assert ConnOk(s, s.lock.value);
      step := TowardsUnlock(s);
    } else if s.sched.Matched? || s.sched.Mapped? || s.sched.Marked? {
      step := TowardsSend(s);
    } else {
      step := TowardsPush(s);
    }
  }

  lemma RunCons(s: Core, step: Step, rest: seq<Step>)
    requires Enabled(s, step) && CanRun(Apply(s, step), rest)
    ensures CanRun(s, [step] + rest) && RunFrom(s, [step] + rest) == RunFrom(Apply(s, step), rest)
  {
    assert ([step] + rest)[1..] == rest;
  }

  lemma {:induction false} FreshId(ids: set<TaskId>) returns (t: TaskId)
    ensures t != 0 && forall u :: u in ids ==> u < t
  {
    t := 1;
    if u :| u in ids {
      var r := FreshId(ids - {u});
      t := if u < r then r else u + 1;
      assert forall v :: v in ids ==> v == u || v in ids - {u};
    }
  }

  /** A waiting scheduler can receive: what is queued, or a task submitted for the purpose. */
  lemma Receive(s: Core) returns (steps: seq<Step>)
    requires s.sched.Waiting?
    ensures CanRun(s, steps) && RunFrom(s, steps).taken > s.taken
  {
    if s.queue != [] {
      RunCons(s, Matchmaking(DDequeue), []);
      steps := [Matchmaking(DDequeue)] + [];
    } else {
      var i := |s.subs|;
      var t := FreshId(s.rows.Keys);
      var s1 := StartSubmit(s, 0, 0, 1);
      var s2 := CreateTask(s1, i, t);
      var s3 := PushTask(s2, i);
      RunCons(s3, Matchmaking(DDequeue), []);
      RunCons(s2, Submission(DPushTask(i)), [Matchmaking(DDequeue)] + []);
      steps := [Submission(DPushTask(i))] + ([Matchmaking(DDequeue)] + []);
      RunCons(s1, Submission(DCreateTask(i, t)), steps);
      steps := [Submission(DCreateTask(i, t))] + steps;
      RunCons(s, Submission(DStartSubmit(0, 0, 1)), steps);
      steps := [Submission(DStartSubmit(0, 0, 1))] + steps;
    }
  }

  /** From a state that is not doomed, some run brings the scheduler back to receiving. */
  lemma {:induction false} Escape(s: Core) returns (steps: seq<Step>)
    requires Inv(s) && !Doomed(s)
    ensures CanRun(s, steps) && RunFrom(s, steps).taken > s.taken
    decreases SchedRank(s), Effort(s)
  {
    if s.sched.Waiting? {
      steps := Receive(s);
    } else {
      var step := NextStep(s);
      StepKeepsInv(s, step);
      var rest := Escape(Apply(s, step));
      RunCons(s, step, rest);
      steps := [step] + rest;
    }
  }

  // --------------------------------------------------------------- theorems

  ghost predicate NeverReceives(s: Core) {
    forall steps :: CanRun(s, steps) ==> RunFrom(s, steps).taken == s.taken
  }

  /**
   In every reachable state: no run ever takes another task off the queue if and only
   if the pushes forced on the way back to the receive outnumber the free slots.
   */
  lemma DoomedIff(s: Core)
    requires Reachable(s)
    ensures Doomed(s) <==> NeverReceives(s)
  {
    ReachableInv(s);
    if Doomed(s) {
      forall steps | CanRun(s, steps) ensures RunFrom(s, steps).taken == s.taken { DoomIsPermanent(s, steps); }
    } else {
      var steps := Escape(s);
    }
  }

  /** It takes a queue with at most one free slot. */
  lemma DoomNeedsAFullQueue(s: Core)
    requires Reachable(s) && Doomed(s)
    ensures |s.queue| >= 999
  {
    ReachableInv(s);
    if s.lock.Some? { assert ConnOk(s, s.lock.value); }
  }

  /** A standstill, in which neither the scheduler nor the queue moves any more, is one way to be doomed. */
  lemma DeadlockedIsDoomed(s: Core)
    requires Reachable(s) && Deadlocked(s)
    ensures Doomed(s)
  {
    ReachableInv(s);
    if s.lock.Some? { assert ConnOk(s, s.lock.value); }
  }
}
