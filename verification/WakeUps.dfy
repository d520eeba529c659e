/**
 Wake-ups.  A request can miss a notification that was sent before it registered;
 from then on none is lost: whatever finishes later, its notification is still on
 the way or has closed the request's channel.
 */
module WakeUps {
  import opened Wrappers
  import opened BrokerCore
  import opened BrokerInvariant
  import opened BrokerSafety
  import opened Waiters
  import opened LongPoll
  import opened PollReplies

  /** The connection goroutine is about to notify under `k`. */
  predicate WillTell(pc: ConnPc, k: Key) {
    match pc
    case Saved(t, p) => k == TaskKey(t) || (p != 0 && k == BatchKey(p))
    case Told(p) => p != 0 && k == BatchKey(p)
    case _ => false
  }

  /** The scheduler is about to notify under `k`, after an expiry. */
  predicate SchedWillTell(sched: SchedPc, k: Key) {
    match sched
    case ExpirySaved(t, p) => k == TaskKey(t) || (p != 0 && k == BatchKey(p))
    case ExpiryTold(p) => p != 0 && k == BatchKey(p)
    case _ => false
  }

  ghost predicate Coming(s: Core, k: Key) {
    SchedWillTell(s.sched, k) || exists c: ConnId :: At(s, c) && WillTell(s.conns[c].pc, k)
  }

  predicate FinishedIn(rows: map<TaskId, Row>, t: TaskId) { t in rows && rows[t].status.Finished() }

  /** A task under `k` is finished now and was not at `base`. */
  ghost predicate NewlyFinished(base: set<TaskId>, rows: map<TaskId, Row>, k: Key) {
    exists t :: t in IdsOf(rows, k) && FinishedIn(rows, t) && t !in base
  }

  /** The request waits, and no notification has closed its channel. */
  predicate Unwoken(s: Sys, i: nat) { Has(s, i) && InWait(s.reqs[i]) && s.reqs[i].closes == 0 }

  predicate Woken(s: Sys, i: nat) { Has(s, i) && s.reqs[i].closes > 0 }

  /** The request has registered at some time. */
  predicate HasRegistered(s: Sys, i: nat, k: Key) {
    Has(s, i) && s.reqs[i].key == k && !s.reqs[i].pc.Start? && !s.reqs[i].pc.Unready?
  }

  ghost predicate Owed(base: set<TaskId>, s: Sys, i: nat, k: Key) {
    Unwoken(s, i) && NewlyFinished(base, s.core.rows, k) ==> Coming(s.core, k)
  }

  // --------------------------------------------------------- single steps

  lemma ReplyFinishes(s: Core, c: ConnId, step: ReplyStep, t: TaskId)
    requires Inv(s) && ReplyEnabled(s, c, step) && Unfinished(s, t) && FinishedIn(ReplyApply(s, c, step).rows, t)
    ensures At(s, c) && ReplyApply(s, c, step).conns[c].pc == Saved(t, s.rows[t].parent)
  {
    assert ConnOk(s, c);
  }

  lemma SubmitFinishesNothing(s: Core, step: SubmitStep, t: TaskId)
    requires SubmitEnabled(s, step) && Unfinished(s, t)
    ensures !FinishedIn(SubmitApply(s, step).rows, t)
  {
  }

  lemma CleanupFinishesNothing(s: Core, c: ConnId, step: CleanupStep, t: TaskId)
    requires CleanupEnabled(s, c, step) && Unfinished(s, t)
    ensures !FinishedIn(CleanupApply(s, c, step).rows, t)
  {
  }

  lemma MatchFinishes(s: Core, step: MatchStep, t: TaskId)
    requires Inv(s) && MatchEnabled(s, step) && Unfinished(s, t) && FinishedIn(MatchApply(s, step).rows, t)
    ensures MatchApply(s, step).sched == ExpirySaved(t, s.rows[t].parent)
  {
  }

  lemma DispatchFinishesNothing(s: Core, step: DispatchStep, t: TaskId)
    requires DispatchEnabled(s, step) && Unfinished(s, t)
    ensures !FinishedIn(DispatchApply(s, step).rows, t)
  {
  }

  lemma ReplierWillTell(s: Core, c: ConnId, step: ReplyStep, t: TaskId, k: Key)
    requires Inv(s) && ReplyEnabled(s, c, step) && Unfinished(s, t) && FinishedIn(ReplyApply(s, c, step).rows, t)
    requires t in IdsOf(s.rows, k) && k != BatchKey(0)
    ensures Coming(ReplyApply(s, c, step), k)
  {
    ReplyFinishes(s, c, step, t);
    SavedWillTell(ReplyApply(s, c, step), c, t, s.rows[t].parent, k);
  }

  /** Whoever finishes a task is about to notify for it and for its batch. */
  lemma FinisherWillTell(s: Core, step: Step, t: TaskId, k: Key)
    requires Inv(s) && Enabled(s, step) && Unfinished(s, t) && FinishedIn(Apply(s, step).rows, t)
    requires t in IdsOf(s.rows, k) && k != BatchKey(0)
    ensures Coming(Apply(s, step), k)
  {
    match step
    case Clock(_) =>
    case Submission(u) => SubmitFinishesNothing(s, u, t);
    case Joining(_, _) =>
    case Replying(c, u) => ReplierWillTell(s, c, u, t, k);
    case CleaningUp(c, u) => CleanupFinishesNothing(s, c, u, t);
    case Matchmaking(u) => MatchFinishes(s, u, t);
    case Dispatching(u) => DispatchFinishesNothing(s, u, t);
  }

  lemma SavedWillTell(s: Core, c: ConnId, t: TaskId, p: int, k: Key)
    requires At(s, c) && s.conns[c].pc == Saved(t, p)
    requires k == TaskKey(t) || (p != 0 && k == BatchKey(p))
    ensures Coming(s, k)
  {
    assert WillTell(s.conns[c].pc, k);
  }

  lemma MatchStillTells(s: Core, step: MatchStep, k: Key)
    requires MatchEnabled(s, step) && SchedWillTell(s.sched, k) && Notifies(s, Matchmaking(step)) != Some(k)
    ensures SchedWillTell(MatchApply(s, step).sched, k)
  {
  }

  lemma SubmitLeavesSched(s: Core, step: SubmitStep)
    requires SubmitEnabled(s, step)
    ensures SubmitApply(s, step).sched == s.sched && SubmitApply(s, step).conns == s.conns
  {
  }

  lemma ReplyLeavesSched(s: Core, c: ConnId, step: ReplyStep)
    requires ReplyEnabled(s, c, step)
    ensures ReplyApply(s, c, step).sched == s.sched && |ReplyApply(s, c, step).conns| == |s.conns|
  {
  }

  lemma CleanupLeavesSched(s: Core, c: ConnId, step: CleanupStep)
    requires CleanupEnabled(s, c, step)
    ensures CleanupApply(s, c, step).sched == s.sched && |CleanupApply(s, c, step).conns| == |s.conns|
  {
  }

  lemma SchedStillTells(s: Core, step: Step, k: Key)
    requires Enabled(s, step) && SchedWillTell(s.sched, k) && Notifies(s, step) != Some(k)
    ensures SchedWillTell(Apply(s, step).sched, k)
  {
    match step
    case Clock(_) =>
    case Submission(u) => SubmitLeavesSched(s, u);
    case Joining(_, _) =>
    case Replying(c, u) => ReplyLeavesSched(s, c, u);
    case CleaningUp(c, u) => CleanupLeavesSched(s, c, u);
    case Matchmaking(u) => MatchStillTells(s, u, k);
    case Dispatching(_) => assert false;
  }

  lemma ReplyStillTells(s: Core, c: ConnId, step: ReplyStep, k: Key)
    requires ReplyEnabled(s, c, step) && WillTell(s.conns[c].pc, k) && Notifies(s, Replying(c, step)) != Some(k)
    ensures At(ReplyApply(s, c, step), c) && WillTell(ReplyApply(s, c, step).conns[c].pc, k)
  {
  }

  /** A notification on the way stays on the way until it is sent. */
  lemma StillComing(s: Core, step: Step, k: Key)
    requires Enabled(s, step) && Coming(s, k) && Notifies(s, step) != Some(k)
    ensures Coming(Apply(s, step), k)
  {
    if SchedWillTell(s.sched, k) {
      SchedStillTells(s, step, k);
    } else {
      var c: ConnId :| At(s, c) && WillTell(s.conns[c].pc, k);
      if !ActsOn(step, c) {
        OthersLeaveAlone(s, step, c);
      } else if step.Replying? {
        ReplyStillTells(s, c, step.reply, k);
      }
      assert At(Apply(s, step), c) && WillTell(Apply(s, step).conns[c].pc, k);
    }
  }

  /** What is finished after a step and was not at `base` either was before the step or finishes in it. */
  lemma FinishedBeforeOrNow(base: set<TaskId>, s: Core, step: Step, k: Key) returns (t: TaskId)
    requires Inv(s) && Enabled(s, step)
    requires NewlyFinished(base, Apply(s, step).rows, k) && !NewlyFinished(base, s.rows, k)
    ensures Unfinished(s, t) && FinishedIn(Apply(s, step).rows, t) && t in IdsOf(s.rows, k)
  {
    var rows := Apply(s, step).rows;
    t :| t in IdsOf(rows, k) && FinishedIn(rows, t) && t !in base;
    FinishedWasThere(s, step, t);
    StepGrows(s, step);
    assert t in IdsOf(s.rows, k);
  }

  lemma FinishedWasThere(s: Core, step: Step, t: TaskId)
    requires Enabled(s, step) && FinishedIn(Apply(s, step).rows, t)
    ensures t in s.rows
  {
    if !step.Submission? { StepKeepsKeys(s, step); }
  }

  lemma ActKeepsOwed(base: set<TaskId>, s: Sys, u: Step, i: nat, k: Key)
    requires PollInv(s) && Enabled(s.core, u) && k != BatchKey(0)
    requires HasRegistered(s, i, k) && Owed(base, s, i, k)
    ensures HasRegistered(Do(s, Act(u)), i, k) && Owed(base, Do(s, Act(u)), i, k)
  {
    var s' := Do(s, Act(u));
    assert PollOk(s, i) && KeyOk(s, k);
    if Notifies(s.core, u) == Some(k) {
      if Unwoken(s, i) { ListedOnce(s.waiters[k], i); }
    } else if Unwoken(s', i) && NewlyFinished(base, s'.core.rows, k) {
      if NewlyFinished(base, s.core.rows, k) {
        StillComing(s.core, u, k);
      } else {
        var t := FinishedBeforeOrNow(base, s.core, u, k);
        FinisherWillTell(s.core, u, t, k);
      }
    }
  }

  lemma StepKeepsOwed(base: set<TaskId>, s: Sys, step: SysStep, i: nat, k: Key)
    requires PollInv(s) && Can(s, step) && k != BatchKey(0)
    requires HasRegistered(s, i, k) && Owed(base, s, i, k)
    ensures HasRegistered(Do(s, step), i, k) && Owed(base, Do(s, step), i, k)
  {
    if step.Act? { ActKeepsOwed(base, s, step.step, i, k); }
  }

  lemma {:induction false} RunKeepsOwed(base: set<TaskId>, s: Sys, steps: seq<SysStep>, i: nat, k: Key)
    requires PollInv(s) && CanDo(s, steps) && k != BatchKey(0)
    requires HasRegistered(s, i, k) && Owed(base, s, i, k)
    ensures HasRegistered(DoAll(s, steps), i, k) && Owed(base, DoAll(s, steps), i, k)
    decreases |steps|
  {
    if steps != [] {
      SysStepKeepsInv(s, steps[0]);
      StepKeepsOwed(base, s, steps[0], i, k);
      RunKeepsOwed(base, Do(s, steps[0]), steps[1..], i, k);
    }
  }

  /** A request that is owed its notification stays so, whatever happens. */
  lemma NoWakeUpIsLostOnceRegistered(base: set<TaskId>, s: Sys, steps: seq<SysStep>, i: nat, k: Key)
    requires SysReachable(s) && CanDo(s, steps) && Has(s, i) && s.reqs[i].key == k && InWait(s.reqs[i])
    requires k != BatchKey(0) && Owed(base, s, i, k)
    ensures Owed(base, DoAll(s, steps), i, k)
  {
    SysReachableInv(s);
    RunKeepsOwed(base, s, steps, i, k);
  }

  // -------------------------------------------------- the moment of registering

  /** The tasks that the request's first read showed as finished. */
  function SeenFinished(p: Poll): set<TaskId> { set e | e in Seen(p) && e.1.status.Finished() :: e.0 }

  /** In every continuation the request is woken, or about to be, as soon as something outside `base` has finished. */
  ghost predicate AlwaysOwed(base: set<TaskId>, s: Sys, i: nat, k: Key) {
    forall steps :: CanDo(s, steps) ==> Owed(base, DoAll(s, steps), i, k)
  }

  /** Something finished between the read and now, and its notification has been sent already. */
  ghost predicate Missed(s: Sys, i: nat, k: Key)
    requires Has(s, i)
  {
    NewlyFinished(SeenFinished(s.reqs[i]), s.core.rows, k) && !Coming(s.core, k)
  }

  /**
   For a request about to register: in every continuation it is woken, or about to be,
   as soon as anything has finished that it has not seen, if and only if it has not
   already missed an announcement.
   */
  lemma NothingIsMissedIff(s: Sys, i: nat, k: Key)
    requires SysReachable(s) && Can(s, Join(i)) && s.reqs[i].key == k && k != BatchKey(0)
    ensures !Missed(s, i, k) <==> AlwaysOwed(SeenFinished(s.reqs[i]), Do(s, Join(i)), i, k)
  {
    var base, s1 := SeenFinished(s.reqs[i]), Do(s, Join(i));
    SysReachStep(s, Join(i));
    SysReachableInv(s);
    assert PollOk(s, i) && Unwoken(s1, i);
    if !Missed(s, i, k) {
      forall steps | CanDo(s1, steps) ensures Owed(base, DoAll(s1, steps), i, k) {
        NoWakeUpIsLostOnceRegistered(base, s1, steps, i, k);
      }
    } else {
      assert CanDo(s1, []) && DoAll(s1, []) == s1 && !Owed(base, s1, i, k);
    }
  }

  /** A task request has missed its announcement exactly when the task is finished and no announcement is on its way. */
  lemma MissedTaskIff(s: Sys, i: nat, t: TaskId)
    requires SysReachable(s) && Can(s, Join(i)) && s.reqs[i].key == TaskKey(t)
    ensures Missed(s, i, TaskKey(t)) <==> FinishedIn(s.core.rows, t) && !Coming(s.core, TaskKey(t))
  {
    SysReachableInv(s);
    assert PollOk(s, i);
    var seen := s.reqs[i].pc.seen;
    forall n | 0 <= n < |seen| ensures seen[n].0 == t && n == 0 {
      assert EntryOk(s.core.rows, TaskKey(t), seen[n]) && EntryOk(s.core.rows, TaskKey(t), seen[0]);
    }
    assert SeenFinished(s.reqs[i]) == {};
    assert FinishedIn(s.core.rows, t) ==> t in IdsOf(s.core.rows, TaskKey(t));
  }

  /** So once the broker is quiet, a request that had missed nothing was woken unless nothing new has finished. */
  lemma QuietMeansWoken(s: Sys, steps: seq<SysStep>, i: nat, k: Key)
    requires SysReachable(s) && Can(s, Join(i)) && s.reqs[i].key == k && k != BatchKey(0)
    requires !Missed(s, i, k) && CanDo(Do(s, Join(i)), steps)
    requires var s' := DoAll(Do(s, Join(i)), steps);
             Quiet(s'.core) && NewlyFinished(SeenFinished(s.reqs[i]), s'.core.rows, k)
    ensures !Unwoken(DoAll(Do(s, Join(i)), steps), i)
  {
    NothingIsMissedIff(s, i, k);
    assert Owed(SeenFinished(s.reqs[i]), DoAll(Do(s, Join(i)), steps), i, k);
    QuietTellsNothing(DoAll(Do(s, Join(i)), steps).core, k);
  }

  lemma QuietTellsNothing(s: Core, k: Key)
    requires Quiet(s)
    ensures !Coming(s, k)
  {
    forall c: ConnId | At(s, c) ensures !WillTell(s.conns[c].pc, k) { }
  }

  // ------------------------------------------------------- nothing more to come

  /** Every task under `k` has finished and no other will appear. */
  ghost predicate AllOver(s: Core, k: Key) {
    match k
    case TaskKey(t) => FinishedIn(s.rows, t)
    case BatchKey(p) => Submitted(s, p) && forall t :: t in IdsOf(s.rows, k) ==> FinishedIn(s.rows, t)
  }

  lemma OverStays(s: Core, step: Step, k: Key)
    requires Inv(s) && Enabled(s, step) && AllOver(s, k)
    ensures AllOver(Apply(s, step), k)
  {
    StepGrows(s, step);
    if k.BatchKey? { SubmittedStays(s, step, k.parent); }
  }

  lemma UnfinishedIsElsewhere(s: Core, t: TaskId, k: Key)
    requires Unfinished(s, t) && AllOver(s, k)
    ensures t !in IdsOf(s.rows, k)
  {
  }

  lemma ReplyAnnouncesNothingNew(s: Core, c: ConnId, step: ReplyStep, k: Key)
    requires ReplyEnabled(s, c, step) && ConnOk(s, c) && AllOver(s, k) && !WillTell(s.conns[c].pc, k)
    ensures At(ReplyApply(s, c, step), c) && !WillTell(ReplyApply(s, c, step).conns[c].pc, k)
  {
    if step.DSaveReply? { UnfinishedIsElsewhere(s, s.conns[c].pc.task, k); }
  }

  lemma CleanupAnnouncesNothing(s: Core, c: ConnId, step: CleanupStep, k: Key)
    requires CleanupEnabled(s, c, step)
    ensures At(CleanupApply(s, c, step), c) && !WillTell(CleanupApply(s, c, step).conns[c].pc, k)
  {
  }

  lemma MatchAnnouncesNothingNew(s: Core, step: MatchStep, k: Key)
    requires MatchEnabled(s, step) && SchedOk(s) && AllOver(s, k) && !SchedWillTell(s.sched, k)
    ensures !SchedWillTell(MatchApply(s, step).sched, k)
  {
    if step.DExpire? { UnfinishedIsElsewhere(s, s.sched.task, k); }
  }

  lemma DispatchAnnouncesNothing(s: Core, step: DispatchStep, k: Key)
    requires DispatchEnabled(s, step)
    ensures !SchedWillTell(DispatchApply(s, step).sched, k)
  {
  }

  lemma SchedAnnouncesNothingNew(s: Core, step: Step, k: Key)
    requires Inv(s) && Enabled(s, step) && AllOver(s, k) && !SchedWillTell(s.sched, k)
    ensures !SchedWillTell(Apply(s, step).sched, k)
  {
    match step
    case Clock(_) =>
    case Submission(u) => SubmitLeavesSched(s, u);
    case Joining(_, _) =>
    case Replying(c, u) => ReplyLeavesSched(s, c, u);
    case CleaningUp(c, u) => CleanupLeavesSched(s, c, u);
    case Matchmaking(u) => MatchAnnouncesNothingNew(s, u, k);
    case Dispatching(u) => DispatchAnnouncesNothing(s, u, k);
  }

  /** When everything is over and announced, no announcement comes any more. */
  lemma NothingComesAgain(s: Core, step: Step, k: Key)
    requires Inv(s) && Enabled(s, step) && AllOver(s, k) && !Coming(s, k)
    ensures AllOver(Apply(s, step), k) && !Coming(Apply(s, step), k)
    ensures Notifies(s, step) != Some(k)
  {
    var s' := Apply(s, step);
    OverStays(s, step, k);
    SchedAnnouncesNothingNew(s, step, k);
    forall c: ConnId | At(s', c) ensures !WillTell(s'.conns[c].pc, k) {
      if !At(s, c) {
        NewConnIsQuiet(s, step, c);
      } else {
        assert ConnOk(s, c);
        if !ActsOn(step, c) {
          OthersLeaveAlone(s, step, c);
        } else if step.Replying? {
          ReplyAnnouncesNothingNew(s, c, step.reply, k);
        } else {
          CleanupAnnouncesNothing(s, c, step.cleanup, k);
        }
      }
    }
  }

  lemma NewConnIsQuiet(s: Core, step: Step, c: ConnId)
    requires Enabled(s, step) && !At(s, c) && At(Apply(s, step), c)
    ensures Apply(s, step).conns[c].pc.Reading? || Apply(s, step).conns[c].pc.Crashed?
  {
    match step
    case Clock(_) =>
    case Submission(u) => SubmitLeavesSched(s, u);
    case Joining(_, _) =>
    case Replying(d, u) => ReplyLeavesSched(s, d, u);
    case CleaningUp(d, u) => CleanupLeavesSched(s, d, u);
    case Matchmaking(u) => MatchKeepsCount(s, u);
    case Dispatching(u) => DispatchKeepsCount(s, u);
  }

  lemma MatchKeepsCount(s: Core, step: MatchStep)
    requires MatchEnabled(s, step)
    ensures |MatchApply(s, step).conns| == |s.conns|
  {
  }

  lemma DispatchKeepsCount(s: Core, step: DispatchStep)
    requires DispatchEnabled(s, step)
    ensures |DispatchApply(s, step).conns| == |s.conns|
  {
  }

  lemma {:induction false} NeverWokenAgain(s: Sys, steps: seq<SysStep>, i: nat, k: Key)
    requires PollInv(s) && CanDo(s, steps) && HasRegistered(s, i, k) && s.reqs[i].closes == 0
    requires AllOver(s.core, k) && !Coming(s.core, k)
    ensures Has(DoAll(s, steps), i) && DoAll(s, steps).reqs[i].closes == 0
    decreases |steps|
  {
    if steps != [] {
      SysStepKeepsInv(s, steps[0]);
      if steps[0].Act? {
        NothingComesAgain(s.core, steps[0].step, k);
        OtherNotificationsPass(s, steps[0].step, i, k);
      }
      NeverWokenAgain(Do(s, steps[0]), steps[1..], i, k);
    }
  }

  lemma OtherNotificationsPass(s: Sys, u: Step, i: nat, k: Key)
    requires PollInv(s) && Enabled(s.core, u) && HasRegistered(s, i, k) && Notifies(s.core, u) != Some(k)
    ensures HasRegistered(Do(s, Act(u)), i, k) && Do(s, Act(u)).reqs[i] == s.reqs[i]
  {
    if Notifies(s.core, u).Some? {
      var j := Notifies(s.core, u).value;
      assert KeyOk(s, j);
      assert !Listed(s, j, i);
    }
  }

  /** An announcement on the way can be delivered at once, in one step or two. */
  lemma AnnouncementCanArrive(s: Sys, i: nat, k: Key) returns (steps: seq<SysStep>)
    requires SysReachable(s) && Unwoken(s, i) && s.reqs[i].key == k && Coming(s.core, k)
    ensures CanDo(s, steps) && Woken(DoAll(s, steps), i)
  {
    var first, second := AnnouncingSteps(s.core, k);
    if Notifies(s.core, first) == Some(k) {
      NotificationWakesAll(s, first, k, i);
      DoAppend(s, [], Act(first));
      steps := [] + [Act(first)];
    } else {
      SysReachableInv(s);
      OtherNotificationsPass(s, first, i, k);
      SysReachStep(s, Act(first));
      var s1 := Do(s, Act(first));
      NotificationWakesAll(s1, second, k, i);
      DoAppend(s, [], Act(first));
      DoAppend(s, [] + [Act(first)], Act(second));
      steps := [] + [Act(first)] + [Act(second)];
    }
  }

  lemma AnnouncingSteps(s: Core, k: Key) returns (first: Step, second: Step)
    requires Coming(s, k)
    ensures Enabled(s, first)
    ensures Notifies(s, first) == Some(k)
         || (Enabled(Apply(s, first), second) && Notifies(Apply(s, first), second) == Some(k))
  {
    if SchedWillTell(s.sched, k) {
      first := Matchmaking(if s.sched.ExpirySaved? then DTellExpiredTask else DTellExpiredBatch);
      second := Matchmaking(DTellExpiredBatch);
    } else {
      var c: ConnId :| At(s, c) && WillTell(s.conns[c].pc, k);
      first := Replying(c, if s.conns[c].pc.Saved? then DTellTask else DTellBatch);
      second := Replying(c, DTellBatch);
    }
  }

  ghost predicate CanBeWoken(s: Sys, i: nat) { exists steps :: CanDo(s, steps) && Woken(DoAll(s, steps), i) }

  /**
   For a request that registers when everything it waits for is over: some continuation
   wakes it if and only if the announcement is still on its way.
   */
  lemma CanStillBeWokenIff(s: Sys, i: nat, k: Key)
    requires SysReachable(s) && Can(s, Join(i)) && s.reqs[i].key == k && AllOver(s.core, k)
    ensures Coming(s.core, k) <==> CanBeWoken(Do(s, Join(i)), i)
  {
    var s1 := Do(s, Join(i));
    SysReachableInv(s);
    assert PollOk(s, i) && Unwoken(s1, i);
    SysReachStep(s, Join(i));
    SysReachableInv(s1);
    if Coming(s.core, k) {
      var steps := AnnouncementCanArrive(s1, i, k);
    } else {
      forall steps | CanDo(s1, steps) ensures !Woken(DoAll(s1, steps), i) {
        NeverWokenAgain(s1, steps, i, k);
      }
    }
  }

  /** Batch 0, under which the table lists all single tasks, is the exception: nobody ever notifies it. */
  lemma BatchZeroIsNeverWoken(s: Sys, i: nat)
    requires SysReachable(s) && Has(s, i) && s.reqs[i].key == BatchKey(0)
    ensures s.reqs[i].closes == 0
    ensures !s.reqs[i].pc.Roused? && !(s.reqs[i].pc.Replied? && s.reqs[i].pc.via.Woken?)
  {
    SysReachableInv(s);
    assert PollOk(s, i);
  }
}
