/**
 First-in first-out dispatch.  The queue entries that end in a dispatch or an
 expiry do so in push order, and a task that was pushed once is never overtaken.
 */
module BrokerOrder {
  import opened BrokerCore
  import opened BrokerInvariant
  import opened BrokerKept

  /** The push at position `p` is not the only push of its task. */
  ghost predicate PushedAgain(pushed: seq<TaskId>, p: nat)
    requires p < |pushed|
  {
    exists q :: 0 <= q < |pushed| && q != p && pushed[q] == pushed[p]
  }

  /** The scheduler is working on the entry it received last. */
  predicate Current(s: Core) {
    !(s.sched.Waiting? || s.sched.ExpirySaved? || s.sched.ExpiryTold?)
  }

  /** Push positions below this one have been dealt with. */
  function Done(s: Core): int { if Current(s) then s.taken - 1 else s.taken }

  predicate QueueOk(s: Core) {
    && s.taken <= |s.pushed| && s.queue == s.pushed[s.taken..]
    && (Current(s) ==> s.taken > 0 && s.pushed[s.taken - 1] == s.sched.task)
  }

  predicate HandledOk(s: Core) {
    && (forall i, j :: 0 <= i < j < |s.handled| ==> s.handled[i] < s.handled[j])
    && (forall i :: 0 <= i < |s.handled| ==> s.handled[i] < Done(s))
  }

  /** An entry that was dealt with was dispatched or expired, or its task was pushed again. */
  ghost predicate Settled(s: Core, p: nat) {
    p < Done(s) && p < |s.pushed| ==> p in s.handled || PushedAgain(s.pushed, p)
  }

  /** An entry not looked up yet is pending, unless its task was pushed again. */
  ghost predicate Fresh(s: Core, p: nat) {
    (if s.sched.Taken? then s.taken - 1 else s.taken) <= p < |s.pushed| ==>
      PushedAgain(s.pushed, p) || IsPending(s, s.pushed[p])
  }

  /** Only pushed tasks leave "pending" or are mapped to a worker. */
  predicate Origin(s: Core, t: TaskId) {
    && ((t in s.rows && !IsPending(s, t)) || t in s.keeper ==> t in s.pushed)
    && (t in s.pushed ==> t in s.rows)
  }

  /** A submitter's task has not been pushed, and no other submitter has it. */
  predicate HandOk(s: Core, i: nat, j: nat) {
    i < |s.subs| && s.subs[i].hand.Some? ==>
      && IsPending(s, s.subs[i].hand.value) && s.subs[i].hand.value !in s.pushed
      && (j < |s.subs| && j != i ==> s.subs[j].hand != s.subs[i].hand)
  }

  ghost predicate OrderInv(s: Core) {
    && QueueOk(s) && HandledOk(s)
    && (forall p: nat :: Settled(s, p))
    && (forall p: nat :: Fresh(s, p))
    && (forall t: TaskId :: Origin(s, t))
    && (forall i: nat, j: nat :: HandOk(s, i, j))
  }

  // ---------------------------------------------------------- preservation

  lemma PushKeepsAgain(pushed: seq<TaskId>, t: TaskId)
    ensures forall p: nat :: p < |pushed| && PushedAgain(pushed, p) ==> PushedAgain(pushed + [t], p)
    ensures forall p: nat :: p < |pushed| && pushed[p] == t ==> PushedAgain(pushed + [t], p)
    ensures t in pushed ==> PushedAgain(pushed + [t], |pushed|)
  {
    var after := pushed + [t];
    forall p: nat | p < |pushed| && PushedAgain(pushed, p) ensures PushedAgain(after, p) {
      var q :| 0 <= q < |pushed| && q != p && pushed[q] == pushed[p];
      assert after[q] == after[p];
    }
    forall p: nat | p < |pushed| && pushed[p] == t ensures PushedAgain(after, p) {
      assert after[|pushed|] == after[p];
    }
    if t in pushed {
      var q :| 0 <= q < |pushed| && pushed[q] == t;
      assert after[q] == after[|pushed|];
    }
  }

  /** The step neither pushes nor receives nor settles an entry, and moves no entry still to be looked up. */
  predicate QuietStep(s: Core, s': Core) {
    && s'.queue == s.queue && s'.pushed == s.pushed && s'.taken == s.taken && s'.handled == s.handled
    && s'.subs == s.subs
    && Current(s') == Current(s) && s'.sched.Taken? == s.sched.Taken?
    && (Current(s) ==> s'.sched.task == s.sched.task)
    && s'.rows.Keys == s.rows.Keys
    && (forall t :: t in s.rows && s'.rows[t].status != s.rows[t].status ==>
          && t in s.pushed
          && (s'.rows[t].status.Pending? || !s.rows[t].status.Pending?
              || (Current(s) && !s.sched.Taken? && t == s.sched.task)))
    && (forall t :: t in s'.keeper ==> t in s.pushed)
  }

  lemma QuietStepKeepsOrder(s: Core, s': Core)
    requires OrderInv(s) && QuietStep(s, s')
    ensures OrderInv(s')
  {
    forall p: nat ensures Settled(s', p) { assert Settled(s, p); }
    forall p: nat ensures Fresh(s', p) { assert Fresh(s, p); }
    forall t: TaskId ensures Origin(s', t) { assert Origin(s, t); }
    forall i: nat, j: nat ensures HandOk(s', i, j) { assert HandOk(s, i, j) && HandOk(s, j, i); }
  }

  /** A task that was pushed before is pushed again, by a cleanup or by the scheduler letting go of it. */
  lemma RepushKeepsOrder(s: Core, s': Core, t: TaskId)
    requires OrderInv(s) && t in s.pushed
    requires s'.pushed == s.pushed + [t] && s'.queue == s.queue + [t]
    requires s'.rows == s.rows && s'.subs == s.subs && s'.keeper == s.keeper
    requires s'.taken == s.taken && s'.handled == s.handled
    requires s'.sched == s.sched || (s'.sched.Waiting? && Current(s) && !s.sched.Taken? && t == s.sched.task)
    ensures OrderInv(s')
  {
    forall p: nat ensures Settled(s', p) && Fresh(s', p) { RepushKeepsEntry(s, s', t, p); }
    forall u: TaskId ensures Origin(s', u) { assert Origin(s, u); }
    forall i: nat, j: nat ensures HandOk(s', i, j) { assert HandOk(s, i, j); }
  }

  lemma RepushKeepsEntry(s: Core, s': Core, t: TaskId, p: nat)
    requires OrderInv(s) && t in s.pushed
    requires s'.pushed == s.pushed + [t] && s'.rows == s.rows
    requires s'.taken == s.taken && s'.handled == s.handled
    requires s'.sched == s.sched || (s'.sched.Waiting? && Current(s) && !s.sched.Taken? && t == s.sched.task)
    ensures Settled(s', p) && Fresh(s', p)
  {
    PushKeepsAgain(s.pushed, t);
    assert Settled(s, p) && Fresh(s, p);
  }

  lemma SubmitKeepsOrder(s: Core, step: SubmitStep)
    requires Inv(s) && OrderInv(s) && SubmitEnabled(s, step)
    ensures OrderInv(SubmitApply(s, step))
  {
    var s' := SubmitApply(s, step);
    if step.DPushTask? {
      assert SubOk(s, step.i) && HandOk(s, step.i, step.i);
      PushKeepsAgain(s.pushed, s.subs[step.i].hand.value);
    }
    if step.DCreateTask? { FreshTaskIsUnknown(s, step.t); }
    forall p: nat ensures Settled(s', p) { assert Settled(s, p); }
    forall p: nat ensures Fresh(s', p) { assert Fresh(s, p); }
    forall t: TaskId ensures Origin(s', t) { assert Origin(s, t); }
    forall i: nat, j: nat ensures HandOk(s', i, j) {
      assert HandOk(s, i, j) && HandOk(s, j, i) && SubOk(s, i) && SubOk(s, j);
      if step.DPushTask? { assert HandOk(s, i, step.i); }
    }
  }

  lemma FreshTaskIsUnknown(s: Core, t: TaskId)
    requires Inv(s) && OrderInv(s) && t !in s.rows
    ensures t !in s.keeper && t !in s.pushed
  {
    assert TaskOk(s, t) && Origin(s, t);
  }

  lemma ReplyKeepsOrder(s: Core, c: ConnId, step: ReplyStep)
    requires Inv(s) && OrderInv(s) && ReplyEnabled(s, c, step)
    ensures OrderInv(ReplyApply(s, c, step))
  {
    QuietReply(s, c, step);
    QuietStepKeepsOrder(s, ReplyApply(s, c, step));
  }

  lemma QuietReply(s: Core, c: ConnId, step: ReplyStep)
    requires Inv(s) && OrderInv(s) && ReplyEnabled(s, c, step)
    ensures QuietStep(s, ReplyApply(s, c, step))
  {
    assert ConnOk(s, c);
    assert forall t :: t in s.keeper ==> Origin(s, t);
    assert Answering(s.conns[c].pc) ==> Origin(s, s.conns[c].pc.task);
  }

  lemma CleanupKeepsOrder(s: Core, c: ConnId, step: CleanupStep)
    requires Inv(s) && OrderInv(s) && CleanupEnabled(s, c, step)
    ensures OrderInv(CleanupApply(s, c, step))
  {
    if step.DPushLost? {
      assert ConnOk(s, c) && Origin(s, s.conns[c].pc.todo[0]);
      RepushKeepsOrder(s, CleanupApply(s, c, step), s.conns[c].pc.todo[0]);
    } else {
      QuietCleanup(s, c, step);
      QuietStepKeepsOrder(s, CleanupApply(s, c, step));
    }
  }

  lemma QuietCleanup(s: Core, c: ConnId, step: CleanupStep)
    requires Inv(s) && OrderInv(s) && CleanupEnabled(s, c, step) && !step.DPushLost?
    ensures QuietStep(s, CleanupApply(s, c, step))
  {
    assert ConnOk(s, c);
    assert forall t :: t in s.keeper ==> Origin(s, t);
    if step.DScan? { ScanTakesPushedTasks(s, c, step.list); }
  }

  lemma ScanTakesPushedTasks(s: Core, c: ConnId, list: seq<TaskId>)
    requires Inv(s) && OrderInv(s) && CanScan(s, c, list)
    ensures forall t :: t in list ==> t in s.pushed
  {
    forall t | t in list ensures t in s.pushed {
      assert t in MappedTo(s, s.conns[c].worker);
      assert TaskOk(s, t) && Origin(s, t);
    }
  }

  /** The scheduler is done with its entry: dispatched or expired it, or skipped a task pushed again. */
  lemma SettlingKeepsOrder(s: Core, s': Core)
    requires Inv(s) && OrderInv(s) && Current(s) && !Current(s')
    requires s'.queue == s.queue && s'.pushed == s.pushed && s'.taken == s.taken && s'.subs == s.subs
    requires s'.keeper == s.keeper && s'.rows.Keys == s.rows.Keys
    requires forall t :: t in s.rows && s'.rows[t].status != s.rows[t].status ==> t == s.sched.task && !s.sched.Taken?
    requires || s'.handled == s.handled + [s.taken - 1]
             || (s'.handled == s.handled && PushedAgain(s.pushed, s.taken - 1))
    ensures OrderInv(s')
  {
    forall p: nat ensures Settled(s', p) { assert Settled(s, p); }
    forall p: nat ensures Fresh(s', p) { assert Fresh(s, p); }
    forall t: TaskId ensures Origin(s', t) { assert Origin(s, t); }
    forall i: nat, j: nat ensures HandOk(s', i, j) { assert HandOk(s, i, j); }
  }

  lemma MatchKeepsOrder(s: Core, step: MatchStep)
    requires Inv(s) && OrderInv(s) && MatchEnabled(s, step)
    ensures OrderInv(MatchApply(s, step))
  {
    var s' := MatchApply(s, step);
    assert forall t :: t in s.keeper ==> Origin(s, t);
    if step.DDequeue? {
      forall p: nat ensures Settled(s', p) { assert Settled(s, p); }
      forall p: nat ensures Fresh(s', p) { assert Fresh(s, p); }
      forall t: TaskId ensures Origin(s', t) { assert Origin(s, t); }
      forall i: nat, j: nat ensures HandOk(s', i, j) { assert HandOk(s, i, j); }
    } else if step.DLookup? {
      LookupKeepsOrder(s);
    } else if step.DExpire? {
      SettlingKeepsOrder(s, s');
    } else {
      QuietStepKeepsOrder(s, s');
    }
  }

  lemma LookupKeepsOrder(s: Core)
    requires Inv(s) && OrderInv(s) && CanLookup(s)
    ensures OrderInv(Lookup(s))
  {
    var s' := Lookup(s);
    assert Fresh(s, s.taken - 1);
    if s'.sched.Waiting? {
      SettlingKeepsOrder(s, s');
    } else {
      forall p: nat ensures Settled(s', p) { assert Settled(s, p); }
      forall p: nat ensures Fresh(s', p) { assert Fresh(s, p); }
      forall t: TaskId ensures Origin(s', t) { assert Origin(s, t); }
      forall i: nat, j: nat ensures HandOk(s', i, j) { assert HandOk(s, i, j); }
    }
  }

  lemma DispatchKeepsOrder(s: Core, step: DispatchStep)
    requires Inv(s) && OrderInv(s) && DispatchEnabled(s, step)
    ensures OrderInv(DispatchApply(s, step))
  {
    var s' := DispatchApply(s, step);
    assert forall t :: t in s.keeper ==> Origin(s, t);
    if step.DSend? {
      SettlingKeepsOrder(s, s');
    } else if step.DPushSend? {
      RepushKeepsOrder(s, s', s.sched.task);
    } else {
      QuietStepKeepsOrder(s, s');
    }
  }

  lemma StepKeepsOrder(s: Core, step: Step)
    requires Inv(s) && OrderInv(s) && Enabled(s, step)
    ensures OrderInv(Apply(s, step))
  {
    assert forall t :: t in s.keeper ==> Origin(s, t);
    match step
    case Clock(d) => QuietStepKeepsOrder(s, Tick(s, d));
    case Submission(u) => SubmitKeepsOrder(s, u);
    case Joining(w, tier) => QuietStepKeepsOrder(s, Register(s, w, tier));
    case Replying(c, u) => ReplyKeepsOrder(s, c, u);
    case CleaningUp(c, u) => CleanupKeepsOrder(s, c, u);
    case Matchmaking(u) => MatchKeepsOrder(s, u);
    case Dispatching(u) => DispatchKeepsOrder(s, u);
  }

  lemma {:induction false} RunKeepsOrder(s: Core, steps: seq<Step>)
    requires Inv(s) && OrderInv(s) && CanRun(s, steps)
    ensures OrderInv(RunFrom(s, steps))
    decreases |steps|
  {
    if steps != [] {
      StepKeepsInv(s, steps[0]);
      StepKeepsOrder(s, steps[0]);
      RunKeepsOrder(Apply(s, steps[0]), steps[1..]);
    }
  }

  lemma ReachableOrder(s: Core)
    requires Reachable(s)
    ensures OrderInv(s)
  {
    var now, steps :| CanRun(Init(now), steps) && RunFrom(Init(now), steps) == s;
    RunKeepsInv(Init(now), steps);
    RunKeepsOrder(Init(now), steps);
  }

  // --------------------------------------------------------------- theorems

  /** Dispatched and expired entries, in the order in which that happened, are a subsequence of the pushes. */
  lemma HandledInPushOrder(s: Core, i: nat, j: nat)
    requires Reachable(s) && i < j < |s.handled|
    ensures s.handled[i] < s.handled[j] < |s.pushed|
  {
    ReachableOrder(s);
  }

  /** The entry recorded by a dispatch or an expiry is a push of exactly that task. */
  lemma HandledEntryIsTheTask(s: Core)
    requires Reachable(s) && (CanSend(s) || CanExpire(s))
    ensures CanSend(s) ==>
              && Send(s).handled == s.handled + [s.taken - 1]
              && 0 <= s.taken - 1 < |s.pushed| && s.pushed[s.taken - 1] == s.sched.task
    ensures CanExpire(s) ==>
              && Expire(s).handled == s.handled + [s.taken - 1]
              && 0 <= s.taken - 1 < |s.pushed| && s.pushed[s.taken - 1] == s.sched.task
  {
    ReachableOrder(s);
  }

  /** A task pushed once is never overtaken: when a later entry has been handled, it was handled before. */
  lemma NeverOvertaken(s: Core, p: nat, j: nat)
    requires Reachable(s) && j < |s.handled| && p < s.handled[j] < |s.pushed|
    requires !PushedAgain(s.pushed, p)
    ensures exists i: nat :: i < j && s.handled[i] == p
  {
    ReachableOrder(s);
    assert Settled(s, p);
    var i: nat :| i < |s.handled| && s.handled[i] == p;
  }
}
