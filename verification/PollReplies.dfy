/** What status requests are promised: exact wake-ups, final answers, and answers that never go back. */
module PollReplies {
  import opened Wrappers
  import opened BrokerCore
  import opened Waiters
  import opened LongPoll

  function SysInit(now: int): Sys { Sys(Init(now), [], map[]) }

  ghost predicate SysReachable(s: Sys) {
    exists now, steps :: CanDo(SysInit(now), steps) && DoAll(SysInit(now), steps) == s
  }

  lemma SysReachableInv(s: Sys)
    requires SysReachable(s)
    ensures PollInv(s)
  {
    var now, steps :| CanDo(SysInit(now), steps) && DoAll(SysInit(now), steps) == s;
    SysRunKeepsInv(SysInit(now), steps);
  }

  lemma {:induction false} DoAppend(s: Sys, steps: seq<SysStep>, step: SysStep)
    requires CanDo(s, steps) && Can(DoAll(s, steps), step)
    ensures CanDo(s, steps + [step]) && DoAll(s, steps + [step]) == Do(DoAll(s, steps), step)
    decreases |steps|
  {
    if steps == [] {
      assert [] + [step] == [step] && [step][1..] == [];
    } else {
      DoAppend(Do(s, steps[0]), steps[1..], step);
      assert (steps + [step])[1..] == steps[1..] + [step];
    }
  }

  lemma SysReachStep(s: Sys, step: SysStep)
    requires SysReachable(s) && Can(s, step)
    ensures SysReachable(Do(s, step))
  {
    var now, steps :| CanDo(SysInit(now), steps) && DoAll(SysInit(now), steps) == s;
    DoAppend(SysInit(now), steps, step);
    assert CanDo(SysInit(now), steps + [step]);
  }

  lemma {:induction false} SysReachRun(s: Sys, steps: seq<SysStep>)
    requires SysReachable(s) && CanDo(s, steps)
    ensures SysReachable(DoAll(s, steps))
    decreases |steps|
  {
    if steps != [] {
      SysReachStep(s, steps[0]);
      SysReachRun(Do(s, steps[0]), steps[1..]);
    }
  }

  // ---------------------------------------------------- waiter bookkeeping

  /** The waiter map lists exactly the channels of requests still waiting, each once, under its own key. */
  lemma RegistryIsExact(s: Sys, k: Key, i: nat)
    requires SysReachable(s)
    ensures Listed(s, k, i) <==> Has(s, i) && s.reqs[i].key == k && InWait(s.reqs[i]) && s.reqs[i].closes == 0
    ensures k in s.waiters ==> s.waiters[k] != [] && multiset(s.waiters[k])[i] <= 1
    ensures Has(s, i) ==> s.reqs[i].closes <= 1
  {
    SysReachableInv(s);
    assert PollOk(s, i) && KeyOk(s, k);
    if k in s.waiters { ListedOnce(s.waiters[k], i); }
  }

  /**
   A notification closes the channel of every request waiting under its key, even
   one whose timeout has already fired, closes no other channel, and drops the key.
   */
  lemma NotificationWakesAll(s: Sys, u: Step, k: Key, i: nat)
    requires SysReachable(s) && Enabled(s.core, u) && Notifies(s.core, u) == Some(k) && Has(s, i)
    ensures var s' := Do(s, Act(u));
            && Has(s', i) && k !in s'.waiters
            && (s.reqs[i].key == k && InWait(s.reqs[i]) ==> s'.reqs[i].closes == 1)
            && (s.reqs[i].key != k || !InWait(s.reqs[i]) ==> s'.reqs[i].closes == s.reqs[i].closes)
  {
    SysReachableInv(s);
    assert PollOk(s, i) && KeyOk(s, k);
    if k in s.waiters { ListedOnce(s.waiters[k], i); }
  }

  // ------------------------------------------------------------ one reply

  /** A task request's snapshot is the one row of its task. */
  lemma SingleEntry(s: Sys, i: nat, t: TaskId)
    requires PollInv(s) && Has(s, i) && s.reqs[i].key == TaskKey(t) && s.reqs[i].pc.Replied?
    ensures |s.reqs[i].pc.reply| == 1 && s.reqs[i].pc.reply[0].0 == t && t in s.core.rows
    ensures s.reqs[i].pc.reply[0].1.status.Finished() ==> s.reqs[i].pc.reply == [(t, s.core.rows[t])]
  {
    assert PollOk(s, i);
    var x := s.reqs[i].pc.reply;
    forall n | 0 <= n < |x| ensures x[n].0 == t && n == 0 {
      assert EntryOk(s.core.rows, TaskKey(t), x[n]) && EntryOk(s.core.rows, TaskKey(t), x[0]);
    }
    assert x[|x| - 1].0 == t;
  }

  /** A task request woken by a notification replies with the task's finished row as it stands in the table. */
  lemma WokenReplyIsFinal(s: Sys, i: nat, t: TaskId)
    requires SysReachable(s) && Has(s, i) && s.reqs[i].key == TaskKey(t)
    requires s.reqs[i].pc.Replied? && s.reqs[i].pc.via.Woken?
    ensures t in s.core.rows && s.core.rows[t].status.Finished()
    ensures s.reqs[i].pc.reply == [(t, s.core.rows[t])]
  {
    SysReachableInv(s);
    assert PollOk(s, i);
    SingleEntry(s, i, t);
  }

  // -------------------------------------------------------- later requests

  function IdsIn(snap: Snapshot): set<TaskId> { set e | e in snap :: e.0 }

  /** The batch's submission has returned: its handler has no task left to create. */
  predicate Submitted(s: Core, p: int) {
    && p != 0
    && (exists i :: 0 <= i < |s.subs| && s.subs[i].parent == p)
    && (forall i :: 0 <= i < |s.subs| && s.subs[i].parent == p ==> s.subs[i].left == 0)
  }

  /** What request `j`, asked after `base`, knows once it has read the table. */
  ghost predicate Informed(base: Core, s: Sys, j: nat) {
    Has(s, j) ==>
      var k := s.reqs[j].key;
      && (s.reqs[j].pc.NotFound? ==> IdsOf(base.rows, k) == {})
      && (Seen(s.reqs[j]) != [] ==> InformedBy(base, k, Seen(s.reqs[j])))
  }

  /** The snapshot shows everything that had finished at `base`, and the whole of a batch submitted by then. */
  ghost predicate InformedBy(base: Core, k: Key, snap: Snapshot) {
    && (forall t :: t in IdsOf(base.rows, k) && base.rows[t].status.Finished() ==> (t, base.rows[t]) in snap)
    && (k.BatchKey? && Submitted(base, k.parent) ==> IdsIn(snap) == IdsOf(base.rows, k))
  }

  ghost predicate Since(base: Core, n: nat, s: Sys) {
    && Grows(base.rows, s.core.rows)
    && n <= |s.reqs|
    && (forall j: nat :: j >= n ==> Informed(base, s, j))
    && (forall p: int :: Submitted(base, p) ==>
          Submitted(s.core, p) && IdsOf(s.core.rows, BatchKey(p)) == IdsOf(base.rows, BatchKey(p)))
  }

  lemma SubmitKeepsSubmitted(s: Core, step: SubmitStep, p: int)
    requires SubmitEnabled(s, step) && Submitted(s, p)
    ensures Submitted(SubmitApply(s, step), p)
    ensures IdsOf(SubmitApply(s, step).rows, BatchKey(p)) == IdsOf(s.rows, BatchKey(p))
  {
    var s' := SubmitApply(s, step);
    var i :| 0 <= i < |s.subs| && s.subs[i].parent == p;
    assert i < |s'.subs| && s'.subs[i].parent == p;
    if step.DCreateTask? {
      assert s.subs[step.i].parent != p;
    } else {
      assert s'.rows == s.rows;
    }
  }

  lemma SubmittedStays(s: Core, step: Step, p: int)
    requires Enabled(s, step) && Submitted(s, p)
    ensures Submitted(Apply(s, step), p)
    ensures IdsOf(Apply(s, step).rows, BatchKey(p)) == IdsOf(s.rows, BatchKey(p))
  {
    if step.Submission? {
      SubmitKeepsSubmitted(s, step.submit, p);
    } else {
      StepKeepsKeys(s, step);
      assert IdsOf(Apply(s, step).rows, BatchKey(p)) == IdsOf(s.rows, BatchKey(p));
    }
  }

  lemma SelectInforms(base: Core, s: Sys, n: nat, k: Key, order: seq<TaskId>)
    requires Since(base, n, s) && CanSelect(s, k, order)
    ensures var snap := Select(s.core.rows, order);
            && IdsIn(snap) == IdsOf(s.core.rows, k) && InformedBy(base, k, snap)
            && (order == [] ==> IdsOf(base.rows, k) == {})
  {
    assert forall t :: t in IdsOf(base.rows, k) ==> t in IdsOf(s.core.rows, k);
    var snap := Select(s.core.rows, order);
    forall t | t in IdsOf(s.core.rows, k) ensures (t, s.core.rows[t]) in snap {
      assert t in order;
      var m :| 0 <= m < |order| && order[m] == t;
      assert snap[m] == (t, s.core.rows[t]);
    }
    forall t | t in IdsIn(snap) ensures t in IdsOf(s.core.rows, k) {
      var e :| e in snap && e.0 == t;
      assert t in order;
    }
  }

  lemma ActInforms(base: Core, n: nat, s: Sys, u: Step)
    requires Enabled(s.core, u) && forall j: nat :: j >= n ==> Informed(base, s, j)
    ensures |Do(s, Act(u)).reqs| == |s.reqs|
    ensures forall j: nat :: j >= n ==> Informed(base, Do(s, Act(u)), j)
  {
    forall j: nat | j >= n ensures Informed(base, Do(s, Act(u)), j) { assert Informed(base, s, j); }
  }

  lemma ActStaysSince(base: Core, n: nat, s: Sys, u: Step)
    requires PollInv(s) && Enabled(s.core, u) && Since(base, n, s)
    ensures Since(base, n, Do(s, Act(u)))
  {
    var s' := Do(s, Act(u));
    StepGrows(s.core, u);
    ActInforms(base, n, s, u);
    forall p: int | Submitted(base, p)
      ensures Submitted(s'.core, p) && IdsOf(s'.core.rows, BatchKey(p)) == IdsOf(base.rows, BatchKey(p))
    {
      SubmittedStays(s.core, u, p);
    }
  }

  lemma ReadStaysSince(base: Core, n: nat, s: Sys, step: SysStep)
    requires Can(s, step) && Since(base, n, s) && (step.Read? || step.Reread?)
    ensures Since(base, n, Do(s, step))
  {
    var s' := Do(s, step);
    SelectInforms(base, s, n, s.reqs[step.i].key, step.order);
    forall j: nat | j >= n ensures Informed(base, s', j) { assert Informed(base, s, j); }
  }

  lemma WaitStaysSince(base: Core, n: nat, s: Sys, step: SysStep)
    requires Can(s, step) && Since(base, n, s) && !step.Act? && !step.Read? && !step.Reread?
    ensures Since(base, n, Do(s, step))
  {
    var s' := Do(s, step);
    forall j: nat | j >= n ensures Informed(base, s', j) { assert Informed(base, s, j); }
  }

  lemma StepStaysSince(base: Core, n: nat, s: Sys, step: SysStep)
    requires PollInv(s) && Can(s, step) && Since(base, n, s)
    ensures Since(base, n, Do(s, step))
  {
    match step
    case Act(u) => ActStaysSince(base, n, s, u);
    case Read(_, _) => ReadStaysSince(base, n, s, step);
    case Reread(_, _) => ReadStaysSince(base, n, s, step);
    case _ => WaitStaysSince(base, n, s, step);
  }

  lemma {:induction false} RunStaysSince(base: Core, n: nat, s: Sys, steps: seq<SysStep>)
    requires PollInv(s) && CanDo(s, steps) && Since(base, n, s)
    ensures Since(base, n, DoAll(s, steps)) && PollInv(DoAll(s, steps))
    decreases |steps|
  {
    if steps != [] {
      SysStepKeepsInv(s, steps[0]);
      StepStaysSince(base, n, s, steps[0]);
      RunStaysSince(base, n, Do(s, steps[0]), steps[1..]);
    }
  }

  /** Requests asked after `s` are informed of everything `s` knew, however the run goes on. */
  lemma LaterRequestsAreInformed(s: Sys, steps: seq<SysStep>)
    requires PollInv(s) && CanDo(s, steps)
    ensures Since(s.core, |s.reqs|, DoAll(s, steps)) && PollInv(DoAll(s, steps))
  {
    RunStaysSince(s.core, |s.reqs|, s, steps);
  }

  /** Once a request for a task has been answered with a finished row, every later request gets that row. */
  lemma LaterRepliesAgree(s: Sys, steps: seq<SysStep>, i: nat, j: nat, t: TaskId)
    requires SysReachable(s) && CanDo(s, steps)
    requires Has(s, i) && s.reqs[i].key == TaskKey(t) && s.reqs[i].pc.Replied? && AllFinished(s.reqs[i].pc.reply)
    requires var s' := DoAll(s, steps);
             |s.reqs| <= j && Has(s', j) && s'.reqs[j].key == TaskKey(t) && s'.reqs[j].pc.Replied?
    ensures DoAll(s, steps).reqs[j].pc.reply == s.reqs[i].pc.reply
  {
    SysReachableInv(s);
    LaterRequestsAreInformed(s, steps);
    var s' := DoAll(s, steps);
    SingleEntry(s, i, t);
    SingleEntry(s', j, t);
    assert Informed(s.core, s', j);
  }

  // ------------------------------------------------------------- not found

  /**
   A request is answered "not found" only when there was no row under its key at the
   moment it was asked, whatever happened in between.
   */
  lemma NotFoundMeansAbsent(s: Sys, steps: seq<SysStep>, i: nat)
    requires SysReachable(s) && CanDo(s, steps)
    requires |s.reqs| <= i && Has(DoAll(s, steps), i) && DoAll(s, steps).reqs[i].pc.NotFound?
    ensures IdsOf(s.core.rows, DoAll(s, steps).reqs[i].key) == {}
  {
    SysReachableInv(s);
    LaterRequestsAreInformed(s, steps);
    assert Informed(s.core, DoAll(s, steps), i);
  }

  lemma {:induction false} KeyStays(s: Sys, steps: seq<SysStep>, i: nat)
    requires CanDo(s, steps) && Has(s, i)
    ensures Has(DoAll(s, steps), i) && DoAll(s, steps).reqs[i].key == s.reqs[i].key
    decreases |steps|
  {
    if steps != [] { KeyStays(Do(s, steps[0]), steps[1..], i); }
  }

  /** A request for `k` stays one for `k`, and is answered "not found" only if there was no row for it when it came. */
  lemma AskedIsFound(s: Sys, k: Key, steps: seq<SysStep>)
    requires SysReachable(s) && CanDo(Do(s, Ask(k)), steps)
    ensures var s', i := DoAll(Do(s, Ask(k)), steps), |s.reqs|;
            Has(s', i) && s'.reqs[i].key == k && (IdsOf(s.core.rows, k) != {} ==> !s'.reqs[i].pc.NotFound?)
  {
    var s1 := Do(s, Ask(k));
    KeyStays(s1, steps, |s.reqs|);
    DoCons(s, Ask(k), steps);
    assert DoAll(s, [Ask(k)] + steps) == DoAll(s1, steps);
    if DoAll(s1, steps).reqs[|s.reqs|].pc.NotFound? { NotFoundMeansAbsent(s, [Ask(k)] + steps, |s.reqs|); }
  }

  /** The first read decides: nothing there, everything finished, or something to wait for. */
  lemma FirstReadDecides(s: Sys, i: nat, order: seq<TaskId>)
    requires Can(s, Read(i, order))
    ensures var rows, k := s.core.rows, s.reqs[i].key;
            var pc := Do(s, Read(i, order)).reqs[i].pc;
            && (pc.NotFound? <==> IdsOf(rows, k) == {})
            && (pc.Replied? <==> IdsOf(rows, k) != {} && forall t :: t in IdsOf(rows, k) ==> rows[t].status.Finished())
            && (pc.Unready? <==> exists t :: t in IdsOf(rows, k) && !rows[t].status.Finished())
  {
    var rows, k := s.core.rows, s.reqs[i].key;
    assert forall n :: 0 <= n < |order| ==> order[n] in order && Select(rows, order)[n] == (order[n], rows[order[n]]);
    assert forall t :: t in IdsOf(rows, k) <==> t in order;
    if order != [] { assert order[0] in IdsOf(rows, k); }
    if t :| t in IdsOf(rows, k) && !rows[t].status.Finished() {
      var n :| 0 <= n < |order| && order[n] == t;
      assert Select(rows, order)[n].1 == rows[t];
    }
  }

  lemma DoCons(s: Sys, step: SysStep, rest: seq<SysStep>)
    requires Can(s, step) && CanDo(Do(s, step), rest)
    ensures CanDo(s, [step] + rest) && DoAll(s, [step] + rest) == DoAll(Do(s, step), rest)
  {
    assert ([step] + rest)[1..] == rest;
  }

  lemma {:induction false} SomeOrder(ids: set<TaskId>) returns (order: seq<TaskId>)
    ensures Enumerates(order, ids)
  {
    order := [];
    if t :| t in ids {
      var rest := SomeOrder(ids - {t});
      order := [t] + rest;
    }
  }

  function StepsLeft(pc: PollPc): nat {
    match pc
    case Start => 4
    case Unready(_) => 3
    case Asleep(_) => 2
    case Roused(_) => 1
    case Expired(_) => 1
    case _ => 0
  }

  /** Its own steps alone, without the help of the broker, bring a request to a reply if there is something to show. */
  lemma {:induction false} RequestCanBeAnswered(s: Sys, i: nat) returns (steps: seq<SysStep>)
    requires PollInv(s) && Has(s, i) && !s.reqs[i].pc.NotFound?
    requires s.reqs[i].pc.Start? ==> IdsOf(s.core.rows, s.reqs[i].key) != {}
    ensures CanDo(s, steps) && Has(DoAll(s, steps), i) && DoAll(s, steps).reqs[i].pc.Replied?
    ensures DoAll(s, steps).core == s.core
    decreases StepsLeft(s.reqs[i].pc)
  {
    steps := [];
    if !s.reqs[i].pc.Replied? {
      var step := RequestStep(s, i);
      SysStepKeepsInv(s, step);
      var rest := RequestCanBeAnswered(Do(s, step), i);
      DoCons(s, step, rest);
      steps := [step] + rest;
    }
  }

  lemma RequestStep(s: Sys, i: nat) returns (step: SysStep)
    requires PollInv(s) && Has(s, i) && !s.reqs[i].pc.NotFound? && !s.reqs[i].pc.Replied?
    requires s.reqs[i].pc.Start? ==> IdsOf(s.core.rows, s.reqs[i].key) != {}
    ensures Can(s, step) && Do(s, step).core == s.core && Has(Do(s, step), i)
    ensures !Do(s, step).reqs[i].pc.NotFound? && !Do(s, step).reqs[i].pc.Start?
    ensures StepsLeft(Do(s, step).reqs[i].pc) < StepsLeft(s.reqs[i].pc)
  {
    var order := SomeOrder(IdsOf(s.core.rows, s.reqs[i].key));
    match s.reqs[i].pc
    case Start =>
      step := Read(i, order);
      FirstReadDecides(s, i, order);
    case Unready(_) => step := Join(i);
    case Asleep(_) => step := TimeOut(i);
    case Roused(_) => step := Reread(i, order);
    case Expired(_) => step := Leave(i);
  }

  // ------------------------------------------------------ batches over time

  /** Every finished row of the earlier reply appears unchanged in the later one. */
  predicate KeepsFinished(earlier: Snapshot, later: Snapshot) {
    forall e :: e in earlier && e.1.status.Finished() ==> e in later
  }

  /**
   Two requests for one batch, the second asked after the first was answered: finished
   subtasks stay finished with the same row.  If the submission had returned before
   the first was asked, both replies list the same subtasks.
   */
  lemma BatchRepliesAreMonotone(s0: Sys, steps: seq<SysStep>, more: seq<SysStep>, i: nat, j: nat, p: int)
    requires SysReachable(s0) && CanDo(s0, steps) && CanDo(DoAll(s0, steps), more)
    requires |s0.reqs| <= i && Submitted(s0.core, p)
    requires var s := DoAll(s0, steps);
             Has(s, i) && s.reqs[i].key == BatchKey(p) && s.reqs[i].pc.Replied?
    requires var s := DoAll(s0, steps);
             var s' := DoAll(s, more);
             |s.reqs| <= j && Has(s', j) && s'.reqs[j].key == BatchKey(p) && s'.reqs[j].pc.Replied?
    ensures var s := DoAll(s0, steps);
            var earlier, later := s.reqs[i].pc.reply, DoAll(s, more).reqs[j].pc.reply;
            && IdsIn(earlier) == IdsIn(later)
            && KeepsFinished(earlier, later)
            && SnapOk(s.core.rows, BatchKey(p), earlier)
            && SnapOk(DoAll(s, more).core.rows, BatchKey(p), later)
  {
    SysReachableInv(s0);
    LaterRequestsAreInformed(s0, steps);
    LaterRequestsAreInformed(DoAll(s0, steps), more);
    MonotonePair(s0.core, DoAll(s0, steps), DoAll(DoAll(s0, steps), more), i, j, p);
  }

  lemma MonotonePair(base: Core, s: Sys, s': Sys, i: nat, j: nat, p: int)
    requires PollInv(s) && PollInv(s') && Submitted(base, p)
    requires Submitted(s.core, p) && IdsOf(s.core.rows, BatchKey(p)) == IdsOf(base.rows, BatchKey(p))
    requires Has(s, i) && s.reqs[i].key == BatchKey(p) && s.reqs[i].pc.Replied? && Informed(base, s, i)
    requires Has(s', j) && s'.reqs[j].key == BatchKey(p) && s'.reqs[j].pc.Replied? && Informed(s.core, s', j)
    ensures var earlier, later := s.reqs[i].pc.reply, s'.reqs[j].pc.reply;
            && IdsIn(earlier) == IdsIn(later)
            && KeepsFinished(earlier, later)
            && SnapOk(s.core.rows, BatchKey(p), earlier)
            && SnapOk(s'.core.rows, BatchKey(p), later)
  {
    assert PollOk(s, i) && PollOk(s', j);
    var earlier := s.reqs[i].pc.reply;
    forall e | e in earlier && e.1.status.Finished() ensures e in s'.reqs[j].pc.reply {
      assert EntryOk(s.core.rows, BatchKey(p), e);
    }
  }
}
