/** A batch has exactly as many subtasks as it was submitted with, once its submission has returned. */
module BatchSize {
  import opened BrokerCore
  import opened Waiters
  import opened LongPoll
  import opened PollReplies
  import opened BatchStatus

  function Subtasks(s: Core, p: int): set<TaskId> { IdsOf(s.rows, BatchKey(p)) }

  /** A batch has one submission, and only batches with a submission have subtasks. */
  ghost predicate ParentsInv(s: Core) {
    && (forall i, j :: 0 <= i < |s.subs| && 0 <= j < |s.subs| && i != j && s.subs[i].parent != 0 ==>
          s.subs[i].parent != s.subs[j].parent)
    && (forall t :: t in s.rows && s.rows[t].parent != 0 ==> HasSubmission(s, s.rows[t].parent))
  }

  predicate HasSubmission(s: Core, p: int) { exists i :: 0 <= i < |s.subs| && s.subs[i].parent == p }

  lemma SubmissionStays(s: Core, step: SubmitStep, p: int)
    requires SubmitEnabled(s, step) && HasSubmission(s, p)
    ensures HasSubmission(SubmitApply(s, step), p)
  {
    var i :| 0 <= i < |s.subs| && s.subs[i].parent == p;
    assert SubmitApply(s, step).subs[i].parent == p;
  }

  lemma SubmitKeepsParents(s: Core, step: SubmitStep)
    requires ParentsInv(s) && SubmitEnabled(s, step)
    ensures ParentsInv(SubmitApply(s, step))
  {
    var s' := SubmitApply(s, step);
    forall t | t in s'.rows && s'.rows[t].parent != 0 ensures HasSubmission(s', s'.rows[t].parent) {
      if step.DCreateTask? && t == step.t {
        assert HasSubmission(s, s.subs[step.i].parent);
      }
      SubmissionStays(s, step, s'.rows[t].parent);
    }
  }

  lemma StepKeepsParents(s: Core, step: Step)
    requires ParentsInv(s) && Enabled(s, step)
    ensures ParentsInv(Apply(s, step))
  {
    if step.Submission? {
      SubmitKeepsParents(s, step.submit);
    } else {
      StepKeepsKeys(s, step);
      var s' := Apply(s, step);
      forall t | t in s'.rows && s'.rows[t].parent != 0 ensures HasSubmission(s', s'.rows[t].parent) {
        assert HasSubmission(s, s.rows[t].parent);
      }
    }
  }

  /** Subtasks created so far and subtasks still to be created. */
  function Size(s: Core, i: nat): int
    requires i < |s.subs|
  {
    |Subtasks(s, s.subs[i].parent)| + s.subs[i].left
  }

  predicate SameBatch(s: Core, s': Core, i: nat) {
    i < |s.subs| <= |s'.subs| && s'.subs[i].parent == s.subs[i].parent && Size(s', i) == Size(s, i)
  }

  lemma SubmitKeepsSize(s: Core, step: SubmitStep, i: nat)
    requires ParentsInv(s) && SubmitEnabled(s, step) && i < |s.subs| && s.subs[i].parent != 0
    ensures SameBatch(s, SubmitApply(s, step), i)
  {
    if step.DCreateTask? {
      CreateKeepsSize(s, step.i, step.t, i);
    } else {
      assert SubmitApply(s, step).rows == s.rows;
    }
  }

  lemma CreateKeepsSize(s: Core, j: nat, t: TaskId, i: nat)
    requires CanCreateTask(s, j, t) && i < |s.subs|
    requires i != j ==> s.subs[i].parent != s.subs[j].parent
    ensures SameBatch(s, CreateTask(s, j, t), i)
  {
    var b := s.subs[j];
    IdsAfterCreate(s.rows, t, NewRow(b.tier, s.now, b.parent), s.subs[i].parent);
  }

  lemma IdsAfterCreate(rows: map<TaskId, Row>, t: TaskId, r: Row, p: int)
    requires t !in rows
    ensures |IdsOf(rows[t := r], BatchKey(p))| == |IdsOf(rows, BatchKey(p))| + if r.parent == p then 1 else 0
  {
    var before := IdsOf(rows, BatchKey(p));
    assert IdsOf(rows[t := r], BatchKey(p)) == if r.parent == p then before + {t} else before;
  }

  lemma StepKeepsSize(s: Core, step: Step, i: nat)
    requires ParentsInv(s) && Enabled(s, step) && i < |s.subs| && s.subs[i].parent != 0
    ensures SameBatch(s, Apply(s, step), i)
  {
    if step.Submission? {
      SubmitKeepsSize(s, step.submit, i);
    } else {
      StepKeepsKeys(s, step);
      assert Subtasks(Apply(s, step), s.subs[i].parent) == Subtasks(s, s.subs[i].parent);
    }
  }

  /** Whatever happens, a batch neither gains nor loses a subtask. */
  lemma {:induction false} BatchSizeIsKept(s: Core, steps: seq<Step>, i: nat)
    requires ParentsInv(s) && CanRun(s, steps) && i < |s.subs| && s.subs[i].parent != 0
    ensures ParentsInv(RunFrom(s, steps)) && SameBatch(s, RunFrom(s, steps), i)
    decreases |steps|
  {
    if steps != [] {
      StepKeepsParents(s, steps[0]);
      StepKeepsSize(s, steps[0], i);
      BatchSizeIsKept(Apply(s, steps[0]), steps[1..], i);
    }
  }

  lemma {:induction false} RunKeepsParents(s: Core, steps: seq<Step>)
    requires ParentsInv(s) && CanRun(s, steps)
    ensures ParentsInv(RunFrom(s, steps))
    decreases |steps|
  {
    if steps != [] {
      StepKeepsParents(s, steps[0]);
      RunKeepsParents(Apply(s, steps[0]), steps[1..]);
    }
  }

  /** A batch submitted with `count` inputs has `count` subtasks once its handler has returned. */
  lemma BatchHasOneTaskPerInput(s: Core, parent: int, tier: int, count: nat, steps: seq<Step>)
    requires Reachable(s) && CanStartSubmit(s, parent, count) && parent != 0
    requires CanRun(StartSubmit(s, parent, tier, count), steps)
    requires Submitted(RunFrom(StartSubmit(s, parent, tier, count), steps), parent)
    ensures |Subtasks(RunFrom(StartSubmit(s, parent, tier, count), steps), parent)| == count
  {
    var now, before :| CanRun(Init(now), before) && RunFrom(Init(now), before) == s;
    RunKeepsParents(Init(now), before);
    NewBatchIsEmpty(s, parent);
    var s1 := StartSubmit(s, parent, tier, count);
    SubmitKeepsParents(s, DStartSubmit(parent, tier, count));
    var i := |s.subs|;
    assert Subtasks(s1, parent) == {};
    BatchSizeIsKept(s1, steps, i);
    assert RunFrom(s1, steps).subs[i].left == 0;
  }

  lemma NewBatchIsEmpty(s: Core, parent: int)
    requires ParentsInv(s) && CanStartSubmit(s, parent, 1) && parent != 0
    ensures Subtasks(s, parent) == {}
  {
    assert !HasSubmission(s, parent);
    forall t | t in s.rows ensures s.rows[t].parent != parent {
      assert s.rows[t].parent != 0 ==> HasSubmission(s, s.rows[t].parent);
    }
  }

  // ---------------------------------------------- as status requests see it

  /** The broker's own steps in a run of broker and status requests. */
  function Acts(steps: seq<SysStep>): seq<Step> {
    if steps == [] then []
    else (if steps[0].Act? then [steps[0].step] else []) + Acts(steps[1..])
  }

  /** Status requests only watch: without them the broker runs the same. */
  lemma {:induction false} PollingChangesNothing(s: Sys, steps: seq<SysStep>)
    requires CanDo(s, steps)
    ensures CanRun(s.core, Acts(steps)) && RunFrom(s.core, Acts(steps)) == DoAll(s, steps).core
    decreases |steps|
  {
    if steps != [] {
      PollingChangesNothing(Do(s, steps[0]), steps[1..]);
      if steps[0].Act? {
        assert Acts(steps)[1..] == Acts(steps[1..]);
      } else {
        assert Acts(steps) == Acts(steps[1..]);
      }
    }
  }

  lemma BrokerIsReachable(s: Sys)
    requires SysReachable(s)
    ensures Reachable(s.core)
  {
    var now, steps :| CanDo(SysInit(now), steps) && DoAll(SysInit(now), steps) == s;
    PollingChangesNothing(SysInit(now), steps);
  }

  /** A request asked after the submission returned lists exactly the batch's subtasks, each once. */
  lemma ReplyListsSubtasks(s0: Sys, steps: seq<SysStep>, i: nat, p: int)
    requires SysReachable(s0) && CanDo(s0, steps) && |s0.reqs| <= i && Submitted(s0.core, p)
    requires Answered(DoAll(s0, steps), i, p)
    ensures |DoAll(s0, steps).reqs[i].pc.reply| == |Subtasks(s0.core, p)|
  {
    SysReachableInv(s0);
    LaterRequestsAreInformed(s0, steps);
    var s := DoAll(s0, steps);
    assert Informed(s0.core, s, i) && PollOk(s, i);
    FinishedCount(s.reqs[i].pc.reply);
  }

  predicate Answered(s: Sys, i: nat, p: int) {
    Has(s, i) && s.reqs[i].key == BatchKey(p) && s.reqs[i].pc.Replied?
  }

  /** From submission to reply: the total of every such status reply is the number of inputs submitted. */
  lemma TotalIsTheNumberOfInputs(s: Sys, parent: int, tier: int, count: nat,
                                 steps: seq<SysStep>, more: seq<SysStep>, i: nat)
    requires SysReachable(s) && CanStartSubmit(s.core, parent, count) && parent != 0
    requires var s1 := s.(core := StartSubmit(s.core, parent, tier, count));
             && CanDo(s1, steps) && Submitted(DoAll(s1, steps).core, parent)
             && CanDo(DoAll(s1, steps), more)
             && |DoAll(s1, steps).reqs| <= i && Answered(DoAll(DoAll(s1, steps), more), i, parent)
    ensures var s1 := s.(core := StartSubmit(s.core, parent, tier, count));
            ReplyOf(DoAll(DoAll(s1, steps), more).reqs[i].pc.reply).total == count
  {
    var s1 := s.(core := StartSubmit(s.core, parent, tier, count));
    BrokerIsReachable(s);
    PollingChangesNothing(s1, steps);
    BatchHasOneTaskPerInput(s.core, parent, tier, count, Acts(steps));
    SysReachStep(s, Act(Submission(DStartSubmit(parent, tier, count))));
    SysReachRun(s1, steps);
    ReplyListsSubtasks(DoAll(s1, steps), more, i, parent);
  }
}
