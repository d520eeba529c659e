/**
 Runs of the transition system seen from one goroutine: what it may rely on while
 the others run, and what the invariant tells it about the state it finds.
 */
module BrokerRuns {
  import opened Wrappers
  import opened BrokerCore
  import opened BrokerInvariant
  import opened BrokerKept
  import opened BrokerSafety
  import LongPoll

  // ------------------------------------------------------ runs and interference

  ghost predicate Leads(s: Core, s': Core) { exists steps :: CanRun(s, steps) && RunFrom(s, steps) == s' }

  lemma LeadsOn(s0: Core, s: Core, step: Step)
    requires Leads(s0, s) && Enabled(s, step)
    ensures Leads(s0, Apply(s, step))
  {
    var steps :| CanRun(s0, steps) && RunFrom(s0, steps) == s;
    RunAppend(s0, steps, step);
    assert CanRun(s0, steps + [step]);
  }

  lemma ReplyOn(s0: Core, s: Core, c: ConnId, step: ReplyStep)
    requires Leads(s0, s) && ReplyEnabled(s, c, step)
    ensures Leads(s0, ReplyApply(s, c, step))
  {
    LeadsOn(s0, s, Replying(c, step));
  }

  lemma CleanupOn(s0: Core, s: Core, c: ConnId, step: CleanupStep)
    requires Leads(s0, s) && CleanupEnabled(s, c, step)
    ensures Leads(s0, CleanupApply(s, c, step))
  {
    LeadsOn(s0, s, CleaningUp(c, step));
  }

  lemma MatchOn(s0: Core, s: Core, step: MatchStep)
    requires Leads(s0, s) && MatchEnabled(s, step)
    ensures Leads(s0, MatchApply(s, step))
  {
    LeadsOn(s0, s, Matchmaking(step));
  }

  lemma DispatchOn(s0: Core, s: Core, step: DispatchStep)
    requires Leads(s0, s) && DispatchEnabled(s, step)
    ensures Leads(s0, DispatchApply(s, step))
  {
    LeadsOn(s0, s, Dispatching(step));
  }

  lemma SubmitOn(s0: Core, s: Core, step: SubmitStep)
    requires Leads(s0, s) && SubmitEnabled(s, step)
    ensures Leads(s0, SubmitApply(s, step))
  {
    LeadsOn(s0, s, Submission(step));
  }

  lemma {:induction false} RunConcat(s: Core, a: seq<Step>, b: seq<Step>)
    requires CanRun(s, a) && CanRun(RunFrom(s, a), b)
    ensures CanRun(s, a + b) && RunFrom(s, a + b) == RunFrom(RunFrom(s, a), b)
    decreases |a|
  {
    if a == [] {
      assert [] + b == b;
    } else {
      RunConcat(Apply(s, a[0]), a[1..], b);
      assert (a + b)[1..] == a[1..] + b;
    }
  }

  lemma LeadsThrough(s0: Core, s1: Core, s2: Core)
    requires Leads(s0, s1) && Leads(s1, s2)
    ensures Leads(s0, s2)
  {
    var a :| CanRun(s0, a) && RunFrom(s0, a) == s1;
    var b :| CanRun(s1, b) && RunFrom(s1, b) == s2;
    RunConcat(s0, a, b);
    assert CanRun(s0, a + b);
  }

  lemma LeadsReachable(s0: Core, s: Core)
    requires Reachable(s0) && Leads(s0, s)
    ensures Reachable(s) && Leads(s, s)
  {
    var now, a :| CanRun(Init(now), a) && RunFrom(Init(now), a) == s0;
    assert Leads(Init(now), s0);
    LeadsThrough(Init(now), s0, s);
    assert CanRun(s, []);
  }

  lemma LeadsKeepsInv(s0: Core, s: Core)
    requires Reachable(s0) && Leads(s0, s)
    ensures Inv(s)
  {
    var steps :| CanRun(s0, steps) && RunFrom(s0, steps) == s;
    ReachableInv(s0);
    RunKeepsInv(s0, steps);
  }

  datatype Goroutine = TheScheduler | TheHandler(c: ConnId) | TheSubmitter(i: nat)

  /** The step is one of this goroutine's own. */
  predicate By(step: Step, me: Goroutine) {
    match me
    case TheScheduler => step.Matchmaking? || step.Dispatching?
    case TheHandler(c) => ActsOn(step, c)
    case TheSubmitter(i) => step.Submission? && !step.submit.DStartSubmit? && step.submit.i == i
  }

  /** What a goroutine can rely on while others run. */
  ghost predicate Mine(s: Core, s': Core, me: Goroutine) {
    LongPoll.Grows(s.rows, s'.rows) && s.pushed <= s'.pushed && OwnStays(s, s', me)
  }

  predicate OwnStays(s: Core, s': Core, me: Goroutine) {
    s.now <= s'.now &&
    match me
    case TheScheduler => s'.sched == s.sched && s'.taken == s.taken
    case TheHandler(c) =>
      At(s, c) ==>
        && LeftAlone(s, s', c) && s'.conns[c].worker == s.conns[c].worker
        && (s.lock == Some(c) ==> s'.lock == s.lock && s'.active == s.active)
    case TheSubmitter(i) => i < |s.subs| ==> i < |s'.subs| && s'.subs[i] == s.subs[i]
  }

  lemma SubmitSpares(s: Core, step: SubmitStep, me: Goroutine)
    requires SubmitEnabled(s, step) && !By(Submission(step), me)
    ensures OwnStays(s, SubmitApply(s, step), me) && s.pushed <= SubmitApply(s, step).pushed
  {
  }

  lemma ReplySpares(s: Core, c: ConnId, step: ReplyStep, me: Goroutine)
    requires ReplyEnabled(s, c, step) && !By(Replying(c, step), me)
    ensures OwnStays(s, ReplyApply(s, c, step), me) && s.pushed <= ReplyApply(s, c, step).pushed
  {
  }

  lemma CleanupSpares(s: Core, c: ConnId, step: CleanupStep, me: Goroutine)
    requires CleanupEnabled(s, c, step) && (HoldsLock(s.conns[c].pc) ==> s.lock == Some(c))
    requires !By(CleaningUp(c, step), me)
    ensures OwnStays(s, CleanupApply(s, c, step), me) && s.pushed <= CleanupApply(s, c, step).pushed
  {
  }

  lemma MatchSpares(s: Core, step: MatchStep, me: Goroutine)
    requires MatchEnabled(s, step) && !By(Matchmaking(step), me)
    ensures OwnStays(s, MatchApply(s, step), me) && s.pushed <= MatchApply(s, step).pushed
  {
  }

  lemma DispatchSpares(s: Core, step: DispatchStep, me: Goroutine)
    requires DispatchEnabled(s, step) && !By(Dispatching(step), me)
    ensures OwnStays(s, DispatchApply(s, step), me) && s.pushed <= DispatchApply(s, step).pushed
  {
  }

  lemma StepKeepsMine(s: Core, step: Step, me: Goroutine)
    requires Inv(s) && Enabled(s, step) && !By(step, me)
    ensures Mine(s, Apply(s, step), me)
  {
    LongPoll.StepGrows(s, step);
    match step
    case Clock(_) =>
    case Submission(u) => SubmitSpares(s, u, me);
    case Joining(_, _) =>
    case Replying(c, u) => ReplySpares(s, c, u, me);
    case CleaningUp(c, u) => assert ConnOk(s, c); CleanupSpares(s, c, u, me);
    case Matchmaking(u) => MatchSpares(s, u, me);
    case Dispatching(u) => DispatchSpares(s, u, me);
  }

  /** Any run of the other goroutines is one that the contract of `Others` allows. */
  lemma {:induction false} OthersKeepMine(s: Core, steps: seq<Step>, me: Goroutine)
    requires Inv(s) && CanRun(s, steps) && forall n :: 0 <= n < |steps| ==> !By(steps[n], me)
    ensures Inv(RunFrom(s, steps)) && Leads(s, RunFrom(s, steps)) && Mine(s, RunFrom(s, steps), me)
    decreases |steps|
  {
    if steps != [] {
      StepKeepsInv(s, steps[0]);
      StepKeepsMine(s, steps[0], me);
      OthersKeepMine(Apply(s, steps[0]), steps[1..], me);
    }
    assert CanRun(s, steps);
  }

  lemma TaskIsThere(s0: Core, s: Core, c: ConnId)
    requires Reachable(s0) && Leads(s0, s) && At(s, c) && s.conns[c].pc.ReplyIdled?
    ensures s.conns[c].pc.task in s.rows
  {
    LeadsKeepsInv(s0, s);
    assert ConnOk(s, c);
  }

  lemma FinishedIsUnmapped(s0: Core, s: Core, t: TaskId)
    requires Reachable(s0) && Leads(s0, s) && t in s.rows && s.rows[t].status.Finished()
    ensures t !in s.active
  {
    LeadsKeepsInv(s0, s);
    assert TaskOk(s, t);
  }

  lemma HolderHasLock(s0: Core, s: Core, c: ConnId)
    requires Reachable(s0) && Leads(s0, s) && At(s, c) && HoldsLock(s.conns[c].pc)
    ensures s.lock == Some(c)
  {
    LeadsKeepsInv(s0, s);
    assert ConnOk(s, c);
  }

  /** The task belongs to this batch and tier, and was created at some moment between `since` and now. */
  predicate Created(s: Core, t: TaskId, parent: int, tier: int, since: int) {
    t in s.rows && s.rows[t].parent == parent && s.rows[t].tier == tier && since <= s.rows[t].createdAt <= s.now
  }

  /** The tasks `ids` are new since `start`, distinct, of this batch, and have been queued. */
  predicate QueuedNew(start: Core, s: Core, ids: seq<TaskId>, parent: int, tier: int) {
    && LongPoll.Grows(start.rows, s.rows) && start.now <= s.now
    && (forall t :: t in ids ==> t !in start.rows && t in s.pushed && Created(s, t, parent, tier, start.now))
    && (forall m, n :: 0 <= m < n < |ids| ==> ids[m] != ids[n])
  }

  lemma QueuedStay(start: Core, s: Core, s': Core, ids: seq<TaskId>, parent: int, tier: int)
    requires QueuedNew(start, s, ids, parent, tier) && LongPoll.Grows(s.rows, s'.rows) && s.pushed <= s'.pushed
    requires s.now <= s'.now
    ensures QueuedNew(start, s', ids, parent, tier)
  {
  }

  predicate MappedIn(s: Core, w: WorkerId, list: seq<TaskId>) {
    forall t :: t in s.active && s.active[t] == w ==> t in list
  }

  lemma MappedOneLess(s: Core, s': Core, w: WorkerId, list: seq<TaskId>)
    requires list != [] && MappedIn(s, w, list) && s'.active == s.active - {list[0]}
    ensures MappedIn(s', w, list[1..])
  {
    assert list == [list[0]] + list[1..];
  }

  /** Each of `ts` was pushed after the pushes `before`. */
  predicate AllQueued(before: seq<TaskId>, pushed: seq<TaskId>, ts: seq<TaskId>) {
    before <= pushed && forall t :: t in ts ==> t in pushed[|before|..]
  }

  predicate PushedLast(before: seq<TaskId>, pushed: seq<TaskId>, t: TaskId) {
    before < pushed && pushed[|pushed| - 1] == t
  }

  lemma QueuedOneMore(start: seq<TaskId>, before: seq<TaskId>, pushed: seq<TaskId>, list: seq<TaskId>, n: nat)
    requires n < |list| && AllQueued(start, before, list[..n])
    requires exists mid :: PushedLast(before, mid, list[n]) && mid <= pushed
    ensures AllQueued(start, pushed, list[..n + 1])
  {
    var mid :| PushedLast(before, mid, list[n]) && mid <= pushed;
    forall t | t in list[..n + 1] ensures t in pushed[|start|..] {
      if t == list[n] {
        assert pushed[|start|..][|mid| - 1 - |start|] == t;
      } else {
        assert t in list[..n];
        var m :| 0 <= m < |before[|start|..]| && before[|start|..][m] == t;
        assert pushed[|start|..][m] == t;
      }
    }
  }

  lemma MatchingIsBounded(s0: Core, s: Core)
    requires Reachable(s0) && Leads(s0, s) && s.sched.Matching?
    ensures s.sched.sleeps <= 60
  {
    LeadsKeepsInv(s0, s);
  }

  lemma SleeperIsPending(s0: Core, s: Core)
    requires Reachable(s0) && Leads(s0, s) && s.sched.Sleeping?
    ensures IsPending(s, s.sched.task)
  {
    LeadsKeepsInv(s0, s);
  }

  lemma SchedTaskIsThere(s0: Core, s: Core)
    requires Reachable(s0) && Leads(s0, s) && s.sched.Expiring?
    ensures s.sched.task in s.rows
  {
    LeadsKeepsInv(s0, s);
  }

  lemma TargetIsThere(s0: Core, s: Core)
    requires Reachable(s0) && Leads(s0, s) && HasTarget(s)
    ensures At(s, s.sched.target)
  {
    LeadsKeepsInv(s0, s);
  }

  lemma SentIsDelivered(s0: Core, s: Core, c: ConnId, t: TaskId)
    requires Reachable(s0) && Leads(s0, s) && At(s, c) && t in s.conns[c].unanswered
    ensures Delivered(s, c, t)
  {
    LeadsKeepsInv(s0, s);
    assert ConnOk(s, c);
  }

  lemma Delivers(s0: Core, s: Core, s': Core, t: TaskId, c: ConnId)
    requires Reachable(s0) && Leads(s0, s) && s.sched == Marked(t, c) && At(s, c) && Open(s.conns[c].pc)
    requires s' == DispatchApply(s, DSend)
    ensures Leads(s0, s') && At(s', c) && t in s'.conns[c].unanswered && Delivered(s', c, t)
  {
    DispatchOn(s0, s, DSend);
    SentIsDelivered(s0, s', c, t);
  }

  lemma RequeuedIsPending(s0: Core, s: Core)
    requires Reachable(s0) && Leads(s0, s) && s.sched.Requeuing?
    ensures IsPending(s, s.sched.task) && s.sched.task !in s.active
  {
    LeadsKeepsInv(s0, s);
  }

  lemma GoneFromRegistry(s0: Core, s: Core, c: ConnId)
    requires Reachable(s0) && Leads(s0, s) && At(s, c) && HoldsLock(s.conns[c].pc)
    ensures s.conns[c].worker !in s.workers
  {
    LeadsKeepsInv(s0, s);
    var w := s.conns[c].worker;
    assert WorkerOk(s, w);
    if w in s.workers { LiveOnesAreOne(s, c, s.workers[w]); }
  }

  lemma LiveOnesAreOne(s: Core, c: ConnId, d: ConnId)
    requires Inv(s) && At(s, c) && At(s, d) && s.conns[c].worker == s.conns[d].worker
    requires !s.conns[c].pc.Gone? && !s.conns[d].pc.Gone?
    ensures c == d
  {
    assert Apart(s, c, d);
  }

  lemma RegistryIsSane(s0: Core, s: Core, w: WorkerId)
    requires Reachable(s0) && Leads(s0, s) && w in s.workers
    ensures At(s, s.workers[w])
  {
    LeadsKeepsInv(s0, s);
    assert WorkerOk(s, w);
  }

  // ------------------------------------------------- workers and their tiers

  /** A connection keeps the worker ID and the tier it registered with. */
  predicate SameWorker(s: Core, s': Core, c: ConnId) {
    At(s, c) ==> At(s', c) && s'.conns[c].worker == s.conns[c].worker && s'.conns[c].tier == s.conns[c].tier
  }

  lemma ReplyKeepsWorker(s: Core, d: ConnId, step: ReplyStep, c: ConnId)
    requires ReplyEnabled(s, d, step)
    ensures SameWorker(s, ReplyApply(s, d, step), c)
  {
  }

  lemma CleanupKeepsWorker(s: Core, d: ConnId, step: CleanupStep, c: ConnId)
    requires CleanupEnabled(s, d, step)
    ensures SameWorker(s, CleanupApply(s, d, step), c)
  {
  }

  lemma MatchKeepsWorker(s: Core, step: MatchStep, c: ConnId)
    requires MatchEnabled(s, step)
    ensures SameWorker(s, MatchApply(s, step), c)
  {
  }

  lemma DispatchKeepsWorker(s: Core, step: DispatchStep, c: ConnId)
    requires DispatchEnabled(s, step)
    ensures SameWorker(s, DispatchApply(s, step), c)
  {
  }

  lemma {:induction false} WorkerStays(s: Core, steps: seq<Step>, c: ConnId)
    requires CanRun(s, steps)
    ensures SameWorker(s, RunFrom(s, steps), c)
    decreases |steps|
  {
    if steps != [] {
      match steps[0] {
        case Clock(_) =>
        case Submission(_) =>
        case Joining(_, _) =>
        case Replying(d, u) => ReplyKeepsWorker(s, d, u, c);
        case CleaningUp(d, u) => CleanupKeepsWorker(s, d, u, c);
        case Matchmaking(u) => MatchKeepsWorker(s, u, c);
        case Dispatching(u) => DispatchKeepsWorker(s, u, c);
      }
      WorkerStays(Apply(s, steps[0]), steps[1..], c);
    }
  }

  lemma LeadsKeepsWorker(s: Core, s': Core, c: ConnId)
    requires Leads(s, s')
    ensures SameWorker(s, s', c)
  {
    var steps :| CanRun(s, steps) && RunFrom(s, steps) == s';
    WorkerStays(s, steps, c);
  }
}
