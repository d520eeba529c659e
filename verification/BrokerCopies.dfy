/**
 Bounded duplication.  Disconnects can put a second copy of a task into the queue;
 the number of copies in circulation never exceeds the unfinished tasks by more
 than the number of cleanups begun.
 */
module BrokerCopies {
  import opened Wrappers
  import opened BrokerCore
  import opened BrokerInvariant
  import opened BrokerKept

  // -------------------------------------------------------- sums over seqs

  function Sum<T>(f: T -> int, ks: seq<T>): int {
    if ks == [] then 0 else Sum(f, ks[..|ks| - 1]) + f(ks[|ks| - 1])
  }

  lemma {:induction false} SumChange<T>(f: T -> int, ks: seq<T>, ks': seq<T>, c: nat)
    requires c < |ks| == |ks'|
    requires forall i :: 0 <= i < |ks| && i != c ==> ks'[i] == ks[i]
    ensures Sum(f, ks') == Sum(f, ks) - f(ks[c]) + f(ks'[c])
  {
    var n := |ks| - 1;
    if c == n { assert ks[..n] == ks'[..n]; } else { SumChange(f, ks[..n], ks'[..n], c); }
  }

  lemma SumAppend<T>(f: T -> int, ks: seq<T>, k: T)
    ensures Sum(f, ks + [k]) == Sum(f, ks) + f(k)
  {
    assert (ks + [k])[..|ks|] == ks;
  }

  lemma {:induction false} SumBelow<T>(f: T -> int, g: T -> int, h: T -> int, ks: seq<T>)
    requires forall k :: f(k) <= g(k) + h(k)
    ensures Sum(f, ks) <= Sum(g, ks) + Sum(h, ks)
  {
    if ks != [] { SumBelow(f, g, h, ks[..|ks| - 1]); }
  }

  // ---------------------------------------------------------------- copies

  function InHandOf(pc: ConnPc): nat {
    if Answering(pc) then 1 else if HoldsLock(pc) then |pc.todo| else 0
  }

  /** Copies one connection accounts for: unanswered dispatches and tasks in its goroutine's hand. */
  function ConnCopies(k: Conn): int { |k.unanswered| + InHandOf(k.pc) }

  function Scanned(k: Conn): int { if HoldsLock(k.pc) || k.pc.Gone? then 1 else 0 }

  function CleanupBegun(k: Conn): int {
    if k.pc.Leaving? || k.pc.Unregistered? || k.pc.Closed? || HoldsLock(k.pc) || k.pc.Gone? then 1 else 0
  }

  function NetCopies(k: Conn): int { ConnCopies(k) - Scanned(k) }

  function SubCopies(b: Submitter): int { if b.hand.Some? then 1 else 0 }

  function SchedCopies(s: Core): int {
    match s.sched
    case Waiting => 0
    case ExpirySaved(_, _) => 0
    case ExpiryTold(_) => 0
    case _ => 1
  }

  /** All queue entries, copies in any goroutine's hand, and unanswered dispatches. */
  function Copies(s: Core): int {
    |s.queue| + SchedCopies(s) + Sum(ConnCopies, s.conns) + Sum(SubCopies, s.subs)
  }

  function Cleanups(s: Core): int { Sum(CleanupBegun, s.conns) }

  function UnfinishedTasks(s: Core): set<TaskId> {
    set t | t in s.rows && !s.rows[t].status.Finished()
  }

  /** The inductive form: a cleanup pays for its extra copy when it scans. */
  function Load(s: Core): int {
    |s.queue| + SchedCopies(s) + Sum(NetCopies, s.conns) + Sum(SubCopies, s.subs)
  }

  predicate Bounded(s: Core) { Load(s) <= |UnfinishedTasks(s)| }

  // ---------------------------------------------------------- preservation

  lemma SameUnfinished(s: Core, s': Core)
    requires forall t :: t in s.rows <==> t in s'.rows
    requires forall t :: t in s.rows ==> s.rows[t].status.Finished() == s'.rows[t].status.Finished()
    ensures |UnfinishedTasks(s')| == |UnfinishedTasks(s)|
  {
    assert UnfinishedTasks(s') == UnfinishedTasks(s);
  }

  lemma OneLess(s: Core, s': Core, t: TaskId)
    requires Unfinished(s, t) && s'.rows.Keys == s.rows.Keys && !Unfinished(s', t)
    requires forall u :: u in s.rows && u != t ==> s'.rows[u] == s.rows[u]
    ensures |UnfinishedTasks(s')| == |UnfinishedTasks(s)| - 1
  {
    assert UnfinishedTasks(s) == UnfinishedTasks(s') + {t};
  }

  lemma SubmitKeepsBound(s: Core, step: SubmitStep)
    requires Inv(s) && Bounded(s) && SubmitEnabled(s, step)
    ensures Bounded(SubmitApply(s, step))
  {
    var s' := SubmitApply(s, step);
    match step
    case DStartSubmit(p, tier, n) =>
      SumAppend(SubCopies, s.subs, Submitter(p, tier, n, None));
      SameUnfinished(s, s');
    case DCreateTask(i, t) =>
      SumChange(SubCopies, s.subs, s'.subs, i);
      assert UnfinishedTasks(s') == UnfinishedTasks(s) + {t};
    case DPushTask(i) =>
      SumChange(SubCopies, s.subs, s'.subs, i);
      SameUnfinished(s, s');
  }

  predicate OnlyConn(s: Core, s': Core, c: ConnId) {
    c < |s.conns| == |s'.conns| && forall i :: 0 <= i < |s.conns| && i != c ==> s'.conns[i] == s.conns[i]
  }

  /** What a reply step takes out of circulation. */
  lemma ReplyBalance(s: Core, c: ConnId, step: ReplyStep)
    requires ReplyEnabled(s, c, step) && ConnOk(s, c)
    ensures var s' := ReplyApply(s, c, step);
            && OnlyConn(s, s', c) && s'.sched == s.sched && s'.subs == s.subs && s'.queue == s.queue
            && NetCopies(s'.conns[c]) == NetCopies(s.conns[c]) - if step.DSaveReply? then 1 else 0
  {
  }

  lemma ReplyFinishesAtMostOne(s: Core, c: ConnId, step: ReplyStep)
    requires Inv(s) && ReplyEnabled(s, c, step)
    ensures |UnfinishedTasks(ReplyApply(s, c, step))| == |UnfinishedTasks(s)| - if step.DSaveReply? then 1 else 0
  {
    assert ConnOk(s, c);
    var s' := ReplyApply(s, c, step);
    if step.DSaveReply? { OneLess(s, s', s.conns[c].pc.task); } else { SameUnfinished(s, s'); }
  }

  lemma ReplyKeepsBound(s: Core, c: ConnId, step: ReplyStep)
    requires Inv(s) && Bounded(s) && ReplyEnabled(s, c, step)
    ensures Bounded(ReplyApply(s, c, step))
  {
    assert ConnOk(s, c);
    ReplyBalance(s, c, step);
    ReplyFinishesAtMostOne(s, c, step);
    SumChange(NetCopies, s.conns, ReplyApply(s, c, step).conns, c);
  }

  lemma CleanupFinishesNone(s: Core, c: ConnId, step: CleanupStep)
    requires Inv(s) && CleanupEnabled(s, c, step)
    ensures |UnfinishedTasks(CleanupApply(s, c, step))| == |UnfinishedTasks(s)|
  {
    assert ConnOk(s, c);
    SameUnfinished(s, CleanupApply(s, c, step));
  }

  /** What a cleanup step moves between its connection and the queue. */
  lemma CleanupBalance(s: Core, c: ConnId, step: CleanupStep)
    requires CleanupEnabled(s, c, step)
    requires step.DScan? ==> |step.list| <= 1
    ensures var s' := CleanupApply(s, c, step);
            && OnlyConn(s, s', c) && s'.sched == s.sched && s'.subs == s.subs
            && |s'.queue| + NetCopies(s'.conns[c]) <= |s.queue| + NetCopies(s.conns[c])
  {
  }

  lemma CleanupKeepsBound(s: Core, c: ConnId, step: CleanupStep)
    requires Inv(s) && Bounded(s) && CleanupEnabled(s, c, step)
    ensures Bounded(CleanupApply(s, c, step))
  {
    if step.DScan? { ScanTakesOneTask(s, c, step.list); }
    CleanupBalance(s, c, step);
    CleanupFinishesNone(s, c, step);
    SumChange(NetCopies, s.conns, CleanupApply(s, c, step).conns, c);
  }

  lemma MatchKeepsBound(s: Core, step: MatchStep)
    requires Inv(s) && Bounded(s) && MatchEnabled(s, step)
    ensures Bounded(MatchApply(s, step))
  {
    var s' := MatchApply(s, step);
    if step.DMatch? { SumChange(NetCopies, s.conns, s'.conns, s.workers[step.w]); }
    if step.DExpire? { OneLess(s, s', s.sched.task); } else { SameUnfinished(s, s'); }
  }

  /** Clearing a Busy flag moves no copy. */
  lemma IdleSendKeepsCopies(s: Core)
    requires Inv(s) && CanIdleSend(s)
    ensures Sum(NetCopies, IdleSend(s).conns) == Sum(NetCopies, s.conns)
  {
    var w := s.conns[s.sched.target].worker;
    assert WorkerOk(s, w);
    if w in s.workers { SumChange(NetCopies, s.conns, IdleSend(s).conns, s.workers[w]); }
  }

  lemma DispatchFinishesNone(s: Core, step: DispatchStep)
    requires Inv(s) && DispatchEnabled(s, step)
    ensures |UnfinishedTasks(DispatchApply(s, step))| == |UnfinishedTasks(s)|
  {
    SameUnfinished(s, DispatchApply(s, step));
  }

  lemma DispatchKeepsBound(s: Core, step: DispatchStep)
    requires Inv(s) && Bounded(s) && DispatchEnabled(s, step)
    ensures Bounded(DispatchApply(s, step))
  {
    DispatchFinishesNone(s, step);
    if step.DSend? { SumChange(NetCopies, s.conns, Send(s).conns, s.sched.target); }
    if step.DIdleSend? { IdleSendKeepsCopies(s); }
  }

  lemma JoinKeepsBound(s: Core, w: WorkerId, tier: int)
    requires Bounded(s)
    ensures Bounded(Register(s, w, tier))
  {
    SumAppend(NetCopies, s.conns, Register(s, w, tier).conns[|s.conns|]);
    SameUnfinished(s, Register(s, w, tier));
  }

  lemma StepKeepsBound(s: Core, step: Step)
    requires Inv(s) && Bounded(s) && Enabled(s, step)
    ensures Bounded(Apply(s, step))
  {
    match step
    case Clock(d) => SameUnfinished(s, Tick(s, d));
    case Submission(u) => SubmitKeepsBound(s, u);
    case Joining(w, tier) => JoinKeepsBound(s, w, tier);
    case Replying(c, u) => ReplyKeepsBound(s, c, u);
    case CleaningUp(c, u) => CleanupKeepsBound(s, c, u);
    case Matchmaking(u) => MatchKeepsBound(s, u);
    case Dispatching(u) => DispatchKeepsBound(s, u);
  }

  lemma {:induction false} RunKeepsBound(s: Core, steps: seq<Step>)
    requires Inv(s) && Bounded(s) && CanRun(s, steps)
    ensures Bounded(RunFrom(s, steps))
    decreases |steps|
  {
    if steps != [] {
      StepKeepsInv(s, steps[0]);
      StepKeepsBound(s, steps[0]);
      RunKeepsBound(Apply(s, steps[0]), steps[1..]);
    }
  }

  // --------------------------------------------------------------- theorems

  /** In every reachable state the copies in circulation are at most the unfinished tasks plus the cleanups begun. */
  lemma DuplicationIsBounded(s: Core)
    requires Reachable(s)
    ensures Copies(s) <= |UnfinishedTasks(s)| + Cleanups(s)
  {
    var now, steps :| CanRun(Init(now), steps) && RunFrom(Init(now), steps) == s;
    RunKeepsInv(Init(now), steps);
    RunKeepsBound(Init(now), steps);
    SumBelow(ConnCopies, NetCopies, CleanupBegun, s.conns);
  }

  /** Somebody is about to send a task into the queue. */
  ghost predicate AboutToPush(s: Core) {
    || s.sched.Requeuing?
    || (exists i :: 0 <= i < |s.subs| && s.subs[i].hand.Some?)
    || (exists c :: 0 <= c < |s.conns| && s.conns[c].pc.RequeuePush?)
  }

  lemma {:induction false} SumAtLeast<T>(f: T -> int, ks: seq<T>, i: nat)
    requires i < |ks| && forall k :: f(k) >= 0
    ensures Sum(f, ks) >= f(ks[i])
  {
    SumNonNegative(f, ks[..|ks| - 1]);
    if i < |ks| - 1 { SumAtLeast(f, ks[..|ks| - 1], i); }
  }

  lemma {:induction false} SumNonNegative<T>(f: T -> int, ks: seq<T>)
    requires forall k :: f(k) >= 0
    ensures Sum(f, ks) >= 0
  {
    if ks != [] { SumNonNegative(f, ks[..|ks| - 1]); }
  }

  /** While unfinished tasks and cleanups together number at most the queue's capacity, no send blocks. */
  lemma SendsDoNotBlock(s: Core)
    requires Reachable(s) && AboutToPush(s)
    requires |UnfinishedTasks(s)| + Cleanups(s) <= 1000
    ensures HasRoom(s)
  {
    DuplicationIsBounded(s);
    ReachableInv(s);
    SumNonNegative(ConnCopies, s.conns);
    SumNonNegative(SubCopies, s.subs);
    if i :| 0 <= i < |s.subs| && s.subs[i].hand.Some? {
      SumAtLeast(SubCopies, s.subs, i);
    } else if c :| 0 <= c < |s.conns| && s.conns[c].pc.RequeuePush? {
      assert ConnOk(s, c);
      SumAtLeast(ConnCopies, s.conns, c);
    }
  }
}
