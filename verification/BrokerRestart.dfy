/**
 Restarting the broker.  The table survives, the queue and activeTasks do not: what
 an earlier process left unfinished is never touched again.
 */
module BrokerRestart {
  import opened Wrappers
  import opened BrokerCore

  /** A new process that opens the table of an earlier one. */
  function Restart(rows: map<TaskId, Row>, now: int): Core { Init(now).(rows := rows) }

  predicate ConnKnows(k: Conn, t: TaskId) {
    || t in k.unanswered
    || (Answering(k.pc) && k.pc.task == t)
    || (k.pc.Saved? && k.pc.task == t)
    || (HoldsLock(k.pc) && t in k.pc.todo)
  }

  predicate SchedKnows(sched: SchedPc, t: TaskId) {
    match sched
    case Waiting => false
    case ExpiryTold(_) => false
    case _ => sched.task == t
  }

  /** No goroutine and no shared structure knows of the task. */
  predicate Forgotten(s: Core, t: TaskId) {
    && t in s.rows && t !in s.queue && t !in s.active && !SchedKnows(s.sched, t)
    && (forall i :: 0 <= i < |s.subs| ==> s.subs[i].hand != Some(t))
    && (forall c :: 0 <= c < |s.conns| ==> !ConnKnows(s.conns[c], t))
  }

  predicate Untouched(s: Core, s': Core, t: TaskId) { Forgotten(s', t) && t in s.rows && s'.rows[t] == s.rows[t] }

  lemma SubmitForgets(s: Core, step: SubmitStep, t: TaskId)
    requires SubmitEnabled(s, step) && Forgotten(s, t)
    ensures Untouched(s, SubmitApply(s, step), t)
  {
  }

  lemma ReplyForgets(s: Core, c: ConnId, step: ReplyStep, t: TaskId)
    requires ReplyEnabled(s, c, step) && Forgotten(s, t)
    ensures Untouched(s, ReplyApply(s, c, step), t)
  {
    assert !ConnKnows(s.conns[c], t);
  }

  lemma CleanupForgets(s: Core, c: ConnId, step: CleanupStep, t: TaskId)
    requires CleanupEnabled(s, c, step) && Forgotten(s, t)
    ensures Untouched(s, CleanupApply(s, c, step), t)
  {
    assert !ConnKnows(s.conns[c], t);
    if step.DScan? { assert t !in MappedTo(s, s.conns[c].worker); }
  }

  lemma MatchForgets(s: Core, step: MatchStep, t: TaskId)
    requires MatchEnabled(s, step) && Forgotten(s, t)
    ensures Untouched(s, MatchApply(s, step), t)
  {
  }

  lemma DispatchForgets(s: Core, step: DispatchStep, t: TaskId)
    requires DispatchEnabled(s, step) && Forgotten(s, t)
    ensures Untouched(s, DispatchApply(s, step), t)
  {
  }

  lemma {:induction false} ForgottenForever(s: Core, steps: seq<Step>, t: TaskId)
    requires CanRun(s, steps) && Forgotten(s, t)
    ensures Untouched(s, RunFrom(s, steps), t)
    decreases |steps|
  {
    if steps != [] {
      match steps[0] {
        case Clock(_) =>
        case Submission(u) => SubmitForgets(s, u, t);
        case Joining(_, _) =>
        case Replying(c, u) => ReplyForgets(s, c, u, t);
        case CleaningUp(c, u) => CleanupForgets(s, c, u, t);
        case Matchmaking(u) => MatchForgets(s, u, t);
        case Dispatching(u) => DispatchForgets(s, u, t);
      }
      ForgottenForever(Apply(s, steps[0]), steps[1..], t);
    }
  }

  /** After a restart no run changes any row of the earlier process: what was pending or running stays so for good. */
  lemma RestartAbandonsTasks(rows: map<TaskId, Row>, now: int, steps: seq<Step>, t: TaskId)
    requires t in rows && CanRun(Restart(rows, now), steps)
    ensures var s := RunFrom(Restart(rows, now), steps);
            t in s.rows && s.rows[t] == rows[t] && t !in s.queue && t !in s.active
  {
    ForgottenForever(Restart(rows, now), steps, t);
  }
}
