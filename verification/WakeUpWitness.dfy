/** A concrete run in which a status request registers too late to be woken. */
module WakeUpWitness {
  import opened Wrappers
  import opened BrokerCore
  import opened BrokerInvariant
  import opened BrokerWitness
  import opened Waiters
  import opened LongPoll
  import opened PollReplies
  import opened WakeUps

  /** The broker with no status request around. */
  function Alone(s: Core): Sys { Sys(s, [], map[]) }

  function AsActs(steps: seq<Step>): seq<SysStep> {
    if steps == [] then [] else [Act(steps[0])] + AsActs(steps[1..])
  }

  lemma {:induction false} RunAlone(s: Core, steps: seq<Step>)
    requires CanRun(s, steps)
    ensures CanDo(Alone(s), AsActs(steps)) && DoAll(Alone(s), AsActs(steps)) == Alone(RunFrom(s, steps))
    decreases |steps|
  {
    if steps != [] {
      RunAlone(Apply(s, steps[0]), steps[1..]);
      assert Do(Alone(s), Act(steps[0])) == Alone(Apply(s, steps[0]));
      assert AsActs(steps)[1..] == AsActs(steps[1..]);
    }
  }

  lemma AloneIsReachable(s: Core)
    requires Reachable(s)
    ensures SysReachable(Alone(s))
  {
    var now, steps :| CanRun(Init(now), steps) && RunFrom(Init(now), steps) == s;
    RunAlone(Init(now), steps);
    assert CanDo(SysInit(now), AsActs(steps));
  }

  /** A request for task 1 has read the row while the task was running, and has not registered yet. */
  lemma ReadTooEarly() returns (s: Sys)
    ensures SysReachable(s) && |s.reqs| == 1 && s.waiters == map[]
    ensures s.reqs[0].key == TaskKey(1) && s.reqs[0].pc.Unready? && s.reqs[0].closes == 0
    ensures s.core.sched.Waiting? && s.core.lock == None && 1 in s.core.rows && IsRunning(s.core, 1)
    ensures s.core.workers == map["worker-8" := 0]
    ensures s.core.conns == [Conn("worker-8", 2, true, [1], Reading)]
  {
    var core := OneDispatch("worker-8");
    AloneIsReachable(core);
    s := Alone(core);
    SysReachStep(s, Ask(TaskKey(1)));
    s := Do(s, Ask(TaskKey(1)));
    SysReachStep(s, Read(0, [1]));
    s := Do(s, Read(0, [1]));
    assert Select(core.rows, [1])[0].1 == core.rows[1];
  }

  /** The only worker's handler takes one step. */
  lemma HandlerStep(s: Sys, u: ReplyStep) returns (s': Sys)
    requires SysReachable(s) && s.waiters == map[] && ReplyEnabled(s.core, 0, u)
    ensures SysReachable(s') && s'.core == ReplyApply(s.core, 0, u) && s'.waiters == map[]
    ensures s'.reqs == s.reqs
  {
    SysReachStep(s, Act(Replying(0, u)));
    s' := Do(s, Act(Replying(0, u)));
    assert s'.reqs == s.reqs;
  }

  /** ... and meanwhile the task has finished and been announced. */
  lemma AnnouncedTooEarly() returns (s: Sys)
    ensures SysReachable(s) && |s.reqs| == 1 && s.reqs[0].key == TaskKey(1) && s.reqs[0].pc.Unready?
    ensures s.reqs[0].closes == 0 && s.waiters == map[] && s.core.sched.Waiting? && FinishedIn(s.core.rows, 1)
    ensures |s.core.conns| == 1 && s.core.conns[0].pc.Told?
  {
    s := ReadTooEarly();
    s := HandlerStep(s, DReadReply(0, NO_ANSWER));
    s := HandlerStep(s, DReadParent);
    s := HandlerStep(s, DUnmapReply);
    s := HandlerStep(s, DIdleReply);
    s := HandlerStep(s, DSaveReply);
    s := HandlerStep(s, DTellTask);
  }

  /** The request now registers, and sleeps although its task is finished and nobody will announce it again. */
  lemma LateRegistrationIsNotWoken() returns (s: Sys)
    ensures SysReachable(s) && Unwoken(s, 0) && s.reqs[0].key == TaskKey(1)
    ensures FinishedIn(s.core.rows, 1) && !Coming(s.core, TaskKey(1))
  {
    s := AnnouncedTooEarly();
    SysReachStep(s, Join(0));
    s := Do(s, Join(0));
    forall c: ConnId | At(s.core, c) ensures !WillTell(s.core.conns[c].pc, TaskKey(1)) { }
  }
}
