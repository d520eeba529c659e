/** Busy flags: a worker is kept busy only by work, so no worker is lost to the scheduler. */
module BrokerBusy {
  import opened BrokerCore
  import opened BrokerInvariant
  import opened BrokerKept
  import opened BrokerSafety

  /** A dispatch is under way to `c`, unanswered on it, or its reply is still to clear the flag. */
  predicate Occupied(s: Core, c: ConnId)
    requires At(s, c)
  {
    var k := s.conns[c];
    || k.unanswered != []
    || k.pc.GotReply? || k.pc.GotParent? || k.pc.ReplyUnmapped?
    || (HasTarget(s) && s.sched.target == c)
  }

  predicate BusyOk(s: Core, c: ConnId) {
    At(s, c) && Registered(s.conns[c].pc) && s.conns[c].busy ==> Occupied(s, c)
  }

  ghost predicate BusyInv(s: Core) { forall c: ConnId :: BusyOk(s, c) }

  lemma ReplyKeepsBusy(s: Core, c: ConnId, step: ReplyStep)
    requires Inv(s) && BusyInv(s) && ReplyEnabled(s, c, step)
    ensures BusyInv(ReplyApply(s, c, step))
  {
    assert ConnOk(s, c);
    forall e: ConnId ensures BusyOk(ReplyApply(s, c, step), e) { assert BusyOk(s, e); }
  }

  lemma CleanupKeepsBusy(s: Core, c: ConnId, step: CleanupStep)
    requires BusyInv(s) && CleanupEnabled(s, c, step)
    ensures BusyInv(CleanupApply(s, c, step))
  {
    forall e: ConnId ensures BusyOk(CleanupApply(s, c, step), e) { assert BusyOk(s, e); }
  }

  lemma MatchKeepsBusy(s: Core, step: MatchStep)
    requires BusyInv(s) && MatchEnabled(s, step)
    ensures BusyInv(MatchApply(s, step))
  {
    forall e: ConnId ensures BusyOk(MatchApply(s, step), e) { assert BusyOk(s, e); }
  }

  lemma DispatchKeepsBusy(s: Core, step: DispatchStep)
    requires Inv(s) && BusyInv(s) && DispatchEnabled(s, step)
    ensures BusyInv(DispatchApply(s, step))
  {
    if HasTarget(s) { assert ConnOk(s, s.sched.target); }
    forall e: ConnId ensures BusyOk(DispatchApply(s, step), e) { assert BusyOk(s, e); }
  }

  lemma StepKeepsBusy(s: Core, step: Step)
    requires Inv(s) && BusyInv(s) && Enabled(s, step)
    ensures BusyInv(Apply(s, step))
  {
    match step
    case Replying(c, u) => ReplyKeepsBusy(s, c, u);
    case CleaningUp(c, u) => CleanupKeepsBusy(s, c, u);
    case Matchmaking(u) => MatchKeepsBusy(s, u);
    case Dispatching(u) => DispatchKeepsBusy(s, u);
    case _ =>
      forall e: ConnId ensures BusyOk(Apply(s, step), e) { assert BusyOk(s, e); }
  }

  lemma {:induction false} RunKeepsBusy(s: Core, steps: seq<Step>)
    requires Inv(s) && BusyInv(s) && CanRun(s, steps)
    ensures BusyInv(RunFrom(s, steps))
    decreases |steps|
  {
    if steps != [] {
      StepKeepsInv(s, steps[0]);
      StepKeepsBusy(s, steps[0]);
      RunKeepsBusy(Apply(s, steps[0]), steps[1..]);
    }
  }

  /** In every reachable state a registered worker that is busy has work, or is about to get it. */
  lemma BusyMeansOccupied(s: Core, c: ConnId)
    requires Reachable(s) && At(s, c) && Registered(s.conns[c].pc) && s.conns[c].busy
    ensures Occupied(s, c)
  {
    var now, steps :| CanRun(Init(now), steps) && RunFrom(Init(now), steps) == s;
    RunKeepsInv(Init(now), steps);
    RunKeepsBusy(Init(now), steps);
    assert BusyOk(s, c);
  }

  /** When nothing is in motion, a registered worker is busy if and only if an unfinished task is mapped to it. */
  lemma QuietWorkersAreBusyIff(s: Core, c: ConnId)
    requires Reachable(s) && Quiet(s) && At(s, c) && Registered(s.conns[c].pc)
    ensures s.conns[c].busy <==>
            exists t :: Unfinished(s, t) && t in s.active && s.active[t] == s.conns[c].worker
  {
    ReachableInv(s);
    assert ConnOk(s, c);
    if s.conns[c].busy {
      BusyMeansOccupied(s, c);
      assert Unfinished(s, s.conns[c].unanswered[0]);
    } else {
      IdleWorkerIsMappedIff(s, c);
    }
  }
}
