/** Who gets a task, and how long it waits for a worker: tiers, creation times and the clock. */
module BrokerMatching {
  import opened BrokerCore
  import opened BrokerInvariant
  import opened BrokerKept
  import opened BrokerRuns
  import LongPoll

  // ------------------------------------------------------------------- tiers

  /**
   A worker that registers with a tier has that tier as long as the connection is
   remembered, and is sent only tasks of that tier or of any tier.
   */
  lemma RegisteredTierHolds(s: Core, w: WorkerId, tier: int, steps: seq<Step>)
    requires Reachable(s) && CanRegister(s, w) && CanRun(Apply(s, Joining(w, tier)), steps)
    ensures var s', c := RunFrom(Apply(s, Joining(w, tier)), steps), |s.conns|;
            && At(s', c) && s'.conns[c].worker == w && s'.conns[c].tier == tier
            && forall t :: t in s'.conns[c].unanswered ==>
                 t in s'.rows && (s'.rows[t].tier == 0 || s'.rows[t].tier == tier)
  {
    ReachableInv(s);
    StepKeepsInv(s, Joining(w, tier));
    var s1 := Apply(s, Joining(w, tier));
    WorkerStays(s1, steps, |s.conns|);
    RunKeepsInv(s1, steps);
    assert ConnOk(RunFrom(s1, steps), |s.conns|);
  }

  /** The scheduler can match the task it is searching for to connection `c`. */
  ghost predicate CanBeMatchedTo(s: Core, c: ConnId) {
    exists w :: CanMatch(s, w) && s.workers[w] == c
  }

  predicate IdleAndFitting(s: Core, c: ConnId, t: TaskId) {
    && At(s, c) && Registered(s.conns[c].pc) && !s.conns[c].busy
    && t in s.rows && (s.rows[t].tier == 0 || s.conns[c].tier == s.rows[t].tier)
  }

  /** Every registered idle worker that fits can get the task, and the scheduler sleeps only when there is none. */
  lemma ScanIsExact(s: Core)
    requires Reachable(s) && s.sched.Matching?
    ensures forall c: ConnId :: CanBeMatchedTo(s, c) <==> IdleAndFitting(s, c, s.sched.task)
    ensures CanNoMatch(s) <==> forall c: ConnId :: !IdleAndFitting(s, c, s.sched.task)
  {
    ReachableInv(s);
    forall c: ConnId ensures CanBeMatchedTo(s, c) <==> IdleAndFitting(s, c, s.sched.task) { MatchableIff(s, c); }
    if !CanNoMatch(s) {
      var w :| w in s.workers && Suits(s, w, s.sched.row.tier);
      assert CanMatch(s, w) && CanBeMatchedTo(s, s.workers[w]);
    }
  }

  lemma MatchableIff(s: Core, c: ConnId)
    requires Inv(s) && s.sched.Matching?
    ensures CanBeMatchedTo(s, c) <==> IdleAndFitting(s, c, s.sched.task)
  {
    if w :| CanMatch(s, w) && s.workers[w] == c { assert WorkerOk(s, w); }
    if IdleAndFitting(s, c, s.sched.task) {
      assert ConnOk(s, c);
      assert CanMatch(s, s.conns[c].worker);
    }
  }

  // ---------------------------------------------------------- creation times

  lemma CreationTimeIsNow(s: Core, step: Step, t: TaskId)
    requires Inv(s) && Enabled(s, step) && t !in s.rows && t in Apply(s, step).rows
    ensures Apply(s, step).rows[t].createdAt == s.now == Apply(s, step).now
  {
    if !step.Submission? { LongPoll.StepKeepsKeys(s, step); }
  }

  lemma TimePasses(s: Core, step: Step)
    requires Inv(s) && Enabled(s, step)
    ensures s.now <= Apply(s, step).now
  {
    if step.Matchmaking? || step.Dispatching? {
      StepKeepsMine(s, step, TheHandler(|s.conns|));
    } else {
      StepKeepsMine(s, step, TheScheduler);
    }
  }

  lemma {:induction false} ClockIsMonotone(s: Core, steps: seq<Step>)
    requires Inv(s) && CanRun(s, steps)
    ensures s.now <= RunFrom(s, steps).now
    decreases |steps|
  {
    if steps != [] {
      TimePasses(s, steps[0]);
      StepKeepsInv(s, steps[0]);
      ClockIsMonotone(Apply(s, steps[0]), steps[1..]);
    }
  }

  lemma {:induction false} CreationTimeStays(s: Core, steps: seq<Step>, t: TaskId)
    requires Inv(s) && CanRun(s, steps) && t in s.rows
    ensures t in RunFrom(s, steps).rows && RunFrom(s, steps).rows[t].createdAt == s.rows[t].createdAt
    decreases |steps|
  {
    if steps != [] {
      LongPoll.StepGrows(s, steps[0]);
      StepKeepsInv(s, steps[0]);
      CreationTimeStays(Apply(s, steps[0]), steps[1..], t);
    }
  }

  /** A task created during a run carries a clock reading of that run. */
  lemma {:induction false} CreatedInBetween(s: Core, steps: seq<Step>, t: TaskId)
    requires Inv(s) && CanRun(s, steps) && t !in s.rows && t in RunFrom(s, steps).rows
    ensures s.now <= RunFrom(s, steps).rows[t].createdAt <= RunFrom(s, steps).now
    decreases |steps|
  {
    if steps != [] {
      var s1 := Apply(s, steps[0]);
      TimePasses(s, steps[0]);
      StepKeepsInv(s, steps[0]);
      if t in s1.rows {
        CreationTimeIsNow(s, steps[0], t);
        CreationTimeStays(s1, steps[1..], t);
        ClockIsMonotone(s1, steps[1..]);
      } else {
        CreatedInBetween(s1, steps[1..], t);
      }
    }
  }

  // ----------------------------------------------------------------- expiry

  /** No run of at most thirty seconds fails a task for want of a worker that did not exist when it began. */
  lemma NoExpiryWithin30Seconds(s: Core, steps: seq<Step>, t: TaskId)
    requires Reachable(s) && CanRun(s, steps) && t !in s.rows
    requires RunFrom(s, steps).now - s.now <= 30_000_000_000
    ensures !(CanExpire(RunFrom(s, steps)) && RunFrom(s, steps).sched.task == t)
  {
    ReachableInv(s);
    RunKeepsInv(s, steps);
    if t in RunFrom(s, steps).rows { CreatedInBetween(s, steps, t); }
  }

  /** After a sleep the task is failed if it is older than thirty seconds, and searched for again otherwise. */
  lemma ExpiresAfter30Seconds(s: Core)
    requires Reachable(s) && s.sched.Rechecked?
    ensures var t, s' := s.sched.task, CheckAge(s);
            && t in s.rows && (s'.sched.Expiring? || s'.sched.Matching?) && s'.sched.task == t
            && (s'.sched.Expiring? <==> s.now - s.rows[t].createdAt > 30_000_000_000)
            && (s'.sched.Matching? <==> s.now - s.rows[t].createdAt <= 30_000_000_000)
  {
    ReachableInv(s);
  }

  lemma SleeperWaits(s: Core, step: Step)
    requires Inv(s) && Enabled(s, step) && s.sched.Sleeping? && Apply(s, step).now < s.sched.until
    ensures Apply(s, step).sched == s.sched
  {
    TimePasses(s, step);
    if !step.Matchmaking? && !step.Dispatching? { StepKeepsMine(s, step, TheScheduler); }
  }

  lemma {:induction false} SleepLasts(s: Core, steps: seq<Step>)
    requires Inv(s) && CanRun(s, steps) && s.sched.Sleeping? && RunFrom(s, steps).now < s.sched.until
    ensures RunFrom(s, steps).sched == s.sched
    decreases |steps|
  {
    if steps != [] {
      StepKeepsInv(s, steps[0]);
      ClockIsMonotone(Apply(s, steps[0]), steps[1..]);
      SleeperWaits(s, steps[0]);
      SleepLasts(Apply(s, steps[0]), steps[1..]);
    }
  }

  /** A search that came up empty is resumed after half a second, not before, and then it can be. */
  lemma EmptySearchSleeps(s: Core, steps: seq<Step>)
    requires Reachable(s) && CanNoMatch(s) && CanRun(NoMatch(s), steps)
    ensures var s' := RunFrom(NoMatch(s), steps);
            s'.now - s.now < 500_000_000 ==> s'.sched == NoMatch(s).sched
    ensures var s' := RunFrom(NoMatch(s), steps);
            s'.sched == NoMatch(s).sched ==> (CanRecheck(s') <==> s'.now - s.now >= 500_000_000)
  {
    ReachableInv(s);
    StepKeepsInv(s, Matchmaking(DNoMatch));
    if RunFrom(NoMatch(s), steps).now - s.now < 500_000_000 { SleepLasts(NoMatch(s), steps); }
  }
}
