/**
 Every step of every goroutine keeps the invariant of the task protocol.  For each
 kind of goroutine: what its steps do to one connection, to one task, and to the
 scheduler's own clause; the links between connections follow from a common frame.
 */
module BrokerKept {
  import opened Wrappers
  import opened BrokerCore
  import opened BrokerInvariant

  // ------------------------------------------------------------- common frame

  /** Connections keep their workers, nobody becomes busy, and no new dispatch target or mapping appears. */
  ghost predicate Calm(s: Core, s': Core) {
    && |s'.conns| == |s.conns| && s'.workers == s.workers
    && (forall c: ConnId :: At(s, c) ==> CalmConn(s.conns[c], s'.conns[c]))
    && (forall t :: t in s'.active ==> t in s.active && s'.active[t] == s.active[t])
    && (s'.lock.Some? ==> At(s', s'.lock.value))
    && (HasTarget(s') ==> HasTarget(s) && s'.sched.target == s.sched.target)
  }

  predicate CalmConn(k: Conn, k': Conn) {
    && k'.worker == k.worker && (k'.busy ==> k.busy)
    && (k.pc.Gone? ==> k'.pc.Gone?) && Registered(k'.pc) == Registered(k.pc)
  }

  lemma LinksStay(s: Core, s': Core)
    requires LinksInv(s) && Calm(s, s') && SchedOk(s')
    requires forall i: nat :: SubOk(s', i)
    ensures LinksInv(s')
  {
    forall d: ConnId, e: ConnId ensures Apart(s', d, e) { assert Apart(s, d, e); }
    forall w: WorkerId ensures WorkerOk(s', w) { assert WorkerOk(s, w); }
    forall t: TaskId, u: TaskId ensures Injective(s', t, u) { assert Injective(s, t, u); }
  }

  lemma SubsStay(s: Core, s': Core)
    requires LinksInv(s) && s'.subs == s.subs && s.rows.Keys <= s'.rows.Keys
    ensures forall i: nat :: SubOk(s', i)
  {
    forall i: nat ensures SubOk(s', i) { assert SubOk(s, i); }
  }

  lemma MappedTwice(s: Core, w: WorkerId, t: TaskId, u: TaskId)
    requires Inv(s) && t in MappedTo(s, w) && u in MappedTo(s, w)
    ensures t == u
  {
    assert Injective(s, t, u);
  }

  /** The disconnect scan finds at most one task, and nobody else answers for it any more. */
  lemma ScanTakesOneTask(s: Core, c: ConnId, list: seq<TaskId>)
    requires Inv(s) && CanScan(s, c, list)
    ensures |list| <= 1
    ensures list != [] ==>
              var t := list[0];
              && Unfinished(s, t) && t in s.active && s.active[t] == s.conns[c].worker
              && Contested(s, t, s.conns[c].worker)
              && (forall e: ConnId :: At(s, e) && e != c ==> !Keeps(s.conns[e], t) || s.conns[e].pc.Closed?)
              && (forall e: ConnId :: At(s, e) ==> !Finishes(s.conns[e], t))
  {
    if |list| >= 2 { MappedTwice(s, s.conns[c].worker, list[0], list[1]); }
    if list != [] {
      var t := list[0];
      assert t in MappedTo(s, s.conns[c].worker);
      assert TaskOk(s, t);
      forall e: ConnId | At(s, e)
        ensures e != c ==> !Keeps(s.conns[e], t) || s.conns[e].pc.Closed?
        ensures !Finishes(s.conns[e], t)
      {
        assert ConnOk(s, e) && Apart(s, c, e);
      }
    }
  }

  lemma SendIdledFrame(s: Core, e: ConnId)
    requires s.sched.SendUnmapped? && At(s, e) && ConnOk(s, e)
    ensures ConnOk(s.(sched := SendIdled(s.sched.task)), e)
  {
  }

  lemma IdleFrame(s: Core, e: ConnId)
    requires At(s, e) && ConnOk(s, e) && s.conns[e].unanswered == []
    requires !(s.conns[e].pc.GotReply? || s.conns[e].pc.GotParent? || s.conns[e].pc.ReplyUnmapped?)
    ensures ConnOk(s.(conns := s.conns[e := s.conns[e].(busy := false)]), e)
  {
  }

  /** A step that does not change what the scheduler holds changes no connection's clauses. */
  lemma SchedFrame(s: Core, s': Core, e: ConnId)
    requires At(s, e) && ConnOk(s, e)
    requires s' == s.(sched := s'.sched, queue := s'.queue, taken := s'.taken)
    requires forall t :: SchedHolds(s', t) == SchedHolds(s, t) && !SchedMid(s', t) && !SchedMid(s, t)
    ensures ConnOk(s', e)
  {
  }

  /** The scheduler's clause looks at one connection only, its target. */
  lemma TargetFrame(s: Core, s': Core, k: Conn, c: ConnId)
    requires At(s, c) && SchedOk(s)
    requires s' == s.(conns := s.conns[c := k], queue := s'.queue, pushed := s'.pushed, lock := s'.lock)
    requires HasTarget(s) && s.sched.target == c ==>
               && k.worker == s.conns[c].worker && k.tier == s.conns[c].tier && k.busy == s.conns[c].busy
               && k.unanswered == s.conns[c].unanswered && (Open(k.pc) ==> Open(s.conns[c].pc))
               && !(k.pc.GotReply? || k.pc.GotParent? || k.pc.ReplyUnmapped?)
    ensures SchedOk(s')
  {
  }

  /** A step that changes another connection's record, and at most pushes, changes nothing for this one. */
  lemma OtherFrame(s: Core, s': Core, k: Conn, c: ConnId, e: ConnId)
    requires At(s, c) && At(s, e) && e != c && ConnOk(s, e)
    requires HasTarget(s) ==> At(s, s.sched.target)
    requires k.worker == s.conns[c].worker
    requires s' == s.(conns := s.conns[c := k], queue := s'.queue, pushed := s'.pushed)
    ensures ConnOk(s', e)
  {
  }

  /** Clearing Busy after a failed write hits a connection with nothing outstanding. */
  lemma IdlingTouchesNobody(s: Core)
    requires Inv(s) && CanIdleSend(s)
    ensures var w := s.conns[s.sched.target].worker;
            w in s.workers ==>
              && At(s, s.workers[w])
              && (var k := s.conns[s.workers[w]];
                  k.unanswered == [] && !(k.pc.GotReply? || k.pc.GotParent? || k.pc.ReplyUnmapped?))
  {
    var c := s.sched.target;
    var w := s.conns[c].worker;
    assert WorkerOk(s, w);
    if w in s.workers && s.workers[w] != c {
      assert Apart(s, c, s.workers[w]) && ConnOk(s, s.workers[w]);
    }
  }

  // ------------------------------------------------------------- reply loop

  lemma SaveKeepsConn(s: Core, c: ConnId, e: ConnId)
    requires CanSaveReply(s, c) && At(s, e) && ConnOk(s, c) && ConnOk(s, e) && Apart(s, c, e)
    ensures ConnOk(SaveReply(s, c), e)
  {
    ToldStays(s.rows, SaveReply(s, c).rows);
  }

  lemma ReplyKeepsOwn(s: Core, c: ConnId, step: ReplyStep)
    requires ReplyEnabled(s, c, step) && !step.DSaveReply? && ConnOk(s, c)
    ensures ConnOk(ReplyApply(s, c, step), c)
  {
  }

  lemma IdleKeepsOther(s: Core, c: ConnId, e: ConnId)
    requires CanIdleReply(s, c) && At(s, e) && e != c && ConnOk(s, c) && ConnOk(s, e)
    requires HasTarget(s) ==> At(s, s.sched.target)
    ensures ConnOk(IdleReply(s, c), e)
  {
    var s' := IdleReply(s, c);
    OtherFrame(s, s', s'.conns[c], c, e);
  }

  lemma UnmapKeepsOther(s: Core, c: ConnId, e: ConnId)
    requires CanUnmapReply(s, c) && At(s, e) && e != c && ConnOk(s, c) && ConnOk(s, e)
    ensures ConnOk(UnmapReply(s, c), e)
  {
  }

  lemma ReplyKeepsOther(s: Core, c: ConnId, step: ReplyStep, e: ConnId)
    requires ReplyEnabled(s, c, step) && !step.DSaveReply? && !step.DIdleReply? && !step.DUnmapReply?
    requires At(s, e) && e != c && ConnOk(s, e) && (HasTarget(s) ==> At(s, s.sched.target))
    ensures ConnOk(ReplyApply(s, c, step), e)
  {
    var s' := ReplyApply(s, c, step);
    OtherFrame(s, s', s'.conns[c], c, e);
  }

  lemma SaveKeepsTask(s: Core, c: ConnId, t: TaskId)
    requires CanSaveReply(s, c) && ConnOk(s, c) && TaskOk(s, t)
    ensures TaskOk(SaveReply(s, c), t)
  {
  }

  lemma ReplyKeepsTask(s: Core, c: ConnId, step: ReplyStep, t: TaskId)
    requires ReplyEnabled(s, c, step) && !step.DSaveReply? && ConnOk(s, c) && TaskOk(s, t)
    ensures TaskOk(ReplyApply(s, c, step), t)
  {
  }

  lemma SaveKeepsSched(s: Core, c: ConnId)
    requires CanSaveReply(s, c) && ConnOk(s, c) && SchedOk(s)
    ensures SchedOk(SaveReply(s, c))
  {
    ToldStays(s.rows, SaveReply(s, c).rows);
  }

  lemma IdleKeepsSched(s: Core, c: ConnId)
    requires CanIdleReply(s, c) && ConnOk(s, c) && SchedOk(s)
    ensures SchedOk(IdleReply(s, c))
  {
  }

  lemma ReplyKeepsSched(s: Core, c: ConnId, step: ReplyStep)
    requires ReplyEnabled(s, c, step) && !step.DSaveReply? && !step.DIdleReply? && ConnOk(s, c) && SchedOk(s)
    ensures SchedOk(ReplyApply(s, c, step))
  {
  }

  lemma IdleIsCalm(s: Core, c: ConnId)
    requires LinksInv(s) && CanIdleReply(s, c)
    ensures var s' := IdleReply(s, c);
            Calm(s, s') && s'.subs == s.subs && s'.rows == s.rows
  {
  }

  lemma ReplyIsCalm(s: Core, c: ConnId, step: ReplyStep)
    requires LinksInv(s) && ReplyEnabled(s, c, step) && !step.DIdleReply?
    ensures var s' := ReplyApply(s, c, step);
            Calm(s, s') && s'.subs == s.subs && s'.rows.Keys == s.rows.Keys
  {
  }

  lemma ReplyKeepsConns(s: Core, c: ConnId, step: ReplyStep)
    requires Inv(s) && ReplyEnabled(s, c, step)
    ensures ConnsInv(ReplyApply(s, c, step))
  {
    var s' := ReplyApply(s, c, step);
    assert |s'.conns| == |s.conns|;
    forall e: ConnId | At(s', e) ensures ConnOk(s', e) {
      assert ConnOk(s, c) && ConnOk(s, e) && Apart(s, c, e);
      if step.DSaveReply? {
        SaveKeepsConn(s, c, e);
      } else if e == c {
        ReplyKeepsOwn(s, c, step);
      } else if step.DIdleReply? {
        IdleKeepsOther(s, c, e);
      } else if step.DUnmapReply? {
        UnmapKeepsOther(s, c, e);
      } else {
        ReplyKeepsOther(s, c, step, e);
      }
    }
  }

  lemma ReplyKeepsInv(s: Core, c: ConnId, step: ReplyStep)
    requires Inv(s) && ReplyEnabled(s, c, step)
    ensures Inv(ReplyApply(s, c, step))
  {
    var s' := ReplyApply(s, c, step);
    assert ConnOk(s, c);
    ReplyKeepsConns(s, c, step);
    if step.DIdleReply? { IdleIsCalm(s, c); } else { ReplyIsCalm(s, c, step); }
    match step {
      case DSaveReply => SaveKeepsSched(s, c);
      case DIdleReply => IdleKeepsSched(s, c);
      case _ => ReplyKeepsSched(s, c, step);
    }
    SubsStay(s, s');
    LinksStay(s, s');
    forall t: TaskId ensures TaskOk(s', t) {
      assert TaskOk(s, t);
      if step.DSaveReply? { SaveKeepsTask(s, c, t); } else { ReplyKeepsTask(s, c, step, t); }
    }
  }

  // ----------------------------------------------------------------- cleanup

  lemma CleanupKeepsOwn(s: Core, c: ConnId, step: CleanupStep)
    requires CleanupEnabled(s, c, step) && !step.DScan? && ConnOk(s, c)
    ensures ConnOk(CleanupApply(s, c, step), c)
  {
  }

  predicate Requeues(step: CleanupStep) { step.DUnmapLost? || step.DMarkLost? || step.DPushLost? || step.DUnlock? }

  lemma UnregisterKeepsOther(s: Core, c: ConnId, e: ConnId)
    requires CanUnregister(s, c) && At(s, e) && e != c && ConnOk(s, c) && ConnOk(s, e) && Apart(s, c, e)
    ensures ConnOk(Unregister(s, c), e)
  {
  }

  lemma DepartureKeepsOther(s: Core, c: ConnId, step: CleanupStep, e: ConnId)
    requires CleanupEnabled(s, c, step) && (step.DReadError? || step.DClose? || step.DPushLost?)
    requires At(s, e) && e != c && ConnOk(s, e) && (HasTarget(s) ==> At(s, s.sched.target))
    ensures ConnOk(CleanupApply(s, c, step), e)
  {
    var s' := CleanupApply(s, c, step);
    OtherFrame(s, s', s'.conns[c], c, e);
  }

  lemma RequeueKeepsOther(s: Core, c: ConnId, step: CleanupStep, e: ConnId)
    requires CleanupEnabled(s, c, step) && Requeues(step) && !step.DPushLost? && At(s, e) && e != c
    requires ConnOk(s, c) && ConnOk(s, e) && Apart(s, c, e)
    ensures ConnOk(CleanupApply(s, c, step), e)
  {
    if step.DMarkLost? { ToldStays(s.rows, CleanupApply(s, c, step).rows); }
  }

  lemma DepartureKeepsTask(s: Core, c: ConnId, step: CleanupStep, t: TaskId)
    requires CleanupEnabled(s, c, step) && !Requeues(step) && !step.DScan? && ConnOk(s, c) && TaskOk(s, t)
    ensures TaskOk(CleanupApply(s, c, step), t)
  {
  }

  lemma RequeueKeepsTask(s: Core, c: ConnId, step: CleanupStep, t: TaskId)
    requires CleanupEnabled(s, c, step) && Requeues(step) && ConnOk(s, c) && TaskOk(s, t)
    ensures TaskOk(CleanupApply(s, c, step), t)
  {
  }

  lemma DepartureKeepsSched(s: Core, c: ConnId, step: CleanupStep)
    requires CleanupEnabled(s, c, step) && !Requeues(step) && !step.DScan? && ConnOk(s, c) && SchedOk(s)
    ensures SchedOk(CleanupApply(s, c, step))
  {
  }

  lemma RequeueKeepsSched(s: Core, c: ConnId, step: CleanupStep)
    requires CleanupEnabled(s, c, step) && (step.DPushLost? || step.DUnlock?) && SchedOk(s)
    ensures SchedOk(CleanupApply(s, c, step))
  {
    var s' := CleanupApply(s, c, step);
    TargetFrame(s, s', s'.conns[c], c);
  }

  lemma UnmapLostKeepsSched(s: Core, c: ConnId)
    requires CanUnmapLost(s, c) && ConnOk(s, c) && SchedOk(s)
    requires HasTarget(s) ==> Apart(s, s.sched.target, c)
    ensures SchedOk(UnmapLost(s, c))
  {
  }

  lemma MarkLostKeepsSched(s: Core, c: ConnId)
    requires CanMarkLost(s, c) && ConnOk(s, c) && SchedOk(s)
    requires HasTarget(s) ==> Apart(s, s.sched.target, c)
    ensures SchedOk(MarkLost(s, c))
  {
    ToldStays(s.rows, MarkLost(s, c).rows);
  }

  lemma CleanupIsCalm(s: Core, c: ConnId, step: CleanupStep)
    requires LinksInv(s) && CleanupEnabled(s, c, step) && !step.DUnregister?
    ensures var s' := CleanupApply(s, c, step);
            Calm(s, s') && s'.subs == s.subs && s'.rows.Keys == s.rows.Keys
  {
  }

  /** The scan: what its connection and everybody else know of the task it finds. */
  lemma ScanKeepsConns(s: Core, c: ConnId, list: seq<TaskId>)
    requires Inv(s) && CanScan(s, c, list)
    ensures ConnsInv(Scan(s, c, list))
  {
    var s' := Scan(s, c, list);
    assert ConnOk(s, c);
    ScanTakesOneTask(s, c, list);
    forall e: ConnId | At(s', e) ensures ConnOk(s', e) { assert ConnOk(s, e) && Apart(s, c, e); }
  }

  lemma ScanKeepsSched(s: Core, c: ConnId, list: seq<TaskId>)
    requires CanScan(s, c, list) && SchedOk(s)
    requires HasTarget(s) ==> Apart(s, s.sched.target, c)
    ensures SchedOk(Scan(s, c, list))
  {
    assert forall t :: t in list ==> t in MappedTo(s, s.conns[c].worker);
  }

  lemma ScanKeepsTasks(s: Core, c: ConnId, list: seq<TaskId>)
    requires Inv(s) && CanScan(s, c, list)
    ensures TasksInv(Scan(s, c, list))
  {
    var s' := Scan(s, c, list);
    assert ConnOk(s, c);
    ScanTakesOneTask(s, c, list);
    forall t: TaskId ensures TaskOk(s', t) { assert TaskOk(s, t); }
  }

  lemma CleanupKeepsConns(s: Core, c: ConnId, step: CleanupStep)
    requires Inv(s) && CleanupEnabled(s, c, step) && !step.DScan?
    ensures ConnsInv(CleanupApply(s, c, step))
  {
    var s' := CleanupApply(s, c, step);
    assert |s'.conns| == |s.conns|;
    forall e: ConnId | At(s', e) ensures ConnOk(s', e) {
      assert ConnOk(s, c) && ConnOk(s, e) && Apart(s, c, e);
      if e == c {
        CleanupKeepsOwn(s, c, step);
      } else if step.DUnregister? {
        UnregisterKeepsOther(s, c, e);
      } else if Requeues(step) && !step.DPushLost? {
        RequeueKeepsOther(s, c, step, e);
      } else {
        DepartureKeepsOther(s, c, step, e);
      }
    }
  }

  lemma CleanupKeepsSched(s: Core, c: ConnId, step: CleanupStep)
    requires Inv(s) && CleanupEnabled(s, c, step)
    ensures SchedOk(CleanupApply(s, c, step))
  {
    assert ConnOk(s, c);
    if HasTarget(s) { assert Apart(s, s.sched.target, c); }
    if step.DScan? {
      ScanKeepsSched(s, c, step.list);
    } else if step.DMarkLost? {
      MarkLostKeepsSched(s, c);
    } else if step.DUnmapLost? {
      UnmapLostKeepsSched(s, c);
    } else if Requeues(step) {
      RequeueKeepsSched(s, c, step);
    } else {
      DepartureKeepsSched(s, c, step);
    }
  }

  lemma UnregisterKeepsLinks(s: Core, c: ConnId)
    requires Inv(s) && CanUnregister(s, c) && SchedOk(Unregister(s, c))
    ensures LinksInv(Unregister(s, c))
  {
    var s' := Unregister(s, c);
    assert ConnOk(s, c);
    forall d: ConnId, e: ConnId ensures Apart(s', d, e) { assert Apart(s, d, e); }
    forall w: WorkerId ensures WorkerOk(s', w) { assert WorkerOk(s, w); }
    forall t: TaskId, u: TaskId ensures Injective(s', t, u) { assert Injective(s, t, u); }
    SubsStay(s, s');
  }

  lemma CleanupKeepsInv(s: Core, c: ConnId, step: CleanupStep)
    requires Inv(s) && CleanupEnabled(s, c, step)
    ensures Inv(CleanupApply(s, c, step))
  {
    var s' := CleanupApply(s, c, step);
    CleanupKeepsSched(s, c, step);
    if step.DUnregister? {
      UnregisterKeepsLinks(s, c);
    } else {
      CleanupIsCalm(s, c, step);
      SubsStay(s, s');
      LinksStay(s, s');
    }
    if step.DScan? {
      ScanKeepsConns(s, c, step.list);
      ScanKeepsTasks(s, c, step.list);
    } else {
      CleanupKeepsConns(s, c, step);
      assert ConnOk(s, c);
      forall t: TaskId ensures TaskOk(s', t) {
        assert TaskOk(s, t);
        if Requeues(step) { RequeueKeepsTask(s, c, step, t); } else { DepartureKeepsTask(s, c, step, t); }
      }
    }
  }

  // ---------------------------------------------------------------- matching

  lemma ExpireKeepsConn(s: Core, e: ConnId)
    requires CanExpire(s) && At(s, e) && SchedOk(s) && ConnOk(s, e)
    ensures ConnOk(Expire(s), e)
  {
    ToldStays(s.rows, Expire(s).rows);
  }

  lemma FindKeepsConn(s: Core, w: WorkerId, e: ConnId)
    requires CanMatch(s, w) && At(s, e) && SchedOk(s) && ConnOk(s, e)
    ensures ConnOk(Match(s, w), e)
  {
  }

  lemma LookupKeepsConn(s: Core, e: ConnId)
    requires CanLookup(s) && At(s, e) && ConnOk(s, e)
    ensures ConnOk(Lookup(s), e)
  {
  }

  lemma MatchKeepsConn(s: Core, step: MatchStep, e: ConnId)
    requires MatchEnabled(s, step) && !step.DExpire? && !step.DMatch? && !step.DLookup?
    requires At(s, e) && SchedOk(s) && ConnOk(s, e)
    ensures ConnOk(MatchApply(s, step), e)
  {
    SchedFrame(s, MatchApply(s, step), e);
  }

  lemma MatchKeepsTask(s: Core, step: MatchStep, t: TaskId)
    requires MatchEnabled(s, step) && !step.DMatch? && SchedOk(s) && TaskOk(s, t)
    ensures TaskOk(MatchApply(s, step), t)
  {
  }

  lemma MatchKeepsSched(s: Core, step: MatchStep)
    requires MatchEnabled(s, step) && !step.DMatch? && SchedOk(s)
    requires s.sched.Taken? ==> TaskOk(s, s.sched.task)
    requires s.sched.Waiting? && s.queue != [] ==> TaskOk(s, s.queue[0])
    ensures SchedOk(MatchApply(s, step))
  {
    if step.DExpire? { ToldStays(s.rows, MatchApply(s, step).rows); }
  }

  lemma MatchIsCalm(s: Core, step: MatchStep)
    requires LinksInv(s) && MatchEnabled(s, step) && !step.DMatch?
    ensures var s' := MatchApply(s, step);
            Calm(s, s') && s'.subs == s.subs && s'.rows.Keys == s.rows.Keys
  {
  }

  lemma FindKeepsLinks(s: Core, w: WorkerId)
    requires Inv(s) && CanMatch(s, w)
    ensures LinksInv(Match(s, w))
  {
    var s' := Match(s, w);
    assert WorkerOk(s, w) && ConnOk(s, s.workers[w]);
    forall d: ConnId, e: ConnId ensures Apart(s', d, e) {
      assert Apart(s, d, e);
      if At(s, e) { assert ConnOk(s, e); }
    }
    forall v: WorkerId ensures WorkerOk(s', v) { assert WorkerOk(s, v); }
    forall t: TaskId, u: TaskId ensures Injective(s', t, u) { assert Injective(s, t, u); }
    SubsStay(s, s');
  }

  lemma FindKeepsTasks(s: Core, w: WorkerId)
    requires Inv(s) && CanMatch(s, w)
    ensures TasksInv(Match(s, w))
  {
    var s' := Match(s, w);
    assert WorkerOk(s, w);
    forall t: TaskId ensures TaskOk(s', t) {
      assert TaskOk(s, t);
      if t in s.active && s.active[t] == w { MappedWorkerIsBusy(s, t, s.workers[w]); }
    }
  }

  lemma MatchKeepsConns(s: Core, step: MatchStep)
    requires Inv(s) && MatchEnabled(s, step)
    ensures ConnsInv(MatchApply(s, step))
  {
    var s' := MatchApply(s, step);
    assert |s'.conns| == |s.conns|;
    forall e: ConnId | At(s', e) ensures ConnOk(s', e) {
      assert ConnOk(s, e);
      match step {
        case DMatch(w) => FindKeepsConn(s, w, e);
        case DExpire => ExpireKeepsConn(s, e);
        case DLookup => LookupKeepsConn(s, e);
        case _ => MatchKeepsConn(s, step, e);
      }
    }
  }

  lemma MatchKeepsInv(s: Core, step: MatchStep)
    requires Inv(s) && MatchEnabled(s, step)
    ensures Inv(MatchApply(s, step))
  {
    var s' := MatchApply(s, step);
    MatchKeepsConns(s, step);
    if step.DMatch? {
      FindKeepsLinks(s, step.w);
      FindKeepsTasks(s, step.w);
    } else {
      if s.sched.Taken? { assert TaskOk(s, s.sched.task); }
      if s.queue != [] { assert TaskOk(s, s.queue[0]); }
      MatchIsCalm(s, step);
      MatchKeepsSched(s, step);
      SubsStay(s, s');
      LinksStay(s, s');
      forall t: TaskId ensures TaskOk(s', t) {
        assert TaskOk(s, t);
        MatchKeepsTask(s, step, t);
      }
    }
  }

  // ---------------------------------------------------------------- dispatch

  predicate Marks(step: DispatchStep) { step.DMarkRunning? || step.DMarkSend? }

  lemma MarkKeepsConn(s: Core, step: DispatchStep, e: ConnId)
    requires DispatchEnabled(s, step) && Marks(step)
    requires At(s, e) && SchedOk(s) && ConnOk(s, e)
    ensures ConnOk(DispatchApply(s, step), e)
  {
    ToldStays(s.rows, DispatchApply(s, step).rows);
  }

  lemma SendKeepsConn(s: Core, e: ConnId)
    requires CanSend(s) && At(s, e) && SchedOk(s) && ConnOk(s, e)
    ensures ConnOk(Send(s), e)
  {
  }

  lemma DispatchKeepsConn(s: Core, step: DispatchStep, e: ConnId)
    requires DispatchEnabled(s, step) && !step.DIdleSend? && !step.DSend? && !Marks(step)
    requires At(s, e) && SchedOk(s) && ConnOk(s, e)
    ensures ConnOk(DispatchApply(s, step), e)
  {
  }

  lemma MarkKeepsTask(s: Core, step: DispatchStep, t: TaskId)
    requires DispatchEnabled(s, step) && Marks(step) && SchedOk(s) && TaskOk(s, t)
    ensures TaskOk(DispatchApply(s, step), t)
  {
  }

  lemma MapKeepsTask(s: Core, step: DispatchStep, t: TaskId)
    requires DispatchEnabled(s, step) && (step.DMapTask? || step.DUnmapSend?) && SchedOk(s) && TaskOk(s, t)
    ensures TaskOk(DispatchApply(s, step), t)
  {
  }

  lemma DispatchKeepsTask(s: Core, step: DispatchStep, t: TaskId)
    requires DispatchEnabled(s, step) && !Marks(step) && !step.DMapTask? && !step.DUnmapSend?
    requires SchedOk(s) && TaskOk(s, t)
    ensures TaskOk(DispatchApply(s, step), t)
  {
  }

  lemma DispatchKeepsSched(s: Core, step: DispatchStep)
    requires DispatchEnabled(s, step) && SchedOk(s)
    ensures SchedOk(DispatchApply(s, step))
  {
    if Marks(step) { ToldStays(s.rows, DispatchApply(s, step).rows); }
  }

  lemma DispatchIsCalm(s: Core, step: DispatchStep)
    requires LinksInv(s) && DispatchEnabled(s, step) && !step.DMapTask?
    ensures var s' := DispatchApply(s, step);
            Calm(s, s') && s'.subs == s.subs && s'.rows.Keys == s.rows.Keys
  {
  }

  lemma IdleSendKeepsConns(s: Core)
    requires Inv(s) && CanIdleSend(s)
    ensures ConnsInv(IdleSend(s))
  {
    var s' := IdleSend(s);
    IdlingTouchesNobody(s);
    var w := s.conns[s.sched.target].worker;
    forall e: ConnId | At(s', e) ensures ConnOk(s', e) {
      assert ConnOk(s, e);
      var s1 := IdleWorker(s, w);
      if w in s.workers {
        var f := s.workers[w];
        if e == f { IdleFrame(s, e); } else { OtherFrame(s, s1, s.conns[f].(busy := false), f, e); }
      }
      SendIdledFrame(s1, e);
    }
  }

  lemma DispatchKeepsConns(s: Core, step: DispatchStep)
    requires Inv(s) && DispatchEnabled(s, step)
    ensures ConnsInv(DispatchApply(s, step))
  {
    var s' := DispatchApply(s, step);
    if step.DIdleSend? {
      IdleSendKeepsConns(s);
    } else {
      assert |s'.conns| == |s.conns|;
      forall e: ConnId | At(s', e) ensures ConnOk(s', e) {
        assert ConnOk(s, e);
        if Marks(step) {
          MarkKeepsConn(s, step, e);
        } else if step.DSend? {
          SendKeepsConn(s, e);
        } else {
          DispatchKeepsConn(s, step, e);
        }
      }
    }
  }

  lemma MapTaskKeepsLinks(s: Core)
    requires Inv(s) && CanMapTask(s) && SchedOk(MapTask(s))
    ensures LinksInv(MapTask(s))
  {
    var s' := MapTask(s);
    forall d: ConnId, e: ConnId ensures Apart(s', d, e) { assert Apart(s, d, e); }
    forall w: WorkerId ensures WorkerOk(s', w) { assert WorkerOk(s, w); }
    forall t: TaskId, u: TaskId ensures Injective(s', t, u) {
      assert Injective(s, t, u) && TaskOk(s, t) && TaskOk(s, u);
    }
    SubsStay(s, s');
  }

  lemma DispatchKeepsInv(s: Core, step: DispatchStep)
    requires Inv(s) && DispatchEnabled(s, step)
    ensures Inv(DispatchApply(s, step))
  {
    var s' := DispatchApply(s, step);
    DispatchKeepsConns(s, step);
    DispatchKeepsSched(s, step);
    if step.DMapTask? {
      MapTaskKeepsLinks(s);
    } else {
      DispatchIsCalm(s, step);
      SubsStay(s, s');
      LinksStay(s, s');
    }
    forall t: TaskId ensures TaskOk(s', t) {
      assert TaskOk(s, t);
      if Marks(step) {
        MarkKeepsTask(s, step, t);
      } else if step.DMapTask? || step.DUnmapSend? {
        MapKeepsTask(s, step, t);
      } else {
        DispatchKeepsTask(s, step, t);
      }
    }
  }

  // --------------------------------------- submissions, new workers, the clock

  lemma SubmitKeepsConn(s: Core, step: SubmitStep, e: ConnId)
    requires SubmitEnabled(s, step) && At(s, e) && ConnOk(s, e)
    ensures ConnOk(SubmitApply(s, step), e)
  {
    ToldStays(s.rows, SubmitApply(s, step).rows);
  }

  lemma SubmitKeepsSched(s: Core, step: SubmitStep)
    requires SubmitEnabled(s, step) && SchedOk(s)
    ensures SchedOk(SubmitApply(s, step))
  {
    ToldStays(s.rows, SubmitApply(s, step).rows);
  }

  lemma SubmitKeepsLinks(s: Core, step: SubmitStep)
    requires LinksInv(s) && SubmitEnabled(s, step)
    ensures LinksInv(SubmitApply(s, step))
  {
    var s' := SubmitApply(s, step);
    SubmitKeepsSched(s, step);
    assert Calm(s, s');
    forall i: nat ensures SubOk(s', i) { assert SubOk(s, i); }
    LinksStay(s, s');
  }

  lemma StartSubmitKeepsTasks(s: Core, parent: int, tier: int, count: nat)
    requires Inv(s) && CanStartSubmit(s, parent, count)
    ensures TasksInv(StartSubmit(s, parent, tier, count))
  {
    var s' := StartSubmit(s, parent, tier, count);
    forall t: TaskId ensures TaskOk(s', t) { assert TaskOk(s, t); HandStays(s, s', t); }
  }

  lemma CreateTaskKeepsTasks(s: Core, i: nat, t: TaskId)
    requires Inv(s) && CanCreateTask(s, i, t)
    ensures TasksInv(CreateTask(s, i, t))
  {
    var s' := CreateTask(s, i, t);
    forall u: TaskId ensures TaskOk(s', u) {
      assert TaskOk(s, u);
      HandStays(s, s', u);
      assert s'.subs[i].hand == Some(t);
    }
  }

  lemma PushTaskKeepsTasks(s: Core, i: nat)
    requires Inv(s) && CanPushTask(s, i)
    ensures TasksInv(PushTask(s, i))
  {
    var s' := PushTask(s, i);
    assert SubOk(s, i);
    var h := s.subs[i].hand.value;
    assert forall t :: t in s'.queue <==> t in s.queue || t == h;
    forall t: TaskId ensures TaskOk(s', t) {
      assert TaskOk(s, t); if s.subs[i].hand != Some(t) { HandStays(s, s', t); }
    }
  }

  lemma SubmitKeepsInv(s: Core, step: SubmitStep)
    requires Inv(s) && SubmitEnabled(s, step)
    ensures Inv(SubmitApply(s, step))
  {
    var s' := SubmitApply(s, step);
    forall e: ConnId | At(s', e) ensures ConnOk(s', e) {
      assert ConnOk(s, e);
      SubmitKeepsConn(s, step, e);
    }
    SubmitKeepsLinks(s, step);
    match step
    case DStartSubmit(parent, tier, count) => StartSubmitKeepsTasks(s, parent, tier, count);
    case DCreateTask(i, t) => CreateTaskKeepsTasks(s, i, t);
    case DPushTask(i) => PushTaskKeepsTasks(s, i);
  }

  lemma RegisterKeepsConns(s: Core, w: WorkerId, tier: int)
    requires Inv(s) && CanRegister(s, w)
    ensures ConnsInv(Register(s, w, tier))
  {
    var s' := Register(s, w, tier);
    forall e: ConnId | At(s', e) ensures ConnOk(s', e) { if At(s, e) { assert ConnOk(s, e); } }
  }

  lemma RegisterKeepsLinks(s: Core, w: WorkerId, tier: int)
    requires Inv(s) && CanRegister(s, w)
    ensures LinksInv(Register(s, w, tier))
  {
    var s' := Register(s, w, tier);
    forall d: ConnId, e: ConnId ensures Apart(s', d, e) { assert Apart(s, d, e); }
    forall v: WorkerId ensures WorkerOk(s', v) { assert WorkerOk(s, v); }
    forall t: TaskId, u: TaskId ensures Injective(s', t, u) { assert Injective(s, t, u); }
    forall i: nat ensures SubOk(s', i) { assert SubOk(s, i); }
  }

  lemma RegisterKeepsTasks(s: Core, w: WorkerId, tier: int)
    requires Inv(s) && CanRegister(s, w)
    ensures TasksInv(Register(s, w, tier))
  {
    var s' := Register(s, w, tier);
    forall t: TaskId ensures TaskOk(s', t) { assert TaskOk(s, t); }
  }

  lemma TickKeepsConns(s: Core, d: nat)
    requires Inv(s)
    ensures ConnsInv(Tick(s, d))
  {
    var s' := Tick(s, d);
    forall e: ConnId | At(s', e) ensures ConnOk(s', e) { if At(s, e) { assert ConnOk(s, e); } }
  }

  lemma TickKeepsLinks(s: Core, d: nat)
    requires Inv(s)
    ensures LinksInv(Tick(s, d))
  {
    var s' := Tick(s, d);
    forall b: ConnId, e: ConnId ensures Apart(s', b, e) { assert Apart(s, b, e); }
    forall w: WorkerId ensures WorkerOk(s', w) { assert WorkerOk(s, w); }
    forall t: TaskId, u: TaskId ensures Injective(s', t, u) { assert Injective(s, t, u); }
    forall i: nat ensures SubOk(s', i) { assert SubOk(s, i); }
  }

  lemma TickKeepsTasks(s: Core, d: nat)
    requires Inv(s)
    ensures TasksInv(Tick(s, d))
  {
    var s' := Tick(s, d);
    forall t: TaskId ensures TaskOk(s', t) { assert TaskOk(s, t); }
  }

  /** The invariant is kept by every step of every goroutine. */
  lemma StepKeepsInv(s: Core, step: Step)
    requires Inv(s) && Enabled(s, step)
    ensures Inv(Apply(s, step))
  {
    match step
    case Clock(d) => TickKeepsConns(s, d); TickKeepsLinks(s, d); TickKeepsTasks(s, d);
    case Submission(u) => SubmitKeepsInv(s, u);
    case Joining(w, tier) =>
      RegisterKeepsConns(s, w, tier);
      RegisterKeepsLinks(s, w, tier);
      RegisterKeepsTasks(s, w, tier);
    case Replying(c, u) => ReplyKeepsInv(s, c, u);
    case CleaningUp(c, u) => CleanupKeepsInv(s, c, u);
    case Matchmaking(u) => MatchKeepsInv(s, u);
    case Dispatching(u) => DispatchKeepsInv(s, u);
  }

  lemma {:induction false} RunKeepsInv(s: Core, steps: seq<Step>)
    requires Inv(s) && CanRun(s, steps)
    ensures Inv(RunFrom(s, steps))
    decreases |steps|
  {
    if steps != [] {
      StepKeepsInv(s, steps[0]);
      RunKeepsInv(Apply(s, steps[0]), steps[1..]);
    }
  }

  lemma {:induction false} RunAppend(s: Core, steps: seq<Step>, step: Step)
    requires CanRun(s, steps) && Enabled(RunFrom(s, steps), step)
    ensures CanRun(s, steps + [step])
    ensures RunFrom(s, steps + [step]) == Apply(RunFrom(s, steps), step)
    decreases |steps|
  {
    if steps == [] {
      assert [] + [step] == [step];
      assert [step][1..] == [];
    } else {
      RunAppend(Apply(s, steps[0]), steps[1..], step);
      assert (steps + [step])[1..] == steps[1..] + [step];
    }
  }

  /** Every state reached by any interleaving satisfies the invariant. */
  lemma ReachableInv(s: Core)
    requires Reachable(s)
    ensures Inv(s)
  {
    var now, steps :| CanRun(Init(now), steps) && RunFrom(Init(now), steps) == s;
    RunKeepsInv(Init(now), steps);
  }
}
