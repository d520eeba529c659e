/** The inductive invariant of the task protocol. */
module BrokerInvariant {
  import opened Wrappers
  import opened BrokerCore

  // ------------------------------------------------------------ vocabulary

  predicate Unfinished(s: Core, t: TaskId) { t in s.rows && !s.rows[t].status.Finished() }

  predicate IsRunning(s: Core, t: TaskId) { t in s.rows && s.rows[t].status.Running? }

  predicate IsPending(s: Core, t: TaskId) { t in s.rows && s.rows[t].status.Pending? }

  /** The scheduler has read `t` as pending and has not let go of it. */
  predicate SchedHolds(s: Core, t: TaskId) {
    match s.sched
    case Waiting => false
    case Taken(_) => false
    case ExpirySaved(_, _) => false
    case ExpiryTold(_) => false
    case _ => s.sched.task == t
  }

  /** ... or has received it from the queue and not looked it up yet. */
  predicate SchedHas(s: Core, t: TaskId) { s.sched == Taken(t) || SchedHolds(s, t) }

  /** The activeTasks entry of the scheduler's task may be present. */
  predicate SchedMid(s: Core, t: TaskId) {
    (s.sched.Mapped? || s.sched.Marked? || s.sched.SendFailed?) && s.sched.task == t
  }

  predicate Suitable(s: Core, t: TaskId, c: ConnId) {
    t in s.rows && At(s, c) && (s.rows[t].tier == 0 || s.rows[t].tier == s.conns[c].tier)
  }

  /** The connection goroutine is answerable for the mapped task `t`. */
  predicate Keeps(k: Conn, t: TaskId) {
    || t in k.unanswered
    || ((k.pc.GotReply? || k.pc.GotParent?) && k.pc.task == t)
    || k.pc.Closed?
    || (k.pc.Requeue? && t in k.pc.todo)
  }

  /** The connection goroutine is answerable for the no longer mapped task `t`. */
  predicate Finishes(k: Conn, t: TaskId) {
    || ((k.pc.ReplyUnmapped? || k.pc.ReplyIdled?) && k.pc.task == t)
    || (k.pc.RequeueMark? && t in k.pc.todo)
  }

  /** A batch is notified only after one of its subtasks has finished. */
  predicate BatchTold(rows: map<TaskId, Row>, p: int) {
    p != 0 ==> exists t :: t in rows && rows[t].status.Finished() && rows[t].parent == p
  }

  // ----------------------------------------------------- connection clauses

  /** `t` was dispatched to `c` and its reply is still to be processed. */
  predicate Delivered(s: Core, c: ConnId, t: TaskId)
    requires At(s, c)
  {
    && IsRunning(s, t) && Suitable(s, t, c)
    && t in s.active && s.active[t] == s.conns[c].worker
    && s.conns[c].busy
    && t in s.keeper && s.keeper[t] == c
    && !SchedHolds(s, t)
  }

  /** A cleanup may still write "pending" for `t`: nobody can have dispatched it since. */
  predicate Contested(s: Core, t: TaskId, w: WorkerId) {
    if SchedHolds(s, t)
    then SchedMid(s, t) && At(s, s.sched.target) && s.conns[s.sched.target].worker == w
    else IsRunning(s, t)
  }

  predicate ReplyOk(s: Core, c: ConnId)
    requires At(s, c)
  {
    var k := s.conns[c];
    match k.pc
    case GotReply(t, _) => k.unanswered == [] && Delivered(s, c, t)
    case GotParent(t, _, p) => k.unanswered == [] && Delivered(s, c, t) && p == s.rows[t].parent
    case ReplyUnmapped(t, _, p) =>
      && k.busy && k.unanswered == [] && IsRunning(s, t) && t !in s.active
      && !SchedHolds(s, t) && t in s.keeper && s.keeper[t] == c && p == s.rows[t].parent
    case ReplyIdled(t, _, p) =>
      && IsRunning(s, t) && t !in s.active
      && !SchedHolds(s, t) && t in s.keeper && s.keeper[t] == c && p == s.rows[t].parent
    case Saved(t, p) => t in s.rows && s.rows[t].status.Finished() && p == s.rows[t].parent
    case Told(p) => BatchTold(s.rows, p)
    case _ => true
  }

  predicate CleanupOk(s: Core, c: ConnId)
    requires At(s, c)
  {
    var k := s.conns[c];
    match k.pc
    case Requeue(todo) =>
      && |todo| <= 1
      && (todo != [] ==>
            var t := todo[0];
            && Unfinished(s, t) && t in s.active && s.active[t] == k.worker
            && t in s.keeper && s.keeper[t] == c && Contested(s, t, k.worker))
    case RequeueMark(todo) =>
      && |todo| == 1
      && (var t := todo[0];
          && Unfinished(s, t) && t !in s.active
          && t in s.keeper && s.keeper[t] == c && Contested(s, t, k.worker))
    case RequeuePush(todo) =>
      |todo| == 1 && todo[0] in s.rows && todo[0] in s.keeper && s.keeper[todo[0]] == c
    case _ => true
  }

  predicate ConnOk(s: Core, c: ConnId)
    requires At(s, c)
  {
    var k := s.conns[c];
    && (Registered(k.pc) ==> k.worker in s.workers && s.workers[k.worker] == c)
    && (k.pc.Crashed? <==> |k.worker| < LOGGED_ID_LENGTH)
    && (HoldsLock(k.pc) <==> s.lock == Some(c))
    && |k.unanswered| <= 1
    && (!Open(k.pc) ==> k.unanswered == [])
    && (k.unanswered != [] ==> Delivered(s, c, k.unanswered[0]))
    && ReplyOk(s, c)
    && CleanupOk(s, c)
  }

  predicate HasTarget(s: Core) {
    s.sched.Matched? || s.sched.Mapped? || s.sched.Marked? || s.sched.SendFailed? || s.sched.SendUnmapped?
  }

  /**
   Two connections of one worker: at most one of them is alive, and while the
   scheduler is dispatching to one of them the other is not busy.
   */
  predicate Apart(s: Core, c: ConnId, d: ConnId) {
    At(s, c) && At(s, d) && c != d && s.conns[c].worker == s.conns[d].worker ==>
      && (s.conns[c].pc.Gone? || s.conns[d].pc.Gone?)
      && (HasTarget(s) && s.sched.target == c ==> s.conns[d].pc.Gone? || !s.conns[d].busy)
  }

  predicate WorkerOk(s: Core, w: WorkerId) {
    w in s.workers ==>
      && At(s, s.workers[w]) && s.conns[s.workers[w]].worker == w && Registered(s.conns[s.workers[w]].pc)
  }

  // ------------------------------------------------------ scheduler clauses

  predicate Pinned(s: Core, t: TaskId, row: Row, sleeps: nat) {
    && IsPending(s, t) && t !in s.active
    && row.tier == s.rows[t].tier && row.parent == s.rows[t].parent && row.createdAt == s.rows[t].createdAt
    && row.createdAt + SLEEP_NS * sleeps <= s.now
  }

  /** The chosen worker stays reserved until the scheduler lets go. */
  predicate Reserved(s: Core, t: TaskId, c: ConnId) {
    && Suitable(s, t, c)
    && s.conns[c].busy && s.conns[c].unanswered == []
    && !(s.conns[c].pc.GotReply? || s.conns[c].pc.GotParent? || s.conns[c].pc.ReplyUnmapped?)
  }

  predicate SchedOk(s: Core) {
    match s.sched
    case Waiting => true
    case Taken(t) => t in s.rows
    case Matching(t, row, n) => Pinned(s, t, row, n) && n <= 60
    case Sleeping(t, row, n, until) =>
      && Pinned(s, t, row, 0) && 1 <= n <= 61 && row.createdAt + SLEEP_NS * n <= until
    case Rechecked(t, row, n) => Pinned(s, t, row, n) && n <= 61
    case Expiring(t, row) => Pinned(s, t, row, 0) && s.now - row.createdAt > EXPIRY_NS
    case ExpirySaved(t, p) => t in s.rows && s.rows[t].status.Finished() && p == s.rows[t].parent
    case ExpiryTold(p) => BatchTold(s.rows, p)
    case Matched(t, c) => IsPending(s, t) && t !in s.active && Reserved(s, t, c)
    case Mapped(t, c) =>
      && IsPending(s, t) && Reserved(s, t, c)
      && (Open(s.conns[c].pc) ==>
            t in s.active && s.active[t] == s.conns[c].worker && t in s.keeper && s.keeper[t] == c)
    case Marked(t, c) =>
      && Unfinished(s, t) && Reserved(s, t, c)
      && (Open(s.conns[c].pc) ==>
            && IsRunning(s, t)
            && t in s.active && s.active[t] == s.conns[c].worker && t in s.keeper && s.keeper[t] == c)
    case SendFailed(t, c) => Unfinished(s, t) && Reserved(s, t, c)
    case SendUnmapped(t, c) => Unfinished(s, t) && t !in s.active && Reserved(s, t, c)
    case SendIdled(t) => Unfinished(s, t) && t !in s.active
    case Requeuing(t) => IsPending(s, t) && t !in s.active
  }

  // ----------------------------------------------------------- task clauses

  predicate SubmitterHolds(s: Core, t: TaskId) {
    exists i :: 0 <= i < |s.subs| && s.subs[i].hand == Some(t)
  }

  /** An activeTasks entry is the scheduler's own, or its keeper is still answerable for it. */
  predicate MappingOk(s: Core, t: TaskId)
    requires t in s.active
  {
    if SchedMid(s, t)
    then At(s, s.sched.target) && s.active[t] == s.conns[s.sched.target].worker
    else && IsRunning(s, t) && t in s.keeper && At(s, s.keeper[t])
         && s.active[t] == s.conns[s.keeper[t]].worker && Keeps(s.conns[s.keeper[t]], t)
  }

  /** Somebody still answers for every unfinished task. */
  predicate HolderOk(s: Core, t: TaskId)
    requires t in s.rows
  {
    match s.rows[t].status
    case Pending =>
      || t in s.queue || SubmitterHolds(s, t) || SchedHas(s, t)
      || (t in s.keeper && At(s, s.keeper[t])
          && s.conns[s.keeper[t]].pc.RequeuePush? && t in s.conns[s.keeper[t]].pc.todo)
    case Running =>
      || SchedHolds(s, t)
      || (t in s.active && MappingOk(s, t))
      || (t in s.keeper && At(s, s.keeper[t]) && Finishes(s.conns[s.keeper[t]], t))
    case _ => true
  }

  predicate TaskOk(s: Core, t: TaskId) {
    && (t in s.rows ==> t != 0 && s.rows[t].createdAt <= s.now && HolderOk(s, t))
    && (t in s.active ==> t in s.rows && MappingOk(s, t))
    && (t in s.active && s.sched.Matched? && At(s, s.sched.target) ==>
          s.active[t] != s.conns[s.sched.target].worker)
    && (t in s.queue ==> t in s.rows)
    && (t in s.keeper ==> t in s.rows && At(s, s.keeper[t]))
  }

  /** No worker is mapped to two tasks. */
  predicate Injective(s: Core, t: TaskId, u: TaskId) {
    t in s.active && u in s.active && s.active[t] == s.active[u] ==> t == u
  }

  predicate SubOk(s: Core, i: nat) {
    i < |s.subs| && s.subs[i].hand.Some? ==> s.subs[i].hand.value in s.rows
  }

  ghost predicate ConnsInv(s: Core) { forall c: ConnId :: At(s, c) ==> ConnOk(s, c) }

  ghost predicate LinksInv(s: Core) {
    && (forall c: ConnId, d: ConnId :: Apart(s, c, d))
    && (forall w: WorkerId :: WorkerOk(s, w))
    && (forall t: TaskId, u: TaskId :: Injective(s, t, u))
    && (forall i: nat :: SubOk(s, i))
    && (s.lock.Some? ==> At(s, s.lock.value))
    && SchedOk(s)
  }

  ghost predicate TasksInv(s: Core) { forall t: TaskId :: TaskOk(s, t) }

  ghost predicate Inv(s: Core) { ConnsInv(s) && LinksInv(s) && TasksInv(s) }

  // ------------------------------------------------------- framing lemmas

  lemma ToldStays(rows: map<TaskId, Row>, rows': map<TaskId, Row>)
    requires forall t :: t in rows && rows[t].status.Finished() ==>
               t in rows' && rows'[t].status.Finished() && rows'[t].parent == rows[t].parent
    ensures forall p :: BatchTold(rows, p) ==> BatchTold(rows', p)
  {
    forall p | BatchTold(rows, p) && p != 0 ensures BatchTold(rows', p) {
      var t :| t in rows && rows[t].status.Finished() && rows[t].parent == p;
      assert t in rows';
    }
  }

  lemma HandStays(s: Core, s': Core, t: TaskId)
    requires |s.subs| <= |s'.subs|
    requires forall i :: 0 <= i < |s.subs| && s.subs[i].hand == Some(t) ==> s'.subs[i].hand == Some(t)
    ensures SubmitterHolds(s, t) ==> SubmitterHolds(s', t)
  {
    if SubmitterHolds(s, t) {
      var i :| 0 <= i < |s.subs| && s.subs[i].hand == Some(t);
      assert s'.subs[i].hand == Some(t);
    }
  }

  /** A worker that is mapped somewhere while the scheduler is not mid-dispatch has a busy or closed connection. */
  lemma MappedWorkerIsBusy(s: Core, t: TaskId, c: ConnId)
    requires Inv(s) && t in s.active && !SchedMid(s, t)
    requires At(s, c) && Registered(s.conns[c].pc) && s.conns[c].worker == s.active[t]
    ensures s.conns[c].busy
  {
    assert TaskOk(s, t) && MappingOk(s, t);
    var d := s.keeper[t];
    assert ConnOk(s, c) && ConnOk(s, d) && Apart(s, c, d);
  }
}
