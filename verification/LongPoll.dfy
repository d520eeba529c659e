/**
 Long-polling on top of the task protocol.  A status request for a task, or for a
 batch, reads the table; if something is unfinished it registers a channel in a
 waiter map and sleeps until a notification closes the channel or a timeout fires.
 */
module LongPoll {
  import opened Wrappers
  import opened BrokerCore
  import opened BrokerInvariant
  import opened BrokerKept
  import opened BrokerSafety
  import opened Waiters

  /** What one read of the table returned: the rows under the key, in some order. */
  type Snapshot = seq<(TaskId, Row)>

  datatype Via = Direct | Woken | TimedOut

  datatype PollPc =
    | Start
    | Unready(seen: Snapshot)             // something was unfinished: about to register
    | Asleep(seen: Snapshot)              // in the select
    | Roused(seen: Snapshot)              // the channel was closed: about to read again
    | Expired(seen: Snapshot)             // the timeout fired: about to unregister
    | Replied(reply: Snapshot, via: Via)
    | NotFound

  /** A request owns one channel, identified with the request; `closes` counts close() calls on it. */
  datatype Poll = Poll(key: Key, pc: PollPc, closes: nat)

  /** The broker together with its status requests and waiter maps. */
  datatype Sys = Sys(core: Core, reqs: seq<Poll>, waiters: map<Key, seq<nat>>)

  // ------------------------------------------------------------ the steps

  function IdsOf(rows: map<TaskId, Row>, k: Key): set<TaskId> {
    match k
    case TaskKey(t) => if t in rows then {t} else {}
    case BatchKey(p) => set t | t in rows && rows[t].parent == p
  }

  /** SELECT ... WHERE id = ? or parent_id = ?: the table fixes no row order. */
  ghost predicate CanSelect(s: Sys, k: Key, order: seq<TaskId>) { Enumerates(order, IdsOf(s.core.rows, k)) }

  function Select(rows: map<TaskId, Row>, order: seq<TaskId>): Snapshot
    requires forall t :: t in order ==> t in rows
  {
    seq(|order|, n requires 0 <= n < |order| => (order[n], rows[order[n]]))
  }

  predicate AllFinished(snap: Snapshot) {
    forall n :: 0 <= n < |snap| ==> snap[n].1.status.Finished()
  }

  predicate Has(s: Sys, i: nat) { i < |s.reqs| }

  function SetPoll(s: Sys, i: nat, pc: PollPc): Sys
    requires Has(s, i)
  {
    s.(reqs := s.reqs[i := s.reqs[i].(pc := pc)])
  }

  /** notifyTask / notifyBatch: close every channel under the key and forget the key. */
  function Notify(s: Sys, k: Key): Sys {
    s.(reqs := seq(|s.reqs|, i requires 0 <= i < |s.reqs| =>
                 s.reqs[i].(closes := s.reqs[i].closes + ClosesOf(s.waiters, k, i))),
       waiters := s.waiters - {k})
  }

  /** The key a broker step notifies; a batch is notified only when the task has a parent. */
  function Notifies(s: Core, step: Step): Option<Key> {
    match step
    case Replying(c, DTellTask) =>
      if At(s, c) && s.conns[c].pc.Saved? then Some(TaskKey(s.conns[c].pc.task)) else None
    case Replying(c, DTellBatch) =>
      if At(s, c) && s.conns[c].pc.Told? && s.conns[c].pc.parent != 0
      then Some(BatchKey(s.conns[c].pc.parent)) else None
    case Matchmaking(DTellExpiredTask) =>
      if s.sched.ExpirySaved? then Some(TaskKey(s.sched.task)) else None
    case Matchmaking(DTellExpiredBatch) =>
      if s.sched.ExpiryTold? && s.sched.parent != 0 then Some(BatchKey(s.sched.parent)) else None
    case _ => None
  }

  datatype SysStep =
    | Act(step: Step)                             // any goroutine of the broker
    | Ask(key: Key)                               // a status request arrives
    | Read(i: nat, order: seq<TaskId>)            // first read of the table
    | Join(i: nat)                                // channel appended to the waiter map
    | Rouse(i: nat)                               // select: the channel is closed
    | Reread(i: nat, order: seq<TaskId>)          // second read, then reply
    | TimeOut(i: nat)                             // select: 20 s have passed
    | Leave(i: nat)                               // channel removed, then reply

  ghost predicate Can(s: Sys, step: SysStep) {
    match step
    case Act(u) => Enabled(s.core, u)
    case Ask(_) => true
    case Read(i, order) => Has(s, i) && s.reqs[i].pc.Start? && CanSelect(s, s.reqs[i].key, order)
    case Join(i) => Has(s, i) && s.reqs[i].pc.Unready?
    case Rouse(i) => Has(s, i) && s.reqs[i].pc.Asleep? && s.reqs[i].closes > 0
    case Reread(i, order) => Has(s, i) && s.reqs[i].pc.Roused? && CanSelect(s, s.reqs[i].key, order)
    case TimeOut(i) => Has(s, i) && s.reqs[i].pc.Asleep?
    case Leave(i) => Has(s, i) && s.reqs[i].pc.Expired?
  }

  ghost function Do(s: Sys, step: SysStep): Sys
    requires Can(s, step)
  {
    match step
    case Act(u) =>
      var s' := s.(core := Apply(s.core, u));
      if Notifies(s.core, u).Some? then Notify(s', Notifies(s.core, u).value) else s'
    case Ask(k) => s.(reqs := s.reqs + [Poll(k, Start, 0)])
    case Read(i, order) =>
      var snap := Select(s.core.rows, order);
      SetPoll(s, i, if order == [] then NotFound
                    else if AllFinished(snap) then Replied(snap, Direct)
                    else Unready(snap))
    case Join(i) =>
      SetPoll(s, i, Asleep(s.reqs[i].pc.seen)).(waiters := AddWaiter(s.waiters, s.reqs[i].key, i))
    case Rouse(i) => SetPoll(s, i, Roused(s.reqs[i].pc.seen))
    case Reread(i, order) => SetPoll(s, i, Replied(Select(s.core.rows, order), Woken))
    case TimeOut(i) => SetPoll(s, i, Expired(s.reqs[i].pc.seen))
    case Leave(i) =>
      SetPoll(s, i, Replied(s.reqs[i].pc.seen, TimedOut)).(waiters := DropWaiter(s.waiters, s.reqs[i].key, i))
  }

  ghost predicate CanDo(s: Sys, steps: seq<SysStep>)
    decreases |steps|
  {
    steps == [] || (Can(s, steps[0]) && CanDo(Do(s, steps[0]), steps[1..]))
  }

  ghost function DoAll(s: Sys, steps: seq<SysStep>): Sys
    requires CanDo(s, steps)
    decreases |steps|
  {
    if steps == [] then s else DoAll(Do(s, steps[0]), steps[1..])
  }

  // --------------------------------------------------------- the invariant

  predicate InWait(p: Poll) { p.pc.Asleep? || p.pc.Expired? }

  predicate Listed(s: Sys, k: Key, i: nat) { k in s.waiters && i in s.waiters[k] }

  /** What a notification under `k` promises. */
  ghost predicate Promised(rows: map<TaskId, Row>, k: Key) {
    match k
    case TaskKey(t) => t in rows && rows[t].status.Finished()
    case BatchKey(p) => p != 0 && BatchTold(rows, p)
  }

  /** The snapshot of a request, if it has one. */
  function Seen(p: Poll): Snapshot {
    match p.pc
    case Unready(x) => x
    case Asleep(x) => x
    case Roused(x) => x
    case Expired(x) => x
    case Replied(x, _) => x
    case _ => []
  }

  predicate EntryOk(rows: map<TaskId, Row>, k: Key, e: (TaskId, Row)) {
    && e.0 in IdsOf(rows, k)
    && (e.1.status.Finished() ==> rows[e.0] == e.1)
  }

  predicate SnapOk(rows: map<TaskId, Row>, k: Key, snap: Snapshot) {
    && (forall n :: 0 <= n < |snap| ==> EntryOk(rows, k, snap[n]))
    && (forall m, n :: 0 <= m < n < |snap| ==> snap[m].0 != snap[n].0)
  }

  ghost predicate PollOk(s: Sys, i: nat) {
    Has(s, i) ==>
      var p := s.reqs[i];
      && p.closes <= 1
      && (Listed(s, p.key, i) <==> InWait(p) && p.closes == 0)
      && (p.closes == 1 ==> Promised(s.core.rows, p.key))
      && (p.pc.Start? || p.pc.Unready? || p.pc.NotFound? ==> p.closes == 0)
      && (p.pc.Roused? || (p.pc.Replied? && p.pc.via.Woken?) ==> p.closes == 1)
      && SnapOk(s.core.rows, p.key, Seen(p))
      && (!p.pc.Start? && !p.pc.NotFound? ==> Seen(p) != [])
      && (p.pc.Unready? ==> !AllFinished(p.pc.seen))
      && (p.pc.Replied? && p.pc.via.Direct? ==> AllFinished(p.pc.reply))
      && (p.pc.Replied? && p.pc.via.Woken? && p.key.TaskKey? ==> AllFinished(p.pc.reply))
  }

  predicate KeyOk(s: Sys, k: Key) {
    k in s.waiters ==>
      && s.waiters[k] != []
      && (forall ch: nat :: ch in s.waiters[k] ==> Has(s, ch) && s.reqs[ch].key == k)
      && (forall m, n :: 0 <= m < n < |s.waiters[k]| ==> s.waiters[k][m] != s.waiters[k][n])
  }

  ghost predicate PollInv(s: Sys) {
    && Inv(s.core)
    && (forall i: nat :: PollOk(s, i))
    && (forall k: Key :: KeyOk(s, k))
  }

  // ---------------------------------------------------------- preservation

  /** The columns written when a task is created. */
  predicate SameOrigin(r: Row, r': Row) {
    r'.parent == r.parent && r'.tier == r.tier && r'.createdAt == r.createdAt
  }

  /** Rows are never deleted, keep batch, tier and age, and stop changing once finished. */
  predicate Grows(rows: map<TaskId, Row>, rows': map<TaskId, Row>) {
    forall t :: t in rows ==>
      && t in rows' && SameOrigin(rows[t], rows'[t])
      && (rows[t].status.Finished() ==> rows'[t] == rows[t])
  }

  /** No task is added, removed, or changed in what it was created with. */
  predicate SameKeys(s: Core, s': Core) {
    && s'.subs == s.subs && s'.rows.Keys == s.rows.Keys
    && forall t :: t in s.rows ==> SameOrigin(s.rows[t], s'.rows[t])
  }

  lemma ReplyKeepsKeys(s: Core, c: ConnId, step: ReplyStep)
    requires ReplyEnabled(s, c, step)
    ensures SameKeys(s, ReplyApply(s, c, step))
  {
  }

  lemma CleanupKeepsKeys(s: Core, c: ConnId, step: CleanupStep)
    requires CleanupEnabled(s, c, step)
    ensures SameKeys(s, CleanupApply(s, c, step))
  {
  }

  lemma MatchKeepsKeys(s: Core, step: MatchStep)
    requires MatchEnabled(s, step)
    ensures SameKeys(s, MatchApply(s, step))
  {
  }

  lemma DispatchKeepsKeys(s: Core, step: DispatchStep)
    requires DispatchEnabled(s, step)
    ensures SameKeys(s, DispatchApply(s, step))
  {
  }

  lemma StepKeepsKeys(s: Core, step: Step)
    requires Enabled(s, step) && !step.Submission?
    ensures SameKeys(s, Apply(s, step))
  {
    match step
    case Clock(_) =>
    case Joining(_, _) =>
    case Replying(c, u) => ReplyKeepsKeys(s, c, u);
    case CleaningUp(c, u) => CleanupKeepsKeys(s, c, u);
    case Matchmaking(u) => MatchKeepsKeys(s, u);
    case Dispatching(u) => DispatchKeepsKeys(s, u);
  }

  lemma StepGrows(s: Core, step: Step)
    requires Inv(s) && Enabled(s, step)
    ensures Grows(s.rows, Apply(s, step).rows)
  {
    if !step.Submission? { StepKeepsKeys(s, step); }
    forall t | t in s.rows && s.rows[t].status.Finished() ensures SameRow(s, Apply(s, step), t) {
      StepKeepsFinished(s, step, t);
    }
  }

  lemma GrowthKeepsPoll(s: Sys, s': Sys, i: nat)
    requires PollOk(s, i) && Grows(s.core.rows, s'.core.rows)
    requires s'.reqs == s.reqs && s'.waiters == s.waiters
    ensures PollOk(s', i)
  {
    ToldStays(s.core.rows, s'.core.rows);
  }

  /** A notification is sent only when its task, or a task of its batch, is finished. */
  lemma NotifiesAfterFinish(s: Core, step: Step)
    requires Inv(s) && Enabled(s, step) && Notifies(s, step).Some?
    ensures Promised(s.rows, Notifies(s, step).value)
  {
    if step.Replying? { assert ConnOk(s, step.c); }
  }

  lemma NotifyKeepsPolls(s: Sys, k: Key)
    requires PollInv(s) && Promised(s.core.rows, k)
    ensures PollInv(Notify(s, k))
  {
    var s' := Notify(s, k);
    forall i: nat ensures PollOk(s', i) {
      assert PollOk(s, i) && KeyOk(s, k);
      if k in s.waiters { ListedOnce(s.waiters[k], i); }
    }
    forall j: Key ensures KeyOk(s', j) { assert KeyOk(s, j); }
  }

  lemma ActKeepsPolls(s: Sys, u: Step)
    requires PollInv(s) && Enabled(s.core, u)
    ensures PollInv(Do(s, Act(u)))
  {
    StepKeepsInv(s.core, u);
    StepGrows(s.core, u);
    var s1 := s.(core := Apply(s.core, u));
    forall i: nat ensures PollOk(s1, i) { assert PollOk(s, i); GrowthKeepsPoll(s, s1, i); }
    forall k: Key ensures KeyOk(s1, k) { assert KeyOk(s, k); }
    if Notifies(s.core, u).Some? {
      NotifiesAfterFinish(s.core, u);
      PromiseStays(s.core.rows, s1.core.rows, Notifies(s.core, u).value);
      NotifyKeepsPolls(s1, Notifies(s.core, u).value);
    }
  }

  lemma PromiseStays(rows: map<TaskId, Row>, rows': map<TaskId, Row>, k: Key)
    requires Grows(rows, rows') && Promised(rows, k)
    ensures Promised(rows', k)
  {
    ToldStays(rows, rows');
  }

  lemma SelectIsOk(s: Sys, k: Key, order: seq<TaskId>)
    requires CanSelect(s, k, order)
    ensures SnapOk(s.core.rows, k, Select(s.core.rows, order))
    ensures order == [] <==> Select(s.core.rows, order) == []
    ensures k.TaskKey? && Promised(s.core.rows, k) ==> AllFinished(Select(s.core.rows, order))
    ensures IdsOf(s.core.rows, k) != {} ==> order != []
  {
    forall n | 0 <= n < |order| ensures EntryOk(s.core.rows, k, Select(s.core.rows, order)[n]) {
      assert order[n] in order;
    }
  }

  /** A snapshot entry shows that there is something to read. */
  lemma SeenMeansRows(s: Sys, i: nat, order: seq<TaskId>)
    requires PollInv(s) && Has(s, i) && Seen(s.reqs[i]) != [] && CanSelect(s, s.reqs[i].key, order)
    ensures order != []
  {
    assert PollOk(s, i);
    assert EntryOk(s.core.rows, s.reqs[i].key, Seen(s.reqs[i])[0]);
    SelectIsOk(s, s.reqs[i].key, order);
  }

  lemma ReadKeepsPolls(s: Sys, i: nat, order: seq<TaskId>, reread: bool)
    requires PollInv(s)
    requires if reread then Can(s, Reread(i, order)) else Can(s, Read(i, order))
    ensures PollInv(Do(s, if reread then Reread(i, order) else Read(i, order)))
  {
    var s' := Do(s, if reread then Reread(i, order) else Read(i, order));
    assert PollOk(s, i);
    SelectIsOk(s, s.reqs[i].key, order);
    if reread { SeenMeansRows(s, i, order); }
    forall j: nat ensures PollOk(s', j) { assert PollOk(s, j); }
    forall k: Key ensures KeyOk(s', k) { assert KeyOk(s, k); }
  }

  lemma AskKeepsPolls(s: Sys, k: Key)
    requires PollInv(s)
    ensures PollInv(Do(s, Ask(k)))
  {
    var s' := Do(s, Ask(k));
    forall j: nat ensures PollOk(s', j) { assert PollOk(s, j) && KeyOk(s, k); }
    forall j: Key ensures KeyOk(s', j) { assert KeyOk(s, j); }
  }

  lemma JoinKeepsPolls(s: Sys, i: nat)
    requires PollInv(s) && Can(s, Join(i))
    ensures PollInv(Do(s, Join(i)))
  {
    var s' := Do(s, Join(i));
    var k := s.reqs[i].key;
    assert PollOk(s, i) && KeyOk(s, k);
    forall j: nat ensures PollOk(s', j) { assert PollOk(s, j); }
    forall l: Key ensures KeyOk(s', l) { assert KeyOk(s, l); }
  }

  lemma SelectKeepsPolls(s: Sys, step: SysStep)
    requires PollInv(s) && Can(s, step) && (step.Rouse? || step.TimeOut?)
    ensures PollInv(Do(s, step))
  {
    var s' := Do(s, step);
    assert PollOk(s, step.i);
    forall j: nat ensures PollOk(s', j) { assert PollOk(s, j); }
    forall k: Key ensures KeyOk(s', k) { assert KeyOk(s, k); }
  }

  lemma LeaveKeepsPolls(s: Sys, i: nat)
    requires PollInv(s) && Can(s, Leave(i))
    ensures PollInv(Do(s, Leave(i)))
  {
    var s' := Do(s, Leave(i));
    var k := s.reqs[i].key;
    assert PollOk(s, i) && KeyOk(s, k);
    if k in s.waiters { DropKeepsOthers(s.waiters[k], i); }
    forall j: nat ensures PollOk(s', j) {
      assert PollOk(s, j);
      if j != i && Has(s, j) { assert Listed(s', s.reqs[j].key, j) <==> Listed(s, s.reqs[j].key, j); }
    }
    forall l: Key ensures KeyOk(s', l) { assert KeyOk(s, l); }
  }

  lemma {:induction false} DropKeepsOthers(list: seq<nat>, ch: nat)
    requires forall m, n :: 0 <= m < n < |list| ==> list[m] != list[n]
    ensures var r := Without(list, ch);
            && (forall j: nat :: j in r <==> j in list && j != ch)
            && (forall m, n :: 0 <= m < n < |r| ==> r[m] != r[n])
  {
    if list != [] {
      DropKeepsOthers(list[1..], ch);
      assert list == [list[0]] + list[1..];
      assert list[0] !in list[1..];
    }
  }

  lemma SysStepKeepsInv(s: Sys, step: SysStep)
    requires PollInv(s) && Can(s, step)
    ensures PollInv(Do(s, step))
  {
    match step
    case Act(u) => ActKeepsPolls(s, u);
    case Read(i, order) => ReadKeepsPolls(s, i, order, false);
    case Reread(i, order) => ReadKeepsPolls(s, i, order, true);
    case Ask(k) => AskKeepsPolls(s, k);
    case Join(i) => JoinKeepsPolls(s, i);
    case Leave(i) => LeaveKeepsPolls(s, i);
    case _ => SelectKeepsPolls(s, step);
  }

  lemma {:induction false} SysRunKeepsInv(s: Sys, steps: seq<SysStep>)
    requires PollInv(s) && CanDo(s, steps)
    ensures PollInv(DoAll(s, steps))
    decreases |steps|
  {
    if steps != [] {
      SysStepKeepsInv(s, steps[0]);
      SysRunKeepsInv(Do(s, steps[0]), steps[1..]);
    }
  }
}
