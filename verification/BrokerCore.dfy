/**
 The broker's task protocol as a transition system.

 Every goroutine of the broker is a program counter: one scheduler, one goroutine
 per worker connection, one per submission.  A mutex-protected section, a database
 call, a channel operation and a socket write are one step each.  The only section
 that spans several steps is the requeue loop of a disconnecting worker, which
 holds `activeTasksMu` (field `lock`) across database writes and channel sends.
 */
module BrokerCore {
  import opened Wrappers

  type TaskId = nat
  type WorkerId = string
  type ConnId = nat

  const QUEUE_CAPACITY := 1000
  const SLEEP_NS := 500_000_000
  const EXPIRY_NS := 30_000_000_000
  const EXPIRY_MESSAGE := "Task matching timed out: no suitable worker online"

  /** Length the registration log line slices off the worker ID; a shorter ID panics there. */
  const LOGGED_ID_LENGTH := 8

  // ---------------------------------------------------------------- task rows

  datatype Status = Pending | Running | Completed | Failed {
    predicate Finished() { Completed? || Failed? }
  }

  /** A row of the tasks table; NULL columns read back as empty strings. */
  datatype Row = Row(status: Status, stdout: string, receipt: string, error: string,
                     tier: int, createdAt: int, parent: int)

  /** A worker's answer to a dispatch. */
  datatype Answer = Answer(stdout: string, receipt: string, error: string)

  function NewRow(tier: int, now: int, parent: int): Row {
    Row(Pending, "", "", "", tier, now, parent)
  }

  /** UPDATE tasks SET status, stdout, receipt_json, error WHERE id: a missing row is left missing. */
  function UpdateTask(rows: map<TaskId, Row>, t: TaskId, status: Status, a: Answer): map<TaskId, Row> {
    if t in rows
    then rows[t := rows[t].(status := status, stdout := a.stdout, receipt := a.receipt, error := a.error)]
    else rows
  }

  const NO_ANSWER := Answer("", "", "")

  function AnswerStatus(a: Answer): Status {
    if a.error != "" then Failed else Completed
  }

  // ------------------------------------------------------ program counters

  /** A connection goroutine: reply loop, then deferred cleanup. */
  datatype ConnPc =
    | Reading                                                // blocked in ReadMessage
    | GotReply(task: TaskId, answer: Answer)                 // reply parsed
    | GotParent(task: TaskId, answer: Answer, parent: int)   // parent looked up
    | ReplyUnmapped(task: TaskId, answer: Answer, parent: int) // activeTasks entry deleted
    | ReplyIdled(task: TaskId, answer: Answer, parent: int)  // Busy cleared
    | Saved(task: TaskId, parent: int)                       // result written
    | Told(parent: int)                                      // task waiters woken
    | Leaving                                                // read error, cleanup begins
    | Unregistered                                           // removed from workers
    | Closed                                                 // conn.Close() done
    | Requeue(todo: seq<TaskId>)                             // lock held, top of the requeue loop
    | RequeueMark(todo: seq<TaskId>)                         // lock held, mapping of todo[0] deleted
    | RequeuePush(todo: seq<TaskId>)                         // lock held, todo[0] written "pending"
    | Gone                                                   // goroutine ended
    | Crashed                                                // registered, then panicked: no reader, no cleanup

  predicate Registered(pc: ConnPc) {
    !(pc.Unregistered? || pc.Closed? || pc.Requeue? || pc.RequeueMark? || pc.RequeuePush? || pc.Gone?)
  }

  /** The socket has not been closed by the broker. */
  predicate Open(pc: ConnPc) { Registered(pc) || pc.Unregistered? }

  predicate HoldsLock(pc: ConnPc) { pc.Requeue? || pc.RequeueMark? || pc.RequeuePush? }

  /** A reply has been read and its result is not yet in the table. */
  predicate Answering(pc: ConnPc) { pc.GotReply? || pc.GotParent? || pc.ReplyUnmapped? || pc.ReplyIdled? }

  /** `unanswered` lists the dispatches written to the socket whose replies can still be read. */
  datatype Conn = Conn(worker: WorkerId, tier: int, busy: bool, unanswered: seq<TaskId>, pc: ConnPc)

  datatype SchedPc =
    | Waiting                                                // blocked receiving from taskQueue
    | Taken(task: TaskId)                                    // received, row not read yet
    | Matching(task: TaskId, row: Row, sleeps: nat)          // top of the matching loop
    | Sleeping(task: TaskId, row: Row, sleeps: nat, until: int)
    | Rechecked(task: TaskId, row: Row, sleeps: nat)         // status still pending
    | Expiring(task: TaskId, row: Row)                       // older than 30 s
    | ExpirySaved(task: TaskId, parent: int)                 // "failed" written
    | ExpiryTold(parent: int)                                // task waiters woken
    | Matched(task: TaskId, target: ConnId)                  // worker found, Busy set
    | Mapped(task: TaskId, target: ConnId)                   // activeTasks entry set
    | Marked(task: TaskId, target: ConnId)                   // "running" written
    | SendFailed(task: TaskId, target: ConnId)               // socket write errored
    | SendUnmapped(task: TaskId, target: ConnId)             // activeTasks entry deleted
    | SendIdled(task: TaskId)                                // Busy cleared
    | Requeuing(task: TaskId)                                // "pending" written, about to push

  /** A submission handler: `left` tasks to create, and the created one still to be pushed. */
  datatype Submitter = Submitter(parent: int, tier: int, left: nat, hand: Option<TaskId>)

  /**
   The last three fields are history: every push ever made, the number of receives,
   and the push positions of the entries that were dispatched or expired.
   `keeper` is history too: the connection last made responsible for a task.
   */
  datatype Core = Core(
    rows: map<TaskId, Row>, queue: seq<TaskId>,
    active: map<TaskId, WorkerId>, lock: Option<ConnId>,
    workers: map<WorkerId, ConnId>, conns: seq<Conn>,
    sched: SchedPc, subs: seq<Submitter>, now: int,
    keeper: map<TaskId, ConnId>,
    pushed: seq<TaskId>, taken: nat, handled: seq<nat>)

  function Init(now: int): Core {
    Core(map[], [], map[], None, map[], [], Waiting, [], now, map[], [], 0, [])
  }

  function SetPc(s: Core, c: ConnId, pc: ConnPc): Core
    requires c < |s.conns|
  {
    s.(conns := s.conns[c := s.conns[c].(pc := pc)])
  }

  predicate At(s: Core, c: ConnId) { c < |s.conns| }

  predicate HasRoom(s: Core) { |s.queue| < QUEUE_CAPACITY }

  function Push(s: Core, t: TaskId): Core {
    s.(queue := s.queue + [t], pushed := s.pushed + [t])
  }

  /** Clear the Busy flag of whichever connection is registered under the ID, if any. */
  function IdleWorker(s: Core, w: WorkerId): Core {
    if w in s.workers && At(s, s.workers[w])
    then s.(conns := s.conns[s.workers[w] := s.conns[s.workers[w]].(busy := false)])
    else s
  }

  function MappedTo(s: Core, w: WorkerId): set<TaskId> {
    set t | t in s.active && s.active[t] == w
  }

  /** `list` enumerates `ids`, each once, in some order. */
  ghost predicate Enumerates(list: seq<TaskId>, ids: set<TaskId>) {
    && (forall t :: t in list <==> t in ids)
    && (forall i, j :: 0 <= i < j < |list| ==> list[i] != list[j])
  }

  // -------------------------------------------------------------- the clock

  function Tick(s: Core, d: nat): Core { s.(now := s.now + d) }

  // ------------------------------------------------------------ submissions

  /** Batch IDs are nanosecond clock readings: non-zero and not shared by two batches. */
  predicate CanStartSubmit(s: Core, parent: int, count: nat) {
    && count > 0
    && (parent == 0 ==> count == 1)
    && (parent != 0 ==> forall i :: 0 <= i < |s.subs| ==> s.subs[i].parent != parent)
  }

  function StartSubmit(s: Core, parent: int, tier: int, count: nat): Core {
    s.(subs := s.subs + [Submitter(parent, tier, count, None)])
  }

  /** Task IDs are fresh and non-zero (zero is the value the reply loop ignores). */
  predicate CanCreateTask(s: Core, i: nat, t: TaskId) {
    && i < |s.subs| && s.subs[i].hand.None? && s.subs[i].left > 0
    && t != 0 && t !in s.rows
  }

  function CreateTask(s: Core, i: nat, t: TaskId): Core
    requires CanCreateTask(s, i, t)
  {
    var b := s.subs[i];
    s.(rows := s.rows[t := NewRow(b.tier, s.now, b.parent)],
       subs := s.subs[i := b.(left := b.left - 1, hand := Some(t))])
  }

  predicate CanPushTask(s: Core, i: nat) { i < |s.subs| && s.subs[i].hand.Some? && HasRoom(s) }

  function PushTask(s: Core, i: nat): Core
    requires CanPushTask(s, i)
  {
    Push(s.(subs := s.subs[i := s.subs[i].(hand := None)]), s.subs[i].hand.value)
  }

  // ------------------------------------------------ connections: reply loop

  /** A worker ID registers again only after the earlier connection's cleanup has finished. */
  predicate CanRegister(s: Core, w: WorkerId) {
    forall c :: 0 <= c < |s.conns| && s.conns[c].worker == w ==> s.conns[c].pc.Gone?
  }

  /** The log line after the registration panics on a short worker ID. */
  function PcOnJoin(w: WorkerId): ConnPc { if |w| < LOGGED_ID_LENGTH then Crashed else Reading }

  function Register(s: Core, w: WorkerId, tier: int): Core {
    s.(workers := s.workers[w := |s.conns|], conns := s.conns + [Conn(w, tier, false, [], PcOnJoin(w))])
  }

  predicate CanReadReply(s: Core, c: ConnId, k: nat) {
    At(s, c) && s.conns[c].pc.Reading? && k < |s.conns[c].unanswered|
  }

  function ReadReply(s: Core, c: ConnId, k: nat, a: Answer): Core
    requires CanReadReply(s, c, k)
  {
    var d := s.conns[c];
    s.(conns := s.conns[c := d.(unanswered := d.unanswered[..k] + d.unanswered[k + 1..],
                                pc := GotReply(d.unanswered[k], a))])
  }

  predicate CanReadParent(s: Core, c: ConnId) { At(s, c) && s.conns[c].pc.GotReply? }

  function ReadParent(s: Core, c: ConnId): Core
    requires CanReadParent(s, c)
  {
    var pc := s.conns[c].pc;
    SetPc(s, c, GotParent(pc.task, pc.answer, if pc.task in s.rows then s.rows[pc.task].parent else 0))
  }

  predicate CanUnmapReply(s: Core, c: ConnId) { At(s, c) && s.conns[c].pc.GotParent? && s.lock.None? }

  function UnmapReply(s: Core, c: ConnId): Core
    requires CanUnmapReply(s, c)
  {
    var pc := s.conns[c].pc;
    SetPc(s, c, ReplyUnmapped(pc.task, pc.answer, pc.parent)).(active := s.active - {pc.task})
  }

  predicate CanIdleReply(s: Core, c: ConnId) { At(s, c) && s.conns[c].pc.ReplyUnmapped? }

  function IdleReply(s: Core, c: ConnId): Core
    requires CanIdleReply(s, c)
  {
    var pc := s.conns[c].pc;
    IdleWorker(SetPc(s, c, ReplyIdled(pc.task, pc.answer, pc.parent)), s.conns[c].worker)
  }

  predicate CanSaveReply(s: Core, c: ConnId) { At(s, c) && s.conns[c].pc.ReplyIdled? }

  function SaveReply(s: Core, c: ConnId): Core
    requires CanSaveReply(s, c)
  {
    var pc := s.conns[c].pc;
    SetPc(s, c, Saved(pc.task, pc.parent))
    .(rows := UpdateTask(s.rows, pc.task, AnswerStatus(pc.answer), pc.answer))
  }

  predicate CanTellTask(s: Core, c: ConnId) { At(s, c) && s.conns[c].pc.Saved? }

  function TellTask(s: Core, c: ConnId): Core
    requires CanTellTask(s, c)
  {
    SetPc(s, c, Told(s.conns[c].pc.parent))
  }

  predicate CanTellBatch(s: Core, c: ConnId) { At(s, c) && s.conns[c].pc.Told? }

  function TellBatch(s: Core, c: ConnId): Core
    requires CanTellBatch(s, c)
  {
    SetPc(s, c, Reading)
  }

  // --------------------------------------------------- connections: cleanup

  predicate CanReadError(s: Core, c: ConnId) { At(s, c) && s.conns[c].pc.Reading? }

  function ReadError(s: Core, c: ConnId): Core
    requires CanReadError(s, c)
  {
    SetPc(s, c, Leaving)
  }

  predicate CanUnregister(s: Core, c: ConnId) { At(s, c) && s.conns[c].pc.Leaving? }

  function Unregister(s: Core, c: ConnId): Core
    requires CanUnregister(s, c)
  {
    SetPc(s, c, Unregistered).(workers := s.workers - {s.conns[c].worker})
  }

  predicate CanClose(s: Core, c: ConnId) { At(s, c) && s.conns[c].pc.Unregistered? }

  function Close(s: Core, c: ConnId): Core
    requires CanClose(s, c)
  {
    s.(conns := s.conns[c := s.conns[c].(pc := Closed, unanswered := [])])
  }

  ghost predicate CanScan(s: Core, c: ConnId, list: seq<TaskId>) {
    && At(s, c) && s.conns[c].pc.Closed? && s.lock.None?
    && Enumerates(list, MappedTo(s, s.conns[c].worker))
  }

  function Scan(s: Core, c: ConnId, list: seq<TaskId>): Core
    requires At(s, c)
  {
    SetPc(s, c, Requeue(list)).(lock := Some(c), keeper := s.keeper + map t | t in list :: c)
  }

  predicate CanUnmapLost(s: Core, c: ConnId) { At(s, c) && s.conns[c].pc.Requeue? && s.conns[c].pc.todo != [] }

  function UnmapLost(s: Core, c: ConnId): Core
    requires CanUnmapLost(s, c)
  {
    var todo := s.conns[c].pc.todo;
    SetPc(s, c, RequeueMark(todo)).(active := s.active - {todo[0]})
  }

  predicate CanMarkLost(s: Core, c: ConnId) { At(s, c) && s.conns[c].pc.RequeueMark? && s.conns[c].pc.todo != [] }

  function MarkLost(s: Core, c: ConnId): Core
    requires CanMarkLost(s, c)
  {
    var todo := s.conns[c].pc.todo;
    SetPc(s, c, RequeuePush(todo)).(rows := UpdateTask(s.rows, todo[0], Pending, NO_ANSWER))
  }

  predicate CanPushLost(s: Core, c: ConnId) {
    At(s, c) && s.conns[c].pc.RequeuePush? && s.conns[c].pc.todo != [] && HasRoom(s)
  }

  function PushLost(s: Core, c: ConnId): Core
    requires CanPushLost(s, c)
  {
    var todo := s.conns[c].pc.todo;
    Push(SetPc(s, c, Requeue(todo[1..])), todo[0])
  }

  predicate CanUnlock(s: Core, c: ConnId) { At(s, c) && s.conns[c].pc == Requeue([]) }

  function Unlock(s: Core, c: ConnId): Core
    requires CanUnlock(s, c)
  {
    SetPc(s, c, Gone).(lock := None)
  }

  // --------------------------------------------------------- the scheduler

  predicate CanDequeue(s: Core) { s.sched.Waiting? && s.queue != [] }

  function Dequeue(s: Core): Core
    requires CanDequeue(s)
  {
    s.(sched := Taken(s.queue[0]), queue := s.queue[1..], taken := s.taken + 1)
  }

  predicate CanLookup(s: Core) { s.sched.Taken? }

  function Lookup(s: Core): Core
    requires CanLookup(s)
  {
    var t := s.sched.task;
    s.(sched := if t in s.rows && s.rows[t].status == Pending then Matching(t, s.rows[t], 0) else Waiting)
  }

  /** The scan's acceptance test for one registered worker. */
  predicate Suits(s: Core, w: WorkerId, tier: int) {
    && w in s.workers && At(s, s.workers[w])
    && !s.conns[s.workers[w]].busy && (tier == 0 || s.conns[s.workers[w]].tier == tier)
  }

  predicate CanMatch(s: Core, w: WorkerId) { s.sched.Matching? && Suits(s, w, s.sched.row.tier) }

  function Match(s: Core, w: WorkerId): Core
    requires CanMatch(s, w)
  {
    var c := s.workers[w];
    s.(sched := Matched(s.sched.task, c), conns := s.conns[c := s.conns[c].(busy := true)])
  }

  predicate CanNoMatch(s: Core) {
    s.sched.Matching? && forall w :: w in s.workers ==> !Suits(s, w, s.sched.row.tier)
  }

  function NoMatch(s: Core): Core
    requires CanNoMatch(s)
  {
    s.(sched := Sleeping(s.sched.task, s.sched.row, s.sched.sleeps + 1, s.now + SLEEP_NS))
  }

  predicate CanRecheck(s: Core) { s.sched.Sleeping? && s.sched.until <= s.now }

  function Recheck(s: Core): Core
    requires CanRecheck(s)
  {
    var t := s.sched.task;
    s.(sched := if t in s.rows && s.rows[t].status == Pending
                then Rechecked(t, s.sched.row, s.sched.sleeps) else Waiting)
  }

  predicate CanCheckAge(s: Core) { s.sched.Rechecked? }

  function CheckAge(s: Core): Core
    requires CanCheckAge(s)
  {
    s.(sched := if s.now - s.sched.row.createdAt > EXPIRY_NS
                then Expiring(s.sched.task, s.sched.row)
                else Matching(s.sched.task, s.sched.row, s.sched.sleeps))
  }

  predicate CanExpire(s: Core) { s.sched.Expiring? }

  function Expire(s: Core): Core
    requires CanExpire(s)
  {
    s.(sched := ExpirySaved(s.sched.task, s.sched.row.parent),
       rows := UpdateTask(s.rows, s.sched.task, Failed, Answer("", "", EXPIRY_MESSAGE)),
       handled := s.handled + if s.taken > 0 then [s.taken - 1] else [])
  }

  predicate CanTellExpiredTask(s: Core) { s.sched.ExpirySaved? }

  function TellExpiredTask(s: Core): Core
    requires CanTellExpiredTask(s)
  {
    s.(sched := ExpiryTold(s.sched.parent))
  }

  predicate CanTellExpiredBatch(s: Core) { s.sched.ExpiryTold? }

  function TellExpiredBatch(s: Core): Core
    requires CanTellExpiredBatch(s)
  {
    s.(sched := Waiting)
  }

  predicate CanMapTask(s: Core) { s.sched.Matched? && At(s, s.sched.target) && s.lock.None? }

  function MapTask(s: Core): Core
    requires CanMapTask(s)
  {
    var t, c := s.sched.task, s.sched.target;
    s.(sched := Mapped(t, c), active := s.active[t := s.conns[c].worker], keeper := s.keeper[t := c])
  }

  predicate CanMarkRunning(s: Core) { s.sched.Mapped? }

  function MarkRunning(s: Core): Core
    requires CanMarkRunning(s)
  {
    s.(sched := Marked(s.sched.task, s.sched.target),
       rows := UpdateTask(s.rows, s.sched.task, Running, NO_ANSWER))
  }

  /** A write can succeed only on a socket the broker has not closed. */
  predicate CanSend(s: Core) { s.sched.Marked? && At(s, s.sched.target) && Open(s.conns[s.sched.target].pc) }

  function Send(s: Core): Core
    requires CanSend(s)
  {
    var t, c := s.sched.task, s.sched.target;
    s.(sched := Waiting,
       conns := s.conns[c := s.conns[c].(unanswered := s.conns[c].unanswered + [t])],
       handled := s.handled + if s.taken > 0 then [s.taken - 1] else [])
  }

  /** A write can fail on any socket. */
  predicate CanFailSend(s: Core) { s.sched.Marked? }

  function FailSend(s: Core): Core
    requires CanFailSend(s)
  {
    s.(sched := SendFailed(s.sched.task, s.sched.target))
  }

  predicate CanUnmapSend(s: Core) { s.sched.SendFailed? && s.lock.None? }

  function UnmapSend(s: Core): Core
    requires CanUnmapSend(s)
  {
    s.(sched := SendUnmapped(s.sched.task, s.sched.target), active := s.active - {s.sched.task})
  }

  predicate CanIdleSend(s: Core) { s.sched.SendUnmapped? && At(s, s.sched.target) }

  function IdleSend(s: Core): Core
    requires CanIdleSend(s)
  {
    IdleWorker(s, s.conns[s.sched.target].worker).(sched := SendIdled(s.sched.task))
  }

  predicate CanMarkSend(s: Core) { s.sched.SendIdled? }

  function MarkSend(s: Core): Core
    requires CanMarkSend(s)
  {
    s.(sched := Requeuing(s.sched.task), rows := UpdateTask(s.rows, s.sched.task, Pending, NO_ANSWER))
  }

  predicate CanPushSend(s: Core) { s.sched.Requeuing? && HasRoom(s) }

  function PushSend(s: Core): Core
    requires CanPushSend(s)
  {
    Push(s.(sched := Waiting), s.sched.task)
  }

  // ------------------------------------------------ steps, runs, reachability

  /** One step of one goroutine, with its nondeterministic choices. */
  datatype SubmitStep =
    | DStartSubmit(parent: int, tier: int, count: nat) | DCreateTask(i: nat, t: TaskId)
    | DPushTask(i: nat)

  datatype ReplyStep =
    | DReadReply(k: nat, answer: Answer) | DReadParent | DUnmapReply | DIdleReply | DSaveReply
    | DTellTask | DTellBatch

  datatype CleanupStep =
    | DReadError | DUnregister | DClose | DScan(list: seq<TaskId>) | DUnmapLost | DMarkLost
    | DPushLost | DUnlock

  datatype MatchStep =
    | DDequeue | DLookup | DMatch(w: WorkerId) | DNoMatch | DRecheck | DCheckAge | DExpire
    | DTellExpiredTask | DTellExpiredBatch

  datatype DispatchStep =
    | DMapTask | DMarkRunning | DSend | DFailSend | DUnmapSend | DIdleSend | DMarkSend | DPushSend

  /** A step of the system: the clock, a submission, a new worker, a connection, or the scheduler's two halves. */
  datatype Step =
    | Clock(d: nat)
    | Submission(submit: SubmitStep)
    | Joining(w: WorkerId, tier: int)
    | Replying(c: ConnId, reply: ReplyStep)
    | CleaningUp(c: ConnId, cleanup: CleanupStep)
    | Matchmaking(find: MatchStep)
    | Dispatching(send: DispatchStep)

  ghost predicate SubmitEnabled(s: Core, step: SubmitStep) {
    match step
    case DStartSubmit(parent, _, count) => CanStartSubmit(s, parent, count)
    case DCreateTask(i, t) => CanCreateTask(s, i, t)
    case DPushTask(i) => CanPushTask(s, i)
  }

  ghost function SubmitApply(s: Core, step: SubmitStep): Core
    requires SubmitEnabled(s, step)
  {
    match step
    case DStartSubmit(parent, tier, count) => StartSubmit(s, parent, tier, count)
    case DCreateTask(i, t) => CreateTask(s, i, t)
    case DPushTask(i) => PushTask(s, i)
  }

  ghost predicate ReplyEnabled(s: Core, c: ConnId, step: ReplyStep) {
    match step
    case DReadReply(k, _) => CanReadReply(s, c, k)
    case DReadParent => CanReadParent(s, c)
    case DUnmapReply => CanUnmapReply(s, c)
    case DIdleReply => CanIdleReply(s, c)
    case DSaveReply => CanSaveReply(s, c)
    case DTellTask => CanTellTask(s, c)
    case DTellBatch => CanTellBatch(s, c)
  }

  ghost function ReplyApply(s: Core, c: ConnId, step: ReplyStep): Core
    requires ReplyEnabled(s, c, step)
  {
    match step
    case DReadReply(k, answer) => ReadReply(s, c, k, answer)
    case DReadParent => ReadParent(s, c)
    case DUnmapReply => UnmapReply(s, c)
    case DIdleReply => IdleReply(s, c)
    case DSaveReply => SaveReply(s, c)
    case DTellTask => TellTask(s, c)
    case DTellBatch => TellBatch(s, c)
  }

  ghost predicate CleanupEnabled(s: Core, c: ConnId, step: CleanupStep) {
    match step
    case DReadError => CanReadError(s, c)
    case DUnregister => CanUnregister(s, c)
    case DClose => CanClose(s, c)
    case DScan(list) => CanScan(s, c, list)
    case DUnmapLost => CanUnmapLost(s, c)
    case DMarkLost => CanMarkLost(s, c)
    case DPushLost => CanPushLost(s, c)
    case DUnlock => CanUnlock(s, c)
  }

  ghost function CleanupApply(s: Core, c: ConnId, step: CleanupStep): Core
    requires CleanupEnabled(s, c, step)
  {
    match step
    case DReadError => ReadError(s, c)
    case DUnregister => Unregister(s, c)
    case DClose => Close(s, c)
    case DScan(list) => Scan(s, c, list)
    case DUnmapLost => UnmapLost(s, c)
    case DMarkLost => MarkLost(s, c)
    case DPushLost => PushLost(s, c)
    case DUnlock => Unlock(s, c)
  }

  ghost predicate MatchEnabled(s: Core, step: MatchStep) {
    match step
    case DDequeue => CanDequeue(s)
    case DLookup => CanLookup(s)
    case DMatch(w) => CanMatch(s, w)
    case DNoMatch => CanNoMatch(s)
    case DRecheck => CanRecheck(s)
    case DCheckAge => CanCheckAge(s)
    case DExpire => CanExpire(s)
    case DTellExpiredTask => CanTellExpiredTask(s)
    case DTellExpiredBatch => CanTellExpiredBatch(s)
  }

  ghost function MatchApply(s: Core, step: MatchStep): Core
    requires MatchEnabled(s, step)
  {
    match step
    case DDequeue => Dequeue(s)
    case DLookup => Lookup(s)
    case DMatch(w) => Match(s, w)
    case DNoMatch => NoMatch(s)
    case DRecheck => Recheck(s)
    case DCheckAge => CheckAge(s)
    case DExpire => Expire(s)
    case DTellExpiredTask => TellExpiredTask(s)
    case DTellExpiredBatch => TellExpiredBatch(s)
  }

  ghost predicate DispatchEnabled(s: Core, step: DispatchStep) {
    match step
    case DMapTask => CanMapTask(s)
    case DMarkRunning => CanMarkRunning(s)
    case DSend => CanSend(s)
    case DFailSend => CanFailSend(s)
    case DUnmapSend => CanUnmapSend(s)
    case DIdleSend => CanIdleSend(s)
    case DMarkSend => CanMarkSend(s)
    case DPushSend => CanPushSend(s)
  }

  ghost function DispatchApply(s: Core, step: DispatchStep): Core
    requires DispatchEnabled(s, step)
  {
    match step
    case DMapTask => MapTask(s)
    case DMarkRunning => MarkRunning(s)
    case DSend => Send(s)
    case DFailSend => FailSend(s)
    case DUnmapSend => UnmapSend(s)
    case DIdleSend => IdleSend(s)
    case DMarkSend => MarkSend(s)
    case DPushSend => PushSend(s)
  }

  ghost predicate Enabled(s: Core, step: Step) {
    match step
    case Clock(_) => true
    case Submission(u) => SubmitEnabled(s, u)
    case Joining(w, _) => CanRegister(s, w)
    case Replying(c, u) => ReplyEnabled(s, c, u)
    case CleaningUp(c, u) => CleanupEnabled(s, c, u)
    case Matchmaking(u) => MatchEnabled(s, u)
    case Dispatching(u) => DispatchEnabled(s, u)
  }

  ghost function Apply(s: Core, step: Step): Core
    requires Enabled(s, step)
  {
    match step
    case Clock(d) => Tick(s, d)
    case Submission(u) => SubmitApply(s, u)
    case Joining(w, tier) => Register(s, w, tier)
    case Replying(c, u) => ReplyApply(s, c, u)
    case CleaningUp(c, u) => CleanupApply(s, c, u)
    case Matchmaking(u) => MatchApply(s, u)
    case Dispatching(u) => DispatchApply(s, u)
  }

  ghost predicate CanRun(s: Core, steps: seq<Step>)
    decreases |steps|
  {
    steps == [] || (Enabled(s, steps[0]) && CanRun(Apply(s, steps[0]), steps[1..]))
  }

  ghost function RunFrom(s: Core, steps: seq<Step>): Core
    requires CanRun(s, steps)
    decreases |steps|
  {
    if steps == [] then s else RunFrom(Apply(s, steps[0]), steps[1..])
  }

  /** Some interleaving, from an empty broker started at some clock reading, ends in `s`. */
  ghost predicate Reachable(s: Core) {
    exists now, steps :: CanRun(Init(now), steps) && RunFrom(Init(now), steps) == s
  }
}
