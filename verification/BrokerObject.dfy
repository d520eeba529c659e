/**
 The broker as an object whose goroutines update shared fields in place, with the
 control flow of the source.  Between any two steps of a goroutine the others may
 run; each method is proved to perform a run of the transition system, whatever
 they do, and to end where the source promises.
 */
module BrokerObject {
  import opened Wrappers
  import opened BrokerCore
  import opened BrokerInvariant
  import opened BrokerSafety
  import opened BrokerRuns
  import LongPoll

  /** How one turn of the scheduler's loop ended for the task it received. */
  datatype Outcome =
    | Idle                        // nothing queued
    | Skipped(task: TaskId)       // not pending any more
    | Expired(task: TaskId)       // failed for want of a worker
    | Sent(task: TaskId, c: ConnId)
    | Requeued(task: TaskId)      // the socket write failed
    | Blocked(task: TaskId)       // out of patience at the lock or the full queue

  class Broker {
    var rows: map<TaskId, Row>
    var queue: seq<TaskId>
    var active: map<TaskId, WorkerId>
    var lock: Option<ConnId>
    var workers: map<WorkerId, ConnId>
    var conns: seq<Conn>
    var sched: SchedPc
    var subs: seq<Submitter>
    var now: int
    ghost var keeper: map<TaskId, ConnId>
    ghost var pushed: seq<TaskId>
    ghost var taken: nat
    ghost var handled: seq<nat>

    ghost function View(): Core
      reads this
    {
      Core(rows, queue, active, lock, workers, conns, sched, subs, now, keeper, pushed, taken, handled)
    }

    /** The object is in a state that a run from `start` reaches. */
    ghost predicate Since(start: Core)
      reads this
    {
      Reachable(start) && Leads(start, View())
    }

    constructor (start: int)
      ensures View() == Init(start) && Inv(View())
    {
      rows, queue, active, lock := map[], [], map[], None;
      workers, conns, sched, subs, now := map[], [], Waiting, [], start;
      keeper, pushed, taken, handled := map[], [], 0, [];
    }

    // ------------------------------------------------------ waiting for others

    /**
     The other goroutines run.  A caller knows no more than this contract, which
     allows every run of theirs; the body is the run in which they all pause.
     */
    method Others(me: Goroutine, ghost start: Core)
      requires Since(start)
      modifies this
      ensures Since(start) && Mine(old(View()), View(), me)
    {
    }

    /** Wait for activeTasksMu, looking at it at most `patience` times. */
    method AwaitLock(me: Goroutine, patience: nat, ghost start: Core) returns (free: bool)
      requires Since(start)
      modifies this
      ensures Since(start) && Mine(old(View()), View(), me)
      ensures free <==> lock.None?
    {
      for n := 0 to patience
        invariant Since(start) && Mine(old(View()), View(), me)
      {
        if lock.None? { return true; }
        Others(me, start);
      }
      free := lock.None?;
    }

    /** Wait for a free slot in the queue. */
    method AwaitRoom(me: Goroutine, patience: nat, ghost start: Core) returns (room: bool)
      requires Since(start)
      modifies this
      ensures Since(start) && Mine(old(View()), View(), me)
      ensures room <==> HasRoom(View())
    {
      for n := 0 to patience
        invariant Since(start) && Mine(old(View()), View(), me)
      {
        if |queue| < QUEUE_CAPACITY { return true; }
        Others(me, start);
      }
      room := |queue| < QUEUE_CAPACITY;
    }

    // -------------------------------------------------------- shared statements

    method UpdateTaskDB(t: TaskId, status: Status, a: Answer)
      modifies this`rows
      ensures rows == UpdateTask(old(rows), t, status, a)
    {
      if t in rows {
        rows := rows[t := rows[t].(status := status, stdout := a.stdout, receipt := a.receipt, error := a.error)];
      }
    }

    method Enqueue(t: TaskId)
      requires |queue| < QUEUE_CAPACITY
      modifies this`queue, this`pushed
      ensures View() == Push(old(View()), t)
    {
      queue := queue + [t];
      pushed := pushed + [t];
    }

    method SetConnPc(c: ConnId, pc: ConnPc)
      requires c < |conns|
      modifies this`conns
      ensures View() == SetPc(old(View()), c, pc)
    {
      conns := conns[c := conns[c].(pc := pc)];
    }

    method ClearBusy(w: WorkerId)
      requires w in workers ==> workers[w] < |conns|
      modifies this`conns
      ensures View() == IdleWorker(old(View()), w)
    {
      if w in workers {
        var c := workers[w];
        conns := conns[c := conns[c].(busy := false)];
      }
    }

    // --------------------------------------------------------- the reply handler

    /** One reply, from reading it to the last notification. */
    method HandleReply(c: ConnId, k: nat, a: Answer, patience: nat, ghost start: Core) returns (done: bool)
      requires Since(start) && CanReadReply(View(), c, k)
      modifies this
      ensures Since(start) && c < |conns| && conns[c].worker == old(conns[c].worker)
      ensures done ==> Recorded(View(), old(conns[c].unanswered[k]), a) && old(conns[c].unanswered[k]) !in active
      ensures done ==> conns[c].pc.Reading?
      ensures !done ==> conns[c].pc.GotParent? && lock.Some?
    {
      var t := conns[c].unanswered[k];
      var parent := ReadReply(c, k, a, start);
      done := AwaitLock(TheHandler(c), patience, start);
      if !done { return; }

      ghost var s := View();
      active := active - {t};
      SetConnPc(c, ReplyUnmapped(t, a, parent));
      ReplyOn(start, s, c, DUnmapReply);
      Others(TheHandler(c), start);
      FinishReply(c, t, a, parent, start);
    }

    /** Receive the reply and look up the task's batch. */
    method ReadReply(c: ConnId, k: nat, a: Answer, ghost start: Core) returns (parent: int)
      requires Since(start) && CanReadReply(View(), c, k)
      modifies this
      ensures Since(start) && c < |conns| && conns[c].worker == old(conns[c].worker)
      ensures conns[c].pc == GotParent(old(conns[c].unanswered[k]), a, parent)
    {
      var d := conns[c];
      var t := d.unanswered[k];
      ghost var s := View();
      conns := conns[c := d.(unanswered := d.unanswered[..k] + d.unanswered[k + 1..], pc := GotReply(t, a))];
      ReplyOn(start, s, c, DReadReply(k, a));
      Others(TheHandler(c), start);

      s := View();
      parent := if t in rows then rows[t].parent else 0;
      SetConnPc(c, GotParent(t, a, parent));
      ReplyOn(start, s, c, DReadParent);
    }

    /** The rest of the handler, after the mapping is gone. */
    method FinishReply(c: ConnId, t: TaskId, a: Answer, parent: int, ghost start: Core)
      requires Since(start) && c < |conns| && conns[c].pc == ReplyUnmapped(t, a, parent)
      modifies this
      ensures Since(start) && c < |conns| && conns[c].worker == old(conns[c].worker)
      ensures Recorded(View(), t, a) && t !in active && conns[c].pc.Reading?
    {
      FreeWorker(c, t, a, parent, start);
      Others(TheHandler(c), start);
      Save(c, t, a, parent, start);
      Others(TheHandler(c), start);
      Tell(c, parent, start);
      FinishedIsUnmapped(start, View(), t);
    }

    method FreeWorker(c: ConnId, t: TaskId, a: Answer, parent: int, ghost start: Core)
      requires Since(start) && c < |conns| && conns[c].pc == ReplyUnmapped(t, a, parent)
      modifies this
      ensures Since(start) && c < |conns| && conns[c].worker == old(conns[c].worker)
      ensures conns[c].pc == ReplyIdled(t, a, parent)
    {
      ghost var s := View();
      if conns[c].worker in workers { RegistryIsSane(start, s, conns[c].worker); }
      conns := conns[c := conns[c].(pc := ReplyIdled(t, a, parent))];
      ClearBusy(conns[c].worker);
      ReplyOn(start, s, c, DIdleReply);
    }

    method Save(c: ConnId, t: TaskId, a: Answer, parent: int, ghost start: Core)
      requires Since(start) && c < |conns| && conns[c].pc == ReplyIdled(t, a, parent)
      modifies this
      ensures Since(start) && c < |conns| && conns[c].worker == old(conns[c].worker)
      ensures Recorded(View(), t, a) && conns[c].pc == Saved(t, parent)
    {
      ghost var s := View();
      TaskIsThere(start, s, c);
      var status := Completed;
      if a.error != "" { status := Failed; }
      UpdateTaskDB(t, status, a);
      SetConnPc(c, Saved(t, parent));
      ReplyOn(start, s, c, DSaveReply);
    }

    /** Wake the waiters of the task, then those of its batch. */
    method Tell(c: ConnId, parent: int, ghost start: Core)
      requires Since(start) && c < |conns| && conns[c].pc.Saved? && conns[c].pc.parent == parent
      modifies this
      ensures Since(start) && c < |conns| && conns[c].worker == old(conns[c].worker) && conns[c].pc.Reading?
      ensures LongPoll.Grows(old(rows), rows)
    {
      ghost var s := View();
      SetConnPc(c, Told(parent));
      ReplyOn(start, s, c, DTellTask);
      Others(TheHandler(c), start);

      s := View();
      SetConnPc(c, Reading);
      ReplyOn(start, s, c, DTellBatch);
    }

    // ------------------------------------------------------ the deferred cleanup

    /** The scan of activeTasks for a disconnected worker, in some map order. */
    method CollectTasks(w: WorkerId) returns (list: seq<TaskId>)
      ensures Enumerates(list, MappedTo(View(), w))
    {
      list := [];
      var left := active.Keys;
      while left != {}
        invariant left <= active.Keys
        invariant forall t :: t in list <==> t in active && t !in left && active[t] == w
        invariant forall i, j :: 0 <= i < j < |list| ==> list[i] != list[j]
        decreases left
      {
        var t :| t in left;
        left := left - {t};
        if active[t] == w { list := list + [t]; }
      }
    }

    /** The whole cleanup of a lost connection. */
    method Cleanup(c: ConnId, patience: nat, ghost start: Core) returns (done: bool, ghost lost: seq<TaskId>)
      requires Since(start) && c < |conns| && conns[c].pc.Leaving?
      modifies this
      ensures Since(start) && c < |conns| && conns[c].worker == old(conns[c].worker)
      ensures done ==> conns[c].pc.Gone? && lock.None?
      ensures done ==> old(conns[c].worker) !in workers && MappedTo(View(), old(conns[c].worker)) == {}
      ensures done ==> AllQueued(old(pushed), pushed, lost)
      ensures !done ==> (conns[c].pc.Closed? && lock.Some?) || (conns[c].pc.RequeuePush? && !HasRoom(View()))
    {
      var w := conns[c].worker;
      Depart(c, start);
      done := AwaitLock(TheHandler(c), patience, start);
      lost := [];
      if !done { return; }

      var list := LockAndScan(c, start);
      lost := list;
      done := RequeueAll(c, w, list, patience, start);
    }

    /** Take the free lock and list what is mapped to the worker. */
    method LockAndScan(c: ConnId, ghost start: Core) returns (list: seq<TaskId>)
      requires Since(start) && c < |conns| && conns[c].pc.Closed? && lock.None?
      modifies this
      ensures Since(start) && c < |conns| && conns[c].worker == old(conns[c].worker)
      ensures conns[c].pc == Requeue(list) && Enumerates(list, MappedTo(View(), conns[c].worker))
      ensures pushed == old(pushed)
    {
      ghost var s := View();
      list := CollectTasks(conns[c].worker);
      lock := Some(c);
      keeper := keeper + map t | t in list :: c;
      SetConnPc(c, Requeue(list));
      CleanupOn(start, s, c, DScan(list));
    }

    /** Leave the registry, then close the socket. */
    method Depart(c: ConnId, ghost start: Core)
      requires Since(start) && c < |conns| && conns[c].pc.Leaving?
      modifies this
      ensures Since(start) && c < |conns| && conns[c].worker == old(conns[c].worker)
      ensures conns[c].pc.Closed? && old(pushed) <= pushed
    {
      ghost var s := View();
      workers := workers - {conns[c].worker};
      SetConnPc(c, Unregistered);
      CleanupOn(start, s, c, DUnregister);
      Others(TheHandler(c), start);

      s := View();
      conns := conns[c := conns[c].(unanswered := [], pc := Closed)];
      CleanupOn(start, s, c, DClose);
    }

    /** The requeue loop under the lock, and the unlock. */
    method RequeueAll(c: ConnId, w: WorkerId, list: seq<TaskId>, patience: nat, ghost start: Core)
      returns (done: bool)
      requires Since(start) && c < |conns| && conns[c].worker == w && conns[c].pc == Requeue(list)
      requires Enumerates(list, MappedTo(View(), w))
      modifies this
      ensures Since(start) && c < |conns| && conns[c].worker == w
      ensures done ==> conns[c].pc.Gone? && lock.None? && w !in workers && MappedTo(View(), w) == {}
      ensures done ==> AllQueued(old(pushed), pushed, list)
      ensures !done ==> conns[c].pc.RequeuePush? && !HasRoom(View())
    {
      HolderHasLock(start, View(), c);
      assert forall t :: t in list <==> t in MappedTo(View(), w);
      for n := 0 to |list|
        invariant Since(start) && c < |conns| && conns[c].worker == w
        invariant conns[c].pc == Requeue(list[n..]) && lock == Some(c)
        invariant MappedIn(View(), w, list[n..])
        invariant AllQueued(old(pushed), pushed, list[..n])
      {
        ghost var before, s := pushed, View();
        var rest := list[n..];
        assert rest[1..] == list[n + 1..] && rest[0] == list[n];
        done := RequeueOne(c, w, rest, patience, start);
        if !done { return; }
        Others(TheHandler(c), start);
        MappedOneLess(s, View(), w, rest);
        QueuedOneMore(old(pushed), before, pushed, list, n);
      }
      assert list[..|list|] == list;
      Unlock(c, start);
      done := true;
    }

    method Unlock(c: ConnId, ghost start: Core)
      requires Since(start) && c < |conns| && conns[c].pc == Requeue([])
      modifies this
      ensures Since(start) && c < |conns| && conns[c].pc.Gone? && lock.None?
      ensures conns[c].worker == old(conns[c].worker) && conns[c].worker !in workers
      ensures active == old(active) && pushed == old(pushed)
    {
      ghost var s := View();
      lock := None;
      SetConnPc(c, Gone);
      CleanupOn(start, s, c, DUnlock);
      GoneFromRegistry(start, s, c);
    }

    /** One turn of the requeue loop: unmap, mark pending, push. */
    method RequeueOne(c: ConnId, w: WorkerId, todo: seq<TaskId>, patience: nat, ghost start: Core)
      returns (done: bool)
      requires Since(start) && c < |conns| && conns[c].worker == w && lock == Some(c)
      requires todo != [] && conns[c].pc == Requeue(todo)
      modifies this
      ensures Since(start) && c < |conns| && conns[c].worker == w && lock == Some(c)
      ensures active == old(active) - {todo[0]}
      ensures done ==> conns[c].pc == Requeue(todo[1..]) && PushedLast(old(pushed), pushed, todo[0])
      ensures !done ==> conns[c].pc.RequeuePush? && !HasRoom(View())
    {
      UnmapLost(c, todo, start);
      Others(TheHandler(c), start);
      MarkLost(c, todo, start);
      done := AwaitRoom(TheHandler(c), patience, start);
      if done { PushLost(c, todo, start); }
    }

    method PushLost(c: ConnId, todo: seq<TaskId>, ghost start: Core)
      requires Since(start) && c < |conns| && todo != [] && conns[c].pc == RequeuePush(todo) && HasRoom(View())
      modifies this
      ensures Since(start) && c < |conns| && conns[c].worker == old(conns[c].worker) && lock == old(lock)
      ensures active == old(active) && pushed == old(pushed) + [todo[0]] && conns[c].pc == Requeue(todo[1..])
    {
      ghost var s := View();
      SetConnPc(c, Requeue(todo[1..]));
      Enqueue(todo[0]);
      CleanupOn(start, s, c, DPushLost);
    }

    method UnmapLost(c: ConnId, todo: seq<TaskId>, ghost start: Core)
      requires Since(start) && c < |conns| && lock == Some(c) && todo != [] && conns[c].pc == Requeue(todo)
      modifies this
      ensures Since(start) && c < |conns| && conns[c].worker == old(conns[c].worker) && lock == Some(c)
      ensures active == old(active) - {todo[0]} && old(pushed) == pushed && conns[c].pc == RequeueMark(todo)
    {
      ghost var s := View();
      active := active - {todo[0]};
      SetConnPc(c, RequeueMark(todo));
      CleanupOn(start, s, c, DUnmapLost);
    }

    method MarkLost(c: ConnId, todo: seq<TaskId>, ghost start: Core)
      requires Since(start) && c < |conns| && todo != [] && conns[c].pc == RequeueMark(todo)
      modifies this
      ensures Since(start) && c < |conns| && conns[c].worker == old(conns[c].worker) && lock == old(lock)
      ensures active == old(active) && old(pushed) == pushed && conns[c].pc == RequeuePush(todo)
    {
      ghost var s := View();
      UpdateTaskDB(todo[0], Pending, NO_ANSWER);
      SetConnPc(c, RequeuePush(todo));
      CleanupOn(start, s, c, DMarkLost);
    }

    /** Enter the registry; then the log line panics on a short worker ID. */
    method Register(w: WorkerId, tier: int) returns (c: ConnId)
      requires Reachable(View()) && CanRegister(View(), w)
      modifies this
      ensures Since(old(View())) && c < |conns| && conns[c].worker == w && w in workers && workers[w] == c
      ensures c == |old(conns)| && conns[c].tier == tier
      ensures if |w| < 8 then conns[c].pc.Crashed? else conns[c].pc.Reading?
    {
      ghost var start := View();
      assert CanRun(start, []);
      c := |conns|;
      workers := workers[w := c];
      conns := conns + [Conn(w, tier, false, [], PcOnJoin(w))];
      LeadsOn(start, start, Joining(w, tier));
    }

    /** ReadMessage fails: the reply loop ends. */
    method LoseConnection(c: ConnId, ghost start: Core)
      requires Since(start) && c < |conns| && conns[c].pc.Reading?
      modifies this
      ensures Since(start) && c < |conns| && conns[c].worker == old(conns[c].worker) && conns[c].pc.Leaving?
    {
      ghost var s := View();
      SetConnPc(c, Leaving);
      CleanupOn(start, s, c, DReadError);
    }

    /** A worker's connection from registration to the end, receiving the answers in `inbox` in this order. */
    method HandleWorker(w: WorkerId, tier: int, inbox: seq<Answer>, patience: nat) returns (done: bool)
      requires Reachable(View()) && CanRegister(View(), w)
      modifies this
      ensures Leads(old(View()), View())
      ensures At(View(), |old(conns)|) && conns[|old(conns)|].worker == w && conns[|old(conns)|].tier == tier
      ensures done ==> lock.None? && w !in workers && MappedTo(View(), w) == {}
      ensures |w| < 8 ==>
                !done && w in workers && At(View(), workers[w]) && conns[workers[w]].pc.Crashed?
    {
      ghost var before := View();
      var c := Register(w, tier);
      if |w| < LOGGED_ID_LENGTH { return false; }
      ghost var joined := View();
      LeadsReachable(before, joined);
      done := Serve(c, inbox, patience, joined);
      LeadsThrough(before, joined, View());
      LeadsKeepsWorker(joined, View(), c);
    }

    /** The reply loop and the deferred cleanup of a registered connection. */
    method Serve(c: ConnId, inbox: seq<Answer>, patience: nat, ghost start: Core) returns (done: bool)
      requires Since(start) && c < |conns| && conns[c].pc.Reading?
      modifies this
      ensures Since(start)
      ensures var w := old(conns[c].worker); done ==> lock.None? && w !in workers && MappedTo(View(), w) == {}
    {
      Others(TheHandler(c), start);
      var n := 0;
      while n < |inbox| && conns[c].unanswered != []
        invariant Since(start) && c < |conns| && conns[c].pc.Reading? && conns[c].worker == old(conns[c].worker)
      {
        done := HandleReply(c, 0, inbox[n], patience, start);
        if !done { return; }
        Others(TheHandler(c), start);
        n := n + 1;
      }
      LoseConnection(c, start);
      Others(TheHandler(c), start);
      ghost var lost: seq<TaskId>;
      done, lost := Cleanup(c, patience, start);
    }

    // --------------------------------------------------------------- scheduler

    /** The scan for an idle worker of the right tier, in some map order. */
    method FindWorker(tier: int) returns (found: Option<WorkerId>)
      requires forall w :: w in workers ==> workers[w] < |conns|
      ensures found.Some? ==> Suits(View(), found.value, tier)
      ensures found.None? ==> forall w :: w in workers ==> !Suits(View(), w, tier)
    {
      var left := workers.Keys;
      while left != {}
        invariant left <= workers.Keys
        invariant forall w :: w in workers && w !in left ==> !Suits(View(), w, tier)
        decreases left
      {
        var w :| w in left;
        var worker := conns[workers[w]];
        if !worker.busy && (tier == 0 || worker.tier == tier) { return Some(w); }
        left := left - {w};
      }
      found := None;
    }

    /** One turn of the scheduler's loop; `accepted` tells whether the socket takes the write. */
    method Schedule(accepted: bool, patience: nat) returns (o: Outcome)
      requires Reachable(View()) && sched.Waiting?
      modifies this
      ensures Leads(old(View()), View())
      ensures o.Idle? <==> old(queue) == []
      ensures !o.Idle? ==> o.task == old(queue)[0] && taken == old(taken) + 1
      ensures o.Blocked? <==> !sched.Waiting?
      ensures EndsAs(o)
    {
      ghost var start := View();
      assert CanRun(start, []);
      if queue == [] { return Idle; }
      var t := queue[0];
      sched, queue, taken := Taken(t), queue[1..], taken + 1;
      MatchOn(start, start, DDequeue);
      Others(TheScheduler, start);
      o := Search(t, start);
      if o.Sent? { o := Dispatch(t, o.c, accepted, patience, start); }
    }

    /** What each outcome means at the moment the turn ends. */
    ghost predicate EndsAs(o: Outcome)
      reads this
    {
      match o
      case Idle => true
      case Skipped(t) => !IsPending(View(), t)
      case Expired(t) => Recorded(View(), t, Answer("", "", EXPIRY_MESSAGE))
      case Sent(t, c) => At(View(), c) && t in conns[c].unanswered && Delivered(View(), c, t)
      case Requeued(t) => IsPending(View(), t) && t !in active && queue != [] && queue[|queue| - 1] == t
      case Blocked(t) =>
        || ((sched.Matched? || sched.SendFailed?) && sched.task == t && lock.Some?)
        || (sched == Requeuing(t) && !HasRoom(View()))
    }

    /** Look the task up, then scan, sleep, re-read and check its age until it is matched or failed. */
    method Search(t: TaskId, ghost start: Core) returns (o: Outcome)
      requires Since(start) && sched == Taken(t)
      modifies this
      ensures Since(start) && taken == old(taken)
      ensures (o == Skipped(t) && !IsPending(View(), t)) || (o == Expired(t) && EndsAs(o)) || (o.Sent? && o.task == t)
      ensures if o.Sent? then sched == Matched(t, o.c) else sched.Waiting?
    {
      var found := Lookup(t, start);
      if found.None? { return Skipped(t); }
      var row := found.value;
      var sleeps := 0;
      while true
        invariant Since(start) && taken == old(taken) && sched == Matching(t, row, sleeps) && sleeps <= 60
        decreases 60 - sleeps
      {
        Others(TheScheduler, start);
        var target := TryMatch(t, row, sleeps, start);
        if target.Some? { return Sent(t, target.value); }
        Sleep(start);
        var expired := FailIfOld(t, row, sleeps + 1, start);
        if expired { return Expired(t); }
        sleeps := sleeps + 1;
        MatchingIsBounded(start, View());
      }
    }

    method Lookup(t: TaskId, ghost start: Core) returns (row: Option<Row>)
      requires Since(start) && sched == Taken(t)
      modifies this
      ensures Since(start) && taken == old(taken)
      ensures row.Some? <==> IsPending(View(), t)
      ensures sched == if row.Some? then Matching(t, row.value, 0) else Waiting
    {
      ghost var s := View();
      row := if t in rows && rows[t].status == Pending then Some(rows[t]) else None;
      sched := if row.Some? then Matching(t, row.value, 0) else Waiting;
      MatchOn(start, s, DLookup);
    }

    method TryMatch(t: TaskId, row: Row, sleeps: nat, ghost start: Core) returns (target: Option<ConnId>)
      requires Since(start) && sched == Matching(t, row, sleeps)
      modifies this
      ensures Since(start) && taken == old(taken)
      ensures target.Some? ==> sched == Matched(t, target.value)
      ensures target.None? ==> sched == Sleeping(t, row, sleeps + 1, now + SLEEP_NS)
    {
      ghost var s := View();
      forall w | w in workers ensures workers[w] < |conns| { RegistryIsSane(start, s, w); }
      var found := FindWorker(row.tier);
      if found.Some? {
        target := Some(workers[found.value]);
        Reserve(t, row, sleeps, found.value, start);
      } else {
        sched := Sleeping(t, row, sleeps + 1, now + SLEEP_NS);
        MatchOn(start, s, DNoMatch);
        target := None;
      }
    }

    method Reserve(t: TaskId, row: Row, sleeps: nat, w: WorkerId, ghost start: Core)
      requires Since(start) && sched == Matching(t, row, sleeps) && Suits(View(), w, row.tier)
      modifies this
      ensures Since(start) && taken == old(taken) && sched == Matched(t, old(workers)[w])
    {
      ghost var s := View();
      var c := workers[w];
      conns := conns[c := conns[c].(busy := true)];
      sched := Matched(t, c);
      MatchOn(start, s, DMatch(w));
    }

    /** time.Sleep, and the second look at the status: it is still pending, for nobody else can move the task. */
    method Sleep(ghost start: Core)
      requires Since(start) && sched.Sleeping?
      modifies this
      ensures Since(start) && taken == old(taken)
      ensures sched == Rechecked(old(sched.task), old(sched.row), old(sched.sleeps))
    {
      Others(TheScheduler, start);
      ghost var s := View();
      if now < sched.until {
        now := sched.until;
        LeadsOn(start, s, Clock(s.sched.until - s.now));
      }
      Others(TheScheduler, start);
      s := View();
      SleeperIsPending(start, s);
      sched := Rechecked(sched.task, sched.row, sched.sleeps);
      MatchOn(start, s, DRecheck);
    }

    method FailIfOld(t: TaskId, row: Row, sleeps: nat, ghost start: Core) returns (expired: bool)
      requires Since(start) && sched == Rechecked(t, row, sleeps)
      modifies this
      ensures Since(start) && taken == old(taken)
      ensures expired ==> sched.Waiting? && EndsAs(Expired(t))
      ensures !expired ==> sched == Matching(t, row, sleeps)
    {
      expired := CheckAge(start);
      if expired { Fail(t, row, start); }
    }

    method CheckAge(ghost start: Core) returns (expired: bool)
      requires Since(start) && sched.Rechecked?
      modifies this
      ensures Since(start) && taken == old(taken)
      ensures var t, row, n := old(sched.task), old(sched.row), old(sched.sleeps);
              sched == if expired then Expiring(t, row) else Matching(t, row, n)
    {
      Others(TheScheduler, start);
      ghost var s := View();
      expired := now - sched.row.createdAt > EXPIRY_NS;
      sched := if expired then Expiring(sched.task, sched.row) else Matching(sched.task, sched.row, sched.sleeps);
      MatchOn(start, s, DCheckAge);
    }

    /** Fail the task and wake its waiters and those of its batch. */
    method Fail(t: TaskId, row: Row, ghost start: Core)
      requires Since(start) && sched == Expiring(t, row)
      modifies this
      ensures Since(start) && taken == old(taken) && sched.Waiting?
      ensures Recorded(View(), t, Answer("", "", EXPIRY_MESSAGE))
    {
      Others(TheScheduler, start);
      MarkFailed(t, row, start);
      Others(TheScheduler, start);
      ghost var s := View();
      sched := ExpiryTold(row.parent);
      MatchOn(start, s, DTellExpiredTask);
      Others(TheScheduler, start);
      s := View();
      sched := Waiting;
      MatchOn(start, s, DTellExpiredBatch);
    }

    method MarkFailed(t: TaskId, row: Row, ghost start: Core)
      requires Since(start) && sched == Expiring(t, row)
      modifies this
      ensures Since(start) && taken == old(taken) && sched == ExpirySaved(t, row.parent)
      ensures Recorded(View(), t, Answer("", "", EXPIRY_MESSAGE))
    {
      ghost var s := View();
      SchedTaskIsThere(start, s);
      UpdateTaskDB(t, Failed, Answer("", "", EXPIRY_MESSAGE));
      handled := handled + if taken > 0 then [taken - 1] else [];
      sched := ExpirySaved(t, row.parent);
      MatchOn(start, s, DExpire);
    }

    /** Record the match, mark the task running, write to the socket. */
    method Dispatch(t: TaskId, c: ConnId, accepted: bool, patience: nat, ghost start: Core) returns (o: Outcome)
      requires Since(start) && sched == Matched(t, c)
      modifies this
      ensures Since(start) && taken == old(taken) && !o.Idle? && o.task == t && EndsAs(o)
      ensures o.Blocked? <==> !sched.Waiting?
    {
      var free := AwaitLock(TheScheduler, patience, start);
      if !free { return Blocked(t); }
      Map(t, c, start);
      Others(TheScheduler, start);
      MarkRunning(t, c, start);
      Others(TheScheduler, start);
      var sent := Write(t, c, accepted, start);
      if sent { o := Sent(t, c); } else { o := Undo(t, c, patience, start); }
    }

    /** The socket write: it can succeed only on an open socket. */
    method Write(t: TaskId, c: ConnId, accepted: bool, ghost start: Core) returns (sent: bool)
      requires Since(start) && sched == Marked(t, c)
      modifies this
      ensures Since(start) && taken == old(taken)
      ensures sent ==> sched.Waiting? && EndsAs(Sent(t, c))
      ensures !sent ==> sched == SendFailed(t, c)
    {
      ghost var s := View();
      TargetIsThere(start, s);
      sent := accepted && Open(conns[c].pc);
      if sent {
        Deliver(t, c, start);
      } else {
        sched := SendFailed(t, c);
        DispatchOn(start, s, DFailSend);
      }
    }

    /** The write gets through: the worker has the task. */
    method Deliver(t: TaskId, c: ConnId, ghost start: Core)
      requires Since(start) && sched == Marked(t, c) && At(View(), c) && Open(conns[c].pc)
      modifies this
      ensures Since(start) && taken == old(taken) && sched.Waiting? && EndsAs(Sent(t, c))
    {
      ghost var s := View();
      conns := conns[c := conns[c].(unanswered := conns[c].unanswered + [t])];
      handled := handled + if taken > 0 then [taken - 1] else [];
      sched := Waiting;
      assert View() == s.(conns := conns, handled := handled, sched := Waiting);
      Delivers(start, s, View(), t, c);
    }

    method MarkRunning(t: TaskId, c: ConnId, ghost start: Core)
      requires Since(start) && sched == Mapped(t, c)
      modifies this
      ensures Since(start) && taken == old(taken) && sched == Marked(t, c)
    {
      ghost var s := View();
      UpdateTaskDB(t, Running, NO_ANSWER);
      sched := Marked(t, c);
      DispatchOn(start, s, DMarkRunning);
    }

    method Map(t: TaskId, c: ConnId, ghost start: Core)
      requires Since(start) && sched == Matched(t, c) && lock.None?
      modifies this
      ensures Since(start) && taken == old(taken) && sched == Mapped(t, c)
    {
      ghost var s := View();
      TargetIsThere(start, s);
      active := active[t := conns[c].worker];
      keeper := keeper[t := c];
      sched := Mapped(t, c);
      DispatchOn(start, s, DMapTask);
    }

    /** Undo the match after a failed write and queue the task again. */
    method Undo(t: TaskId, c: ConnId, patience: nat, ghost start: Core) returns (o: Outcome)
      requires Since(start) && sched == SendFailed(t, c)
      modifies this
      ensures Since(start) && taken == old(taken) && !o.Idle? && o.task == t && EndsAs(o)
      ensures o.Blocked? <==> !sched.Waiting?
    {
      var free := AwaitLock(TheScheduler, patience, start);
      if !free { return Blocked(t); }
      UnmapAndFree(t, c, start);
      Others(TheScheduler, start);
      MarkPending(t, start);
      var room := AwaitRoom(TheScheduler, patience, start);
      if !room { return Blocked(t); }
      PushBack(t, start);
      o := Requeued(t);
    }

    method MarkPending(t: TaskId, ghost start: Core)
      requires Since(start) && sched == SendIdled(t)
      modifies this
      ensures Since(start) && taken == old(taken) && sched == Requeuing(t)
    {
      ghost var s := View();
      UpdateTaskDB(t, Pending, NO_ANSWER);
      sched := Requeuing(t);
      DispatchOn(start, s, DMarkSend);
    }

    method PushBack(t: TaskId, ghost start: Core)
      requires Since(start) && sched == Requeuing(t) && HasRoom(View())
      modifies this
      ensures Since(start) && taken == old(taken) && sched.Waiting? && EndsAs(Requeued(t))
    {
      ghost var s := View();
      RequeuedIsPending(start, s);
      sched := Waiting;
      Enqueue(t);
      DispatchOn(start, s, DPushSend);
    }

    method UnmapAndFree(t: TaskId, c: ConnId, ghost start: Core)
      requires Since(start) && sched == SendFailed(t, c) && lock.None?
      modifies this
      ensures Since(start) && taken == old(taken) && sched == SendIdled(t)
    {
      ghost var s := View();
      active := active - {t};
      sched := SendUnmapped(t, c);
      DispatchOn(start, s, DUnmapSend);
      Others(TheScheduler, start);
      s := View();
      TargetIsThere(start, s);
      if conns[c].worker in workers { RegistryIsSane(start, s, conns[c].worker); }
      ClearBusy(conns[c].worker);
      sched := SendIdled(t);
      DispatchOn(start, s, DIdleSend);
    }

    // ------------------------------------------------------------- submissions

    /** A clock reading that no task has as its ID. */
    method NewTaskId() returns (t: TaskId)
      ensures t != 0 && t !in rows
    {
      t := 1;
      var left := rows.Keys;
      while left != {}
        invariant left <= rows.Keys && t > 0
        invariant forall u :: u in rows && u !in left ==> u < t
        decreases left
      {
        var u :| u in left;
        left := left - {u};
        if t <= u { t := u + 1; }
      }
    }

    /** A submission handler: create and queue one task per input; a single task is a batch of one. */
    method SubmitBatch(parent: int, tier: int, count: nat, patience: nat) returns (done: bool, ids: seq<TaskId>)
      requires Reachable(View()) && CanStartSubmit(View(), parent, count)
      modifies this
      ensures Leads(old(View()), View())
      ensures done ==> |ids| == count
      ensures QueuedNew(old(View()), View(), ids, parent, tier)
      ensures !done ==> !HasRoom(View())
    {
      ghost var start := View();
      var i := Begin(parent, tier, count);
      ids := [];
      Others(TheSubmitter(i), start);
      for n := 0 to count
        invariant Since(start) && i < |subs| && subs[i] == Submitter(parent, tier, count - n, None)
        invariant |ids| == n && QueuedNew(start, View(), ids, parent, tier)
      {
        done, ids := QueueNext(i, ids, parent, tier, patience, start);
        if !done { return; }
      }
      done := true;
    }

    /** One turn of the submission loop. */
    method QueueNext(i: nat, ids: seq<TaskId>, parent: int, tier: int, patience: nat, ghost start: Core)
      returns (done: bool, ids': seq<TaskId>)
      requires Since(start) && i < |subs| && subs[i].hand.None? && subs[i].left > 0
      requires subs[i].parent == parent && subs[i].tier == tier && QueuedNew(start, View(), ids, parent, tier)
      modifies this
      ensures Since(start) && i < |subs| && QueuedNew(start, View(), ids', parent, tier)
      ensures if done then |ids'| == |ids| + 1 else ids' == ids && !HasRoom(View())
      ensures done ==> subs[i] == old(subs[i]).(left := old(subs[i].left) - 1)
    {
      ghost var s := View();
      var t := CreateOne(i, start);
      done := PushOne(i, t, patience, start);
      QueuedStay(start, s, View(), ids, parent, tier);
      ids' := if done then ids + [t] else ids;
    }

    method Begin(parent: int, tier: int, count: nat) returns (i: nat)
      requires Reachable(View()) && CanStartSubmit(View(), parent, count)
      modifies this
      ensures Since(old(View())) && rows == old(rows) && pushed == old(pushed) && now == old(now)
      ensures i < |subs| && subs[i] == Submitter(parent, tier, count, None)
    {
      ghost var start := View();
      assert CanRun(start, []);
      i := |subs|;
      subs := subs + [Submitter(parent, tier, count, None)];
      SubmitOn(start, start, DStartSubmit(parent, tier, count));
    }

    method CreateOne(i: nat, ghost start: Core) returns (t: TaskId)
      requires Since(start) && i < |subs| && subs[i].hand.None? && subs[i].left > 0
      modifies this
      ensures Since(start) && i < |subs| && old(now) <= now
      ensures subs[i] == old(subs[i]).(left := old(subs[i].left) - 1, hand := Some(t))
      ensures t !in old(rows) && Created(View(), t, subs[i].parent, subs[i].tier, old(now))
      ensures LongPoll.Grows(old(rows), rows) && old(pushed) <= pushed
    {
      ghost var s := View();
      t := NewTaskId();
      var b := subs[i];
      rows := rows[t := Row(Pending, "", "", "", b.tier, now, b.parent)];
      subs := subs[i := b.(left := b.left - 1, hand := Some(t))];
      SubmitOn(start, s, DCreateTask(i, t));
      Others(TheSubmitter(i), start);
    }

    method PushOne(i: nat, t: TaskId, patience: nat, ghost start: Core) returns (done: bool)
      requires Since(start) && i < |subs| && subs[i].hand == Some(t)
      modifies this
      ensures Since(start) && i < |subs| && old(now) <= now && LongPoll.Grows(old(rows), rows) && old(pushed) <= pushed
      ensures done ==> subs[i] == old(subs[i]).(hand := None) && t in pushed
      ensures !done ==> !HasRoom(View())
    {
      done := AwaitRoom(TheSubmitter(i), patience, start);
      if !done { return; }
      ghost var s := View();
      subs := subs[i := subs[i].(hand := None)];
      Enqueue(t);
      SubmitOn(start, s, DPushTask(i));
      assert pushed[|pushed| - 1] == t;
      Others(TheSubmitter(i), start);
    }

  }
}
