/** The batch status reply: counts, outputs and errors of a batch's rows. */
module BatchStatus {
  import opened Wrappers
  import opened BrokerCore
  import opened Waiters
  import opened LongPoll
  import opened PollReplies
  import opened BrokerSafety

  datatype Overall = InProgress | AllCompleted | SomeFailed

  datatype BatchReply = BatchReply(overall: Overall, total: nat, pending: nat, running: nat,
                                   completed: nat, failed: nat, outputs: seq<string>, errors: seq<string>)

  // --------------------------------------------------------- specification

  /** The texts `f` picks from the records, in their order. */
  function Pick(recs: Snapshot, f: Row -> Option<string>): seq<string> {
    if recs == [] then []
    else Pick(recs[..|recs| - 1], f) + Text(f, recs[|recs| - 1])
  }

  function Text(f: Row -> Option<string>, rec: (TaskId, Row)): seq<string> {
    match f(rec.1) case Some(x) => [x] case None => []
  }

  function OutputOf(r: Row): Option<string> { if r.status.Completed? then Some(r.stdout) else None }

  function ErrorOf(r: Row): Option<string> { if r.status.Failed? then Some(r.error) else None }

  function PendingOf(r: Row): Option<string> { if r.status.Pending? then Some("") else None }

  function RunningOf(r: Row): Option<string> { if r.status.Running? then Some("") else None }

  function FinishedOf(r: Row): Option<string> { if r.status.Finished() then Some("") else None }

  lemma PickNext(recs: Snapshot, f: Row -> Option<string>, n: nat)
    requires n < |recs|
    ensures Pick(recs[..n + 1], f) == Pick(recs[..n], f) + Text(f, recs[n])
  {
    assert recs[..n + 1][..n] == recs[..n];
  }

  /** Nothing is picked exactly when `f` picks from no record. */
  lemma {:induction false} PickNone(recs: Snapshot, f: Row -> Option<string>)
    ensures Pick(recs, f) == [] <==> forall n :: 0 <= n < |recs| ==> f(recs[n].1).None?
  {
    if recs != [] {
      var k := |recs| - 1;
      var front := recs[..k];
      PickNone(front, f);
      assert forall n :: 0 <= n < k ==> front[n] == recs[n];
      assert f(recs[k].1).None? <==> Text(f, recs[k]) == [];
    }
  }

  /** A count is zero exactly when no record has the status it counts. */
  lemma CountsTell(recs: Snapshot)
    ensures |Pick(recs, PendingOf)| + |Pick(recs, RunningOf)| == 0 <==> AllFinished(recs)
    ensures |Pick(recs, ErrorOf)| == 0 <==> forall n :: 0 <= n < |recs| ==> !recs[n].1.status.Failed?
  {
    PickNone(recs, PendingOf);
    PickNone(recs, RunningOf);
    PickNone(recs, ErrorOf);
  }

  /** `texts` are the `column`s of the records that are `wanted`, all of them and in the order of the records. */
  ghost predicate Lists(recs: Snapshot, texts: seq<string>, wanted: Row -> bool, column: Row -> string) {
    exists at: seq<nat> :: ListsAt(recs, texts, at, wanted, column)
  }

  ghost predicate ListsAt(recs: Snapshot, texts: seq<string>, at: seq<nat>,
                          wanted: Row -> bool, column: Row -> string) {
    && |at| == |texts|
    && (forall m :: 0 <= m < |at| ==> at[m] < |recs|)
    && (forall l, m :: 0 <= l < m < |at| ==> at[l] < at[m])
    && (forall m :: 0 <= m < |at| ==> texts[m] == column(recs[at[m]].1))
    && (forall n: nat :: n < |recs| ==> (n in at <==> wanted(recs[n].1)))
  }

  lemma ListsOneMore(front: Snapshot, e: (TaskId, Row), texts: seq<string>, at: seq<nat>,
                     wanted: Row -> bool, column: Row -> string)
    requires ListsAt(front, texts, at, wanted, column) && wanted(e.1)
    ensures ListsAt(front + [e], texts + [column(e.1)], at + [|front|], wanted, column)
  {
    var recs, at' := front + [e], at + [|front|];
    forall n: nat | n < |recs| ensures n in at' <==> wanted(recs[n].1) {
      assert n < |front| ==> recs[n] == front[n];
    }
  }

  lemma ListsNoMore(front: Snapshot, e: (TaskId, Row), texts: seq<string>, at: seq<nat>,
                    wanted: Row -> bool, column: Row -> string)
    requires ListsAt(front, texts, at, wanted, column) && !wanted(e.1)
    ensures ListsAt(front + [e], texts, at, wanted, column)
  {
    var recs := front + [e];
    forall n: nat | n < |recs| ensures n in at <==> wanted(recs[n].1) {
      assert n < |front| ==> recs[n] == front[n];
    }
  }

  lemma {:induction false} PickLists(recs: Snapshot, f: Row -> Option<string>, wanted: Row -> bool,
                                     column: Row -> string) returns (at: seq<nat>)
    requires forall row :: f(row) == if wanted(row) then Some(column(row)) else None
    ensures ListsAt(recs, Pick(recs, f), at, wanted, column)
  {
    at := [];
    if recs != [] {
      var k := |recs| - 1;
      var front, e := recs[..k], recs[k];
      assert recs == front + [e];
      at := PickLists(front, f, wanted, column);
      if wanted(e.1) {
        ListsOneMore(front, e, Pick(front, f), at, wanted, column);
        at := at + [k];
      } else {
        ListsNoMore(front, e, Pick(front, f), at, wanted, column);
      }
    }
  }

  /** A count is the number of positions of the records it counts. */
  lemma {:induction false} PickCounts(recs: Snapshot, f: Row -> Option<string>, at: set<nat>)
    requires forall n: nat :: n in at <==> n < |recs| && f(recs[n].1).Some?
    ensures |Pick(recs, f)| == |at|
  {
    if recs == [] {
      assert at == {};
    } else {
      var k := |recs| - 1;
      var front, before := recs[..k], at - {k};
      assert forall n: nat :: n < k ==> front[n] == recs[n];
      PickCounts(front, f, before);
      if k in at { assert at == before + {k}; } else { assert at == before; }
    }
  }

  lemma ListsReply(recs: Snapshot)
    ensures Lists(recs, Pick(recs, OutputOf), (row: Row) => row.status.Completed?, (row: Row) => row.stdout)
    ensures Lists(recs, Pick(recs, ErrorOf), (row: Row) => row.status.Failed?, (row: Row) => row.error)
  {
    var o := PickLists(recs, OutputOf, (row: Row) => row.status.Completed?, (row: Row) => row.stdout);
    var e := PickLists(recs, ErrorOf, (row: Row) => row.status.Failed?, (row: Row) => row.error);
  }

  lemma CountsReply(recs: Snapshot)
    ensures |Pick(recs, PendingOf)| == |set n: nat | n < |recs| && recs[n].1.status.Pending?|
    ensures |Pick(recs, RunningOf)| == |set n: nat | n < |recs| && recs[n].1.status.Running?|
  {
    PickCounts(recs, PendingOf, set n: nat | n < |recs| && recs[n].1.status.Pending?);
    PickCounts(recs, RunningOf, set n: nat | n < |recs| && recs[n].1.status.Running?);
  }

  /** The reply for a snapshot of the batch. */
  function ReplyOf(snap: Snapshot): BatchReply {
    var outputs, errors := Pick(snap, OutputOf), Pick(snap, ErrorOf);
    BatchReply(if |outputs| + |errors| < |snap| then InProgress else if errors == [] then AllCompleted else SomeFailed,
               |snap|, |Pick(snap, PendingOf)|, |Pick(snap, RunningOf)|, |outputs|, |errors|, outputs, errors)
  }

  /** The counters and lists of the aggregation loop after the records `recs`. */
  ghost predicate Tallied(recs: Snapshot, r: BatchReply) {
    && r.total == |recs| == r.pending + r.running + r.completed + r.failed
    && r.pending == |Pick(recs, PendingOf)| && r.running == |Pick(recs, RunningOf)|
    && r.completed == |r.outputs| && r.outputs == Pick(recs, OutputOf)
    && r.failed == |r.errors| && r.errors == Pick(recs, ErrorOf)
  }

  /** One turn of the aggregation loop. */
  method Tally(recs: Snapshot, n: nat, acc: BatchReply) returns (r: BatchReply)
    requires n < |recs| && Tallied(recs[..n], acc)
    ensures Tallied(recs[..n + 1], r)
  {
    PickNext(recs, PendingOf, n);
    PickNext(recs, RunningOf, n);
    PickNext(recs, OutputOf, n);
    PickNext(recs, ErrorOf, n);
    r := acc.(total := n + 1);
    match recs[n].1.status {
      case Pending => r := r.(pending := r.pending + 1);
      case Running => r := r.(running := r.running + 1);
      case Completed => r := r.(completed := r.completed + 1, outputs := r.outputs + [recs[n].1.stdout]);
      case Failed => r := r.(failed := r.failed + 1, errors := r.errors + [recs[n].1.error]);
    }
  }

  /** The aggregation loop of the handler. */
  method Aggregate(recs: Snapshot) returns (r: BatchReply)
    ensures r == ReplyOf(recs)
    ensures r.total == |recs| == r.pending + r.running + r.completed + r.failed
    ensures r.pending == |set n: nat | n < |recs| && recs[n].1.status.Pending?|
    ensures r.running == |set n: nat | n < |recs| && recs[n].1.status.Running?|
    ensures r.completed == |r.outputs| && r.failed == |r.errors|
    ensures Lists(recs, r.outputs, (row: Row) => row.status.Completed?, (row: Row) => row.stdout)
    ensures Lists(recs, r.errors, (row: Row) => row.status.Failed?, (row: Row) => row.error)
    ensures r.overall.InProgress? <==> !AllFinished(recs)
    ensures r.overall.SomeFailed? <==> AllFinished(recs) && exists n :: 0 <= n < |recs| && recs[n].1.status.Failed?
  {
    r := BatchReply(InProgress, 0, 0, 0, 0, 0, [], []);
    for n := 0 to |recs|
      invariant Tallied(recs[..n], r)
    {
      r := Tally(recs, n, r);
    }
    assert recs[..|recs|] == recs;
    CountsTell(recs);
    ListsReply(recs);
    CountsReply(recs);
    var overall := InProgress;
    if r.completed + r.failed == |recs| {
      overall := if r.failed > 0 then SomeFailed else AllCompleted;
    }
    r := r.(overall := overall);
  }

  predicate DistinctIds(snap: Snapshot) {
    forall m, n :: 0 <= m < n < |snap| ==> snap[m].0 != snap[n].0
  }

  /** SELECT ... WHERE parent_id = ?, row by row in whatever order the cursor gives. */
  method GetBatchTasks(rows: map<TaskId, Row>, parent: int) returns (recs: Snapshot)
    ensures forall e :: e in recs <==> e.0 in rows && rows[e.0] == e.1 && e.1.parent == parent
    ensures DistinctIds(recs)
  {
    recs := [];
    var left := rows.Keys;
    while left != {}
      invariant left <= rows.Keys
      invariant forall e :: e in recs <==> e.0 in rows && e.0 !in left && rows[e.0] == e.1 && e.1.parent == parent
      invariant DistinctIds(recs)
      decreases left
    {
      var t :| t in left;
      left := left - {t};
      if rows[t].parent == parent {
        assert forall n :: 0 <= n < |recs| ==> recs[n] in recs;
        recs := recs + [(t, rows[t])];
      }
    }
  }

  /** Such a list of rows is one of the answers the transition system allows a batch read to give. */
  lemma BatchRowsAreASelection(rows: map<TaskId, Row>, parent: int, recs: Snapshot) returns (order: seq<TaskId>)
    requires forall e :: e in recs <==> e.0 in rows && rows[e.0] == e.1 && e.1.parent == parent
    requires DistinctIds(recs)
    ensures Enumerates(order, IdsOf(rows, BatchKey(parent))) && recs == Select(rows, order)
  {
    assert forall n :: 0 <= n < |recs| ==> recs[n] in recs;
    order := seq(|recs|, n requires 0 <= n < |recs| => recs[n].0);
    forall t ensures t in order <==> t in IdsOf(rows, BatchKey(parent)) {
      if t in IdsOf(rows, BatchKey(parent)) {
        assert (t, rows[t]) in recs;
        var n :| 0 <= n < |recs| && recs[n] == (t, rows[t]);
        assert order[n] == t;
      }
    }
  }

  // ------------------------------------------------------ row order is free

  lemma {:induction false} PickAppend(a: Snapshot, b: Snapshot, f: Row -> Option<string>)
    ensures Pick(a + b, f) == Pick(a, f) + Pick(b, f)
  {
    if b == [] {
      assert a + b == a;
    } else {
      var front, last := b[..|b| - 1], b[|b| - 1];
      PickAppend(a, front, f);
      assert (a + b)[..|a + b| - 1] == a + front && (a + b)[|a + b| - 1] == last;
    }
  }

  lemma PickAround(a: Snapshot, e: (TaskId, Row), b: Snapshot, f: Row -> Option<string>)
    ensures Pick(a + [e] + b, f) == Pick(a, f) + Text(f, e) + Pick(b, f)
    ensures Pick(a + b, f) == Pick(a, f) + Pick(b, f)
  {
    assert (a + [e])[..|a|] == a;
    PickAppend(a + [e], b, f);
    PickAppend(a, b, f);
  }

  /** One record taken out of a list, wherever it stands. */
  lemma Extract(recs: Snapshot, e: (TaskId, Row), f: Row -> Option<string>) returns (rest: Snapshot)
    requires e in recs
    ensures |rest| < |recs| && multiset(recs) == multiset(rest) + multiset{e}
    ensures multiset(Pick(recs, f)) == multiset(Pick(rest, f)) + multiset(Text(f, e))
  {
    var n :| 0 <= n < |recs| && recs[n] == e;
    rest := recs[..n] + recs[n + 1..];
    assert recs == recs[..n] + [e] + recs[n + 1..];
    PickAround(recs[..n], e, recs[n + 1..], f);
  }

  lemma SameRest<T>(all: multiset<T>, x: multiset<T>, y: multiset<T>, e: T)
    requires all == x + multiset{e} == y + multiset{e}
    ensures x == y
  {
    assert x == all - multiset{e} && y == all - multiset{e};
  }

  /** The table fixes no row order: the order of the records shows only in the order of what is picked. */
  lemma {:induction false} OrderDoesNotMatter(a: Snapshot, b: Snapshot, f: Row -> Option<string>)
    requires multiset(a) == multiset(b)
    ensures multiset(Pick(a, f)) == multiset(Pick(b, f))
    decreases |a|
  {
    if a == [] {
      assert |multiset(b)| == 0;
    } else {
      var e := a[0];
      assert e in multiset(a);
      var a' := Extract(a, e, f);
      var b' := Extract(b, e, f);
      SameRest(multiset(a), multiset(a'), multiset(b'), e);
      OrderDoesNotMatter(a', b', f);
    }
  }

  // ---------------------------------------------------------- over time

  function FinishedIds(snap: Snapshot): set<TaskId> { set e | e in snap && e.1.status.Finished() :: e.0 }

  lemma SetsOfPrefix(snap: Snapshot)
    requires DistinctIds(snap) && snap != []
    ensures var k := |snap| - 1;
            var e := snap[k];
            && IdsIn(snap) == IdsIn(snap[..k]) + {e.0} && e.0 !in IdsIn(snap[..k])
            && FinishedIds(snap) == FinishedIds(snap[..k]) + (if e.1.status.Finished() then {e.0} else {})
            && FinishedIds(snap[..k]) <= IdsIn(snap[..k])
  {
    assert snap == snap[..|snap| - 1] + [snap[|snap| - 1]];
  }

  /** The finished count of a reply is the number of its finished tasks. */
  lemma {:induction false} FinishedCount(snap: Snapshot)
    requires DistinctIds(snap)
    ensures |Pick(snap, FinishedOf)| == |FinishedIds(snap)|
    ensures |IdsIn(snap)| == |snap|
  {
    if snap != [] {
      var k := |snap| - 1;
      FinishedCount(snap[..k]);
      SetsOfPrefix(snap);
    }
  }

  /** The completed and failed counts make up the finished count. */
  lemma {:induction false} FinishedIsCompletedPlusFailed(recs: Snapshot)
    ensures |Pick(recs, FinishedOf)| == |Pick(recs, OutputOf)| + |Pick(recs, ErrorOf)|
  {
    if recs != [] { FinishedIsCompletedPlusFailed(recs[..|recs| - 1]); }
  }

  /** A later reply that keeps the finished rows and lists the same subtasks never counts fewer finished. */
  lemma FinishedNeverFalls(earlier: Snapshot, later: Snapshot)
    requires DistinctIds(earlier) && DistinctIds(later)
    requires IdsIn(earlier) == IdsIn(later) && KeepsFinished(earlier, later)
    ensures |earlier| == |later|
    ensures |Pick(earlier, OutputOf)| + |Pick(earlier, ErrorOf)|
         <= |Pick(later, OutputOf)| + |Pick(later, ErrorOf)|
  {
    FinishedCount(earlier);
    FinishedCount(later);
    FinishedIsCompletedPlusFailed(earlier);
    FinishedIsCompletedPlusFailed(later);
    assert FinishedIds(earlier) <= FinishedIds(later);
    Subset(FinishedIds(earlier), FinishedIds(later));
  }

  lemma Subset<T>(a: set<T>, b: set<T>)
    requires a <= b
    ensures |a| <= |b|
  {
    assert b == a + (b - a);
  }

  /** Once everything is finished, every later reply carries the same outputs and errors. */
  lemma FinalReplyIsStable(earlier: Snapshot, later: Snapshot)
    requires DistinctIds(earlier) && DistinctIds(later)
    requires IdsIn(earlier) == IdsIn(later) && KeepsFinished(earlier, later) && AllFinished(earlier)
    ensures AllFinished(later) && SameFinalReply(ReplyOf(earlier), ReplyOf(later))
  {
    FinalReplyIsSame(earlier, later);
    OrderDoesNotMatter(earlier, later, OutputOf);
    OrderDoesNotMatter(earlier, later, ErrorOf);
    SameSize(Pick(earlier, OutputOf), Pick(later, OutputOf));
    SameSize(Pick(earlier, ErrorOf), Pick(later, ErrorOf));
    SameSize(earlier, later);
    FinishedReplies(earlier);
    FinishedReplies(later);
  }

  /** Two final replies that differ at most in the order of outputs and errors. */
  predicate SameFinalReply(r: BatchReply, q: BatchReply) {
    && q == r.(outputs := q.outputs, errors := q.errors) && !r.overall.InProgress?
    && multiset(r.outputs) == multiset(q.outputs) && multiset(r.errors) == multiset(q.errors)
  }

  lemma SameSize<T>(a: seq<T>, b: seq<T>)
    requires multiset(a) == multiset(b)
    ensures |a| == |b|
  {
    assert |multiset(a)| == |multiset(b)|;
  }

  /** The reply is final exactly when every record is finished. */
  lemma FinishedReplies(snap: Snapshot)
    ensures AllFinished(snap) <==> !ReplyOf(snap).overall.InProgress?
    ensures AllFinished(snap) ==> ReplyOf(snap).pending == ReplyOf(snap).running == 0
  {
    CountsTell(snap);
    EachIsCounted(snap);
  }

  lemma {:induction false} EachIsCounted(snap: Snapshot)
    ensures |snap| == |Pick(snap, PendingOf)| + |Pick(snap, RunningOf)| + |Pick(snap, OutputOf)| + |Pick(snap, ErrorOf)|
  {
    if snap != [] { EachIsCounted(snap[..|snap| - 1]); }
  }

  lemma FinalReplyIsSame(earlier: Snapshot, later: Snapshot)
    requires DistinctIds(earlier) && DistinctIds(later)
    requires IdsIn(earlier) == IdsIn(later) && KeepsFinished(earlier, later) && AllFinished(earlier)
    ensures AllFinished(later) && multiset(earlier) == multiset(later)
  {
    forall e | e in later ensures e in earlier {
      assert e.0 in IdsIn(earlier);
      var d :| d in earlier && d.0 == e.0;
      assert d in later;
    }
    assert forall n :: 0 <= n < |later| ==> later[n] in later;
    forall e ensures multiset(earlier)[e] == multiset(later)[e] {
      ListedOnce(earlier, e);
      ListedOnce(later, e);
    }
  }

  /**
   Requests for one batch made one after another, after its submission returned: the
   total is the same, the finished count never falls, and once the batch is reported
   finished the reply changes in nothing but the order of outputs and errors.
   */
  lemma BatchNeverGoesBack(s0: Sys, steps: seq<SysStep>, more: seq<SysStep>, i: nat, j: nat, p: int)
    requires SysReachable(s0) && CanDo(s0, steps) && CanDo(DoAll(s0, steps), more)
    requires |s0.reqs| <= i && Submitted(s0.core, p)
    requires var s := DoAll(s0, steps);
             Has(s, i) && s.reqs[i].key == BatchKey(p) && s.reqs[i].pc.Replied?
    requires var s := DoAll(s0, steps);
             var s' := DoAll(s, more);
             |s.reqs| <= j && Has(s', j) && s'.reqs[j].key == BatchKey(p) && s'.reqs[j].pc.Replied?
    ensures var s := DoAll(s0, steps);
            var earlier, later := ReplyOf(s.reqs[i].pc.reply), ReplyOf(DoAll(s, more).reqs[j].pc.reply);
            && earlier.total == later.total
            && earlier.completed + earlier.failed <= later.completed + later.failed
            && (!earlier.overall.InProgress? ==> SameFinalReply(earlier, later))
  {
    BatchRepliesAreMonotone(s0, steps, more, i, j, p);
    var s := DoAll(s0, steps);
    var earlier, later := s.reqs[i].pc.reply, DoAll(s, more).reqs[j].pc.reply;
    FinishedNeverFalls(earlier, later);
    FinishedReplies(earlier);
    if AllFinished(earlier) { FinalReplyIsStable(earlier, later); }
  }

  /** A record of the reply shows its output or its error. */
  lemma RecordIsShown(snap: Snapshot, e: (TaskId, Row))
    requires e in snap
    ensures e.1.status.Completed? ==> e.1.stdout in ReplyOf(snap).outputs
    ensures e.1.status.Failed? ==> e.1.error in ReplyOf(snap).errors
  {
    var n :| 0 <= n < |snap| && snap[n] == e;
    assert snap == snap[..n] + [e] + snap[n + 1..];
    PickAround(snap[..n], e, snap[n + 1..], OutputOf);
    PickAround(snap[..n], e, snap[n + 1..], ErrorOf);
  }

  /** Once an answer is in the table, every batch reply asked for from then on shows it, word for word. */
  lemma AnswerIsShown(s: Sys, steps: seq<SysStep>, i: nat, p: int, t: TaskId, a: Answer)
    requires SysReachable(s) && CanDo(s, steps)
    requires Recorded(s.core, t, a) && s.core.rows[t].parent == p
    requires var s' := DoAll(s, steps);
             |s.reqs| <= i && Has(s', i) && s'.reqs[i].key == BatchKey(p) && s'.reqs[i].pc.Replied?
    ensures var r := ReplyOf(DoAll(s, steps).reqs[i].pc.reply);
            if a.error == "" then a.stdout in r.outputs else a.error in r.errors
  {
    SysReachableInv(s);
    LaterRequestsAreInformed(s, steps);
    var s' := DoAll(s, steps);
    assert Informed(s.core, s', i) && PollOk(s', i);
    RecordIsShown(s'.reqs[i].pc.reply, (t, s.core.rows[t]));
  }
}
