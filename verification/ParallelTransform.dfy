/**
 The CPU fallback of the GPU hook: threads over disjoint chunks of one shared
 buffer, each changing its own bytes in place.  Every interleaving of their loads
 and stores gives the same buffer as one sequential pass.
 */
module ParallelTransform {
  import opened Wrappers

  type byte = bv8

  // ------------------------------------------------------------- the chunks

  /** Bytes per thread: the length divided by the thread count, rounded up, and at least one. */
  function ChunkSize(len: nat, threads: nat): nat
    requires threads > 0
    ensures ChunkSize(len, threads) > 0
  {
    var c := (len + threads - 1) / threads;
    if c == 0 then 1 else c
  }

  function Min(a: int, b: int): int { if a < b then a else b }

  function ChunkStart(len: nat, threads: nat, id: nat): nat
    requires threads > 0
  {
    id * ChunkSize(len, threads)
  }

  function ChunkEnd(len: nat, threads: nat, id: nat): int
    requires threads > 0
  {
    Min(ChunkStart(len, threads, id) + ChunkSize(len, threads), len)
  }

  predicate InChunk(len: nat, threads: nat, id: nat, j: nat)
    requires threads > 0
  {
    ChunkStart(len, threads, id) <= j < ChunkEnd(len, threads, id)
  }

  /** The thread that owns byte `j`. */
  function Owner(len: nat, threads: nat, j: nat): nat
    requires threads > 0
  {
    j / ChunkSize(len, threads)
  }

  lemma DivisionBounds(j: nat, c: nat)
    requires c > 0
    ensures j / c * c <= j < j / c * c + c
  {
  }

  lemma MultipleOrder(a: nat, b: nat, c: nat)
    ensures a < b ==> a * c + c <= b * c
  {
    if a < b { assert (a + 1) * c <= b * c; }
  }

  lemma QuotientIsUnique(j: nat, c: nat, q: nat)
    requires c > 0
    ensures q * c <= j < q * c + c <==> j / c == q
  {
    DivisionBounds(j, c);
    MultipleOrder(j / c, q, c);
    MultipleOrder(q, j / c, c);
  }

  /** The chunks reach the end of the buffer. */
  lemma ChunksCover(len: nat, threads: nat)
    requires threads > 0
    ensures len <= threads * ChunkSize(len, threads)
  {
    DivisionBounds(len + threads - 1, threads);
    var c := (len + threads - 1) / threads;
    assert c * threads == threads * c;
  }

  /** That many bytes for each thread are enough for the whole buffer. */
  predicate Covers(len: nat, threads: nat, c: nat) { len <= threads * c }

  predicate LeastCover(len: nat, threads: nat, c: nat) {
    && c > 0 && Covers(len, threads, c)
    && (forall b: nat :: 0 < b < c ==> !Covers(len, threads, b))
  }

  /** The chunk size is the least positive one that covers the buffer. */
  lemma ChunkIsLeastCover(len: nat, threads: nat, c: nat)
    requires threads > 0
    ensures LeastCover(len, threads, c) <==> c == ChunkSize(len, threads)
  {
    var k := ChunkSize(len, threads);
    ChunksCover(len, threads);
    assert Covers(len, threads, k);
    DivisionBounds(len + threads - 1, threads);
    forall b: nat | 0 < b < k ensures !Covers(len, threads, b) {
      MultipleOrder(b, k, threads);
      assert threads * b == b * threads;
    }
  }

  /** The chunks partition the buffer: byte `j` lies in the chunk of exactly one of the threads, its owner. */
  lemma ChunksPartition(len: nat, threads: nat, j: nat, id: nat)
    requires threads > 0 && j < len
    ensures Owner(len, threads, j) < threads
    ensures InChunk(len, threads, id, j) <==> id == Owner(len, threads, j)
  {
    var c := ChunkSize(len, threads);
    QuotientIsUnique(j, c, id);
    ChunksCover(len, threads);
    DivisionBounds(j, c);
    OwnerInRange(j / c, threads, c, j);
  }

  lemma OwnerInRange(q: nat, threads: nat, c: nat, j: nat)
    requires q * c <= j < threads * c
    ensures q < threads
  {
    MultipleOrder(threads, q, c);
  }

  // ----------------------------------------------- sequential specification

  /** The low byte of 31 times the thread number. */
  function Mask(id: nat): byte { ((id * 31) % 256) as byte }

  /** The mock compute operation on one byte. */
  function Mix(b: byte, id: nat): byte { b ^ Mask(id) }

  /** An operation on a byte and the number of the thread that owns it. */
  type Op = (byte, nat) -> byte

  /** What a chunked transform means: each byte is changed once, by the thread whose chunk it lies in. */
  function Transformed(data: seq<byte>, threads: nat, f: Op): seq<byte>
    requires threads > 0
  {
    seq(|data|, j requires 0 <= j < |data| => f(data[j], Owner(|data|, threads, j)))
  }

  /** Running the transform twice with the same thread count restores the buffer. */
  lemma TransformIsItsOwnInverse(data: seq<byte>, threads: nat)
    requires threads > 0
    ensures Transformed(Transformed(data, threads, Mix), threads, Mix) == data
  {
    var once := Transformed(data, threads, Mix);
    var twice := Transformed(once, threads, Mix);
    forall j | 0 <= j < |data| ensures twice[j] == data[j] {
      TransformedAt(data, threads, Mix, j);
      TransformedAt(once, threads, Mix, j);
      MixTwice(data[j], Owner(|data|, threads, j));
    }
  }

  lemma TransformedAt(data: seq<byte>, threads: nat, f: Op, j: nat)
    requires threads > 0 && j < |data|
    ensures |Transformed(data, threads, f)| == |data|
    ensures Transformed(data, threads, f)[j] == f(data[j], Owner(|data|, threads, j))
  {
  }

  lemma MixTwice(b: byte, id: nat)
    ensures Mix(Mix(b, id), id) == b
  {
    XorTwice(b, Mask(id));
  }

  lemma XorTwice(a: byte, b: byte)
    ensures (a ^ b) ^ b == a
  {
  }

  // --------------------------------------------------------- interleavings

  /** A thread's loop counter, and the byte it has loaded and not stored yet. */
  datatype Thread = Thread(j: nat, loaded: Option<byte>)

  datatype Machine = Machine(output: seq<byte>, threads: seq<Thread>)

  function Start(data: seq<byte>, threads: nat): Machine
    requires threads > 0
  {
    Machine(data, seq(threads, id requires 0 <= id < threads => Thread(ChunkStart(|data|, threads, id), None)))
  }

  predicate CanStep(m: Machine, id: nat) {
    id < |m.threads| && m.threads[id].j < ChunkEnd(|m.output|, |m.threads|, id)
  }

  /** One memory access of thread `id`: load byte j, or store it back combined with the mask and go on. */
  function StepThread(m: Machine, id: nat, f: Op): Machine
    requires CanStep(m, id)
  {
    var t := m.threads[id];
    match t.loaded
    case None => m.(threads := m.threads[id := t.(loaded := Some(m.output[t.j]))])
    case Some(b) => Machine(m.output[t.j := f(b, id)], m.threads[id := Thread(t.j + 1, None)])
  }

  /** The bytes a thread has passed are transformed; the others are untouched, also by other threads. */
  predicate MachineOk(data: seq<byte>, m: Machine, f: Op)
    requires |m.threads| > 0
  {
    var n := |m.threads|;
    && |m.output| == |data|
    && (forall id :: 0 <= id < n ==> ThreadOk(data, m, id))
    && (forall j :: 0 <= j < |data| ==> ByteOk(data, m, f, j))
  }

  predicate ThreadOk(data: seq<byte>, m: Machine, id: nat)
    requires id < |m.threads|
  {
    var t := m.threads[id];
    && ChunkStart(|data|, |m.threads|, id) <= t.j
    && (t.loaded.Some? ==> t.j < ChunkEnd(|data|, |m.threads|, id) && t.j < |data| && t.loaded.value == data[t.j])
  }

  predicate ByteOk(data: seq<byte>, m: Machine, f: Op, j: nat)
    requires |m.threads| > 0 && j < |data| == |m.output|
  {
    var id := Owner(|data|, |m.threads|, j);
    id < |m.threads| &&
    m.output[j] == if j < m.threads[id].j then f(data[j], id) else data[j]
  }

  lemma StartIsOk(data: seq<byte>, threads: nat, f: Op)
    requires threads > 0
    ensures MachineOk(data, Start(data, threads), f)
  {
    forall j | 0 <= j < |data| ensures ByteOk(data, Start(data, threads), f, j) {
      ChunksPartition(|data|, threads, j, Owner(|data|, threads, j));
    }
  }

  lemma StepKeepsByte(data: seq<byte>, m: Machine, id: nat, f: Op, j: nat)
    requires |m.threads| > 0 && |m.output| == |data| && CanStep(m, id) && m.threads[id].j < |data| && j < |data|
    requires ThreadOk(data, m, id) && ByteOk(data, m, f, j)
    requires Owner(|data|, |m.threads|, m.threads[id].j) == id
    ensures ByteOk(data, StepThread(m, id, f), f, j)
  {
  }

  lemma StepKeepsThread(data: seq<byte>, m: Machine, id: nat, f: Op, i: nat)
    requires |m.threads| > 0 && |m.output| == |data| && CanStep(m, id) && m.threads[id].j < |data| && i < |m.threads|
    requires ThreadOk(data, m, i) && ByteOk(data, m, f, m.threads[id].j)
    requires Owner(|data|, |m.threads|, m.threads[id].j) == id
    ensures ThreadOk(data, StepThread(m, id, f), i)
  {
  }

  lemma StepKeepsOk(data: seq<byte>, m: Machine, id: nat, f: Op)
    requires |m.threads| > 0 && MachineOk(data, m, f) && CanStep(m, id)
    ensures MachineOk(data, StepThread(m, id, f), f)
  {
    var m' := StepThread(m, id, f);
    assert ThreadOk(data, m, id);
    ChunksPartition(|data|, |m.threads|, m.threads[id].j, id);
    forall i | 0 <= i < |m.threads| ensures ThreadOk(data, m', i) { StepKeepsThread(data, m, id, f, i); }
    forall j | 0 <= j < |data| ensures ByteOk(data, m', f, j) { StepKeepsByte(data, m, id, f, j); }
  }

  predicate Finished(m: Machine) { forall id :: 0 <= id < |m.threads| ==> !CanStep(m, id) }

  /** When every thread has returned, the buffer is the transformed input. */
  lemma FinishedMeansTransformed(data: seq<byte>, m: Machine, f: Op)
    requires |m.threads| > 0 && MachineOk(data, m, f) && Finished(m)
    ensures m.output == Transformed(data, |m.threads|, f)
  {
    forall j | 0 <= j < |data| ensures m.output[j] == Transformed(data, |m.threads|, f)[j] {
      assert ByteOk(data, m, f, j);
      var id := Owner(|data|, |m.threads|, j);
      ChunksPartition(|data|, |m.threads|, j, id);
      assert !CanStep(m, id);
    }
  }

  ghost predicate CanRun(m: Machine, schedule: seq<nat>, f: Op)
    decreases |schedule|
  {
    schedule == [] || (CanStep(m, schedule[0]) && CanRun(StepThread(m, schedule[0], f), schedule[1..], f))
  }

  ghost function Run(m: Machine, schedule: seq<nat>, f: Op): Machine
    requires CanRun(m, schedule, f)
    decreases |schedule|
  {
    if schedule == [] then m else Run(StepThread(m, schedule[0], f), schedule[1..], f)
  }

  lemma {:induction false} RunKeepsOk(data: seq<byte>, m: Machine, schedule: seq<nat>, f: Op)
    requires |m.threads| > 0 && MachineOk(data, m, f) && CanRun(m, schedule, f)
    ensures |Run(m, schedule, f).threads| == |m.threads| && MachineOk(data, Run(m, schedule, f), f)
    decreases |schedule|
  {
    if schedule != [] {
      StepKeepsOk(data, m, schedule[0], f);
      RunKeepsOk(data, StepThread(m, schedule[0], f), schedule[1..], f);
    }
  }

  /** Whatever the schedule, a run in which all threads return leaves exactly the transformed input. */
  lemma EveryInterleavingAgrees(data: seq<byte>, threads: nat, schedule: seq<nat>, f: Op)
    requires threads > 0 && CanRun(Start(data, threads), schedule, f)
    requires Finished(Run(Start(data, threads), schedule, f))
    ensures Run(Start(data, threads), schedule, f).output == Transformed(data, threads, f)
  {
    StartIsOk(data, threads, f);
    RunKeepsOk(data, Start(data, threads), schedule, f);
    FinishedMeansTransformed(data, Run(Start(data, threads), schedule, f), f);
  }

  /** Memory accesses left to the first `k` threads. */
  function Work(m: Machine, k: nat): int
    requires k <= |m.threads|
  {
    if k == 0 then 0
    else
      var t := m.threads[k - 1];
      var left := ChunkEnd(|m.output|, |m.threads|, k - 1) - t.j;
      Work(m, k - 1) + if left <= 0 then 0 else 2 * left - if t.loaded.Some? then 1 else 0
  }

  /** Each step of any thread is one access, so no run is longer than the work it starts with. */
  lemma {:induction false} StepDoesOneAccess(m: Machine, id: nat, f: Op, k: nat)
    requires k <= |m.threads| && CanStep(m, id)
    requires 0 <= m.threads[id].j < |m.output|
    ensures Work(StepThread(m, id, f), k) == Work(m, k) - if id < k then 1 else 0
    ensures Work(m, k) >= 0
  {
    if k > 0 { StepDoesOneAccess(m, id, f, k - 1); }
  }

  /** From every state the threads do reach, some schedule lets all of them return. */
  lemma {:induction false} RunsFinish(data: seq<byte>, m: Machine, f: Op) returns (schedule: seq<nat>)
    requires |m.threads| > 0 && MachineOk(data, m, f) && Work(m, |m.threads|) >= 0
    ensures CanRun(m, schedule, f) && Finished(Run(m, schedule, f)) && |schedule| <= Work(m, |m.threads|)
    decreases Work(m, |m.threads|)
  {
    schedule := [];
    if id: nat :| CanStep(m, id) {
      assert ThreadOk(data, m, id);
      StepDoesOneAccess(m, id, f, |m.threads|);
      StepKeepsOk(data, m, id, f);
      WorkIsNatural(StepThread(m, id, f), |m.threads|);
      var rest := RunsFinish(data, StepThread(m, id, f), f);
      schedule := [id] + rest;
      assert schedule[1..] == rest;
    }
  }

  lemma {:induction false} WorkIsNatural(m: Machine, k: nat)
    requires k <= |m.threads|
    ensures Work(m, k) >= 0
  {
    if k > 0 { WorkIsNatural(m, k - 1); }
  }

  // ------------------------------------------------------ the code in place

  lemma MaskedAt(data: seq<byte>, threads: nat)
    requires threads > 0
    ensures LeastCover(|data|, threads, ChunkSize(|data|, threads))
    ensures var c := ChunkSize(|data|, threads);
            forall j :: 0 <= j < |data| ==>
              Transformed(data, threads, Mix)[j] == data[j] ^ (((j / c) * 31) % 256) as byte
  {
    var c := ChunkSize(|data|, threads);
    ChunkIsLeastCover(|data|, threads, c);
    forall j | 0 <= j < |data|
      ensures Transformed(data, threads, Mix)[j] == data[j] ^ (((j / c) * 31) % 256) as byte
    {
      TransformedAt(data, threads, Mix, j);
    }
  }

  /** One thread's loop over its chunk of the shared buffer. */
  method RunThread(output: array<byte>, threads: nat, id: nat)
    requires threads > 0
    modifies output
    ensures forall j: nat :: j < output.Length ==>
              output[j] == if InChunk(output.Length, threads, id, j) then old(output[j]) ^ Mask(id) else old(output[j])
  {
    var start := ChunkStart(output.Length, threads, id);
    var end := ChunkEnd(output.Length, threads, id);
    var j := start;
    while j < end
      invariant start <= j
      invariant forall i: nat :: i < output.Length ==>
                  output[i] == if start <= i < j && i < end then old(output[i]) ^ Mask(id) else old(output[i])
    {
      output[j] := output[j] ^ Mask(id);
      j := j + 1;
    }
  }

  /** The whole transform on one shared buffer, its threads' loads and stores interleaved by `schedule`. */
  method SimulateParallel(data: array<byte>, threads: nat, schedule: seq<nat>) returns (output: array<byte>)
    requires threads > 0
    requires CanRun(Start(data[..], threads), schedule, Mix) && Finished(Run(Start(data[..], threads), schedule, Mix))
    ensures fresh(output) && output.Length == data.Length && output[..] == Transformed(data[..], threads, Mix)
    ensures exists c: nat :: LeastCover(data.Length, threads, c) &&
              forall j :: 0 <= j < data.Length ==> output[j] == data[j] ^ (((j / c) * 31) % 256) as byte
  {
    EveryInterleavingAgrees(data[..], threads, schedule, Mix);
    var n := data.Length;
    output := new byte[n](j requires 0 <= j < n reads data => data[j]);
    var pcs := Start(data[..], threads).threads;
    assert output[..] == data[..];
    for k := 0 to |schedule|
      invariant |pcs| == threads
      invariant CanRun(Machine(output[..], pcs), schedule[k..], Mix)
      invariant Run(Machine(output[..], pcs), schedule[k..], Mix) == Run(Start(data[..], threads), schedule, Mix)
    {
      var id := schedule[k];
      var t := pcs[id];
      ghost var m := Machine(output[..], pcs);
      if t.loaded.None? {
        pcs := pcs[id := Thread(t.j, Some(output[t.j]))];
      } else {
        output[t.j] := t.loaded.value ^ Mask(id);
        pcs := pcs[id := Thread(t.j + 1, None)];
      }
      assert Machine(output[..], pcs) == StepThread(m, id, Mix);
      assert schedule[k..][1..] == schedule[k + 1..];
    }
    assert output[..] == Transformed(data[..], threads, Mix);
    MaskedAt(data[..], threads);
  }
}
