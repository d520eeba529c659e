/**
 The waiter maps: channels of sleeping status requests, listed under the task or
 the batch they wait for.  taskWaiters and batchWaiters run the same code, so one
 map with tagged keys stands for both.
 */
module Waiters {
  import opened BrokerCore

  /** Which waiter map, and which key in it. */
  datatype Key = TaskKey(task: TaskId) | BatchKey(parent: int)

  function AddWaiter(waiters: map<Key, seq<nat>>, k: Key, ch: nat): map<Key, seq<nat>> {
    waiters[k := (if k in waiters then waiters[k] else []) + [ch]]
  }

  function Without(list: seq<nat>, ch: nat): seq<nat> {
    if list == [] then [] else (if list[0] != ch then [list[0]] else []) + Without(list[1..], ch)
  }

  /** Exactly the one channel goes; every other stays as often as it was listed. */
  lemma {:induction false} WithoutKeepsOthers(list: seq<nat>, ch: nat)
    ensures multiset(Without(list, ch)) == multiset(list)[ch := 0]
  {
    if list != [] {
      WithoutKeepsOthers(list[1..], ch);
      assert list == [list[0]] + list[1..];
    }
  }

  /** In a list without repetitions an element is counted once. */
  lemma {:induction false} ListedOnce<T>(list: seq<T>, ch: T)
    requires forall m, n :: 0 <= m < n < |list| ==> list[m] != list[n]
    ensures multiset(list)[ch] == if ch in list then 1 else 0
  {
    if list != [] {
      ListedOnce(list[1..], ch);
      assert list == [list[0]] + list[1..];
    }
  }

  lemma {:induction false} WithoutStep(list: seq<nat>, n: nat, ch: nat, kept: seq<nat>)
    requires n < |list|
    ensures kept + Without(list[n..], ch)
         == (if list[n] != ch then kept + [list[n]] else kept) + Without(list[n + 1..], ch)
  {
    assert list[n..][1..] == list[n + 1..];
    assert kept + ([list[n]] + Without(list[n + 1..], ch)) == kept + [list[n]] + Without(list[n + 1..], ch);
  }

  /** Timeout clean-up: drop the channel, and the key with it when no channel is left. */
  function DropWaiter(waiters: map<Key, seq<nat>>, k: Key, ch: nat): map<Key, seq<nat>> {
    if k !in waiters then waiters
    else if Without(waiters[k], ch) == [] then waiters - {k}
    else waiters[k := Without(waiters[k], ch)]
  }

  function ClosesOf(waiters: map<Key, seq<nat>>, k: Key, ch: nat): nat {
    if k in waiters then multiset(waiters[k])[ch] else 0
  }

  /** The registry as an object, with the loops of the source. */
  class WaiterMap {
    var waiters: map<Key, seq<nat>>
    var closes: array<nat>

    constructor (channels: nat)
      ensures waiters == map[] && closes.Length == channels && forall i :: 0 <= i < channels ==> closes[i] == 0
    {
      waiters := map[];
      closes := new nat[channels](_ => 0);
    }

    method Add(k: Key, ch: nat)
      modifies this`waiters
      ensures waiters == AddWaiter(old(waiters), k, ch)
    {
      var list := [];
      if k in waiters { list := waiters[k]; }
      waiters := waiters[k := list + [ch]];
    }

    method Remove(k: Key, ch: nat)
      modifies this`waiters
      ensures waiters == DropWaiter(old(waiters), k, ch)
    {
      if k in waiters {
        var list := waiters[k];
        var kept: seq<nat> := [];
        for n := 0 to |list|
          invariant waiters == old(waiters)
          invariant kept + Without(list[n..], ch) == Without(list, ch)
        {
          WithoutStep(list, n, ch, kept);
          if list[n] != ch { kept := kept + [list[n]]; }
        }
        assert list[|list|..] == [] && kept == Without(list, ch);
        if kept == [] {
          waiters := waiters - {k};
        } else {
          waiters := waiters[k := kept];
        }
      }
    }

    method CloseAll(k: Key)
      requires k in waiters ==> forall ch :: ch in waiters[k] ==> ch < closes.Length
      modifies this`waiters, closes
      ensures waiters == old(waiters) - {k}
      ensures forall i: nat :: i < closes.Length ==> closes[i] == old(closes[i]) + ClosesOf(old(waiters), k, i)
    {
      if k in waiters {
        var chans := waiters[k];
        for n := 0 to |chans|
          modifies closes
          invariant forall i: nat :: i < closes.Length ==> closes[i] == old(closes[i]) + multiset(chans[..n])[i]
        {
          assert chans[..n + 1] == chans[..n] + [chans[n]] && chans[n] in chans;
          closes[chans[n]] := closes[chans[n]] + 1;
        }
        assert chans[..|chans|] == chans;
        waiters := waiters - {k};
      }
    }
  }
}
