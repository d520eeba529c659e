/**
 The credit ledger: balances opened at 100 on first sight, deposits, payout
 requests and settlement, as an object over two tables.  Amounts are reals.
 */
module CreditLedger {
  import opened Wrappers

  const OPENING := 100.0
  const CREDITS_PER_DOLLAR := 100.0
  const SENDER := "local-client"

  datatype PayoutStatus = PayoutPending | PayoutApproved | PayoutRejected

  datatype Payout = Payout(worker: string, amount: real, status: PayoutStatus)

  datatype PayoutError = MissingField | InvalidAmount | InsufficientBalance | InsertFailed

  // -------------------------------------------------------------- the sums

  ghost function SumOf(m: map<string, real>): real {
    if m == map[] then 0.0
    else
      var k :| k in m;
      m[k] + SumOf(m - {k})
  }

  lemma {:induction false} SumWithout(m: map<string, real>, k: string)
    requires k in m
    ensures SumOf(m) == m[k] + SumOf(m - {k})
    decreases |m|
  {
    var j :| j in m && SumOf(m) == m[j] + SumOf(m - {j});
    if j != k {
      SumWithout(m - {j}, k);
      SumWithout(m - {k}, j);
      assert m - {j} - {k} == m - {k} - {j};
    }
  }

  lemma SumUpdate(m: map<string, real>, k: string, v: real)
    ensures SumOf(m[k := v]) == SumOf(m) - (if k in m then m[k] else 0.0) + v
  {
    var m' := m[k := v];
    SumWithout(m', k);
    if k in m {
      SumWithout(m, k);
      assert m' - {k} == m - {k};
    } else {
      assert m' - {k} == m;
    }
  }

  lemma SizeOfInsert(m: map<string, real>, k: string, v: real)
    ensures |m[k := v]| == |m| + if k in m then 0 else 1
  {
    assert m[k := v].Keys == m.Keys + {k};
    assert |m| == |m.Keys| && |m[k := v]| == |m[k := v].Keys|;
  }

  function PaidOut(ps: seq<Payout>): real {
    if ps == [] then 0.0 else PaidOut(ps[..|ps| - 1]) + ps[|ps| - 1].amount
  }

  lemma {:induction false} PaidOutIgnoresStatus(ps: seq<Payout>, i: nat, st: PayoutStatus)
    requires i < |ps|
    ensures PaidOut(ps[i := ps[i].(status := st)]) == PaidOut(ps)
  {
    var n := |ps| - 1;
    var ps' := ps[i := ps[i].(status := st)];
    if i == n { assert ps'[..n] == ps[..n]; } else {
      assert ps'[..n] == ps[..n][i := ps[i].(status := st)];
      PaidOutIgnoresStatus(ps[..n], i, st);
    }
  }

  // ------------------------------------------------------------- the ledger

  class Ledger {
    var balances: map<string, real>
    var payouts: seq<Payout>
    ghost var dollars: real      // dollars deposited so far
    ghost var resets: nat        // zero-balance sender resets so far

    /** Credits in the system: all balances and all payout requests, whatever their status. */
    ghost function Total(): real
      reads this
    {
      SumOf(balances) + PaidOut(payouts)
    }

    /** Every credit was put in by opening one of the accounts, by a deposit, or by a sender reset. */
    ghost predicate Conserved()
      reads this
    {
      Total() == OPENING * |balances| as real + CREDITS_PER_DOLLAR * dollars + OPENING * resets as real
    }

    /** The balance an account shows: an unopened one shows the opening credit. */
    ghost function Shown(id: string): real
      reads this
    {
      if id in balances then balances[id] else OPENING
    }

    constructor ()
      ensures Conserved() && balances == map[] && payouts == []
    {
      balances, payouts := map[], [];
      dollars, resets := 0.0, 0;
    }

    /** INSERT ... ON CONFLICT UPDATE */
    method SetBalance(id: string, amount: real)
      modifies this`balances
      ensures balances == old(balances)[id := amount]
      ensures |balances| == |old(balances)| + if id in old(balances) then 0 else 1
      ensures Total() == old(Total()) + amount - (if id in old(balances) then old(balances)[id] else 0.0)
    {
      balances := balances[id := amount];
      SumUpdate(old(balances), id, amount);
      SizeOfInsert(old(balances), id, amount);
    }

    /** Reading a balance opens the account at 100 when there is no row. */
    method GetBalance(id: string) returns (bal: real)
      modifies this`balances
      ensures bal == old(Shown(id)) && id in balances && balances[id] == bal
      ensures Total() - OPENING * |balances| as real == old(Total() - OPENING * |balances| as real)
      ensures balances == if id in old(balances) then old(balances) else old(balances)[id := 100.0]
      ensures |balances| == |old(balances)| + if id in old(balances) then 0 else 1
    {
      if id in balances { return balances[id]; }
      SetBalance(id, OPENING);
      bal := OPENING;
    }

    /** Read a balance, add to it, write it back. */
    method Credit(id: string, amount: real)
      modifies this`balances
      ensures balances == old(balances)[id := old(Shown(id)) + amount]
      ensures Total() - OPENING * |balances| as real == old(Total() - OPENING * |balances| as real) + amount
      ensures |balances| == |old(balances)| + if id in old(balances) then 0 else 1
    {
      var current := GetBalance(id);
      SetBalance(id, current + amount);
    }

    /** A deposit, by the simulated checkout or the payment webhook. */
    method Deposit(id: string, amount: real)
      requires Conserved()
      modifies this
      ensures Conserved() && dollars == old(dollars) + amount && payouts == old(payouts) && resets == old(resets)
      ensures balances == old(balances)[id := old(Shown(id)) + 100.0 * amount]
      ensures Total() == old(Total()) + 100.0 * amount + (if id in old(balances) then 0.0 else 100.0)
    {
      Credit(id, amount * 100.0);
      dollars := dollars + amount;
    }

    /** A payout request; `stored` tells whether the insert of the request succeeds. */
    method RequestPayout(id: string, amount: real, stored: bool) returns (r: Result<(), PayoutError>)
      requires Conserved()
      modifies this
      ensures Conserved() && dollars == old(dollars) && resets == old(resets)
      ensures r.Ok? <==> id != "" && 0.0 < amount <= old(Shown(id)) && stored
      ensures r.Ok? ==> balances == old(balances)[id := old(Shown(id)) - amount]
      ensures r.Ok? ==> payouts == old(payouts) + [Payout(id, amount, PayoutPending)]
      ensures r.Err? ==> payouts == old(payouts) && forall a: string :: Shown(a) == old(Shown(a))
      ensures r == Err(MissingField) <==> id == ""
      ensures r == Err(InvalidAmount) <==> id != "" && amount <= 0.0
      ensures r == Err(InsufficientBalance) <==> id != "" && 0.0 < amount && old(Shown(id)) < amount
      ensures r == Err(InsertFailed) <==> id != "" && 0.0 < amount <= old(Shown(id)) && !stored
    {
      if id == "" { return Err(MissingField); }
      if amount <= 0.0 { return Err(InvalidAmount); }
      var current := GetBalance(id);
      if current < amount { return Err(InsufficientBalance); }
      var ok := TakeAndRecord(id, current, amount, stored);
      r := Err(InsertFailed);
      if ok { r := Ok(()); }
    }

    /** Take the amount off the balance and insert the request; put the balance back if the insert fails. */
    method TakeAndRecord(id: string, current: real, amount: real, stored: bool) returns (ok: bool)
      requires id in balances && balances[id] == current
      modifies this`balances, this`payouts
      ensures ok == stored && Total() == old(Total())
      ensures balances == if ok then old(balances)[id := current - amount] else old(balances)
      ensures payouts == if ok then old(payouts) + [Payout(id, amount, PayoutPending)] else old(payouts)
    {
      SetBalance(id, current - amount);
      if !stored {
        SetBalance(id, current);
        return false;
      }
      payouts := payouts + [Payout(id, amount, PayoutPending)];
      assert payouts[..|payouts| - 1] == old(payouts);
      ok := true;
    }

    /** Marking a request approved or rejected; an unknown request ID changes no row. */
    method DecidePayout(i: nat, approve: bool)
      requires Conserved()
      modifies this`payouts
      ensures Conserved() && |payouts| == |old(payouts)|
      ensures i < |payouts| ==>
                var st := if approve then PayoutApproved else PayoutRejected;
                payouts == old(payouts)[i := old(payouts)[i].(status := st)]
      ensures i >= |payouts| ==> payouts == old(payouts)
    {
      if i < |payouts| {
        var st := if approve then PayoutApproved else PayoutRejected;
        PaidOutIgnoresStatus(payouts, i, st);
        payouts := payouts[i := payouts[i].(status := st)];
      }
    }

    /** Settlement of a verified receipt: the sender pays, the worker is paid, in this order. */
    method Settle(worker: string, price: real) returns (left: real)
      requires Conserved()
      modifies this
      ensures Conserved() && payouts == old(payouts) && dollars == old(dollars)
      ensures var sender := if old(Shown("local-client")) == 0.0 then 100.0 else old(Shown("local-client"));
              && (worker == "local-client" ==> Shown(worker) == sender)
              && (worker != "local-client" ==>
                    Shown("local-client") == sender - price && Shown(worker) == old(Shown(worker)) + price)
      ensures forall a: string :: a != worker && a != "local-client" ==> Shown(a) == old(Shown(a))
      ensures resets == old(resets) + if old(Shown("local-client")) == 0.0 then 1 else 0
      ensures left == Shown("local-client")
    {
      var senderBal := GetBalance(SENDER);
      if senderBal == 0.0 {
        senderBal := OPENING;
        resets := resets + 1;
      }
      SetBalance(SENDER, senderBal - price);
      Credit(worker, price);
      left := balances[SENDER];
    }
  }

  datatype Operation =
    | Show(id: string)
    | Pay(id: string, dollars: real)
    | Withdraw(id: string, amount: real, stored: bool)
    | Decide(request: nat, approve: bool)
    | Charge(worker: string, price: real)

  /** Dollars a sequence of operations brings in from outside. */
  function Paid(ops: seq<Operation>): real {
    if ops == [] then 0.0
    else Paid(ops[..|ops| - 1]) + if ops[|ops| - 1].Pay? then ops[|ops| - 1].dollars else 0.0
  }

  /** The sender's balance after one operation. */
  function SenderAfter(bal: real, op: Operation): real {
    match op
    case Pay(id, dollars) => if id == SENDER then bal + CREDITS_PER_DOLLAR * dollars else bal
    case Withdraw(id, amount, stored) => if id == SENDER && 0.0 < amount <= bal && stored then bal - amount else bal
    case Charge(worker, price) =>
      var charged := if bal == 0.0 then OPENING else bal;
      if worker == SENDER then charged else charged - price
    case _ => bal
  }

  function SenderBalance(bal: real, ops: seq<Operation>): real {
    if ops == [] then bal else SenderAfter(SenderBalance(bal, ops[..|ops| - 1]), ops[|ops| - 1])
  }

  /** Settlements that find the sender, who starts with `bal`, at zero. */
  function Resets(bal: real, ops: seq<Operation>): nat {
    if ops == [] then 0
    else
      var before := ops[..|ops| - 1];
      Resets(bal, before) + if ops[|ops| - 1].Charge? && SenderBalance(bal, before) == 0.0 then 1 else 0
  }

  method RunOne(l: Ledger, op: Operation)
    requires l.Conserved()
    modifies l
    ensures l.Conserved() && l.dollars == old(l.dollars) + (if op.Pay? then op.dollars else 0.0)
    ensures l.resets == old(l.resets) + if op.Charge? && old(l.Shown(SENDER)) == 0.0 then 1 else 0
    ensures l.Shown(SENDER) == SenderAfter(old(l.Shown(SENDER)), op)
  {
    match op {
      case Show(id) => var _ := l.GetBalance(id);
      case Pay(id, amount) => l.Deposit(id, amount);
      case Withdraw(id, amount, stored) => var _ := l.RequestPayout(id, amount, stored);
      case Decide(i, approve) => l.DecidePayout(i, approve);
      case Charge(worker, price) => var _ := l.Settle(worker, price);
    }
  }

  /** Any sequence of operations, one after another, conserves credits. */
  method RunAll(l: Ledger, ops: seq<Operation>)
    requires l.Conserved()
    modifies l
    ensures l.Conserved() && l.dollars == old(l.dollars) + Paid(ops)
    ensures l.resets == old(l.resets) + Resets(old(l.Shown(SENDER)), ops)
    ensures l.Shown(SENDER) == SenderBalance(old(l.Shown(SENDER)), ops)
  {
    ghost var bal := l.Shown(SENDER);
    for n := 0 to |ops|
      invariant l.Conserved() && l.dollars == old(l.dollars) + Paid(ops[..n])
      invariant l.resets == old(l.resets) + Resets(bal, ops[..n]) && l.Shown(SENDER) == SenderBalance(bal, ops[..n])
    {
      assert ops[..n + 1][..n] == ops[..n];
      RunOne(l, ops[n]);
    }
    assert ops[..|ops|] == ops;
  }
}
