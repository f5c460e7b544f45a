/** pay_stub.go: pay records, refund records, and the sum a prune collects. */
module PayStub {
  import opened Sums
  import opened Addresses
  import opened Amounts
  import opened Pruning
  import opened Ledger
  import opened Fields
  import opened Shim
  import opened BalanceLogs
  import opened BalanceStub

  ghost function PayPlan(env: Env, sender: Address, receiver: Address, amount: int, fee: int): Plan {
    Then(PutPay(env.RecordId(), PayRec(receiver, amount, fee, 0, sender, "", env.ts, env.txid)),
    Then(Post(sender, PayLog, ToAccount(receiver), -amount, 0, env.ts), Done))
  }

  method Pay(s: Stub, sender: BalanceDoc, receiver: Address, amount: int, fee: int) returns (ok: bool)
    requires sender.Mirrors(s.next) && s.Unlogged(sender.id)
    modifies s, sender.amount
    ensures Commit(old(s.next), PayPlan(s.env, sender.id, receiver, amount, fee)) == if ok then Some(s.next) else None
  {
    hide Apply;
    ghost var w, plan := s.next, PayPlan(s.env, sender.id, receiver, amount, fee);
    var pay := PayRec(receiver, amount, fee, 0, sender.id, "", s.env.ts, s.env.txid);
    s.PutPay(s.env.RecordId(), pay);
    PutPayFields(w, plan.head);
    var minus := new Amount(amount);
    minus.Neg();
    sender.amount.Add(minus);
    ok := Save(s, sender, plan.tail.head, NewBalancePayLog(sender.amount.v, pay));
    if ok {
      CommitLast(Apply(w, plan.head), plan.tail.head);
    }
  }

  ghost function RefundPlan(env: Env, merchant: Address, payer: Address, amount: int, fee: int, parent: string): Plan {
    Then(PutRefund(env.RecordId(), PayRec(merchant, -amount, -fee, 0, payer, parent, env.ts, env.txid)),
    Then(Post(payer, RefundLog, ToAccount(merchant), amount, 0, env.ts), Done))
  }

  // A negative record for the merchant, the new total on the pay it refunds, and the
  // amount to the payer. The merchant's balance is not touched.
  method Refund(s: Stub, merchant: Address, receiver: BalanceDoc, amount: int, fee: int, parentId: string) returns (ok: bool)
    requires parentId in s.next.pays && receiver.Mirrors(s.next) && s.Unlogged(receiver.id)
    modifies s, receiver.amount
    ensures Commit(old(s.next), RefundPlan(s.env, merchant, receiver.id, amount, fee, parentId)) == if ok then Some(s.next) else None
  {
    hide Apply;
    ghost var w, plan := s.next, RefundPlan(s.env, merchant, receiver.id, amount, fee, parentId);
    var minus := new Amount(amount);
    minus.Neg();
    var minusFee := new Amount(fee);
    minusFee.Neg();
    var pay := PayRec(merchant, minus.v, minusFee.v, 0, receiver.id, parentId, s.env.ts, s.env.txid);
    RecordRefund(s, pay, amount);
    PutRefundFields(w, plan.head);
    var x := new Amount(amount);
    receiver.amount.Add(x);
    ok := Save(s, receiver, plan.tail.head, NewBalanceRefundLog(receiver.amount.v, pay));
    if ok {
      CommitLast(Apply(w, plan.head), plan.tail.head);
    }
  }

  // The new record, then its parent with the refund added to the total.
  method RecordRefund(s: Stub, pay: PayRec, amount: int)
    requires pay.parent in s.next.pays && amount == -pay.amount
    modifies s
    ensures s.next == Apply(old(s.next), PutRefund(s.env.RecordId(), pay))
  {
    hide Apply;
    ghost var w := s.next;
    var id := s.env.RecordId();
    var parent := s.next.pays[pay.parent];
    s.PutPay(id, pay);
    PutPayFields(w, PutPay(id, pay));
    var total := new Amount(parent.totalRefund);
    var x := new Amount(amount);
    total.Add(x);
    PutPayFields(s.next, PutPay(pay.parent, parent.(totalRefund := total.v)));
    s.PutPay(pay.parent, parent.(totalRefund := total.v));
    PutRefundFields(w, PutRefund(id, pay));
    assert s.next.pays == WithRefund(w.pays, id, pay);
  }

  // The whole pending amount becomes a pay of the merchant.
  method PayPendingBalance(s: Stub, pid: string, pb: Pending, fee: int, merchant: Address)
    modifies s
    ensures Commit(old(s.next), Then(PutPay(s.env.RecordId(), PayRec(merchant, pb.amount, fee, 0, pb.account, "", s.env.ts, s.env.txid)), Then(DropPending(pid), Done)))
         == Some(s.next)
  {
    hide Apply;
    s.PutPay(s.env.RecordId(), PayRec(merchant, pb.amount, fee, 0, pb.account, "", s.env.ts, s.env.txid));
    CommitLast(s.next, DropPending(pid));
    s.DeletePending(pid);
  }

  datatype PaySum = PaySum(sum: int, fee: int, count: nat, hasMore: bool, start: string, end: string)

  // The prune loop: at most 900 records of the answer, and whether there are more.
  method GetPaySumByTime(s: Stub, order: seq<string>) returns (r: PaySum)
    requires forall id :: id in order ==> id in s.state.pays
    ensures r.count == |Batch(order)| && (r.hasMore <==> |order| > PRUNE_SIZE)
    ensures r.sum == SeqSum(AmountsOf(PayRecs(s.state.pays)), Batch(order))
    ensures r.fee == SeqSum(FeesOf(PayRecs(s.state.pays)), Batch(order))
    ensures order != [] ==> r.start == order[0] && r.end == Last(Batch(order))
  {
    var cnt, hasMore, start, end := 0, false, "", "";
    var sum := new Amount(0);
    var fee := new Amount(0);
    var i := 0;
    ghost var recs := PayRecs(s.state.pays);
    while i < |order|
      invariant 0 <= i <= |order| && cnt == i <= PRUNE_SIZE && !hasMore
      invariant sum != fee && sum.v == SeqSum(AmountsOf(recs), order[..i]) && fee.v == SeqSum(FeesOf(recs), order[..i])
      invariant i > 0 ==> start == order[0] && end == order[i - 1]
    {
      cnt := cnt + 1;
      var pay := s.state.pays[order[i]];
      if cnt == 1 {
        start := order[i];
      }
      if cnt > PRUNE_SIZE {
        hasMore := true;
        cnt := cnt - 1;
        break;
      }
      var x := new Amount(pay.amount);
      var y := new Amount(pay.fee);
      sum.Add(x);
      fee.Add(y);
      end := order[i];
      assert order[..i + 1][..i] == order[..i];
      i := i + 1;
    }
    assert Batch(order) == order[..i];
    r := PaySum(sum.v, fee.v, cnt, hasMore, start, end);
  }
}
