/**
  How far below zero anything can be. A refund of a pay that was already pruned is
  paid out of nothing the merchant still has; the bound says the merchant can owe
  no more than such refunds, and that without refunds nothing is ever negative.
 */
module Shortfalls {
  import opened Sums
  import opened Addresses
  import opened RecordIds
  import opened FeeFormulas
  import opened Pruning
  import opened Ledger
  import opened Rules
  import opened Invariants
  import opened Steps
  import opened Shapes
  import opened History
  import opened SupplyTheorems

  // ---- fees of pays under rates of at most one ----

  ghost predicate FeesWithin(pays: map<string, PayRec>) {
    forall id :: id in pays && pays[id].amount > 0 ==> pays[id].fee <= pays[id].amount
  }

  ghost predicate PayFeesWithin(plan: Plan)
    decreases plan
  {
    plan.Then? ==> (plan.head.PutPay? ==> plan.head.pay.fee <= plan.head.pay.amount) && PayFeesWithin(plan.tail)
  }

  lemma {:induction false} WithoutPays(plan: Plan, env: Env, kinds: set<Kind>)
    requires Only(plan, env, kinds) && KPutPay !in kinds
    ensures PayFeesWithin(plan)
    decreases plan
  {
    if plan.Then? {
      WithoutPays(plan.tail, env, kinds);
    }
  }

  lemma ChargedAtMost(w: World, payer: Address, fn: string, amount: int)
    requires TokensHave(RatesUpToOne, w) && amount >= 0
    ensures CalcFee(w, payer, fn, amount).Some? ==> 0 <= CalcFee(w, payer, fn, amount).value <= amount
  {
    hide RatedFee;
    if payer.code in w.tokens {
      var t := w.tokens[payer.code];
      assert TokenHas(RatesUpToOne, payer.code, t);
      if t.policy.Some? && fn in t.policy.value.rates {
        RatedFeeAtMostAmount(t.policy.value.rates[fn], amount);
      }
    }
  }

  lemma PayFeesOfPlan(h: Hasher, b: World, env: Env, tx: Tx)
    requires Ready(b, env) && TokensHave(RatesUpToOne, b) && PlanOf(h, b, env, tx).Some?
    ensures PayFeesWithin(PlanOf(h, b, env, tx).value)
  {
    hide Inv, TokensHave, CalcFee, Only, PlanOf, Pay, Execute;
    Shape(h, b, env, tx);
    if KPutPay !in KindsOf(b, tx) {
      WithoutPays(PlanOf(h, b, env, tx).value, env, KindsOf(b, tx));
    } else if tx.TxPay? {
      PayPlanFees(b, env, tx.sender, tx.receiver, tx.amount, tx.con);
      assert PlanOf(h, b, env, tx) == Pay(b, env, tx.sender, tx.receiver, tx.amount, tx.con) by { PlanOfPay(h, b, env, tx); }
    } else {
      ExecutePayFees(b, env, tx.cid, b.contracts[tx.cid]);
      assert PlanOf(h, b, env, tx) == ExecutePay(b, env, tx.cid, b.contracts[tx.cid]) by { PlanOfExecutePay(h, b, env, tx); }
    }
  }

  lemma PlanOfPay(h: Hasher, b: World, env: Env, tx: Tx)
    requires tx.TxPay?
    ensures PlanOf(h, b, env, tx) == Pay(b, env, tx.sender, tx.receiver, tx.amount, tx.con)
  {
  }

  lemma PlanOfExecutePay(h: Hasher, b: World, env: Env, tx: Tx)
    requires tx.TxExecute? && tx.cid in b.contracts && b.contracts[tx.cid].DocPay?
    ensures PlanOf(h, b, env, tx) == ExecutePay(b, env, tx.cid, b.contracts[tx.cid])
  {
  }

  lemma PayPlanFees(b: World, env: Env, sender: Address, receiver: Address, amount: int, con: Con)
    requires TokensHave(RatesUpToOne, b)
    ensures var p := Pay(b, env, sender, receiver, amount, con); p.Some? ==> PayFeesWithin(p.value)
  {
    hide TokensHave, CalcFee;
    var p := Pay(b, env, sender, receiver, amount, con);
    if p.Some? {
      ChargedAtMost(b, receiver, "pay", amount);
      var plan := p.value;
      assert PayFeesWithin(plan.tail.tail) by {
        if plan.tail.tail.Then? { assert plan.tail.tail.tail == Done; }
      }
    }
  }

  lemma ExecutePayFees(b: World, env: Env, cid: string, doc: Doc)
    requires Inv(b) && TokensHave(RatesUpToOne, b) && doc.DocPay?
    ensures var p := ExecutePay(b, env, cid, doc); p.Some? ==> PayFeesWithin(p.value)
  {
    hide Inv, TokensHave, CalcFee;
    var p := ExecutePay(b, env, cid, doc);
    if p.Some? {
      PendingOf(b, doc.pb);
      ChargedAtMost(b, doc.receiver, "pay", b.pendings[doc.pb].amount);
      assert PayFeesWithin(p.value.tail.tail);
    }
  }

  lemma {:induction false} CommitKeepsFeesWithin(w: World, plan: Plan)
    requires PlanOk(w, plan) && FeesWithin(w.pays) && PayFeesWithin(plan) && Commit(w, plan).Some?
    ensures FeesWithin(Commit(w, plan).value.pays)
    decreases plan
  {
    hide NewBatch, Shortfall;
    if plan.Then? {
      CommitKeepsFeesWithin(Apply(w, plan.head), plan.tail);
    }
  }

  lemma StepKeepsFeesWithin(h: Hasher, w: World, env: Env, tx: Tx)
    requires Inv(w) && TokensHave(RatesUpToOne, w) && FeesWithin(w.pays) && Step(h, w, env, tx).Some?
    ensures FeesWithin(Step(h, w, env, tx).value.pays)
  {
    hide Inv, PlanOf, PlanOk, Commit, Step, Only, QueryAnswered, TokenHas;
    var b, plan := PlanOfStep(h, w, env, tx);
    PayFeesOfPlan(h, b, env, tx);
    CommitKeepsFeesWithin(b, plan);
  }

  lemma {:induction false} RunKeepsFeesWithin(h: Hasher, w: World, calls: seq<Call>)
    requires Inv(w) && TokensHave(RatesUpToOne, w) && FeesWithin(w.pays) && RunHas(RatesUpToOne, h, w, calls)
    ensures FeesWithin(Exec(h, w, calls).pays)
  {
    hide Inv, Step, TokensHave, FeesWithin, RunHas, AnswersHave;
    if calls != [] {
      var init, c := calls[..|calls| - 1], calls[|calls| - 1];
      PrefixHas(RatesUpToOne, h, w, calls);
      RunKeepsFeesWithin(h, w, init);
      RunKeepsInv(h, w, init);
      RunKeepsTokens(RatesUpToOne, h, w, init);
      var v := Exec(h, w, init);
      if Step(h, v, c.env, c.tx).Some? {
        StepKeepsFeesWithin(h, v, c.env, c.tx);
      }
    }
  }

  // ---- the bound ----

  // What a refund record takes from its merchant: its amount less the fee given back.
  function RefundLoss(pays: map<string, PayRec>, a: Address): map<string, int> {
    map id | id in pays :: if pays[id].merchant == a && pays[id].amount < 0 then -pays[id].amount - -pays[id].fee else 0
  }

  lemma RefundTakes(pays: map<string, PayRec>, id: string)
    requires RefundsOk(pays) && FeesWithin(pays) && id in pays && pays[id].amount < 0
    ensures 0 <= -pays[id].fee <= -pays[id].amount
  {
    hide RefundFee, Sum, Children;
    var p := pays[id];
    assert RefundOk(pays, id);
    assert RefundOk(pays, p.parent);
    RefundFeeInRange(-p.amount, pays[p.parent].amount, pays[p.parent].fee);
  }

  lemma LossesAreRefunds(pays: map<string, PayRec>, a: Address)
    requires RefundsOk(pays) && FeesWithin(pays)
    ensures PayLoss(pays, a) == RefundLoss(pays, a)
  {
    forall id | id in pays ensures PayLoss(pays, a)[id] == RefundLoss(pays, a)[id] {
      if pays[id].amount < 0 {
        RefundTakes(pays, id);
      } else {
        assert RefundOk(pays, id);
      }
    }
  }

  // With rates of at most one, a balance is never below zero by more than what refund
  // records pruned into it took, plus the negative fee records pruned into it.
  lemma BalanceBound(h: Hasher, calls: seq<Call>, a: Address)
    requires RunHas(RatesUpToOne, h, EMPTY_WORLD, calls)
    ensures var w := Exec(h, EMPTY_WORLD, calls);
      a in w.balances ==>
        w.balances[a].amount + Sum(Inside(RefundLoss(w.pays, a), w.prunedPays))
        + Sum(Inside(FeeLoss(w.fees), PrunedInto(w.prunedFees, a))) >= 0
  {
    hide Exec, RunHas, Sum, Inside, RefundLoss, PayLoss, FeeLoss, DocumentsOk, LogsOk, PayMarksOk, FeeMarksOk, HoldersOk, RefundsOk, FeesWithin, TokensHave;
    EmptyWorldOk();
    EmptyHas(RatesUpToOne);
    NoPaysYet();
    RunKeepsInv(h, EMPTY_WORLD, calls);
    RunKeepsFeesWithin(h, EMPTY_WORLD, calls);
    LossesAreRefunds(Exec(h, EMPTY_WORLD, calls).pays, a);
  }

  lemma NoPaysYet()
    ensures FeesWithin(EMPTY_WORLD.pays) && AllPositive(EMPTY_WORLD)
  {
  }

  // ---- runs without refunds ----

  ghost predicate AllPositive(w: World) {
    && (forall id :: id in w.pays ==> w.pays[id].amount > 0)
    && (forall id :: id in w.fees ==> w.fees[id].amount > 0)
  }

  ghost predicate PutsPositive(plan: Plan)
    decreases plan
  {
    plan.Then? ==>
      !plan.head.PutRefund? && (plan.head.PutFee? ==> plan.head.fee.amount > 0) && PutsPositive(plan.tail)
  }

  lemma {:induction false} WithoutFees(plan: Plan, env: Env, kinds: set<Kind>)
    requires Only(plan, env, kinds) && KPutFee !in kinds && KWrapFee !in kinds && KPutRefund !in kinds
    ensures PutsPositive(plan)
    decreases plan
  {
    if plan.Then? {
      WithoutFees(plan.tail, env, kinds);
    }
  }

  lemma CreateFeePositive(env: Env, a: Address, amount: int, cause: FeeCause, rest: Plan)
    requires amount >= 0 && PutsPositive(rest)
    ensures PutsPositive(CreateFee(env, a, amount, cause, rest))
  {
  }

  lemma DonePositive()
    ensures PutsPositive(Done)
  {
  }

  lemma TransferPositive(w: World, env: Env, sender: Address, receiver: Address, amount: int, lock: Option<int>, orderId: string, extra: seq<Address>, con: Con)
    ensures var p := Transfer(w, env, sender, receiver, amount, lock, orderId, extra, con); p.Some? ==> PutsPositive(p.value)
  {
    hide Gather, RatedFee;
    var p := Transfer(w, env, sender, receiver, amount, lock, orderId, extra, con);
    if p.Some? {
      var fee := CalcFee(w, sender, "transfer", amount).value;
      DonePositive();
      CreateFeePositive(env, sender, fee, TransferFee, Done);
      var plan := p.value;
      assert PutsPositive(plan.tail.tail) by {
        if plan.tail.tail.Then? { assert PutsPositive(plan.tail.tail.tail); }
      }
    }
  }

  lemma {:induction false} FeeSumNotNegative(pays: map<string, PayRec>, ids: seq<string>)
    requires RefundsOk(pays) && forall id :: id in pays ==> pays[id].amount > 0
    ensures SeqSum(FeesOf(PayRecs(pays)), ids) >= 0
  {
    if ids != [] {
      var id := ids[|ids| - 1];
      assert id in pays ==> RefundOk(pays, id);
      FeeSumNotNegative(pays, ids[..|ids| - 1]);
    }
  }

  lemma PrunePositive(w: World, env: Env, a: Address, order: seq<string>)
    requires Inv(w) && AllPositive(w)
    ensures var p := PayPrune(w, env, a, order); p.Some? ==> PutsPositive(p.value)
  {
    hide SeqSum, SplitTime, DocumentsOk, LogsOk, PayMarksOk, FeeMarksOk, HoldersOk, ShortfallOk, RefundsOk;
    var p := PayPrune(w, env, a, order);
    if p.Some? {
      var recs, ids := PayRecs(w.pays), Batch(order);
      var sum, fee := SeqSum(AmountsOf(recs), ids), SeqSum(FeesOf(recs), ids);
      FeeSumNotNegative(w.pays, ids);
      var post := Then(Post(a, PrunePayLog, NoRef, sum - fee, 0, env.ts), Done);
      DonePositive();
      assert PutsPositive(post);
      CreateFeePositive(env, a, fee, PayFee, post);
    }
  }

  lemma ExecuteTransferPositive(w: World, env: Env, cid: string, doc: Doc)
    requires Inv(w) && doc.DocTransfer?
    ensures var p := ExecuteTransfer(w, env, cid, doc); p.Some? ==> PutsPositive(p.value)
  {
    hide Inv;
    var p := ExecuteTransfer(w, env, cid, doc);
    if p.Some? {
      PendingOf(w, doc.pb);
      var pb := w.pendings[doc.pb];
      DonePositive();
      var last := Then(DropPending(doc.pb), Done);
      assert PutsPositive(last);
      CreateFeePositive(env, pb.account, FeePart(pb.fee), TransferFee, last);
    }
  }

  lemma WrapCompletePositive(w: World, env: Env, wrapId: string, fee: int, extTx: Option<string>)
    ensures var p := WrapComplete(w, env, wrapId, fee, extTx); p.Some? ==> PutsPositive(p.value)
  {
    hide NormalizeExtTxID;
    var p := WrapComplete(w, env, wrapId, fee, extTx);
    if p.Some? {
      DonePositive();
      assert PutsPositive(p.value.tail.tail);
    }
  }

  lemma PlanPositive(h: Hasher, b: World, env: Env, tx: Tx)
    requires Inv(b) && AllPositive(b) && !tx.TxRefund? && PlanOf(h, b, env, tx).Some?
    ensures PutsPositive(PlanOf(h, b, env, tx).value)
  {
    hide Inv, AllPositive, PutsPositive, Only, Transfer, PayPrune, WrapComplete, ExecuteTransfer;
    if tx.TxTransfer? {
      TransferPositive(b, env, tx.sender, tx.receiver, tx.amount, tx.lockSeconds, tx.orderId, tx.extra, tx.con);
    } else if tx.TxPayPrune? {
      PrunePositive(b, env, tx.account, tx.order);
    } else if tx.TxWrapComplete? {
      WrapCompletePositive(b, env, tx.wrapId, tx.fee, tx.extTx);
    } else if tx.TxExecute? && b.contracts[tx.cid].DocTransfer? {
      ExecuteTransferPositive(b, env, tx.cid, b.contracts[tx.cid]);
    } else {
      hide PlanOf;
      Shape(h, b, env, tx);
      WithoutFees(PlanOf(h, b, env, tx).value, env, KindsOf(b, tx));
    }
  }

  lemma {:induction false} CommitKeepsPositive(w: World, plan: Plan)
    requires PlanOk(w, plan) && AllPositive(w) && PutsPositive(plan) && Commit(w, plan).Some?
    ensures AllPositive(Commit(w, plan).value)
    decreases plan
  {
    hide NewBatch, Shortfall;
    if plan.Then? {
      CommitKeepsPositive(Apply(w, plan.head), plan.tail);
    }
  }

  lemma StepKeepsPositive(h: Hasher, w: World, env: Env, tx: Tx)
    requires Inv(w) && AllPositive(w) && !tx.TxRefund? && Step(h, w, env, tx).Some?
    ensures AllPositive(Step(h, w, env, tx).value)
  {
    hide Inv, PlanOf, PlanOk, Commit, Step, Only, QueryAnswered;
    var b, plan := PlanOfStep(h, w, env, tx);
    PlanPositive(h, b, env, tx);
    CommitKeepsPositive(b, plan);
  }

  ghost predicate NoRefunds(calls: seq<Call>) {
    forall i :: 0 <= i < |calls| ==> !calls[i].tx.TxRefund?
  }

  lemma {:induction false} RunKeepsPositive(h: Hasher, w: World, calls: seq<Call>)
    requires Inv(w) && AllPositive(w) && NoRefunds(calls)
    ensures AllPositive(Exec(h, w, calls))
  {
    hide Inv, Step, AllPositive;
    if calls != [] {
      var init, c := calls[..|calls| - 1], calls[|calls| - 1];
      RunKeepsPositive(h, w, init);
      RunKeepsInv(h, w, init);
      var v := Exec(h, w, init);
      if Step(h, v, c.env, c.tx).Some? {
        StepKeepsPositive(h, v, c.env, c.tx);
      }
    }
  }

  lemma NothingLost(w: World, a: Address)
    requires AllPositive(w) && FeesWithin(w.pays)
    ensures Shortfall(w, a) == 0
  {
    SumZero(Inside(PayLoss(w.pays, a), w.prunedPays));
    SumZero(Inside(FeeLoss(w.fees), PrunedInto(w.prunedFees, a)));
  }

  // Without refunds, and with rates of at most one, no balance, pay, time lock, escrow,
  // fee or open wrap is ever negative.
  lemma NothingNegative(h: Hasher, calls: seq<Call>)
    requires RunHas(RatesUpToOne, h, EMPTY_WORLD, calls) && NoRefunds(calls)
    ensures var w := Exec(h, EMPTY_WORLD, calls);
      && (forall a :: a in w.balances ==> w.balances[a].amount >= 0)
      && (forall id :: id in w.pays ==> 0 <= w.pays[id].fee <= w.pays[id].amount)
      && (forall id :: id in w.pendings ==> w.pendings[id].amount > 0 && FeePart(w.pendings[id].fee) >= 0)
      && (forall id :: id in w.fees ==> w.fees[id].amount > 0)
      && (forall id :: id in w.wraps ==> w.wraps[id].amount > 0)
  {
    hide Exec, RunHas, Sum, TokensHave, LogsOk, PayMarksOk, FeeMarksOk, HoldersOk, Shortfall;
    EmptyWorldOk();
    EmptyHas(RatesUpToOne);
    NoPaysYet();
    RunKeepsInv(h, EMPTY_WORLD, calls);
    RunKeepsFeesWithin(h, EMPTY_WORLD, calls);
    RunKeepsPositive(h, EMPTY_WORLD, calls);
    PositiveEverywhere(Exec(h, EMPTY_WORLD, calls));
  }

  lemma PositiveEverywhere(w: World)
    requires Inv(w) && AllPositive(w) && FeesWithin(w.pays)
    ensures forall a :: a in w.balances ==> w.balances[a].amount >= 0
    ensures forall id :: id in w.pays ==> 0 <= w.pays[id].fee <= w.pays[id].amount
    ensures forall id :: id in w.pendings ==> w.pendings[id].amount > 0 && FeePart(w.pendings[id].fee) >= 0
    ensures forall id :: id in w.wraps ==> w.wraps[id].amount > 0
  {
    hide LogsOk, PayMarksOk, FeeMarksOk, HoldersOk, Shortfall, Sum, IsRefundOf;
    forall a | a in w.balances ensures w.balances[a].amount >= 0 {
      NothingLost(w, a);
    }
    assert forall id :: id in w.pays ==> RefundOk(w.pays, id);
    assert forall id :: id in w.pendings ==> PendingOk(w.used, w.balances, w.contracts, id, w.pendings[id]);
    assert forall id :: id in w.wraps ==> WrapOk(w.used, w.balances, w.completed, id, w.wraps[id]);
  }
}
