/**
  Refunds of one pay: their amounts never exceed it, and the fees they give back
  never exceed its fee nor fall short of its share by a unit per refund.
 */
module Refunds {
  import opened Sums
  import opened Addresses
  import opened Amounts
  import opened FeeFormulas
  import opened Pruning
  import opened Ledger
  import opened Fields
  import opened Rules
  import opened Invariants
  import opened Steps
  import opened Shapes
  import opened History
  import opened Prunes

  function RefundsOf(pays: map<string, PayRec>, id: string): set<string> {
    set k | k in pays && pays[k].parent == id
  }

  function RefundAmounts(pays: map<string, PayRec>, id: string): map<string, int> {
    map k | k in RefundsOf(pays, id) :: if k in pays then -pays[k].amount else 0
  }

  function RefundedFees(pays: map<string, PayRec>, id: string): map<string, int> {
    map k | k in RefundsOf(pays, id) :: if k in pays then -pays[k].fee else 0
  }

  // Entries that are zero everywhere else may be left out of a sum.
  lemma {:induction false} SumOfPart<K>(whole: map<K, int>, part: map<K, int>)
    requires forall k :: k in part ==> k in whole && whole[k] == part[k]
    requires forall k :: k in whole && k !in part ==> whole[k] == 0
    ensures Sum(whole) == Sum(part)
    decreases |whole|
  {
    if whole == map[] {
      assert part == map[];
    } else {
      var k :| k in whole;
      assert (whole - {k}).Keys == whole.Keys - {k};
      SumRemove(whole, k);
      SumDrop(part, k);
      SumOfPart(whole - {k}, part - {k});
    }
  }

  lemma RefundTotalIsSum(pays: map<string, PayRec>, id: string)
    requires RefundsOk(pays) && id in pays
    ensures pays[id].totalRefund == Sum(RefundAmounts(pays, id))
  {
    assert RefundOk(pays, id);
    SumOfPart(Children(pays, id), RefundAmounts(pays, id));
  }

  lemma RefundRecord(pays: map<string, PayRec>, id: string, k: string)
    requires RefundsOk(pays) && id in pays && k in RefundsOf(pays, id)
    ensures pays[id].amount > 0 && pays[id].fee >= 0 && pays[k].amount < 0
    ensures -pays[k].fee == RefundFee(-pays[k].amount, pays[id].amount, pays[id].fee)
  {
    hide Sum, RefundFee, Children;
    assert RefundOk(pays, k) && RefundOk(pays, id);
    assert pays[k].parent != "";
  }

  lemma RefundFollowsFormula(pays: map<string, PayRec>, id: string, k: string)
    requires RefundsOk(pays) && id in pays && k in RefundsOf(pays, id)
    ensures pays[id].amount > 0
    ensures RefundedFees(pays, id)[k] == RefundFee(RefundAmounts(pays, id)[k], pays[id].amount, pays[id].fee) && RefundedFees(pays, id)[k] >= 0
  {
    hide RefundFee, RefundsOk;
    RefundRecord(pays, id, k);
    RefundFeeInRange(-pays[k].amount, pays[id].amount, pays[id].fee);
  }

  // For n refunds of a pay of amount A and fee F, with total R and returned fees G:
  // 0 <= R <= A, 0 <= G <= F, and G > F * R / A - n.
  ghost predicate Bounded(pays: map<string, PayRec>, id: string)
    requires id in pays
  {
    var A, F, R, G, n := pays[id].amount, pays[id].fee, pays[id].totalRefund, Sum(RefundedFees(pays, id)), |RefundsOf(pays, id)|;
    && R == Sum(RefundAmounts(pays, id)) && 0 <= R <= A && 0 <= G <= F
    && A * G <= F * R <= A * (G + n) && (n > 0 ==> F * R < A * (G + n))
  }

  lemma RefundsBounded(h: Hasher, calls: seq<Call>, id: string)
    ensures var pays := Exec(h, EMPTY_WORLD, calls).pays; id in pays && pays[id].amount > 0 ==> Bounded(pays, id)
  {
    hide Bounded, Exec, DocumentsOk, LogsOk, PayMarksOk, FeeMarksOk, ShortfallOk, HoldersOk, RefundsOk;
    EmptyWorldOk();
    RunKeepsInv(h, EMPTY_WORLD, calls);
    var pays := Exec(h, EMPTY_WORLD, calls).pays;
    if id in pays && pays[id].amount > 0 {
      BoundedIn(pays, id);
    }
  }

  lemma ShareAtMost(A: int, F: int, R: int, G: int)
    requires A > 0 && F >= 0 && R <= A && A * G <= F * R
    ensures G <= F
  {
    ScaleMonotone(R, A, F);
    assert F * R == R * F && F * A == A * F && G * A == A * G;
    CancelFactor(G, F, A);
  }

  lemma TotalInRange(pays: map<string, PayRec>, id: string)
    requires RefundsOk(pays) && id in pays && pays[id].amount > 0
    ensures pays[id].fee >= 0 && 0 <= pays[id].totalRefund <= pays[id].amount
  {
    hide Sum, RefundFee, IsRefundOf;
    assert RefundOk(pays, id);
  }

  lemma BoundedIn(pays: map<string, PayRec>, id: string)
    requires RefundsOk(pays) && id in pays && pays[id].amount > 0
    ensures Bounded(pays, id)
  {
    hide Sum, RefundFee, RefundsOk;
    var A, F, R := pays[id].amount, pays[id].fee, pays[id].totalRefund;
    var amounts, fees := RefundAmounts(pays, id), RefundedFees(pays, id);
    TotalInRange(pays, id);
    RefundTotalIsSum(pays, id);
    forall k | k in RefundsOf(pays, id) ensures fees[k] == RefundFee(amounts[k], A, F) && fees[k] >= 0 {
      RefundFollowsFormula(pays, id, k);
    }
    RefundFeesOfMany(amounts, fees, A, F);
    assert amounts.Keys == RefundsOf(pays, id);
    SumNonNegative(fees);
    ShareAtMost(A, F, R, Sum(fees));
  }

  // What an accepted refund does: it needs a pay, not a refund, with enough left; it
  // adds one negative record, credits the payer, and leaves the merchant's balance alone.
  lemma RefundStep(h: Hasher, w: World, env: Env, payId: string, amount: int)
    requires Inv(w) && Step(h, w, env, TxRefund(payId, amount)).Some?
    ensures payId in w.pays && w.pays[payId].payer in w.balances && env.RecordId() !in w.pays && w.pays[payId].amount > 0
    ensures var v, p := Step(h, w, env, TxRefund(payId, amount)).value, w.pays[payId];
      && p.parent == "" && 0 < amount <= p.amount - p.totalRefund && p.payer != p.merchant
      && v.pays == w.pays[env.RecordId() := PayRec(p.merchant, -amount, -RefundFee(amount, p.amount, p.fee), 0, p.payer, payId, env.ts, env.txid)]
                         [payId := p.(totalRefund := p.totalRefund + amount)]
      && v.balances == w.balances[p.payer := w.balances[p.payer].(amount := w.balances[p.payer].amount + amount)]
      && v.fees == w.fees && v.pendings == w.pendings && v.prunedPays == w.prunedPays
  {
    hide Inv, PlanOk, Commit, Apply, Only, RefundFee;
    var b, plan := PlanOfStep(h, w, env, TxRefund(payId, amount));
    PlainParent(w, payId, amount);
    CommitThen(b, plan.head, plan.tail);
    PutRefundFields(b, plan.head);
    CommitThen(Apply(b, plan.head), plan.tail.head, Done);
    PostFields(Apply(b, plan.head), plan.tail.head);
    CommitNothing(Apply(Apply(b, plan.head), plan.tail.head));
    assert env.RecordId() != payId;
  }

  // Only a plain pay has anything left to refund.
  lemma PlainParent(w: World, payId: string, amount: int)
    requires Inv(w) && payId in w.pays && amount > 0 && w.pays[payId].totalRefund + amount <= w.pays[payId].amount
    ensures w.pays[payId].amount > 0 && w.pays[payId].parent == ""
  {
    hide DocumentsOk, LogsOk, PayMarksOk, FeeMarksOk, ShortfallOk, HoldersOk, Sum;
    assert RefundOk(w.pays, payId);
  }

  // A refund record itself can never be refunded, and no record divides by zero.
  lemma RefundsAreFinal(h: Hasher, calls: seq<Call>, env: Env, payId: string, amount: int)
    ensures var w := Exec(h, EMPTY_WORLD, calls);
      && (payId in w.pays && w.pays[payId].parent != "" ==> Step(h, w, env, TxRefund(payId, amount)).None?)
      && (payId in w.pays ==> w.pays[payId].amount != 0)
  {
    EmptyWorldOk();
    RunKeepsInv(h, EMPTY_WORLD, calls);
    hide Step, Exec;
    var w := Exec(h, EMPTY_WORLD, calls);
    if Step(h, w, env, TxRefund(payId, amount)).Some? {
      RefundStep(h, w, env, payId, amount);
    }
    assert payId in w.pays ==> RefundOk(w.pays, payId);
  }

  ghost function Without<K>(ids: seq<K>, k: K): seq<K> {
    if ids == [] then []
    else if ids[|ids| - 1] == k then ids[..|ids| - 1]
    else Without(ids[..|ids| - 1], k) + [ids[|ids| - 1]]
  }

  lemma {:induction false} SumWithout<K>(m: map<K, int>, ids: seq<K>, k: K)
    requires k in ids
    ensures SeqSum(m, ids) == SeqSum(m, Without(ids, k)) + SeqSum(m, [k])
  {
    var init, last := ids[..|ids| - 1], ids[|ids| - 1];
    assert ids == init + [last];
    SeqSumConcat(m, init, [last]);
    if last != k {
      SumWithout(m, init, k);
      SeqSumConcat(m, Without(init, k), [last]);
    }
  }

  // What a batch is worth to the balance it is netted into.
  ghost function NetOf(recs: map<string, Rec<Address>>, ids: seq<string>): int {
    SeqSum(AmountsOf(recs), ids) - SeqSum(FeesOf(recs), ids)
  }

  lemma NetWithout(pays: map<string, PayRec>, ids: seq<string>, id: string)
    requires id in ids && id in pays
    ensures NetOf(PayRecs(pays), ids) == NetOf(PayRecs(pays), Without(ids, id)) + pays[id].amount - pays[id].fee
  {
    hide SeqSum, Without;
    SumWithout(AmountsOf(PayRecs(pays)), ids, id);
    SumWithout(FeesOf(PayRecs(pays)), ids, id);
    OneRecord(pays, id);
  }

  // A refund record never changes: it is worth minus its cost in every later state.
  lemma RefundCostStays(h: Hasher, w: World, env: Env, payId: string, amount: int, more: seq<Call>)
    requires Inv(w) && Step(h, w, env, TxRefund(payId, amount)).Some?
    ensures payId in w.pays && w.pays[payId].amount > 0
    ensures var v, id := Exec(h, Step(h, w, env, TxRefund(payId, amount)).value, more), env.RecordId();
      && Inv(v) && id in v.pays && v.pays[id].merchant == w.pays[payId].merchant
      && v.pays[id].amount - v.pays[id].fee == -(amount - RefundFee(amount, w.pays[payId].amount, w.pays[payId].fee))
  {
    hide Inv, Step, Exec, RefundFee, Apply, LogsExtend, BridgeExtends, MarksExtend, PendingsFrom;
    var u := Step(h, w, env, TxRefund(payId, amount)).value;
    RefundStep(h, w, env, payId, amount);
    StepKeepsInv(h, w, env, TxRefund(payId, amount));
    RunKeepsInv(h, u, more);
    RunExtends(h, u, more);
    assert env.RecordId() in u.pays;
  }

  // The cost of a refund reaches the merchant only when the negative record is pruned,
  // whenever that is and whatever is pruned with it: then amount less returned fee goes
  // from the balance, whether it is there or not. So the balance ends below zero exactly
  // when it and the rest of the batch were worth less.
  lemma RefundPrunedIn(h: Hasher, w: World, env: Env, payId: string, amount: int, more: seq<Call>, c: Call)
    requires Inv(w) && Step(h, w, env, TxRefund(payId, amount)).Some?
    requires c.tx.TxPayPrune? && env.RecordId() in Batch(c.tx.order)
    requires Step(h, Exec(h, Step(h, w, env, TxRefund(payId, amount)).value, more), c.env, c.tx).Some?
    ensures payId in w.pays && w.pays[payId].amount > 0 && c.tx.account == w.pays[payId].merchant
    ensures var p, v := w.pays[payId], Exec(h, Step(h, w, env, TxRefund(payId, amount)).value, more);
      var u := Step(h, v, c.env, c.tx).value;
      && p.merchant in v.balances && p.merchant in u.balances
      && var cost, rest := amount - RefundFee(amount, p.amount, p.fee), NetOf(PayRecs(v.pays), Without(Batch(c.tx.order), env.RecordId()));
         u.balances[p.merchant].amount == v.balances[p.merchant].amount + rest - cost
         && (u.balances[p.merchant].amount < 0 <==> v.balances[p.merchant].amount + rest < cost)
  {
    hide Inv, Step, Exec, RefundFee, Batch, Without, SeqSum, CountedBelow, MarkTime;
    RefundCostStays(h, w, env, payId, amount, more);
    var v := Exec(h, Step(h, w, env, TxRefund(payId, amount)).value, more);
    PayPruneCounts(h, v, c.env, c.tx);
    NetWithout(v.pays, Batch(c.tx.order), env.RecordId());
    assert PayRecs(v.pays)[env.RecordId()].owner == c.tx.account;
  }

  lemma OneRecord(pays: map<string, PayRec>, id: string)
    requires id in pays
    ensures Batch([id]) == [id]
    ensures SeqSum(AmountsOf(PayRecs(pays)), [id]) == pays[id].amount
    ensures SeqSum(FeesOf(PayRecs(pays)), [id]) == pays[id].fee
  {
    assert SeqSum(AmountsOf(PayRecs(pays)), [id][..0]) == 0 && SeqSum(FeesOf(PayRecs(pays)), [id][..0]) == 0;
  }
}
