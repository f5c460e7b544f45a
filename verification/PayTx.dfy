/** pay_tx.go and fee_tx.go: pays, refunds, and the two prunes. */
module PayTx {
  import opened Sums
  import opened Addresses
  import opened RecordIds
  import opened Amounts
  import opened FeeFormulas
  import opened Pruning
  import opened Ledger
  import opened Fields
  import opened Rules
  import opened Invariants
  import opened Prunes
  import opened Shim
  import opened TransferTx
  import opened BalanceLogs
  import BalanceStub
  import FeeStub
  import PayStub
  import Successes

  method Pay(s: Stub, sender: Address, receiver: Address, amount: int, con: Con) returns (ok: bool)
    requires s.next == s.state
    modifies s
    ensures Outcome(s.state, Rules.Pay(s.state, s.env, sender, receiver, amount, con)) == if ok then Some(s.next) else None
  {
    hide Commit, CalcFee;
    if amount <= 0 || receiver.code != sender.code || sender == receiver {
      return false;
    }
    var entitled := HolderOfActive(s, sender);
    if !entitled || receiver !in s.state.accounts || s.state.accounts[receiver].suspended {
      return false;
    }
    var sBal := s.GetBalance(sender);
    if sBal == null {
      return false;
    }
    var needed := new Amount(amount);
    if sBal.amount.Cmp(needed) < 0 {
      return false;
    }
    var signers := {s.env.kid};
    if sender.kind == JOINT {
      signers := signers + s.state.accounts[sender].holders;
    }
    if |signers| > MAX_SIGNERS {
      return false;
    }
    if |signers| > 1 {
      ok := Propose(s, sBal, con, DocPay(s.env.txid, sender, receiver), amount, None);
    } else {
      var fee := FeeStub.CalcFee(s, receiver, "pay", amount);
      if fee.None? {
        return false;
      }
      ok := PayStub.Pay(s, sBal, receiver, amount, fee.value);
    }
  }

  // The fee given back: all of it for a full refund, else its share, rounded down.
  method RefundedFee(amount: int, parent: PayRec) returns (fee: int)
    requires parent.amount != 0
    ensures fee == RefundFee(amount, parent.amount, parent.fee)
  {
    var x := new Amount(amount);
    var whole := new Amount(parent.amount);
    if x.Cmp(whole) != 0 {
      var rat := SetFrac(parent.fee, parent.amount);
      var feeAmount := x.Copy();
      feeAmount.MulRat(rat);
      ReducedRefundFee(amount, parent.amount, parent.fee);
      fee := feeAmount.v;
    } else {
      fee := parent.fee;
    }
  }

  // The merchant's balance is loaded but neither checked nor changed. In a reachable
  // state no stored amount is zero, so the fraction is defined.
  method PayRefund(s: Stub, payId: string, amount: int) returns (ok: bool)
    requires s.next == s.state && Inv(s.state)
    modifies s
    ensures Outcome(s.state, Refund(s.state, s.env, payId, amount)) == if ok then Some(s.next) else None
  {
    hide Commit, Inv, RefundFee;
    if amount <= 0 || payId !in s.state.pays {
      return false;
    }
    var parent := s.state.pays[payId];
    Successes.AmountNotZero(s.state, payId);
    var merchant, payer := parent.merchant, parent.payer;
    if payer.code != merchant.code || merchant == payer {
      return false;
    }
    var total := new Amount(parent.totalRefund);
    var x := new Amount(amount);
    total.Add(x);
    var whole := new Amount(parent.amount);
    if whole.Cmp(total) < 0 {
      return false;
    }
    var entitled := HolderOfActive(s, merchant);
    if !entitled || payer !in s.state.accounts || s.state.accounts[payer].suspended {
      return false;
    }
    var sBal := s.GetBalance(merchant);
    var rBal := s.GetBalance(payer);
    if sBal == null || rBal == null {
      return false;
    }
    var fee := RefundedFee(amount, parent);
    ok := PayStub.Refund(s, merchant, rBal, amount, fee, payId);
  }

  // What a caller may rely on: the end is never after the requested one (the given
  // second, or now), at least ten minutes before now under the safe flag, and no
  // earlier than these two demand.
  ghost predicate EndsWindow(ts: int, safe: bool, endSeconds: Option<int>, end: int) {
    var requested := if endSeconds.Some? then endSeconds.value * NANOS else ts;
    && end <= requested
    && (safe ==> end <= ts - 600 * NANOS)
    && (end == requested || (safe && end == ts - 600 * NANOS))
  }

  // There is exactly one such end, the one the rules query.
  lemma OneEnd(ts: nat, safe: bool, endSeconds: Option<int>, end: int)
    ensures EndsWindow(ts, safe, endSeconds, end) <==> end == EndTime(ts, safe, endSeconds)
  {
  }

  method PruneEnd(s: Stub, safe: bool, endSeconds: Option<int>) returns (end: int)
    ensures EndsWindow(s.env.ts, safe, endSeconds, end)
  {
    end := s.env.ts;
    if endSeconds.Some? {
      end := endSeconds.value * NANOS;
    }
    if safe {
      var safeTime := s.env.ts - SAFE_MARGIN;
      if end > safeTime {
        end := safeTime;
      }
    }
  }

  // The new state when a merchant's batch has been counted, all at once.
  ghost function PaysCounted(w: World, env: Env, a: Address, ids: seq<string>, sum: int, fee: int): World
    requires a in w.balances && ids != []
  {
    var amount := w.balances[a].amount + sum - fee;
    w.(balances := w.balances[a := Balance(amount, Last(ids))],
       fees := if fee == 0 then w.fees else w.fees[env.RecordId() := FeeRec(a.code, a, fee, env.ts, env.txid, PayFee)],
       logs := w.logs[(a, env.ts) := Log(PrunePayLog, NoRef, sum - fee, 0, amount)],
       journal := w.journal + [(a, env.ts)],
       prunedPays := w.prunedPays + Elements(ids))
  }

  lemma PayBatchResult(w: World, env: Env, a: Address, ids: seq<string>, sum: int, fee: int)
    requires a in w.balances && ids != []
    ensures Commit(w, PayBatchPlan(env, a, ids, sum, fee)) == if (a, env.ts) in w.logs then None else Some(PaysCounted(w, env, a, ids, sum, fee))
  {
    hide Apply, Commit;
    var plan := PayBatchPlan(env, a, ids, sum, fee);
    MarkPaysFields(w, plan.head);
    CommitStep(w, plan.head, plan.tail);
    var w1 := Apply(w, plan.head);
    FeeThenPost(w1, env, a, sum - fee, fee);
    PutTwice(w.balances, a, w.balances[a].(mark := Last(ids)), Balance(w.balances[a].amount + sum - fee, Last(ids)));
  }

  lemma FeeThenPost(w: World, env: Env, a: Address, diff: int, fee: int)
    requires a in w.balances
    ensures var balance := w.balances[a].(amount := w.balances[a].amount + diff);
      Commit(w, Rules.CreateFee(env, a, fee, PayFee, Then(Post(a, PrunePayLog, NoRef, diff, 0, env.ts), Done)))
      == if (a, env.ts) in w.logs then None
         else Some(w.(balances := w.balances[a := balance],
                      fees := if fee == 0 then w.fees else w.fees[env.RecordId() := FeeRec(a.code, a, fee, env.ts, env.txid, PayFee)],
                      logs := w.logs[(a, env.ts) := Log(PrunePayLog, NoRef, diff, 0, balance.amount)],
                      journal := w.journal + [(a, env.ts)]))
  {
    hide Apply, Commit;
    var charge, post := NewFee(env, a, fee, PayFee), Post(a, PrunePayLog, NoRef, diff, 0, env.ts);
    CommitStep(w, charge, Then(post, Done));
    PutFeeFields(w, charge);
    var w1 := if fee == 0 then w else Apply(w, charge);
    CommitLast(w1, post);
    if Accepted(w1, post) {
      PostFields(w1, post);
    }
  }

  lemma PutTwice(balances: map<Address, Balance>, a: Address, x: Balance, y: Balance)
    ensures balances[a := x][a := y] == balances[a := y]
  {
  }

  method PayPrune(s: Stub, a: Address, safe: bool, endSeconds: Option<int>, order: seq<string>) returns (ok: bool, sum: Option<PayStub.PaySum>)
    requires s.next == s.state && QueryAnswered(s.state, s.env, TxPayPrune(a, safe, endSeconds, order))
    modifies s
    ensures Outcome(s.state, Rules.PayPrune(s.state, s.env, a, order)) == if ok then Some(s.next) else None
    ensures ok ==> sum.Some? && (sum.value.hasMore <==> |order| > PRUNE_SIZE)
  {
    hide Commit, SplitTime, Listing, SeqSum, PayBatchPlan, Apply;
    ok, sum := false, None;
    var entitled := HolderOfActive(s, a);
    if !entitled {
      return;
    }
    var bal := s.GetBalance(a);
    if bal == null {
      return;
    }
    var stime := WatermarkStart(bal.mark);
    if stime.None? {
      return;
    }
    var etime := PruneEnd(s, safe, endSeconds);
    OneEnd(s.env.ts, safe, endSeconds, etime);
    ListedAreRecords(PayRecs(s.state.pays), a, stime.value, etime, order);
    var r := PayStub.GetPaySumByTime(s, order);
    if r.count == 0 {
      return;
    }
    sum := Some(r);
    PayPruneIsBatch(s.state, s.env, a, order);
    ok := CountPays(s, bal, Batch(order), r);
  }

  lemma PayPruneIsBatch(w: World, env: Env, a: Address, order: seq<string>)
    requires a in w.balances && order != [] && WatermarkStart(w.balances[a].mark).Some? && Authorised(w, a, env.kid) && Active(w, a)
    ensures Rules.PayPrune(w, env, a, order)
         == Some(PayBatchPlan(env, a, Batch(order), SeqSum(AmountsOf(PayRecs(w.pays)), Batch(order)), SeqSum(FeesOf(PayRecs(w.pays)), Batch(order))))
  {
    hide SplitTime, SeqSum;
  }

  // Balance and watermark, the fee record of the merchant, and the log entry.
  method CountPays(s: Stub, bal: BalanceDoc, ids: seq<string>, r: PayStub.PaySum) returns (ok: bool)
    requires s.next == s.state && bal.Mirrors(s.state) && ids != [] && r.end == Last(ids)
    modifies s, bal, bal.amount
    ensures Commit(s.state, PayBatchPlan(s.env, bal.id, ids, r.sum, r.fee)) == if ok then Some(s.next) else None
  {
    hide Commit, PayBatchPlan, PaysCounted;
    PayBatchResult(s.state, s.env, bal.id, ids, r.sum, r.fee);
    var applied := new Amount(r.sum);
    var minus := new Amount(r.fee);
    minus.Neg();
    applied.Add(minus);
    bal.amount.Add(applied);
    bal.mark := r.end;
    ok := WriteCounted(s, bal, ids, r.sum, r.fee, applied.v);
  }

  method WriteCounted(s: Stub, bal: BalanceDoc, ids: seq<string>, ghost sum: int, fee: int, diff: int) returns (ok: bool)
    requires s.next == s.state && bal.id in s.state.balances && ids != [] && diff == sum - fee
    requires bal.mark == Last(ids) && bal.amount.v == s.state.balances[bal.id].amount + sum - fee
    modifies s
    ensures ok <==> (bal.id, s.env.ts) !in s.state.logs
    ensures ok ==> s.next == PaysCounted(s.state, s.env, bal.id, ids, sum, fee)
  {
    hide Apply, Elements;
    s.PutBalance(bal);
    PutFeeFields(s.next, NewFee(s.env, bal.id, fee, PayFee));
    BalanceStub.CreateFee(s, bal.id, fee, PayFee);
    s.next := s.next.(prunedPays := s.next.prunedPays + Elements(ids)); // history
    ok := s.PutBalanceLog(bal.id, NewBalancePrunePayLog(bal.amount.v, diff));
  }

  method ExecutePay(s: Stub, cid: string, doc: Doc) returns (ok: bool)
    requires s.next == s.state && doc.DocPay?
    modifies s
    ensures Outcome(s.state, Rules.ExecutePay(s.state, s.env, cid, doc)) == if ok then Some(s.next) else None
  {
    hide Commit, CalcFee;
    if doc.pb !in s.state.pendings {
      return false;
    }
    var pb := s.state.pendings[doc.pb];
    if pb.custody != ContractHeld || pb.rid != ToId(cid) {
      return false;
    }
    var sBal := s.GetBalance(doc.sender);
    if sBal == null {
      return false;
    }
    var fee := FeeStub.CalcFee(s, doc.receiver, "pay", pb.amount);
    if fee.None? {
      return false;
    }
    PayStub.PayPendingBalance(s, doc.pb, pb, fee.value, doc.receiver);
    ok := true;
  }

  // ---- fees ----

  // The tokens without the watermark that has moved to its own document.
  function Migrated(w: World, code: string): map<string, Token>
    requires code in w.tokens
  {
    if code in w.feeMarks then w.tokens else w.tokens[code := w.tokens[code].(legacyMark := "")]
  }

  ghost function FeesCounted(w: World, env: Env, code: string, target: Address, ids: seq<string>, sum: int): World
    requires code in w.tokens && target in w.balances && ids != []
  {
    var amount := w.balances[target].amount + sum;
    w.(balances := w.balances[target := w.balances[target].(amount := amount)],
       tokens := Migrated(w, code),
       feeMarks := w.feeMarks[code := Last(ids)],
       logs := w.logs[(target, env.ts) := Log(PruneFeeLog, NoRef, sum, 0, amount)],
       journal := w.journal + [(target, env.ts)],
       prunedFees := w.prunedFees + CountedInto(ids, target))
  }

  function CountedInto(ids: seq<string>, target: Address): map<string, Address> {
    map id | id in Elements(ids) :: target
  }

  lemma FeeBatchResult(w: World, env: Env, code: string, target: Address, ids: seq<string>, sum: int)
    requires code in w.tokens && target in w.balances && ids != []
    ensures Commit(w, FeeBatchPlan(w, env, code, target, ids, sum))
         == if (target, env.ts) in w.logs then None else Some(FeesCounted(w, env, code, target, ids, sum))
  {
    hide Apply, Commit, CountedInto;
    var plan := FeeBatchPlan(w, env, code, target, ids, sum);
    CommitStep(w, plan.head, plan.tail);
    MarkFeesInto(w, plan.head);
    MigrationResult(w, Apply(w, plan.head), env, code, target, sum);
  }

  lemma MigrationResult(w: World, w1: World, env: Env, code: string, target: Address, sum: int)
    requires code in w.tokens && w1.tokens == w.tokens && target in w1.balances
    ensures var balance := w1.balances[target].(amount := w1.balances[target].amount + sum);
      Commit(w1, MigrationPlan(w, env, code, target, sum)) == if (target, env.ts) in w1.logs then None
        else Some(w1.(tokens := Migrated(w, code), balances := w1.balances[target := balance],
                      logs := w1.logs[(target, env.ts) := Log(PruneFeeLog, NoRef, sum, 0, balance.amount)],
                      journal := w1.journal + [(target, env.ts)]))
  {
    hide Apply, Commit;
    var put, post := PutToken(code, w.tokens[code].(legacyMark := "")), Post(target, PruneFeeLog, NoRef, sum, 0, env.ts);
    if code in w.feeMarks {
      PostResult(w1, post);
    } else {
      PutTokenFields(w1, put);
      CommitStep(w1, put, Then(post, Done));
      PostResult(Apply(w1, put), post);
    }
  }

  lemma MarkFeesInto(w: World, e: Effect)
    requires e.MarkFees? && e.ids != []
    ensures Apply(w, e) == w.(feeMarks := w.feeMarks[e.code := Last(e.ids)], prunedFees := w.prunedFees + CountedInto(e.ids, e.a))
  {
    MarkFeesFields(w, e);
    hide Apply;
    assert CountedInto(e.ids, e.a) == map id | id in Elements(e.ids) :: e.a;
  }

  lemma PostResult(w: World, post: Effect)
    requires post.Post? && post.a in w.balances
    ensures var balance := w.balances[post.a].(amount := w.balances[post.a].amount + post.diff - post.logFee);
      Commit(w, Then(post, Done)) == if (post.a, post.ts) in w.logs then None
        else Some(w.(balances := w.balances[post.a := balance],
                     logs := w.logs[(post.a, post.ts) := Log(post.kind, post.rid, post.diff, post.logFee, balance.amount)],
                     journal := w.journal + [(post.a, post.ts)]))
  {
    hide Apply, Commit;
    CommitLast(w, post);
    if Accepted(w, post) {
      PostFields(w, post);
    }
  }

  // The watermark of a token, with the one kept in the token itself when it has no
  // document of its own yet; then it is cleared there.
  method GetLastPrunedFeeID(s: Stub, code: string) returns (mark: string)
    requires s.next == s.state && code in s.state.tokens
    modifies s
    ensures mark == FeeMark(s.state, code)
    ensures s.next == s.state.(tokens := Migrated(s.state, code))
  {
    hide Apply;
    if code in s.state.feeMarks {
      return s.state.feeMarks[code];
    }
    var token := s.state.tokens[code];
    PutTokenFields(s.next, PutToken(code, token.(legacyMark := "")));
    s.PutToken(code, token.(legacyMark := ""));
    mark := token.legacyMark;
  }

  method FeePrune(s: Stub, code: string, safe: bool, endSeconds: Option<int>, order: seq<string>) returns (ok: bool, sum: Option<FeeStub.FeeSum>)
    requires s.next == s.state && QueryAnswered(s.state, s.env, TxFeePrune(code, safe, endSeconds, order))
    modifies s
    ensures Outcome(s.state, Rules.FeePrune(s.state, s.env, code, order)) == if ok then Some(s.next) else None
    ensures ok && sum.Some? ==> (sum.value.hasMore <==> |order| > PRUNE_SIZE)
  {
    hide Commit, SplitTime, Listing, SeqSum, FeeBatchPlan, Migrated;
    ok, sum := false, None;
    if code !in s.state.tokens {
      return;
    }
    var token := s.state.tokens[code];
    if token.policy.None? {
      CommitNothing(s.state);
      ok := true;
      return;
    }
    var target := token.policy.value.target;
    if target !in s.state.accounts || !HasHolder(target, s.state.accounts[target], s.env.kid) {
      return;
    }
    var mark := GetLastPrunedFeeID(s, code);
    var stime := WatermarkStart(mark);
    if stime.None? {
      return;
    }
    var etime := PruneEnd(s, safe, endSeconds);
    OneEnd(s.env.ts, safe, endSeconds, etime);
    ListedAreRecords(FeeRecs(s.state.fees), code, stime.value, etime, order);
    var r := FeeStub.GetFeeSumByTime(s, order);
    var bal := s.GetBalance(target);
    if bal == null || r.count == 0 {
      return;
    }
    sum := Some(r);
    FeePruneIsBatch(s.state, s.env, code, order);
    ok := CountFees(s, code, bal, Batch(order), r);
  }

  lemma FeePruneIsBatch(w: World, env: Env, code: string, order: seq<string>)
    requires code in w.tokens && w.tokens[code].policy.Some? && order != [] && WatermarkStart(FeeMark(w, code)).Some?
    requires var target := w.tokens[code].policy.value.target; target in w.balances && Authorised(w, target, env.kid)
    ensures Rules.FeePrune(w, env, code, order)
         == Some(FeeBatchPlan(w, env, code, w.tokens[code].policy.value.target, Batch(order), SeqSum(AmountsOf(FeeRecs(w.fees)), Batch(order))))
  {
    hide SplitTime, SeqSum;
  }

  method CountFees(s: Stub, code: string, bal: BalanceDoc, ids: seq<string>, r: FeeStub.FeeSum) returns (ok: bool)
    requires code in s.state.tokens && bal.Mirrors(s.state) && ids != [] && r.end == Last(ids)
    requires s.next == s.state.(tokens := Migrated(s.state, code))
    modifies s, bal.amount
    ensures Commit(s.state, FeeBatchPlan(s.state, s.env, code, bal.id, ids, r.sum)) == if ok then Some(s.next) else None
  {
    hide Commit, Apply, FeeBatchPlan, Migrated, CountedInto;
    FeeBatchResult(s.state, s.env, code, bal.id, ids, r.sum);
    var sum := new Amount(r.sum);
    bal.amount.Add(sum);
    s.PutBalance(bal);
    s.next := s.next.(feeMarks := s.next.feeMarks[code := r.end]);
    s.next := s.next.(prunedFees := s.next.prunedFees + CountedInto(ids, bal.id)); // history
    ok := s.PutBalanceLog(bal.id, NewBalancePruneFeeLog(bal.amount.v, r.sum));
  }
}
