/**
  What a prune counts, and that nothing is counted twice, with no assumption about
  time at all.
 */
module Prunes {
  import opened Sums
  import opened Addresses
  import opened RecordIds
  import opened Pruning
  import opened Ledger
  import opened Fields
  import opened Rules
  import opened Invariants
  import opened Steps
  import opened Shapes
  import opened History

  // The batch was new, the watermark moved up to its last record, and the balance
  // of the owner took in exactly the amounts of the batch less its fees.
  ghost predicate PayBatchCounted(w: World, v: World, env: Env, a: Address, end: int, ids: seq<string>) {
    var recs := PayRecs(w.pays);
    var sum, fee := SeqSum(AmountsOf(recs), ids), SeqSum(FeesOf(recs), ids);
    && a in w.balances && NewBatch(recs, w.prunedPays, a, w.balances[a].mark, ids)
    && recs[Last(ids)].created <= end
    && v.pays == w.pays && v.prunedPays == w.prunedPays + Elements(ids)
    && v.balances == w.balances[a := Balance(w.balances[a].amount + sum - fee, Last(ids))]
    && v.fees == (if fee == 0 then w.fees else w.fees[env.RecordId() := FeeRec(a.code, a, fee, env.ts, env.txid, PayFee)])
    && v.feeMarks == w.feeMarks && v.tokens == w.tokens && v.prunedFees == w.prunedFees
  }

  ghost predicate FeeBatchCounted(w: World, v: World, code: string, target: Address, end: int, ids: seq<string>) {
    var recs := FeeRecs(w.fees);
    && target in w.balances && NewBatch(recs, w.prunedFees.Keys, code, FeeMark(w, code), ids)
    && recs[Last(ids)].created <= end
    && v.fees == w.fees && v.prunedFees == w.prunedFees + (map id | id in Elements(ids) :: target)
    && v.balances == w.balances[target := w.balances[target].(amount := w.balances[target].amount + SeqSum(AmountsOf(recs), ids))]
    && v.feeMarks == w.feeMarks[code := Last(ids)]
    && v.pays == w.pays && v.prunedPays == w.prunedPays
  }

  lemma PayPruneCommit(b: World, env: Env, a: Address, end: int, order: seq<string>)
    requires Ready(b, env) && a in b.balances && WatermarkStart(b.balances[a].mark).Some?
    requires Listing(PayRecs(b.pays), a, WatermarkStart(b.balances[a].mark).value, end, order)
    requires PayPrune(b, env, a, order).Some? && Commit(b, PayPrune(b, env, a, order).value).Some?
    ensures PayBatchCounted(b, Commit(b, PayPrune(b, env, a, order).value).value, env, a, end, Batch(order))
  {
    hide Inv, SeqSum, Listing, SplitTime, Shortfall, NewBatch, Commit, Apply, CountedBelow, PayRecs, CreateFee;
    var ids, recs := Batch(order), PayRecs(b.pays);
    MarkPaysEnabled(b, a, end, order);
    PayMarkOf(b, a);
    BatchIsNew(recs, b.prunedPays, a, WatermarkStart(b.balances[a].mark).value, end, order);
    PayBatchCommit(b, env, a, ids, SeqSum(AmountsOf(recs), ids), SeqSum(FeesOf(recs), ids));
  }

  lemma PayBatchCommit(b: World, env: Env, a: Address, ids: seq<string>, sum: int, fee: int)
    requires a in b.balances && ids != []
    requires Commit(b, PayBatchPlan(env, a, ids, sum, fee)).Some?
    ensures var v := Commit(b, PayBatchPlan(env, a, ids, sum, fee)).value;
      && v.pays == b.pays && v.prunedPays == b.prunedPays + Elements(ids)
      && v.balances == b.balances[a := Balance(b.balances[a].amount + sum - fee, Last(ids))]
      && v.fees == (if fee == 0 then b.fees else b.fees[env.RecordId() := FeeRec(a.code, a, fee, env.ts, env.txid, PayFee)])
      && v.feeMarks == b.feeMarks && v.tokens == b.tokens && v.prunedFees == b.prunedFees
  {
    hide Apply, Commit;
    var plan := PayBatchPlan(env, a, ids, sum, fee);
    MarkPaysFields(b, plan.head);
    var w1 := Apply(b, plan.head);
    CommitThen(b, plan.head, plan.tail);
    PutFeeFields(w1, NewFee(env, a, fee, PayFee));
    var w2 := if fee == 0 then w1 else Apply(w1, NewFee(env, a, fee, PayFee));
    var post := Post(a, PrunePayLog, NoRef, sum - fee, 0, env.ts);
    if fee != 0 { CommitThen(w1, NewFee(env, a, fee, PayFee), Then(post, Done)); }
    PostLast(w2, post);
  }

  ghost function PayBatchPlan(env: Env, a: Address, ids: seq<string>, sum: int, fee: int): Plan {
    Then(MarkPays(a, ids), CreateFee(env, a, fee, PayFee, Then(Post(a, PrunePayLog, NoRef, sum - fee, 0, env.ts), Done)))
  }

  lemma FeePruneCommit(b: World, env: Env, code: string, end: int, order: seq<string>)
    requires Ready(b, env) && WatermarkStart(FeeMark(b, code)).Some? && code in b.tokens && b.tokens[code].policy.Some?
    requires Listing(FeeRecs(b.fees), code, WatermarkStart(FeeMark(b, code)).value, end, order)
    requires FeePrune(b, env, code, order).Some? && Commit(b, FeePrune(b, env, code, order).value).Some?
    ensures var target := b.tokens[code].policy.value.target;
      var v := Commit(b, FeePrune(b, env, code, order).value).value;
      && FeeBatchCounted(b, v, code, target, end, Batch(order))
      && code in v.tokens && v.tokens[code] == if code in b.feeMarks then b.tokens[code] else b.tokens[code].(legacyMark := "")
  {
    hide Inv, SeqSum, Listing, SplitTime, Shortfall, NewBatch, Commit, Apply, CountedBelow, FeeRecs;
    var ids, recs, t := Batch(order), FeeRecs(b.fees), b.tokens[code];
    MarkFeesEnabled(b, code, t.policy.value.target, end, order);
    FeeMarkOf(b, code);
    BatchIsNew(recs, b.prunedFees.Keys, code, WatermarkStart(FeeMark(b, code)).value, end, order);
    FeeBatchCommit(b, env, code, t.policy.value.target, ids, SeqSum(AmountsOf(recs), ids));
  }

  ghost function FeeBatchPlan(b: World, env: Env, code: string, target: Address, ids: seq<string>, sum: int): Plan
    requires code in b.tokens
  {
    Then(MarkFees(code, ids, target), MigrationPlan(b, env, code, target, sum))
  }

  // The posting, after the watermark has left the token on first use.
  ghost function MigrationPlan(b: World, env: Env, code: string, target: Address, sum: int): Plan
    requires code in b.tokens
  {
    var last := Then(Post(target, PruneFeeLog, NoRef, sum, 0, env.ts), Done);
    if code in b.feeMarks then last else Then(PutToken(code, b.tokens[code].(legacyMark := "")), last)
  }

  lemma FeeBatchCommit(b: World, env: Env, code: string, target: Address, ids: seq<string>, sum: int)
    requires code in b.tokens && target in b.balances && ids != []
    requires Commit(b, FeeBatchPlan(b, env, code, target, ids, sum)).Some?
    ensures var v := Commit(b, FeeBatchPlan(b, env, code, target, ids, sum)).value;
      && v.fees == b.fees && v.prunedFees == b.prunedFees + (map id | id in Elements(ids) :: target)
      && v.balances == b.balances[target := b.balances[target].(amount := b.balances[target].amount + sum)]
      && v.feeMarks == b.feeMarks[code := Last(ids)]
      && v.pays == b.pays && v.prunedPays == b.prunedPays
      && code in v.tokens && v.tokens[code] == if code in b.feeMarks then b.tokens[code] else b.tokens[code].(legacyMark := "")
  {
    hide Apply, Commit;
    var plan := FeeBatchPlan(b, env, code, target, ids, sum);
    var post := Post(target, PruneFeeLog, NoRef, sum, 0, env.ts);
    MarkFeesFields(b, plan.head);
    CommitThen(b, plan.head, plan.tail);
    var w1 := Apply(b, plan.head);
    if code in b.feeMarks {
      PostLast(w1, post);
    } else {
      var put := PutToken(code, b.tokens[code].(legacyMark := ""));
      CommitThen(w1, put, Then(post, Done));
      PutTokenFields(w1, put);
      PostLast(Apply(w1, put), post);
    }
  }

  lemma PostLast(w: World, post: Effect)
    requires post.Post? && Commit(w, Then(post, Done)).Some?
    ensures Accepted(w, post)
    ensures var v := Commit(w, Then(post, Done)).value;
      && v.fees == w.fees && v.prunedFees == w.prunedFees && v.feeMarks == w.feeMarks && v.tokens == w.tokens
      && v.pays == w.pays && v.prunedPays == w.prunedPays
      && v.balances == w.balances[post.a := w.balances[post.a].(amount := w.balances[post.a].amount + post.diff - post.logFee)]
  {
    hide Apply, Commit;
    CommitThen(w, post, Done);
    PostFields(w, post);
    CommitNothing(Apply(w, post));
  }

  lemma PayPruneCounts(h: Hasher, w: World, env: Env, tx: Tx)
    requires Inv(w) && tx.TxPayPrune? && Step(h, w, env, tx).Some?
    ensures var v := Step(h, w, env, tx).value;
      && PayBatchCounted(w, v, env, tx.account, EndTime(env.ts, tx.safe, tx.end), Batch(tx.order))
      && MarkTime(w.balances[tx.account].mark) < MarkTime(v.balances[tx.account].mark) == w.pays[Last(Batch(tx.order))].created
  {
    hide Inv, PlanOk, Commit, Step, Listing, SplitTime, SeqSum, NewBatch, Only;
    var b, plan := PlanOfStep(h, w, env, tx);
    PayPruneCommit(b, env, tx.account, EndTime(env.ts, tx.safe, tx.end), tx.order);
    PayMarkMoves(w, tx.account, Batch(tx.order));
  }

  lemma PayMarkMoves(w: World, a: Address, ids: seq<string>)
    requires Inv(w) && a in w.balances && NewBatch(PayRecs(w.pays), w.prunedPays, a, w.balances[a].mark, ids)
    ensures ids != [] && Last(ids) in w.pays && MarkTime(w.balances[a].mark) < MarkTime(Last(ids)) == w.pays[Last(ids)].created
  {
    hide MarkTime, SplitTime, DocumentsOk, CountedBelow;
    assert Last(ids) in ids;
    MarkTimeOfPay(w, Last(ids));
  }

  lemma FeeMarkMoves(w: World, code: string, ids: seq<string>)
    requires Inv(w) && NewBatch(FeeRecs(w.fees), w.prunedFees.Keys, code, FeeMark(w, code), ids)
    ensures ids != [] && Last(ids) in w.fees && MarkTime(FeeMark(w, code)) < MarkTime(Last(ids)) == w.fees[Last(ids)].created
  {
    hide MarkTime, SplitTime, DocumentsOk, CountedBelow, FeeMark;
    assert Last(ids) in ids;
    MarkTimeOfFee(w, Last(ids));
  }

  // A fee prune of a token without a fee policy succeeds and changes nothing; any
  // other counts a batch, also when the watermark is still the one in the token,
  // which it then clears.
  lemma FeePruneCounts(h: Hasher, w: World, env: Env, tx: Tx)
    requires Inv(w) && tx.TxFeePrune? && Step(h, w, env, tx).Some?
    ensures tx.code in w.tokens
    ensures var v, policy := Step(h, w, env, tx).value, w.tokens[tx.code].policy;
      if policy.None? then v == Begin(w, env)
      else
        && FeeBatchCounted(w, v, tx.code, policy.value.target, EndTime(env.ts, tx.safe, tx.end), Batch(tx.order))
        && MarkTime(FeeMark(w, tx.code)) < MarkTime(FeeMark(v, tx.code)) == w.fees[Last(Batch(tx.order))].created
        && tx.code in v.tokens && (tx.code !in w.feeMarks ==> v.tokens[tx.code].legacyMark == "")
  {
    hide Inv, PlanOk, Commit, Step, Listing, SplitTime, SeqSum, NewBatch, Only, KindsOf, Shortfall, PayPrune;
    var b, plan := PlanOfStep(h, w, env, tx);
    if w.tokens[tx.code].policy.None? {
      CommitNothing(b);
    } else {
      FeePruneCommit(b, env, tx.code, EndTime(env.ts, tx.safe, tx.end), tx.order);
      assert FeeMark(b, tx.code) == FeeMark(w, tx.code);
      FeeMarkMoves(w, tx.code, Batch(tx.order));
    }
  }

  // ---- no record twice, over any run ----

  lemma {:induction false} ExecSplit(h: Hasher, w: World, x: seq<Call>, y: seq<Call>)
    ensures Exec(h, w, x + y) == Exec(h, Exec(h, w, x), y)
    decreases |y|
  {
    hide Step;
    if y == [] {
      assert x + y == x;
    } else {
      assert (x + y)[..|x + y| - 1] == x + y[..|y| - 1];
      ExecSplit(h, w, x, y[..|y| - 1]);
    }
  }

  // The state before call j extends the state after an earlier call i.
  lemma Later(h: Hasher, w: World, calls: seq<Call>, i: nat, j: nat)
    requires Inv(w) && i <= j <= |calls|
    ensures Inv(Exec(h, w, calls[..i])) && Extends(Exec(h, w, calls[..i]), Exec(h, w, calls[..j]))
  {
    hide Inv, Extends, Exec;
    RunKeepsInv(h, w, calls[..i]);
    assert calls[..j] == calls[..i] + calls[i..j];
    ExecSplit(h, w, calls[..i], calls[i..j]);
    RunExtends(h, Exec(h, w, calls[..i]), calls[i..j]);
  }

  // The call at position i was a prune that went through and counted this record.
  ghost predicate CountsAt(h: Hasher, w: World, calls: seq<Call>, i: nat, id: string, fees: bool)
    requires i < |calls|
  {
    var u, c := Exec(h, w, calls[..i]), calls[i];
    && Step(h, u, c.env, c.tx).Some?
    && (if fees then c.tx.TxFeePrune? && c.tx.code in u.tokens && u.tokens[c.tx.code].policy.Some? else c.tx.TxPayPrune?)
    && id in Batch(c.tx.order)
  }

  lemma CountedThen(h: Hasher, w: World, calls: seq<Call>, i: nat, id: string, fees: bool)
    requires Inv(w) && i < |calls| && CountsAt(h, w, calls, i, id, fees)
    ensures var u, v := Exec(h, w, calls[..i]), Exec(h, w, calls[..i + 1]);
      if fees then id !in u.prunedFees && id in v.prunedFees else id !in u.prunedPays && id in v.prunedPays
  {
    hide Inv, Step, SeqSum, CountedBelow;
    var u, c := Exec(h, w, calls[..i]), calls[i];
    assert calls[..i + 1][..i] == calls[..i];
    RunKeepsInv(h, w, calls[..i]);
    if fees {
      FeePruneCounts(h, u, c.env, c.tx);
    } else {
      PayPruneCounts(h, u, c.env, c.tx);
    }
  }

  // Whatever the timestamps, no pay and no fee is counted by two prunes of a run.
  lemma NeverCountedTwice(h: Hasher, w: World, calls: seq<Call>, i: nat, j: nat, id: string, fees: bool)
    requires Inv(w) && i < |calls| && j < |calls|
    requires CountsAt(h, w, calls, i, id, fees) && CountsAt(h, w, calls, j, id, fees)
    ensures i == j
  {
    hide Inv, CountsAt, Exec;
    CountedThen(h, w, calls, i, id, fees);
    CountedThen(h, w, calls, j, id, fees);
    if i < j {
      Later(h, w, calls, i + 1, j);
    } else if j < i {
      Later(h, w, calls, j + 1, i);
    }
  }
}
