/**
  Pruning repeatedly up to one fixed end time: the batches together are one fold
  over everything due, and as many prunes succeed as full batches are needed.
 */
module Drain {
  import opened Sums
  import opened Addresses
  import opened RecordIds
  import opened Pruning
  import opened Ledger
  import opened Rules
  import opened Invariants
  import opened Steps
  import opened Shapes
  import opened History
  import opened Prunes

  // What k prunes have taken, and what they leave.
  function Taken(order: seq<string>, k: nat): seq<string> {
    if k * PRUNE_SIZE >= |order| then order else order[..k * PRUNE_SIZE]
  }

  function Rest(order: seq<string>, k: nat): seq<string> {
    if k * PRUNE_SIZE >= |order| then [] else order[k * PRUNE_SIZE..]
  }

  // n records need n / 900 batches, rounded up.
  function Rounds(n: nat): nat {
    (n + PRUNE_SIZE - 1) / PRUNE_SIZE
  }

  lemma OneMoreBatch(order: seq<string>, k: nat)
    ensures Rest(order, k) == [] <==> k >= Rounds(|order|)
    ensures Rest(order, k) != [] ==>
      var b := Batch(Rest(order, k));
      && Taken(order, k + 1) == Taken(order, k) + b
      && Rest(order, k + 1) == Rest(order, k)[|b|..]
      && |Rest(order, k + 1)| < |Rest(order, k)|
      && (Rest(order, k + 1) != [] <==> |Rest(order, k)| > PRUNE_SIZE)
  {
    var n, r := |order|, Rounds(|order|);
    assert r * PRUNE_SIZE <= n + PRUNE_SIZE - 1 < r * PRUNE_SIZE + PRUNE_SIZE;
    if Rest(order, k) != [] {
      var rest := Rest(order, k);
      assert (k + 1) * PRUNE_SIZE == k * PRUNE_SIZE + PRUNE_SIZE;
      if |rest| <= PRUNE_SIZE {
        assert order == order[..k * PRUNE_SIZE] + rest;
      } else {
        assert order[..(k + 1) * PRUNE_SIZE] == order[..k * PRUNE_SIZE] + rest[..PRUNE_SIZE];
      }
    }
  }

  ghost predicate AllSucceed(h: Hasher, w: World, calls: seq<Call>) {
    forall i :: 0 <= i < |calls| ==> Step(h, Exec(h, w, calls[..i]), calls[i].env, calls[i].tx).Some?
  }

  lemma AllButLast(h: Hasher, w: World, calls: seq<Call>)
    requires calls != [] && AllSucceed(h, w, calls)
    ensures var init, c := calls[..|calls| - 1], calls[|calls| - 1];
      && AllSucceed(h, w, init)
      && Step(h, Exec(h, w, init), c.env, c.tx).Some?
      && Exec(h, w, calls) == Step(h, Exec(h, w, init), c.env, c.tx).value
  {
    hide Step;
    var init := calls[..|calls| - 1];
    forall i | 0 <= i < |init| ensures Step(h, Exec(h, w, init[..i]), init[i].env, init[i].tx).Some? {
      assert init[..i] == calls[..i];
    }
  }

  // ---- pays ----

  // A pay prune goes through exactly for a holder of an active account with a readable
  // watermark, a free log key and something due.
  lemma PayPruneSucceedsIff(h: Hasher, w: World, env: Env, tx: Tx)
    requires Inv(w) && tx.TxPayPrune? && Admissible(w, env, tx)
    ensures Step(h, w, env, tx).Some? <==>
      && Authorised(w, tx.account, env.kid) && Active(w, tx.account) && tx.account in w.balances
      && WatermarkStart(w.balances[tx.account].mark).Some?
      && tx.order != [] && (tx.account, env.ts) !in w.logs
  {
    hide Inv, SeqSum, SplitTime, Listing, Apply;
    var b := Begin(w, env);
    if PlanOf(h, b, env, tx).Some? {
      var ids, recs := Batch(tx.order), PayRecs(w.pays);
      PayBatchAccepted(b, env, tx.account, ids, SeqSum(AmountsOf(recs), ids), SeqSum(FeesOf(recs), ids));
    }
  }

  lemma PayBatchAccepted(w: World, env: Env, a: Address, ids: seq<string>, sum: int, fee: int)
    requires a in w.balances && ids != []
    ensures Commit(w, PayBatchPlan(env, a, ids, sum, fee)).Some? <==> (a, env.ts) !in w.logs
  {
    var plan := PayBatchPlan(env, a, ids, sum, fee);
    var post := Post(a, PrunePayLog, NoRef, sum - fee, 0, env.ts);
    var w1 := Apply(w, plan.head);
    NoPostKeepsLogs(w, plan.head);
    NoPostKeepsLogs(w1, NewFee(env, a, fee, PayFee));
    var w2 := if fee == 0 then w1 else Apply(w1, NewFee(env, a, fee, PayFee));
    hide Apply;
    assert Commit(w, plan) == Commit(w1, plan.tail);
    assert fee != 0 ==> Commit(w1, plan.tail) == Commit(w2, plan.tail.tail);
    assert Commit(w2, Then(post, Done)).Some? <==> Accepted(w2, post);
  }

  lemma NoPostKeepsLogs(w: World, e: Effect)
    requires !e.Post?
    ensures Apply(w, e).logs == w.logs && forall a :: a in w.balances ==> a in Apply(w, e).balances
  {
  }

  ghost predicate PayPrunes(a: Address, end: int, calls: seq<Call>) {
    forall i :: 0 <= i < |calls| ==>
      var c := calls[i];
      c.tx.TxPayPrune? && c.tx.account == a && EndTime(c.env.ts, c.tx.safe, c.tx.end) == end
  }

  // The state after k prunes: the fold over what was taken, and a query for the rest.
  ghost predicate PaysDrained(w: World, v: World, a: Address, end: int, order: seq<string>, k: nat) {
    var recs, done := PayRecs(w.pays), Taken(order, k);
    && a in w.balances && a in v.balances && v.pays == w.pays
    && v.prunedPays == w.prunedPays + Elements(done)
    && v.balances[a].amount == w.balances[a].amount + SeqSum(AmountsOf(recs), done) - SeqSum(FeesOf(recs), done)
    && WatermarkStart(v.balances[a].mark).Some?
    && Listing(recs, a, MarkTime(v.balances[a].mark), end, Rest(order, k))
  }

  lemma DrainOnePay(h: Hasher, w: World, v: World, a: Address, end: int, order: seq<string>, k: nat, c: Call)
    requires Inv(w) && Inv(v) && PaysDrained(w, v, a, end, order, k) && DistinctTimes(PayRecs(w.pays), a)
    requires c.tx.TxPayPrune? && c.tx.account == a && EndTime(c.env.ts, c.tx.safe, c.tx.end) == end
    requires Step(h, v, c.env, c.tx).Some?
    ensures k < Rounds(|order|) && c.tx.order == Rest(order, k)
    ensures PaysDrained(w, Step(h, v, c.env, c.tx).value, a, end, order, k + 1)
  {
    var recs := PayRecs(w.pays);
    PayQueryOf(h, v, c, a, end);
    hide Inv, Step, SeqSum, Listing, CountedBelow, DistinctTimes, Rounds, Rest, Taken, Batch, MarkTime;
    ListingUnique(recs, a, MarkTime(v.balances[a].mark), end, c.tx.order, Rest(order, k));
    OneMoreBatch(order, k);
    PayPruneCounts(h, v, c.env, c.tx);
    PayBatchDrains(w, v, Step(h, v, c.env, c.tx).value, c.env, a, end, order, k);
  }

  // One batch more on both sides of the fold.
  lemma FoldMore<O>(recs: map<string, Rec<O>>, order: seq<string>, k: nat)
    requires Rest(order, k) != []
    ensures var b := Batch(Rest(order, k));
      && Elements(Taken(order, k + 1)) == Elements(Taken(order, k)) + Elements(b)
      && SeqSum(AmountsOf(recs), Taken(order, k + 1)) == SeqSum(AmountsOf(recs), Taken(order, k)) + SeqSum(AmountsOf(recs), b)
      && SeqSum(FeesOf(recs), Taken(order, k + 1)) == SeqSum(FeesOf(recs), Taken(order, k)) + SeqSum(FeesOf(recs), b)
  {
    hide SeqSum;
    var b := Batch(Rest(order, k));
    OneMoreBatch(order, k);
    SeqSumConcat(AmountsOf(recs), Taken(order, k), b);
    SeqSumConcat(FeesOf(recs), Taken(order, k), b);
    ElementsConcat(Taken(order, k), b);
  }

  // The query after a batch.
  lemma QueryMoves<O>(recs: map<string, Rec<O>>, owner: O, start: int, end: int, order: seq<string>, k: nat)
    requires Rest(order, k) != [] && DistinctTimes(recs, owner) && Listing(recs, owner, start, end, Rest(order, k))
    ensures var b := Batch(Rest(order, k));
      b != [] && Last(b) in recs && Listing(recs, owner, recs[Last(b)].created, end, Rest(order, k + 1))
  {
    hide Listing, DistinctTimes;
    OneMoreBatch(order, k);
    BatchLeavesRest(recs, owner, start, end, Rest(order, k));
  }

  lemma PayBatchDrains(w: World, v: World, u: World, env: Env, a: Address, end: int, order: seq<string>, k: nat)
    requires Inv(v) && PaysDrained(w, v, a, end, order, k) && DistinctTimes(PayRecs(w.pays), a)
    requires Rest(order, k) != [] && PayBatchCounted(v, u, env, a, end, Batch(Rest(order, k)))
    ensures PaysDrained(w, u, a, end, order, k + 1)
  {
    hide Inv, SeqSum, Listing, DistinctTimes, Rest, Taken, Batch, MarkTime, DocumentsOk, NewBatch, WatermarkStart, Elements;
    var recs, b := PayRecs(w.pays), Batch(Rest(order, k));
    FoldMore(recs, order, k);
    QueryMoves(recs, a, MarkTime(v.balances[a].mark), end, order, k);
    DocumentsOf(v);
    MarkTimeOfPay(v, Last(b));
  }

  lemma DocumentsOf(w: World)
    requires Inv(w)
    ensures DocumentsOk(w)
  {
  }

  lemma ElementsConcat<K>(x: seq<K>, y: seq<K>)
    ensures Elements(x + y) == Elements(x) + Elements(y)
  {
  }

  lemma PayQueryOf(h: Hasher, w: World, c: Call, a: Address, end: int)
    requires c.tx.TxPayPrune? && c.tx.account == a && EndTime(c.env.ts, c.tx.safe, c.tx.end) == end
    requires Step(h, w, c.env, c.tx).Some? && a in w.balances
    ensures Listing(PayRecs(w.pays), a, MarkTime(w.balances[a].mark), end, c.tx.order) && c.tx.order != []
  {
    hide Commit, Listing, SeqSum, SplitTime;
  }

  // n due pays take at most n / 900 prunes, rounded up; what they add up to is the fold
  // over the first 900 * k of them, and the next query answers exactly the rest.
  lemma {:induction false} DrainPays(h: Hasher, w: World, a: Address, end: int, order: seq<string>, calls: seq<Call>)
    requires Inv(w) && a in w.balances && WatermarkStart(w.balances[a].mark).Some?
    requires DistinctTimes(PayRecs(w.pays), a) && Listing(PayRecs(w.pays), a, MarkTime(w.balances[a].mark), end, order)
    requires PayPrunes(a, end, calls) && AllSucceed(h, w, calls)
    ensures |calls| <= Rounds(|order|)
    ensures PaysDrained(w, Exec(h, w, calls), a, end, order, |calls|)
    decreases |calls|
  {
    hide Inv, Step, SeqSum, SplitTime, Listing, DistinctTimes, AllSucceed;
    if calls == [] {
      assert Taken(order, 0) == [] && Rest(order, 0) == order;
      assert w.prunedPays + Elements<string>([]) == w.prunedPays;
      assert SeqSum(AmountsOf(PayRecs(w.pays)), []) == 0 == SeqSum(FeesOf(PayRecs(w.pays)), []) by { SumOfNothing(PayRecs(w.pays)); }
    } else {
      var init, c := calls[..|calls| - 1], calls[|calls| - 1];
      AllButLast(h, w, calls);
      DrainPays(h, w, a, end, order, init);
      RunKeepsInv(h, w, init);
      hide PaysDrained, Rounds;
      DrainOnePay(h, w, Exec(h, w, init), a, end, order, |init|, c);
    }
  }

  lemma SumOfNothing<O>(recs: map<string, Rec<O>>)
    ensures SeqSum(AmountsOf(recs), []) == 0 == SeqSum(FeesOf(recs), [])
  {
  }

  // The next prune after k of them succeeds exactly while k is below the number of
  // batches, for a caller entitled to prune at a free log key.
  lemma NextPayPrune(h: Hasher, w: World, a: Address, end: int, order: seq<string>, calls: seq<Call>, c: Call)
    requires Inv(w) && a in w.balances && WatermarkStart(w.balances[a].mark).Some?
    requires DistinctTimes(PayRecs(w.pays), a) && Listing(PayRecs(w.pays), a, MarkTime(w.balances[a].mark), end, order)
    requires PayPrunes(a, end, calls) && AllSucceed(h, w, calls)
    requires PayPrunes(a, end, [c])
    requires var v := Exec(h, w, calls);
      Admissible(v, c.env, c.tx) && Authorised(v, a, c.env.kid) && Active(v, a) && (a, c.env.ts) !in v.logs
    ensures Step(h, Exec(h, w, calls), c.env, c.tx).Some? <==> |calls| < Rounds(|order|)
  {
    assert PayPrunes(a, end, [c]) && [c][0] == c;
    hide Inv, Step, SeqSum, WatermarkStart, MarkTime, DistinctTimes, AllSucceed, Exec, Listing, Rounds, Rest, Authorised;
    var v := Exec(h, w, calls);
    DrainPays(h, w, a, end, order, calls);
    RunKeepsInv(h, w, calls);
    NextPayQuery(h, w, v, a, end, order, |calls|, c);
  }

  lemma NextPayQuery(h: Hasher, w: World, v: World, a: Address, end: int, order: seq<string>, k: nat, c: Call)
    requires Inv(v) && PaysDrained(w, v, a, end, order, k) && DistinctTimes(PayRecs(w.pays), a)
    requires c.tx.TxPayPrune? && c.tx.account == a && EndTime(c.env.ts, c.tx.safe, c.tx.end) == end
    requires Admissible(v, c.env, c.tx) && Authorised(v, a, c.env.kid) && Active(v, a) && (a, c.env.ts) !in v.logs
    ensures Step(h, v, c.env, c.tx).Some? <==> k < Rounds(|order|)
  {
    hide Inv, Step, SeqSum, DistinctTimes, Listing, Rounds, Rest, Authorised, SplitTime;
    PayPruneSucceedsIff(h, v, c.env, c.tx);
    ListingUnique(PayRecs(w.pays), a, MarkTime(v.balances[a].mark), end, c.tx.order, Rest(order, k));
    OneMoreBatch(order, k);
  }

  // ---- fees ----

  ghost predicate FeePrunes(code: string, end: int, calls: seq<Call>) {
    forall i :: 0 <= i < |calls| ==>
      var c := calls[i];
      c.tx.TxFeePrune? && c.tx.code == code && EndTime(c.env.ts, c.tx.safe, c.tx.end) == end
  }

  ghost predicate HasTarget(w: World, code: string, target: Address) {
    code in w.tokens && w.tokens[code].policy.Some? && w.tokens[code].policy.value.target == target
  }

  ghost predicate FeesDrained(w: World, v: World, code: string, target: Address, end: int, order: seq<string>, k: nat) {
    var recs, done := FeeRecs(w.fees), Taken(order, k);
    && target in w.balances && target in v.balances && v.fees == w.fees && HasTarget(v, code, target)
    && v.prunedFees.Keys == w.prunedFees.Keys + Elements(done)
    && v.balances[target].amount == w.balances[target].amount + SeqSum(AmountsOf(recs), done)
    && WatermarkStart(FeeMark(v, code)).Some?
    && Listing(recs, code, MarkTime(FeeMark(v, code)), end, Rest(order, k))
  }

  lemma FeePruneSucceedsIff(h: Hasher, w: World, env: Env, tx: Tx, target: Address)
    requires Inv(w) && tx.TxFeePrune? && Admissible(w, env, tx) && HasTarget(w, tx.code, target)
    ensures Step(h, w, env, tx).Some? <==>
      && Authorised(w, target, env.kid) && target in w.balances
      && WatermarkStart(FeeMark(w, tx.code)).Some?
      && tx.order != [] && (target, env.ts) !in w.logs
  {
    hide Inv, SeqSum, SplitTime, Listing, Apply;
    var b := Begin(w, env);
    assert FeeMark(b, tx.code) == FeeMark(w, tx.code);
    if PlanOf(h, b, env, tx).Some? {
      var ids, recs := Batch(tx.order), FeeRecs(w.fees);
      FeeBatchAccepted(b, env, tx.code, target, ids, SeqSum(AmountsOf(recs), ids));
    }
  }

  lemma FeeBatchAccepted(w: World, env: Env, code: string, target: Address, ids: seq<string>, sum: int)
    requires code in w.tokens && target in w.balances && ids != []
    ensures Commit(w, FeeBatchPlan(w, env, code, target, ids, sum)).Some? <==> (target, env.ts) !in w.logs
  {
    var plan := FeeBatchPlan(w, env, code, target, ids, sum);
    var post := Post(target, PruneFeeLog, NoRef, sum, 0, env.ts);
    var w1 := Apply(w, plan.head);
    NoPostKeepsLogs(w, plan.head);
    NoPostKeepsLogs(w1, PutToken(code, w.tokens[code].(legacyMark := "")));
    var w2 := if code in w.feeMarks then w1 else Apply(w1, plan.tail.head);
    hide Apply;
    assert Commit(w, plan) == Commit(w1, plan.tail);
    assert code !in w.feeMarks ==> Commit(w1, plan.tail) == Commit(w2, plan.tail.tail);
    assert Commit(w2, Then(post, Done)).Some? <==> Accepted(w2, post);
  }

  lemma FeeQueryOf(h: Hasher, w: World, c: Call, end: int, target: Address)
    requires c.tx.TxFeePrune? && EndTime(c.env.ts, c.tx.safe, c.tx.end) == end && HasTarget(w, c.tx.code, target)
    requires Step(h, w, c.env, c.tx).Some?
    ensures Listing(FeeRecs(w.fees), c.tx.code, MarkTime(FeeMark(w, c.tx.code)), end, c.tx.order) && c.tx.order != []
  {
    hide Commit, Listing, SeqSum, SplitTime;
    assert FeeMark(Begin(w, c.env), c.tx.code) == FeeMark(w, c.tx.code);
  }

  lemma DrainOneFee(h: Hasher, w: World, v: World, code: string, target: Address, end: int, order: seq<string>, k: nat, c: Call)
    requires Inv(w) && Inv(v) && FeesDrained(w, v, code, target, end, order, k) && DistinctTimes(FeeRecs(w.fees), code)
    requires c.tx.TxFeePrune? && c.tx.code == code && EndTime(c.env.ts, c.tx.safe, c.tx.end) == end
    requires Step(h, v, c.env, c.tx).Some?
    ensures k < Rounds(|order|) && c.tx.order == Rest(order, k)
    ensures FeesDrained(w, Step(h, v, c.env, c.tx).value, code, target, end, order, k + 1)
  {
    var recs := FeeRecs(w.fees);
    FeeQueryOf(h, v, c, end, target);
    hide Inv, Step, SeqSum, Listing, CountedBelow, DistinctTimes, Rounds, Rest, Taken, Batch, MarkTime, FeeMark;
    ListingUnique(recs, code, MarkTime(FeeMark(v, code)), end, c.tx.order, Rest(order, k));
    OneMoreBatch(order, k);
    FeePruneCounts(h, v, c.env, c.tx);
    FeePruneKeepsTarget(h, v, c.env, c.tx, target);
    FeeBatchDrains(w, v, Step(h, v, c.env, c.tx).value, code, target, end, order, k);
  }

  lemma FeeBatchDrains(w: World, v: World, u: World, code: string, target: Address, end: int, order: seq<string>, k: nat)
    requires Inv(v) && FeesDrained(w, v, code, target, end, order, k) && DistinctTimes(FeeRecs(w.fees), code)
    requires Rest(order, k) != [] && FeeBatchCounted(v, u, code, target, end, Batch(Rest(order, k)))
    requires HasTarget(u, code, target) && FeeMark(u, code) == Last(Batch(Rest(order, k)))
    ensures FeesDrained(w, u, code, target, end, order, k + 1)
  {
    hide Inv, SeqSum, Listing, DistinctTimes, Rest, Taken, Batch, MarkTime, DocumentsOk, NewBatch, WatermarkStart, Elements, FeeMark, HasTarget;
    var recs, b := FeeRecs(w.fees), Batch(Rest(order, k));
    FoldMore(recs, order, k);
    QueryMoves(recs, code, MarkTime(FeeMark(v, code)), end, order, k);
    DocumentsOf(v);
    MarkTimeOfFee(v, Last(b));
    assert u.prunedFees.Keys == v.prunedFees.Keys + Elements(b);
  }

  lemma FeePruneKeepsTarget(h: Hasher, w: World, env: Env, tx: Tx, target: Address)
    requires Inv(w) && tx.TxFeePrune? && Step(h, w, env, tx).Some? && HasTarget(w, tx.code, target)
    ensures tx.order != [] && Batch(tx.order) != []
    ensures var v := Step(h, w, env, tx).value;
      && HasTarget(v, tx.code, target) && target in v.balances && target in w.balances
      && FeeMark(v, tx.code) == Last(Batch(tx.order))
  {
    hide Inv, PlanOk, Step, SplitTime, SeqSum, Listing, NewBatch, Only, Commit;
    var b, plan := PlanOfStep(h, w, env, tx);
    FeePruneCommit(b, env, tx.code, EndTime(env.ts, tx.safe, tx.end), tx.order);
  }

  lemma {:induction false} DrainFees(h: Hasher, w: World, code: string, target: Address, end: int, order: seq<string>, calls: seq<Call>)
    requires Inv(w) && HasTarget(w, code, target) && target in w.balances && WatermarkStart(FeeMark(w, code)).Some?
    requires DistinctTimes(FeeRecs(w.fees), code) && Listing(FeeRecs(w.fees), code, MarkTime(FeeMark(w, code)), end, order)
    requires FeePrunes(code, end, calls) && AllSucceed(h, w, calls)
    ensures |calls| <= Rounds(|order|)
    ensures FeesDrained(w, Exec(h, w, calls), code, target, end, order, |calls|)
    decreases |calls|
  {
    hide Inv, Step, SeqSum, SplitTime, Listing, DistinctTimes, AllSucceed;
    if calls == [] {
      assert Taken(order, 0) == [] && Rest(order, 0) == order;
      assert w.prunedFees.Keys + Elements<string>([]) == w.prunedFees.Keys;
      SumOfNothing(FeeRecs(w.fees));
    } else {
      var init, c := calls[..|calls| - 1], calls[|calls| - 1];
      AllButLast(h, w, calls);
      DrainFees(h, w, code, target, end, order, init);
      RunKeepsInv(h, w, init);
      hide FeesDrained, Rounds;
      DrainOneFee(h, w, Exec(h, w, init), code, target, end, order, |init|, c);
    }
  }

  lemma NextFeePrune(h: Hasher, w: World, code: string, target: Address, end: int, order: seq<string>, calls: seq<Call>, c: Call)
    requires Inv(w) && HasTarget(w, code, target) && target in w.balances && WatermarkStart(FeeMark(w, code)).Some?
    requires DistinctTimes(FeeRecs(w.fees), code) && Listing(FeeRecs(w.fees), code, MarkTime(FeeMark(w, code)), end, order)
    requires FeePrunes(code, end, calls) && AllSucceed(h, w, calls)
    requires FeePrunes(code, end, [c])
    requires var v := Exec(h, w, calls);
      Admissible(v, c.env, c.tx) && Authorised(v, target, c.env.kid) && (target, c.env.ts) !in v.logs
    ensures Step(h, Exec(h, w, calls), c.env, c.tx).Some? <==> |calls| < Rounds(|order|)
  {
    assert FeePrunes(code, end, [c]) && [c][0] == c;
    hide Inv, Step, SeqSum, WatermarkStart, MarkTime, DistinctTimes, AllSucceed, Exec, Listing, FeeMark, Rounds, Rest, Authorised;
    var v := Exec(h, w, calls);
    DrainFees(h, w, code, target, end, order, calls);
    RunKeepsInv(h, w, calls);
    NextFeeQuery(h, w, v, code, target, end, order, |calls|, c);
  }

  lemma NextFeeQuery(h: Hasher, w: World, v: World, code: string, target: Address, end: int, order: seq<string>, k: nat, c: Call)
    requires Inv(v) && FeesDrained(w, v, code, target, end, order, k) && DistinctTimes(FeeRecs(w.fees), code)
    requires c.tx.TxFeePrune? && c.tx.code == code && EndTime(c.env.ts, c.tx.safe, c.tx.end) == end
    requires Admissible(v, c.env, c.tx) && Authorised(v, target, c.env.kid) && (target, c.env.ts) !in v.logs
    ensures Step(h, v, c.env, c.tx).Some? <==> k < Rounds(|order|)
  {
    hide Inv, Step, SeqSum, DistinctTimes, Listing, FeeMark, Rounds, Rest, Authorised, SplitTime;
    FeePruneSucceedsIff(h, v, c.env, c.tx, target);
    ListingUnique(FeeRecs(w.fees), code, MarkTime(FeeMark(v, code)), end, c.tx.order, Rest(order, k));
    OneMoreBatch(order, k);
  }
}
