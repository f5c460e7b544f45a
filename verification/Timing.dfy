/**
  Exactly-once pruning. If clocks are off by at most five minutes, every prune
  uses the safe flag and no owner has two records of one instant, then no record
  is ever committed at or below a watermark, and the counted records are exactly
  those at or below it.
 */
module Timing {
  import opened Sums
  import opened Addresses
  import opened RecordIds
  import opened Pruning
  import opened Ledger
  import opened Fields
  import opened Rules
  import opened Invariants
  import opened Steps
  import opened Shapes
  import opened History
  import opened Prunes
  import opened Arrivals

  const SKEW := 300 * NANOS

  ghost predicate Timely(c: Call) {
    && c.env.now - SKEW <= c.env.ts <= c.env.now + SKEW
    && (c.tx.TxPayPrune? || c.tx.TxFeePrune? ==> c.tx.safe)
  }

  // True times do not run backwards from one commit to the next.
  ghost predicate TimelyRun(calls: seq<Call>) {
    && (forall i :: 0 <= i < |calls| ==> Timely(calls[i]))
    && (forall i, j :: 0 <= i < j < |calls| ==> calls[i].env.now <= calls[j].env.now)
  }

  ghost predicate Distinct(w: World) {
    && (forall a :: DistinctTimes(PayRecs(w.pays), a))
    && (forall code :: DistinctTimes(FeeRecs(w.fees), code))
  }

  // A watermark no later than any timestamp that can be committed from now on.
  ghost predicate Past(mark: string, t: int) {
    MarkTime(mark) == 0 || MarkTime(mark) <= t
  }

  ghost predicate PaysExact(w: World, t: int) {
    forall a :: a in w.balances ==>
      Past(w.balances[a].mark, t) && CountedExactly(PayRecs(w.pays), w.prunedPays, a, MarkTime(w.balances[a].mark))
  }

  ghost predicate FeesExact(w: World, t: int) {
    forall code ::
      Past(FeeMark(w, code), t) && CountedExactly(FeeRecs(w.fees), w.prunedFees.Keys, code, MarkTime(FeeMark(w, code)))
  }

  // ---- one record more ----

  // The watermark is the time of a record of its owner, so a new record at that very
  // instant would be a second one.
  ghost predicate MarksRecord<O>(recs: map<string, Rec<O>>, owner: O, mark: string) {
    MarkTime(mark) == 0 || (mark in recs && recs[mark].owner == owner && recs[mark].created == MarkTime(mark))
  }

  lemma PayMarksRecord(w: World, a: Address)
    requires Inv(w) && a in w.balances
    ensures MarksRecord(PayRecs(w.pays), a, w.balances[a].mark)
  {
    hide DocumentsOk, LogsOk, RefundsOk, ShortfallOk, HoldersOk, FeeMarksOk, CountedBelow, SplitTime;
    assert MarkOk(PayRecs(w.pays), w.prunedPays, a, w.balances[a].mark);
    if w.balances[a].mark != "" {
      MarkTimeOfPay(w, w.balances[a].mark);
    }
  }

  lemma FeeMarksRecord(w: World, code: string)
    requires Inv(w)
    ensures MarksRecord(FeeRecs(w.fees), code, FeeMark(w, code))
  {
    hide DocumentsOk, LogsOk, RefundsOk, ShortfallOk, HoldersOk, PayMarksOk, CountedBelow, SplitTime;
    assert MarkOk(FeeRecs(w.fees), w.prunedFees.Keys, code, FeeMark(w, code));
    if FeeMark(w, code) != "" {
      MarkTimeOfFee(w, FeeMark(w, code));
    }
  }

  lemma ExactKept<O>(recs: map<string, Rec<O>>, more: map<string, Rec<O>>, counted: set<string>, owner: O, mark: string, t: int)
    requires CountedExactly(recs, counted, owner, MarkTime(mark)) && Past(mark, t)
    requires MarksRecord(recs, owner, mark) && DistinctTimes(more, owner)
    requires forall id :: id in recs ==> id in more && more[id].owner == recs[id].owner && more[id].created == recs[id].created
    requires forall id :: id in more && id !in recs ==> id !in counted && more[id].created >= t && more[id].created > 0
    ensures CountedExactly(more, counted, owner, MarkTime(mark))
  {
    forall id | id in more && id !in recs && more[id].owner == owner ensures more[id].created > MarkTime(mark) {
      if MarkTime(mark) != 0 {
        assert more[mark].created == MarkTime(mark) && mark != id;
      }
    }
  }

  // A transaction other than a pay prune keeps the counted pays exact.
  lemma OthersKeepPaysExact(h: Hasher, w: World, env: Env, tx: Tx, t: int)
    requires Inv(w) && Step(h, w, env, tx).Some? && !tx.TxPayPrune? && 0 < t <= env.ts
    requires PaysExact(w, t) && forall a :: DistinctTimes(PayRecs(Step(h, w, env, tx).value.pays), a)
    ensures PaysExact(Step(h, w, env, tx).value, t)
  {
    hide Inv, Step, SplitTime, DistinctTimes, MarkTime, FeeMark;
    var v := Step(h, w, env, tx).value;
    StepExtends(h, w, env, tx);
    OnlyPrunesCount(h, w, env, tx);
    forall id | id in v.pays && id !in w.pays ensures id !in w.prunedPays && v.pays[id].created == env.ts && v.pays[id].merchant in w.balances {
      PayArrives(h, w, env, tx, id);
    }
    forall a | a in v.balances
      ensures Past(v.balances[a].mark, t) && CountedExactly(PayRecs(v.pays), v.prunedPays, a, MarkTime(v.balances[a].mark))
    {
      StepMarks(h, w, env, tx, a, "");
      if a in w.balances {
        PayMarksRecord(w, a);
        ExactKept(PayRecs(w.pays), PayRecs(v.pays), w.prunedPays, a, w.balances[a].mark, t);
      } else {
        NoPaysOf(w, v, a);
      }
    }
  }

  // An account just opened has no records yet.
  lemma NoPaysOf(w: World, v: World, a: Address)
    requires Inv(w) && a !in w.balances && a in v.balances && v.balances[a].mark == ""
    requires PaysExtend(w.pays, v.pays)
    requires forall id :: id in v.pays && id !in w.pays ==> v.pays[id].merchant in w.balances
    ensures CountedExactly(PayRecs(v.pays), v.prunedPays, a, MarkTime("")) && MarkTime("") == 0
  {
    forall id | id in w.pays ensures w.pays[id].merchant != a {
      MerchantOf(w, id);
    }
    hide Inv;
  }

  lemma OthersKeepFeesExact(h: Hasher, w: World, env: Env, tx: Tx, t: int)
    requires Inv(w) && Step(h, w, env, tx).Some? && !tx.TxFeePrune? && 0 < t <= env.ts
    requires FeesExact(w, t) && forall code :: DistinctTimes(FeeRecs(Step(h, w, env, tx).value.fees), code)
    ensures FeesExact(Step(h, w, env, tx).value, t)
  {
    hide Inv, Step, SplitTime, DistinctTimes, MarkTime, FeeMark;
    var v := Step(h, w, env, tx).value;
    StepExtends(h, w, env, tx);
    OnlyPrunesCount(h, w, env, tx);
    forall id | id in v.fees && id !in w.fees ensures id !in w.prunedFees && v.fees[id].created == env.ts {
      FeeArrives(h, w, env, tx, id);
    }
    forall code ensures Past(FeeMark(v, code), t) && CountedExactly(FeeRecs(v.fees), v.prunedFees.Keys, code, MarkTime(FeeMark(v, code))) {
      StepMarks(h, w, env, tx, NewAddress(h, "", PERSONAL, ""), code);
      FeeMarksRecord(w, code);
      ExactKept(FeeRecs(w.fees), FeeRecs(v.fees), w.prunedFees.Keys, code, FeeMark(w, code), t);
    }
  }

  // ---- prunes ----

  // A safe prune keeps the watermark at least five minutes behind the true time.
  lemma SafeEnd(env: Env, tx: Tx)
    requires env.ts <= env.now + SKEW && (tx.TxPayPrune? || tx.TxFeePrune? ==> tx.safe)
    ensures tx.TxPayPrune? || tx.TxFeePrune? ==> EndTime(env.ts, tx.safe, tx.end) <= env.now - SKEW
  {
  }

  lemma PayPruneKeepsExact(h: Hasher, w: World, env: Env, tx: Tx, t: int)
    requires Inv(w) && tx.TxPayPrune? && Step(h, w, env, tx).Some?
    requires DistinctTimes(PayRecs(w.pays), tx.account) && PaysExact(w, t)
    requires EndTime(env.ts, tx.safe, tx.end) <= t
    ensures PaysExact(Step(h, w, env, tx).value, t)
  {
    hide Inv, PlanOk, Commit, Step, SplitTime, SeqSum, Only, Listing, NewBatch, CountedExactly, DistinctTimes;
    var v, a, ids := Step(h, w, env, tx).value, tx.account, Batch(tx.order);
    PayPruneCounts(h, w, env, tx);
    PayBatchExact(h, w, env, tx);
    forall b | b in v.balances ensures Past(v.balances[b].mark, t) && CountedExactly(PayRecs(v.pays), v.prunedPays, b, MarkTime(v.balances[b].mark)) {
      if b != a {
        OtherOwnerExact(PayRecs(w.pays), w.prunedPays, a, w.balances[a].mark, ids, b, MarkTime(w.balances[b].mark));
      }
    }
  }

  lemma OtherOwnerExact<O>(recs: map<string, Rec<O>>, counted: set<string>, owner: O, mark: string, ids: seq<string>, other: O, t: int)
    requires NewBatch(recs, counted, owner, mark, ids) && other != owner && CountedExactly(recs, counted, other, t)
    ensures CountedExactly(recs, counted + Elements(ids), other, t)
  {
  }

  lemma PayBatchExact(h: Hasher, w: World, env: Env, tx: Tx)
    requires Inv(w) && tx.TxPayPrune? && Step(h, w, env, tx).Some? && tx.account in w.balances
    requires DistinctTimes(PayRecs(w.pays), tx.account)
    requires CountedExactly(PayRecs(w.pays), w.prunedPays, tx.account, MarkTime(w.balances[tx.account].mark))
    ensures var ids := Batch(tx.order);
      && ids != [] && Last(ids) in w.pays
      && CountedExactly(PayRecs(w.pays), w.prunedPays + Elements(ids), tx.account, w.pays[Last(ids)].created)
  {
    hide Inv, Commit, SplitTime, SeqSum, Listing, CountedExactly, DistinctTimes;
    var start, end := MarkTime(w.balances[tx.account].mark), EndTime(env.ts, tx.safe, tx.end);
    ListedAreRecords(PayRecs(w.pays), tx.account, start, end, tx.order);
    BatchCountsExactly(PayRecs(w.pays), w.prunedPays, tx.account, start, end, tx.order);
  }

  lemma FeeBatchExact(h: Hasher, w: World, env: Env, tx: Tx)
    requires Inv(w) && tx.TxFeePrune? && Step(h, w, env, tx).Some? && tx.code in w.tokens && w.tokens[tx.code].policy.Some?
    requires DistinctTimes(FeeRecs(w.fees), tx.code)
    requires CountedExactly(FeeRecs(w.fees), w.prunedFees.Keys, tx.code, MarkTime(FeeMark(w, tx.code)))
    ensures var ids := Batch(tx.order);
      && ids != [] && Last(ids) in w.fees
      && CountedExactly(FeeRecs(w.fees), w.prunedFees.Keys + Elements(ids), tx.code, w.fees[Last(ids)].created)
  {
    hide Inv, Commit, SplitTime, SeqSum, Listing, CountedExactly, DistinctTimes;
    var start, end := MarkTime(FeeMark(w, tx.code)), EndTime(env.ts, tx.safe, tx.end);
    assert FeeMark(Begin(w, env), tx.code) == FeeMark(w, tx.code);
    ListedAreRecords(FeeRecs(w.fees), tx.code, start, end, tx.order);
    BatchCountsExactly(FeeRecs(w.fees), w.prunedFees.Keys, tx.code, start, end, tx.order);
  }

  lemma OtherMarksStay(h: Hasher, w: World, env: Env, tx: Tx)
    requires Inv(w) && tx.TxFeePrune? && Step(h, w, env, tx).Some? && tx.code in w.tokens && w.tokens[tx.code].policy.Some?
    ensures forall code :: code != tx.code ==> FeeMark(Step(h, w, env, tx).value, code) == FeeMark(w, code)
  {
    hide Inv, PlanOk, Step, Only, PlanOf, QueryAnswered, FeeMark, Commit;
    var b, plan := PlanOfStep(h, w, env, tx);
    FeePruneMarks(h, b, env, tx);
    OtherMarksAfter(b, plan, tx.code);
    SameFeeMarks(w, env);
  }

  // A fee prune marks the fees of its token, may store that token, and posts.
  ghost predicate MarksOnly(plan: Plan, code: string) {
    && plan.Then? && plan.head.MarkFees? && plan.head.code == code && plan.tail.Then?
    && ((plan.tail.head.Post? && plan.tail.tail == Done)
        || (plan.tail.head.PutToken? && plan.tail.head.code == code && plan.tail.tail.Then? && plan.tail.tail.head.Post? && plan.tail.tail.tail == Done))
  }

  lemma FeePruneMarks(h: Hasher, b: World, env: Env, tx: Tx)
    requires tx.TxFeePrune? && PlanOf(h, b, env, tx).Some? && tx.code in b.tokens && b.tokens[tx.code].policy.Some?
    ensures MarksOnly(PlanOf(h, b, env, tx).value, tx.code)
  {
    hide SeqSum, SplitTime, FeeMark;
  }

  lemma {:induction false} OtherMarksAfter(w: World, plan: Plan, code: string)
    requires MarksOnly(plan, code)
    requires Commit(w, plan).Some?
    ensures forall c :: c != code ==> FeeMark(Commit(w, plan).value, c) == FeeMark(w, c)
  {
    hide Apply, Commit, FeeMark;
    OtherMark(w, plan.head, code);
    CommitThen(w, plan.head, plan.tail);
    var w1 := Apply(w, plan.head);
    OtherMark(w1, plan.tail.head, code);
    CommitThen(w1, plan.tail.head, plan.tail.tail);
    var w2 := Apply(w1, plan.tail.head);
    if plan.tail.tail.Then? {
      OtherMark(w2, plan.tail.tail.head, code);
      CommitThen(w2, plan.tail.tail.head, Done);
      CommitNothing(Apply(w2, plan.tail.tail.head));
    } else {
      CommitNothing(w2);
    }
  }

  lemma OtherMark(w: World, e: Effect, code: string)
    requires e.Post? || (e.MarkFees? && e.code == code) || (e.PutToken? && e.code == code)
    ensures forall c :: c != code ==> FeeMark(Apply(w, e), c) == FeeMark(w, c)
  {
  }

  lemma FeePruneKeepsExact(h: Hasher, w: World, env: Env, tx: Tx, t: int)
    requires Inv(w) && tx.TxFeePrune? && Step(h, w, env, tx).Some?
    requires DistinctTimes(FeeRecs(w.fees), tx.code) && FeesExact(w, t)
    requires EndTime(env.ts, tx.safe, tx.end) <= t
    ensures FeesExact(Step(h, w, env, tx).value, t)
  {
    hide Inv, PlanOk, Commit, Step, SplitTime, SeqSum, Only, Listing, NewBatch, CountedExactly, DistinctTimes, FeeMark;
    var v, ids := Step(h, w, env, tx).value, Batch(tx.order);
    FeePruneCounts(h, w, env, tx);
    if w.tokens[tx.code].policy.None? {
      SameFeeMarks(w, env);
    } else {
      FeeBatchExact(h, w, env, tx);
      OtherMarksStay(h, w, env, tx);
      assert v.prunedFees.Keys == w.prunedFees.Keys + Elements(ids);
      forall c ensures Past(FeeMark(v, c), t) && CountedExactly(FeeRecs(v.fees), v.prunedFees.Keys, c, MarkTime(FeeMark(v, c))) {
        if c != tx.code {
          OtherOwnerExact(FeeRecs(w.fees), w.prunedFees.Keys, tx.code, FeeMark(w, tx.code), ids, c, MarkTime(FeeMark(w, c)));
        }
      }
    }
  }

  // ---- steps and runs ----

  lemma ExactLater(w: World, t: int, later: int)
    requires PaysExact(w, t) && FeesExact(w, t) && t <= later
    ensures PaysExact(w, later) && FeesExact(w, later)
  {
    hide CountedExactly;
  }

  lemma StepKeepsExact(h: Hasher, w: World, c: Call)
    requires Inv(w) && Step(h, w, c.env, c.tx).Some? && Timely(c) && Distinct(w) && Distinct(Step(h, w, c.env, c.tx).value)
    requires PaysExact(w, c.env.now - SKEW) && FeesExact(w, c.env.now - SKEW)
    ensures var v := Step(h, w, c.env, c.tx).value; PaysExact(v, c.env.now - SKEW) && FeesExact(v, c.env.now - SKEW)
  {
    StampInRange(h, w, c.env, c.tx);
    hide Inv, Step, PaysExact, FeesExact, DistinctTimes;
    var t := c.env.now - SKEW;
    SafeEnd(c.env, c.tx);
    if c.tx.TxPayPrune? {
      PayPruneKeepsExact(h, w, c.env, c.tx, t);
    } else {
      OthersKeepPaysExact(h, w, c.env, c.tx, t);
    }
    if c.tx.TxFeePrune? {
      FeePruneKeepsExact(h, w, c.env, c.tx, t);
    } else {
      OthersKeepFeesExact(h, w, c.env, c.tx, t);
    }
  }

  lemma StampInRange(h: Hasher, w: World, env: Env, tx: Tx)
    requires Step(h, w, env, tx).Some?
    ensures InRange(env.ts)
  {
    hide PlanOf, Commit, QueryAnswered;
  }

  lemma DistinctBefore(w: World, v: World)
    requires Extends(w, v) && Distinct(v)
    ensures Distinct(w)
  {
    forall a ensures DistinctTimes(PayRecs(w.pays), a) {
      FewerAreDistinct(PayRecs(w.pays), PayRecs(v.pays), a);
    }
    forall code ensures DistinctTimes(FeeRecs(w.fees), code) {
      FewerAreDistinct(FeeRecs(w.fees), FeeRecs(v.fees), code);
    }
  }

  lemma FewerAreDistinct<O>(recs: map<string, Rec<O>>, more: map<string, Rec<O>>, owner: O)
    requires DistinctTimes(more, owner)
    requires forall id :: id in recs ==> id in more && more[id].owner == recs[id].owner && more[id].created == recs[id].created
    ensures DistinctTimes(recs, owner)
  {
  }

  // The last clock of a run, less the skew; every watermark lies before it.
  function Horizon(calls: seq<Call>): int {
    if calls == [] then 0 else calls[|calls| - 1].env.now - SKEW
  }

  lemma HorizonGrows(calls: seq<Call>)
    requires calls != [] && TimelyRun(calls)
    ensures Horizon(calls[..|calls| - 1]) <= Horizon(calls) || |calls| == 1
  {
  }

  lemma EmptyIsExact(t: int)
    ensures PaysExact(EMPTY_WORLD, t) && FeesExact(EMPTY_WORLD, t)
  {
  }

  // Every pay and every fee is counted exactly once: in each state of a timely run
  // the counted records of a merchant, and of a token, are those at or below its
  // watermark, and whatever is committed next lies above it.
  lemma {:induction false} CountedExactlyOnce(h: Hasher, calls: seq<Call>)
    requires TimelyRun(calls) && Distinct(Exec(h, EMPTY_WORLD, calls))
    ensures var w := Exec(h, EMPTY_WORLD, calls); PaysExact(w, Horizon(calls)) && FeesExact(w, Horizon(calls))
    decreases |calls|
  {
    hide Inv, Step, PaysExact, FeesExact, Distinct, Extends, Timely;
    EmptyIsExact(Horizon(calls));
    if calls != [] {
      var init, c := calls[..|calls| - 1], calls[|calls| - 1];
      EmptyWorldOk();
      RunKeepsInv(h, EMPTY_WORLD, init);
      var w := Exec(h, EMPTY_WORLD, init);
      if Step(h, w, c.env, c.tx).Some? {
        StepExtends(h, w, c.env, c.tx);
        DistinctBefore(w, Exec(h, EMPTY_WORLD, calls));
      }
      CountedExactlyOnce(h, init);
      if |calls| == 1 {
        assert init == [];
      } else {
        HorizonGrows(calls);
        ExactLater(w, Horizon(init), Horizon(calls));
      }
      if Step(h, w, c.env, c.tx).Some? {
        StepKeepsExact(h, w, c);
      }
    }
  }

  // So no committed record is ever behind the watermark of its owner.
  lemma NothingCommittedBehind(h: Hasher, calls: seq<Call>, id: string)
    requires TimelyRun(calls) && Distinct(Exec(h, EMPTY_WORLD, calls))
    ensures var w := Exec(h, EMPTY_WORLD, calls);
      && (id in w.pays ==> w.pays[id].merchant in w.balances)
      && (id in w.pays ==> (id in w.prunedPays <==> w.pays[id].created <= MarkTime(w.balances[w.pays[id].merchant].mark)))
      && (id in w.fees ==> (id in w.prunedFees <==> w.fees[id].created <= MarkTime(FeeMark(w, w.fees[id].code))))
  {
    hide Inv, Exec, TimelyRun, Distinct, PaysExact, FeesExact, MarkTime, FeeMark;
    EmptyWorldOk();
    RunKeepsInv(h, EMPTY_WORLD, calls);
    CountedExactlyOnce(h, calls);
    ExactForEach(Exec(h, EMPTY_WORLD, calls), Horizon(calls), id);
  }

  lemma ExactForEach(w: World, t: int, id: string)
    requires Inv(w) && PaysExact(w, t) && FeesExact(w, t)
    ensures id in w.pays ==> w.pays[id].merchant in w.balances
    ensures id in w.pays ==> (id in w.prunedPays <==> w.pays[id].created <= MarkTime(w.balances[w.pays[id].merchant].mark))
    ensures id in w.fees ==> (id in w.prunedFees <==> w.fees[id].created <= MarkTime(FeeMark(w, w.fees[id].code)))
  {
    hide LogsOk, RefundsOk, PayMarksOk, FeeMarksOk, ShortfallOk, HoldersOk, PendingsOk, FeesOk, WrapsOk, TokensOk, ContractsOk, MarkTime, FeeMark, Past;
    assert id in w.pays ==> PayOk(w.used, w.balances, id, w.pays[id]);
    assert id in w.pays ==> PayRecs(w.pays)[id].owner == w.pays[id].merchant;
    assert id in w.fees ==> FeeRecs(w.fees)[id].owner == w.fees[id].code;
  }
}
