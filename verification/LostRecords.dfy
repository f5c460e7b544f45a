/**
  What exactly-once pruning protects from: a record that is committed at or below
  the watermark of its owner is never counted, by any prune of any later run.
 */
module LostRecords {
  import opened Sums
  import opened Addresses
  import opened Pruning
  import opened Ledger
  import opened Rules
  import opened Invariants
  import opened Steps
  import opened History
  import opened Prunes
  import opened Arrivals
  import opened Drain

  ghost predicate LatePay(w: World, id: string) {
    && id in w.pays && id !in w.prunedPays && w.pays[id].merchant in w.balances
    && w.pays[id].created <= MarkTime(w.balances[w.pays[id].merchant].mark)
  }

  ghost predicate LateFee(w: World, id: string) {
    && id in w.fees && id !in w.prunedFees
    && w.fees[id].created <= MarkTime(FeeMark(w, w.fees[id].code))
  }

  lemma InBatchIsDue<O>(recs: map<string, Rec<O>>, owner: O, start: int, end: int, order: seq<string>, id: string)
    requires Listing(recs, owner, start, end, order) && id in Batch(order)
    ensures Due(recs, owner, start, end, id)
  {
    var i :| 0 <= i < |Batch(order)| && Batch(order)[i] == id;
    assert Due(recs, owner, start, end, order[i]);
  }

  lemma StepSkipsLatePay(h: Hasher, w: World, env: Env, tx: Tx, id: string)
    requires Inv(w) && LatePay(w, id) && Step(h, w, env, tx).Some?
    ensures LatePay(Step(h, w, env, tx).value, id)
  {
    hide Inv, Step, MarkTime, SeqSum, Listing, NewBatch;
    StepExtends(h, w, env, tx);
    OnlyPrunesCount(h, w, env, tx);
    if tx.TxPayPrune? {
      PayPruneCounts(h, w, env, tx);
      var ids, end := Batch(tx.order), EndTime(env.ts, tx.safe, tx.end);
      PayQueryOf(h, w, Call(env, tx), tx.account, end);
      if id in ids {
        InBatchIsDue(PayRecs(w.pays), tx.account, MarkTime(w.balances[tx.account].mark), end, tx.order, id);
      }
      assert id !in Elements(ids);
    }
  }

  lemma StepSkipsLateFee(h: Hasher, w: World, env: Env, tx: Tx, id: string)
    requires Inv(w) && LateFee(w, id) && Step(h, w, env, tx).Some?
    ensures LateFee(Step(h, w, env, tx).value, id)
  {
    hide Inv, Step, MarkTime, SeqSum, Listing, NewBatch, FeeMark;
    StepExtends(h, w, env, tx);
    OnlyPrunesCount(h, w, env, tx);
    if tx.TxFeePrune? {
      FeePruneCounts(h, w, env, tx);
      if w.tokens[tx.code].policy.Some? {
        var ids, end, target := Batch(tx.order), EndTime(env.ts, tx.safe, tx.end), w.tokens[tx.code].policy.value.target;
        FeeQueryOf(h, w, Call(env, tx), end, target);
        if id in ids {
          InBatchIsDue(FeeRecs(w.fees), tx.code, MarkTime(FeeMark(w, tx.code)), end, tx.order, id);
        }
        assert id !in Elements(ids);
      }
    }
  }

  // Whatever is invoked from then on, a late record stays uncounted for good.
  lemma {:induction false} LostForever(h: Hasher, w: World, calls: seq<Call>, id: string)
    requires Inv(w)
    ensures LatePay(w, id) ==> LatePay(Exec(h, w, calls), id)
    ensures LateFee(w, id) ==> LateFee(Exec(h, w, calls), id)
  {
    hide Inv, Step, LatePay, LateFee;
    if calls != [] {
      var init, c := calls[..|calls| - 1], calls[|calls| - 1];
      LostForever(h, w, init, id);
      RunKeepsInv(h, w, init);
      var u := Exec(h, w, init);
      if Step(h, u, c.env, c.tx).Some? {
        if LatePay(u, id) { StepSkipsLatePay(h, u, c.env, c.tx, id); }
        if LateFee(u, id) { StepSkipsLateFee(h, u, c.env, c.tx, id); }
      }
    }
  }

  // ---- when a commit is late ----

  // A pay or refund record committed now is late, and so lost, if and only if its
  // timestamp is not after the watermark of its merchant.
  lemma PayLateIff(h: Hasher, w: World, env: Env, tx: Tx, id: string)
    requires Inv(w) && Step(h, w, env, tx).Some?
    requires id in Step(h, w, env, tx).value.pays && id !in w.pays
    ensures var v := Step(h, w, env, tx).value;
      var m := v.pays[id].merchant;
      && v.pays[id].created == env.ts && m in w.balances
      && (LatePay(v, id) <==> env.ts <= MarkTime(w.balances[m].mark))
  {
    hide Inv, Step, MarkTime, FeeMark;
    PayArrives(h, w, env, tx, id);
    StepMarks(h, w, env, tx, Step(h, w, env, tx).value.pays[id].merchant, "");
  }

  // The same for a fee record and the watermark of its token.
  lemma FeeLateIff(h: Hasher, w: World, env: Env, tx: Tx, id: string)
    requires Inv(w) && Step(h, w, env, tx).Some?
    requires id in Step(h, w, env, tx).value.fees && id !in w.fees
    ensures var v := Step(h, w, env, tx).value;
      && v.fees[id].created == env.ts
      && (LateFee(v, id) <==> env.ts <= MarkTime(FeeMark(w, v.fees[id].code)))
  {
    hide Inv, Step, MarkTime, FeeMark;
    FeeArrives(h, w, env, tx, id);
    StepMarks(h, w, env, tx, Step(h, w, env, tx).value.fees[id].account, Step(h, w, env, tx).value.fees[id].code);
  }

  // ---- when a prune leaves records behind ----

  // The records of an owner that are behind its watermark and not counted.
  ghost predicate Missed<O>(recs: map<string, Rec<O>>, counted: set<string>, owner: O, t: int) {
    exists id :: id in recs && recs[id].owner == owner && id !in counted && recs[id].created <= t
  }

  lemma MissedIff<O>(recs: map<string, Rec<O>>, counted: set<string>, owner: O, start: int, end: int, order: seq<string>)
    requires Listing(recs, owner, start, end, order) && order != [] && CountedExactly(recs, counted, owner, start)
    ensures (forall id :: id in order ==> id in recs) && Batch(order) != [] && Last(Batch(order)) in recs
    ensures Missed(recs, counted + Elements(Batch(order)), owner, recs[Last(Batch(order))].created) <==> !CutsCleanly(recs, order)
  {
    hide Listing;
    ListedAreRecords(recs, owner, start, end, order);
    BatchIsNew(recs, counted, owner, start, end, order);
    BatchCountsExactly(recs, counted, owner, start, end, order);
  }

  // A pay prune on a merchant without late records leaves some, and so loses them, if
  // and only if its batch ends in the middle of an instant.
  lemma PayPruneLosesIff(h: Hasher, w: World, env: Env, tx: Tx)
    requires Inv(w) && tx.TxPayPrune? && Step(h, w, env, tx).Some? && tx.account in w.balances
    requires CountedExactly(PayRecs(w.pays), w.prunedPays, tx.account, MarkTime(w.balances[tx.account].mark))
    ensures forall id :: id in tx.order ==> id in w.pays
    ensures var v := Step(h, w, env, tx).value;
      (exists id :: id in v.pays && v.pays[id].merchant == tx.account && LatePay(v, id)) <==> !CutsCleanly(PayRecs(w.pays), tx.order)
  {
    hide Inv, Step, MarkTime, SeqSum, Listing, NewBatch, CountedExactly, Batch, CutsCleanly;
    var v, start, end := Step(h, w, env, tx).value, MarkTime(w.balances[tx.account].mark), EndTime(env.ts, tx.safe, tx.end);
    PayPruneCounts(h, w, env, tx);
    PayQueryOf(h, w, Call(env, tx), tx.account, end);
    MissedIff(PayRecs(w.pays), w.prunedPays, tx.account, start, end, tx.order);
    MissedPays(v, tx.account);
  }

  lemma MissedPays(v: World, a: Address)
    requires a in v.balances
    ensures Missed(PayRecs(v.pays), v.prunedPays, a, MarkTime(v.balances[a].mark))
      <==> exists id :: id in v.pays && v.pays[id].merchant == a && LatePay(v, id)
  {
    hide MarkTime;
    assert forall id :: id in v.pays ==> PayRecs(v.pays)[id].owner == v.pays[id].merchant;
  }

  // The same for fees and their token.
  lemma FeePruneLosesIff(h: Hasher, w: World, env: Env, tx: Tx)
    requires Inv(w) && tx.TxFeePrune? && Step(h, w, env, tx).Some? && tx.code in w.tokens && w.tokens[tx.code].policy.Some?
    requires CountedExactly(FeeRecs(w.fees), w.prunedFees.Keys, tx.code, MarkTime(FeeMark(w, tx.code)))
    ensures forall id :: id in tx.order ==> id in w.fees
    ensures var v := Step(h, w, env, tx).value;
      (exists id :: id in v.fees && v.fees[id].code == tx.code && LateFee(v, id)) <==> !CutsCleanly(FeeRecs(w.fees), tx.order)
  {
    hide Inv, Step, MarkTime, SeqSum, Listing, NewBatch, CountedExactly, Batch, CutsCleanly, FeeMark;
    var v, start, end := Step(h, w, env, tx).value, MarkTime(FeeMark(w, tx.code)), EndTime(env.ts, tx.safe, tx.end);
    FeePruneCounts(h, w, env, tx);
    FeeQueryOf(h, w, Call(env, tx), end, w.tokens[tx.code].policy.value.target);
    MissedIff(FeeRecs(w.fees), w.prunedFees.Keys, tx.code, start, end, tx.order);
    assert v.prunedFees.Keys == w.prunedFees.Keys + Elements(Batch(tx.order));
    MissedFees(v, tx.code);
  }

  lemma MissedFees(v: World, code: string)
    ensures Missed(FeeRecs(v.fees), v.prunedFees.Keys, code, MarkTime(FeeMark(v, code)))
      <==> exists id :: id in v.fees && v.fees[id].code == code && LateFee(v, id)
  {
    hide MarkTime, FeeMark;
    assert forall id :: id in v.fees ==> FeeRecs(v.fees)[id].owner == v.fees[id].code;
  }
}
