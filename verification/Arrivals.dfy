/** What one committed transaction adds to the records, and which watermarks it leaves alone. */
module Arrivals {
  import opened Sums
  import opened Addresses
  import opened Pruning
  import opened Ledger
  import opened Rules
  import opened Invariants
  import opened Steps
  import opened Shapes
  import opened History
  import opened Prunes

  lemma MarkKindsOnlyPrunes(w: World, tx: Tx)
    ensures KMarkPays in KindsOf(w, tx) ==> tx.TxPayPrune?
    ensures KMarkFees in KindsOf(w, tx) ==> tx.TxFeePrune?
  {
  }

  lemma SameFeeMarks(w: World, env: Env)
    ensures forall code :: FeeMark(Begin(w, env), code) == FeeMark(w, code)
  {
  }

  lemma {:induction false} NobodyCounts(w: World, env: Env, plan: Plan, kinds: set<Kind>)
    requires Only(plan, env, kinds) && Commit(w, plan).Some?
    ensures KMarkPays !in kinds ==> Commit(w, plan).value.prunedPays == w.prunedPays
    ensures KMarkFees !in kinds ==> Commit(w, plan).value.prunedFees == w.prunedFees
    decreases plan
  {
    if plan.Then? {
      NobodyCounts(Apply(w, plan.head), env, plan.tail, kinds);
    }
  }

  lemma OnlyPrunesCount(h: Hasher, w: World, env: Env, tx: Tx)
    requires Inv(w) && Step(h, w, env, tx).Some?
    ensures !tx.TxPayPrune? ==> Step(h, w, env, tx).value.prunedPays == w.prunedPays
    ensures !tx.TxFeePrune? ==> Step(h, w, env, tx).value.prunedFees == w.prunedFees
  {
    hide Inv, PlanOf, PlanOk, Commit, Step, Only, QueryAnswered, KindsOf;
    var b, plan := PlanOfStep(h, w, env, tx);
    NobodyCounts(b, env, plan, KindsOf(b, tx));
    MarkKindsOnlyPrunes(b, tx);
  }

  lemma {:induction false} NewCreated(w: World, env: Env, plan: Plan, kinds: set<Kind>)
    requires Inv(w) && PlanOk(w, plan) && Only(plan, env, kinds) && Commit(w, plan).Some?
    ensures var v := Commit(w, plan).value;
      && (forall id :: id in v.pays && id !in w.pays ==> v.pays[id].created == env.ts)
      && (forall id :: id in v.fees && id !in w.fees ==> v.fees[id].created == env.ts)
    decreases plan
  {
    hide Inv, Enabled, Apply, LogsExtend, BridgeExtends, MarksExtend, PendingsFrom, Stamped;
    if plan.Then? {
      var w1 := Apply(w, plan.head);
      NewByEffect(w, env, plan.head);
      KeepInv(w, plan.head);
      NewCreated(w1, env, plan.tail, kinds);
      CommitExtends(w1, env, plan.tail, kinds);
      assert RecordsExtend(w1, Commit(w, plan).value);
    }
  }

  lemma NewRecords(w: World, env: Env, plan: Plan, kinds: set<Kind>)
    requires Inv(w) && PlanOk(w, plan) && Only(plan, env, kinds) && Commit(w, plan).Some?
    ensures var v := Commit(w, plan).value;
      && (KMarkPays !in kinds ==> forall id :: id in v.pays && id !in w.pays ==> id !in v.prunedPays && v.pays[id].created == env.ts)
      && (KMarkFees !in kinds ==> forall id :: id in v.fees && id !in w.fees ==> id !in v.prunedFees && v.fees[id].created == env.ts)
  {
    hide Inv, Commit, PlanOk, Only;
    NewCreated(w, env, plan, kinds);
    NobodyCounts(w, env, plan, kinds);
    CountedAreRecords(w);
  }

  lemma CountedAreRecords(w: World)
    requires Inv(w)
    ensures (forall id :: id in w.prunedPays ==> id in w.pays) && (forall id :: id in w.prunedFees ==> id in w.fees)
  {
    hide DocumentsOk, LogsOk, RefundsOk, ShortfallOk, HoldersOk, MarkOk;
  }

  lemma NewByEffect(w: World, env: Env, e: Effect)
    requires Inv(w) && Enabled(w, e) && Stamped(e, env)
    ensures var v := Apply(w, e);
      && (forall id :: id in v.pays && id !in w.pays ==> v.pays[id].created == env.ts)
      && (forall id :: id in v.fees && id !in w.fees ==> v.fees[id].created == env.ts)
      && (!e.MarkPays? ==> v.prunedPays == w.prunedPays) && (!e.MarkFees? ==> v.prunedFees == w.prunedFees)
  {
    hide Inv, NewBatch, Shortfall;
  }

  lemma {:induction false} MarksStay(w: World, env: Env, plan: Plan, kinds: set<Kind>, a: Address, code: string)
    requires PlanOk(w, plan) && Only(plan, env, kinds) && Commit(w, plan).Some? && w.accounts.Keys == w.balances.Keys
    ensures var v := Commit(w, plan).value;
      && (a in w.balances ==> a in v.balances)
      && (KMarkPays !in kinds && a in v.balances ==> v.balances[a].mark == if a in w.balances then w.balances[a].mark else "")
      && (KMarkFees !in kinds ==> FeeMark(v, code) == FeeMark(w, code))
    decreases plan
  {
    hide Enabled, Apply, FeeMark;
    if plan.Then? {
      MarkStays(w, plan.head, a, code);
      MarksStay(Apply(w, plan.head), env, plan.tail, kinds, a, code);
    }
  }

  lemma MarkStays(w: World, e: Effect, a: Address, code: string)
    requires Enabled(w, e) && Accepted(w, e) && w.accounts.Keys == w.balances.Keys
    ensures var v := Apply(w, e);
      && v.accounts.Keys == v.balances.Keys
      && (a in w.balances ==> a in v.balances)
      && (!e.MarkPays? && a in v.balances ==> v.balances[a].mark == if a in w.balances then w.balances[a].mark else "")
      && (!e.MarkFees? ==> FeeMark(v, code) == FeeMark(w, code))
  {
    hide Enabled, FeeMark;
    AccountsMatch(w, e);
    FeeMarkStays(w, e, code);
  }

  lemma AccountsMatch(w: World, e: Effect)
    requires Enabled(w, e) && w.accounts.Keys == w.balances.Keys
    ensures e.OpenAccount? ==> e.a !in w.balances
    ensures Accepted(w, e) ==> Apply(w, e).accounts.Keys == Apply(w, e).balances.Keys
  {
    hide NewBatch, Shortfall;
    if Accepted(w, e) {
      KeepOwners(w, e);
    }
  }

  lemma FeeMarkStays(w: World, e: Effect, code: string)
    requires Enabled(w, e)
    ensures !e.MarkFees? ==> FeeMark(Apply(w, e), code) == FeeMark(w, code)
  {
    hide NewBatch, Shortfall;
  }

  lemma {:induction false} MerchantsOfPlan(w: World, plan: Plan, env: Env, kinds: set<Kind>, id: string)
    requires Inv(w) && PlanOk(w, plan) && Only(plan, env, kinds) && Commit(w, plan).Some?
    requires id in Commit(w, plan).value.pays
    ensures KAccounts !in kinds ==> Commit(w, plan).value.pays[id].merchant in w.balances
    decreases plan
  {
    hide Inv, Enabled, Apply;
    if plan.Then? {
      KeepInv(w, plan.head);
      MerchantsOfPlan(Apply(w, plan.head), plan.tail, env, kinds, id);
      if KAccounts !in kinds {
        NothingOpened(w, plan.head);
      }
    } else {
      MerchantOf(w, id);
    }
  }

  lemma NothingOpened(w: World, e: Effect)
    requires KindOf(e) != KAccounts
    ensures Apply(w, e).balances.Keys == w.balances.Keys
  {
  }

  lemma MerchantOf(w: World, id: string)
    requires Inv(w) && id in w.pays
    ensures w.pays[id].merchant in w.balances
  {
    hide LogsOk, RefundsOk, PayMarksOk, FeeMarksOk, ShortfallOk, HoldersOk;
    assert PayOk(w.used, w.balances, id, w.pays[id]);
  }

  lemma {:induction false} NoPays(w: World, plan: Plan, env: Env, kinds: set<Kind>)
    requires Only(plan, env, kinds) && Commit(w, plan).Some? && KPutPay !in kinds && KPutRefund !in kinds
    ensures Commit(w, plan).value.pays == w.pays
    decreases plan
  {
    if plan.Then? {
      NoPays(Apply(w, plan.head), plan.tail, env, kinds);
    }
  }

  lemma PaysOrAccounts(w: World, tx: Tx)
    ensures KAccounts in KindsOf(w, tx) ==> KPutPay !in KindsOf(w, tx) && KPutRefund !in KindsOf(w, tx)
  {
  }

  lemma MerchantWasThere(h: Hasher, w: World, env: Env, tx: Tx, id: string)
    requires Inv(w) && Step(h, w, env, tx).Some?
    requires id in Step(h, w, env, tx).value.pays && id !in w.pays
    ensures Step(h, w, env, tx).value.pays[id].merchant in w.balances
  {
    hide Inv, PlanOf, PlanOk, Commit, Step, Only, QueryAnswered, KindsOf;
    var b, plan := PlanOfStep(h, w, env, tx);
    PaysOrAccounts(b, tx);
    if KAccounts in KindsOf(b, tx) {
      NoPays(b, plan, env, KindsOf(b, tx));
    }
    MerchantsOfPlan(b, plan, env, KindsOf(b, tx), id);
  }

  // New records carry the time of their transaction, are not counted yet, and are of
  // merchants that were there before.
  lemma PayArrives(h: Hasher, w: World, env: Env, tx: Tx, id: string)
    requires Inv(w) && Step(h, w, env, tx).Some?
    requires id in Step(h, w, env, tx).value.pays && id !in w.pays
    ensures var v := Step(h, w, env, tx).value;
      && !tx.TxPayPrune? && v.pays[id].created == env.ts && id !in v.prunedPays && v.pays[id].merchant in w.balances
  {
    hide Inv, PlanOf, PlanOk, Commit, Step, Only, QueryAnswered, KindsOf, MarkTime, SeqSum, NewBatch, FeeMark;
    var b, plan := PlanOfStep(h, w, env, tx);
    if tx.TxPayPrune? {
      PayPruneCounts(h, w, env, tx);
    }
    MarkKindsOnlyPrunes(b, tx);
    NewRecords(b, env, plan, KindsOf(b, tx));
    MerchantWasThere(h, w, env, tx, id);
  }

  lemma FeeArrives(h: Hasher, w: World, env: Env, tx: Tx, id: string)
    requires Inv(w) && Step(h, w, env, tx).Some?
    requires id in Step(h, w, env, tx).value.fees && id !in w.fees
    ensures var v := Step(h, w, env, tx).value;
      && !tx.TxFeePrune? && v.fees[id].created == env.ts && id !in v.prunedFees
  {
    hide Inv, PlanOf, PlanOk, Commit, Step, Only, QueryAnswered, KindsOf, MarkTime, SeqSum, NewBatch, FeeMark, Listing;
    var b, plan := PlanOfStep(h, w, env, tx);
    if tx.TxFeePrune? {
      FeePruneCounts(h, w, env, tx);
    }
    MarkKindsOnlyPrunes(b, tx);
    NewRecords(b, env, plan, KindsOf(b, tx));
  }

  // Only a pay prune moves the watermark of a merchant, only a fee prune that of a
  // token; a new account has none.
  lemma StepMarks(h: Hasher, w: World, env: Env, tx: Tx, a: Address, code: string)
    requires Inv(w) && Step(h, w, env, tx).Some?
    ensures var v := Step(h, w, env, tx).value;
      && (a in w.balances ==> a in v.balances)
      && (!tx.TxPayPrune? && a in v.balances ==> v.balances[a].mark == if a in w.balances then w.balances[a].mark else "")
      && (!tx.TxFeePrune? ==> FeeMark(v, code) == FeeMark(w, code))
  {
    hide Inv, PlanOf, PlanOk, Commit, Step, Only, QueryAnswered, KindsOf, FeeMark;
    var b, plan := PlanOfStep(h, w, env, tx);
    MarkKindsOnlyPrunes(b, tx);
    OwnersHaveBalances(b);
    SameFeeMarks(w, env);
    MarksStay(b, env, plan, KindsOf(b, tx), a, code);
  }
}
