/**
  Exactly when a refund, a completion of a wrap, and an unwrap go through. None of
  them looks at whose token an account is of, and a refund not at what the merchant has.
 */
module Successes {
  import opened Sums
  import opened Addresses
  import opened FeeFormulas
  import opened Ledger
  import opened Fields
  import opened Rules
  import opened Invariants
  import opened Steps

  // An admissible transaction is its plan, committed on the state with its id used.
  lemma StepIs(h: Hasher, w: World, env: Env, tx: Tx)
    requires Admissible(w, env, tx)
    ensures PlanOf(h, Begin(w, env), env, tx).None? ==> Step(h, w, env, tx).None?
    ensures PlanOf(h, Begin(w, env), env, tx).Some? ==>
      Step(h, w, env, tx) == Commit(Begin(w, env), PlanOf(h, Begin(w, env), env, tx).value)
  {
    hide PlanOf, Commit, Admissible;
  }

  lemma RecordThenPost(w: World, e: Effect, post: Effect, rest: Plan)
    requires !e.Post? && !e.OpenAccount? && !e.MarkPays? && post.Post? && post.a in w.balances
    ensures Commit(w, Then(e, Then(post, rest))) ==
      if (post.a, post.ts) in w.logs then None else Commit(Apply(Apply(w, e), post), rest)
  {
    MoneyUntouched(w, e);
    hide Apply, Commit;
    CommitStep(w, e, Then(post, rest));
    CommitStep(Apply(w, e), post, rest);
  }

  lemma FeeCommits(w: World, env: Env, a: Address, fee: int, cause: FeeCause)
    ensures Commit(w, CreateFee(env, a, fee, cause, Done)).Some?
  {
    CommitLast(w, NewFee(env, a, fee, cause));
    CommitNothing(w);
  }

  // Nothing here depends on the merchant's balance.
  ghost predicate MayRefund(w: World, env: Env, payId: string, amount: int) {
    && amount > 0 && payId in w.pays
    && var p := w.pays[payId];
       && p.payer.code == p.merchant.code && p.payer != p.merchant && p.totalRefund + amount <= p.amount
       && Authorised(w, p.merchant, env.kid) && Active(w, p.merchant) && Active(w, p.payer)
       && (p.payer, env.ts) !in w.logs
  }

  lemma RefundSucceedsIff(h: Hasher, w: World, env: Env, payId: string, amount: int)
    requires Inv(w) && Admissible(w, env, TxRefund(payId, amount))
    ensures Step(h, w, env, TxRefund(payId, amount)).Some? <==> MayRefund(w, env, payId, amount)
  {
    hide *;
    OwnersHaveBalances(w);
    if payId in w.pays {
      AmountNotZero(w, payId);
    }
    var b := Begin(w, env);
    StepIs(h, w, env, TxRefund(payId, amount));
    RefundPlanOf(h, b, env, payId, amount);
    BeginFields(w, env);
    RefundCommitsIff(b, env, payId, amount);
    RefundFromBegin(w, env, payId, amount);
  }

  lemma BeginFields(w: World, env: Env)
    ensures Begin(w, env).accounts == w.accounts && Begin(w, env).balances == w.balances && Begin(w, env).pays == w.pays
  {
  }

  lemma RefundPlanOf(h: Hasher, b: World, env: Env, payId: string, amount: int)
    ensures PlanOf(h, b, env, TxRefund(payId, amount)) == Refund(b, env, payId, amount)
  {
    hide Refund;
  }

  lemma RefundFromBegin(w: World, env: Env, payId: string, amount: int)
    ensures MayRefund(Begin(w, env), env, payId, amount) == MayRefund(w, env, payId, amount)
  {
    hide HexEncode;
  }

  lemma RefundCommitsIff(b: World, env: Env, payId: string, amount: int)
    requires b.accounts.Keys == b.balances.Keys && (payId in b.pays ==> b.pays[payId].amount != 0)
    ensures MayRefund(b, env, payId, amount) <==>
      Refund(b, env, payId, amount).Some? && Commit(b, Refund(b, env, payId, amount).value).Some?
  {
    RefundPlanIff(b, env, payId, amount);
    hide Commit, Apply, RefundFee, MayRefund;
    if Refund(b, env, payId, amount).Some? {
      var plan := Refund(b, env, payId, amount).value;
      RecordThenPost(b, plan.head, plan.tail.head, Done);
      CommitNothing(Apply(Apply(b, plan.head), plan.tail.head));
    }
  }

  lemma RefundPlanIff(b: World, env: Env, payId: string, amount: int)
    requires b.accounts.Keys == b.balances.Keys && (payId in b.pays ==> b.pays[payId].amount != 0)
    ensures MayRefund(b, env, payId, amount) <==>
      Refund(b, env, payId, amount).Some? && (b.pays[payId].payer, env.ts) !in b.logs
  {
    hide RefundFee, HexEncode;
  }

  lemma AmountNotZero(w: World, id: string)
    requires Inv(w) && id in w.pays
    ensures w.pays[id].amount != 0
  {
    hide LogsOk, PayMarksOk, FeeMarksOk, ShortfallOk, HoldersOk, RefundsOk;
    assert PayOk(w.used, w.balances, id, w.pays[id]);
  }

  // The token of the wrap account does not matter.
  ghost predicate MayComplete(w: World, env: Env, wrapId: string, fee: int, extTx: Option<string>) {
    && fee >= 0 && (extTx.Some? ==> NormalizeExtTxID(extTx.value).Some?)
    && wrapId in w.wraps && w.wraps[wrapId].completeTx == ""
    && var wrap := w.wraps[wrapId];
       && wrap.amount > (if extTx.Some? then fee else 0)
       && WrapAddress(w, wrap.address.code, wrap.extCode).Some?
       && var wrapper := WrapAddress(w, wrap.address.code, wrap.extCode).value;
          Authorised(w, wrapper, env.kid) && Active(w, wrapper) && (wrapper, env.ts) !in w.logs
  }

  lemma WrapCompleteSucceedsIff(h: Hasher, w: World, env: Env, wrapId: string, fee: int, extTx: Option<string>)
    requires Inv(w) && Admissible(w, env, TxWrapComplete(wrapId, fee, extTx))
    ensures Step(h, w, env, TxWrapComplete(wrapId, fee, extTx)).Some? <==> MayComplete(w, env, wrapId, fee, extTx)
  {
    hide Inv, Commit, Step, PlanOf, Admissible, MayComplete, WrapComplete;
    OwnersHaveBalances(w);
    var b := Begin(w, env);
    StepIs(h, w, env, TxWrapComplete(wrapId, fee, extTx));
    assert PlanOf(h, b, env, TxWrapComplete(wrapId, fee, extTx)) == WrapComplete(b, env, wrapId, fee, extTx) by {
      CompletePlanOf(h, b, env, wrapId, fee, extTx);
    }
    CompleteCommitsIff(b, env, wrapId, fee, extTx);
    assert MayComplete(b, env, wrapId, fee, extTx) == MayComplete(w, env, wrapId, fee, extTx) by {
      CompleteFromBegin(w, env, wrapId, fee, extTx);
    }
  }

  lemma CompletePlanOf(h: Hasher, b: World, env: Env, wrapId: string, fee: int, extTx: Option<string>)
    ensures PlanOf(h, b, env, TxWrapComplete(wrapId, fee, extTx)) == WrapComplete(b, env, wrapId, fee, extTx)
  {
    hide WrapComplete;
  }

  lemma CompleteFromBegin(w: World, env: Env, wrapId: string, fee: int, extTx: Option<string>)
    ensures MayComplete(Begin(w, env), env, wrapId, fee, extTx) == MayComplete(w, env, wrapId, fee, extTx)
  {
    hide HexEncode, NormalizeExtTxID;
  }

  lemma CompleteCommitsIff(b: World, env: Env, wrapId: string, fee: int, extTx: Option<string>)
    requires b.accounts.Keys == b.balances.Keys
    ensures MayComplete(b, env, wrapId, fee, extTx) <==>
      WrapComplete(b, env, wrapId, fee, extTx).Some? && Commit(b, WrapComplete(b, env, wrapId, fee, extTx).value).Some?
  {
    hide Commit, Apply, NormalizeExtTxID, HexEncode, CreateFee;
    if WrapComplete(b, env, wrapId, fee, extTx).Some? {
      var plan := WrapComplete(b, env, wrapId, fee, extTx).value;
      var post := plan.tail.head;
      RecordThenPost(b, plan.head, post, plan.tail.tail);
      FeeCommits(Apply(Apply(b, plan.head), post), env, post.a, post.logFee, WrapFee);
    }
  }

  ghost predicate MayUnwrap(w: World, env: Env, tx: Tx)
    requires tx.TxUnwrap?
  {
    var code := if tx.to.Some? then tx.to.value.code else tx.code;
    && tx.amount > 0 && NormalizeExtTxID(tx.burnTx).Some? && NormalizeExtTxID(tx.burnTx).value !in w.unwraps
    && WrapAddress(w, code, tx.extCode).Some?
    && var wrapper := WrapAddress(w, code, tx.extCode).value;
       var receiver := if tx.to.Some? then tx.to.value else wrapper;
       && Authorised(w, wrapper, env.kid) && Active(w, wrapper) && Active(w, receiver)
       && (wrapper, env.ts) !in w.logs && (receiver, env.ts) !in w.logs
       && (receiver != wrapper ==> wrapper in w.balances && w.balances[wrapper].amount >= tx.amount)
  }

  lemma UnwrapSucceedsIff(h: Hasher, w: World, env: Env, tx: Tx)
    requires Inv(w) && tx.TxUnwrap? && Admissible(w, env, tx)
    ensures Step(h, w, env, tx).Some? <==> MayUnwrap(w, env, tx)
  {
    hide Inv, Commit, Step, PlanOf, Admissible, MayUnwrap, Unwrap;
    OwnersHaveBalances(w);
    var b := Begin(w, env);
    StepIs(h, w, env, tx);
    UnwrapPlanOf(h, b, env, tx);
    UnwrapCommitsIff(b, env, tx);
    assert MayUnwrap(b, env, tx) == MayUnwrap(w, env, tx) by { UnwrapFromBegin(w, env, tx); }
  }

  lemma UnwrapFromBegin(w: World, env: Env, tx: Tx)
    requires tx.TxUnwrap?
    ensures MayUnwrap(Begin(w, env), env, tx) == MayUnwrap(w, env, tx)
  {
    hide HexEncode, NormalizeExtTxID;
  }

  lemma UnwrapCommitsIff(b: World, env: Env, tx: Tx)
    requires b.accounts.Keys == b.balances.Keys && tx.TxUnwrap?
    ensures var p := Unwrap(b, env, tx.code, tx.to, tx.extCode, tx.extId, tx.burnTx, tx.amount);
      MayUnwrap(b, env, tx) <==> p.Some? && Commit(b, p.value).Some?
  {
    hide Commit, Apply, NormalizeExtTxID, HexEncode;
    var p := Unwrap(b, env, tx.code, tx.to, tx.extCode, tx.extId, tx.burnTx, tx.amount);
    if p.Some? {
      var plan := p.value;
      var post := plan.tail.head;
      RecordThenPost(b, plan.head, post, plan.tail.tail);
      var w2 := Apply(Apply(b, plan.head), post);
      if plan.tail.tail == Done {
        CommitNothing(w2);
      } else {
        var debit := plan.tail.tail.head;
        MoneyUntouched(b, plan.head);
        PostElsewhere(Apply(b, plan.head), post, debit);
        CommitLast(w2, debit);
      }
    }
  }

  lemma UnwrapPlanOf(h: Hasher, b: World, env: Env, tx: Tx)
    requires tx.TxUnwrap?
    ensures PlanOf(h, b, env, tx) == Unwrap(b, env, tx.code, tx.to, tx.extCode, tx.extId, tx.burnTx, tx.amount)
  {
    hide Unwrap;
  }

  lemma PostElsewhere(w: World, post: Effect, e: Effect)
    requires post.Post? && e.Post? && post.a != e.a
    ensures Accepted(Apply(w, post), e) <==> Accepted(w, e)
  {
  }
}
