/** What each kind of effect changes, one collection at a time, and how plans commit. */
module Fields {
  import opened Sums
  import opened Pruning
  import opened Ledger

  lemma CommitThen(w: World, e: Effect, rest: Plan)
    requires Commit(w, Then(e, rest)).Some?
    ensures Accepted(w, e) && Commit(w, Then(e, rest)) == Commit(Apply(w, e), rest)
  {
    hide Apply;
  }

  lemma CommitStep(w: World, e: Effect, rest: Plan)
    ensures Commit(w, Then(e, rest)) == if Accepted(w, e) then Commit(Apply(w, e), rest) else None
  {
    hide Apply;
  }

  lemma CommitLast(w: World, e: Effect)
    ensures Commit(w, Then(e, Done)) == if Accepted(w, e) then Some(Apply(w, e)) else None
  {
    hide Apply;
    assert Commit(Apply(w, e), Done) == Some(Apply(w, e));
  }

  lemma CommitNothing(w: World)
    ensures Commit(w, Done) == Some(w)
  {
  }

  // Only postings, openings and pay watermarks touch balances; only postings write logs.
  lemma MoneyUntouched(w: World, e: Effect)
    requires !e.Post? && !e.OpenAccount? && !e.MarkPays?
    ensures Apply(w, e).balances == w.balances && Apply(w, e).logs == w.logs
  {
  }

  lemma PostFields(w: World, e: Effect)
    requires e.Post? && Accepted(w, e)
    ensures var b := w.balances[e.a].(amount := w.balances[e.a].amount + e.diff - e.logFee);
      Apply(w, e) == w.(balances := w.balances[e.a := b],
                        logs := w.logs[(e.a, e.ts) := Log(e.kind, e.rid, e.diff, e.logFee, b.amount)],
                        journal := w.journal + [(e.a, e.ts)])
  {
  }

  lemma MarkPaysFields(w: World, e: Effect)
    requires e.MarkPays? && e.a in w.balances && e.ids != []
    ensures Apply(w, e) == w.(balances := w.balances[e.a := w.balances[e.a].(mark := Last(e.ids))],
                              prunedPays := w.prunedPays + Elements(e.ids))
  {
  }

  lemma MarkFeesFields(w: World, e: Effect)
    requires e.MarkFees? && e.ids != []
    ensures Apply(w, e) == w.(feeMarks := w.feeMarks[e.code := Last(e.ids)],
                              prunedFees := w.prunedFees + (map id | id in Elements(e.ids) :: e.a))
  {
  }

  lemma PutTokenFields(w: World, e: Effect)
    requires e.PutToken?
    ensures Apply(w, e) == w.(tokens := w.tokens[e.code := e.token])
  {
  }

  lemma PutFeeFields(w: World, e: Effect)
    requires e.PutFee?
    ensures Apply(w, e) == w.(fees := w.fees[e.id := e.fee])
  {
  }

  lemma PutPayFields(w: World, e: Effect)
    requires e.PutPay?
    ensures Apply(w, e) == w.(pays := w.pays[e.id := e.pay])
  {
  }

  lemma PutRefundFields(w: World, e: Effect)
    requires e.PutRefund?
    ensures Apply(w, e) == w.(pays := WithRefund(w.pays, e.id, e.pay))
  {
  }

  lemma PutPendingFields(w: World, e: Effect)
    requires e.PutPending?
    ensures Apply(w, e) == w.(pendings := w.pendings[e.pid := e.p])
  {
  }

  lemma DropPendingFields(w: World, e: Effect)
    requires e.DropPending?
    ensures Apply(w, e) == w.(pendings := w.pendings - {e.pid})
  {
  }

  lemma PutWrapFields(w: World, e: Effect)
    requires e.PutWrap?
    ensures Apply(w, e) == w.(wraps := w.wraps[e.id := e.wrap])
  {
  }

  lemma CloseWrapFields(w: World, e: Effect)
    requires e.CloseWrap? && e.id in w.wraps
    ensures Apply(w, e) == w.(wraps := w.wraps[e.id := w.wraps[e.id].(completeTx := e.completeTx)], completed := w.completed[e.id := e.a])
  {
  }

  lemma PutUnwrapFields(w: World, e: Effect)
    requires e.PutUnwrap?
    ensures Apply(w, e) == w.(unwraps := w.unwraps[e.ext := e.unwrap])
  {
  }

  lemma PutContractFields(w: World, e: Effect)
    requires e.PutContract?
    ensures Apply(w, e) == w.(contracts := w.contracts[e.cid := e.doc])
  {
  }

  lemma OpenAccountFields(w: World, e: Effect)
    requires e.OpenAccount?
    ensures Apply(w, e) == w.(accounts := w.accounts[e.a := e.acc], balances := w.balances[e.a := Balance(0, "")],
                              holders := w.holders + set k | k in e.kids :: (k, e.a))
  {
  }

  lemma SetSuspendedFields(w: World, e: Effect)
    requires e.SetSuspended? && e.a in w.accounts
    ensures Apply(w, e) == w.(accounts := w.accounts[e.a := w.accounts[e.a].(suspended := e.suspended)])
  {
  }

  lemma AddHolderFields(w: World, e: Effect)
    requires e.AddHolder? && e.a in w.accounts
    ensures Apply(w, e) == w.(accounts := w.accounts[e.a := w.accounts[e.a].(holders := w.accounts[e.a].holders + {e.kid})],
                              holders := w.holders + {(e.kid, e.a)})
  {
  }

  lemma DropHolderFields(w: World, e: Effect)
    requires e.DropHolder? && e.a in w.accounts
    ensures Apply(w, e) == w.(accounts := w.accounts[e.a := w.accounts[e.a].(holders := w.accounts[e.a].holders - {e.kid})],
                              holders := w.holders - {(e.kid, e.a)})
  {
  }
}
