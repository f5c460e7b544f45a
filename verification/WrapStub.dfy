/** wrap_stub.go: money leaving through the bridge, coming back, and completed wraps. */
module WrapStub {
  import opened Sums
  import opened Addresses
  import opened Amounts
  import opened Ledger
  import opened Fields
  import opened Shim
  import opened BalanceLogs
  import opened BalanceStub

  ghost function WrapPlan(env: Env, sender: Address, amount: int, extCode: string, extId: string): Plan {
    Then(PutWrap(env.txid, WrapRec(sender, amount, extCode, extId, "")),
    Then(Post(sender, WrapLog, ToId(extId), -amount, 0, env.ts), Done))
  }

  method Wrap(s: Stub, sender: BalanceDoc, amount: int, extCode: string, extId: string) returns (ok: bool)
    requires sender.Mirrors(s.next) && s.Unlogged(sender.id)
    modifies s, sender.amount
    ensures Commit(old(s.next), WrapPlan(s.env, sender.id, amount, extCode, extId)) == if ok then Some(s.next) else None
  {
    hide Apply;
    ghost var w, plan := s.next, WrapPlan(s.env, sender.id, amount, extCode, extId);
    s.PutWrap(s.env.txid, WrapRec(sender.id, amount, extCode, extId, ""));
    PutWrapFields(w, plan.head);
    var minus := new Amount(amount);
    minus.Neg();
    sender.amount.Add(minus);
    ok := Save(s, sender, plan.tail.head, NewBalanceWrapLog(sender.amount.v, minus.v, extId));
    if ok {
      CommitLast(Apply(w, plan.head), plan.tail.head);
    }
  }

  ghost function CompletePlan(env: Env, wrapId: string, amount: int, wrapper: Address, fee: int, completeTx: string): Plan {
    Then(CloseWrap(wrapId, completeTx, wrapper), CreditPlan(env, wrapId, amount, wrapper, fee))
  }

  ghost function CreditPlan(env: Env, wrapId: string, amount: int, wrapper: Address, fee: int): Plan {
    Then(Post(wrapper, WrapCompleteLog, ToId(wrapId), amount, fee, env.ts), Rules.CreateFee(env, wrapper, fee, WrapFee, Done))
  }

  // An empty external transaction id means that the wrap was impossible.
  method WrapComplete(s: Stub, wrapId: string, wrap: WrapRec, wBal: BalanceDoc, fee: int, extTxId: string) returns (ok: bool)
    requires wrapId in s.next.wraps && s.next.wraps[wrapId] == wrap && wBal.Mirrors(s.next) && s.Unlogged(wBal.id)
    modifies s, wBal.amount
    ensures wrap.completeTx != "" || wrap.amount - fee <= 0 ==> !ok
    ensures wrap.completeTx == "" && wrap.amount - fee > 0 ==>
      Commit(old(s.next), CompletePlan(s.env, wrapId, wrap.amount, wBal.id, fee, if extTxId != "" then extTxId else wrapId))
      == if ok then Some(s.next) else None
  {
    hide Apply, Commit, CreditPlan;
    if wrap.completeTx != "" {
      return false;
    }
    var diff := new Amount(wrap.amount);
    var charge := new Amount(fee);
    charge.Neg();
    diff.Add(charge);
    if diff.v <= 0 {
      return false;
    }
    var completeTx := if extTxId != "" then extTxId else wrapId;
    CompleteWrap(s, wrapId, wrap, completeTx, wBal.id);
    MoneyUntouched(old(s.next), CloseWrap(wrapId, completeTx, wBal.id));
    CommitStep(old(s.next), CloseWrap(wrapId, completeTx, wBal.id), CreditPlan(s.env, wrapId, wrap.amount, wBal.id, fee));
    ok := CreditWrapper(s, wrapId, wrap, wBal, diff, fee);
  }

  // The wrap account gets the amount less the fee, and the fee becomes a record.
  method CreditWrapper(s: Stub, wrapId: string, wrap: WrapRec, wBal: BalanceDoc, diff: Amount, fee: int) returns (ok: bool)
    requires wBal.Mirrors(s.next) && s.Unlogged(wBal.id) && diff.v == wrap.amount - fee
    modifies s, wBal.amount
    ensures Commit(old(s.next), CreditPlan(s.env, wrapId, wrap.amount, wBal.id, fee)) == if ok then Some(s.next) else None
  {
    hide Apply, Commit;
    ghost var w, plan := s.next, CreditPlan(s.env, wrapId, wrap.amount, wBal.id, fee);
    wBal.amount.Add(diff);
    ok := Save(s, wBal, plan.head, NewBalanceWrapCompleteLog(wBal.amount.v, wrapId, wrap.amount, fee));
    CommitStep(w, plan.head, plan.tail);
    if ok {
      CommitFee(s.next, s.env, wBal.id, fee, WrapFee);
      BalanceStub.CreateFee(s, wBal.id, fee, WrapFee);
    }
  }

  // The stored wrap names the transaction that completed it; where the money went is history.
  method CompleteWrap(s: Stub, wrapId: string, wrap: WrapRec, completeTx: string, wrapper: Address)
    requires wrapId in s.next.wraps && s.next.wraps[wrapId] == wrap
    modifies s
    ensures s.next == Apply(old(s.next), CloseWrap(wrapId, completeTx, wrapper))
  {
    CloseWrapFields(s.next, CloseWrap(wrapId, completeTx, wrapper));
    hide Apply;
    s.PutWrap(wrapId, wrap.(completeTx := completeTx));
    s.next := s.next.(completed := s.next.completed[wrapId := wrapper]);
  }

  ghost function UnwrapPlan(env: Env, wrapper: Address, receiver: Address, amount: int, extId: string): Plan {
    Then(Post(receiver, UnwrapLog, ToId(extId), amount, 0, env.ts),
    Then(Post(wrapper, UnwrapCompleteLog, ToAccount(receiver), -amount, 0, env.ts), Done))
  }

  method Unwrap(s: Stub, wrapper: BalanceDoc, receiver: BalanceDoc, amount: int, extId: string) returns (ok: bool)
    requires wrapper.id != receiver.id && wrapper.amount != receiver.amount
    requires wrapper.Mirrors(s.next) && receiver.Mirrors(s.next) && s.Unlogged(wrapper.id) && s.Unlogged(receiver.id)
    modifies s, wrapper.amount, receiver.amount
    ensures Commit(old(s.next), UnwrapPlan(s.env, wrapper.id, receiver.id, amount, extId)) == if ok then Some(s.next) else None
  {
    hide Apply;
    ghost var w, plan := s.next, UnwrapPlan(s.env, wrapper.id, receiver.id, amount, extId);
    var x := new Amount(amount);
    receiver.amount.Add(x);
    ok := Save(s, receiver, plan.head, NewBalanceUnwrapLog(receiver.amount.v, amount, extId));
    if !ok {
      return;
    }
    Elsewhere(w, s, plan.head, wrapper.id);
    x.Neg();
    wrapper.amount.Add(x);
    ok := Save(s, wrapper, plan.tail.head, NewBalanceUnwrapCompleteLog(wrapper.amount.v, receiver.id, x.v));
    if ok {
      CommitLast(Apply(w, plan.head), plan.tail.head);
    }
  }

  // Only a log entry over nothing.
  method UnwrapImpossible(s: Stub, wrapper: BalanceDoc) returns (ok: bool)
    requires wrapper.Mirrors(s.next) && s.Unlogged(wrapper.id)
    modifies s
    ensures Commit(old(s.next), Then(Post(wrapper.id, UnwrapCompleteLog, ToAccount(wrapper.id), 0, 0, s.env.ts), Done))
         == if ok then Some(s.next) else None
  {
    hide Apply;
    ghost var w, post := s.next, Post(wrapper.id, UnwrapCompleteLog, ToAccount(wrapper.id), 0, 0, s.env.ts);
    ok := s.PutBalanceLog(wrapper.id, NewBalanceUnwrapCompleteLog(wrapper.amount.v, wrapper.id, 0));
    if ok {
      PostFields(w, post);
      assert w.balances[wrapper.id := w.balances[wrapper.id]] == w.balances;
      CommitLast(w, post);
    }
  }

  // The whole pending amount becomes an open wrap.
  method WrapPendingBalance(s: Stub, pid: string, pb: Pending, sender: Address, extCode: string, extId: string)
    modifies s
    ensures Commit(old(s.next), Then(PutWrap(s.env.txid, WrapRec(sender, pb.amount, extCode, extId, "")), Then(DropPending(pid), Done)))
         == Some(s.next)
  {
    hide Apply;
    var wrap := WrapRec(sender, pb.amount, extCode, extId, "");
    PutWrapFields(s.next, PutWrap(s.env.txid, wrap));
    s.PutWrap(s.env.txid, wrap);
    CommitLast(s.next, DropPending(pid));
    s.DeletePending(pid);
  }
}
