/** balance.go: the log entries and pending balances, each from what it is about. */
module BalanceLogs {
  import opened Sums
  import opened Addresses
  import opened Ledger

  function NewBalanceSupplyLog(balance: int, diff: int): Log {
    Log(if diff < 0 then BurnLog else MintLog, NoRef, diff, 0, balance)
  }

  // The sender's entry is the one with a negative difference; only it shows a fee.
  function NewBalanceTransferLog(sender: Address, sent: int, receiver: Address, received: int, diff: int, fee: int): Log {
    if diff < 0 then Log(SendLog, ToAccount(receiver), diff, fee, sent)
    else Log(ReceiveLog, ToAccount(sender), diff, 0, received)
  }

  function NewBalanceDepositLog(balance: int, pb: Pending): Log {
    Log(DepositLog, pb.rid, -pb.amount, FeePart(pb.fee), balance)
  }

  function NewBalanceWithdrawLog(balance: int, pb: Pending): Log {
    Log(WithdrawLog, pb.rid, pb.amount + FeePart(pb.fee), 0, balance)
  }

  function NewBalancePayLog(balance: int, pay: PayRec): Log {
    Log(PayLog, ToAccount(pay.merchant), -pay.amount, 0, balance)
  }

  function NewBalanceRefundLog(balance: int, pay: PayRec): Log {
    Log(RefundLog, ToAccount(pay.merchant), -pay.amount, 0, balance)
  }

  function NewBalancePrunePayLog(balance: int, amount: int): Log {
    Log(PrunePayLog, NoRef, amount, 0, balance)
  }

  function NewBalancePruneFeeLog(balance: int, amount: int): Log {
    Log(PruneFeeLog, NoRef, amount, 0, balance)
  }

  function NewBalanceWrapLog(balance: int, diff: int, extId: string): Log {
    Log(WrapLog, ToId(extId), diff, 0, balance)
  }

  function NewBalanceUnwrapLog(balance: int, diff: int, extId: string): Log {
    Log(UnwrapLog, ToId(extId), diff, 0, balance)
  }

  function NewBalanceWrapCompleteLog(balance: int, wrapId: string, amount: int, fee: int): Log {
    Log(WrapCompleteLog, ToId(wrapId), amount, fee, balance)
  }

  function NewBalanceUnwrapCompleteLog(balance: int, receiver: Address, diff: int): Log {
    Log(UnwrapCompleteLog, ToAccount(receiver), diff, 0, balance)
  }

  // A pending balance related to a contract is held by it, any other by its owner.
  function NewPendingBalance(owner: Address, rel: Ref, amount: int, fee: Option<int>, pendingTime: int): Pending {
    Pending(if rel.ToId? then ContractHeld else AccountHeld, owner, rel, amount, fee, pendingTime)
  }
}

/** balance_stub.go: money between balances and pending balances. */
module BalanceStub {
  import opened Sums
  import opened Addresses
  import opened Amounts
  import opened Ledger
  import opened Fields
  import opened Rules
  import opened Shim
  import opened BalanceLogs

  // The end of every balance change: the document and its log entry are written, or
  // the log key is taken and the transaction will fail.
  method Save(s: Stub, bal: BalanceDoc, ghost post: Effect, log: Log) returns (ok: bool)
    requires post.Post? && post.a == bal.id && post.ts == s.env.ts && s.Unlogged(bal.id) && bal.id in s.next.balances
    requires s.next.balances[bal.id].mark == bal.mark
    requires bal.amount.v == s.next.balances[bal.id].amount + post.diff - post.logFee
    requires log == Log(post.kind, post.rid, post.diff, post.logFee, bal.amount.v)
    modifies s
    ensures ok <==> Accepted(old(s.next), post)
    ensures ok ==> s.next == Apply(old(s.next), post)
  {
    hide Apply;
    ghost var w := s.next;
    s.PutBalance(bal);
    ok := s.PutBalanceLog(bal.id, log);
    if ok {
      PostFields(w, post);
    }
  }

  // fee_stub.go CreateFee
  method CreateFee(s: Stub, account: Address, amount: int, cause: FeeCause)
    modifies s
    ensures s.next == if amount == 0 then old(s.next) else Apply(old(s.next), NewFee(s.env, account, amount, cause))
  {
    if amount != 0 {
      s.PutFee(s.env.RecordId(), FeeRec(account.code, account, amount, s.env.ts, s.env.txid, cause));
    }
  }

  // Mint and burn: the amount is added whatever its sign.
  method Supply(s: Stub, bal: BalanceDoc, amount: int) returns (ok: bool)
    requires bal.Mirrors(s.next) && s.Unlogged(bal.id)
    modifies s, bal.amount
    ensures bal.amount.v == old(bal.amount.v) + amount
    ensures var post := Post(bal.id, if amount < 0 then BurnLog else MintLog, NoRef, amount, 0, s.env.ts);
      (ok <==> Accepted(old(s.next), post)) && (ok ==> s.next == Apply(old(s.next), post))
  {
    var x := new Amount(amount);
    bal.amount.Add(x);
    ok := Save(s, bal, Post(bal.id, if amount < 0 then BurnLog else MintLog, NoRef, amount, 0, s.env.ts), NewBalanceSupplyLog(bal.amount.v, amount));
  }

  // The credit or time lock of a transfer.
  method Deliver(s: Stub, sender: BalanceDoc, receiver: BalanceDoc, amount: int, pendingTime: Option<int>, ghost rest: Plan) returns (ok: bool)
    requires amount > 0 && receiver.Mirrors(s.next) && s.Unlogged(receiver.id)
    requires sender != receiver && sender.amount != receiver.amount
    modifies s, receiver.amount
    ensures var e := Receive(s.env, sender.id, receiver.id, amount, pendingTime, rest).head;
      (ok <==> Accepted(old(s.next), e)) && (ok ==> s.next == Apply(old(s.next), e))
  {
    if pendingTime.Some? && pendingTime.value > s.env.ts {
      s.PutPending(s.env.txid, NewPendingBalance(receiver.id, ToAccount(sender.id), amount, None, pendingTime.value));
      ok := true;
    } else {
      var x := new Amount(amount);
      receiver.amount.Add(x);
      ok := Save(s, receiver, Post(receiver.id, ReceiveLog, ToAccount(sender.id), amount, 0, s.env.ts),
                 NewBalanceTransferLog(sender.id, sender.amount.v, receiver.id, receiver.amount.v, amount, 0));
    }
  }

  lemma Elsewhere(w: World, s: Stub, e: Effect, a: Address)
    requires Accepted(w, e) && (e.Post? ==> e.a != a && e.ts == s.env.ts) && !e.MarkPays? && !e.OpenAccount?
    ensures a in w.balances ==> a in Apply(w, e).balances && Apply(w, e).balances[a] == w.balances[a]
    ensures (a, s.env.ts) in Apply(w, e).logs <==> (a, s.env.ts) in w.logs
  {
  }

  method Transfer(s: Stub, sender: BalanceDoc, receiver: BalanceDoc, amount: int, fee: int, pendingTime: Option<int>) returns (ok: bool)
    requires amount > 0 && sender.id != receiver.id && sender.amount != receiver.amount
    requires sender.Mirrors(s.next) && receiver.Mirrors(s.next) && s.Unlogged(sender.id) && s.Unlogged(receiver.id)
    modifies s, sender.amount, receiver.amount
    ensures Commit(old(s.next), Send(s.env, sender.id, receiver.id, amount, fee, pendingTime)) == if ok then Some(s.next) else None
  {
    hide Apply;
    ghost var plan := Send(s.env, sender.id, receiver.id, amount, fee, pendingTime);
    ghost var w := s.next;
    ok := Deliver(s, sender, receiver, amount, pendingTime, plan.tail);
    if !ok {
      return;
    }
    ghost var w1 := s.next;
    Elsewhere(w, s, plan.head, sender.id);
    var minus := new Amount(amount);
    minus.Neg();
    sender.amount.Add(minus);
    var charge := new Amount(fee);
    charge.Neg();
    sender.amount.Add(charge);
    ok := Save(s, sender, plan.tail.head,
               NewBalanceTransferLog(sender.id, sender.amount.v, receiver.id, receiver.amount.v, minus.v, fee));
    if ok {
      ghost var w2 := s.next;
      CreateFee(s, sender.id, fee, TransferFee);
      CommitFee(w2, s.env, sender.id, fee, TransferFee);
    }
  }

  lemma CommitFee(w: World, env: Env, a: Address, fee: int, cause: FeeCause)
    ensures Commit(w, Rules.CreateFee(env, a, fee, cause, Done)) == Some(if fee == 0 then w else Apply(w, NewFee(env, a, fee, cause)))
  {
    CommitLast(w, NewFee(env, a, fee, cause));
    CommitNothing(w);
  }

  // The multi-signature transfer: out of a pending balance instead of a balance.
  method TransferPendingBalance(s: Stub, pid: string, pb: Pending, sender: BalanceDoc, receiver: BalanceDoc, pendingTime: Option<int>) returns (ok: bool)
    requires pb.amount > 0 && receiver.Mirrors(s.next) && s.Unlogged(receiver.id)
    requires sender != receiver && sender.amount != receiver.amount
    modifies s, receiver.amount
    ensures Commit(old(s.next), SendPending(s.env, pid, pb, sender.id, receiver.id, pendingTime)) == if ok then Some(s.next) else None
  {
    hide Apply;
    ghost var plan := SendPending(s.env, pid, pb, sender.id, receiver.id, pendingTime);
    ok := Deliver(s, sender, receiver, pb.amount, pendingTime, plan.tail);
    if !ok {
      return;
    }
    ghost var w1 := s.next;
    if pb.fee.Some? {
      CreateFee(s, pb.account, pb.fee.value, TransferFee);
    }
    CommitLast(s.next, DropPending(pid));
    s.DeletePending(pid);
  }

  // Money of the sender goes into the hands of a contract.
  method Deposit(s: Stub, pid: string, sender: BalanceDoc, con: Con, amount: int, fee: Option<int>) returns (ok: bool)
    requires pid == s.env.txid && sender.Mirrors(s.next) && s.Unlogged(sender.id)
    modifies s, sender.amount
    ensures Commit(old(s.next), Escrow(s.env, sender.id, con.cid, con.expiry, amount, fee)) == if ok then Some(s.next) else None
  {
    hide Apply;
    ghost var plan := Escrow(s.env, sender.id, con.cid, con.expiry, amount, fee);
    ghost var w := s.next;
    var pb := NewPendingBalance(sender.id, ToId(con.cid), amount, fee, con.expiry);
    s.PutPending(pid, pb);
    Elsewhere(w, s, plan.head, sender.id);
    var applied := new Amount(amount);
    if fee.Some? {
      var f := new Amount(fee.value);
      applied.Add(f);
    }
    applied.Neg();
    sender.amount.Add(applied);
    ok := Save(s, sender, plan.tail.head, NewBalanceDepositLog(sender.amount.v, pb));
    if ok {
      CommitLast(Apply(w, plan.head), plan.tail.head);
    }
  }

  // The whole worth goes back to the account, and the pending balance is gone.
  method Withdraw(s: Stub, pid: string, pb: Pending) returns (ok: bool)
    requires s.next == s.state
    modifies s
    ensures pb.account !in s.state.balances ==> !ok
    ensures pb.account in s.state.balances ==>
      Commit(old(s.next), Rules.Withdraw(s.env, pid, pb)) == if ok then Some(s.next) else None
  {
    hide Apply;
    ghost var plan := Rules.Withdraw(s.env, pid, pb);
    var bal := s.GetBalance(pb.account);
    if bal == null {
      return false;
    }
    var applied := new Amount(pb.amount);
    if pb.fee.Some? {
      var f := new Amount(pb.fee.value);
      applied.Add(f);
    }
    bal.amount.Add(applied);
    ok := Save(s, bal, plan.head, NewBalanceWithdrawLog(bal.amount.v, pb));
    if ok {
      CommitLast(s.next, DropPending(pid));
      s.DeletePending(pid);
    }
  }
}
