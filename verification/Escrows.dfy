/**
  A multi-signature transaction in two halves: the money goes into the hands of a
  contract, and comes out again. Cancelling undoes it; executing a transfer has the
  same effect on balances and time locks as an instant one, under the lock its order
  id spells, which need not be the one that was asked for.
 */
module Escrows {
  import opened Sums
  import opened Addresses
  import opened RecordIds
  import opened Ledger
  import opened Fields
  import opened Rules
  import opened Invariants
  import opened Steps
  import opened Successes
  import opened Shapes
  import opened History
  import opened Settlement

  predicate Spends(tx: Tx) {
    tx.TxTransfer? || tx.TxPay? || tx.TxWrap?
  }

  // The document a proposal registers, and the fee deposited with it.
  ghost function DocOf(env: Env, tx: Tx): Doc
    requires Spends(tx)
  {
    match tx
    case TxTransfer(sender, receiver, _, _, orderId, _, _) => DocTransfer(env.txid, sender, receiver, orderId)
    case TxPay(sender, receiver, _, _) => DocPay(env.txid, sender, receiver)
    case TxWrap(sender, extCode, extId, _, _, _) => DocWrap(env.txid, sender, extCode, extId)
  }

  ghost function DepositedFee(w: World, tx: Tx): Option<int>
    requires Spends(tx)
  {
    if tx.TxTransfer? then CalcFee(w, tx.sender, "transfer", tx.amount) else None
  }

  lemma ProposalIsDeposit(h: Hasher, b: World, env: Env, tx: Tx)
    requires Spends(tx) && PlanOf(h, b, env, tx).Some? && PlanOf(h, b, env, tx).value.head.PutContract?
    ensures PlanOf(h, b, env, tx).value == Deposit(env, tx.sender, tx.con, DocOf(env, tx), tx.amount, DepositedFee(b, tx))
    ensures tx.sender in b.balances
  {
    hide CalcFee, Gather;
  }

  // A direct transfer, pay or wrap registers no contract.
  lemma {:induction false} NoContract(w: World, plan: Plan, env: Env, kinds: set<Kind>)
    requires Only(plan, env, kinds) && KPutContract !in kinds && Commit(w, plan).Some?
    ensures Commit(w, plan).value.contracts == w.contracts
    decreases plan
  {
    if plan.Then? {
      NoContract(Apply(w, plan.head), plan.tail, env, kinds);
    }
  }

  lemma DirectHasNoContract(h: Hasher, b: World, env: Env, tx: Tx)
    requires Spends(tx) && PlanOf(h, b, env, tx).Some? && !PlanOf(h, b, env, tx).value.head.PutContract?
    requires Commit(b, PlanOf(h, b, env, tx).value).Some?
    ensures Commit(b, PlanOf(h, b, env, tx).value).value.contracts == b.contracts
  {
    DirectShape(h, b, env, tx);
    hide PlanOf, Commit, Only;
    NoContract(b, PlanOf(h, b, env, tx).value, env, {KPutPending, KPost, KPutFee, KPutPay, KPutWrap});
  }

  // What the contract got is what the sender gave.
  ghost predicate Deposited(w: World, v: World, env: Env, tx: Tx)
    requires Spends(tx)
  {
    var p := Pending(ContractHeld, tx.sender, ToId(tx.con.cid), tx.amount, DepositedFee(w, tx), tx.con.expiry);
    && tx.sender in w.balances
    && v.balances == Credited(w.balances, tx.sender, -p.Worth())
    && v.pendings == w.pendings[env.txid := p]
    && v.contracts == w.contracts[tx.con.cid := DocOf(env, tx)]
    && v.pays == w.pays && v.fees == w.fees && v.wraps == w.wraps && v.tokens == w.tokens
    && v.prunedPays == w.prunedPays && v.prunedFees == w.prunedFees
  }

  lemma DepositResult(b: World, env: Env, tx: Tx)
    requires Spends(tx) && tx.sender in b.balances
    requires Commit(b, Deposit(env, tx.sender, tx.con, DocOf(env, tx), tx.amount, DepositedFee(b, tx))).Some?
    ensures Deposited(b, Commit(b, Deposit(env, tx.sender, tx.con, DocOf(env, tx), tx.amount, DepositedFee(b, tx))).value, env, tx)
  {
    hide Commit, Apply, CalcFee, DepositedFee, DocOf;
    var plan := Deposit(env, tx.sender, tx.con, DocOf(env, tx), tx.amount, DepositedFee(b, tx));
    CommitThen(b, plan.head, plan.tail);
    PutContractFields(b, plan.head);
    var w1 := Apply(b, plan.head);
    CommitThen(w1, plan.tail.head, plan.tail.tail);
    PutPendingFields(w1, plan.tail.head);
    var w2 := Apply(w1, plan.tail.head);
    CommitLast(w2, plan.tail.tail.head);
    PostFields(w2, plan.tail.tail.head);
  }

  // A transfer, pay or wrap registered its contract exactly when it was a deposit.
  lemma ProposalDeposits(h: Hasher, w: World, env: Env, tx: Tx)
    requires Inv(w) && Spends(tx) && Step(h, w, env, tx).Some? && tx.con.cid in Step(h, w, env, tx).value.contracts
    ensures Deposited(w, Step(h, w, env, tx).value, env, tx)
    ensures env.txid !in w.pendings && tx.con.cid !in w.contracts
  {
    NewContract(h, w, env, tx);
    hide Inv, Commit, Step, PlanOk, Only, PlanOf, CalcFee, Gather, KindsOf, Deposited;
    var b, plan := PlanOfStep(h, w, env, tx);
    if !plan.head.PutContract? {
      DirectHasNoContract(h, b, env, tx);
    }
    ProposalIsDeposit(h, b, env, tx);
    DepositResult(b, env, tx);
    DepositedFromBegin(w, Step(h, w, env, tx).value, env, tx);
  }

  lemma NewContract(h: Hasher, w: World, env: Env, tx: Tx)
    requires Spends(tx) && Step(h, w, env, tx).Some?
    ensures tx.con.cid !in w.contracts
  {
    hide PlanOf, Commit, QueryAnswered;
  }

  lemma DepositedFromBegin(w: World, v: World, env: Env, tx: Tx)
    requires Spends(tx) && Deposited(Begin(w, env), v, env, tx)
    ensures Deposited(w, v, env, tx)
  {
  }

  ghost predicate SameMoney(w: World, v: World) {
    && v.balances == w.balances && v.pendings == w.pendings && v.pays == w.pays && v.fees == w.fees && v.wraps == w.wraps
    && v.tokens == w.tokens && v.prunedPays == w.prunedPays && v.prunedFees == w.prunedFees
  }

  // What the contract callback finds.
  lemma HeldFor(v: World, w: World, env: Env, tx: Tx, next: Env, callback: Tx)
    requires Spends(tx) && Deposited(w, v, env, tx)
    requires callback == TxCancel(tx.con.cid) || (callback.TxExecute? && callback.cid == tx.con.cid)
    ensures env.txid in v.pendings && MaySettle(v, next, callback, env.txid)
    ensures v.pendings[env.txid].account == tx.sender && v.pendings[env.txid].amount == tx.amount && v.pendings[env.txid].fee == DepositedFee(w, tx)
  {
    hide DepositedFee;
  }

  // Cancelling the contract of a proposal puts every unit back where it was.
  lemma CancelUndoes(h: Hasher, w: World, env: Env, tx: Tx, next: Env)
    requires Inv(w) && Spends(tx) && Step(h, w, env, tx).Some?
    requires var v := Step(h, w, env, tx).value;
      tx.con.cid in v.contracts && Step(h, v, next, TxCancel(tx.con.cid)).Some?
    ensures SameMoney(w, Step(h, Step(h, w, env, tx).value, next, TxCancel(tx.con.cid)).value)
  {
    hide Inv, Step, Deposited, SettledAs, MaySettle, DepositedFee, SameMoney;
    var v, cancel := Step(h, w, env, tx).value, TxCancel(tx.con.cid);
    StepKeepsInv(h, w, env, tx);
    ProposalDeposits(h, w, env, tx);
    HeldFor(v, w, env, tx, next, cancel);
    StepSettles(h, v, next, cancel, env.txid);
    GivenBack(w, v, Step(h, v, next, cancel).value, env, tx, next);
  }

  lemma GivenBack(w: World, v: World, u: World, env: Env, tx: Tx, next: Env)
    requires Spends(tx) && Deposited(w, v, env, tx) && env.txid !in w.pendings && env.txid in v.pendings
    requires SettledAs(v, u, next, env.txid, v.pendings[env.txid], Returned)
    ensures SameMoney(w, u)
  {
    hide DepositedFee;
    assert v.pendings - {env.txid} == w.pendings;
    CreditBack(w.balances, tx.sender, v.pendings[env.txid].Worth());
  }

  lemma CreditBack(balances: map<Address, Balance>, a: Address, x: int)
    ensures Credited(Credited(balances, a, -x), a, x) == balances
  {
  }

  // ---- executing a transfer ----

  // A pending time that is over is no lock.
  function Ahead(lock: Option<int>, ts: nat): Option<int> {
    if lock.Some? && lock.value > ts then lock else None
  }

  // A transfer under a lock: the sender pays amount and fee, the receiver gets the
  // amount at once or under the lock, and a fee record is written.
  ghost predicate Sent(w: World, x: World, env: Env, tx: Tx, fee: int, lock: Option<int>)
    requires tx.TxTransfer?
  {
    var paid := Credited(w.balances, tx.sender, -tx.amount - fee);
    && x.balances == (if Ahead(lock, env.ts).Some? then paid else Credited(paid, tx.receiver, tx.amount))
    && x.pendings == (match Ahead(lock, env.ts)
        case None => w.pendings
        case Some(until) => w.pendings[env.txid := Pending(AccountHeld, tx.receiver, ToAccount(tx.sender), tx.amount, None, until)])
    && x.fees == (if fee == 0 then w.fees else w.fees[env.RecordId() := FeeRec(tx.sender.code, tx.sender, fee, env.ts, env.txid, TransferFee)])
    && x.pays == w.pays && x.wraps == w.wraps
  }

  lemma ExecuteSends(h: Hasher, w: World, env: Env, tx: Tx, next: Env, meta: Meta)
    requires Inv(w) && tx.TxTransfer? && Step(h, w, env, tx).Some?
    requires var v := Step(h, w, env, tx).value;
      tx.con.cid in v.contracts && Step(h, v, next, TxExecute(tx.con.cid, meta)).Some?
    ensures CalcFee(w, tx.sender, "transfer", tx.amount).Some? && tx.sender != tx.receiver
    ensures tx.sender in w.balances && tx.receiver in w.balances && next.txid !in w.pendings
    ensures var u := Step(h, Step(h, w, env, tx).value, next, TxExecute(tx.con.cid, meta)).value;
      Sent(w, u, next, tx, CalcFee(w, tx.sender, "transfer", tx.amount).value, LockOf(tx.orderId))
  {
    hide Inv, Step, Deposited, SettledAs, MaySettle, CalcFee, Commit, FateOf, Sent, LockOf;
    var v, execute := Step(h, w, env, tx).value, TxExecute(tx.con.cid, meta);
    StepKeepsInv(h, w, env, tx);
    ProposalDeposits(h, w, env, tx);
    TransferCharges(h, w, env, tx);
    HeldFor(v, w, env, tx, next, execute);
    StepSettles(h, v, next, execute, env.txid);
    FateOfTransfer(w, v, env, tx, next, meta);
    NextIsNew(h, w, v, env, tx, next, execute);
    SettledLike(w, v, Step(h, v, next, execute).value, env, tx, next, CalcFee(w, tx.sender, "transfer", tx.amount).value);
  }

  lemma NextIsNew(h: Hasher, w: World, v: World, env: Env, tx: Tx, next: Env, execute: Tx)
    requires Inv(v) && Step(h, v, next, execute).Some? && Spends(tx) && Deposited(w, v, env, tx)
    ensures next.txid !in w.pendings && next.txid != env.txid
  {
    hide Inv, Step, PlanOf, PlanOk, Commit, Only, QueryAnswered, DepositedFee, DocOf;
    var b, plan := PlanOfStep(h, v, next, execute);
    assert next.txid !in v.pendings;
  }

  // Executing the contract of a transfer does what the instant transfer of that moment
  // would have done, under the lock the order id spells.
  lemma ExecuteMatchesInstant(h: Hasher, w: World, env: Env, tx: Tx, next: Env, meta: Meta)
    requires Inv(w) && tx.TxTransfer? && Step(h, w, env, tx).Some?
    requires var v := Step(h, w, env, tx).value;
      tx.con.cid in v.contracts && Step(h, v, next, TxExecute(tx.con.cid, meta)).Some?
    ensures CalcFee(w, tx.sender, "transfer", tx.amount).Some?
    ensures var fee := CalcFee(w, tx.sender, "transfer", tx.amount).value;
      var u := Step(h, Step(h, w, env, tx).value, next, TxExecute(tx.con.cid, meta)).value;
      var instant := Commit(w, Send(next, tx.sender, tx.receiver, tx.amount, fee, LockOf(tx.orderId)));
      instant.Some? ==>
        u.balances == instant.value.balances && u.pendings == instant.value.pendings && u.fees == instant.value.fees
        && u.pays == instant.value.pays && u.wraps == instant.value.wraps
  {
    hide Inv, Step, CalcFee, Commit, Send, LockOf, Ahead;
    ExecuteSends(h, w, env, tx, next, meta);
    var fee := CalcFee(w, tx.sender, "transfer", tx.amount).value;
    if Commit(w, Send(next, tx.sender, tx.receiver, tx.amount, fee, LockOf(tx.orderId))).Some? {
      InstantResult(w, next, tx, fee, LockOf(tx.orderId));
    }
  }

  // A proposal registers the same contract whatever pending time it asks for.
  lemma ProposalIgnoresLock(h: Hasher, w: World, env: Env, tx: Tx, lock: Option<int>)
    requires Inv(w) && tx.TxTransfer? && Step(h, w, env, tx).Some? && tx.con.cid in Step(h, w, env, tx).value.contracts
    ensures Step(h, w, env, tx.(lockSeconds := lock)) == Step(h, w, env, tx)
  {
    NewContract(h, w, env, tx);
    SameQuery(h, w, env, tx, lock);
    hide Inv, Commit, Step, PlanOk, Only, PlanOf, KindsOf, Admissible;
    var b, plan := PlanOfStep(h, w, env, tx);
    if !plan.head.PutContract? {
      DirectHasNoContract(h, b, env, tx);
    }
    SamePlan(h, b, env, tx, lock);
    StepIs(h, w, env, tx);
    StepIs(h, w, env, tx.(lockSeconds := lock));
  }

  lemma SameQuery(h: Hasher, w: World, env: Env, tx: Tx, lock: Option<int>)
    requires tx.TxTransfer? && Step(h, w, env, tx).Some?
    ensures Admissible(w, env, tx) && Admissible(w, env, tx.(lockSeconds := lock))
  {
    hide PlanOf, Commit;
  }

  lemma SamePlan(h: Hasher, b: World, env: Env, tx: Tx, lock: Option<int>)
    requires tx.TxTransfer? && PlanOf(h, b, env, tx).Some? && PlanOf(h, b, env, tx).value.head.PutContract?
    ensures PlanOf(h, b, env, tx.(lockSeconds := lock)) == PlanOf(h, b, env, tx)
  {
    hide CalcFee, Gather, OwnSigners, HasHolder;
  }

  // So the lock asked for is honoured exactly when, at the time of execution, the order
  // id spells the same one, or neither is ahead any more.
  lemma LockHonouredIff(h: Hasher, w: World, env: Env, tx: Tx, next: Env, meta: Meta)
    requires Inv(w) && tx.TxTransfer? && Step(h, w, env, tx).Some?
    requires var v := Step(h, w, env, tx).value;
      tx.con.cid in v.contracts && Step(h, v, next, TxExecute(tx.con.cid, meta)).Some?
    ensures CalcFee(w, tx.sender, "transfer", tx.amount).Some?
    ensures var fee, asked := CalcFee(w, tx.sender, "transfer", tx.amount).value, LockTime(env.ts, tx.lockSeconds);
      var u := Step(h, Step(h, w, env, tx).value, next, TxExecute(tx.con.cid, meta)).value;
      Sent(w, u, next, tx, fee, asked) <==> Ahead(asked, next.ts) == Ahead(LockOf(tx.orderId), next.ts)
  {
    hide Inv, Step, CalcFee, LockOf, LockTime;
    ExecuteSends(h, w, env, tx, next, meta);
    var u := Step(h, Step(h, w, env, tx).value, next, TxExecute(tx.con.cid, meta)).value;
    SentUnderOneLock(w, u, next, tx, CalcFee(w, tx.sender, "transfer", tx.amount).value, LockOf(tx.orderId), LockTime(env.ts, tx.lockSeconds));
  }

  // It does when the order id is written as the digits of the seconds asked for.
  lemma DigitsSpellTheLock(seconds: nat)
    requires 0 < seconds <= MAX_STAMP
    ensures LockOf(Decimal(seconds)) == Some(seconds * NANOS) && ReadLock(Decimal(seconds)).Some?
  {
    hide ParseInt;
    ParseIntOfDecimal(seconds);
    IsZero(seconds);
  }

  lemma IsZero(n: nat)
    requires n > 0
    ensures Decimal(n) != "0"
  {
    DecimalValue(n);
    assert DigitsValue("0"[..0]) == 0;
  }

  lemma SentUnderOneLock(w: World, u: World, env: Env, tx: Tx, fee: int, lock: Option<int>, other: Option<int>)
    requires tx.TxTransfer? && env.txid !in w.pendings && Sent(w, u, env, tx, fee, lock)
    ensures Sent(w, u, env, tx, fee, other) <==> Ahead(other, env.ts) == Ahead(lock, env.ts)
  {
    if Ahead(other, env.ts).Some? && Sent(w, u, env, tx, fee, other) {
      assert env.txid in u.pendings && u.pendings[env.txid].pendingTime == Ahead(other, env.ts).value;
    }
  }

  // An order id that is neither empty nor a number keeps the contract from ever being
  // executed, in any later run; the money can only be given back.
  lemma WordyOrderNeverExecutes(h: Hasher, w: World, env: Env, tx: Tx, more: seq<Call>, next: Env, meta: Meta)
    requires Inv(w) && tx.TxTransfer? && Step(h, w, env, tx).Some? && tx.con.cid in Step(h, w, env, tx).value.contracts
    requires ReadLock(tx.orderId).None?
    ensures Step(h, Exec(h, Step(h, w, env, tx).value, more), next, TxExecute(tx.con.cid, meta)).None?
  {
    hide Inv, Step, Exec, ReadLock, LogsExtend, BridgeExtends, MarksExtend, PendingsFrom, CalcFee;
    var v := Step(h, w, env, tx).value;
    StepKeepsInv(h, w, env, tx);
    ProposalDeposits(h, w, env, tx);
    RunExtends(h, v, more);
    NoLockNoExecution(h, Exec(h, v, more), next, tx.con.cid, meta);
  }

  lemma NoLockNoExecution(h: Hasher, w: World, env: Env, cid: string, meta: Meta)
    requires cid in w.contracts && w.contracts[cid].DocTransfer? && ReadLock(w.contracts[cid].orderId).None?
    ensures Step(h, w, env, TxExecute(cid, meta)).None?
  {
    hide ReadLock, Commit;
  }

  // Otherwise it goes through, unless the receiver is to be credited and its log key is
  // taken at that very nanosecond.
  lemma ExecuteTransferSucceedsIff(h: Hasher, w: World, env: Env, pid: string, meta: Meta)
    requires Inv(w) && pid in w.pendings && w.pendings[pid].custody == ContractHeld
    requires w.pendings[pid].rid.ToId? && w.pendings[pid].rid.id in w.contracts && w.contracts[w.pendings[pid].rid.id].DocTransfer?
    ensures var cid := w.pendings[pid].rid.id;
      var doc := w.contracts[cid];
      Admissible(w, env, TxExecute(cid, meta)) ==>
        (Step(h, w, env, TxExecute(cid, meta)).Some? <==>
          ReadLock(doc.orderId).Some? && (Ahead(LockOf(doc.orderId), env.ts).Some? || (doc.receiver, env.ts) !in w.logs))
  {
    PendingOf(w, pid);
    var cid := w.pendings[pid].rid.id;
    var doc, b := w.contracts[cid], Begin(w, env);
    hide Inv, Commit, QueryAnswered, SendPending, ReadLock, LockOf;
    ExecutePlan(h, b, env, cid, meta);
    SendPendingCommits(b, env, pid, b.pendings[pid], doc.sender, doc.receiver, LockOf(doc.orderId));
  }

  lemma ExecutePlan(h: Hasher, b: World, env: Env, cid: string, meta: Meta)
    requires cid in b.contracts && b.contracts[cid].DocTransfer?
    ensures PlanOf(h, b, env, TxExecute(cid, meta)) == ExecuteTransfer(b, env, cid, b.contracts[cid])
  {
    hide ExecuteTransfer;
  }

  lemma SendPendingCommits(b: World, env: Env, pid: string, pb: Pending, sender: Address, receiver: Address, lock: Option<int>)
    requires receiver in b.balances
    ensures Commit(b, SendPending(env, pid, pb, sender, receiver, lock)).Some? <==> Ahead(lock, env.ts).Some? || (receiver, env.ts) !in b.logs
  {
    hide Commit, Apply, CreateFee;
    var plan := SendPending(env, pid, pb, sender, receiver, lock);
    CommitStep(b, plan.head, plan.tail);
    FeeThenDrop(Apply(b, plan.head), env, pid, pb);
  }

  lemma TransferCharges(h: Hasher, w: World, env: Env, tx: Tx)
    requires tx.TxTransfer? && Step(h, w, env, tx).Some?
    ensures CalcFee(w, tx.sender, "transfer", tx.amount).Some? && tx.sender != tx.receiver
    ensures tx.receiver in w.balances && tx.sender in w.balances
  {
    hide Commit, Gather;
    assert CalcFee(Begin(w, env), tx.sender, "transfer", tx.amount) == CalcFee(w, tx.sender, "transfer", tx.amount);
  }

  lemma FateOfTransfer(w: World, v: World, env: Env, tx: Tx, next: Env, meta: Meta)
    requires tx.TxTransfer? && Deposited(w, v, env, tx)
    ensures var lock := Ahead(LockOf(tx.orderId), next.ts);
      FateOf(v, next, TxExecute(tx.con.cid, meta)) == if lock.Some? then Locked(tx.receiver, lock.value) else Delivered(tx.receiver)
  {
    hide CalcFee, LockOf;
  }

  // The instant transfer, as one change of the ledger.
  lemma InstantResult(w: World, env: Env, tx: Tx, fee: int, lock: Option<int>)
    requires tx.TxTransfer? && tx.sender in w.balances && tx.receiver in w.balances && tx.sender != tx.receiver
    requires Commit(w, Send(env, tx.sender, tx.receiver, tx.amount, fee, lock)).Some?
    ensures Sent(w, Commit(w, Send(env, tx.sender, tx.receiver, tx.amount, fee, lock)).value, env, tx, fee, lock)
  {
    hide Commit, Apply, CreateFee, HalfSent, Debited, Sent;
    var plan := Send(env, tx.sender, tx.receiver, tx.amount, fee, lock);
    CommitThen(w, plan.head, plan.tail);
    Received(w, env, tx, lock, plan.head);
    DebitWithFee(Apply(w, plan.head), env, tx, fee, plan.tail);
    HalvesMeet(w, Apply(w, plan.head), Commit(w, plan).value, env, tx, fee, lock);
  }

  // The receiving half.
  ghost predicate HalfSent(w: World, x: World, env: Env, tx: Tx, lock: Option<int>)
    requires tx.TxTransfer?
  {
    && x.balances == (if Ahead(lock, env.ts).Some? then w.balances else Credited(w.balances, tx.receiver, tx.amount))
    && x.pendings == (match Ahead(lock, env.ts)
        case None => w.pendings
        case Some(until) => w.pendings[env.txid := Pending(AccountHeld, tx.receiver, ToAccount(tx.sender), tx.amount, None, until)])
    && x.fees == w.fees && x.pays == w.pays && x.wraps == w.wraps
  }

  lemma Received(w: World, env: Env, tx: Tx, lock: Option<int>, e: Effect)
    requires tx.TxTransfer? && tx.sender in w.balances && tx.receiver in w.balances
    requires e == Receive(env, tx.sender, tx.receiver, tx.amount, lock, Done).head && Accepted(w, e)
    ensures HalfSent(w, Apply(w, e), env, tx, lock) && tx.sender in Apply(w, e).balances
  {
    hide Apply;
    if e.PutPending? {
      PutPendingFields(w, e);
    } else {
      PostFields(w, e);
    }
  }

  ghost predicate Debited(w: World, x: World, env: Env, tx: Tx, fee: int)
    requires tx.TxTransfer?
  {
    && x.balances == Credited(w.balances, tx.sender, -tx.amount - fee)
    && x.fees == (if fee == 0 then w.fees else w.fees[env.RecordId() := FeeRec(tx.sender.code, tx.sender, fee, env.ts, env.txid, TransferFee)])
    && x.pendings == w.pendings && x.pays == w.pays && x.wraps == w.wraps
  }

  lemma HalvesMeet(w: World, w1: World, x: World, env: Env, tx: Tx, fee: int, lock: Option<int>)
    requires tx.TxTransfer? && tx.sender != tx.receiver && HalfSent(w, w1, env, tx, lock) && Debited(w1, x, env, tx, fee)
    ensures Sent(w, x, env, tx, fee, lock)
  {
    hide Credited;
    CreditsCommute(w.balances, tx.receiver, tx.amount, tx.sender, -tx.amount - fee);
  }

  // The sending half.
  lemma DebitWithFee(w: World, env: Env, tx: Tx, fee: int, plan: Plan)
    requires tx.TxTransfer? && tx.sender in w.balances && Commit(w, plan).Some?
    requires plan == Then(Post(tx.sender, SendLog, ToAccount(tx.receiver), -tx.amount, fee, env.ts), CreateFee(env, tx.sender, fee, TransferFee, Done))
    ensures Debited(w, Commit(w, plan).value, env, tx, fee)
  {
    hide Commit, Apply;
    var charge := NewFee(env, tx.sender, fee, TransferFee);
    CommitThen(w, plan.head, plan.tail);
    PostFields(w, plan.head);
    CommitNothing(Apply(w, plan.head));
    CommitLast(Apply(w, plan.head), charge);
    PutFeeFields(Apply(w, plan.head), charge);
  }

  lemma SettledLike(w: World, v: World, u: World, env: Env, tx: Tx, next: Env, fee: int)
    requires tx.TxTransfer? && Deposited(w, v, env, tx) && env.txid !in w.pendings && env.txid in v.pendings && next.txid != env.txid
    requires DepositedFee(w, tx) == Some(fee) && v.pendings[env.txid].fee == Some(fee)
    requires v.pendings[env.txid].account == tx.sender && v.pendings[env.txid].amount == tx.amount
    requires var lock := Ahead(LockOf(tx.orderId), next.ts);
      SettledAs(v, u, next, env.txid, v.pendings[env.txid], if lock.Some? then Locked(tx.receiver, lock.value) else Delivered(tx.receiver))
    ensures Sent(w, u, next, tx, fee, LockOf(tx.orderId))
  {
    hide DepositedFee, LockOf;
    assert v.pendings - {env.txid} == w.pendings;
  }

  lemma CreditsCommute(balances: map<Address, Balance>, a: Address, x: int, b: Address, y: int)
    ensures a != b ==> Credited(Credited(balances, a, x), b, y) == Credited(Credited(balances, b, y), a, x)
  {
  }
}
