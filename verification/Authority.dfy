/**
  Who can make a balance smaller: only a holder of that account, in a transaction
  meant for it, and a burn contract of the token for its genesis account. And what
  can take a balance below zero: the two prunes, and exactly when.
 */
module Authority {
  import opened Sums
  import opened Addresses
  import opened RecordIds
  import opened FeeFormulas
  import opened Pruning
  import opened Ledger
  import opened Fields
  import opened Rules
  import opened Invariants
  import opened Steps
  import opened Shapes
  import opened History
  import opened Prunes

  ghost predicate MayDebit(w: World, env: Env, tx: Tx, a: Address) {
    match tx
    case TxTransfer(sender, receiver, _, _, _, _, _) =>
      a == sender && Authorised(w, a, env.kid) && Active(w, a) && Active(w, receiver) && receiver.code == a.code && receiver != a
    case TxPay(sender, receiver, _, _) =>
      a == sender && Authorised(w, a, env.kid) && Active(w, a) && Active(w, receiver) && receiver.code == a.code && receiver != a
    case TxWrap(sender, extCode, _, _, _, _) =>
      a == sender && Authorised(w, a, env.kid) && Active(w, a)
      && WrapAddress(w, a.code, extCode).Some? && Active(w, WrapAddress(w, a.code, extCode).value) && WrapAddress(w, a.code, extCode).value != a
    case TxUnwrap(code, to, extCode, _, _, _) =>
      Authorised(w, a, env.kid) && Active(w, a) && WrapAddress(w, if to.Some? then to.value.code else code, extCode) == Some(a)
      && to.Some? && to.value != a && Active(w, to.value)
    case TxPayPrune(account, _, _, _) => a == account && Authorised(w, a, env.kid) && Active(w, a)
    case TxFeePrune(code, _, _, _) =>
      Authorised(w, a, env.kid) && code in w.tokens && w.tokens[code].policy.Some? && w.tokens[code].policy.value.target == a
    case TxBurn(code, _, _) => Authorised(w, a, env.kid) && code in w.tokens && w.tokens[code].genesis == a
    case TxExecute(cid, _) =>
      && cid in w.contracts && w.contracts[cid].DocBurn?
      && w.contracts[cid].code in w.tokens && w.tokens[w.contracts[cid].code].genesis == a
    case _ => false
  }

  // Apart from the prunes, a debit never takes more than there is.
  ghost predicate Covered(w: World, tx: Tx, post: Effect)
    requires post.Post?
  {
    tx.TxPayPrune? || tx.TxFeePrune?
    || (post.a in w.balances && w.balances[post.a].amount + post.diff - post.logFee >= 0)
  }

  ghost predicate NoDebits(plan: Plan)
    decreases plan
  {
    plan.Then? ==> (plan.head.Post? ==> plan.head.diff - plan.head.logFee >= 0) && NoDebits(plan.tail)
  }

  // At most one posting is a debit; it is allowed and covered.
  ghost predicate DebitsAllowed(w: World, env: Env, tx: Tx, plan: Plan)
    decreases plan
  {
    plan.Then? ==>
      if plan.head.Post? && plan.head.diff - plan.head.logFee < 0
      then MayDebit(w, env, tx, plan.head.a) && Covered(w, tx, plan.head) && NoDebits(plan.tail)
      else DebitsAllowed(w, env, tx, plan.tail)
  }

  lemma {:induction false} NoDebitsKeep(w: World, plan: Plan, a: Address, least: int)
    requires NoDebits(plan) && Commit(w, plan).Some? && least <= 0
    requires a in w.balances ==> w.balances[a].amount >= least
    ensures a in Commit(w, plan).value.balances ==> Commit(w, plan).value.balances[a].amount >= least
    decreases plan
  {
    if plan.Then? {
      NoDebitsKeep(Apply(w, plan.head), plan.tail, a, least);
    }
  }

  lemma {:induction false} CreditsKeep(w: World, plan: Plan, a: Address, least: int)
    requires NoDebits(plan) && NoOpening(plan) && Commit(w, plan).Some?
    requires a in w.balances && w.balances[a].amount >= least
    ensures a in Commit(w, plan).value.balances && Commit(w, plan).value.balances[a].amount >= least
    decreases plan
  {
    if plan.Then? {
      CreditsKeep(Apply(w, plan.head), plan.tail, a, least);
    }
  }

  lemma {:induction false} BalanceOnlyGrows(b: World, env: Env, tx: Tx, w: World, plan: Plan, a: Address)
    requires DebitsAllowed(b, env, tx, plan) && !MayDebit(b, env, tx, a) && Commit(w, plan).Some?
    requires a in w.balances && (plan.Then? && plan.head.OpenAccount? ==> plan.head.a != a)
    requires plan.Then? ==> NoOpening(plan.tail)
    ensures a in Commit(w, plan).value.balances && Commit(w, plan).value.balances[a].amount >= w.balances[a].amount
    decreases plan
  {
    hide MayDebit, Covered;
    if plan.Then? {
      var v := Apply(w, plan.head);
      assert a in v.balances && v.balances[a].amount >= w.balances[a].amount;
      if plan.head.Post? && plan.head.diff - plan.head.logFee < 0 {
        CreditsKeep(v, plan.tail, a, w.balances[a].amount);
      } else {
        BalanceOnlyGrows(b, env, tx, v, plan.tail, a);
      }
    }
  }

  // Credits before the one debit can only help to cover it.
  lemma {:induction false} CoveredStays(b: World, env: Env, tx: Tx, w: World, plan: Plan, a: Address)
    requires DebitsAllowed(b, env, tx, plan) && Commit(w, plan).Some? && !tx.TxPayPrune? && !tx.TxFeePrune?
    requires a in w.balances ==> w.balances[a].amount >= 0 && (a in b.balances ==> w.balances[a].amount >= b.balances[a].amount)
    requires plan.Then? && plan.head.OpenAccount? ==> plan.head.a !in b.balances
    requires plan.Then? ==> NoOpening(plan.tail)
    ensures a in Commit(w, plan).value.balances ==> Commit(w, plan).value.balances[a].amount >= 0
    decreases plan
  {
    hide MayDebit, Apply;
    if plan.Then? {
      var e, v := plan.head, Apply(w, plan.head);
      BalanceAfter(w, e, a);
      if e.Post? && e.diff - e.logFee < 0 {
        NoDebitsKeep(v, plan.tail, a, 0);
      } else {
        CoveredStays(b, env, tx, v, plan.tail, a);
      }
    }
  }

  ghost function ChangedBy(w: World, e: Effect, a: Address): int {
    if e.OpenAccount? && e.a == a then 0
    else if a !in w.balances then 0
    else if e.Post? && e.a == a then w.balances[a].amount + e.diff - e.logFee
    else w.balances[a].amount
  }

  lemma BalanceAfter(w: World, e: Effect, a: Address)
    requires Accepted(w, e)
    ensures var v := Apply(w, e);
      a in v.balances ==> v.balances[a].amount == ChangedBy(w, e, a)
    ensures a in w.balances || (e.OpenAccount? && e.a == a) <==> a in Apply(w, e).balances
  {
  }

  // Accounts are opened by the first effect of a plan, if at all.
  predicate NoOpening(plan: Plan)
    decreases plan
  {
    plan.Then? ==> !plan.head.OpenAccount? && NoOpening(plan.tail)
  }

  lemma {:induction false} OpeningNeedsKind(plan: Plan, env: Env, kinds: set<Kind>)
    requires Only(plan, env, kinds) && KAccounts !in kinds
    ensures NoOpening(plan)
    decreases plan
  {
    if plan.Then? {
      OpeningNeedsKind(plan.tail, env, kinds);
    }
  }

  lemma {:induction false} NoPosting(b: World, env: Env, tx: Tx, plan: Plan, kinds: set<Kind>)
    requires Only(plan, env, kinds) && KPost !in kinds && KBridgePost !in kinds
    ensures DebitsAllowed(b, env, tx, plan)
    decreases plan
  {
    if plan.Then? {
      NoPosting(b, env, tx, plan.tail, kinds);
    }
  }

  lemma OnePost(b: World, env: Env, tx: Tx, post: Effect)
    requires post.Post? && (post.diff - post.logFee >= 0 || (MayDebit(b, env, tx, post.a) && Covered(b, tx, post)))
    ensures DebitsAllowed(b, env, tx, Then(post, Done)) && NoOpening(Then(post, Done))
  {
    assert NoDebits(Done);
  }

  lemma DepositAllowed(b: World, env: Env, tx: Tx, sender: Address, con: Con, doc: Doc, amount: int, fee: Option<int>)
    requires MayDebit(b, env, tx, sender) && sender in b.balances && b.balances[sender].amount >= amount + FeePart(fee)
    ensures DebitsAllowed(b, env, tx, Deposit(env, sender, con, doc, amount, fee))
    ensures NoOpening(Deposit(env, sender, con, doc, amount, fee))
  {
    hide MayDebit;
    OnePost(b, env, tx, Deposit(env, sender, con, doc, amount, fee).tail.tail.head);
  }

  lemma FeeAllowed(b: World, env: Env, tx: Tx, account: Address, amount: int, cause: FeeCause, rest: Plan)
    requires DebitsAllowed(b, env, tx, rest) && NoOpening(rest)
    ensures DebitsAllowed(b, env, tx, CreateFee(env, account, amount, cause, rest))
    ensures NoOpening(CreateFee(env, account, amount, cause, rest))
    ensures NoDebits(rest) ==> NoDebits(CreateFee(env, account, amount, cause, rest))
  {
  }

  lemma NothingAllowed(b: World, env: Env, tx: Tx)
    ensures DebitsAllowed(b, env, tx, Done) && NoOpening(Done) && NoDebits(Done)
  {
  }

  lemma TransferAllowed(h: Hasher, b: World, env: Env, tx: Tx)
    requires tx.TxTransfer? && PlanOf(h, b, env, tx).Some?
    ensures DebitsAllowed(b, env, tx, PlanOf(h, b, env, tx).value) && NoOpening(PlanOf(h, b, env, tx).value)
  {
    assert MayDebit(b, env, tx, tx.sender);
    hide MayDebit, DebitsAllowed, NoOpening, CalcFee, Gather, NoDebits;
    var fee := CalcFee(b, tx.sender, "transfer", tx.amount).value;
    DepositAllowed(b, env, tx, tx.sender, tx.con, DocTransfer(env.txid, tx.sender, tx.receiver, tx.orderId), tx.amount, Some(fee));
    SendAllowed(b, env, tx, tx.sender, tx.receiver, tx.amount, fee, LockTime(env.ts, tx.lockSeconds));
  }

  lemma SendAllowed(b: World, env: Env, tx: Tx, sender: Address, receiver: Address, amount: int, fee: int, lock: Option<int>)
    requires MayDebit(b, env, tx, sender) && amount >= 0 && sender in b.balances && b.balances[sender].amount >= amount + fee
    ensures DebitsAllowed(b, env, tx, Send(env, sender, receiver, amount, fee, lock))
    ensures NoOpening(Send(env, sender, receiver, amount, fee, lock))
  {
    hide MayDebit;
    NothingAllowed(b, env, tx);
    FeeAllowed(b, env, tx, sender, fee, TransferFee, Done);
    assert DebitsAllowed(b, env, tx, Send(env, sender, receiver, amount, fee, lock).tail);
  }

  lemma PayAllowed(h: Hasher, b: World, env: Env, tx: Tx)
    requires (tx.TxPay? || tx.TxWrap?) && PlanOf(h, b, env, tx).Some?
    ensures DebitsAllowed(b, env, tx, PlanOf(h, b, env, tx).value) && NoOpening(PlanOf(h, b, env, tx).value)
  {
    assert MayDebit(b, env, tx, tx.sender) by { hide Gather, CalcFee; }
    hide MayDebit, DebitsAllowed, NoOpening, CalcFee, Gather;
    var plan := PlanOf(h, b, env, tx).value;
    if plan.head.PutContract? {
      if tx.TxPay? {
        DepositAllowed(b, env, tx, tx.sender, tx.con, DocPay(env.txid, tx.sender, tx.receiver), tx.amount, None);
      } else {
        DepositAllowed(b, env, tx, tx.sender, tx.con, DocWrap(env.txid, tx.sender, tx.extCode, tx.extId), tx.amount, None);
      }
    } else {
      OnePost(b, env, tx, plan.tail.head);
      AfterRecord(b, env, tx, plan.head, plan.tail);
    }
  }

  lemma AfterRecord(b: World, env: Env, tx: Tx, e: Effect, rest: Plan)
    requires !e.Post? && !e.OpenAccount? && DebitsAllowed(b, env, tx, rest) && NoOpening(rest)
    ensures DebitsAllowed(b, env, tx, Then(e, rest)) && NoOpening(Then(e, rest))
    ensures NoDebits(rest) ==> NoDebits(Then(e, rest))
  {
  }

  lemma PruneAllowed(h: Hasher, b: World, env: Env, tx: Tx)
    requires (tx.TxPayPrune? || tx.TxFeePrune?) && PlanOf(h, b, env, tx).Some?
    ensures DebitsAllowed(b, env, tx, PlanOf(h, b, env, tx).value) && NoOpening(PlanOf(h, b, env, tx).value)
  {
    hide SeqSum, SplitTime, DebitsAllowed, NoOpening, CreateFee;
    var plan := PlanOf(h, b, env, tx).value;
    NothingAllowed(b, env, tx);
    if tx.TxPayPrune? {
      var ids, recs := Batch(tx.order), PayRecs(b.pays);
      var sum, fee := SeqSum(AmountsOf(recs), ids), SeqSum(FeesOf(recs), ids);
      var post := Post(tx.account, PrunePayLog, NoRef, sum - fee, 0, env.ts);
      OnePost(b, env, tx, post);
      FeeAllowed(b, env, tx, tx.account, fee, PayFee, Then(post, Done));
      AfterRecord(b, env, tx, plan.head, plan.tail);
    } else if plan.Then? {
      var post := if plan.tail.head.Post? then plan.tail.head else plan.tail.tail.head;
      OnePost(b, env, tx, post);
      if plan.tail.head.PutToken? {
        AfterRecord(b, env, tx, plan.tail.head, Then(post, Done));
      }
      AfterRecord(b, env, tx, plan.head, plan.tail);
    }
  }

  lemma UnwrapAllowed(h: Hasher, b: World, env: Env, tx: Tx)
    requires tx.TxUnwrap? && PlanOf(h, b, env, tx).Some?
    ensures DebitsAllowed(b, env, tx, PlanOf(h, b, env, tx).value) && NoOpening(PlanOf(h, b, env, tx).value)
  {
    hide ToLower, NormalizeExtTxID, DebitsAllowed, NoOpening;
    var plan := PlanOf(h, b, env, tx).value;
    if plan.tail.tail.Then? {
      OnePost(b, env, tx, plan.tail.tail.head);
      TwoPosts(b, env, tx, plan.tail.head, plan.tail.tail);
    } else {
      OnePost(b, env, tx, plan.tail.head);
    }
    AfterRecord(b, env, tx, plan.head, plan.tail);
  }

  lemma TwoPosts(b: World, env: Env, tx: Tx, post: Effect, rest: Plan)
    requires post.Post? && post.diff - post.logFee >= 0 && DebitsAllowed(b, env, tx, rest) && NoOpening(rest)
    ensures DebitsAllowed(b, env, tx, Then(post, rest)) && NoOpening(Then(post, rest))
  {
  }

  lemma MintAllowed(b: World, env: Env, tx: Tx, code: string, amount: int)
    requires amount >= 0
    ensures var p := Mint(b, env, code, amount); p.Some? ==> DebitsAllowed(b, env, tx, p.value) && NoOpening(p.value)
  {
    hide MayDebit, DebitsAllowed, NoOpening;
    var p := Mint(b, env, code, amount);
    if p.Some? {
      OnePost(b, env, tx, p.value.tail.head);
      AfterRecord(b, env, tx, p.value.head, p.value.tail);
    }
  }

  lemma BurnAllowed(b: World, env: Env, tx: Tx, code: string, amount: int)
    requires code in b.tokens ==> MayDebit(b, env, tx, b.tokens[code].genesis)
    ensures var p := Burn(b, env, code, amount); p.Some? ==> DebitsAllowed(b, env, tx, p.value) && NoOpening(p.value)
  {
    hide MayDebit;
    var p := Burn(b, env, code, amount);
    NothingAllowed(b, env, tx);
    if p.Some? && p.value.Then? {
      AfterRecord(b, env, tx, p.value.tail.head, Done);
    }
  }

  lemma TokenAllowed(h: Hasher, b: World, env: Env, tx: Tx)
    requires (tx.TxMint? || tx.TxBurn?) && PlanOf(h, b, env, tx).Some?
    ensures DebitsAllowed(b, env, tx, PlanOf(h, b, env, tx).value) && NoOpening(PlanOf(h, b, env, tx).value)
  {
    hide DebitsAllowed, NoOpening, Mint, Burn, MayDebit;
    NothingAllowed(b, env, tx);
    AfterRecord(b, env, tx, PutContract(tx.con.cid, if tx.TxMint? then DocMint(tx.code, tx.amount) else DocBurn(tx.code, tx.amount)), Done);
    if tx.TxMint? {
      MintAllowed(b, env, tx, tx.code, tx.amount);
    } else {
      assert MayDebit(b, env, tx, b.tokens[tx.code].genesis) by { GenesisMayDebit(h, b, env, tx); }
      BurnAllowed(b, env, tx, tx.code, tx.amount);
    }
  }

  lemma GenesisMayDebit(h: Hasher, b: World, env: Env, tx: Tx)
    requires tx.TxBurn? && PlanOf(h, b, env, tx).Some?
    ensures tx.code in b.tokens && MayDebit(b, env, tx, b.tokens[tx.code].genesis)
  {
    hide Burn;
  }

  // Apart from its first effect, the account it opens, a new token only mints.
  lemma NewTokenAllowed(h: Hasher, b: World, env: Env, tx: Tx, code: string, meta: Meta, kids: set<string>)
    ensures var p := CreateToken(h, b, env, code, meta, kids); p.Some? ==> DebitsAllowed(b, env, tx, p.value) && NoOpening(p.value.tail)
  {
    hide MayDebit, NewAddress, BridgeKnown;
    var p := CreateToken(h, b, env, code, meta, kids);
    NothingAllowed(b, env, tx);
    if p.Some? {
      assert p.value.tail.tail.Then? ==> DebitsAllowed(b, env, tx, p.value.tail.tail) && NoOpening(p.value.tail.tail);
      assert DebitsAllowed(b, env, tx, p.value.tail);
    }
  }

  lemma CreditsAllowed(h: Hasher, b: World, env: Env, tx: Tx)
    requires Ready(b, env) && (tx.TxWithdraw? || tx.TxCancel? || tx.TxRefund? || tx.TxWrapComplete?) && PlanOf(h, b, env, tx).Some?
    ensures DebitsAllowed(b, env, tx, PlanOf(h, b, env, tx).value) && NoOpening(PlanOf(h, b, env, tx).value)
  {
    hide Inv, DebitsAllowed, NoOpening, RefundFee, NormalizeExtTxID, CreateFee, MayDebit;
    var plan := PlanOf(h, b, env, tx).value;
    NothingAllowed(b, env, tx);
    if tx.TxRefund? {
      OnePost(b, env, tx, plan.tail.head);
      AfterRecord(b, env, tx, plan.head, plan.tail);
    } else if tx.TxWrapComplete? {
      var post := plan.tail.head;
      FeeAllowed(b, env, tx, post.a, post.logFee, WrapFee, Done);
      TwoPosts(b, env, tx, post, plan.tail.tail);
      AfterRecord(b, env, tx, plan.head, plan.tail);
    } else if plan.Then? {
      PendingOf(b, plan.tail.head.pid);
      AfterRecord(b, env, tx, plan.tail.head, Done);
      TwoPosts(b, env, tx, plan.head, plan.tail);
    }
  }

  // A plan that only takes over a pending balance.
  lemma TakeOverAllowed(b: World, env: Env, tx: Tx, e: Effect, pid: string)
    requires !e.Post? && !e.OpenAccount?
    ensures var plan := Then(e, Then(DropPending(pid), Done)); DebitsAllowed(b, env, tx, plan) && NoOpening(plan)
  {
    NothingAllowed(b, env, tx);
    AfterRecord(b, env, tx, DropPending(pid), Done);
    AfterRecord(b, env, tx, e, Then(DropPending(pid), Done));
  }

  lemma ExecuteMoneyAllowed(h: Hasher, b: World, env: Env, tx: Tx)
    requires Ready(b, env) && tx.TxExecute? && tx.cid in b.contracts && b.contracts[tx.cid].Money() && PlanOf(h, b, env, tx).Some?
    ensures DebitsAllowed(b, env, tx, PlanOf(h, b, env, tx).value) && NoOpening(PlanOf(h, b, env, tx).value)
  {
    hide Inv, DebitsAllowed, NoOpening, MayDebit, CreateFee, CalcFee, SendPending;
    var doc, plan := b.contracts[tx.cid], PlanOf(h, b, env, tx).value;
    if doc.DocTransfer? {
      LandAllowed(b, env, tx, doc.pb, doc.sender, doc.receiver, LockOf(doc.orderId));
    } else {
      TakeOverAllowed(b, env, tx, plan.head, doc.pb);
    }
  }

  lemma ExecuteSupplyAllowed(h: Hasher, b: World, env: Env, tx: Tx)
    requires Ready(b, env) && tx.TxExecute? && tx.cid in b.contracts && (b.contracts[tx.cid].DocMint? || b.contracts[tx.cid].DocBurn?)
    requires PlanOf(h, b, env, tx).Some?
    ensures DebitsAllowed(b, env, tx, PlanOf(h, b, env, tx).value) && NoOpening(PlanOf(h, b, env, tx).value)
  {
    var doc := b.contracts[tx.cid];
    ContractOfDoc(b, tx.cid);
    assert doc.DocBurn? && doc.code in b.tokens ==> MayDebit(b, env, tx, b.tokens[doc.code].genesis);
    hide Inv, DebitsAllowed, NoOpening, MayDebit, Mint, Burn;
    if doc.DocMint? {
      MintAllowed(b, env, tx, doc.code, doc.amount);
    } else {
      BurnAllowed(b, env, tx, doc.code, doc.amount);
    }
  }

  lemma ExecuteOtherAllowed(h: Hasher, b: World, env: Env, tx: Tx)
    requires tx.TxExecute? && tx.cid in b.contracts && PlanOf(h, b, env, tx).Some?
    requires var doc := b.contracts[tx.cid]; !doc.Money() && !doc.DocMint? && !doc.DocBurn?
    ensures DebitsAllowed(b, env, tx, PlanOf(h, b, env, tx).value)
    ensures var plan := PlanOf(h, b, env, tx).value; plan.Then? ==> NoOpening(plan.tail)
  {
    hide DebitsAllowed, NoOpening, MayDebit, CreateToken, NewAddress;
    var doc, plan := b.contracts[tx.cid], PlanOf(h, b, env, tx).value;
    if doc.DocTokenCreate? {
      NewTokenAllowed(h, b, env, tx, doc.code, tx.meta, doc.holders);
    } else {
      OneEffect(b, env, tx, plan);
    }
  }

  lemma ExecuteAllowed(h: Hasher, b: World, env: Env, tx: Tx)
    requires Ready(b, env) && tx.TxExecute? && PlanOf(h, b, env, tx).Some?
    ensures DebitsAllowed(b, env, tx, PlanOf(h, b, env, tx).value)
    ensures var plan := PlanOf(h, b, env, tx).value; plan.Then? ==> NoOpening(plan.tail)
  {
    assert tx.cid in b.contracts;
    hide Inv, DebitsAllowed, NoOpening, PlanOf;
    var doc := b.contracts[tx.cid];
    if doc.Money() {
      ExecuteMoneyAllowed(h, b, env, tx);
      OpeningTail(PlanOf(h, b, env, tx).value);
    } else if doc.DocMint? || doc.DocBurn? {
      ExecuteSupplyAllowed(h, b, env, tx);
      OpeningTail(PlanOf(h, b, env, tx).value);
    } else {
      ExecuteOtherAllowed(h, b, env, tx);
    }
  }

  lemma LandAllowed(b: World, env: Env, tx: Tx, pid: string, sender: Address, receiver: Address, lock: Option<int>)
    requires Inv(b) && pid in b.pendings
    ensures var plan := SendPending(env, pid, b.pendings[pid], sender, receiver, lock);
      DebitsAllowed(b, env, tx, plan) && NoOpening(plan)
  {
    hide Inv, DebitsAllowed, NoOpening, MayDebit, CreateFee;
    var pb := b.pendings[pid];
    var plan := SendPending(env, pid, pb, sender, receiver, lock);
    PendingOf(b, pid);
    NothingAllowed(b, env, tx);
    AfterRecord(b, env, tx, DropPending(pid), Done);
    FeeAllowed(b, env, tx, pb.account, FeePart(pb.fee), TransferFee, Then(DropPending(pid), Done));
    if plan.head.Post? {
      TwoPosts(b, env, tx, plan.head, plan.tail);
    } else {
      AfterRecord(b, env, tx, plan.head, plan.tail);
    }
  }

  lemma OpeningTail(plan: Plan)
    requires NoOpening(plan)
    ensures plan.Then? ==> NoOpening(plan.tail)
  {
  }

  lemma OneEffect(b: World, env: Env, tx: Tx, plan: Plan)
    requires plan.Then? && !plan.head.Post? && plan.tail == Done
    ensures DebitsAllowed(b, env, tx, plan) && NoOpening(plan.tail)
  {
  }

  lemma TokenCreateAllowed(h: Hasher, b: World, env: Env, tx: Tx)
    requires tx.TxTokenCreate? && PlanOf(h, b, env, tx).Some?
    ensures DebitsAllowed(b, env, tx, PlanOf(h, b, env, tx).value)
    ensures var plan := PlanOf(h, b, env, tx).value; plan.Then? ==> NoOpening(plan.tail)
  {
    hide DebitsAllowed, NoOpening, MayDebit, CreateToken, Gather, ValidateTokenCode;
    var kids := Gather(b, tx.code, tx.co, {env.kid}).value;
    NewTokenAllowed(h, b, env, tx, tx.code, tx.meta, kids);
    OneEffect(b, env, tx, Then(PutContract(tx.con.cid, DocTokenCreate(tx.code, kids)), Done));
  }

  lemma AccountsAllowed(h: Hasher, b: World, env: Env, tx: Tx)
    requires tx.TxAccountCreate? || tx.TxJointCreate? || tx.TxHolderAdd? || tx.TxHolderRemove? || tx.TxSuspend? || tx.TxUnsuspend? || tx.TxTokenUpdate?
    requires PlanOf(h, b, env, tx).Some?
    ensures DebitsAllowed(b, env, tx, PlanOf(h, b, env, tx).value)
    ensures var plan := PlanOf(h, b, env, tx).value; plan.Then? ==> NoOpening(plan.tail)
  {
    hide MayDebit, Gather, NewAddress, ValidateTokenCode, ID, HexEncode, BridgeKnown;
  }

  lemma PlanAllowed(h: Hasher, b: World, env: Env, tx: Tx)
    requires Ready(b, env) && PlanOf(h, b, env, tx).Some?
    ensures DebitsAllowed(b, env, tx, PlanOf(h, b, env, tx).value)
    ensures var plan := PlanOf(h, b, env, tx).value; plan.Then? ==> NoOpening(plan.tail)
  {
    hide Inv, DebitsAllowed, NoOpening, PlanOf, MayDebit;
    var plan := PlanOf(h, b, env, tx).value;
    match tx {
      case TxTransfer(_, _, _, _, _, _, _) => TransferAllowed(h, b, env, tx);
      case TxPay(_, _, _, _) => PayAllowed(h, b, env, tx);
      case TxWrap(_, _, _, _, _, _) => PayAllowed(h, b, env, tx);
      case TxPayPrune(_, _, _, _) => PruneAllowed(h, b, env, tx);
      case TxFeePrune(_, _, _, _) => PruneAllowed(h, b, env, tx);
      case TxUnwrap(_, _, _, _, _, _) => UnwrapAllowed(h, b, env, tx);
      case TxMint(_, _, _) => TokenAllowed(h, b, env, tx);
      case TxBurn(_, _, _) => TokenAllowed(h, b, env, tx);
      case TxTokenCreate(_, _, _, _) => TokenCreateAllowed(h, b, env, tx);
      case TxExecute(_, _) => ExecuteAllowed(h, b, env, tx);
      case TxWithdraw(_) => CreditsAllowed(h, b, env, tx);
      case TxCancel(_) => CreditsAllowed(h, b, env, tx);
      case TxRefund(_, _) => CreditsAllowed(h, b, env, tx);
      case TxWrapComplete(_, _, _) => CreditsAllowed(h, b, env, tx);
      case _ => AccountsAllowed(h, b, env, tx);
    }
    if NoOpening(plan) {
      OpeningTail(plan);
    }
  }

  // In every reachable state and for every transaction: a balance that got smaller was
  // one its invoker was entitled to debit. Nobody else's balance ever shrinks.
  lemma OnlyHoldersSpend(h: Hasher, w: World, env: Env, tx: Tx, a: Address)
    requires Inv(w) && Step(h, w, env, tx).Some? && a in w.balances
    ensures a in Step(h, w, env, tx).value.balances
    ensures Step(h, w, env, tx).value.balances[a].amount < w.balances[a].amount ==> MayDebit(w, env, tx, a)
  {
    hide Inv, PlanOf, PlanOk, Commit, Step, Only, QueryAnswered, KindsOf, MayDebit, DebitsAllowed;
    var b, plan := PlanOfStep(h, w, env, tx);
    StepExtends(h, w, env, tx);
    PlanAllowed(h, b, env, tx);
    assert MayDebit(b, env, tx, a) == MayDebit(w, env, tx, a) by { DebitFromBegin(w, env, tx, a); }
    if !MayDebit(b, env, tx, a) {
      if plan.Then? {
        FirstOpensNew(b, plan, a);
      }
      BalanceOnlyGrows(b, env, tx, b, plan, a);
    }
  }

  lemma FirstOpensNew(b: World, plan: Plan, a: Address)
    requires plan.Then? && PlanOk(b, plan) && Inv(b) && a in b.balances && Commit(b, plan).Some?
    ensures plan.head.OpenAccount? ==> plan.head.a != a
  {
    OwnersHaveBalances(b);
    CommitThen(b, plan.head, plan.tail);
  }

  lemma DebitFromBegin(w: World, env: Env, tx: Tx, a: Address)
    ensures MayDebit(Begin(w, env), env, tx, a) == MayDebit(w, env, tx, a)
  {
  }

  // ---- what can take a balance below zero ----

  // The batch of a pay prune takes more from the merchant than it has, or that of a fee
  // prune more from the target than it has.
  ghost predicate PruneOverdraws(w: World, tx: Tx, a: Address)
    requires a in w.balances
  {
    if tx.TxPayPrune? then
      tx.account == a
      && w.balances[a].amount + SeqSum(AmountsOf(PayRecs(w.pays)), Batch(tx.order)) < SeqSum(FeesOf(PayRecs(w.pays)), Batch(tx.order))
    else
      tx.TxFeePrune? && tx.code in w.tokens && w.tokens[tx.code].policy.Some? && w.tokens[tx.code].policy.value.target == a
      && w.balances[a].amount + SeqSum(AmountsOf(FeeRecs(w.fees)), Batch(tx.order)) < 0
  }

  lemma OthersStayCovered(h: Hasher, w: World, env: Env, tx: Tx, a: Address)
    requires Inv(w) && Step(h, w, env, tx).Some? && !tx.TxPayPrune? && !tx.TxFeePrune?
    requires a in w.balances ==> w.balances[a].amount >= 0
    ensures var v := Step(h, w, env, tx).value; a in v.balances ==> v.balances[a].amount >= 0
  {
    hide Inv, PlanOf, PlanOk, Commit, Step, Only, QueryAnswered, KindsOf, MayDebit, DebitsAllowed;
    var b, plan := PlanOfStep(h, w, env, tx);
    PlanAllowed(h, b, env, tx);
    if plan.Then? {
      OpensUnknown(b, plan);
    }
    CoveredStays(b, env, tx, b, plan, a);
  }

  lemma OpensUnknown(b: World, plan: Plan)
    requires plan.Then? && PlanOk(b, plan) && Inv(b) && Commit(b, plan).Some?
    ensures plan.head.OpenAccount? ==> plan.head.a !in b.balances
  {
    OwnersHaveBalances(b);
    CommitThen(b, plan.head, plan.tail);
  }

  // A committed transaction takes a balance from zero or more to below zero if and only
  // if it is a pay prune of that account, or a fee prune into it, whose batch is worth
  // less than minus the balance. Every other debit is covered by its guards.
  lemma BelowZeroIff(h: Hasher, w: World, env: Env, tx: Tx, a: Address)
    requires Inv(w) && Step(h, w, env, tx).Some? && a in w.balances && w.balances[a].amount >= 0
    ensures a in Step(h, w, env, tx).value.balances
    ensures Step(h, w, env, tx).value.balances[a].amount < 0 <==> PruneOverdraws(w, tx, a)
  {
    hide Inv, Step, SeqSum, PruneOverdraws;
    if tx.TxPayPrune? {
      PaysOverdraw(h, w, env, tx, a);
    } else if tx.TxFeePrune? {
      FeesOverdraw(h, w, env, tx, a);
    } else {
      OnlyPrunesOverdraw(w, tx, a);
      OnlyHoldersSpend(h, w, env, tx, a);
      OthersStayCovered(h, w, env, tx, a);
    }
  }

  lemma OnlyPrunesOverdraw(w: World, tx: Tx, a: Address)
    requires a in w.balances
    ensures PruneOverdraws(w, tx, a) ==> tx.TxPayPrune? || tx.TxFeePrune?
  {
  }

  lemma PaysOverdraw(h: Hasher, w: World, env: Env, tx: Tx, a: Address)
    requires Inv(w) && tx.TxPayPrune? && Step(h, w, env, tx).Some? && a in w.balances && w.balances[a].amount >= 0
    ensures a in Step(h, w, env, tx).value.balances
    ensures Step(h, w, env, tx).value.balances[a].amount < 0 <==> PruneOverdraws(w, tx, a)
  {
    hide Inv, Step, SeqSum, NewBatch, MarkTime;
    PayPruneCounts(h, w, env, tx);
  }

  lemma FeesOverdraw(h: Hasher, w: World, env: Env, tx: Tx, a: Address)
    requires Inv(w) && tx.TxFeePrune? && Step(h, w, env, tx).Some? && a in w.balances && w.balances[a].amount >= 0
    ensures a in Step(h, w, env, tx).value.balances
    ensures Step(h, w, env, tx).value.balances[a].amount < 0 <==> PruneOverdraws(w, tx, a)
  {
    hide Inv, Step, SeqSum, MarkTime, FeeMark, FeeBatchCounted;
    FeePruneCounts(h, w, env, tx);
    var v := Step(h, w, env, tx).value;
    if w.tokens[tx.code].policy.Some? {
      FeeBatchBalances(w, v, tx.code, w.tokens[tx.code].policy.value.target, EndTime(env.ts, tx.safe, tx.end), Batch(tx.order));
    } else {
      assert v.balances == w.balances;
    }
  }

  lemma FeeBatchBalances(w: World, v: World, code: string, target: Address, end: int, ids: seq<string>)
    requires FeeBatchCounted(w, v, code, target, end, ids)
    ensures target in w.balances
    ensures v.balances == w.balances[target := w.balances[target].(amount := w.balances[target].amount + SeqSum(AmountsOf(FeeRecs(w.fees)), ids))]
  {
  }

  // A balance that is below zero at the end of a run was taken there by such a prune.
  lemma {:induction false} OverdrawnByPrune(h: Hasher, calls: seq<Call>, a: Address) returns (i: nat)
    requires var w := Exec(h, EMPTY_WORLD, calls); a in w.balances && w.balances[a].amount < 0
    ensures i < |calls|
    ensures var u, c := Exec(h, EMPTY_WORLD, calls[..i]), calls[i];
      Step(h, u, c.env, c.tx).Some? && a in u.balances && u.balances[a].amount >= 0 && PruneOverdraws(u, c.tx, a)
  {
    hide Step, Inv, PruneOverdraws;
    var n := |calls| - 1;
    var u, c := Exec(h, EMPTY_WORLD, calls[..n]), calls[n];
    if a in u.balances && u.balances[a].amount < 0 {
      i := OverdrawnByPrune(h, calls[..n], a);
      assert calls[..n][..i] == calls[..i];
    } else {
      i := n;
      EmptyWorldOk();
      RunKeepsInv(h, EMPTY_WORLD, calls[..n]);
      if a in u.balances {
        BelowZeroIff(h, u, c.env, c.tx, a);
      } else {
        OpenedAtZero(h, u, c.env, c.tx, a);
      }
    }
  }

  lemma OpenedAtZero(h: Hasher, w: World, env: Env, tx: Tx, a: Address)
    requires Inv(w) && Step(h, w, env, tx).Some? && a !in w.balances
    ensures var v := Step(h, w, env, tx).value; a in v.balances ==> v.balances[a].amount >= 0
  {
    hide Inv, Step, SeqSum, NewBatch, MarkTime, FeeMark;
    if tx.TxPayPrune? {
      PayPruneCounts(h, w, env, tx);
    } else if tx.TxFeePrune? {
      FeePruneCounts(h, w, env, tx);
    } else {
      OthersStayCovered(h, w, env, tx, a);
    }
  }
}
