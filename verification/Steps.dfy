/**
  Every transaction the rules allow is a plan whose effects are all enabled, so
  every step keeps the invariant, and so does every run.
 */
module Steps {
  import opened Sums
  import opened Addresses
  import opened RecordIds
  import opened FeeFormulas
  import opened Pruning
  import opened Ledger
  import opened Fields
  import opened Rules
  import opened Invariants

  // The state a transaction starts from: its id is used, and no document carries it yet.
  ghost predicate Ready(w: World, env: Env) {
    && Inv(w)
    && InRange(env.ts) && env.txid in w.used && env.txid != ""
    && env.RecordId() !in w.pays && env.RecordId() !in w.fees
    && env.txid !in w.pendings && env.txid !in w.wraps
  }

  lemma BeginReady(w: World, env: Env)
    requires Inv(w) && InRange(env.ts) && env.txid !in w.used && env.txid != ""
    ensures Ready(Begin(w, env), env)
  {
    var v := Begin(w, env);
    BeginKeepsInv(w, env);
    if env.RecordId() in w.pays {
      assert PayOk(w.used, w.balances, env.RecordId(), w.pays[env.RecordId()]);
      IdsInjective(env.ts, env.txid, w.pays[env.RecordId()].created, w.pays[env.RecordId()].tx);
    }
    if env.RecordId() in w.fees {
      assert FeeOk(w.used, w.balances, env.RecordId(), w.fees[env.RecordId()]);
      IdsInjective(env.ts, env.txid, w.fees[env.RecordId()].created, w.fees[env.RecordId()].tx);
    }
    assert env.txid in w.pendings ==> PendingOk(w.used, w.balances, w.contracts, env.txid, w.pendings[env.txid]);
    assert env.txid in w.wraps ==> WrapOk(w.used, w.balances, w.completed, env.txid, w.wraps[env.txid]);
  }

  lemma BeginKeepsInv(w: World, env: Env)
    requires Inv(w)
    ensures Inv(Begin(w, env))
  {
    hide DocumentsOk, LogsOk, RefundsOk, PayMarksOk, FeeMarksOk, ShortfallOk, HoldersOk;
    BeginKeepsDocuments(w, env);
    BeginKeepsFeeMarks(w, env);
    BeginKeepsShortfall(w, env);
  }

  lemma BeginKeepsDocuments(w: World, env: Env)
    requires DocumentsOk(w)
    ensures DocumentsOk(Begin(w, env))
  {
    hide Backed;
  }

  lemma BeginKeepsFeeMarks(w: World, env: Env)
    requires FeeMarksOk(w)
    ensures FeeMarksOk(Begin(w, env))
  {
    hide MarkOk;
    assert forall code :: FeeMark(Begin(w, env), code) == FeeMark(w, code);
  }

  lemma BeginKeepsShortfall(w: World, env: Env)
    requires ShortfallOk(w)
    ensures ShortfallOk(Begin(w, env))
  {
    hide PayShort, FeeShort;
    assert forall a :: Shortfall(Begin(w, env), a) == Shortfall(w, a);
  }

  // ---- single effects ----

  lemma CreditEnabled(w: World, e: Effect)
    requires Inv(w) && e.Post? && e.a in w.balances && e.diff - e.logFee >= 0
    ensures Enabled(w, e)
  {
    assert w.balances[e.a].amount + Shortfall(w, e.a) >= 0;
  }

  lemma DebitEnabled(w: World, e: Effect)
    requires e.Post? && e.a in w.balances && w.balances[e.a].amount + e.diff - e.logFee >= 0
    ensures Enabled(w, e)
  {
    ShortfallNotNegative(w, e.a);
  }

  lemma LastStep(w: World, e: Effect)
    requires Enabled(w, e)
    ensures PlanOk(w, Then(e, Done))
  {
    assert PlanOk(Apply(w, e), Done);
  }

  lemma StepThen(w: World, e: Effect, rest: Plan)
    requires Enabled(w, e) && PlanOk(Apply(w, e), rest)
    ensures PlanOk(w, Then(e, rest))
  {
    hide Enabled, Apply;
  }

  // A fee record at the end of a plan, or in front of a rest that is fine with it.
  lemma FeeOkAnywhere(w: World, env: Env, account: Address, amount: int, cause: FeeCause, rest: Plan)
    requires Inv(w) && InRange(env.ts) && env.txid in w.used && env.RecordId() !in w.fees && account in w.balances
    requires amount == 0 ==> PlanOk(w, rest)
    requires amount != 0 ==> PlanOk(Apply(w, NewFee(env, account, amount, cause)), rest)
    ensures PlanOk(w, CreateFee(env, account, amount, cause, rest))
    ensures amount != 0 ==> Enabled(w, NewFee(env, account, amount, cause))
  {
  }

  // ---- accounts ----

  lemma JointAccountOk(h: Hasher, w: World, env: Env, code: string, kids: set<string>)
    requires Ready(w, env)
    ensures var p := JointAccount(h, w, env, code, kids, Done); p.Some? ==> PlanOk(w, p.value)
  {
    var a := NewAddress(h, code, JOINT, env.txid);
    if a !in w.accounts {
      LastStep(w, OpenAccount(a, Account(kids, false), kids));
    }
  }

  // Proposals only register a contract; the other account transactions are one effect.
  lemma ProposalOk(w: World, con: Con, doc: Doc)
    requires con.cid !in w.contracts && DocOk(w.balances, doc)
    ensures PlanOk(w, Then(PutContract(con.cid, doc), Done))
  {
    LastStep(w, PutContract(con.cid, doc));
  }

  lemma AccountPlansOk(h: Hasher, w: World, env: Env, tx: Tx)
    requires Inv(w) && (ContractOf(tx).Some? ==> ContractOf(tx).value.cid !in w.contracts)
    requires tx.TxAccountCreate? || tx.TxJointCreate? || tx.TxHolderAdd? || tx.TxHolderRemove? || tx.TxSuspend? || tx.TxUnsuspend?
    ensures PlanOf(h, w, env, tx).Some? ==> PlanOk(w, PlanOf(h, w, env, tx).value)
  {
    hide Inv, Gather, HexDecode, ID, PlanOk, Enabled, ValidateTokenCode, NewAddress, ParseAll, Apply;
    OwnersHaveBalances(w);
    var p := PlanOf(h, w, env, tx);
    if p.Some? {
      assert p.value.Then? && p.value.tail == Done;
      var e := p.value.head;
      if e.PutContract? {
        ProposalOk(w, ContractOf(tx).value, e.doc);
      } else {
        NewAddressParts(h, if tx.TxAccountCreate? then tx.code else "", PERSONAL, env.kid);
        AccountEffectOk(w, e);
      }
    }
  }

  lemma AccountEffectOk(w: World, e: Effect)
    requires e.OpenAccount? || e.SetSuspended? || e.DropHolder?
    requires e.OpenAccount? ==> e.a !in w.accounts && e.a.kind == PERSONAL
    requires !e.OpenAccount? ==> e.a in w.accounts
    ensures PlanOk(w, Then(e, Done))
  {
    LastStep(w, e);
  }

  // ---- tokens ----

  lemma MintOk(w: World, env: Env, code: string, amount: int)
    requires Ready(w, env) && amount >= 0
    ensures var p := Mint(w, env, code, amount); p.Some? ==> PlanOk(w, p.value)
  {
    hide LogsOk, RefundsOk, PayMarksOk, MarkOk, HoldersOk, ShortfallOk, Shortfall, PendingsOk, PaysOk, FeesOk, WrapsOk, ContractsOk, NewBatch, HexDecode;
    if Mint(w, env, code, amount).Some? {
      var plan := Mint(w, env, code, amount).value;
      assert TokenOk(w.balances, code, w.tokens[code]);
      KeepInv(w, plan.head);
      var v := Apply(w, plan.head);
      CreditEnabled(v, plan.tail.head);
      LastStep(v, plan.tail.head);
    }
  }

  lemma BurnOk(w: World, env: Env, code: string, amount: int)
    requires Ready(w, env)
    ensures var p := Burn(w, env, code, amount); p.Some? ==> PlanOk(w, p.value)
  {
    hide LogsOk, RefundsOk, PayMarksOk, MarkOk, HoldersOk, ShortfallOk, Shortfall, PendingsOk, PaysOk, FeesOk, WrapsOk, ContractsOk, NewBatch, HexDecode;
    var p := Burn(w, env, code, amount);
    if p.Some? && p.value.Then? {
      var plan := p.value;
      assert TokenOk(w.balances, code, w.tokens[code]);
      DebitEnabled(w, plan.head);
      var v := Apply(w, plan.head);
      LastStep(v, plan.tail.head);
    }
  }

  lemma NewAddressParts(h: Hasher, code: string, kind: Byte, id: string)
    ensures NewAddress(h, code, kind, id).code == code && NewAddress(h, code, kind, id).kind == kind
  {
  }

  // Storing the token that fits, after its genesis account is there.
  lemma NewTokenOk(v: World, env: Env, code: string, t: Token, initial: int)
    requires Inv(v) && TokenOk(v.balances, code, t) && code !in v.tokens && t.legacyMark == "" && initial >= 0
    ensures PlanOk(v, Then(PutToken(code, t), Done))
    ensures PlanOk(v, Then(Post(t.genesis, MintLog, NoRef, initial, 0, env.ts), Then(PutToken(code, t), Done)))
  {
    hide LogsOk, RefundsOk, PayMarksOk, MarkOk, HoldersOk, ShortfallOk, Shortfall, PendingsOk, PaysOk, FeesOk, WrapsOk, ContractsOk, NewBatch;
    LastStep(v, PutToken(code, t));
    var mint := Post(t.genesis, MintLog, NoRef, initial, 0, env.ts);
    CreditEnabled(v, mint);
    LastStep(Apply(v, mint), PutToken(code, t));
  }

  lemma CreateTokenOk(h: Hasher, w: World, env: Env, code: string, meta: Meta, kids: set<string>)
    requires Ready(w, env) && MetaValid(meta) && code !in w.tokens
    ensures var p := CreateToken(h, w, env, code, meta, kids); p.Some? ==> PlanOk(w, p.value)
  {
    hide Inv, NewAddress;
    NewAddressParts(h, code, JOINT, env.txid);
    var p := CreateToken(h, w, env, code, meta, kids);
    if p.Some? {
      var open := p.value.head;
      KeepInv(w, open);
      var t := if meta.initial > 0 then p.value.tail.tail.head.token else p.value.tail.head.token;
      NewTokenOk(Apply(w, open), env, code, t, meta.initial);
    }
  }

  // ---- balances ----

  lemma OwnersHaveBalances(w: World)
    requires Inv(w)
    ensures w.accounts.Keys == w.balances.Keys
  {
  }

  lemma DepositOk(w: World, env: Env, sender: Address, con: Con, doc: Doc, amount: int, fee: Option<int>)
    requires Ready(w, env) && con.cid !in w.contracts && sender in w.balances
    requires doc.Money() && doc.pb == env.txid && doc.sender == sender
    requires (doc.DocWrap? || (doc.receiver.code == sender.code && doc.receiver in w.balances)) && (doc.DocTransfer? || fee.None?)
    requires amount > 0 && FeePart(fee) >= 0 && w.balances[sender].amount >= amount + FeePart(fee)
    ensures PlanOk(w, Deposit(env, sender, con, doc, amount, fee))
  {
    var e1 := PutContract(con.cid, doc);
    var p := Pending(ContractHeld, sender, ToId(con.cid), amount, fee, con.expiry);
    var e2 := PutPending(env.txid, p);
    var e3 := Post(sender, DepositLog, ToId(con.cid), -amount, FeePart(fee), env.ts);
    var w1 := Apply(w, e1);
    var w2 := Apply(w1, e2);
    hide Inv, Shortfall, PlanOk, Enabled, Apply;
    PutContractFields(w, e1);
    PutPendingFields(w1, e2);
    EscrowEnabled(w, env, e1, e2);
    DebitEnabled(w2, e3);
    LastStep(w2, e3);
    StepThen(w1, e2, Then(e3, Done));
    StepThen(w, e1, Then(e2, Then(e3, Done)));
  }

  lemma EscrowEnabled(w: World, env: Env, e1: Effect, e2: Effect)
    requires Ready(w, env) && e1.PutContract? && e1.cid !in w.contracts && e2.PutPending? && e2.pid == env.txid
    requires var doc := e1.doc; doc.Money() && doc.pb == e2.pid && doc.sender == e2.p.account
    requires var doc := e1.doc; doc.DocWrap? || (doc.receiver.code == doc.sender.code && doc.receiver in w.balances)
    requires e2.p.account in w.balances && e2.p.custody == ContractHeld && e2.p.rid == ToId(e1.cid)
    requires e2.p.amount > 0 && FeePart(e2.p.fee) >= 0 && (e1.doc.DocTransfer? || e2.p.fee.None?)
    ensures Enabled(w, e1) && Enabled(Apply(w, e1), e2)
  {
    hide Inv, Apply;
    PutContractFields(w, e1);
    var w1 := Apply(w, e1);
    assert Backed(w1.balances, w1.contracts, e2.pid, e2.p);
  }

  // The receiving half is enabled, keeps the invariant, and touches no other balance.
  lemma ReceiveOk(w: World, env: Env, sender: Address, receiver: Address, amount: int, pendingTime: Option<int>, rest: Plan)
    requires Ready(w, env) && receiver in w.balances && amount > 0
    ensures var plan := Receive(env, sender, receiver, amount, pendingTime, rest);
      && plan.tail == rest && Enabled(w, plan.head)
      && (Accepted(w, plan.head) ==> Inv(Apply(w, plan.head)))
      && (forall a :: a in w.balances && a != receiver ==> Apply(w, plan.head).balances[a] == w.balances[a])
  {
    hide Inv, Enabled, Apply;
    var plan := Receive(env, sender, receiver, amount, pendingTime, rest);
    if plan.head.Post? {
      CreditEnabled(w, plan.head);
    } else {
      LockEnabled(w, env, plan.head);
    }
    if Accepted(w, plan.head) {
      KeepInv(w, plan.head);
    }
    OthersUntouched(w, plan.head, receiver);
  }

  lemma LockEnabled(w: World, env: Env, e: Effect)
    requires Ready(w, env) && e.PutPending? && e.pid == env.txid
    requires e.p.custody == AccountHeld && e.p.account in w.balances && e.p.amount > 0 && e.p.fee.None?
    ensures Enabled(w, e)
  {
    hide Inv;
  }

  lemma OthersUntouched(w: World, e: Effect, a: Address)
    requires e.PutPending? || (e.Post? && e.a == a)
    ensures forall x :: x in w.balances && x != a ==> x in Apply(w, e).balances && Apply(w, e).balances[x] == w.balances[x]
  {
  }

  lemma SendOk(w: World, env: Env, sender: Address, receiver: Address, amount: int, fee: int, pendingTime: Option<int>)
    requires Ready(w, env) && sender in w.balances && receiver in w.balances && sender != receiver
    requires amount > 0 && fee >= 0 && w.balances[sender].amount >= amount + fee
    ensures PlanOk(w, Send(env, sender, receiver, amount, fee, pendingTime))
  {
    hide Inv;
    var plan := Send(env, sender, receiver, amount, fee, pendingTime);
    ReceiveOk(w, env, sender, receiver, amount, pendingTime, plan.tail);
    var w1 := Apply(w, plan.head);
    DebitEnabled(w1, plan.tail.head);
    if Accepted(w, plan.head) && Accepted(w1, plan.tail.head) {
      KeepInv(w1, plan.tail.head);
      FeeOkAnywhere(Apply(w1, plan.tail.head), env, sender, fee, TransferFee, Done);
    }
  }

  lemma SendPendingOk(w: World, env: Env, pid: string, sender: Address, receiver: Address, pendingTime: Option<int>)
    requires Ready(w, env) && receiver in w.balances && pid in w.pendings
    ensures PlanOk(w, SendPending(env, pid, w.pendings[pid], sender, receiver, pendingTime))
  {
    hide LogsOk, RefundsOk, PayMarksOk, MarkOk, HoldersOk, ShortfallOk, Shortfall, PaysOk, FeesOk, WrapsOk, TokensOk, ContractsOk, NewBatch;
    var pb := w.pendings[pid];
    assert PendingOk(w.used, w.balances, w.contracts, pid, pb);
    var plan := SendPending(env, pid, pb, sender, receiver, pendingTime);
    ReceiveOk(w, env, sender, receiver, pb.amount, pendingTime, plan.tail);
    var w1 := Apply(w, plan.head);
    if Accepted(w, plan.head) {
      DropAfterFeeOk(w1, env, pid, pb.account, FeePart(pb.fee));
    }
  }

  lemma DropAfterFeeOk(w: World, env: Env, pid: string, account: Address, fee: int)
    requires Inv(w) && InRange(env.ts) && env.txid in w.used && env.RecordId() !in w.fees && pid in w.pendings && account in w.balances
    ensures PlanOk(w, CreateFee(env, account, fee, TransferFee, Then(DropPending(pid), Done)))
  {
    hide Inv;
    LastStep(w, DropPending(pid));
    LastStep(Apply(w, NewFee(env, account, fee, TransferFee)), DropPending(pid));
    FeeOkAnywhere(w, env, account, fee, TransferFee, Then(DropPending(pid), Done));
  }

  lemma WithdrawOk(w: World, env: Env, pid: string)
    requires Ready(w, env) && pid in w.pendings
    ensures PlanOk(w, Withdraw(env, pid, w.pendings[pid]))
  {
    hide LogsOk, RefundsOk, PayMarksOk, MarkOk, HoldersOk, ShortfallOk, Shortfall, PaysOk, FeesOk, WrapsOk, TokensOk, ContractsOk, NewBatch;
    assert PendingOk(w.used, w.balances, w.contracts, pid, w.pendings[pid]);
    var plan := Withdraw(env, pid, w.pendings[pid]);
    CreditEnabled(w, plan.head);
    LastStep(Apply(w, plan.head), plan.tail.head);
  }

  lemma TransferOk(w: World, env: Env, sender: Address, receiver: Address, amount: int, lockSeconds: Option<int>, orderId: string, extra: seq<Address>, con: Con)
    requires Ready(w, env) && con.cid !in w.contracts
    ensures var p := Transfer(w, env, sender, receiver, amount, lockSeconds, orderId, extra, con); p.Some? ==> PlanOk(w, p.value)
  {
    hide Inv, Gather, PlanOk;
    OwnersHaveBalances(w);
    var p := Transfer(w, env, sender, receiver, amount, lockSeconds, orderId, extra, con);
    if p.Some? {
      var fee := CalcFee(w, sender, "transfer", amount).value;
      DepositOk(w, env, sender, con, DocTransfer(env.txid, sender, receiver, orderId), amount, Some(fee));
      SendOk(w, env, sender, receiver, amount, fee, LockTime(env.ts, lockSeconds));
    }
  }

  // ---- pays ----

  lemma PlainPayOk(w: World, env: Env, receiver: Address, payer: Address, amount: int, fee: int)
    requires Ready(w, env) && receiver in w.balances && payer in w.balances && amount > 0 && fee >= 0
    ensures Enabled(w, PutPay(env.RecordId(), PayRec(receiver, amount, fee, 0, payer, "", env.ts, env.txid)))
  {
  }

  lemma PayPlanOk(w: World, env: Env, sender: Address, receiver: Address, amount: int, con: Con)
    requires Ready(w, env) && con.cid !in w.contracts
    ensures var p := Pay(w, env, sender, receiver, amount, con); p.Some? ==> PlanOk(w, p.value)
  {
    hide LogsOk, RefundsOk, PayMarksOk, MarkOk, HoldersOk, ShortfallOk, Shortfall, PaysOk, FeesOk, WrapsOk, TokensOk, ContractsOk, NewBatch, PendingsOk;
    var p := Pay(w, env, sender, receiver, amount, con);
    if p.Some? {
      if |OwnSigners(w, sender, env.kid)| > 1 {
        DepositOk(w, env, sender, con, DocPay(env.txid, sender, receiver), amount, None);
      } else {
        var plan := p.value;
        PlainPayOk(w, env, receiver, sender, amount, CalcFee(w, receiver, "pay", amount).value);
        DebitEnabled(Apply(w, plan.head), plan.tail.head);
        LastStep(Apply(w, plan.head), plan.tail.head);
      }
    }
  }

  lemma NewRefundOk(w: World, env: Env, payId: string, amount: int)
    requires Ready(w, env) && payId in w.pays && w.pays[payId].amount != 0
    requires amount > 0 && w.pays[payId].amount >= w.pays[payId].totalRefund + amount
    ensures var p := w.pays[payId];
      && p.amount > 0
      && Enabled(w, PutRefund(env.RecordId(), PayRec(p.merchant, -amount, -RefundFee(amount, p.amount, p.fee), 0, p.payer, payId, env.ts, env.txid)))
  {
    hide Sum, Children, LogsOk, PayMarksOk, MarkOk, HoldersOk, ShortfallOk, Shortfall, FeesOk, WrapsOk, TokensOk, PendingsOk, NewBatch, FloorDiv;
    assert RefundOk(w.pays, payId);
    assert PayOk(w.used, w.balances, payId, w.pays[payId]);
  }

  lemma RefundPlanOk(w: World, env: Env, payId: string, amount: int)
    requires Ready(w, env)
    ensures var p := Refund(w, env, payId, amount); p.Some? ==> PlanOk(w, p.value)
  {
    hide Inv, RefundFee;
    if Refund(w, env, payId, amount).Some? {
      var plan := Refund(w, env, payId, amount).value;
      NewRefundOk(w, env, payId, amount);
      KeepInv(w, plan.head);
      CreditEnabled(Apply(w, plan.head), plan.tail.head);
      LastStep(Apply(w, plan.head), plan.tail.head);
    }
  }

  // ---- prunes ----

  // What a merchant gains from records of its own, plus their losses, is never negative.
  lemma {:induction false} GainsCoverLosses(pays: map<string, PayRec>, a: Address, ids: seq<string>)
    requires forall id :: id in ids ==> id in pays && pays[id].merchant == a
    ensures var recs := PayRecs(pays);
      SeqSum(AmountsOf(recs), ids) - SeqSum(FeesOf(recs), ids) + SeqSum(PayLoss(pays, a), ids) >= 0
  {
    if ids != [] {
      assert ids[|ids| - 1] in ids;
      GainsCoverLosses(pays, a, ids[..|ids| - 1]);
    }
  }

  lemma {:induction false} FeesCoverLosses(fees: map<string, FeeRec>, ids: seq<string>)
    ensures SeqSum(AmountsOf(FeeRecs(fees)), ids) + SeqSum(FeeLoss(fees), ids) >= 0
  {
    if ids != [] {
      FeesCoverLosses(fees, ids[..|ids| - 1]);
    }
  }

  lemma PayMarkOf(w: World, a: Address)
    requires Inv(w) && a in w.balances
    ensures CountedBelow(PayRecs(w.pays), w.prunedPays, a, MarkTime(w.balances[a].mark))
  {
    hide SplitTime, DocumentsOk, LogsOk, RefundsOk, HoldersOk, FeeMarksOk, ShortfallOk, CountedBelow;
    assert MarkOk(PayRecs(w.pays), w.prunedPays, a, w.balances[a].mark);
  }

  lemma FeeMarkOf(w: World, code: string)
    requires Inv(w)
    ensures CountedBelow(FeeRecs(w.fees), w.prunedFees.Keys, code, MarkTime(FeeMark(w, code)))
  {
    hide SplitTime, DocumentsOk, LogsOk, RefundsOk, HoldersOk, PayMarksOk, ShortfallOk, CountedBelow;
    assert MarkOk(FeeRecs(w.fees), w.prunedFees.Keys, code, FeeMark(w, code));
  }

  lemma MarkPaysEnabled(w: World, a: Address, end: int, order: seq<string>)
    requires Inv(w) && a in w.balances && order != [] && WatermarkStart(w.balances[a].mark).Some?
    requires Listing(PayRecs(w.pays), a, WatermarkStart(w.balances[a].mark).value, end, order)
    ensures Enabled(w, MarkPays(a, Batch(order)))
  {
    hide Inv, Listing, CountedBelow, SplitTime;
    PayMarkOf(w, a);
    BatchIsNew(PayRecs(w.pays), w.prunedPays, a, WatermarkStart(w.balances[a].mark).value, end, order);
  }

  lemma MarkFeesEnabled(w: World, code: string, a: Address, end: int, order: seq<string>)
    requires Inv(w) && order != [] && WatermarkStart(FeeMark(w, code)).Some?
    requires Listing(FeeRecs(w.fees), code, WatermarkStart(FeeMark(w, code)).value, end, order)
    ensures Enabled(w, MarkFees(code, Batch(order), a))
  {
    hide Inv, Listing, CountedBelow, SplitTime;
    FeeMarkOf(w, code);
    BatchIsNew(FeeRecs(w.fees), w.prunedFees.Keys, code, WatermarkStart(FeeMark(w, code)).value, end, order);
  }

  lemma ShortfallOfPayBatch(w: World, a: Address, ids: seq<string>)
    requires Enabled(w, MarkPays(a, ids))
    ensures Shortfall(Apply(w, MarkPays(a, ids)), a) == Shortfall(w, a) + SeqSum(PayLoss(w.pays, a), ids)
  {
    PayShortBatch(w.pays, w.prunedPays, a, ids);
  }

  lemma ShortfallOfFeeBatch(w: World, code: string, ids: seq<string>, a: Address)
    requires Enabled(w, MarkFees(code, ids, a))
    ensures Shortfall(Apply(w, MarkFees(code, ids, a)), a) == Shortfall(w, a) + SeqSum(FeeLoss(w.fees), ids)
  {
    FeeShortBatch(w.fees, w.prunedFees, ids, a, a);
  }

  lemma PayPruneOk(w: World, env: Env, a: Address, end: int, order: seq<string>)
    requires Ready(w, env)
    requires a in w.balances && WatermarkStart(w.balances[a].mark).Some? ==>
      Listing(PayRecs(w.pays), a, WatermarkStart(w.balances[a].mark).value, end, order)
    ensures var p := PayPrune(w, env, a, order); p.Some? ==> PlanOk(w, p.value)
  {
    hide Inv, PlanOk, Enabled, Apply, Shortfall, Listing, SplitTime, SeqSum, CreateFee;
    if PayPrune(w, env, a, order).Some? {
      var ids := Batch(order);
      var recs := PayRecs(w.pays);
      var sum, fee := SeqSum(AmountsOf(recs), ids), SeqSum(FeesOf(recs), ids);
      var e1 := MarkPays(a, ids);
      var post := Post(a, PrunePayLog, NoRef, sum - fee, 0, env.ts);
      MarkPaysEnabled(w, a, end, order);
      var w1 := Apply(w, e1);
      KeepInv(w, e1);
      PostAfterPayBatch(w, a, ids, post);
      PruneTailOk(w, w1, env, a, fee, e1, post);
      StepThen(w, e1, CreateFee(env, a, fee, PayFee, Then(post, Done)));
    }
  }

  lemma PostAfterPayBatch(w: World, a: Address, ids: seq<string>, post: Effect)
    requires Inv(w) && Enabled(w, MarkPays(a, ids)) && post.Post? && post.a == a
    requires post.diff == SeqSum(AmountsOf(PayRecs(w.pays)), ids) - SeqSum(FeesOf(PayRecs(w.pays)), ids) && post.logFee == 0
    ensures Enabled(Apply(w, MarkPays(a, ids)), post)
  {
    hide SeqSum, Shortfall, DocumentsOk, LogsOk, RefundsOk, PayMarksOk, MarkOk, HoldersOk, CountedBelow;
    assert forall id :: id in ids ==> id in w.pays && w.pays[id].merchant == a;
    GainsCoverLosses(w.pays, a, ids);
    ShortfallOfPayBatch(w, a, ids);
  }

  lemma PruneTailOk(w: World, w1: World, env: Env, a: Address, fee: int, e1: Effect, post: Effect)
    requires Ready(w, env) && e1.MarkPays? && w1 == Apply(w, e1) && Inv(w1) && post.Post? && post.a == a && Enabled(w1, post)
    ensures PlanOk(w1, CreateFee(env, a, fee, PayFee, Then(post, Done)))
  {
    hide Inv, PlanOk;
    MarkKeepsFees(w, e1);
    assert a in w1.balances;
    hide Enabled, Apply;
    LastStep(w1, post);
    if fee != 0 {
      var e2 := NewFee(env, a, fee, PayFee);
      DoneOk(w1);
      DoneOk(Apply(w1, e2));
      FeeOkAnywhere(w1, env, a, fee, PayFee, Done);
      PostAfterFee(w1, e2, post);
      LastStep(Apply(w1, e2), post);
      StepThen(w1, e2, Then(post, Done));
    }
  }

  lemma MarkKeepsFees(w: World, e: Effect)
    requires e.MarkPays?
    ensures Apply(w, e).fees == w.fees && Apply(w, e).used == w.used
  {
  }

  lemma PostAfterFee(w: World, e: Effect, post: Effect)
    requires Inv(w) && e.PutFee? && Enabled(w, e) && post.Post? && Enabled(w, post)
    ensures Enabled(Apply(w, e), post)
  {
    hide Inv, Shortfall, Apply, Enabled;
    FeeKeepsShortfall(w, e);
    PutFeeFields(w, e);
    PostEnabled(w, post);
    PostEnabled(Apply(w, e), post);
  }

  // A posting is enabled by the balance and the shortfall of its account alone.
  lemma PostEnabled(w: World, post: Effect)
    requires post.Post?
    ensures Enabled(w, post) <==> post.a in w.balances && w.balances[post.a].amount + post.diff - post.logFee + Shortfall(w, post.a) >= 0
  {
    hide Shortfall;
  }

  lemma DoneOk(w: World)
    ensures PlanOk(w, Done)
  {
  }

  lemma FeeKeepsShortfall(w: World, e: Effect)
    requires Inv(w) && e.PutFee? && Enabled(w, e)
    ensures forall a :: Shortfall(Apply(w, e), a) == Shortfall(w, a)
  {
    forall a ensures Shortfall(Apply(w, e), a) == Shortfall(w, a) {
      hide Shortfall, Enabled, PayMarksOk, FeeMarksOk;
      ShortfallGrows(w, e, a);
    }
  }

  lemma FeePruneOk(w: World, env: Env, code: string, end: int, order: seq<string>)
    requires Ready(w, env)
    requires WatermarkStart(FeeMark(w, code)).Some? ==>
      Listing(FeeRecs(w.fees), code, WatermarkStart(FeeMark(w, code)).value, end, order)
    ensures var p := FeePrune(w, env, code, order); p.Some? ==> PlanOk(w, p.value)
  {
    hide Inv, PlanOk, Enabled, Listing, SplitTime, SeqSum, Shortfall;
    var p := FeePrune(w, env, code, order);
    DoneOk(w);
    if p.Some? && p.value.Then? {
      var ids := Batch(order);
      var t := w.tokens[code];
      var target := t.policy.value.target;
      var e1 := MarkFees(code, ids, target);
      var post := Post(target, PruneFeeLog, NoRef, SeqSum(AmountsOf(FeeRecs(w.fees)), ids), 0, env.ts);
      MarkFeesEnabled(w, code, target, end, order);
      var w1 := Apply(w, e1);
      PostAfterFeeBatch(w, code, ids, target, post);
      LastStep(w1, post);
      if code !in w.feeMarks {
        TokenOf(w, code);
        MigrationOk(w1, code, t, post);
        StepThen(w, e1, Then(PutToken(code, t.(legacyMark := "")), Then(post, Done)));
      } else {
        StepThen(w, e1, Then(post, Done));
      }
    }
  }

  lemma PostAfterFeeBatch(w: World, code: string, ids: seq<string>, a: Address, post: Effect)
    requires Inv(w) && Enabled(w, MarkFees(code, ids, a)) && post.Post? && post.a == a && a in w.balances
    requires post.diff == SeqSum(AmountsOf(FeeRecs(w.fees)), ids) && post.logFee == 0
    ensures Enabled(Apply(w, MarkFees(code, ids, a)), post)
  {
    hide SeqSum, Shortfall, DocumentsOk, LogsOk, RefundsOk, PayMarksOk, MarkOk, HoldersOk, CountedBelow;
    FeesCoverLosses(w.fees, ids);
    ShortfallOfFeeBatch(w, code, ids, a);
  }

  lemma TokenOf(w: World, code: string)
    requires Inv(w) && code in w.tokens
    ensures TokenOk(w.balances, code, w.tokens[code])
  {
    hide LogsOk, RefundsOk, PayMarksOk, FeeMarksOk, HoldersOk, ShortfallOk, PendingsOk, PaysOk, FeesOk, WrapsOk;
  }

  // Dropping the legacy watermark of the token once its own document is there.
  lemma MigrationOk(w: World, code: string, t: Token, post: Effect)
    requires code in w.feeMarks && TokenOk(w.balances, code, t) && post.Post? && Enabled(w, post)
    ensures PlanOk(w, Then(PutToken(code, t.(legacyMark := "")), Then(post, Done)))
  {
    var e := PutToken(code, t.(legacyMark := ""));
    assert Shortfall(Apply(w, e), post.a) == Shortfall(w, post.a);
    LastStep(Apply(w, e), post);
    StepThen(w, e, Then(post, Done));
  }

  // ---- bridge ----

  lemma NewWrapOk(w: World, env: Env, sender: Address, amount: int, extCode: string, extId: string)
    requires Ready(w, env) && amount > 0 && sender in w.balances
    ensures Enabled(w, PutWrap(env.txid, WrapRec(sender, amount, extCode, extId, "")))
  {
    hide LogsOk, RefundsOk, PayMarksOk, FeeMarksOk, HoldersOk, ShortfallOk, PendingsOk, PaysOk, FeesOk, TokensOk;
  }

  lemma WrapPlanOk(w: World, env: Env, sender: Address, extCode: string, extId: string, amount: int, extra: seq<Address>, con: Con)
    requires Ready(w, env) && con.cid !in w.contracts
    ensures var p := Wrap(w, env, sender, extCode, extId, amount, extra, con); p.Some? ==> PlanOk(w, p.value)
  {
    hide Inv, Gather, PlanOk, Enabled, Shortfall;
    var p := Wrap(w, env, sender, extCode, extId, amount, extra, con);
    if p.Some? {
      DepositOk(w, env, sender, con, DocWrap(env.txid, sender, extCode, extId), amount, None);
      var e := PutWrap(env.txid, WrapRec(sender, amount, extCode, extId, ""));
      var post := Post(sender, WrapLog, ToId(extId), -amount, 0, env.ts);
      NewWrapOk(w, env, sender, amount, extCode, extId);
      DebitEnabled(Apply(w, e), post);
      LastStep(Apply(w, e), post);
      StepThen(w, e, Then(post, Done));
    }
  }

  lemma WrapCompleteOk(w: World, env: Env, wrapId: string, fee: int, extTx: Option<string>)
    requires Ready(w, env)
    ensures var p := WrapComplete(w, env, wrapId, fee, extTx); p.Some? ==> PlanOk(w, p.value)
  {
    hide Inv, PlanOk, Shortfall, ToLower;
    var p := WrapComplete(w, env, wrapId, fee, extTx);
    if p.Some? {
      var e, post := p.value.head, p.value.tail.head;
      WrapIdNotEmpty(w, wrapId);
      KeepInv(w, e);
      var w1 := Apply(w, e);
      CreditEnabled(w1, post);
      if Accepted(w1, post) {
        KeepInv(w1, post);
        var w2 := Apply(w1, post);
        DoneOk(w2);
        DoneOk(Apply(w2, NewFee(env, post.a, post.logFee, WrapFee)));
        FeeOkAnywhere(w2, env, post.a, post.logFee, WrapFee, Done);
      }
      ThenIfAccepted(w1, post, p.value.tail.tail);
      StepThen(w, e, p.value.tail);
    }
  }

  lemma ThenIfAccepted(w: World, e: Effect, rest: Plan)
    requires Accepted(w, e) ==> Enabled(w, e) && PlanOk(Apply(w, e), rest)
    ensures PlanOk(w, Then(e, rest))
  {
    hide Enabled, Apply;
  }

  // A wrap is stored under the id of its transaction, which is never empty.
  lemma WrapIdNotEmpty(w: World, wrapId: string)
    requires Inv(w) && wrapId in w.wraps && w.wraps[wrapId].completeTx == ""
    ensures wrapId in w.used && w.wraps[wrapId].amount > 0 && wrapId !in w.completed && wrapId != ""
  {
    hide LogsOk, RefundsOk, PayMarksOk, FeeMarksOk, HoldersOk, ShortfallOk, PendingsOk, PaysOk, FeesOk, TokensOk;
    assert WrapOk(w.used, w.balances, w.completed, wrapId, w.wraps[wrapId]);
  }

  lemma UnwrapOk(w: World, env: Env, code: string, receiver: Option<Address>, extCode: string, extId: string, extTx: string, amount: int)
    requires Ready(w, env)
    ensures var p := Unwrap(w, env, code, receiver, extCode, extId, extTx, amount); p.Some? ==> PlanOk(w, p.value)
  {
    hide Inv, PlanOk, Shortfall, ToLower;
    var p := Unwrap(w, env, code, receiver, extCode, extId, extTx, amount);
    if p.Some? {
      var e, post := p.value.head, p.value.tail.head;
      KeepInv(w, e);
      var w1 := Apply(w, e);
      CreditEnabled(w1, post);
      if p.value.tail.tail == Done {
        LastStep(w1, post);
      } else {
        var debit := p.value.tail.tail.head;
        DebitEnabled(Apply(w1, post), debit);
        LastStep(Apply(w1, post), debit);
        StepThen(w1, post, Then(debit, Done));
      }
      StepThen(w, e, p.value.tail);
    }
  }

  // ---- contract callbacks ----

  lemma PendingOf(w: World, pid: string)
    requires Inv(w) && pid in w.pendings
    ensures PendingOk(w.used, w.balances, w.contracts, pid, w.pendings[pid])
  {
    hide LogsOk, RefundsOk, PayMarksOk, FeeMarksOk, HoldersOk, ShortfallOk, WrapsOk, PaysOk, FeesOk, TokensOk;
  }

  lemma ContractOfDoc(w: World, cid: string)
    requires Inv(w) && cid in w.contracts
    ensures DocOk(w.balances, w.contracts[cid])
  {
    hide LogsOk, RefundsOk, PayMarksOk, FeeMarksOk, HoldersOk, ShortfallOk, WrapsOk, PaysOk, FeesOk, TokensOk, PendingsOk;
  }

  lemma ExecutePayOk(w: World, env: Env, cid: string, doc: Doc)
    requires Ready(w, env) && doc.DocPay? && doc.receiver in w.balances
    ensures var p := ExecutePay(w, env, cid, doc); p.Some? ==> PlanOk(w, p.value)
  {
    hide Inv, PlanOk, Enabled;
    var p := ExecutePay(w, env, cid, doc);
    if p.Some? {
      var pb := w.pendings[doc.pb];
      PendingOf(w, doc.pb);
      PlainPayOk(w, env, doc.receiver, pb.account, pb.amount, CalcFee(w, doc.receiver, "pay", pb.amount).value);
      var w1 := Apply(w, p.value.head);
      DropOk(w1, doc.pb);
      StepThen(w, p.value.head, p.value.tail);
    }
  }

  lemma DropOk(w: World, pid: string)
    requires pid in w.pendings
    ensures PlanOk(w, Then(DropPending(pid), Done))
  {
    LastStep(w, DropPending(pid));
  }

  lemma ExecuteWrapOk(w: World, env: Env, cid: string, doc: Doc)
    requires Ready(w, env) && doc.DocWrap?
    ensures var p := ExecuteWrap(w, env, cid, doc); p.Some? ==> PlanOk(w, p.value)
  {
    hide Inv, PlanOk, Enabled;
    var p := ExecuteWrap(w, env, cid, doc);
    if p.Some? {
      PendingOf(w, doc.pb);
      NewWrapOk(w, env, doc.sender, w.pendings[doc.pb].amount, doc.extCode, doc.extId);
      DropOk(Apply(w, p.value.head), doc.pb);
      StepThen(w, p.value.head, p.value.tail);
    }
  }

  lemma ExecuteOk(h: Hasher, w: World, env: Env, cid: string, meta: Meta)
    requires Ready(w, env)
    ensures var p := Execute(h, w, env, cid, meta); p.Some? ==> PlanOk(w, p.value)
  {
    hide Inv, PlanOk, Enabled, CreateToken, JointAccount, Mint, Burn, ExecutePay, ExecuteWrap;
    if cid in w.contracts {
      var doc := w.contracts[cid];
      ContractOfDoc(w, cid);
      if doc.Money() && Holds(w, cid, doc.pb) {
        PendingOf(w, doc.pb);
        if doc.DocTransfer? {
          SendPendingOk(w, env, doc.pb, doc.sender, doc.receiver, LockOf(doc.orderId));
        } else if doc.DocPay? {
          ExecutePayOk(w, env, cid, doc);
        } else {
          ExecuteWrapOk(w, env, cid, doc);
        }
      } else if doc.DocMint? {
        MintOk(w, env, doc.code, doc.amount);
      } else if doc.DocBurn? {
        BurnOk(w, env, doc.code, doc.amount);
      } else if doc.DocTokenCreate? && doc.code !in w.tokens && MetaValid(meta) {
        CreateTokenOk(h, w, env, doc.code, meta, doc.holders);
      } else if doc.DocAccountCreate? {
        JointAccountOk(h, w, env, doc.code, doc.holders);
      } else if doc.DocHolderAdd? || doc.DocHolderRemove? {
        ExecuteHoldersOk(w, doc.account, doc.kid);
      } else if doc.Money() {
        NothingHeld(w, env, cid, doc);
      }
    }
  }

  lemma NothingHeld(w: World, env: Env, cid: string, doc: Doc)
    requires doc.Money() && !Holds(w, cid, doc.pb)
    ensures doc.DocPay? ==> ExecutePay(w, env, cid, doc).None?
    ensures doc.DocWrap? ==> ExecuteWrap(w, env, cid, doc).None?
  {
  }

  lemma ExecuteHoldersOk(w: World, a: Address, kid: string)
    ensures ExecuteHolderAdd(w, a, kid).Some? ==> PlanOk(w, ExecuteHolderAdd(w, a, kid).value)
    ensures ExecuteHolderRemove(w, a, kid).Some? ==> PlanOk(w, ExecuteHolderRemove(w, a, kid).value)
  {
    if a in w.accounts {
      LastStep(w, AddHolder(a, kid));
      LastStep(w, DropHolder(a, kid));
    }
  }

  lemma CancelOk(w: World, env: Env, cid: string)
    requires Ready(w, env)
    ensures var p := Cancel(w, env, cid); p.Some? ==> PlanOk(w, p.value)
  {
    hide Inv, PlanOk, Enabled;
    DoneOk(w);
    if cid in w.contracts && w.contracts[cid].Money() && Holds(w, cid, w.contracts[cid].pb) {
      WithdrawOk(w, env, w.contracts[cid].pb);
    }
  }

  // ---- every transaction ----

  lemma TokenMintOk(w: World, env: Env, code: string, amount: int, con: Con)
    requires Ready(w, env) && con.cid !in w.contracts
    ensures var p := TokenMint(w, env, code, amount, con); p.Some? ==> PlanOk(w, p.value)
  {
    hide Inv, PlanOk, Mint;
    if TokenMint(w, env, code, amount, con).Some? {
      ProposalOk(w, con, DocMint(code, amount));
      MintOk(w, env, code, amount);
    }
  }

  lemma TokenBurnOk(w: World, env: Env, code: string, amount: int, con: Con)
    requires Ready(w, env) && con.cid !in w.contracts
    ensures var p := TokenBurn(w, env, code, amount, con); p.Some? ==> PlanOk(w, p.value)
  {
    hide Inv, PlanOk, Burn;
    if TokenBurn(w, env, code, amount, con).Some? {
      ProposalOk(w, con, DocBurn(code, amount));
      BurnOk(w, env, code, amount);
    }
  }

  lemma TokenCreateOk(h: Hasher, w: World, env: Env, code: string, meta: Meta, co: seq<Address>, con: Con)
    requires Ready(w, env) && con.cid !in w.contracts
    ensures var p := TokenCreate(h, w, env, code, meta, co, con); p.Some? ==> PlanOk(w, p.value)
  {
    hide Inv, PlanOk, Gather, CreateToken;
    if TokenCreate(h, w, env, code, meta, co, con).Some? {
      var kids := Gather(w, code, co, {env.kid}).value;
      ProposalOk(w, con, DocTokenCreate(code, kids));
      CreateTokenOk(h, w, env, code, meta, kids);
    }
  }

  lemma TokenUpdateOk(w: World, code: string, meta: Meta)
    requires Inv(w)
    ensures var p := TokenUpdate(w, code, meta); p.Some? ==> PlanOk(w, p.value)
  {
    hide Inv, PlanOk;
    DoneOk(w);
    var p := TokenUpdate(w, code, meta);
    if p.Some? && p.value.Then? {
      TokenOf(w, code);
      LastStep(w, p.value.head);
    }
  }

  lemma PlansOk(h: Hasher, w: World, env: Env, tx: Tx)
    requires Ready(w, env) && QueryAnswered(w, env, tx)
    requires ContractOf(tx).Some? ==> ContractOf(tx).value.cid !in w.contracts
    ensures PlanOf(h, w, env, tx).Some? ==> PlanOk(w, PlanOf(h, w, env, tx).value)
  {
    hide Inv, PlanOk, Listing, Transfer, Pay, Refund, PayPrune, FeePrune, PendingWithdraw, Wrap, WrapComplete, Unwrap, Execute, Cancel;
    hide AccountCreate, JointCreate, HolderAdd, HolderRemove, Suspend, TokenCreate, TokenUpdate, TokenMint, TokenBurn, SplitTime;
    match tx {
      case TxTokenCreate(code, meta, co, con) => TokenCreateOk(h, w, env, code, meta, co, con);
      case TxTokenUpdate(code, meta) => TokenUpdateOk(w, code, meta);
      case TxMint(code, amount, con) => TokenMintOk(w, env, code, amount, con);
      case TxBurn(code, amount, con) => TokenBurnOk(w, env, code, amount, con);
      case TxTransfer(sender, receiver, amount, lockSeconds, orderId, extra, con) => TransferOk(w, env, sender, receiver, amount, lockSeconds, orderId, extra, con);
      case TxPay(sender, receiver, amount, con) => PayPlanOk(w, env, sender, receiver, amount, con);
      case TxRefund(payId, amount) => RefundPlanOk(w, env, payId, amount);
      case TxPayPrune(a, safe, end, order) => PayPruneOk(w, env, a, EndTime(env.ts, safe, end), order);
      case TxFeePrune(code, safe, end, order) => FeePruneOk(w, env, code, EndTime(env.ts, safe, end), order);
      case TxWithdraw(pid) => PendingWithdrawOk(w, env, pid);
      case TxWrap(sender, extCode, extId, amount, extra, con) => WrapPlanOk(w, env, sender, extCode, extId, amount, extra, con);
      case TxWrapComplete(wrapId, fee, extTx) => WrapCompleteOk(w, env, wrapId, fee, extTx);
      case TxUnwrap(code, to, extCode, extId, burnTx, amount) => UnwrapOk(w, env, code, to, extCode, extId, burnTx, amount);
      case TxExecute(cid, meta) => ExecuteOk(h, w, env, cid, meta);
      case TxCancel(cid) => CancelOk(w, env, cid);
      case _ =>
        AccountPlansOk(h, w, env, tx);
    }
  }

  lemma PendingWithdrawOk(w: World, env: Env, pid: string)
    requires Ready(w, env)
    ensures var p := PendingWithdraw(w, env, pid); p.Some? ==> PlanOk(w, p.value)
  {
    hide Inv, PlanOk;
    if pid in w.pendings {
      WithdrawOk(w, env, pid);
    }
  }

  // Every committed transaction keeps the invariant.
  lemma StepKeepsInv(h: Hasher, w: World, env: Env, tx: Tx)
    requires Inv(w) && Step(h, w, env, tx).Some?
    ensures Inv(Step(h, w, env, tx).value)
  {
    hide Inv, PlanOf, PlanOk, Commit, QueryAnswered;
    BeginReady(w, env);
    assert QueryAnswered(Begin(w, env), env, tx) by { SameQuery(w, env, tx); }
    PlansOk(h, Begin(w, env), env, tx);
    KeepInvAll(Begin(w, env), PlanOf(h, Begin(w, env), env, tx).value);
  }

  lemma SameQuery(w: World, env: Env, tx: Tx)
    ensures QueryAnswered(Begin(w, env), env, tx) == QueryAnswered(w, env, tx)
  {
    assert forall code :: FeeMark(Begin(w, env), code) == FeeMark(w, code);
  }

  // The invariant holds in every state of every run, whatever the interleaving.
  lemma {:induction false} RunKeepsInv(h: Hasher, w: World, calls: seq<Call>)
    requires Inv(w)
    ensures Inv(Exec(h, w, calls))
  {
    hide Inv, Step;
    if calls != [] {
      RunKeepsInv(h, w, calls[..|calls| - 1]);
      var c, v := calls[|calls| - 1], Exec(h, w, calls[..|calls| - 1]);
      if Step(h, v, c.env, c.tx).Some? {
        StepKeepsInv(h, v, c.env, c.tx);
      }
    }
  }
}
