/**
  Which kinds of effects each transaction may compose, and what a plan without a
  kind leaves alone.
 */
module Shapes {
  import opened Sums
  import opened Addresses
  import opened Pruning
  import opened Ledger
  import opened Rules
  import opened FeeFormulas
  import opened RecordIds

  // BridgePost is a posting of the bridge on the balance of a wrap account.
  datatype Kind =
    | KPost | KBridgePost | KPutPending | KDropPending | KPutPay | KPutRefund | KPutFee | KWrapFee | KPutWrap | KCloseWrap
    | KPutUnwrap | KPutToken | KMarkPays | KMarkFees | KPutContract | KAccounts

  predicate BridgeKind(kind: LogKind) {
    kind == WrapCompleteLog || kind == UnwrapCompleteLog
  }

  function KindOf(e: Effect): Kind {
    match e
    case Post(_, kind, _, _, _, _) => if BridgeKind(kind) then KBridgePost else KPost
    case PutPending(_, _) => KPutPending
    case DropPending(_) => KDropPending
    case PutPay(_, _) => KPutPay
    case PutRefund(_, _) => KPutRefund
    case PutFee(_, fee) => if fee.cause == WrapFee then KWrapFee else KPutFee
    case PutWrap(_, _) => KPutWrap
    case CloseWrap(_, _, _) => KCloseWrap
    case PutUnwrap(_, _) => KPutUnwrap
    case PutToken(_, _) => KPutToken
    case MarkPays(_, _) => KMarkPays
    case MarkFees(_, _, _) => KMarkFees
    case PutContract(_, _) => KPutContract
    case OpenAccount(_, _, _) => KAccounts
    case SetSuspended(_, _) => KAccounts
    case AddHolder(_, _) => KAccounts
    case DropHolder(_, _) => KAccounts
  }

  // New documents and log entries carry the id and the timestamp of their transaction.
  predicate Stamped(e: Effect, env: Env) {
    && (e.Post? ==> e.ts == env.ts)
    && (e.PutPending? ==> e.pid == env.txid)
    && (e.PutWrap? ==> e.id == env.txid)
    && (e.PutUnwrap? ==> e.unwrap.completeTx == env.txid)
    && (e.PutPay? || e.PutRefund? ==> e.id == env.RecordId() && e.pay.created == env.ts && e.pay.tx == env.txid)
    && (e.PutFee? ==> e.id == env.RecordId() && e.fee.created == env.ts && e.fee.tx == env.txid)
  }

  predicate Only(plan: Plan, env: Env, kinds: set<Kind>)
    decreases plan
  {
    plan.Then? ==> KindOf(plan.head) in kinds && Stamped(plan.head, env) && Only(plan.tail, env, kinds)
  }

  function KindsOfDoc(doc: Doc): set<Kind> {
    match doc
    case DocTransfer(_, _, _, _) => {KPost, KPutPending, KPutFee, KDropPending}
    case DocPay(_, _, _) => {KPutPay, KDropPending}
    case DocWrap(_, _, _, _) => {KPutWrap, KDropPending}
    case DocMint(_, _) => {KPost, KPutToken}
    case DocBurn(_, _) => {KPost, KPutToken}
    case DocTokenCreate(_, _) => {KAccounts, KPost, KPutToken}
    case _ => {KAccounts}
  }

  function KindsOf(w: World, tx: Tx): set<Kind> {
    match tx
    case TxTokenCreate(_, _, _, _) => {KPutContract, KAccounts, KPost, KPutToken}
    case TxTokenUpdate(_, _) => {KPutToken}
    case TxMint(_, _, _) => {KPutContract, KPost, KPutToken}
    case TxBurn(_, _, _) => {KPutContract, KPost, KPutToken}
    case TxTransfer(_, _, _, _, _, _, _) => {KPutContract, KPutPending, KPost, KPutFee}
    case TxPay(_, _, _, _) => {KPutContract, KPutPending, KPutPay, KPost}
    case TxRefund(_, _) => {KPutRefund, KPost}
    case TxPayPrune(_, _, _, _) => {KMarkPays, KPutFee, KPost}
    case TxFeePrune(_, _, _, _) => {KMarkFees, KPutToken, KPost}
    case TxWithdraw(_) => {KPost, KDropPending}
    case TxWrap(_, _, _, _, _, _) => {KPutContract, KPutPending, KPutWrap, KPost}
    case TxWrapComplete(_, _, _) => {KCloseWrap, KBridgePost, KWrapFee}
    case TxUnwrap(_, _, _, _, _, _) => {KPutUnwrap, KPost, KBridgePost}
    case TxExecute(cid, _) => if cid in w.contracts then KindsOfDoc(w.contracts[cid]) else {}
    case TxCancel(_) => {KPost, KDropPending}
    case _ => {KPutContract, KAccounts}
  }

  lemma OnlyThen(e: Effect, rest: Plan, env: Env, kinds: set<Kind>)
    requires KindOf(e) in kinds && Stamped(e, env) && Only(rest, env, kinds)
    ensures Only(Then(e, rest), env, kinds)
  {
  }

  lemma DepositShape(env: Env, sender: Address, con: Con, doc: Doc, amount: int, fee: Option<int>, kinds: set<Kind>)
    requires KPutContract in kinds && KPutPending in kinds && KPost in kinds
    ensures Only(Deposit(env, sender, con, doc, amount, fee), env, kinds)
  {
    var plan := Deposit(env, sender, con, doc, amount, fee);
    assert Only(plan.tail.tail, env, kinds);
  }

  lemma FeeShape(env: Env, account: Address, amount: int, cause: FeeCause, rest: Plan, kinds: set<Kind>)
    requires (if cause == WrapFee then KWrapFee else KPutFee) in kinds && Only(rest, env, kinds)
    ensures Only(CreateFee(env, account, amount, cause, rest), env, kinds)
  {
  }

  lemma TransferShape(h: Hasher, w: World, env: Env, tx: Tx)
    requires tx.TxTransfer? && PlanOf(h, w, env, tx).Some?
    ensures Only(PlanOf(h, w, env, tx).value, env, KindsOf(w, tx))
  {
    hide Only, Gather, Send, CalcFee;
    var kinds := KindsOf(w, tx);
    var fee := CalcFee(w, tx.sender, "transfer", tx.amount).value;
    DepositShape(env, tx.sender, tx.con, DocTransfer(env.txid, tx.sender, tx.receiver, tx.orderId), tx.amount, Some(fee), kinds);
    SendShape(env, tx.sender, tx.receiver, tx.amount, fee, LockTime(env.ts, tx.lockSeconds), kinds);
  }

  lemma OnlyDone(env: Env, kinds: set<Kind>)
    ensures Only(Done, env, kinds)
  {
  }

  lemma TwoShape(e: Effect, f: Effect, env: Env, kinds: set<Kind>)
    requires KindOf(e) in kinds && KindOf(f) in kinds && Stamped(e, env) && Stamped(f, env)
    ensures Only(Then(e, Then(f, Done)), env, kinds)
  {
    assert Only(Then(f, Done), env, kinds);
  }

  lemma PayShape(h: Hasher, w: World, env: Env, tx: Tx)
    requires (tx.TxPay? || tx.TxWrap? || tx.TxRefund?) && PlanOf(h, w, env, tx).Some?
    ensures Only(PlanOf(h, w, env, tx).value, env, KindsOf(w, tx))
  {
    hide Gather, RefundFee, Only, CalcFee;
    var plan, kinds := PlanOf(h, w, env, tx).value, KindsOf(w, tx);
    if plan.head.PutContract? {
      if tx.TxPay? {
        DepositShape(env, tx.sender, tx.con, DocPay(env.txid, tx.sender, tx.receiver), tx.amount, None, kinds);
      } else {
        DepositShape(env, tx.sender, tx.con, DocWrap(env.txid, tx.sender, tx.extCode, tx.extId), tx.amount, None, kinds);
      }
    } else {
      TwoShape(plan.head, plan.tail.head, env, kinds);
    }
  }

  lemma PayPruneShape(w: World, env: Env, a: Address, order: seq<string>, kinds: set<Kind>)
    requires PayPrune(w, env, a, order).Some? && KMarkPays in kinds && KPutFee in kinds && KPost in kinds
    ensures Only(PayPrune(w, env, a, order).value, env, kinds)
  {
    hide SeqSum, SplitTime, Only, CreateFee;
    var plan := PayPrune(w, env, a, order).value;
    var ids, recs := Batch(order), PayRecs(w.pays);
    var sum, fee := SeqSum(AmountsOf(recs), ids), SeqSum(FeesOf(recs), ids);
    var post := Post(a, PrunePayLog, NoRef, sum - fee, 0, env.ts);
    OneShape(post, env, kinds);
    FeeShape(env, a, fee, PayFee, Then(post, Done), kinds);
    OnlyThen(plan.head, plan.tail, env, kinds);
  }

  lemma FeePruneShape(w: World, env: Env, code: string, order: seq<string>, kinds: set<Kind>)
    requires FeePrune(w, env, code, order).Some? && KMarkFees in kinds && KPutToken in kinds && KPost in kinds
    ensures Only(FeePrune(w, env, code, order).value, env, kinds)
  {
    hide SeqSum, SplitTime, Only, FeeMark;
    var plan := FeePrune(w, env, code, order).value;
    OnlyDone(env, kinds);
    if plan.Then? {
      if plan.tail.head.Post? {
        TwoShape(plan.head, plan.tail.head, env, kinds);
      } else {
        TwoShape(plan.tail.head, plan.tail.tail.head, env, kinds);
        OnlyThen(plan.head, plan.tail, env, kinds);
      }
    }
  }

  lemma PruneShape(h: Hasher, w: World, env: Env, tx: Tx)
    requires (tx.TxPayPrune? || tx.TxFeePrune?) && PlanOf(h, w, env, tx).Some?
    ensures Only(PlanOf(h, w, env, tx).value, env, KindsOf(w, tx))
  {
    hide Only, PayPrune, FeePrune;
    if tx.TxPayPrune? {
      PayPruneShape(w, env, tx.account, tx.order, KindsOf(w, tx));
    } else {
      FeePruneShape(w, env, tx.code, tx.order, KindsOf(w, tx));
    }
  }

  lemma CompleteShape(w: World, env: Env, wrapId: string, fee: int, extTx: Option<string>, kinds: set<Kind>)
    requires WrapComplete(w, env, wrapId, fee, extTx).Some? && KCloseWrap in kinds && KBridgePost in kinds && KWrapFee in kinds
    ensures Only(WrapComplete(w, env, wrapId, fee, extTx).value, env, kinds)
  {
    hide NormalizeExtTxID, Only, CreateFee;
    var plan := WrapComplete(w, env, wrapId, fee, extTx).value;
    var post := plan.tail.head;
    OnlyDone(env, kinds);
    FeeShape(env, post.a, post.logFee, WrapFee, Done, kinds);
    OnlyThen(post, plan.tail.tail, env, kinds);
    OnlyThen(plan.head, plan.tail, env, kinds);
  }

  lemma UnwrapShape(w: World, env: Env, tx: Tx, kinds: set<Kind>)
    requires tx.TxUnwrap? && KPutUnwrap in kinds && KPost in kinds && KBridgePost in kinds
    requires Unwrap(w, env, tx.code, tx.to, tx.extCode, tx.extId, tx.burnTx, tx.amount).Some?
    ensures Only(Unwrap(w, env, tx.code, tx.to, tx.extCode, tx.extId, tx.burnTx, tx.amount).value, env, kinds)
  {
    hide NormalizeExtTxID, Only;
    var plan := Unwrap(w, env, tx.code, tx.to, tx.extCode, tx.extId, tx.burnTx, tx.amount).value;
    var post := plan.tail.head;
    if plan.tail.tail == Done {
      OneShape(post, env, kinds);
    } else {
      TwoShape(post, plan.tail.tail.head, env, kinds);
    }
    OnlyThen(plan.head, plan.tail, env, kinds);
  }

  lemma BridgeShape(h: Hasher, w: World, env: Env, tx: Tx)
    requires (tx.TxWrapComplete? || tx.TxUnwrap?) && PlanOf(h, w, env, tx).Some?
    ensures Only(PlanOf(h, w, env, tx).value, env, KindsOf(w, tx))
  {
    hide Only, WrapComplete, Unwrap;
    if tx.TxWrapComplete? {
      CompleteShape(w, env, tx.wrapId, tx.fee, tx.extTx, KindsOf(w, tx));
    } else {
      UnwrapShape(w, env, tx, KindsOf(w, tx));
    }
  }

  lemma TokenShape(h: Hasher, w: World, env: Env, tx: Tx)
    requires (tx.TxTokenCreate? || tx.TxTokenUpdate? || tx.TxMint? || tx.TxBurn?) && PlanOf(h, w, env, tx).Some?
    ensures Only(PlanOf(h, w, env, tx).value, env, KindsOf(w, tx))
  {
    hide Gather, NewAddress, BridgeKnown, ValidateTokenCode;
    var plan := PlanOf(h, w, env, tx).value;
    if plan.Then? && plan.tail.Then? {
      assert Only(plan.tail.tail, env, KindsOf(w, tx));
    }
  }

  lemma SendPendingShape(env: Env, pid: string, pb: Pending, sender: Address, receiver: Address, lock: Option<int>, kinds: set<Kind>)
    requires KPutPending in kinds && KPost in kinds && KPutFee in kinds && KDropPending in kinds
    ensures Only(SendPending(env, pid, pb, sender, receiver, lock), env, kinds)
  {
    hide Only, CreateFee;
    var plan := SendPending(env, pid, pb, sender, receiver, lock);
    OneShape(DropPending(pid), env, kinds);
    FeeShape(env, pb.account, FeePart(pb.fee), TransferFee, Then(DropPending(pid), Done), kinds);
    OnlyThen(plan.head, plan.tail, env, kinds);
  }

  lemma CreateTokenShape(h: Hasher, w: World, env: Env, code: string, meta: Meta, kids: set<string>, kinds: set<Kind>)
    requires KAccounts in kinds && KPost in kinds && KPutToken in kinds
    ensures var p := CreateToken(h, w, env, code, meta, kids); p.Some? ==> Only(p.value, env, kinds)
  {
    hide NewAddress, BridgeKnown, Only;
    var p := CreateToken(h, w, env, code, meta, kids);
    if p.Some? {
      var plan := p.value;
      if plan.tail.head.Post? {
        TwoShape(plan.tail.head, plan.tail.tail.head, env, kinds);
      } else {
        OneShape(plan.tail.head, env, kinds);
      }
      OnlyThen(plan.head, plan.tail, env, kinds);
    }
  }

  lemma ExecuteShape(h: Hasher, w: World, env: Env, tx: Tx)
    requires tx.TxExecute? && PlanOf(h, w, env, tx).Some?
    ensures Only(PlanOf(h, w, env, tx).value, env, KindsOf(w, tx))
  {
    hide Only, SendPending, CreateToken, CalcFee, NewAddress;
    var plan, kinds, doc := PlanOf(h, w, env, tx).value, KindsOf(w, tx), w.contracts[tx.cid];
    OnlyDone(env, kinds);
    if doc.DocTransfer? {
      SendPendingShape(env, doc.pb, w.pendings[doc.pb], doc.sender, doc.receiver, LockOf(doc.orderId), kinds);
    } else if doc.DocTokenCreate? {
      CreateTokenShape(h, w, env, doc.code, tx.meta, doc.holders, kinds);
    } else if plan.Then? && plan.tail.Then? {
      TwoShape(plan.head, plan.tail.head, env, kinds);
    } else if plan.Then? {
      OneShape(plan.head, env, kinds);
    }
  }

  // A direct transfer, pay or wrap: no contract is registered.
  lemma DirectShape(h: Hasher, w: World, env: Env, tx: Tx)
    requires tx.TxTransfer? || tx.TxPay? || tx.TxWrap?
    requires PlanOf(h, w, env, tx).Some? && !PlanOf(h, w, env, tx).value.head.PutContract?
    ensures Only(PlanOf(h, w, env, tx).value, env, {KPutPending, KPost, KPutFee, KPutPay, KPutWrap})
  {
    hide Only, Gather, CalcFee;
    var plan, kinds := PlanOf(h, w, env, tx).value, {KPutPending, KPost, KPutFee, KPutPay, KPutWrap};
    if tx.TxTransfer? {
      SendShape(env, tx.sender, tx.receiver, tx.amount, CalcFee(w, tx.sender, "transfer", tx.amount).value, LockTime(env.ts, tx.lockSeconds), kinds);
    } else {
      TwoShape(plan.head, plan.tail.head, env, kinds);
    }
  }

  lemma SendShape(env: Env, sender: Address, receiver: Address, amount: int, fee: int, lock: Option<int>, kinds: set<Kind>)
    requires KPutPending in kinds && KPost in kinds && KPutFee in kinds
    ensures Only(Send(env, sender, receiver, amount, fee, lock), env, kinds)
  {
    hide Only;
    var plan := Send(env, sender, receiver, amount, fee, lock);
    OnlyDone(env, kinds);
    FeeShape(env, sender, fee, TransferFee, Done, kinds);
    OnlyThen(plan.tail.head, plan.tail.tail, env, kinds);
    OnlyThen(plan.head, plan.tail, env, kinds);
  }

  lemma OneShape(e: Effect, env: Env, kinds: set<Kind>)
    requires KindOf(e) in kinds && Stamped(e, env)
    ensures Only(Then(e, Done), env, kinds)
  {
    assert Only(Done, env, kinds);
  }

  lemma OtherShape(h: Hasher, w: World, env: Env, tx: Tx)
    requires tx.TxWithdraw? || tx.TxCancel? || tx.TxAccountCreate? || tx.TxJointCreate? || tx.TxHolderAdd? || tx.TxHolderRemove? || tx.TxSuspend? || tx.TxUnsuspend?
    requires PlanOf(h, w, env, tx).Some?
    ensures Only(PlanOf(h, w, env, tx).value, env, KindsOf(w, tx))
  {
    hide Gather, NewAddress, ValidateTokenCode, ID, ParseAll, Only;
    var plan, kinds := PlanOf(h, w, env, tx).value, KindsOf(w, tx);
    if tx.TxWithdraw? || (tx.TxCancel? && plan.Then?) {
      TwoShape(plan.head, plan.tail.head, env, kinds);
    } else if plan.Then? {
      OneShape(plan.head, env, kinds);
    } else {
      OnlyDone(env, kinds);
    }
  }

  lemma Shape(h: Hasher, w: World, env: Env, tx: Tx)
    requires PlanOf(h, w, env, tx).Some?
    ensures Only(PlanOf(h, w, env, tx).value, env, KindsOf(w, tx))
  {
    hide PlanOf, KindsOf, Only;
    match tx {
      case TxTransfer(_, _, _, _, _, _, _) => TransferShape(h, w, env, tx);
      case TxPay(_, _, _, _) => PayShape(h, w, env, tx);
      case TxWrap(_, _, _, _, _, _) => PayShape(h, w, env, tx);
      case TxRefund(_, _) => PayShape(h, w, env, tx);
      case TxPayPrune(_, _, _, _) => PruneShape(h, w, env, tx);
      case TxFeePrune(_, _, _, _) => PruneShape(h, w, env, tx);
      case TxWrapComplete(_, _, _) => BridgeShape(h, w, env, tx);
      case TxUnwrap(_, _, _, _, _, _) => BridgeShape(h, w, env, tx);
      case TxTokenCreate(_, _, _, _) => TokenShape(h, w, env, tx);
      case TxTokenUpdate(_, _) => TokenShape(h, w, env, tx);
      case TxMint(_, _, _) => TokenShape(h, w, env, tx);
      case TxBurn(_, _, _) => TokenShape(h, w, env, tx);
      case TxExecute(_, _) => ExecuteShape(h, w, env, tx);
      case _ => OtherShape(h, w, env, tx);
    }
  }
}
