/**
  How pending balances leave the ledger: once, whole, to one place; and, when an
  account holds them, only by a withdrawal of their owner after the lock has ended.
 */
module Settlement {
  import opened Sums
  import opened Addresses
  import opened Ledger
  import opened Fields
  import opened Rules
  import opened Invariants
  import opened Steps
  import opened Shapes
  import opened History

  // Where the money of a settled pending balance went.
  datatype Fate =
    | Returned
    | Delivered(receiver: Address)
    | Locked(receiver: Address, until: int)
    | BecamePay(merchant: Address, fee: int)
    | BecameWrap(extCode: string, extId: string)

  function Credited(balances: map<Address, Balance>, a: Address, x: int): map<Address, Balance> {
    if a in balances then balances[a := balances[a].(amount := balances[a].amount + x)] else balances
  }

  function WithFee(fees: map<string, FeeRec>, env: Env, pb: Pending): map<string, FeeRec> {
    if FeePart(pb.fee) == 0 then fees
    else fees[env.RecordId() := FeeRec(pb.account.code, pb.account, FeePart(pb.fee), env.ts, env.txid, TransferFee)]
  }

  // The six places of the ledger before and after, as the fate says.
  ghost predicate SettledAs(w: World, v: World, env: Env, pid: string, pb: Pending, fate: Fate) {
    var left := w.pendings - {pid};
    && v.prunedPays == w.prunedPays && v.prunedFees == w.prunedFees && v.tokens == w.tokens
    && v.balances == (match fate
        case Returned => Credited(w.balances, pb.account, pb.Worth())
        case Delivered(receiver) => Credited(w.balances, receiver, pb.amount)
        case _ => w.balances)
    && v.pendings == (match fate
        case Locked(receiver, until) => left[env.txid := Pending(AccountHeld, receiver, ToAccount(pb.account), pb.amount, None, until)]
        case _ => left)
    && v.fees == (if fate.Delivered? || fate.Locked? then WithFee(w.fees, env, pb) else w.fees)
    && v.pays == (match fate
        case BecamePay(merchant, fee) => w.pays[env.RecordId() := PayRec(merchant, pb.Worth(), fee, 0, pb.account, "", env.ts, env.txid)]
        case _ => w.pays)
    && v.wraps == (match fate
        case BecameWrap(extCode, extId) => w.wraps[env.txid := WrapRec(pb.account, pb.Worth(), extCode, extId, "")]
        case _ => w.wraps)
  }

  // The fate each transaction gives to the pending balance it settles.
  function FateOf(w: World, env: Env, tx: Tx): Fate
  {
    match tx
    case TxExecute(cid, _) =>
      if cid !in w.contracts then Returned
      else
        (match w.contracts[cid]
         case DocTransfer(_, _, receiver, orderId) =>
           var lock := LockOf(orderId);
           if lock.Some? && lock.value > env.ts then Locked(receiver, lock.value) else Delivered(receiver)
         case DocPay(pb, _, receiver) =>
           BecamePay(receiver, if pb in w.pendings && CalcFee(w, receiver, "pay", w.pendings[pb].amount).Some? then CalcFee(w, receiver, "pay", w.pendings[pb].amount).value else 0)
         case DocWrap(_, _, extCode, extId) => BecameWrap(extCode, extId)
         case _ => Returned)
    case _ => Returned
  }

  // Who may settle a pending balance: its owner once the time has come, or the
  // callbacks of the one contract that holds it.
  ghost predicate MayWithdraw(w: World, env: Env, pb: Pending) {
    pb.pendingTime <= env.ts && Authorised(w, pb.account, env.kid) && Active(w, pb.account)
  }

  ghost predicate MaySettle(w: World, env: Env, tx: Tx, pid: string) {
    && pid in w.pendings
    && match tx
       case TxWithdraw(id) => id == pid && MayWithdraw(w, env, w.pendings[pid])
       case TxExecute(cid, _) => cid in w.contracts && w.contracts[cid].Money() && w.contracts[cid].pb == pid && Holds(w, cid, pid)
       case TxCancel(cid) => cid in w.contracts && w.contracts[cid].Money() && w.contracts[cid].pb == pid && Holds(w, cid, pid)
       case _ => false
  }

  lemma WithdrawSettles(w: World, env: Env, pid: string)
    requires pid in w.pendings && Commit(w, Withdraw(env, pid, w.pendings[pid])).Some?
    ensures SettledAs(w, Commit(w, Withdraw(env, pid, w.pendings[pid])).value, env, pid, w.pendings[pid], Returned)
  {
    hide Commit, Apply;
    var plan := Withdraw(env, pid, w.pendings[pid]);
    CommitThen(w, plan.head, plan.tail);
    PostFields(w, plan.head);
    CommitLast(Apply(w, plan.head), plan.tail.head);
    DropPendingFields(Apply(w, plan.head), plan.tail.head);
  }

  lemma FeeThenDrop(w: World, env: Env, pid: string, pb: Pending)
    ensures var v := Commit(w, CreateFee(env, pb.account, FeePart(pb.fee), TransferFee, Then(DropPending(pid), Done)));
      v == Some(w.(fees := WithFee(w.fees, env, pb), pendings := w.pendings - {pid}))
  {
    hide Apply;
    var fee, drop := NewFee(env, pb.account, FeePart(pb.fee), TransferFee), DropPending(pid);
    CommitLast(w, drop);
    DropPendingFields(w, drop);
    CommitLast(Apply(w, fee), drop);
    PutFeeFields(w, fee);
    DropPendingFields(Apply(w, fee), drop);
    assert Commit(w, Then(fee, Then(drop, Done))) == Commit(Apply(w, fee), Then(drop, Done));
  }

  lemma SendPendingSettles(w: World, env: Env, pid: string, receiver: Address, lock: Option<int>)
    requires pid in w.pendings && env.txid !in w.pendings
    requires var pb := w.pendings[pid]; Commit(w, SendPending(env, pid, pb, pb.account, receiver, lock)).Some?
    ensures var pb := w.pendings[pid];
      var fate := if lock.Some? && lock.value > env.ts then Locked(receiver, lock.value) else Delivered(receiver);
      SettledAs(w, Commit(w, SendPending(env, pid, pb, pb.account, receiver, lock)).value, env, pid, pb, fate)
  {
    hide Commit, Apply, CreateFee, WithFee, SettledAs;
    var pb := w.pendings[pid];
    var plan := SendPending(env, pid, pb, pb.account, receiver, lock);
    CommitThen(w, plan.head, plan.tail);
    FeeThenDrop(Apply(w, plan.head), env, pid, pb);
    if plan.head.PutPending? {
      PutPendingFields(w, plan.head);
      SettledLocked(w, env, pid, pb, plan.head);
    } else {
      PostFields(w, plan.head);
      SettledCredited(w, Apply(w, plan.head), env, pid, pb, plan.head);
    }
  }

  lemma SettledLocked(w: World, env: Env, pid: string, pb: Pending, e: Effect)
    requires env.txid != pid && e.PutPending? && e.pid == env.txid
    requires e.p == Pending(AccountHeld, e.p.account, ToAccount(pb.account), pb.amount, None, e.p.pendingTime)
    ensures var v := w.(pendings := w.pendings[e.pid := e.p]);
      SettledAs(w, v.(fees := WithFee(w.fees, env, pb), pendings := v.pendings - {pid}), env, pid, pb, Locked(e.p.account, e.p.pendingTime))
  {
    LockThenDrop(w.pendings, env.txid, e.p, pid);
  }

  lemma SettledCredited(w: World, v: World, env: Env, pid: string, pb: Pending, e: Effect)
    requires e.Post? && e.a in w.balances && e.diff - e.logFee == pb.amount
    requires v.balances == w.balances[e.a := w.balances[e.a].(amount := w.balances[e.a].amount + e.diff - e.logFee)]
    requires v.pendings == w.pendings && v.fees == w.fees && v.pays == w.pays && v.wraps == w.wraps
    requires v.prunedPays == w.prunedPays && v.prunedFees == w.prunedFees && v.tokens == w.tokens
    ensures SettledAs(w, v.(fees := WithFee(w.fees, env, pb), pendings := w.pendings - {pid}), env, pid, pb, Delivered(e.a))
  {
  }

  lemma LockThenDrop(pendings: map<string, Pending>, txid: string, p: Pending, pid: string)
    requires txid != pid
    ensures pendings[txid := p] - {pid} == (pendings - {pid})[txid := p]
  {
  }

  lemma TakeOverSettles(w: World, e: Effect, env: Env, pid: string, fate: Fate)
    requires pid in w.pendings && FeePart(w.pendings[pid].fee) == 0
    requires match fate
      case BecamePay(merchant, fee) => e == PutPay(env.RecordId(), PayRec(merchant, w.pendings[pid].amount, fee, 0, w.pendings[pid].account, "", env.ts, env.txid))
      case BecameWrap(extCode, extId) => e == PutWrap(env.txid, WrapRec(w.pendings[pid].account, w.pendings[pid].amount, extCode, extId, ""))
      case _ => false
    ensures var v := Commit(w, Then(e, Then(DropPending(pid), Done)));
      v.Some? && SettledAs(w, v.value, env, pid, w.pendings[pid], fate)
  {
    hide Apply;
    var drop := DropPending(pid);
    if e.PutPay? {
      PutPayFields(w, e);
    } else {
      PutWrapFields(w, e);
    }
    DropPendingFields(Apply(w, e), drop);
    CommitLast(Apply(w, e), drop);
    assert Commit(w, Then(e, Then(drop, Done))) == Commit(Apply(w, e), Then(drop, Done));
  }

  // A settling transaction puts the whole worth into exactly one place.
  lemma PlanSettles(h: Hasher, b: World, env: Env, tx: Tx, pid: string)
    requires Ready(b, env) && MaySettle(b, env, tx, pid)
    requires PlanOf(h, b, env, tx).Some? && Commit(b, PlanOf(h, b, env, tx).value).Some?
    ensures SettledAs(b, Commit(b, PlanOf(h, b, env, tx).value).value, env, pid, b.pendings[pid], FateOf(b, env, tx))
  {
    hide Inv, Commit, SettledAs, CalcFee;
    PendingOf(b, pid);
    match tx {
      case TxWithdraw(_) => WithdrawSettles(b, env, pid);
      case TxCancel(_) => WithdrawSettles(b, env, pid);
      case TxExecute(cid, _) =>
        var doc := b.contracts[cid];
        assert doc.sender == b.pendings[pid].account;
        if doc.DocTransfer? {
          SendPendingSettles(b, env, pid, doc.receiver, LockOf(doc.orderId));
        } else {
          TakeOverSettles(b, PlanOf(h, b, env, tx).value.head, env, pid, FateOf(b, env, tx));
        }
    }
  }

  // Without a settling effect every pending balance stays where it is.
  lemma {:induction false} NoDropKeeps(w: World, env: Env, plan: Plan, kinds: set<Kind>, pid: string)
    requires PlanOk(w, plan) && Only(plan, env, kinds) && KDropPending !in kinds && Commit(w, plan).Some? && pid in w.pendings
    ensures pid in Commit(w, plan).value.pendings
    decreases plan
  {
    hide Enabled;
    if plan.Then? {
      NoDropKeeps(Apply(w, plan.head), env, plan.tail, kinds, pid);
    }
  }

  lemma {:induction false} DropOne(w: World, plan: Plan, pid: string)
    requires plan.Then? && plan.tail.Then? && plan.tail.tail == Done
    requires plan.tail.head.DropPending? && plan.tail.head.pid != pid && !plan.head.DropPending?
    requires Commit(w, plan).Some? && pid in w.pendings
    ensures pid in Commit(w, plan).value.pendings
  {
    assert Commit(Apply(w, plan.head), plan.tail) == Some(Apply(Apply(w, plan.head), plan.tail.head));
  }

  // A transaction that is not entitled to settle it leaves a pending balance alone.
  lemma OthersKeep(h: Hasher, b: World, env: Env, tx: Tx, pid: string)
    requires Ready(b, env) && pid in b.pendings && !MaySettle(b, env, tx, pid)
    requires PlanOf(h, b, env, tx).Some? && PlanOk(b, PlanOf(h, b, env, tx).value) && Commit(b, PlanOf(h, b, env, tx).value).Some?
    ensures pid in Commit(b, PlanOf(h, b, env, tx).value).value.pendings
  {
    hide Inv, Commit, PlanOk, Only, CalcFee;
    var plan := PlanOf(h, b, env, tx).value;
    if KDropPending !in KindsOf(b, tx) {
      hide PlanOf;
      Shape(h, b, env, tx);
      NoDropKeeps(b, env, plan, KindsOf(b, tx), pid);
    } else if tx.TxWithdraw? {
      DropOne(b, plan, pid);
    } else if b.contracts[tx.cid].Money() {
      if tx.TxExecute? && b.contracts[tx.cid].DocTransfer? {
        SettlesOther(b, env, b.contracts[tx.cid], LockOf(b.contracts[tx.cid].orderId), pid);
      } else {
        DropOne(b, plan, pid);
      }
    } else {
      assert Commit(b, Done) == Some(b) by { CommitNothing(b); }
    }
  }

  lemma SettlesOther(b: World, env: Env, doc: Doc, lock: Option<int>, pid: string)
    requires doc.DocTransfer? && doc.pb in b.pendings && pid in b.pendings && pid != doc.pb
    requires Commit(b, SendPending(env, doc.pb, b.pendings[doc.pb], doc.sender, doc.receiver, lock)).Some?
    ensures pid in Commit(b, SendPending(env, doc.pb, b.pendings[doc.pb], doc.sender, doc.receiver, lock)).value.pendings
  {
    var pb := b.pendings[doc.pb];
    var plan := SendPending(env, doc.pb, pb, doc.sender, doc.receiver, lock);
    FeeThenDrop(Apply(b, plan.head), env, doc.pb, pb);
  }

  lemma SettledFromBegin(w: World, v: World, env: Env, pid: string, pb: Pending, fate: Fate)
    requires SettledAs(Begin(w, env), v, env, pid, pb, fate)
    ensures SettledAs(w, v, env, pid, pb, fate)
  {
  }

  // One committed transaction either leaves a pending balance as it was, or was
  // entitled to settle it and moved all of it to one place.
  lemma StepSettles(h: Hasher, w: World, env: Env, tx: Tx, pid: string)
    requires Inv(w) && Step(h, w, env, tx).Some? && pid in w.pendings
    ensures var v := Step(h, w, env, tx).value;
      if MaySettle(w, env, tx, pid)
      then pid !in v.pendings && SettledAs(w, v, env, pid, w.pendings[pid], FateOf(w, env, tx))
      else pid in v.pendings && v.pendings[pid] == w.pendings[pid]
  {
    hide Inv, PlanOf, PlanOk, Commit, QueryAnswered, Step, Only, SettledAs, KindsOf, Extends;
    var b, plan := PlanOfStep(h, w, env, tx);
    var v := Step(h, w, env, tx).value;
    StepExtends(h, w, env, tx);
    assert MaySettle(b, env, tx, pid) == MaySettle(w, env, tx, pid);
    assert FateOf(b, env, tx) == FateOf(w, env, tx) by { FateOfBegin(w, env, tx); }
    if MaySettle(w, env, tx, pid) {
      PlanSettles(h, b, env, tx, pid);
      SettledFromBegin(w, v, env, pid, w.pendings[pid], FateOf(w, env, tx));
      SettledLeaves(w, v, env, pid, w.pendings[pid], FateOf(w, env, tx));
    } else {
      OthersKeep(h, b, env, tx, pid);
      KeptIsSame(h, w, env, tx, pid);
    }
  }

  lemma FateOfBegin(w: World, env: Env, tx: Tx)
    ensures FateOf(Begin(w, env), env, tx) == FateOf(w, env, tx)
  {
  }

  lemma SettledLeaves(w: World, v: World, env: Env, pid: string, pb: Pending, fate: Fate)
    requires SettledAs(w, v, env, pid, pb, fate) && env.txid != pid
    ensures pid !in v.pendings
  {
  }

  lemma KeptIsSame(h: Hasher, w: World, env: Env, tx: Tx, pid: string)
    requires Inv(w) && Step(h, w, env, tx).Some? && pid in w.pendings && pid in Step(h, w, env, tx).value.pendings
    ensures Step(h, w, env, tx).value.pendings[pid] == w.pendings[pid]
  {
    hide Step;
    PendingOf(w, pid);
    hide Inv;
    StepExtends(h, w, env, tx);
  }

  // ---- over runs ----

  // A pending balance that has gone does not come back.
  lemma NeverReturns(h: Hasher, w: World, more: seq<Call>, pid: string)
    requires Inv(w) && pid in w.used && pid !in w.pendings
    ensures pid !in Exec(h, w, more).pendings
  {
    hide Inv;
    RunExtends(h, w, more);
  }

  // Position i of the run is where the pending balance was settled.
  ghost predicate SettledAt(h: Hasher, w: World, calls: seq<Call>, i: nat, pid: string)
    requires i < |calls| && pid in w.pendings
  {
    var u, c := Exec(h, w, calls[..i]), calls[i];
    && Step(h, u, c.env, c.tx).Some?
    && pid in u.pendings && u.pendings[pid] == w.pendings[pid]
    && MaySettle(u, c.env, c.tx, pid)
    && SettledAs(u, Step(h, u, c.env, c.tx).value, c.env, pid, w.pendings[pid], FateOf(u, c.env, c.tx))
  }

  // Along any run a pending balance is either still there unchanged, or was settled
  // at exactly one position, whole, by someone entitled to.
  lemma {:induction false} RunSettles(h: Hasher, w: World, calls: seq<Call>, pid: string) returns (i: nat)
    requires Inv(w) && pid in w.pendings
    ensures var v := Exec(h, w, calls);
      if pid in v.pendings then v.pendings[pid] == w.pendings[pid]
      else i < |calls| && SettledAt(h, w, calls, i, pid)
    ensures pid !in Exec(h, w, calls).pendings ==>
      forall j: nat :: j < |calls| && SettledAt(h, w, calls, j, pid) ==> j == i
  {
    hide Inv, Step, MaySettle, SettledAs, FateOf;
    i := 0;
    if calls != [] {
      var n := |calls| - 1;
      var init, c := calls[..n], calls[n];
      i := RunSettles(h, w, init, pid);
      RunKeepsInv(h, w, init);
      var u := Exec(h, w, init);
      assert forall j :: 0 <= j < n ==> init[..j] == calls[..j];
      assert forall j: nat :: j < n && SettledAt(h, w, calls, j, pid) ==> SettledAt(h, w, init, j, pid);
      forall j: nat | j < n && SettledAt(h, w, calls, j, pid) ensures pid !in u.pendings {
        GoneAfter(h, w, calls, j, n, pid);
      }
      if pid in u.pendings {
        if Step(h, u, c.env, c.tx).Some? {
          StepSettles(h, u, c.env, c.tx, pid);
          if pid !in Exec(h, w, calls).pendings {
            i := n;
          }
        }
      } else {
        assert SettledAt(h, w, init, i, pid);
        assert SettledAt(h, w, calls, i, pid);
        assert !SettledAt(h, w, calls, n, pid);
        PendingOf(w, pid);
        StaysGone(h, w, init, c, pid);
      }
    }
  }

  lemma StaysGone(h: Hasher, w: World, init: seq<Call>, c: Call, pid: string)
    requires Inv(w) && Inv(Exec(h, w, init)) && pid in w.used && pid !in Exec(h, w, init).pendings
    ensures pid !in Next(h, Exec(h, w, init), c).pendings
  {
    hide Inv, Step;
    RunExtends(h, w, init);
    var u := Exec(h, w, init);
    if Step(h, u, c.env, c.tx).Some? {
      StepExtends(h, u, c.env, c.tx);
    }
  }

  lemma {:induction false} GoneAfter(h: Hasher, w: World, calls: seq<Call>, j: nat, n: nat, pid: string)
    requires Inv(w) && pid in w.pendings && j < n <= |calls| && SettledAt(h, w, calls, j, pid)
    ensures pid !in Exec(h, w, calls[..n]).pendings
    decreases n
  {
    hide Inv, Step, MaySettle, SettledAs, FateOf;
    var m := n - 1;
    assert calls[..n][..m] == calls[..m];
    RunKeepsInv(h, w, calls[..m]);
    var u := Exec(h, w, calls[..m]);
    if j == m {
      StepSettles(h, u, calls[m].env, calls[m].tx, pid);
    } else {
      GoneAfter(h, w, calls, j, m, pid);
      PendingOf(w, pid);
      StaysGone(h, w, calls[..m], calls[m], pid);
    }
  }

  lemma HeldByAccount(u: World, env: Env, tx: Tx, pid: string)
    requires MaySettle(u, env, tx, pid) && u.pendings[pid].custody == AccountHeld
    ensures tx == TxWithdraw(pid) && MayWithdraw(u, env, u.pendings[pid]) && FateOf(u, env, tx) == Returned
  {
  }

  lemma ReturnedInFull(u: World, v: World, env: Env, pid: string, pb: Pending)
    requires SettledAs(u, v, env, pid, pb, Returned) && pb.fee.None? && pb.account in u.balances
    ensures v.balances == u.balances[pb.account := u.balances[pb.account].(amount := u.balances[pb.account].amount + pb.amount)]
  {
  }

  // Time locks: whatever happens, the amount an account holds under a lock reaches
  // the balance of its owner in full, at the owner's own request, and not before its time.
  lemma TimeLockSafe(h: Hasher, w: World, calls: seq<Call>, pid: string) returns (i: nat)
    requires Inv(w) && pid in w.pendings && w.pendings[pid].custody == AccountHeld
    requires pid !in Exec(h, w, calls).pendings
    ensures i < |calls|
    ensures var u, c, pb := Exec(h, w, calls[..i]), calls[i], w.pendings[pid];
      && c.tx == TxWithdraw(pid) && MayWithdraw(u, c.env, pb)
      && Step(h, u, c.env, c.tx).Some? && pb.account in u.balances
      && Step(h, u, c.env, c.tx).value.balances == u.balances[pb.account := u.balances[pb.account].(amount := u.balances[pb.account].amount + pb.amount)]
  {
    hide Inv, Step, Exec, MaySettle, SettledAs, FateOf, MayWithdraw;
    i := RunSettles(h, w, calls, pid);
    RunKeepsInv(h, w, calls[..i]);
    var u, c, pb := Exec(h, w, calls[..i]), calls[i], w.pendings[pid];
    PendingOf(u, pid);
    HeldByAccount(u, c.env, c.tx, pid);
    ReturnedInFull(u, Step(h, u, c.env, c.tx).value, c.env, pid, pb);
  }

  // ---- nothing is stuck ----

  lemma WithdrawCommits(w: World, env: Env, pid: string)
    requires pid in w.pendings && w.pendings[pid].account in w.balances
    ensures Commit(w, Withdraw(env, pid, w.pendings[pid])).Some? <==> (w.pendings[pid].account, env.ts) !in w.logs
  {
    hide Apply;
    var plan := Withdraw(env, pid, w.pendings[pid]);
    CommitStep(w, plan.head, plan.tail);
    CommitLast(Apply(w, plan.head), plan.tail.head);
  }

  // A withdrawal goes through exactly for the holder of the active owner, not before
  // the time, and with its log key free.
  lemma WithdrawSucceedsIff(h: Hasher, w: World, env: Env, pid: string)
    requires Inv(w) && Admissible(w, env, TxWithdraw(pid))
    ensures Step(h, w, env, TxWithdraw(pid)).Some? <==>
      pid in w.pendings && MayWithdraw(w, env, w.pendings[pid]) && (w.pendings[pid].account, env.ts) !in w.logs
  {
    hide Inv, Commit, HexEncode;
    if pid in w.pendings {
      PendingOf(w, pid);
      WithdrawCommits(Begin(w, env), env, pid);
    }
  }

  // A contract can always give back what it holds, unless the log key of the owner is
  // taken at that very nanosecond.
  lemma CancelSucceedsIff(h: Hasher, w: World, env: Env, pid: string)
    requires Inv(w) && pid in w.pendings && w.pendings[pid].custody == ContractHeld
    ensures w.pendings[pid].rid.ToId?
    ensures var tx := TxCancel(w.pendings[pid].rid.id);
      Admissible(w, env, tx) ==>
        (Step(h, w, env, tx).Some? <==> (w.pendings[pid].account, env.ts) !in w.logs)
  {
    PendingOf(w, pid);
    hide Inv, Commit, PlanOf, QueryAnswered, Withdraw;
    CancelPlan(h, Begin(w, env), env, pid, w.pendings[pid].rid.id);
    WithdrawCommits(Begin(w, env), env, pid);
  }

  lemma CancelPlan(h: Hasher, b: World, env: Env, pid: string, cid: string)
    requires pid in b.pendings && b.pendings[pid].account in b.balances && Holds(b, cid, pid)
    requires cid in b.contracts && b.contracts[cid].Money() && b.contracts[cid].pb == pid
    ensures PlanOf(h, b, env, TxCancel(cid)) == Some(Withdraw(env, pid, b.pendings[pid]))
  {
  }
}
