/**
  The conservation law: what a token has issued is exactly what its balances,
  pending balances, uncounted pays, uncounted fees and open wraps hold together.
 */
module Conservation {
  import opened Sums
  import opened Addresses
  import opened RecordIds
  import opened FeeFormulas
  import opened Pruning
  import opened Ledger
  import opened Rules
  import opened Invariants
  import opened Steps

  // One token, or all of them together.
  datatype Scope = AllTokens | OneToken(code: string)

  predicate Covers(s: Scope, code: string) {
    s.AllTokens? || s.code == code
  }

  function When(b: bool, x: int): int {
    if b then x else 0
  }

  // ---- the six places, and the supply ----

  function BalanceVals(balances: map<Address, Balance>, s: Scope): map<Address, int> {
    map a | a in balances :: When(Covers(s, a.code), balances[a].amount)
  }

  function PendingVals(pendings: map<string, Pending>, s: Scope): map<string, int> {
    map id | id in pendings :: When(Covers(s, pendings[id].account.code), pendings[id].Worth())
  }

  function PayVals(pays: map<string, PayRec>, s: Scope): map<string, int> {
    map id | id in pays :: When(Covers(s, pays[id].merchant.code), pays[id].amount)
  }

  function FeeVals(fees: map<string, FeeRec>, s: Scope): map<string, int> {
    map id | id in fees :: When(Covers(s, fees[id].code), fees[id].amount)
  }

  function WrapVals(wraps: map<string, WrapRec>, s: Scope): map<string, int> {
    map id | id in wraps :: When(Covers(s, wraps[id].address.code) && wraps[id].completeTx == "", wraps[id].amount)
  }

  function SupplyVals(tokens: map<string, Token>, s: Scope): map<string, int> {
    map code | code in tokens :: When(Covers(s, code), tokens[code].supply)
  }

  ghost function Supply(w: World, s: Scope): int {
    Sum(SupplyVals(w.tokens, s))
  }

  ghost function Held(w: World, s: Scope): int {
    Sum(BalanceVals(w.balances, s))
    + Sum(PendingVals(w.pendings, s))
    + Sum(Outside(PayVals(w.pays, s), w.prunedPays))
    + Sum(Outside(FeeVals(w.fees, s), w.prunedFees.Keys))
    + Sum(WrapVals(w.wraps, s))
  }

  // ---- what one effect moves ----

  ghost function BalanceDrift(e: Effect, s: Scope): int {
    if e.Post? then When(Covers(s, e.a.code), e.diff - e.logFee) else 0
  }

  ghost function PendingDrift(w: World, e: Effect, s: Scope): int {
    if e.PutPending? then When(Covers(s, e.p.account.code), e.p.Worth())
    else if e.DropPending? then -At(PendingVals(w.pendings, s), e.pid)
    else 0
  }

  ghost function PayDrift(w: World, e: Effect, s: Scope): int {
    if e.PutPay? || e.PutRefund? then When(Covers(s, e.pay.merchant.code), e.pay.amount)
    else if e.MarkPays? then -SeqSum(PayVals(w.pays, s), e.ids)
    else 0
  }

  ghost function FeeDrift(w: World, e: Effect, s: Scope): int {
    if e.PutFee? then When(Covers(s, e.fee.code), e.fee.amount)
    else if e.MarkFees? then -SeqSum(FeeVals(w.fees, s), e.ids)
    else 0
  }

  ghost function WrapDrift(w: World, e: Effect, s: Scope): int {
    if e.PutWrap? then When(Covers(s, e.wrap.address.code), e.wrap.amount)
    else if e.CloseWrap? then -At(WrapVals(w.wraps, s), e.id)
    else 0
  }

  ghost function SupplyDrift(w: World, e: Effect, s: Scope): int {
    if e.PutToken? then When(Covers(s, e.code), e.token.supply) - At(SupplyVals(w.tokens, s), e.code) else 0
  }

  ghost function Drift(w: World, e: Effect, s: Scope): int {
    SupplyDrift(w, e, s) - BalanceDrift(e, s) - PendingDrift(w, e, s) - PayDrift(w, e, s) - FeeDrift(w, e, s) - WrapDrift(w, e, s)
  }

  lemma BalancePut(balances: map<Address, Balance>, a: Address, b: Balance, s: Scope)
    ensures Sum(BalanceVals(balances[a := b], s))
         == Sum(BalanceVals(balances, s)) - At(BalanceVals(balances, s), a) + When(Covers(s, a.code), b.amount)
  {
    hide Sum;
    var x := When(Covers(s, a.code), b.amount);
    assert BalanceVals(balances[a := b], s) == BalanceVals(balances, s)[a := x];
    SumPut(BalanceVals(balances, s), a, x);
  }

  lemma BalanceSum(w: World, e: Effect, s: Scope)
    requires w.accounts.Keys == w.balances.Keys && Accepted(w, e) && Enabled(w, e)
    ensures Sum(BalanceVals(Apply(w, e).balances, s)) == Sum(BalanceVals(w.balances, s)) + BalanceDrift(e, s)
  {
    hide Sum, NewBatch, Shortfall;
    if e.Post? || e.OpenAccount? || e.MarkPays? {
      BalancePut(w.balances, e.a, Apply(w, e).balances[e.a], s);
    }
  }

  lemma PendingSum(w: World, e: Effect, s: Scope)
    requires Enabled(w, e)
    ensures Sum(PendingVals(Apply(w, e).pendings, s)) == Sum(PendingVals(w.pendings, s)) + PendingDrift(w, e, s)
  {
    hide Sum, NewBatch, Shortfall;
    var m, v := PendingVals(w.pendings, s), Apply(w, e).pendings;
    if e.PutPending? {
      var x := When(Covers(s, e.p.account.code), e.p.Worth());
      assert PendingVals(v, s) == m[e.pid := x];
      SumPut(m, e.pid, x);
    } else if e.DropPending? {
      assert PendingVals(v, s) == m - {e.pid};
      SumDrop(m, e.pid);
    }
  }

  lemma OutsideOfNew<K>(m: map<K, int>, s: set<K>, k: K, x: int)
    requires k !in m && k !in s
    ensures Sum(Outside(m[k := x], s)) == Sum(Outside(m, s)) + x
  {
    hide Sum;
    assert Outside(m[k := x], s) == Outside(m, s)[k := x];
    SumPut(Outside(m, s), k, x);
  }

  lemma PaySum(w: World, e: Effect, s: Scope)
    requires PayMarksOk(w.balances, w.pays, w.prunedPays) && Enabled(w, e)
    ensures var v := Apply(w, e);
      Sum(Outside(PayVals(v.pays, s), v.prunedPays)) == Sum(Outside(PayVals(w.pays, s), w.prunedPays)) + PayDrift(w, e, s)
  {
    hide Sum, Shortfall, MarkOk, CountedBelow;
    var m, v := PayVals(w.pays, s), Apply(w, e);
    if e.PutPay? || e.PutRefund? {
      var x := When(Covers(s, e.pay.merchant.code), e.pay.amount);
      assert PayVals(w.pays[e.id := e.pay], s) == m[e.id := x];
      if e.PutRefund? {
        RefundKeepsPayVals(w.pays, e.id, e.pay, s);
      }
      OutsideOfNew(m, w.prunedPays, e.id, x);
    } else if e.MarkPays? {
      MoveInside(m, w.prunedPays, e.ids);
    }
  }

  lemma RefundKeepsPayVals(pays: map<string, PayRec>, id: string, p: PayRec, s: Scope)
    requires p.parent in pays && id !in pays
    ensures PayVals(WithRefund(pays, id, p), s) == PayVals(pays[id := p], s)
  {
  }

  lemma FeeSum(w: World, e: Effect, s: Scope)
    requires FeeMarksOk(w) && Enabled(w, e)
    ensures var v := Apply(w, e);
      Sum(Outside(FeeVals(v.fees, s), v.prunedFees.Keys)) == Sum(Outside(FeeVals(w.fees, s), w.prunedFees.Keys)) + FeeDrift(w, e, s)
  {
    hide Sum, Shortfall, MarkOk, CountedBelow, FeeVals, Outside, SeqSum, Elements;
    if e.PutFee? {
      NewFeeSum(w.fees, w.prunedFees.Keys, e.id, e.fee, s);
    } else if e.MarkFees? {
      FeesMoveInside(w.fees, w.prunedFees, e.ids, e.a, s);
    }
  }

  lemma NewFeeSum(fees: map<string, FeeRec>, pruned: set<string>, id: string, fee: FeeRec, s: Scope)
    requires id !in fees && id !in pruned
    ensures Sum(Outside(FeeVals(fees[id := fee], s), pruned)) == Sum(Outside(FeeVals(fees, s), pruned)) + When(Covers(s, fee.code), fee.amount)
  {
    hide Sum;
    var x := When(Covers(s, fee.code), fee.amount);
    assert FeeVals(fees[id := fee], s) == FeeVals(fees, s)[id := x];
    OutsideOfNew(FeeVals(fees, s), pruned, id, x);
  }

  lemma FeesMoveInside(fees: map<string, FeeRec>, pruned: map<string, Address>, ids: seq<string>, a: Address, s: Scope)
    requires NoRepeats(ids) && forall id :: id in ids ==> id in fees && id !in pruned
    ensures Sum(Outside(FeeVals(fees, s), (pruned + (map id | id in Elements(ids) :: a)).Keys))
         == Sum(Outside(FeeVals(fees, s), pruned.Keys)) - SeqSum(FeeVals(fees, s), ids)
  {
    hide Sum;
    assert (pruned + (map id | id in Elements(ids) :: a)).Keys == pruned.Keys + Elements(ids);
    MoveInside(FeeVals(fees, s), pruned.Keys, ids);
  }

  lemma WrapSum(w: World, e: Effect, s: Scope)
    requires e.CloseWrap? ==> e.id in w.wraps && w.wraps[e.id].completeTx == "" && e.completeTx != ""
    requires e.PutWrap? ==> e.wrap.completeTx == "" && e.id !in w.wraps
    ensures Sum(WrapVals(Apply(w, e).wraps, s)) == Sum(WrapVals(w.wraps, s)) + WrapDrift(w, e, s)
  {
    hide Sum;
    var m, v := WrapVals(w.wraps, s), WrapsAfter(w.wraps, e);
    if e.PutWrap? {
      var x := When(Covers(s, e.wrap.address.code), e.wrap.amount);
      assert WrapVals(v, s) == m[e.id := x];
      SumPut(m, e.id, x);
    } else if e.CloseWrap? {
      assert WrapVals(v, s) == m[e.id := 0];
      SumPut(m, e.id, 0);
    }
  }

  lemma SupplySum(w: World, e: Effect, s: Scope)
    ensures Sum(SupplyVals(Apply(w, e).tokens, s)) == Sum(SupplyVals(w.tokens, s)) + SupplyDrift(w, e, s)
  {
    hide Sum, SupplyVals;
    if e.PutToken? {
      SupplyPut(w.tokens, e.code, e.token, s);
    }
  }

  lemma SupplyPut(tokens: map<string, Token>, code: string, token: Token, s: Scope)
    ensures Sum(SupplyVals(tokens[code := token], s))
         == Sum(SupplyVals(tokens, s)) + When(Covers(s, code), token.supply) - At(SupplyVals(tokens, s), code)
  {
    hide Sum;
    var m, x := SupplyVals(tokens, s), When(Covers(s, code), token.supply);
    assert SupplyVals(tokens[code := token], s) == m[code := x];
    SumPut(m, code, x);
  }

  ghost function Gap(w: World, s: Scope): int {
    Supply(w, s) - Held(w, s)
  }

  lemma WrapEnabled(w: World, e: Effect)
    requires Enabled(w, e)
    ensures e.CloseWrap? ==> e.id in w.wraps && w.wraps[e.id].completeTx == "" && e.completeTx != ""
    ensures e.PutWrap? ==> e.wrap.completeTx == "" && e.id !in w.wraps
  {
  }

  lemma GapOfEffect(w: World, e: Effect, s: Scope)
    requires Inv(w) && Accepted(w, e) && Enabled(w, e)
    ensures Gap(Apply(w, e), s) == Gap(w, s) + Drift(w, e, s)
  {
    hide Enabled, Apply, Sum, PendingsOk, PaysOk, LogsOk, RefundsOk, HoldersOk, ShortfallOk, FeeMarksOk, PayMarksOk;
    BalanceSum(w, e, s);
    PendingSum(w, e, s);
    PaySum(w, e, s);
    FeeSum(w, e, s);
    WrapEnabled(w, e);
    WrapSum(w, e, s);
    SupplySum(w, e, s);
  }

  ghost function DriftAll(w: World, plan: Plan, s: Scope): int
    decreases plan
  {
    match plan
    case Done => 0
    case Then(e, rest) => Drift(w, e, s) + DriftAll(Apply(w, e), rest, s)
  }

  lemma {:induction false} GapOfPlan(w: World, plan: Plan, s: Scope)
    requires Inv(w) && PlanOk(w, plan) && Commit(w, plan).Some?
    ensures Gap(Commit(w, plan).value, s) == Gap(w, s) + DriftAll(w, plan, s)
    decreases plan
  {
    hide Inv, Enabled, Apply, Gap, Drift;
    match plan {
      case Done =>
      case Then(e, rest) =>
        GapOfEffect(w, e, s);
        KeepInv(w, e);
        GapOfPlan(Apply(w, e), rest, s);
    }
  }

  // ---- every plan is balanced ----

  lemma DriftStep(w: World, e: Effect, rest: Plan, s: Scope)
    ensures DriftAll(w, Then(e, rest), s) == Drift(w, e, s) + DriftAll(Apply(w, e), rest, s)
    ensures DriftAll(w, Then(e, Done), s) == Drift(w, e, s)
  {
    hide Drift, Apply;
  }

  // What a pending balance is worth leaves the pending balances when it is dropped.
  lemma DropDrift(w: World, pid: string, s: Scope)
    requires pid in w.pendings
    ensures Drift(w, DropPending(pid), s) == When(Covers(s, w.pendings[pid].account.code), w.pendings[pid].Worth())
  {
  }

  lemma FeeDrifts(w: World, env: Env, account: Address, amount: int, cause: FeeCause, rest: Plan, s: Scope)
    ensures DriftAll(w, CreateFee(env, account, amount, cause, rest), s)
         == -When(Covers(s, account.code), amount)
            + if amount == 0 then DriftAll(w, rest, s) else DriftAll(Apply(w, NewFee(env, account, amount, cause)), rest, s)
  {
    DriftStep(w, NewFee(env, account, amount, cause), rest, s);
  }

  lemma DepositBalanced(w: World, env: Env, sender: Address, con: Con, doc: Doc, amount: int, fee: Option<int>, s: Scope)
    ensures DriftAll(w, Deposit(env, sender, con, doc, amount, fee), s) == 0
  {
    var plan := Deposit(env, sender, con, doc, amount, fee);
    var w1 := Apply(w, plan.head);
    hide Apply, DriftAll;
    DriftStep(w, plan.head, plan.tail, s);
    DriftStep(w1, plan.tail.head, plan.tail.tail, s);
    DriftStep(Apply(w1, plan.tail.head), plan.tail.tail.head, Done, s);
  }

  lemma SendBalanced(w: World, env: Env, sender: Address, receiver: Address, amount: int, fee: int, pendingTime: Option<int>, s: Scope)
    requires sender.code == receiver.code
    ensures DriftAll(w, Send(env, sender, receiver, amount, fee, pendingTime), s) == 0
  {
    var plan := Send(env, sender, receiver, amount, fee, pendingTime);
    var w1 := Apply(w, plan.head);
    var w2 := Apply(w1, plan.tail.head);
    hide Apply, DriftAll;
    DriftStep(w, plan.head, plan.tail, s);
    DriftStep(w1, plan.tail.head, plan.tail.tail, s);
    FeeDrifts(w2, env, sender, fee, TransferFee, Done, s);
    NothingLeft(w2, s);
    NothingLeft(Apply(w2, NewFee(env, sender, fee, TransferFee)), s);
  }

  lemma NothingLeft(w: World, s: Scope)
    ensures DriftAll(w, Done, s) == 0
  {
  }

  // Dropping an old pending balance is unmoved by a new lock, credit or fee before it.
  lemma DropLater(w: World, e: Effect, pid: string, s: Scope)
    requires pid in w.pendings && (e.Post? || e.PutFee? || e.PutPay? || e.PutWrap? || (e.PutPending? && e.pid != pid))
    ensures var v := Apply(w, e); pid in v.pendings && v.pendings[pid] == w.pendings[pid]
    ensures Drift(Apply(w, e), DropPending(pid), s) == Drift(w, DropPending(pid), s)
  {
    hide SupplyDrift, BalanceDrift, PayDrift, FeeDrift, WrapDrift;
    assert SupplyDrift(w, DropPending(pid), s) == 0 == SupplyDrift(Apply(w, e), DropPending(pid), s) by { NoOtherDrift(w, pid, s); NoOtherDrift(Apply(w, e), pid, s); }
    NoOtherDrift(w, pid, s);
    NoOtherDrift(Apply(w, e), pid, s);
  }

  lemma NoOtherDrift(w: World, pid: string, s: Scope)
    ensures var e := DropPending(pid);
      SupplyDrift(w, e, s) == BalanceDrift(e, s) == PayDrift(w, e, s) == FeeDrift(w, e, s) == WrapDrift(w, e, s) == 0
  {
  }

  lemma SendPendingBalanced(w: World, env: Env, pid: string, sender: Address, receiver: Address, pendingTime: Option<int>, s: Scope)
    requires pid in w.pendings && env.txid !in w.pendings && receiver.code == w.pendings[pid].account.code
    ensures DriftAll(w, SendPending(env, pid, w.pendings[pid], sender, receiver, pendingTime), s) == 0
  {
    var pb := w.pendings[pid];
    var plan := SendPending(env, pid, pb, sender, receiver, pendingTime);
    var w1 := Apply(w, plan.head);
    var fee := NewFee(env, pb.account, FeePart(pb.fee), TransferFee);
    var w2 := Apply(w1, fee);
    DropLater(w, plan.head, pid, s);
    DropLater(w1, fee, pid, s);
    DropDrift(w, pid, s);
    hide Apply, DriftAll;
    DriftStep(w, plan.head, plan.tail, s);
    FeeDrifts(w1, env, pb.account, FeePart(pb.fee), TransferFee, Then(DropPending(pid), Done), s);
    DriftStep(w1, DropPending(pid), Done, s);
    DriftStep(w2, DropPending(pid), Done, s);
  }

  lemma WithdrawBalanced(w: World, env: Env, pid: string, s: Scope)
    requires pid in w.pendings
    ensures DriftAll(w, Withdraw(env, pid, w.pendings[pid]), s) == 0
  {
    var plan := Withdraw(env, pid, w.pendings[pid]);
    DropLater(w, plan.head, pid, s);
    DropDrift(w, pid, s);
    hide Apply, DriftAll;
    DriftStep(w, plan.head, plan.tail, s);
    DriftStep(Apply(w, plan.head), DropPending(pid), Done, s);
  }

  // A record or wrap that takes over a pending balance: it must be worth the same.
  lemma TakeOverBalanced(w: World, e: Effect, pid: string, s: Scope)
    requires pid in w.pendings && (e.PutPay? || e.PutWrap?)
    requires e.PutPay? ==> e.pay.merchant.code == w.pendings[pid].account.code && e.pay.amount == w.pendings[pid].Worth()
    requires e.PutWrap? ==> e.wrap.address.code == w.pendings[pid].account.code && e.wrap.amount == w.pendings[pid].Worth()
    ensures DriftAll(w, Then(e, Then(DropPending(pid), Done)), s) == 0
  {
    DropLater(w, e, pid, s);
    DropDrift(w, pid, s);
    hide Apply, DriftAll;
    DriftStep(w, e, Then(DropPending(pid), Done), s);
    DriftStep(Apply(w, e), DropPending(pid), Done, s);
  }

  // A record, refund or wrap together with the posting of its amount.
  lemma PairBalanced(w: World, e: Effect, post: Effect, s: Scope)
    requires post.Post? && (e.PutPay? || e.PutRefund? || e.PutWrap?)
    requires e.PutWrap? ==> e.wrap.address.code == post.a.code && e.wrap.amount + post.diff - post.logFee == 0
    requires !e.PutWrap? ==> e.pay.merchant.code == post.a.code && e.pay.amount + post.diff - post.logFee == 0
    ensures DriftAll(w, Then(e, Then(post, Done)), s) == 0
  {
    hide Apply, DriftAll;
    DriftStep(w, e, Then(post, Done), s);
    DriftStep(Apply(w, e), post, Done, s);
  }

  // ---- supply ----

  lemma MintBalanced(w: World, env: Env, code: string, amount: int, s: Scope)
    requires Inv(w)
    ensures var p := Mint(w, env, code, amount); p.Some? ==> DriftAll(w, p.value, s) == 0
  {
    hide Inv;
    var p := Mint(w, env, code, amount);
    if p.Some? {
      TokenOf(w, code);
      DriftStep(w, p.value.head, p.value.tail, s);
      DriftStep(Apply(w, p.value.head), p.value.tail.head, Done, s);
    }
  }

  lemma BurnBalanced(w: World, env: Env, code: string, amount: int, s: Scope)
    requires Inv(w)
    ensures var p := Burn(w, env, code, amount); p.Some? ==> DriftAll(w, p.value, s) == 0
  {
    hide Inv;
    var p := Burn(w, env, code, amount);
    if p.Some? && p.value.Then? {
      TokenOf(w, code);
      DriftStep(w, p.value.head, p.value.tail, s);
      DriftStep(Apply(w, p.value.head), p.value.tail.head, Done, s);
    }
  }

  lemma CreateTokenBalanced(h: Hasher, w: World, env: Env, code: string, meta: Meta, kids: set<string>, s: Scope)
    requires code !in w.tokens && MetaValid(meta)
    ensures var p := CreateToken(h, w, env, code, meta, kids); p.Some? ==> DriftAll(w, p.value, s) == 0
  {
    NewAddressParts(h, code, JOINT, env.txid);
    hide NewAddress, DriftAll, BridgeKnown;
    var p := CreateToken(h, w, env, code, meta, kids);
    if p.Some? {
      var plan := p.value;
      var w1 := Apply(w, plan.head);
      DriftStep(w, plan.head, plan.tail, s);
      if meta.initial > 0 {
        IssueBalanced(w1, plan.tail.head, plan.tail.tail.head, s);
      } else {
        DriftStep(w1, plan.tail.head, Done, s);
      }
    }
  }

  lemma IssueBalanced(w: World, post: Effect, put: Effect, s: Scope)
    requires post.Post? && put.PutToken? && put.code !in w.tokens && post.a.code == put.code && post.diff - post.logFee == put.token.supply
    ensures DriftAll(w, Then(post, Then(put, Done)), s) == 0
  {
    hide DriftAll;
    DriftStep(w, post, Then(put, Done), s);
    DriftStep(Apply(w, post), put, Done, s);
  }

  // ---- prunes ----

  lemma {:induction false} ScopedPays(pays: map<string, PayRec>, a: Address, ids: seq<string>, s: Scope)
    requires forall id :: id in ids ==> id in pays && pays[id].merchant == a
    ensures SeqSum(PayVals(pays, s), ids) == When(Covers(s, a.code), SeqSum(AmountsOf(PayRecs(pays)), ids))
  {
    if ids != [] {
      assert ids[|ids| - 1] in ids;
      ScopedPays(pays, a, ids[..|ids| - 1], s);
    }
  }

  lemma {:induction false} ScopedFees(fees: map<string, FeeRec>, code: string, ids: seq<string>, s: Scope)
    requires forall id :: id in ids ==> id in fees && fees[id].code == code
    ensures SeqSum(FeeVals(fees, s), ids) == When(Covers(s, code), SeqSum(AmountsOf(FeeRecs(fees)), ids))
  {
    if ids != [] {
      assert ids[|ids| - 1] in ids;
      ScopedFees(fees, code, ids[..|ids| - 1], s);
    }
  }

  lemma MarkPaysDrift(w: World, a: Address, ids: seq<string>, s: Scope)
    requires Enabled(w, MarkPays(a, ids))
    ensures Drift(w, MarkPays(a, ids), s) == When(Covers(s, a.code), SeqSum(AmountsOf(PayRecs(w.pays)), ids))
  {
    hide SeqSum, CountedBelow, SplitTime;
    ScopedPays(w.pays, a, ids, s);
  }

  lemma MarkFeesDrift(w: World, code: string, ids: seq<string>, target: Address, s: Scope)
    requires Enabled(w, MarkFees(code, ids, target))
    ensures Drift(w, MarkFees(code, ids, target), s) == When(Covers(s, code), SeqSum(AmountsOf(FeeRecs(w.fees)), ids))
  {
    hide SeqSum, CountedBelow, SplitTime;
    ScopedFees(w.fees, code, ids, s);
  }

  lemma PostDrift(w: World, post: Effect, s: Scope)
    requires post.Post?
    ensures Drift(w, post, s) == -When(Covers(s, post.a.code), post.diff - post.logFee)
  {
  }

  lemma PayPruneBalanced(w: World, env: Env, a: Address, end: int, order: seq<string>, s: Scope)
    requires Inv(w)
    requires a in w.balances && WatermarkStart(w.balances[a].mark).Some? ==>
      Listing(PayRecs(w.pays), a, WatermarkStart(w.balances[a].mark).value, end, order)
    ensures var p := PayPrune(w, env, a, order); p.Some? ==> DriftAll(w, p.value, s) == 0
  {
    hide Inv, SeqSum, SplitTime, Listing, Apply, DriftAll, Enabled, Drift, CreateFee, PayRecs;
    if PayPrune(w, env, a, order).Some? {
      var ids := Batch(order);
      var sum, fee := SeqSum(AmountsOf(PayRecs(w.pays)), ids), SeqSum(FeesOf(PayRecs(w.pays)), ids);
      var e1, post := MarkPays(a, ids), Post(a, PrunePayLog, NoRef, sum - fee, 0, env.ts);
      var w1 := Apply(w, e1);
      var w2 := Apply(w1, NewFee(env, a, fee, PayFee));
      MarkPaysEnabled(w, a, end, order);
      MarkPaysDrift(w, a, ids, s);
      PostDrift(w1, post, s);
      PostDrift(w2, post, s);
      DriftStep(w, e1, CreateFee(env, a, fee, PayFee, Then(post, Done)), s);
      FeeDrifts(w1, env, a, fee, PayFee, Then(post, Done), s);
      DriftStep(w1, post, Done, s);
      DriftStep(w2, post, Done, s);
    }
  }

  // Storing a token with another legacy watermark moves no value.
  lemma MigrationDrift(w: World, code: string, t: Token, s: Scope)
    requires code in w.tokens && t.supply == w.tokens[code].supply
    ensures Drift(w, PutToken(code, t), s) == 0
  {
  }

  lemma FeePruneBalanced(w: World, env: Env, code: string, end: int, order: seq<string>, s: Scope)
    requires Inv(w)
    requires WatermarkStart(FeeMark(w, code)).Some? ==>
      Listing(FeeRecs(w.fees), code, WatermarkStart(FeeMark(w, code)).value, end, order)
    requires s.AllTokens? || CodesAgree(w)
    ensures var p := FeePrune(w, env, code, order); p.Some? ==> DriftAll(w, p.value, s) == 0
  {
    hide Inv, SeqSum, SplitTime, Listing, DriftAll, Enabled, Drift, FeeRecs, Apply;
    var p := FeePrune(w, env, code, order);
    NothingLeft(w, s);
    if p.Some? && p.value.Then? {
      var ids, t := Batch(order), w.tokens[code];
      var target := t.policy.value.target;
      var e1 := MarkFees(code, ids, target);
      var post := Post(target, PruneFeeLog, NoRef, SeqSum(AmountsOf(FeeRecs(w.fees)), ids), 0, env.ts);
      var put := PutToken(code, t.(legacyMark := ""));
      var w1 := Apply(w, e1);
      assert s.AllTokens? || TokenCodesAgree(code, t);
      MarkFeesEnabled(w, code, target, end, order);
      MarkFeesDrift(w, code, ids, target, s);
      assert w1.tokens == w.tokens by { MarkKeepsTokens(w, e1); }
      MigrationDrift(w1, code, put.token, s);
      PostDrift(w1, post, s);
      PostDrift(Apply(w1, put), post, s);
      DriftStep(w, e1, p.value.tail, s);
      DriftStep(w1, put, Then(post, Done), s);
      DriftStep(w1, post, Done, s);
      DriftStep(Apply(w1, put), post, Done, s);
    }
  }

  lemma MarkKeepsTokens(w: World, e: Effect)
    requires !e.PutToken?
    ensures Apply(w, e).tokens == w.tokens
  {
  }

  // ---- bridge ----

  // The fee target and the wrap accounts of a token belong to that token.
  ghost predicate TokenCodesAgree(code: string, t: Token) {
    && (t.policy.Some? ==> t.policy.value.target.code == code)
    && (forall ext :: ext in t.bridge ==> t.bridge[ext].code == code)
  }

  ghost predicate CodesAgree(w: World) {
    forall code :: code in w.tokens ==> TokenCodesAgree(code, w.tokens[code])
  }

  lemma WrapCompleteBalanced(w: World, env: Env, wrapId: string, fee: int, extTx: Option<string>, s: Scope)
    requires s.AllTokens? || CodesAgree(w)
    ensures var p := WrapComplete(w, env, wrapId, fee, extTx); p.Some? ==> DriftAll(w, p.value, s) == 0
  {
    hide ToLower;
    var p := WrapComplete(w, env, wrapId, fee, extTx);
    if p.Some? {
      var e, post := p.value.head, p.value.tail.head;
      assert s.AllTokens? || post.a.code == w.wraps[wrapId].address.code by {
        if !s.AllTokens? {
          assert TokenCodesAgree(w.wraps[wrapId].address.code, w.tokens[w.wraps[wrapId].address.code]);
        }
      }
      hide Apply, DriftAll, NormalizeExtTxID;
      var w2 := Apply(Apply(w, e), post);
      DriftStep(w, e, p.value.tail, s);
      DriftStep(Apply(w, e), post, p.value.tail.tail, s);
      FeeDrifts(w2, env, post.a, post.logFee, WrapFee, Done, s);
      NothingLeft(w2, s);
      NothingLeft(Apply(w2, NewFee(env, post.a, post.logFee, WrapFee)), s);
    }
  }

  lemma UnwrapBalanced(w: World, env: Env, code: string, receiver: Option<Address>, extCode: string, extId: string, extTx: string, amount: int, s: Scope)
    requires s.AllTokens? || CodesAgree(w)
    ensures var p := Unwrap(w, env, code, receiver, extCode, extId, extTx, amount); p.Some? ==> DriftAll(w, p.value, s) == 0
  {
    hide ToLower;
    var p := Unwrap(w, env, code, receiver, extCode, extId, extTx, amount);
    if p.Some? {
      var e, post := p.value.head, p.value.tail.head;
      var w1 := Apply(w, e);
      hide Apply, DriftAll, NormalizeExtTxID;
      DriftStep(w, e, p.value.tail, s);
      DriftStep(w1, post, p.value.tail.tail, s);
      if p.value.tail.tail == Done {
        NothingLeft(Apply(w1, post), s);
      } else {
        assert s.AllTokens? || post.a.code == p.value.tail.tail.head.a.code by {
          if !s.AllTokens? {
            assert TokenCodesAgree(receiver.value.code, w.tokens[receiver.value.code]);
          }
        }
        DriftStep(Apply(w1, post), p.value.tail.tail.head, Done, s);
      }
    }
  }

  // ---- every transaction ----

  lemma InertBalanced(w: World, e: Effect, s: Scope)
    requires e.PutContract? || e.OpenAccount? || e.SetSuspended? || e.AddHolder? || e.DropHolder?
    ensures DriftAll(w, Then(e, Done), s) == 0
  {
    DriftStep(w, e, Done, s);
  }

  ghost predicate Balanced(w: World, p: Option<Plan>, s: Scope) {
    p.Some? ==> DriftAll(w, p.value, s) == 0
  }

  lemma TransferBalanced(w: World, env: Env, sender: Address, receiver: Address, amount: int, lock: Option<int>, orderId: string, extra: seq<Address>, con: Con, s: Scope)
    ensures Balanced(w, Transfer(w, env, sender, receiver, amount, lock, orderId, extra, con), s)
  {
    hide DriftAll, Gather;
    if Transfer(w, env, sender, receiver, amount, lock, orderId, extra, con).Some? {
      var fee := CalcFee(w, sender, "transfer", amount).value;
      DepositBalanced(w, env, sender, con, DocTransfer(env.txid, sender, receiver, orderId), amount, Some(fee), s);
      SendBalanced(w, env, sender, receiver, amount, fee, LockTime(env.ts, lock), s);
    }
  }

  lemma PayBalanced(w: World, env: Env, sender: Address, receiver: Address, amount: int, con: Con, s: Scope)
    ensures Balanced(w, Pay(w, env, sender, receiver, amount, con), s)
  {
    hide DriftAll;
    var p := Pay(w, env, sender, receiver, amount, con);
    DepositBalanced(w, env, sender, con, DocPay(env.txid, sender, receiver), amount, None, s);
    if p.Some? && p.value.head.PutPay? {
      PairBalanced(w, p.value.head, p.value.tail.head, s);
    }
  }

  lemma RefundBalanced(w: World, env: Env, payId: string, amount: int, s: Scope)
    ensures Balanced(w, Refund(w, env, payId, amount), s)
  {
    hide DriftAll, RefundFee;
    var p := Refund(w, env, payId, amount);
    if p.Some? {
      PairBalanced(w, p.value.head, p.value.tail.head, s);
    }
  }

  lemma WrapBalanced(w: World, env: Env, sender: Address, extCode: string, extId: string, amount: int, extra: seq<Address>, con: Con, s: Scope)
    ensures Balanced(w, Wrap(w, env, sender, extCode, extId, amount, extra, con), s)
  {
    hide DriftAll, Gather;
    var p := Wrap(w, env, sender, extCode, extId, amount, extra, con);
    DepositBalanced(w, env, sender, con, DocWrap(env.txid, sender, extCode, extId), amount, None, s);
    if p.Some? && p.value.head.PutWrap? {
      PairBalanced(w, p.value.head, p.value.tail.head, s);
    }
  }

  lemma PendingWithdrawBalanced(w: World, env: Env, pid: string, s: Scope)
    ensures Balanced(w, PendingWithdraw(w, env, pid), s)
  {
    hide DriftAll;
    if pid in w.pendings {
      WithdrawBalanced(w, env, pid, s);
    }
  }

  lemma TokenCreateBalanced(h: Hasher, w: World, env: Env, code: string, meta: Meta, co: seq<Address>, con: Con, s: Scope)
    ensures Balanced(w, TokenCreate(h, w, env, code, meta, co, con), s)
  {
    hide DriftAll, Gather, CreateToken;
    var p := TokenCreate(h, w, env, code, meta, co, con);
    if p.Some? {
      var kids := Gather(w, code, co, {env.kid}).value;
      InertBalanced(w, PutContract(con.cid, DocTokenCreate(code, kids)), s);
      CreateTokenBalanced(h, w, env, code, meta, kids, s);
    }
  }

  lemma TokenUpdateBalanced(w: World, code: string, meta: Meta, s: Scope)
    ensures Balanced(w, TokenUpdate(w, code, meta), s)
  {
    hide DriftAll, Drift;
    NothingLeft(w, s);
    var p := TokenUpdate(w, code, meta);
    if p.Some? && p.value.Then? {
      MigrationDrift(w, code, p.value.head.token, s);
      DriftStep(w, p.value.head, Done, s);
    }
  }

  lemma TokenMintBalanced(w: World, env: Env, code: string, amount: int, con: Con, s: Scope)
    requires Inv(w)
    ensures Balanced(w, TokenMint(w, env, code, amount, con), s)
  {
    hide Inv, DriftAll, Mint;
    InertBalanced(w, PutContract(con.cid, DocMint(code, amount)), s);
    MintBalanced(w, env, code, amount, s);
  }

  lemma TokenBurnBalanced(w: World, env: Env, code: string, amount: int, con: Con, s: Scope)
    requires Inv(w)
    ensures Balanced(w, TokenBurn(w, env, code, amount, con), s)
  {
    hide Inv, DriftAll, Burn;
    InertBalanced(w, PutContract(con.cid, DocBurn(code, amount)), s);
    BurnBalanced(w, env, code, amount, s);
  }

  lemma ExecuteMoneyBalanced(w: World, env: Env, cid: string, s: Scope)
    requires Ready(w, env) && cid in w.contracts
    ensures var doc := w.contracts[cid];
      && (doc.DocTransfer? ==> Balanced(w, ExecuteTransfer(w, env, cid, doc), s))
      && (doc.DocPay? ==> Balanced(w, ExecutePay(w, env, cid, doc), s))
      && (doc.DocWrap? ==> Balanced(w, ExecuteWrap(w, env, cid, doc), s))
  {
    var doc := w.contracts[cid];
    if doc.Money() && Holds(w, cid, doc.pb) {
      PendingOf(w, doc.pb);
      hide Inv, DriftAll;
      if doc.DocTransfer? {
        SendPendingBalanced(w, env, doc.pb, doc.sender, doc.receiver, LockOf(doc.orderId), s);
      } else if doc.DocPay? {
        var p := ExecutePay(w, env, cid, doc);
        if p.Some? {
          TakeOverBalanced(w, p.value.head, doc.pb, s);
        }
      } else {
        var p := ExecuteWrap(w, env, cid, doc);
        if p.Some? {
          TakeOverBalanced(w, p.value.head, doc.pb, s);
        }
      }
    } else if doc.Money() {
      NothingHeld(w, env, cid, doc);
    }
  }

  lemma ExecuteHoldersBalanced(w: World, a: Address, kid: string, s: Scope)
    ensures Balanced(w, ExecuteHolderAdd(w, a, kid), s) && Balanced(w, ExecuteHolderRemove(w, a, kid), s)
  {
    hide DriftAll;
    InertBalanced(w, AddHolder(a, kid), s);
    InertBalanced(w, DropHolder(a, kid), s);
  }

  lemma JointAccountBalanced(h: Hasher, w: World, env: Env, code: string, kids: set<string>, s: Scope)
    ensures Balanced(w, JointAccount(h, w, env, code, kids, Done), s)
  {
    hide DriftAll;
    var a := NewAddress(h, code, JOINT, env.txid);
    InertBalanced(w, OpenAccount(a, Account(kids, false), kids), s);
  }

  lemma ExecuteBalanced(h: Hasher, w: World, env: Env, cid: string, meta: Meta, s: Scope)
    requires Ready(w, env)
    ensures Balanced(w, Execute(h, w, env, cid, meta), s)
  {
    hide Inv, DriftAll, CreateToken, JointAccount, Mint, Burn, ExecutePay, ExecuteWrap, ExecuteTransfer, ExecuteHolderAdd, ExecuteHolderRemove;
    if cid in w.contracts {
      var doc := w.contracts[cid];
      ExecuteMoneyBalanced(w, env, cid, s);
      match doc {
        case DocMint(code, amount) => MintBalanced(w, env, code, amount, s);
        case DocBurn(code, amount) => BurnBalanced(w, env, code, amount, s);
        case DocTokenCreate(code, kids) =>
          if code !in w.tokens && MetaValid(meta) {
            CreateTokenBalanced(h, w, env, code, meta, kids, s);
          }
        case DocAccountCreate(code, kids) => JointAccountBalanced(h, w, env, code, kids, s);
        case DocHolderAdd(a, kid) => ExecuteHoldersBalanced(w, a, kid, s);
        case DocHolderRemove(a, kid) => ExecuteHoldersBalanced(w, a, kid, s);
        case _ =>
      }
    }
  }

  lemma CancelBalanced(w: World, env: Env, cid: string, s: Scope)
    ensures Balanced(w, Cancel(w, env, cid), s)
  {
    hide DriftAll;
    NothingLeft(w, s);
    if cid in w.contracts && w.contracts[cid].Money() && Holds(w, cid, w.contracts[cid].pb) {
      WithdrawBalanced(w, env, w.contracts[cid].pb, s);
    }
  }

  lemma AccountPlansBalanced(h: Hasher, w: World, env: Env, tx: Tx, s: Scope)
    requires tx.TxAccountCreate? || tx.TxJointCreate? || tx.TxHolderAdd? || tx.TxHolderRemove? || tx.TxSuspend? || tx.TxUnsuspend?
    ensures Balanced(w, PlanOf(h, w, env, tx), s)
  {
    hide Gather, HexDecode, ID, DriftAll, ValidateTokenCode, NewAddress;
    var p := PlanOf(h, w, env, tx);
    if p.Some? {
      assert p.value.tail == Done;
      InertBalanced(w, p.value.head, s);
    }
  }

  // The transactions that may post on an account of another token.
  predicate Crossing(tx: Tx) {
    tx.TxWrapComplete? || tx.TxUnwrap? || tx.TxFeePrune?
  }

  lemma PlansBalanced(h: Hasher, w: World, env: Env, tx: Tx, s: Scope)
    requires Ready(w, env) && QueryAnswered(w, env, tx)
    requires s.AllTokens? || CodesAgree(w) || !Crossing(tx)
    ensures Balanced(w, PlanOf(h, w, env, tx), s)
  {
    hide Inv, DriftAll, Listing, Transfer, Pay, Refund, PayPrune, FeePrune, PendingWithdraw, Wrap, WrapComplete, Unwrap, Execute, Cancel;
    hide AccountCreate, JointCreate, HolderAdd, HolderRemove, Suspend, TokenCreate, TokenUpdate, TokenMint, TokenBurn, SplitTime;
    match tx {
      case TxTokenCreate(code, meta, co, con) => TokenCreateBalanced(h, w, env, code, meta, co, con, s);
      case TxTokenUpdate(code, meta) => TokenUpdateBalanced(w, code, meta, s);
      case TxMint(code, amount, con) => TokenMintBalanced(w, env, code, amount, con, s);
      case TxBurn(code, amount, con) => TokenBurnBalanced(w, env, code, amount, con, s);
      case TxTransfer(sender, receiver, amount, lock, orderId, extra, con) => TransferBalanced(w, env, sender, receiver, amount, lock, orderId, extra, con, s);
      case TxPay(sender, receiver, amount, con) => PayBalanced(w, env, sender, receiver, amount, con, s);
      case TxRefund(payId, amount) => RefundBalanced(w, env, payId, amount, s);
      case TxPayPrune(a, safe, end, order) => PayPruneBalanced(w, env, a, EndTime(env.ts, safe, end), order, s);
      case TxFeePrune(code, safe, end, order) => FeePruneBalanced(w, env, code, EndTime(env.ts, safe, end), order, s);
      case TxWithdraw(pid) => PendingWithdrawBalanced(w, env, pid, s);
      case TxWrap(sender, extCode, extId, amount, extra, con) => WrapBalanced(w, env, sender, extCode, extId, amount, extra, con, s);
      case TxWrapComplete(wrapId, fee, extTx) => WrapCompleteBalanced(w, env, wrapId, fee, extTx, s);
      case TxUnwrap(code, to, extCode, extId, burnTx, amount) => UnwrapBalanced(w, env, code, to, extCode, extId, burnTx, amount, s);
      case TxExecute(cid, meta) => ExecuteBalanced(h, w, env, cid, meta, s);
      case TxCancel(cid) => CancelBalanced(w, env, cid, s);
      case _ => AccountPlansBalanced(h, w, env, tx, s);
    }
  }

  lemma BeginKeepsGap(w: World, env: Env, s: Scope)
    ensures Gap(Begin(w, env), s) == Gap(w, s)
  {
  }

  // Every committed transaction leaves supply minus holdings as it was: for all tokens
  // together always, and for one token unless it is one of the three that may cross.
  lemma StepConserves(h: Hasher, w: World, env: Env, tx: Tx, s: Scope)
    requires Inv(w) && Step(h, w, env, tx).Some?
    requires s.AllTokens? || CodesAgree(w) || !Crossing(tx)
    ensures Gap(Step(h, w, env, tx).value, s) == Gap(w, s)
  {
    hide Inv, PlanOf, PlanOk, Commit, QueryAnswered, DriftAll, Gap;
    var b := Begin(w, env);
    BeginReady(w, env);
    SameQuery(w, env, tx);
    PlansOk(h, b, env, tx);
    PlansBalanced(h, b, env, tx, s);
    GapOfPlan(b, PlanOf(h, b, env, tx).value, s);
    BeginKeepsGap(w, env, s);
  }
}
