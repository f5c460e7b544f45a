/**
  The bridge of one wrap account: what it was credited and debited, and the wrap
  fees taken, against the wraps completed into it and the unwraps paid from it.
 */
module Bridge {
  import opened Sums
  import opened Addresses
  import opened Ledger
  import opened Fields
  import opened Rules
  import opened Invariants
  import opened Steps
  import opened Conservation
  import opened Shapes
  import opened History
  import opened Prunes

  function BridgeNets(logs: map<LogKey, Log>, a: Address): map<LogKey, int> {
    map k | k in logs :: When(k.0 == a && BridgeKind(logs[k].kind), logs[k].diff - logs[k].fee)
  }

  function WrapFees(fees: map<string, FeeRec>, a: Address): map<string, int> {
    map id | id in fees :: When(fees[id].account == a && fees[id].cause == WrapFee, fees[id].amount)
  }

  function CompletedWraps(wraps: map<string, WrapRec>, completed: map<string, Address>, a: Address): map<string, int> {
    map id | id in wraps :: When(id in completed && completed[id] == a, wraps[id].amount)
  }

  function PaidUnwraps(unwraps: map<string, UnwrapRec>, a: Address): map<string, int> {
    map ext | ext in unwraps :: When(unwraps[ext].wrapper == a, unwraps[ext].moved)
  }

  // Net of the bridge postings on a, plus its wrap fees, less what they should come to.
  ghost function BridgeGap(w: World, a: Address): int {
    Sum(BridgeNets(w.logs, a)) + Sum(WrapFees(w.fees, a))
    - Sum(CompletedWraps(w.wraps, w.completed, a)) + Sum(PaidUnwraps(w.unwraps, a))
  }

  function BridgeDrift(w: World, e: Effect, a: Address): int {
    match e
    case Post(x, kind, _, diff, fee, _) => When(x == a && BridgeKind(kind), diff - fee)
    case PutFee(_, fee) => When(fee.account == a && fee.cause == WrapFee, fee.amount)
    case CloseWrap(id, _, x) => if id in w.wraps then -When(x == a, w.wraps[id].amount) else 0
    case PutUnwrap(_, unwrap) => When(unwrap.wrapper == a, unwrap.moved)
    case _ => 0
  }

  lemma NetsAfter(w: World, e: Effect, a: Address)
    requires Accepted(w, e)
    ensures Sum(BridgeNets(Apply(w, e).logs, a)) == Sum(BridgeNets(w.logs, a)) + if e.Post? then BridgeDrift(w, e, a) else 0
  {
    hide Sum, BridgeNets, Apply;
    if e.Post? {
      PostFields(w, e);
      NetsPut(w.logs, (e.a, e.ts), Apply(w, e).logs[(e.a, e.ts)], a);
    } else {
      LogsUntouched(w, e);
    }
  }

  lemma LogsUntouched(w: World, e: Effect)
    requires !e.Post?
    ensures Apply(w, e).logs == w.logs
  {
  }

  lemma NetsPut(logs: map<LogKey, Log>, k: LogKey, log: Log, a: Address)
    requires k !in logs
    ensures Sum(BridgeNets(logs[k := log], a)) == Sum(BridgeNets(logs, a)) + When(k.0 == a && BridgeKind(log.kind), log.diff - log.fee)
  {
    hide Sum;
    var m, x := BridgeNets(logs, a), When(k.0 == a && BridgeKind(log.kind), log.diff - log.fee);
    assert BridgeNets(logs[k := log], a) == m[k := x];
    SumPut(m, k, x);
  }

  lemma WrapFeesAfter(w: World, e: Effect, a: Address)
    requires e.PutFee? ==> e.id !in w.fees
    ensures Sum(WrapFees(Apply(w, e).fees, a)) == Sum(WrapFees(w.fees, a)) + if e.PutFee? then BridgeDrift(w, e, a) else 0
  {
    hide Sum;
    if e.PutFee? {
      var m, x := WrapFees(w.fees, a), BridgeDrift(w, e, a);
      assert WrapFees(Apply(w, e).fees, a) == m[e.id := x];
      SumPut(m, e.id, x);
    }
  }

  lemma CompletedAfter(w: World, e: Effect, a: Address)
    requires WrapsOk(w.used, w.balances, w.completed, w.wraps)
    requires e.CloseWrap? ==> e.id in w.wraps && w.wraps[e.id].completeTx == ""
    requires e.PutWrap? ==> e.id !in w.wraps
    ensures var v := Apply(w, e);
      Sum(CompletedWraps(v.wraps, v.completed, a)) == Sum(CompletedWraps(w.wraps, w.completed, a)) - if e.CloseWrap? then BridgeDrift(w, e, a) else 0
  {
    hide Sum, CompletedWraps;
    if e.CloseWrap? {
      assert WrapOk(w.used, w.balances, w.completed, e.id, w.wraps[e.id]);
      CloseOne(w.wraps, w.completed, e.id, e.completeTx, e.a, a);
    } else if e.PutWrap? {
      OpenOne(w.wraps, w.completed, e.id, e.wrap, a);
    }
  }

  lemma CloseOne(wraps: map<string, WrapRec>, completed: map<string, Address>, id: string, completeTx: string, x: Address, a: Address)
    requires id in wraps && id !in completed
    ensures Sum(CompletedWraps(wraps[id := wraps[id].(completeTx := completeTx)], completed[id := x], a))
         == Sum(CompletedWraps(wraps, completed, a)) + When(x == a, wraps[id].amount)
  {
    hide Sum;
    var m := CompletedWraps(wraps, completed, a);
    var v := When(x == a, wraps[id].amount);
    assert CompletedWraps(wraps[id := wraps[id].(completeTx := completeTx)], completed[id := x], a) == m[id := v];
    SumPut(m, id, v);
  }

  lemma OpenOne(wraps: map<string, WrapRec>, completed: map<string, Address>, id: string, wrap: WrapRec, a: Address)
    requires id !in wraps && id !in completed
    ensures Sum(CompletedWraps(wraps[id := wrap], completed, a)) == Sum(CompletedWraps(wraps, completed, a))
  {
    hide Sum;
    var m := CompletedWraps(wraps, completed, a);
    assert CompletedWraps(wraps[id := wrap], completed, a) == m[id := 0];
    SumPut(m, id, 0);
  }

  lemma UnwrapsAfter(w: World, e: Effect, a: Address)
    requires e.PutUnwrap? ==> e.ext !in w.unwraps
    ensures Sum(PaidUnwraps(Apply(w, e).unwraps, a)) == Sum(PaidUnwraps(w.unwraps, a)) + if e.PutUnwrap? then BridgeDrift(w, e, a) else 0
  {
    hide Sum;
    if e.PutUnwrap? {
      var m, x := PaidUnwraps(w.unwraps, a), BridgeDrift(w, e, a);
      assert PaidUnwraps(Apply(w, e).unwraps, a) == m[e.ext := x];
      SumPut(m, e.ext, x);
    }
  }

  lemma BridgeGapAfter(w: World, e: Effect, a: Address)
    requires Inv(w) && Accepted(w, e) && Enabled(w, e)
    ensures BridgeGap(Apply(w, e), a) == BridgeGap(w, a) + BridgeDrift(w, e, a)
  {
    hide Sum, Shortfall, NewBatch, Apply, LogsOk, RefundsOk, PayMarksOk, FeeMarksOk, ShortfallOk, HoldersOk, PendingsOk, PaysOk, FeesOk, TokensOk, ContractsOk, WrapsOk;
    NetsAfter(w, e, a);
    WrapFeesAfter(w, e, a);
    CompletedAfter(w, e, a);
    UnwrapsAfter(w, e, a);
  }

  ghost function BridgeDriftAll(w: World, plan: Plan, a: Address): int
    decreases plan
  {
    match plan
    case Done => 0
    case Then(e, rest) => BridgeDrift(w, e, a) + BridgeDriftAll(Apply(w, e), rest, a)
  }

  lemma {:induction false} BridgeGapOfPlan(w: World, plan: Plan, a: Address)
    requires Inv(w) && PlanOk(w, plan) && Commit(w, plan).Some?
    ensures BridgeGap(Commit(w, plan).value, a) == BridgeGap(w, a) + BridgeDriftAll(w, plan, a)
    decreases plan
  {
    hide Inv, Enabled, Apply, BridgeGap, BridgeDrift;
    if plan.Then? {
      BridgeGapAfter(w, plan.head, a);
      KeepInv(w, plan.head);
      BridgeGapOfPlan(Apply(w, plan.head), plan.tail, a);
    }
  }

  predicate Bridging(kinds: set<Kind>) {
    KBridgePost in kinds || KWrapFee in kinds || KCloseWrap in kinds || KPutUnwrap in kinds
  }

  lemma {:induction false} NoBridging(w: World, plan: Plan, env: Env, kinds: set<Kind>, a: Address)
    requires Only(plan, env, kinds) && !Bridging(kinds)
    ensures BridgeDriftAll(w, plan, a) == 0
    decreases plan
  {
    hide Apply;
    if plan.Then? {
      NoBridging(Apply(w, plan.head), plan.tail, env, kinds, a);
    }
  }

  lemma WrapCompleteBridges(w: World, env: Env, wrapId: string, fee: int, extTx: Option<string>, a: Address)
    ensures var p := WrapComplete(w, env, wrapId, fee, extTx); p.Some? ==> BridgeDriftAll(w, p.value, a) == 0
  {
    hide ToLower, NormalizeExtTxID, Apply;
    var p := WrapComplete(w, env, wrapId, fee, extTx);
    if p.Some? {
      var e, post := p.value.head, p.value.tail.head;
      var w1 := Apply(w, e);
      var w2 := Apply(w1, post);
      assert BridgeDriftAll(w2, p.value.tail.tail, a) == When(post.a == a, post.logFee) by {
        if p.value.tail.tail.Then? {
          assert p.value.tail.tail.tail == Done;
          assert BridgeDriftAll(Apply(w2, p.value.tail.tail.head), Done, a) == 0;
        }
      }
      assert BridgeDriftAll(w1, p.value.tail, a) == BridgeDrift(w1, post, a) + BridgeDriftAll(w2, p.value.tail.tail, a);
    }
  }

  lemma UnwrapBridges(w: World, env: Env, code: string, to: Option<Address>, extCode: string, extId: string, burnTx: string, amount: int, a: Address)
    ensures var p := Unwrap(w, env, code, to, extCode, extId, burnTx, amount); p.Some? ==> BridgeDriftAll(w, p.value, a) == 0
  {
    hide ToLower, NormalizeExtTxID, Apply;
    var p := Unwrap(w, env, code, to, extCode, extId, burnTx, amount);
    if p.Some? {
      var e, post := p.value.head, p.value.tail.head;
      var w1 := Apply(w, e);
      var w2 := Apply(w1, post);
      assert BridgeDriftAll(w1, p.value.tail, a) == BridgeDrift(w1, post, a) + BridgeDriftAll(w2, p.value.tail.tail, a);
      if p.value.tail.tail.Then? {
        assert BridgeDriftAll(Apply(w2, p.value.tail.tail.head), Done, a) == 0;
      }
    }
  }

  lemma PlanBridges(h: Hasher, b: World, env: Env, tx: Tx, a: Address)
    requires PlanOf(h, b, env, tx).Some?
    ensures BridgeDriftAll(b, PlanOf(h, b, env, tx).value, a) == 0
  {
    hide BridgeDriftAll, Only, PlanOf;
    BridgePlans(h, b, env, tx);
    if tx.TxWrapComplete? {
      WrapCompleteBridges(b, env, tx.wrapId, tx.fee, tx.extTx, a);
    } else if tx.TxUnwrap? {
      UnwrapBridges(b, env, tx.code, tx.to, tx.extCode, tx.extId, tx.burnTx, tx.amount, a);
    } else {
      Shape(h, b, env, tx);
      NoBridging(b, PlanOf(h, b, env, tx).value, env, KindsOf(b, tx), a);
    }
  }

  lemma BridgePlans(h: Hasher, b: World, env: Env, tx: Tx)
    ensures tx.TxWrapComplete? ==> PlanOf(h, b, env, tx) == WrapComplete(b, env, tx.wrapId, tx.fee, tx.extTx)
    ensures tx.TxUnwrap? ==> PlanOf(h, b, env, tx) == Unwrap(b, env, tx.code, tx.to, tx.extCode, tx.extId, tx.burnTx, tx.amount)
  {
    hide WrapComplete, Unwrap;
  }

  lemma StepBridges(h: Hasher, w: World, env: Env, tx: Tx, a: Address)
    requires Inv(w) && Step(h, w, env, tx).Some?
    ensures BridgeGap(Step(h, w, env, tx).value, a) == BridgeGap(w, a)
  {
    hide Inv, PlanOf, PlanOk, Commit, QueryAnswered, BridgeDriftAll, Step, Only;
    var b, plan := PlanOfStep(h, w, env, tx);
    PlanBridges(h, b, env, tx, a);
    BridgeGapOfPlan(b, plan, a);
  }

  lemma {:induction false} RunBridges(h: Hasher, w: World, calls: seq<Call>, a: Address)
    requires Inv(w)
    ensures BridgeGap(Exec(h, w, calls), a) == BridgeGap(w, a)
  {
    hide Inv, Step, BridgeGap;
    if calls != [] {
      var init, c := calls[..|calls| - 1], calls[|calls| - 1];
      RunBridges(h, w, init, a);
      RunKeepsInv(h, w, init);
      var v := Exec(h, w, init);
      if Step(h, v, c.env, c.tx).Some? {
        StepBridges(h, v, c.env, c.tx, a);
      }
    }
  }

  // For every account and every run: the net of the bridge postings on its balance and
  // the wrap fees it paid are the wraps completed into it less the unwraps paid from it.
  lemma BridgeBalances(h: Hasher, calls: seq<Call>, a: Address)
    ensures var w := Exec(h, EMPTY_WORLD, calls);
      Sum(BridgeNets(w.logs, a)) + Sum(WrapFees(w.fees, a))
      == Sum(CompletedWraps(w.wraps, w.completed, a)) - Sum(PaidUnwraps(w.unwraps, a))
  {
    EmptyWorldOk();
    SumZero(BridgeNets(EMPTY_WORLD.logs, a));
    SumZero(WrapFees(EMPTY_WORLD.fees, a));
    SumZero(CompletedWraps(EMPTY_WORLD.wraps, EMPTY_WORLD.completed, a));
    SumZero(PaidUnwraps(EMPTY_WORLD.unwraps, a));
    hide Inv, Sum, Exec;
    RunBridges(h, EMPTY_WORLD, calls, a);
  }

  // ---- once and for all ----

  lemma WrapCompletes(h: Hasher, w: World, env: Env, tx: Tx)
    requires Inv(w) && tx.TxWrapComplete? && Step(h, w, env, tx).Some?
    ensures tx.wrapId !in w.completed && tx.wrapId in Step(h, w, env, tx).value.completed
  {
    hide Inv, Commit, Step, Only, PlanOk, ToLower, NormalizeExtTxID;
    var b, plan := PlanOfStep(h, w, env, tx);
    WrapIdNotEmpty(w, tx.wrapId);
    CommitThen(b, plan.head, plan.tail);
    var w1 := Apply(b, plan.head);
    CommitThen(w1, plan.tail.head, plan.tail.tail);
    if plan.tail.tail.Then? {
      CommitThen(Apply(w1, plan.tail.head), plan.tail.tail.head, Done);
      CommitNothing(Apply(Apply(w1, plan.tail.head), plan.tail.tail.head));
    } else {
      CommitNothing(Apply(w1, plan.tail.head));
    }
  }

  // No wrap is completed by two transactions of a run, also not once as impossible.
  lemma CompletesOnce(h: Hasher, w: World, calls: seq<Call>, i: nat, j: nat)
    requires Inv(w) && i < |calls| && j < |calls|
    requires var c, u := calls[i], Exec(h, w, calls[..i]); c.tx.TxWrapComplete? && Step(h, u, c.env, c.tx).Some?
    requires var c, u := calls[j], Exec(h, w, calls[..j]); c.tx.TxWrapComplete? && Step(h, u, c.env, c.tx).Some?
    requires calls[i].tx.wrapId == calls[j].tx.wrapId
    ensures i == j
  {
    hide Inv, Step;
    RunKeepsInv(h, w, calls[..i]);
    RunKeepsInv(h, w, calls[..j]);
    WrapCompletes(h, Exec(h, w, calls[..i]), calls[i].env, calls[i].tx);
    WrapCompletes(h, Exec(h, w, calls[..j]), calls[j].env, calls[j].tx);
    assert calls[..i + 1][..i] == calls[..i] && calls[..j + 1][..j] == calls[..j];
    if i < j {
      Later(h, w, calls, i + 1, j);
    } else if j < i {
      Later(h, w, calls, j + 1, i);
    }
  }

  // An unwrap spends its external transaction; an impossible one, where the wrap account
  // itself is the receiver, moves nothing, every other one moves the amount once.
  lemma UnwrapStep(h: Hasher, w: World, env: Env, tx: Tx)
    requires Inv(w) && tx.TxUnwrap? && Step(h, w, env, tx).Some?
    ensures NormalizeExtTxID(tx.burnTx).Some?
    ensures var ext := NormalizeExtTxID(tx.burnTx).value;
      ext !in w.unwraps && ext in Step(h, w, env, tx).value.unwraps
    ensures var code := if tx.to.Some? then tx.to.value.code else tx.code;
      WrapAddress(w, code, tx.extCode).Some?
      && var wrapper := WrapAddress(w, code, tx.extCode).value;
         var v := Step(h, w, env, tx).value;
         if tx.to == None || tx.to.value == wrapper then v.balances == w.balances
         else
           && wrapper in w.balances && tx.to.value in w.balances && w.balances[wrapper].amount >= tx.amount > 0
           && v.balances == w.balances[tx.to.value := w.balances[tx.to.value].(amount := w.balances[tx.to.value].amount + tx.amount)]
                                      [wrapper := w.balances[wrapper].(amount := w.balances[wrapper].amount - tx.amount)]
  {
    hide Inv, Commit, Step, Only, PlanOk, ToLower, NormalizeExtTxID, Apply, KindsOf, QueryAnswered;
    var b, plan := PlanOfStep(h, w, env, tx);
    if plan.tail.tail.Then? {
      UnwrapPays(b, plan.head, plan.tail.head, plan.tail.tail.head);
    } else {
      UnwrapNothing(b, plan.head, plan.tail.head);
    }
  }

  lemma UnwrapPays(b: World, e: Effect, credit: Effect, debit: Effect)
    requires e.PutUnwrap? && credit.Post? && debit.Post? && credit.a != debit.a
    requires Commit(b, Then(e, Then(credit, Then(debit, Done)))).Some?
    ensures credit.a in b.balances && debit.a in b.balances
    ensures var v := Commit(b, Then(e, Then(credit, Then(debit, Done)))).value;
      && e.ext in v.unwraps
      && v.balances == b.balances[credit.a := b.balances[credit.a].(amount := b.balances[credit.a].amount + credit.diff - credit.logFee)]
                                 [debit.a := b.balances[debit.a].(amount := b.balances[debit.a].amount + debit.diff - debit.logFee)]
  {
    hide Commit, Apply;
    CommitThen(b, e, Then(credit, Then(debit, Done)));
    PutUnwrapFields(b, e);
    var w1 := Apply(b, e);
    CommitThen(w1, credit, Then(debit, Done));
    PostFields(w1, credit);
    var w2 := Apply(w1, credit);
    CommitLast(w2, debit);
    PostFields(w2, debit);
  }

  lemma UnwrapNothing(b: World, e: Effect, post: Effect)
    requires e.PutUnwrap? && post.Post? && post.diff == post.logFee
    requires Commit(b, Then(e, Then(post, Done))).Some?
    ensures var v := Commit(b, Then(e, Then(post, Done))).value; e.ext in v.unwraps && v.balances == b.balances
  {
    hide Commit, Apply;
    CommitThen(b, e, Then(post, Done));
    PutUnwrapFields(b, e);
    var w1 := Apply(b, e);
    CommitLast(w1, post);
    PostFields(w1, post);
    assert w1.balances[post.a := w1.balances[post.a]] == w1.balances;
  }

  // Whatever the case of its letters, no external transaction is unwrapped twice.
  lemma UnwrapsOnce(h: Hasher, w: World, calls: seq<Call>, i: nat, j: nat)
    requires Inv(w) && i < |calls| && j < |calls|
    requires var c, u := calls[i], Exec(h, w, calls[..i]); c.tx.TxUnwrap? && Step(h, u, c.env, c.tx).Some?
    requires var c, u := calls[j], Exec(h, w, calls[..j]); c.tx.TxUnwrap? && Step(h, u, c.env, c.tx).Some?
    requires ToLower(calls[i].tx.burnTx) == ToLower(calls[j].tx.burnTx)
    ensures i == j
  {
    SameNormalForm(calls[i].tx.burnTx, calls[j].tx.burnTx);
    hide Inv, Step, Exec, ToLower, NormalizeExtTxID;
    var ext := SpentAt(h, w, calls, i);
    var ext' := SpentAt(h, w, calls, j);
    assert ext == ext';
    if i < j {
      Later(h, w, calls, i + 1, j);
    } else if j < i {
      Later(h, w, calls, j + 1, i);
    }
  }

  lemma SpentAt(h: Hasher, w: World, calls: seq<Call>, i: nat) returns (ext: string)
    requires Inv(w) && i < |calls|
    requires var c, u := calls[i], Exec(h, w, calls[..i]); c.tx.TxUnwrap? && Step(h, u, c.env, c.tx).Some?
    ensures NormalizeExtTxID(calls[i].tx.burnTx) == Some(ext)
    ensures ext !in Exec(h, w, calls[..i]).unwraps && ext in Exec(h, w, calls[..i + 1]).unwraps
  {
    hide Inv, Step, ToLower, NormalizeExtTxID;
    RunKeepsInv(h, w, calls[..i]);
    UnwrapStep(h, Exec(h, w, calls[..i]), calls[i].env, calls[i].tx);
    assert calls[..i + 1][..i] == calls[..i];
    ext := NormalizeExtTxID(calls[i].tx.burnTx).value;
  }

  lemma SameNormalForm(x: string, y: string)
    ensures ToLower(x) == ToLower(y) ==> NormalizeExtTxID(x) == NormalizeExtTxID(y)
    ensures NormalizeExtTxID(x).Some? && NormalizeExtTxID(x) == NormalizeExtTxID(y) ==> ToLower(x) == ToLower(y)
  {
    hide ToLower;
  }
}
