/**
  What no later transaction can undo: log entries, records, settled pending
  balances, completed wraps, spent external transactions, counted records and
  watermarks.
 */
module History {
  import opened Sums
  import opened Addresses
  import opened RecordIds
  import opened Pruning
  import opened Ledger
  import opened Rules
  import opened Invariants
  import opened Steps
  import opened Shapes

  // Logs are only added, in order, and never overwritten.
  ghost predicate LogsExtend(w: World, v: World) {
    && |w.journal| <= |v.journal| && v.journal[..|w.journal|] == w.journal
    && (forall k :: k in w.logs ==> k in v.logs && v.logs[k] == w.logs[k])
  }

  // Pays, fees and contracts stay as they are; only the refund total of a pay moves, and only up.
  ghost predicate PaysExtend(pays: map<string, PayRec>, later: map<string, PayRec>) {
    forall id :: id in pays ==>
      && id in later && pays[id].totalRefund <= later[id].totalRefund
      && later[id] == pays[id].(totalRefund := later[id].totalRefund)
  }

  ghost predicate RecordsExtend(w: World, v: World) {
    && w.used <= v.used
    && PaysExtend(w.pays, v.pays)
    && (forall id :: id in w.fees ==> id in v.fees && v.fees[id] == w.fees[id])
    && (forall cid :: cid in w.contracts ==> cid in v.contracts && v.contracts[cid] == w.contracts[cid])
    && (forall a :: a in w.balances ==> a in v.balances)
  }

  // A wrap is completed at most once, an external transaction unwrapped at most once.
  ghost predicate BridgeExtends(w: World, v: World) {
    && (forall id :: id in w.wraps ==> id in v.wraps && v.wraps[id].(completeTx := "") == w.wraps[id].(completeTx := ""))
    && (forall id :: id in w.completed ==> id in v.completed && v.completed[id] == w.completed[id])
    && (forall id :: id in w.completed && id in w.wraps ==> v.wraps[id].completeTx == w.wraps[id].completeTx)
    && (forall ext :: ext in w.unwraps ==> ext in v.unwraps && v.unwraps[ext] == w.unwraps[ext])
  }

  // Counted records stay counted, watermarks never move back.
  ghost predicate MarksExtend(w: World, v: World) {
    && w.prunedPays <= v.prunedPays
    && (forall id :: id in w.prunedFees ==> id in v.prunedFees && v.prunedFees[id] == w.prunedFees[id])
    && (forall a :: a in w.balances ==> a in v.balances && MarkTime(w.balances[a].mark) <= MarkTime(v.balances[a].mark))
    && (forall code :: MarkTime(FeeMark(w, code)) <= MarkTime(FeeMark(v, code)))
  }

  // Pending balances other than the given ones were there before, unchanged.
  ghost predicate PendingsFrom(w: World, v: World, created: set<string>) {
    forall id :: id in v.pendings && id !in created ==> id in w.pendings && v.pendings[id] == w.pendings[id]
  }

  ghost predicate Extends(w: World, v: World) {
    LogsExtend(w, v) && RecordsExtend(w, v) && BridgeExtends(w, v) && MarksExtend(w, v)
    && PendingsFrom(w, v, v.used - w.used)
  }

  lemma LogsExtendBy(w: World, e: Effect)
    requires JournalOk(w.balances, w.logs, w.journal) && Accepted(w, e)
    ensures LogsExtend(w, Apply(w, e))
  {
  }

  lemma RecordsExtendBy(w: World, e: Effect)
    requires Enabled(w, e)
    ensures RecordsExtend(w, Apply(w, e))
  {
    hide NewBatch, Shortfall, PaysExtend;
    OwnersGrow(w, e);
    PaysExtendBy(w, e);
  }

  lemma PaysExtendBy(w: World, e: Effect)
    requires Enabled(w, e)
    ensures PaysExtend(w.pays, Apply(w, e).pays)
  {
    hide NewBatch, Shortfall;
  }

  lemma BridgeExtendsBy(w: World, e: Effect)
    requires WrapsOk(w.used, w.balances, w.completed, w.wraps) && Enabled(w, e)
    ensures BridgeExtends(w, Apply(w, e))
  {
    hide NewBatch, Shortfall, WrapsOk;
    if e.CloseWrap? {
      assert e.id !in w.completed by { OpenIsNotCompleted(w, e.id); }
    }
  }

  lemma OpenIsNotCompleted(w: World, id: string)
    requires WrapsOk(w.used, w.balances, w.completed, w.wraps) && id in w.wraps && w.wraps[id].completeTx == ""
    ensures id !in w.completed
  {
    assert WrapOk(w.used, w.balances, w.completed, id, w.wraps[id]);
  }

  lemma PayMarksExtendBy(w: World, e: Effect, a: Address)
    requires DocumentsOk(w) && Enabled(w, e) && a in w.balances
    ensures a in Apply(w, e).balances && MarkTime(w.balances[a].mark) <= MarkTime(Apply(w, e).balances[a].mark)
  {
    hide SplitTime, Shortfall, DocumentsOk;
    if e.MarkPays? {
      MarkTimeOfPay(w, Last(e.ids)) by { assert Last(e.ids) in e.ids; }
    } else if e.OpenAccount? {
      assert w.accounts.Keys == w.balances.Keys by { OwnersOf(w); }
    }
  }

  lemma OwnersOf(w: World)
    requires DocumentsOk(w)
    ensures w.accounts.Keys == w.balances.Keys
  {
  }

  lemma FeeMarksExtendBy(w: World, e: Effect, code: string)
    requires DocumentsOk(w) && Enabled(w, e)
    ensures MarkTime(FeeMark(w, code)) <= MarkTime(FeeMark(Apply(w, e), code))
  {
    hide SplitTime, Shortfall, DocumentsOk;
    if e.MarkFees? {
      MarkTimeOfFee(w, Last(e.ids)) by { assert Last(e.ids) in e.ids; }
    }
  }

  lemma MarksExtendBy(w: World, e: Effect)
    requires DocumentsOk(w) && Enabled(w, e)
    ensures MarksExtend(w, Apply(w, e))
  {
    hide MarkTime, FeeMark, DocumentsOk, Enabled, Apply;
    forall a | a in w.balances ensures a in Apply(w, e).balances && MarkTime(w.balances[a].mark) <= MarkTime(Apply(w, e).balances[a].mark) {
      PayMarksExtendBy(w, e, a);
    }
    forall code ensures MarkTime(FeeMark(w, code)) <= MarkTime(FeeMark(Apply(w, e), code)) {
      FeeMarksExtendBy(w, e, code);
    }
    CountedGrow(w, e);
  }

  lemma CountedGrow(w: World, e: Effect)
    requires Enabled(w, e)
    ensures w.prunedPays <= Apply(w, e).prunedPays
    ensures forall id :: id in w.prunedFees ==> id in Apply(w, e).prunedFees && Apply(w, e).prunedFees[id] == w.prunedFees[id]
  {
    hide MarkTime, FeeMark, CountedBelow, Shortfall;
    assert e.MarkFees? ==> forall id :: id in w.prunedFees ==> id !in Elements(e.ids);
  }

  lemma PendingsFromBy(w: World, e: Effect, env: Env)
    requires Stamped(e, env)
    ensures PendingsFrom(w, Apply(w, e), {env.txid})
  {
  }

  ghost predicate ExtendsIn(w: World, v: World, created: set<string>) {
    LogsExtend(w, v) && RecordsExtend(w, v) && BridgeExtends(w, v) && MarksExtend(w, v) && PendingsFrom(w, v, created)
  }

  lemma ExtendsBy(w: World, e: Effect, env: Env)
    requires Inv(w) && Accepted(w, e) && Enabled(w, e) && Stamped(e, env)
    ensures ExtendsIn(w, Apply(w, e), {env.txid})
  {
    hide LogsExtend, RecordsExtend, BridgeExtends, MarksExtend, PendingsFrom, Enabled, Apply;
    LogsExtendBy(w, e);
    RecordsExtendBy(w, e);
    BridgeExtendsBy(w, e);
    MarksExtendBy(w, e);
    PendingsFromBy(w, e, env);
  }

  lemma LogsChain(u: World, v: World, w: World)
    requires LogsExtend(u, v) && LogsExtend(v, w)
    ensures LogsExtend(u, w)
  {
    assert w.journal[..|u.journal|] == w.journal[..|v.journal|][..|u.journal|];
  }

  lemma PaysChain(a: map<string, PayRec>, b: map<string, PayRec>, c: map<string, PayRec>)
    requires PaysExtend(a, b) && PaysExtend(b, c)
    ensures PaysExtend(a, c)
  {
  }

  lemma BridgeChain(u: World, v: World, w: World)
    requires BridgeExtends(u, v) && BridgeExtends(v, w)
    ensures BridgeExtends(u, w)
  {
  }

  lemma MarksChain(u: World, v: World, w: World)
    requires MarksExtend(u, v) && MarksExtend(v, w)
    ensures MarksExtend(u, w)
  {
    hide MarkTime, FeeMark;
  }

  lemma ExtendsChain(u: World, v: World, w: World, created: set<string>)
    requires ExtendsIn(u, v, created) && ExtendsIn(v, w, created)
    ensures ExtendsIn(u, w, created)
  {
    hide PaysExtend, LogsExtend, BridgeExtends, MarksExtend;
    LogsChain(u, v, w);
    PaysChain(u.pays, v.pays, w.pays);
    BridgeChain(u, v, w);
    MarksChain(u, v, w);
  }

  lemma ExtendsNothing(w: World, created: set<string>)
    ensures ExtendsIn(w, w, created)
  {
  }

  lemma {:induction false} CommitExtends(w: World, env: Env, plan: Plan, kinds: set<Kind>)
    requires Inv(w) && PlanOk(w, plan) && Only(plan, env, kinds) && Commit(w, plan).Some?
    ensures ExtendsIn(w, Commit(w, plan).value, {env.txid})
    decreases plan
  {
    hide Inv, Enabled, Apply, ExtendsIn, Stamped;
    match plan {
      case Done => ExtendsNothing(w, {env.txid});
      case Then(e, rest) =>
        ExtendsBy(w, e, env);
        KeepInv(w, e);
        CommitExtends(Apply(w, e), env, rest, kinds);
        ExtendsChain(w, Apply(w, e), Commit(w, plan).value, {env.txid});
    }
  }

  // The plan of an admissible step, with what earlier modules say about it.
  lemma PlanOfStep(h: Hasher, w: World, env: Env, tx: Tx) returns (b: World, plan: Plan)
    requires Inv(w) && Step(h, w, env, tx).Some?
    ensures b == Begin(w, env) && Ready(b, env) && PlanOf(h, b, env, tx) == Some(plan)
    ensures QueryAnswered(w, env, tx) && QueryAnswered(b, env, tx) && env.txid !in w.used
    ensures PlanOk(b, plan) && Only(plan, env, KindsOf(b, tx)) && Commit(b, plan) == Step(h, w, env, tx)
  {
    hide Inv, PlanOf, PlanOk, Commit, QueryAnswered, Only;
    b := Begin(w, env);
    plan := PlanOf(h, b, env, tx).value;
    BeginReady(w, env);
    SameQuery(w, env, tx);
    PlansOk(h, b, env, tx);
    Shape(h, b, env, tx);
  }

  lemma {:induction false} CommitKeepsUsed(w: World, plan: Plan)
    requires Commit(w, plan).Some?
    ensures Commit(w, plan).value.used == w.used
    decreases plan
  {
    if plan.Then? {
      CommitKeepsUsed(Apply(w, plan.head), plan.tail);
    }
  }

  lemma StepExtends(h: Hasher, w: World, env: Env, tx: Tx)
    requires Inv(w) && Step(h, w, env, tx).Some?
    ensures Extends(w, Step(h, w, env, tx).value)
  {
    hide Inv, PlanOf, PlanOk, Commit, QueryAnswered, Step, Only, KindsOf;
    var b, plan := PlanOfStep(h, w, env, tx);
    CommitExtends(b, env, plan, KindsOf(b, tx));
    CommitKeepsUsed(b, plan);
    var v := Step(h, w, env, tx).value;
    assert v.used - w.used == {env.txid};
    BeginExtends(w, env, v);
  }

  lemma BeginExtends(w: World, env: Env, v: World)
    requires ExtendsIn(Begin(w, env), v, {env.txid}) && v.used - w.used == {env.txid}
    ensures Extends(w, v)
  {
    assert MarksExtend(w, v) by {
      assert forall code :: FeeMark(Begin(w, env), code) == FeeMark(w, code);
    }
  }

  lemma ExtendsTrans(u: World, v: World, w: World)
    requires Extends(u, v) && Extends(v, w)
    ensures Extends(u, w)
  {
    hide PaysExtend, LogsExtend, BridgeExtends, MarksExtend;
    LogsChain(u, v, w);
    PaysChain(u.pays, v.pays, w.pays);
    BridgeChain(u, v, w);
    MarksChain(u, v, w);
  }

  // From any reachable state, every later state extends it.
  lemma {:induction false} RunExtends(h: Hasher, w: World, calls: seq<Call>)
    requires Inv(w)
    ensures Extends(w, Exec(h, w, calls))
  {
    hide Inv, Step, Extends;
    if calls == [] {
      ExtendsNothing(w, {});
      assert Extends(w, w) by { ExtendsSelf(w); }
    } else {
      var init, c := calls[..|calls| - 1], calls[|calls| - 1];
      RunExtends(h, w, init);
      RunKeepsInv(h, w, init);
      var v := Exec(h, w, init);
      if Step(h, v, c.env, c.tx).Some? {
        StepExtends(h, v, c.env, c.tx);
        ExtendsTrans(w, v, Exec(h, w, calls));
      }
    }
  }

  lemma ExtendsSelf(w: World)
    ensures Extends(w, w)
  {
  }

  // ---- the log of an account is its balance ----

  // In every state of every run: each balance is the sum of its log entries, each
  // entry shows the balance of its moment, and no entry is ever lost or changed.
  lemma LogsReplay(h: Hasher, calls: seq<Call>, more: seq<Call>, a: Address, i: nat)
    ensures var w, v := Exec(h, EMPTY_WORLD, calls), Exec(h, Exec(h, EMPTY_WORLD, calls), more);
      && (a in w.balances ==> w.balances[a].amount == Replay(w.journal, w.logs, a))
      && (i < |w.journal| ==> ShowsBalance(w.logs, w.journal, i))
      && (forall k :: k in w.logs <==> k in w.journal) && NoRepeats(w.journal)
      && LogsExtend(w, v)
  {
    EmptyWorldOk();
    RunKeepsInv(h, EMPTY_WORLD, calls);
    RunExtends(h, Exec(h, EMPTY_WORLD, calls), more);
    hide DocumentsOk, RefundsOk, PayMarksOk, FeeMarksOk, ShortfallOk, HoldersOk, Exec, LogsExtend, ShowsBalance;
  }
}
