/**
  Conservation over whole runs, and what it says about the supply.
 */
module SupplyTheorems {
  import opened Sums
  import opened Addresses
  import opened RecordIds
  import opened FeeFormulas
  import opened Pruning
  import opened Ledger
  import opened Fields
  import opened Rules
  import opened Invariants
  import opened Steps
  import opened Conservation
  import opened Shapes

  // ---- what the answers of the token chaincode decide about a token ----

  // Either that its fee target and its wrap accounts are accounts of that token,
  // or that no fee rate exceeds one.
  datatype Quality = OwnAddresses | RatesUpToOne

  ghost predicate RatesModest(rates: map<string, ValidRate>) {
    forall fn :: fn in rates ==> AtMostOne(rates[fn])
  }

  ghost predicate TokenHas(q: Quality, code: string, t: Token) {
    match q
    case OwnAddresses => TokenCodesAgree(code, t)
    case RatesUpToOne => t.policy.Some? ==> RatesModest(t.policy.value.rates)
  }

  ghost predicate TokensHave(q: Quality, w: World) {
    forall code :: code in w.tokens ==> TokenHas(q, code, w.tokens[code])
  }

  ghost predicate MetaHas(q: Quality, code: string, meta: Meta) {
    match q
    case OwnAddresses =>
      && (meta.policy.Some? && meta.policy.value.target.Some? ==> meta.policy.value.target.value.code == code)
      && (meta.bridge.Some? ==> forall ext :: ext in meta.bridge.value ==> meta.bridge.value[ext].code == code)
    case RatesUpToOne => meta.policy.Some? ==> RatesModest(meta.policy.value.rates)
  }

  ghost predicate AnswersHave(q: Quality, w: World, tx: Tx) {
    match tx
    case TxTokenCreate(code, meta, _, _) => MetaHas(q, code, meta)
    case TxTokenUpdate(code, meta) => MetaHas(q, code, meta)
    case TxExecute(cid, meta) => cid in w.contracts && w.contracts[cid].DocTokenCreate? ==> MetaHas(q, w.contracts[cid].code, meta)
    case _ => true
  }

  ghost predicate RunHas(q: Quality, h: Hasher, w: World, calls: seq<Call>) {
    forall i :: 0 <= i < |calls| ==> AnswersHave(q, Exec(h, w, calls[..i]), calls[i].tx)
  }

  ghost predicate PlanHas(q: Quality, plan: Plan)
    decreases plan
  {
    plan.Then? ==> (plan.head.PutToken? ==> TokenHas(q, plan.head.code, plan.head.token)) && PlanHas(q, plan.tail)
  }

  lemma {:induction false} PlanWithoutTokens(q: Quality, plan: Plan, env: Env, kinds: set<Kind>)
    requires Only(plan, env, kinds) && KPutToken !in kinds
    ensures PlanHas(q, plan)
    decreases plan
  {
    if plan.Then? {
      PlanWithoutTokens(q, plan.tail, env, kinds);
    }
  }

  lemma {:induction false} CommitKeepsTokens(q: Quality, w: World, plan: Plan)
    requires TokensHave(q, w) && PlanHas(q, plan) && Commit(w, plan).Some?
    ensures TokensHave(q, Commit(w, plan).value)
    decreases plan
  {
    hide TokenHas;
    if plan.Then? {
      var v := Apply(w, plan.head);
      assert TokensHave(q, v) by {
        assert v.tokens == w.tokens || plan.head.PutToken?;
      }
      CommitKeepsTokens(q, v, plan.tail);
    }
  }

  lemma PlanOfOneToken(q: Quality, code: string, t: Token, post: Effect)
    requires TokenHas(q, code, t) && !post.PutToken?
    ensures PlanHas(q, Then(PutToken(code, t), Done))
    ensures PlanHas(q, Then(PutToken(code, t), Then(post, Done)))
    ensures PlanHas(q, Then(post, Then(PutToken(code, t), Done)))
  {
  }

  lemma CreateTokenKeeps(q: Quality, h: Hasher, w: World, env: Env, code: string, meta: Meta, kids: set<string>)
    requires MetaHas(q, code, meta)
    ensures var p := CreateToken(h, w, env, code, meta, kids); p.Some? ==> PlanHas(q, p.value)
  {
    NewAddressParts(h, code, JOINT, env.txid);
    hide NewAddress, BridgeKnown;
    var p := CreateToken(h, w, env, code, meta, kids);
    if p.Some? {
      var plan := p.value;
      assert PlanHas(q, plan.tail.tail);
    }
  }

  lemma SupplyIsNoQuality(q: Quality, w: World, code: string, supply: int)
    requires TokensHave(q, w) && code in w.tokens
    ensures TokenHas(q, code, w.tokens[code].(supply := supply))
    ensures TokenHas(q, code, w.tokens[code].(legacyMark := ""))
  {
    assert TokenHas(q, code, w.tokens[code]);
  }

  lemma SupplyPlansKeep(q: Quality, w: World, env: Env, code: string, amount: int)
    requires TokensHave(q, w)
    ensures Mint(w, env, code, amount).Some? ==> PlanHas(q, Mint(w, env, code, amount).value)
    ensures Burn(w, env, code, amount).Some? ==> PlanHas(q, Burn(w, env, code, amount).value)
  {
    hide TokensHave, TokenHas, PlanHas;
    var m, b := Mint(w, env, code, amount), Burn(w, env, code, amount);
    if m.Some? {
      SupplyIsNoQuality(q, w, code, m.value.head.token.supply);
      PlanOfOneToken(q, code, m.value.head.token, m.value.tail.head);
    }
    if b.Some? && b.value.Then? {
      SupplyIsNoQuality(q, w, code, b.value.tail.head.token.supply);
      PlanOfOneToken(q, code, b.value.tail.head.token, b.value.head);
    }
    assert PlanHas(q, Done) by { PlanWithoutTokens(q, Done, env, {}); }
  }

  lemma FeePruneKeeps(q: Quality, w: World, env: Env, code: string, order: seq<string>)
    requires TokensHave(q, w)
    ensures var p := FeePrune(w, env, code, order); p.Some? ==> PlanHas(q, p.value)
  {
    hide TokensHave, TokenHas, SeqSum, SplitTime;
    var p := FeePrune(w, env, code, order);
    if p.Some? && p.value.Then? {
      SupplyIsNoQuality(q, w, code, 0);
      assert PlanHas(q, p.value.tail.tail);
    }
  }

  lemma TokenUpdateKeeps(q: Quality, w: World, code: string, meta: Meta)
    requires TokensHave(q, w) && MetaHas(q, code, meta) && Inv(w)
    ensures var p := TokenUpdate(w, code, meta); p.Some? ==> PlanHas(q, p.value)
  {
    if code in w.tokens {
      TokenOf(w, code);
      hide Inv, BridgeKnown, Only;
      assert TokenHas(q, code, w.tokens[code]);
      var p := TokenUpdate(w, code, meta);
      if p.Some? && p.value.Then? {
        PlanOfOneToken(q, code, p.value.head.token, DropPending(""));
      }
    }
  }

  lemma PlanKeeps(q: Quality, h: Hasher, w: World, env: Env, tx: Tx)
    requires Inv(w) && TokensHave(q, w) && AnswersHave(q, w, tx) && PlanOf(h, w, env, tx).Some?
    ensures PlanHas(q, PlanOf(h, w, env, tx).value)
  {
    hide Inv, TokensHave, PlanHas, Mint, Burn, CreateToken, Gather, Only, FeePrune, TokenUpdate;
    var plan := PlanOf(h, w, env, tx).value;
    if KPutToken !in KindsOf(w, tx) {
      Shape(h, w, env, tx);
      PlanWithoutTokens(q, plan, env, KindsOf(w, tx));
    } else if plan.Then? && plan.head.PutContract? && plan.tail == Done {
      assert Only(plan, env, {KPutContract}) by { OnlyDone(env, {KPutContract}); OnlyThen(plan.head, Done, env, {KPutContract}); }
      PlanWithoutTokens(q, plan, env, {KPutContract});
    } else if tx.TxTokenCreate? {
      CreateTokenKeeps(q, h, w, env, tx.code, tx.meta, Gather(w, tx.code, tx.co, {env.kid}).value);
    } else if tx.TxTokenUpdate? {
      TokenUpdateKeeps(q, w, tx.code, tx.meta);
    } else if tx.TxMint? || tx.TxBurn? {
      SupplyPlansKeep(q, w, env, tx.code, tx.amount);
    } else if tx.TxFeePrune? {
      FeePruneKeeps(q, w, env, tx.code, tx.order);
    } else {
      var doc := w.contracts[tx.cid];
      if doc.DocTokenCreate? {
        CreateTokenKeeps(q, h, w, env, doc.code, tx.meta, doc.holders);
      } else {
        SupplyPlansKeep(q, w, env, doc.code, doc.amount);
      }
    }
  }

  lemma StepKeepsTokens(q: Quality, h: Hasher, w: World, env: Env, tx: Tx)
    requires Inv(w) && TokensHave(q, w) && AnswersHave(q, w, tx) && Step(h, w, env, tx).Some?
    ensures TokensHave(q, Step(h, w, env, tx).value)
  {
    hide Inv, PlanOf, PlanHas, Commit, QueryAnswered, TokenHas, MetaHas;
    var b := Begin(w, env);
    BeginReady(w, env);
    PlanKeeps(q, h, b, env, tx);
    CommitKeepsTokens(q, b, PlanOf(h, b, env, tx).value);
  }

  lemma OwnCodes(w: World)
    ensures CodesAgree(w) == TokensHave(OwnAddresses, w)
  {
  }

  lemma PrefixHas(q: Quality, h: Hasher, w: World, calls: seq<Call>)
    requires calls != [] && RunHas(q, h, w, calls)
    ensures var init := calls[..|calls| - 1];
      RunHas(q, h, w, init) && AnswersHave(q, Exec(h, w, init), calls[|calls| - 1].tx)
  {
    hide AnswersHave, Exec;
    var init := calls[..|calls| - 1];
    assert forall i :: 0 <= i < |init| ==> init[..i] == calls[..i];
  }

  lemma {:induction false} RunKeepsTokens(q: Quality, h: Hasher, w: World, calls: seq<Call>)
    requires Inv(w) && TokensHave(q, w) && RunHas(q, h, w, calls)
    ensures TokensHave(q, Exec(h, w, calls))
  {
    hide Inv, Step, AnswersHave, TokensHave, RunHas;
    if calls != [] {
      var init, c := calls[..|calls| - 1], calls[|calls| - 1];
      PrefixHas(q, h, w, calls);
      RunKeepsTokens(q, h, w, init);
      RunKeepsInv(h, w, init);
      var v := Exec(h, w, init);
      if Step(h, v, c.env, c.tx).Some? {
        StepKeepsTokens(q, h, v, c.env, c.tx);
      }
    }
  }

  // ---- the law over runs ----

  // Whatever the interleaving and whatever the answers of the token chaincode, all
  // tokens together never gain or lose a unit outside mint and burn; and each token
  // by itself does not either, as long as those answers name its own accounts.
  lemma {:induction false} RunConserves(h: Hasher, w: World, calls: seq<Call>, s: Scope)
    requires Inv(w)
    requires s.AllTokens? || (TokensHave(OwnAddresses, w) && RunHas(OwnAddresses, h, w, calls))
    ensures Gap(Exec(h, w, calls), s) == Gap(w, s)
  {
    hide Inv, Step, Gap, RunHas, TokensHave, CodesAgree, AnswersHave;
    if calls != [] {
      var init, c := calls[..|calls| - 1], calls[|calls| - 1];
      var v := Exec(h, w, init);
      if !s.AllTokens? {
        PrefixHas(OwnAddresses, h, w, calls);
        RunKeepsTokens(OwnAddresses, h, w, init);
        OwnCodes(v);
      }
      RunConserves(h, w, init, s);
      RunKeepsInv(h, w, init);
      if Step(h, v, c.env, c.tx).Some? {
        StepConserves(h, v, c.env, c.tx, s);
      }
    }
  }

  lemma EmptyHasNoGap(s: Scope)
    ensures Gap(EMPTY_WORLD, s) == 0
  {
    SumZero(SupplyVals(EMPTY_WORLD.tokens, s));
    SumZero(BalanceVals(EMPTY_WORLD.balances, s));
    SumZero(PendingVals(EMPTY_WORLD.pendings, s));
    SumZero(Outside(PayVals(EMPTY_WORLD.pays, s), {}));
    SumZero(Outside(FeeVals(EMPTY_WORLD.fees, s), EMPTY_WORLD.prunedFees.Keys));
    SumZero(WrapVals(EMPTY_WORLD.wraps, s));
  }

  lemma EmptyHas(q: Quality)
    ensures TokensHave(q, EMPTY_WORLD)
  {
  }

  // In every reachable state the supply is exactly what the six places hold.
  lemma Conserved(h: Hasher, calls: seq<Call>, s: Scope)
    requires s.AllTokens? || RunHas(OwnAddresses, h, EMPTY_WORLD, calls)
    ensures var w := Exec(h, EMPTY_WORLD, calls); Supply(w, s) == Held(w, s)
  {
    EmptyWorldOk();
    EmptyHasNoGap(s);
    EmptyHas(OwnAddresses);
    hide Supply, Held, Inv, RunHas;
    RunConserves(h, EMPTY_WORLD, calls, s);
  }

  // ---- the supply stays within its bounds ----

  lemma SupplyOfOne(tokens: map<string, Token>, code: string)
    ensures Sum(SupplyVals(tokens, OneToken(code))) == if code in tokens then tokens[code].supply else 0
  {
    var m := SupplyVals(tokens, OneToken(code));
    SumDrop(m, code);
    SumZero(m - {code});
  }

  // Nothing a token has anywhere is below zero.
  ghost predicate NothingOwed(w: World, s: Scope) {
    && (forall a :: a in w.balances ==> BalanceVals(w.balances, s)[a] >= 0)
    && (forall id :: id in w.pendings ==> PendingVals(w.pendings, s)[id] >= 0)
    && (forall id :: id in w.pays && id !in w.prunedPays ==> PayVals(w.pays, s)[id] >= 0)
    && (forall id :: id in w.fees && id !in w.prunedFees ==> FeeVals(w.fees, s)[id] >= 0)
  }

  lemma HeldNotNegative(w: World, s: Scope)
    requires Inv(w) && NothingOwed(w, s)
    ensures Held(w, s) >= 0
  {
    hide Sum, LogsOk, RefundsOk, PayMarksOk, FeeMarksOk, ShortfallOk, HoldersOk, PendingsOk, PaysOk, FeesOk, TokensOk, ContractsOk;
    assert forall id :: id in w.wraps ==> WrapOk(w.used, w.balances, w.completed, id, w.wraps[id]);
    SumNonNegative(BalanceVals(w.balances, s));
    SumNonNegative(PendingVals(w.pendings, s));
    SumNonNegative(Outside(PayVals(w.pays, s), w.prunedPays));
    SumNonNegative(Outside(FeeVals(w.fees, s), w.prunedFees.Keys));
    SumNonNegative(WrapVals(w.wraps, s));
  }

  // The supply never exceeds its maximum, whatever was minted, by whom and in which
  // order; and, although a burn decided by a contract does not look at the supply,
  // it never falls below zero while nothing of the token is owed anywhere.
  lemma SupplyWithinBounds(h: Hasher, calls: seq<Call>, code: string)
    ensures var w := Exec(h, EMPTY_WORLD, calls);
      && (code in w.tokens ==> w.tokens[code].supply <= w.tokens[code].maxSupply)
      && (code in w.tokens && RunHas(OwnAddresses, h, EMPTY_WORLD, calls) && NothingOwed(w, OneToken(code)) ==> 0 <= w.tokens[code].supply)
  {
    hide Inv, Exec, RunHas, NothingOwed, Held;
    EmptyWorldOk();
    RunKeepsInv(h, EMPTY_WORLD, calls);
    var w := Exec(h, EMPTY_WORLD, calls);
    if code in w.tokens {
      TokenOf(w, code);
      if RunHas(OwnAddresses, h, EMPTY_WORLD, calls) && NothingOwed(w, OneToken(code)) {
        Conserved(h, calls, OneToken(code));
        HeldNotNegative(w, OneToken(code));
        SupplyOfOne(w.tokens, code);
      }
    }
  }

  // ---- where the law of a single token ends ----

  // What a step does to each single token, when it posts on an account of another one.
  lemma GapOfStep(h: Hasher, w: World, env: Env, tx: Tx, s: Scope) returns (b: World, plan: Plan)
    requires Inv(w) && Step(h, w, env, tx).Some?
    ensures b == Begin(w, env) && PlanOf(h, b, env, tx) == Some(plan) && Ready(b, env) && QueryAnswered(b, env, tx)
    ensures Gap(Step(h, w, env, tx).value, s) == Gap(w, s) + DriftAll(b, plan, s)
  {
    hide Inv, PlanOf, PlanOk, Commit, QueryAnswered, DriftAll, Gap;
    b := Begin(w, env);
    BeginReady(w, env);
    SameQuery(w, env, tx);
    plan := PlanOf(h, b, env, tx).value;
    PlansOk(h, b, env, tx);
    GapOfPlan(b, plan, s);
    BeginKeepsGap(w, env, s);
  }

  lemma WrapCompleteDrift(b: World, env: Env, tx: Tx, s: Scope)
    requires tx.TxWrapComplete? && tx.wrapId in b.wraps && b.wraps[tx.wrapId].completeTx == ""
    requires WrapAddress(b, b.wraps[tx.wrapId].address.code, b.wraps[tx.wrapId].extCode).Some?
    requires WrapComplete(b, env, tx.wrapId, tx.fee, tx.extTx).Some?
    ensures var wrap := b.wraps[tx.wrapId];
      var wrapper := WrapAddress(b, wrap.address.code, wrap.extCode).value;
      DriftAll(b, WrapComplete(b, env, tx.wrapId, tx.fee, tx.extTx).value, s)
      == When(Covers(s, wrap.address.code), wrap.amount) - When(Covers(s, wrapper.code), wrap.amount)
  {
    hide ToLower;
    var p := WrapComplete(b, env, tx.wrapId, tx.fee, tx.extTx).value;
    var e, post := p.head, p.tail.head;
    hide Apply, DriftAll, NormalizeExtTxID;
    var w2 := Apply(Apply(b, e), post);
    DriftStep(b, e, p.tail, s);
    DriftStep(Apply(b, e), post, p.tail.tail, s);
    FeeDrifts(w2, env, post.a, post.logFee, WrapFee, Done, s);
    NothingLeft(w2, s);
    NothingLeft(Apply(w2, NewFee(env, post.a, post.logFee, WrapFee)), s);
  }

  // How the gap of one token changes when a wrap completes.
  lemma WrapCompleteShifts(h: Hasher, w: World, env: Env, tx: Tx, code: string)
    requires Inv(w) && tx.TxWrapComplete? && Step(h, w, env, tx).Some?
    ensures tx.wrapId in w.wraps && w.wraps[tx.wrapId].amount > 0
    ensures var wrap := w.wraps[tx.wrapId];
      WrapAddress(w, wrap.address.code, wrap.extCode).Some?
      && Gap(Step(h, w, env, tx).value, OneToken(code)) - Gap(w, OneToken(code))
         == When(code == wrap.address.code, wrap.amount)
            - When(code == WrapAddress(w, wrap.address.code, wrap.extCode).value.code, wrap.amount)
  {
    hide Inv, Commit, Gap, ToLower, Step, DriftAll, PlanOk, NormalizeExtTxID;
    var b, plan := GapOfStep(h, w, env, tx, OneToken(code));
    WrapIdNotEmpty(w, tx.wrapId);
    WrapCompleteDrift(b, env, tx, OneToken(code));
  }

  // Completing a wrap keeps every single token conserved exactly when the wrap account
  // is an account of the wrapped token. The code does not check that.
  lemma WrapCompleteNeedsOwnCode(h: Hasher, w: World, env: Env, tx: Tx)
    requires Inv(w) && tx.TxWrapComplete? && Step(h, w, env, tx).Some?
    ensures tx.wrapId in w.wraps
    ensures var wrap := w.wraps[tx.wrapId];
      WrapAddress(w, wrap.address.code, wrap.extCode).Some?
      && ((forall code :: Gap(Step(h, w, env, tx).value, OneToken(code)) == Gap(w, OneToken(code)))
          <==> WrapAddress(w, wrap.address.code, wrap.extCode).value.code == wrap.address.code)
  {
    hide Inv, Gap, Step;
    WrapCompleteShifts(h, w, env, tx, "");
    WrapCompleteShifts(h, w, env, tx, w.wraps[tx.wrapId].address.code);
    forall code ensures var wrap := w.wraps[tx.wrapId];
      WrapAddress(w, wrap.address.code, wrap.extCode).Some?
      && Gap(Step(h, w, env, tx).value, OneToken(code)) - Gap(w, OneToken(code))
         == When(code == wrap.address.code, wrap.amount)
            - When(code == WrapAddress(w, wrap.address.code, wrap.extCode).value.code, wrap.amount)
    {
      WrapCompleteShifts(h, w, env, tx, code);
    }
  }

  lemma UnwrapDrift(b: World, env: Env, tx: Tx, s: Scope)
    requires tx.TxUnwrap? && PlanOfUnwrap(b, env, tx).Some?
    ensures var code := if tx.to.Some? then tx.to.value.code else tx.code;
      WrapAddress(b, code, tx.extCode).Some?
      && var wrapper := WrapAddress(b, code, tx.extCode).value;
         var moved := if tx.to.None? || tx.to.value == wrapper then 0 else tx.amount;
         DriftAll(b, PlanOfUnwrap(b, env, tx).value, s) == When(Covers(s, wrapper.code), moved) - When(Covers(s, code), moved)
  {
    hide ToLower, NormalizeExtTxID;
    var p := PlanOfUnwrap(b, env, tx).value;
    var e, post := p.head, p.tail.head;
    var w1 := Apply(b, e);
    hide Apply, DriftAll;
    DriftStep(b, e, p.tail, s);
    DriftStep(w1, post, p.tail.tail, s);
    if p.tail.tail == Done {
      NothingLeft(Apply(w1, post), s);
    } else {
      DriftStep(Apply(w1, post), p.tail.tail.head, Done, s);
    }
  }

  ghost function PlanOfUnwrap(b: World, env: Env, tx: Tx): Option<Plan>
    requires tx.TxUnwrap?
  {
    Unwrap(b, env, tx.code, tx.to, tx.extCode, tx.extId, tx.burnTx, tx.amount)
  }

  lemma UnwrapShifts(h: Hasher, w: World, env: Env, tx: Tx, c: string)
    requires Inv(w) && tx.TxUnwrap? && Step(h, w, env, tx).Some?
    ensures var code := if tx.to.Some? then tx.to.value.code else tx.code;
      WrapAddress(w, code, tx.extCode).Some?
      && var wrapper := WrapAddress(w, code, tx.extCode).value;
         var moved := if tx.to.None? || tx.to.value == wrapper then 0 else tx.amount;
         Gap(Step(h, w, env, tx).value, OneToken(c)) - Gap(w, OneToken(c)) == When(c == wrapper.code, moved) - When(c == code, moved)
  {
    hide Inv, Commit, Gap, ToLower, Step, DriftAll, PlanOk, NormalizeExtTxID, Unwrap;
    var b, plan := GapOfStep(h, w, env, tx, OneToken(c));
    UnwrapDrift(b, env, tx, OneToken(c));
  }

  lemma UnwrapMovesSome(h: Hasher, w: World, env: Env, tx: Tx)
    requires tx.TxUnwrap? && Step(h, w, env, tx).Some?
    ensures tx.amount > 0
  {
    hide Commit, ToLower, NormalizeExtTxID;
  }

  // Paying an unwrap keeps every single token conserved exactly when the receiver is of
  // the wrap account's token, or nothing moves. The code does not check that.
  lemma UnwrapNeedsOwnCode(h: Hasher, w: World, env: Env, tx: Tx)
    requires Inv(w) && tx.TxUnwrap? && Step(h, w, env, tx).Some?
    ensures var code := if tx.to.Some? then tx.to.value.code else tx.code;
      WrapAddress(w, code, tx.extCode).Some?
      && var wrapper := WrapAddress(w, code, tx.extCode).value;
         ((forall c :: Gap(Step(h, w, env, tx).value, OneToken(c)) == Gap(w, OneToken(c)))
          <==> tx.to.None? || tx.to.value.code == wrapper.code)
  {
    hide Inv, Gap, Step, WrapAddress;
    UnwrapMovesSome(h, w, env, tx);
    var code := if tx.to.Some? then tx.to.value.code else tx.code;
    UnwrapShifts(h, w, env, tx, code);
    var wrapper := WrapAddress(w, code, tx.extCode).value;
    var moved := if tx.to.None? || tx.to.value == wrapper then 0 else tx.amount;
    forall c ensures Gap(Step(h, w, env, tx).value, OneToken(c)) - Gap(w, OneToken(c)) == When(c == wrapper.code, moved) - When(c == code, moved) {
      UnwrapShifts(h, w, env, tx, c);
    }
  }

  lemma FeePruneShifts(h: Hasher, w: World, env: Env, tx: Tx, c: string)
    requires Inv(w) && tx.TxFeePrune? && Step(h, w, env, tx).Some?
    requires tx.code in w.tokens && w.tokens[tx.code].policy.Some?
    ensures var sum, target := SeqSum(AmountsOf(FeeRecs(w.fees)), Batch(tx.order)), w.tokens[tx.code].policy.value.target;
      Gap(Step(h, w, env, tx).value, OneToken(c)) - Gap(w, OneToken(c)) == When(c == tx.code, sum) - When(c == target.code, sum)
  {
    hide Inv, Commit, Gap, Step, DriftAll, PlanOk, SeqSum, SplitTime, Listing, Drift, Apply, Enabled, FeeRecs;
    var s := OneToken(c);
    var b, plan := GapOfStep(h, w, env, tx, s);
    var ids, t := Batch(tx.order), b.tokens[tx.code];
    var target := t.policy.value.target;
    var e1, put := MarkFees(tx.code, ids, target), PutToken(tx.code, t.(legacyMark := ""));
    var post := Post(target, PruneFeeLog, NoRef, SeqSum(AmountsOf(FeeRecs(b.fees)), ids), 0, env.ts);
    var w1 := Apply(b, e1);
    MarkFeesEnabled(b, tx.code, target, EndTime(env.ts, tx.safe, tx.end), tx.order);
    MarkFeesDrift(b, tx.code, ids, target, s);
    assert w1.tokens == b.tokens by { MarkKeepsTokens(b, e1); }
    MigrationDrift(w1, tx.code, put.token, s);
    PostDrift(w1, post, s);
    PostDrift(Apply(w1, put), post, s);
    DriftStep(b, e1, plan.tail, s);
    DriftStep(w1, put, Then(post, Done), s);
    DriftStep(w1, post, Done, s);
    DriftStep(Apply(w1, put), post, Done, s);
  }

  // Pruning fees keeps every single token conserved exactly when the fee target is an
  // account of that token, or the fees pruned come to nothing.
  lemma FeePruneNeedsOwnCode(h: Hasher, w: World, env: Env, tx: Tx)
    requires Inv(w) && tx.TxFeePrune? && Step(h, w, env, tx).Some?
    requires tx.code in w.tokens && w.tokens[tx.code].policy.Some?
    ensures (forall c :: Gap(Step(h, w, env, tx).value, OneToken(c)) == Gap(w, OneToken(c)))
      <==> w.tokens[tx.code].policy.value.target.code == tx.code || SeqSum(AmountsOf(FeeRecs(w.fees)), Batch(tx.order)) == 0
  {
    hide Inv, Gap, Step, SeqSum, FeeRecs;
    var sum, target := SeqSum(AmountsOf(FeeRecs(w.fees)), Batch(tx.order)), w.tokens[tx.code].policy.value.target;
    FeePruneShifts(h, w, env, tx, tx.code);
    forall c ensures Gap(Step(h, w, env, tx).value, OneToken(c)) - Gap(w, OneToken(c)) == When(c == tx.code, sum) - When(c == target.code, sum) {
      FeePruneShifts(h, w, env, tx, c);
    }
  }

  // The accounts a transaction posts on are all of the token the money is of. Only the
  // three transactions above can be otherwise.
  ghost predicate StaysWithin(w: World, tx: Tx) {
    match tx
    case TxWrapComplete(id, _, _) =>
      id in w.wraps && WrapAddress(w, w.wraps[id].address.code, w.wraps[id].extCode).Some?
      ==> WrapAddress(w, w.wraps[id].address.code, w.wraps[id].extCode).value.code == w.wraps[id].address.code
    case TxUnwrap(_, to, extCode, _, _, _) =>
      to.Some? && WrapAddress(w, to.value.code, extCode).Some? ==> WrapAddress(w, to.value.code, extCode).value.code == to.value.code
    case TxFeePrune(code, _, _, order) =>
      code in w.tokens && w.tokens[code].policy.Some?
      ==> w.tokens[code].policy.value.target.code == code || SeqSum(AmountsOf(FeeRecs(w.fees)), Batch(order)) == 0
    case _ => true
  }

  ghost predicate EachKept(w: World, v: World) {
    forall code :: Gap(v, OneToken(code)) == Gap(w, OneToken(code))
  }

  // A committed transaction of any kind conserves every single token if and only if it
  // stays within.
  lemma EachTokenConservedIff(h: Hasher, w: World, env: Env, tx: Tx)
    requires Inv(w) && Step(h, w, env, tx).Some?
    ensures EachKept(w, Step(h, w, env, tx).value) <==> StaysWithin(w, tx)
  {
    hide Inv, Step, Gap, SeqSum, FeeRecs, WrapAddress;
    if tx.TxWrapComplete? {
      WrapCompleteNeedsOwnCode(h, w, env, tx);
    } else if tx.TxUnwrap? {
      UnwrapNeedsOwnCode(h, w, env, tx);
    } else if tx.TxFeePrune? {
      FeePruneTokens(h, w, env, tx);
      if w.tokens[tx.code].policy.Some? {
        FeePruneNeedsOwnCode(h, w, env, tx);
      } else {
        NoPolicyKeeps(h, w, env, tx);
      }
    } else {
      forall code ensures Gap(Step(h, w, env, tx).value, OneToken(code)) == Gap(w, OneToken(code)) {
        StepConserves(h, w, env, tx, OneToken(code));
      }
    }
  }

  lemma FeePruneTokens(h: Hasher, w: World, env: Env, tx: Tx)
    requires tx.TxFeePrune? && Step(h, w, env, tx).Some?
    ensures tx.code in w.tokens
  {
    hide Commit, QueryAnswered, SeqSum;
  }

  lemma NoPolicyKeeps(h: Hasher, w: World, env: Env, tx: Tx)
    requires tx.TxFeePrune? && Step(h, w, env, tx).Some? && tx.code in w.tokens && w.tokens[tx.code].policy.None?
    ensures EachKept(w, Step(h, w, env, tx).value)
  {
    hide QueryAnswered, SeqSum, Gap;
    CommitNothing(Begin(w, env));
    assert Step(h, w, env, tx) == Some(Begin(w, env));
    forall code ensures Gap(Begin(w, env), OneToken(code)) == Gap(w, OneToken(code)) {
      BeginKeepsGap(w, env, OneToken(code));
    }
  }

  // Every call of the run that goes through stays within.
  ghost predicate RunStaysWithin(h: Hasher, w: World, calls: seq<Call>) {
    forall i :: 0 <= i < |calls| ==>
      var u := Exec(h, w, calls[..i]);
      Step(h, u, calls[i].env, calls[i].tx).Some? ==> StaysWithin(u, calls[i].tx)
  }

  // So a run conserves each token by itself whenever its committed calls stay within,
  // whatever the token chaincode answers.
  lemma {:induction false} RunConservesEach(h: Hasher, w: World, calls: seq<Call>)
    requires Inv(w) && RunStaysWithin(h, w, calls)
    ensures EachKept(w, Exec(h, w, calls))
  {
    hide Inv, Step, Gap, StaysWithin;
    if calls != [] {
      var init, c := calls[..|calls| - 1], calls[|calls| - 1];
      assert forall i :: 0 <= i < |init| ==> init[..i] == calls[..i];
      RunConservesEach(h, w, init);
      RunKeepsInv(h, w, init);
      var u := Exec(h, w, init);
      if Step(h, u, c.env, c.tx).Some? {
        EachTokenConservedIff(h, u, c.env, c.tx);
      }
    }
  }

  // ---- where every run begins ----

  // The first token of a ledger can always be created by one holder, and its whole
  // initial supply is the balance of its genesis account.
  lemma FirstToken(h: Hasher, env: Env, code: string, meta: Meta, con: Con)
    requires InRange(env.ts) && env.txid != "" && ValidateTokenCode(code) == Some(code) && MetaValid(meta)
    requires (meta.policy.Some? ==> meta.policy.value.target.None?) && (meta.bridge.Some? ==> meta.bridge.value == map[])
    ensures Step(h, EMPTY_WORLD, env, TxTokenCreate(code, meta, [], con)).Some?
    ensures var w := Step(h, EMPTY_WORLD, env, TxTokenCreate(code, meta, [], con)).value;
      var genesis := NewAddress(h, code, JOINT, env.txid);
      && code in w.tokens && w.tokens[code].supply == meta.initial && w.tokens[code].genesis == genesis
      && genesis in w.balances && w.balances[genesis].amount == meta.initial
  {
    hide NewAddress, ValidateTokenCode, Commit, Apply, CreateToken;
    var b := Begin(EMPTY_WORLD, env);
    assert Gather(b, code, [], {env.kid}) == Some({env.kid}) && |{env.kid}| == 1;
    assert PlanOf(h, b, env, TxTokenCreate(code, meta, [], con)) == CreateToken(h, b, env, code, meta, {env.kid});
    FirstTokenPlan(h, b, env, code, meta, {env.kid});
  }

  lemma FirstTokenPlan(h: Hasher, b: World, env: Env, code: string, meta: Meta, kids: set<string>)
    requires b.accounts == map[] && b.balances == map[] && b.logs == map[]
    requires (meta.policy.Some? ==> meta.policy.value.target.None?) && (meta.bridge.Some? ==> meta.bridge.value == map[])
    requires MetaValid(meta)
    ensures CreateToken(h, b, env, code, meta, kids).Some?
    ensures var v := Commit(b, CreateToken(h, b, env, code, meta, kids).value);
      var genesis := NewAddress(h, code, JOINT, env.txid);
      && v.Some? && code in v.value.tokens && v.value.tokens[code].supply == meta.initial && v.value.tokens[code].genesis == genesis
      && genesis in v.value.balances && v.value.balances[genesis].amount == meta.initial
  {
    hide NewAddress, Commit, Apply;
    var plan := CreateToken(h, b, env, code, meta, kids).value;
    CommitStep(b, plan.head, plan.tail);
    OpenAccountFields(b, plan.head);
    var w1 := Apply(b, plan.head);
    assert w1.balances[plan.head.a] == Balance(0, "") && w1.logs == map[];
    if meta.initial > 0 {
      IssueFirst(w1, plan.tail.head, plan.tail.tail.head);
    } else {
      CommitLast(w1, plan.tail.head);
      PutTokenFields(w1, plan.tail.head);
    }
  }

  lemma IssueFirst(w: World, post: Effect, put: Effect)
    requires post.Post? && put.PutToken? && post.a in w.balances && (post.a, post.ts) !in w.logs
    ensures var v := Commit(w, Then(post, Then(put, Done)));
      && v.Some? && put.code in v.value.tokens && v.value.tokens[put.code] == put.token
      && post.a in v.value.balances && v.value.balances[post.a].amount == w.balances[post.a].amount + post.diff - post.logFee
  {
    hide Commit, Apply;
    CommitStep(w, post, Then(put, Done));
    PostFields(w, post);
    CommitLast(Apply(w, post), put);
    PutTokenFields(Apply(w, post), put);
  }
}
