/**
  Short runs from the empty ledger on which a property fails that holds only under a
  condition: one token alone is not conserved, and a balance is below zero.
 */
module Witnesses {
  import opened Sums
  import opened Amounts
  import opened Addresses
  import opened RecordIds
  import opened FeeFormulas
  import opened Pruning
  import opened Ledger
  import opened Fields
  import opened Rules
  import opened Invariants
  import opened Steps
  import opened Conservation
  import opened SupplyTheorems
  import opened Successes
  import opened Prunes
  import opened Drain
  import opened Refunds
  import opened Shortfalls

  const T := MIN_STAMP

  // ---- what single steps do ----

  lemma ValidCode(code: string)
    requires 3 <= |code| <= 6 && forall i :: 0 <= i < |code| ==> CodeChar(code[i])
    ensures ValidateTokenCode(code) == Some(code)
  {
    assert ToUpper(code) == code;
  }

  // What the steps of the runs below leave of a state.
  ghost predicate Follows(w: World, v: World, env: Env, a: Address) {
    && v.used == w.used + {env.txid}
    && v.contracts == w.contracts && v.prunedPays == w.prunedPays && v.completed == w.completed
    && (forall k :: k in v.logs && k !in w.logs ==> k == (a, env.ts))
  }

  // One holder issues a token.
  lemma Issues(h: Hasher, w: World, env: Env, code: string, meta: Meta, con: Con) returns (v: World)
    requires w.accounts.Keys == w.balances.Keys
    requires Admissible(w, env, TxTokenCreate(code, meta, [], con)) && ValidateTokenCode(code) == Some(code)
    requires code !in w.tokens && MetaValid(meta) && meta.initial >= 0
    requires (meta.policy.Some? ==> meta.policy.value.target.None?) && BridgeKnown(w, BridgeOr(meta.bridge, map[]))
    requires NewAddress(h, code, JOINT, env.txid) !in w.accounts && forall k :: k in w.logs ==> k.0 in w.accounts
    ensures Step(h, w, env, TxTokenCreate(code, meta, [], con)) == Some(v)
    ensures var g := NewAddress(h, code, JOINT, env.txid);
      var policy := if meta.policy.None? then None else Some(Policy(g, meta.policy.value.rates));
      && Follows(w, v, env, g)
      && v.tokens == w.tokens[code := Token(meta.maxSupply, meta.initial, "", g, policy, BridgeOr(meta.bridge, map[]))]
      && v.accounts == w.accounts[g := Account({env.kid}, false)] && v.balances == w.balances[g := Balance(meta.initial, "")]
      && v.pays == w.pays && v.wraps == w.wraps
  {
    hide Apply, Commit, NewAddress, ValidateTokenCode, PlanOf, Admissible, CreateToken;
    var b := Begin(w, env);
    var tx := TxTokenCreate(code, meta, [], con);
    StepIs(h, w, env, tx);
    IssuePlan(h, b, env, code, meta, con);
    v := IssueCommits(h, b, env, code, meta);
  }

  lemma IssuePlan(h: Hasher, b: World, env: Env, code: string, meta: Meta, con: Con)
    requires ValidateTokenCode(code) == Some(code) && code !in b.tokens && MetaValid(meta)
    ensures PlanOf(h, b, env, TxTokenCreate(code, meta, [], con)) == CreateToken(h, b, env, code, meta, {env.kid})
  {
    hide ValidateTokenCode, CreateToken;
    assert Gather(b, code, [], {env.kid}) == Some({env.kid}) && |{env.kid}| == 1;
  }

  lemma IssueCommits(h: Hasher, b: World, env: Env, code: string, meta: Meta) returns (v: World)
    requires MetaValid(meta) && (meta.policy.Some? ==> meta.policy.value.target.None?) && BridgeKnown(b, BridgeOr(meta.bridge, map[]))
    requires NewAddress(h, code, JOINT, env.txid) !in b.accounts && forall k :: k in b.logs ==> k.0 in b.accounts
    ensures var p := CreateToken(h, b, env, code, meta, {env.kid}); p.Some? && Commit(b, p.value) == Some(v)
    ensures var g := NewAddress(h, code, JOINT, env.txid);
      var policy := if meta.policy.None? then None else Some(Policy(g, meta.policy.value.rates));
      && v.used == b.used && v.contracts == b.contracts && v.prunedPays == b.prunedPays && v.completed == b.completed
      && (forall k :: k in v.logs && k !in b.logs ==> k == (g, env.ts))
      && v.tokens == b.tokens[code := Token(meta.maxSupply, meta.initial, "", g, policy, BridgeOr(meta.bridge, map[]))]
      && v.accounts == b.accounts[g := Account({env.kid}, false)] && v.balances == b.balances[g := Balance(meta.initial, "")]
      && v.pays == b.pays && v.wraps == b.wraps
  {
    hide Apply, Commit, NewAddress, BridgeKnown;
    var plan := CreateToken(h, b, env, code, meta, {env.kid}).value;
    CommitStep(b, plan.head, plan.tail);
    OpenAccountFields(b, plan.head);
    var w1 := Apply(b, plan.head);
    if meta.initial > 0 {
      v := MintThenPut(w1, plan.tail.head, plan.tail.tail.head);
      SetTwice(b.balances, plan.head.a, Balance(0, ""), Balance(meta.initial, ""));
    } else {
      CommitLast(w1, plan.tail.head);
      PutTokenFields(w1, plan.tail.head);
      v := Apply(w1, plan.tail.head);
    }
  }

  lemma SetTwice<K, V>(m: map<K, V>, k: K, x: V, y: V)
    ensures m[k := x][k := y] == m[k := y]
  {
  }

  lemma MintThenPut(w: World, post: Effect, put: Effect) returns (v: World)
    requires post.Post? && put.PutToken? && Accepted(w, post)
    ensures Commit(w, Then(post, Then(put, Done))) == Some(v)
    ensures var b := w.balances[post.a];
      && v.tokens == w.tokens[put.code := put.token] && v.balances == w.balances[post.a := b.(amount := b.amount + post.diff - post.logFee)]
      && v.logs.Keys == w.logs.Keys + {(post.a, post.ts)}
      && v.used == w.used && v.contracts == w.contracts && v.prunedPays == w.prunedPays && v.completed == w.completed
      && v.accounts == w.accounts && v.pays == w.pays && v.wraps == w.wraps
  {
    hide Apply, Commit;
    CommitStep(w, post, Then(put, Done));
    PostFields(w, post);
    CommitLast(Apply(w, post), put);
    PutTokenFields(Apply(w, post), put);
    v := Apply(Apply(w, post), put);
  }

  // A record or wrap with the posting of its amount.
  lemma Records(w: World, e: Effect, post: Effect) returns (v: World)
    requires (e.PutPay? || e.PutWrap? || e.PutRefund?) && post.Post? && Accepted(w, post)
    ensures Commit(w, Then(e, Then(post, Done))) == Some(v)
    ensures var b := w.balances[post.a];
      && v.balances == w.balances[post.a := b.(amount := b.amount + post.diff - post.logFee)]
      && v.logs.Keys == w.logs.Keys + {(post.a, post.ts)}
      && v.pays == (if e.PutPay? then w.pays[e.id := e.pay] else if e.PutRefund? then WithRefund(w.pays, e.id, e.pay) else w.pays)
      && v.wraps == (if e.PutWrap? then w.wraps[e.id := e.wrap] else w.wraps)
      && v.used == w.used && v.contracts == w.contracts && v.prunedPays == w.prunedPays && v.completed == w.completed
      && v.accounts == w.accounts && v.tokens == w.tokens
  {
    hide Apply, Commit;
    CommitStep(w, e, Then(post, Done));
    if e.PutPay? {
      PutPayFields(w, e);
    } else if e.PutRefund? {
      PutRefundFields(w, e);
    } else {
      PutWrapFields(w, e);
    }
    CommitLast(Apply(w, e), post);
    PostFields(Apply(w, e), post);
    v := Apply(Apply(w, e), post);
  }

  lemma OneSigner(b: World, a: Address, kid: string)
    requires a in b.accounts && a.kind == JOINT && b.accounts[a].holders == {kid}
    ensures OwnSigners(b, a, kid) == {kid} && |OwnSigners(b, a, kid)| == 1
  {
    assert {kid} + {kid} == {kid};
  }

  // ---- a token that is not conserved ----

  function GenesisOf(h: Hasher, code: string, txid: string): Address {
    NewAddress(h, code, JOINT, txid)
  }

  // Token BBB is issued, token AAA is issued with a bridge onto BBB's genesis account,
  // and AAA's genesis account wraps four of its ten units.
  function ForeignWrap(h: Hasher, kid: string, con: Con): seq<Call> {
    [Call(Env(kid, T, "1", 0), TxTokenCreate("BBB", Meta(10, 0, None, None), [], con)),
     Call(Env(kid, T + 1, "2", 0), TxTokenCreate("AAA", Meta(10, 10, None, Some(map["EXT" := GenesisOf(h, "BBB", "1")])), [], con)),
     Call(Env(kid, T + 2, "3", 0), TxWrap(GenesisOf(h, "AAA", "2"), "EXT", "owner", 4, [], con))]
  }

  lemma TwoTokens(h: Hasher, kid: string, con: Con) returns (w: World)
    ensures w == Exec(h, EMPTY_WORLD, ForeignWrap(h, kid, con)[..2])
    ensures var x, y := GenesisOf(h, "AAA", "2"), GenesisOf(h, "BBB", "1");
      && w.tokens == map["BBB" := Token(10, 0, "", y, None, map[]), "AAA" := Token(10, 10, "", x, None, map["EXT" := y])]
      && w.accounts == map[y := Account({kid}, false), x := Account({kid}, false)]
      && w.balances == map[y := Balance(0, ""), x := Balance(10, "")]
      && (forall k :: k in w.logs ==> k.1 < T + 2)
      && w.contracts == map[] && w.wraps == map[] && w.used == {"1", "2"}
  {
    hide Step, NewAddress, ValidateTokenCode;
    var calls := ForeignWrap(h, kid, con);
    ValidCode("BBB");
    ValidCode("AAA");
    NewAddressParts(h, "AAA", JOINT, "2");
    NewAddressParts(h, "BBB", JOINT, "1");
    assert Admissible(EMPTY_WORLD, calls[0].env, calls[0].tx);
    var w1 := Issues(h, EMPTY_WORLD, calls[0].env, "BBB", Meta(10, 0, None, None), con);
    assert calls[..2][..1] == calls[..1] && calls[..1][..0] == [];
    assert Exec(h, EMPTY_WORLD, calls[..1]) == w1;
    assert Admissible(w1, calls[1].env, calls[1].tx);
    w := Issues(h, w1, calls[1].env, "AAA", calls[1].tx.meta, con);
    assert Exec(h, EMPTY_WORLD, calls[..2]) == w;
  }

  // Completing that wrap conserves all tokens together, but four units of AAA become
  // units of BBB: AAA has a supply of ten and holds six.
  lemma ForeignWrapBreaksOneToken(h: Hasher, kid: string, con: Con)
    ensures var w := Exec(h, EMPTY_WORLD, ForeignWrap(h, kid, con));
      var env, tx := Env(kid, T + 3, "4", 0), TxWrapComplete("3", 0, None);
      && Step(h, w, env, tx).Some?
      && !StaysWithin(w, tx)
      && Gap(w, OneToken("AAA")) == 0
      && Gap(Step(h, w, env, tx).value, OneToken("AAA")) == 4 && Gap(Step(h, w, env, tx).value, OneToken("BBB")) == -4
  {
    hide Step, NewAddress, Inv, Gap;
    var calls := ForeignWrap(h, kid, con);
    var w := WrappedForeign(h, kid, con);
    var env, tx := Env(kid, T + 3, "4", 0), TxWrapComplete("3", 0, None);
    EmptyWorldOk();
    RunKeepsInv(h, EMPTY_WORLD, calls);
    NewAddressParts(h, "AAA", JOINT, "2");
    NewAddressParts(h, "BBB", JOINT, "1");
    WrapCompleteSucceedsIff(h, w, env, "3", 0, None);
    assert MayComplete(w, env, "3", 0, None);
    WrapCompleteShifts(h, w, env, tx, "AAA");
    WrapCompleteShifts(h, w, env, tx, "BBB");
    NotCrossedYet(h, kid, con);
    EmptyHasNoGap(OneToken("AAA"));
    EmptyHasNoGap(OneToken("BBB"));
  }

  lemma NotCrossedYet(h: Hasher, kid: string, con: Con)
    ensures EachKept(EMPTY_WORLD, Exec(h, EMPTY_WORLD, ForeignWrap(h, kid, con)))
  {
    hide Step, Exec, Gap, NewAddress;
    EmptyWorldOk();
    RunConservesEach(h, EMPTY_WORLD, ForeignWrap(h, kid, con));
  }

  lemma WrappedForeign(h: Hasher, kid: string, con: Con) returns (w: World)
    ensures w == Exec(h, EMPTY_WORLD, ForeignWrap(h, kid, con))
    ensures var x, y := GenesisOf(h, "AAA", "2"), GenesisOf(h, "BBB", "1");
      && "AAA" in w.tokens && w.tokens["AAA"].bridge == map["EXT" := y]
      && y in w.accounts && w.accounts[y] == Account({kid}, false)
      && (y, T + 3) !in w.logs && w.used == {"1", "2", "3"} && w.contracts == map[]
      && w.wraps == map["3" := WrapRec(x, 4, "EXT", "owner", "")]
  {
    hide Step, NewAddress, Commit, Apply, PlanOf;
    var calls := ForeignWrap(h, kid, con);
    var x, y := GenesisOf(h, "AAA", "2"), GenesisOf(h, "BBB", "1");
    var u := TwoTokens(h, kid, con);
    var env, tx := calls[2].env, calls[2].tx;
    NewAddressParts(h, "AAA", JOINT, "2");
    NewAddressParts(h, "BBB", JOINT, "1");
    StepIs(h, u, env, tx);
    var b := Begin(u, env);
    OneSigner(b, x, kid);
    assert Gather(b, "AAA", [], OwnSigners(b, x, kid)) == Some({kid});
    WrapPlanIs(h, b, env, tx);
    w := Records(b, PutWrap("3", WrapRec(x, 4, "EXT", "owner", "")), Post(x, WrapLog, ToId("owner"), -4, 0, T + 2));
    assert calls[..2] == calls[..|calls| - 1];
  }

  lemma WrapPlanIs(h: Hasher, b: World, env: Env, tx: Tx)
    requires tx.TxWrap? && WrapAddress(b, tx.sender.code, tx.extCode).Some? && tx.amount > 0
    requires var wrapper := WrapAddress(b, tx.sender.code, tx.extCode).value; tx.sender != wrapper && Active(b, wrapper)
    requires Authorised(b, tx.sender, env.kid) && Active(b, tx.sender) && tx.sender in b.balances && b.balances[tx.sender].amount >= tx.amount
    requires Gather(b, tx.sender.code, tx.extra, OwnSigners(b, tx.sender, env.kid)) == Some({env.kid})
    ensures PlanOf(h, b, env, tx) ==
      Some(Then(PutWrap(env.txid, WrapRec(tx.sender, tx.amount, tx.extCode, tx.extId, "")),
           Then(Post(tx.sender, WrapLog, ToId(tx.extId), -tx.amount, 0, env.ts), Done)))
  {
    hide Gather, OwnSigners, HasHolder;
    assert |{env.kid}| == 1;
  }

  // ---- a balance below zero ----

  const DOUBLE := FeeRate(Rat(2, 1), 0)

  // A token is issued and its holder opens a personal account.
  function Opened(h: Hasher, kid: string, con: Con, supply: nat, policy: Option<MetaPolicy>): seq<Call> {
    [Call(Env(kid, T, "1", 0), TxTokenCreate("AAA", Meta(supply, supply, policy, None), [], con)),
     Call(Env(kid, T + 1, "2", 0), TxAccountCreate("AAA", false))]
  }

  // It charges twice the amount of a pay, and the genesis account pays ten to the other.
  function DoubleFee(h: Hasher, kid: string, con: Con): seq<Call> {
    Opened(h, kid, con, 10, Some(MetaPolicy(None, map["pay" := DOUBLE])))
    + [Call(Env(kid, T + 2, "3", 0), TxPay(GenesisOf(h, "AAA", "1"), NewAddress(h, "AAA", PERSONAL, kid), 10, con))]
  }

  lemma Opens(h: Hasher, w: World, env: Env, code: string) returns (v: World)
    requires Admissible(w, env, TxAccountCreate(code, false)) && ValidateTokenCode(code) == Some(code) && code in w.tokens
    requires NewAddress(h, code, PERSONAL, env.kid) !in w.accounts
    ensures Step(h, w, env, TxAccountCreate(code, false)) == Some(v)
    ensures var a := NewAddress(h, code, PERSONAL, env.kid);
      && Follows(w, v, env, a) && v.logs == w.logs
      && v.tokens == w.tokens && v.accounts == w.accounts[a := Account({}, false)] && v.balances == w.balances[a := Balance(0, "")]
      && v.pays == w.pays && v.wraps == w.wraps
  {
    hide Apply, Commit, NewAddress, ValidateTokenCode, Admissible;
    var b := Begin(w, env);
    var open := OpenAccount(NewAddress(h, code, PERSONAL, env.kid), Account({}, false), {env.kid});
    StepIs(h, w, env, TxAccountCreate(code, false));
    CommitLast(b, open);
    OpenAccountFields(b, open);
    v := Apply(b, open);
  }

  lemma BeforePay(h: Hasher, kid: string, con: Con, supply: nat, policy: Option<MetaPolicy>) returns (w: World)
    requires policy.Some? ==> policy.value.target.None?
    ensures w == Exec(h, EMPTY_WORLD, Opened(h, kid, con, supply, policy))
    ensures var g, a := GenesisOf(h, "AAA", "1"), NewAddress(h, "AAA", PERSONAL, kid);
      && w.tokens == map["AAA" := Token(supply, supply, "", g, if policy.None? then None else Some(Policy(g, policy.value.rates)), map[])]
      && w.accounts == map[g := Account({kid}, false), a := Account({}, false)]
      && w.balances == map[g := Balance(supply, ""), a := Balance(0, "")]
      && (forall k :: k in w.logs ==> k == (g, T))
      && w.contracts == map[] && w.pays == map[] && w.used == {"1", "2"} && w.prunedPays == {}
  {
    hide Step, NewAddress, ValidateTokenCode;
    var calls := Opened(h, kid, con, supply, policy);
    ValidCode("AAA");
    NewAddressParts(h, "AAA", JOINT, "1");
    NewAddressParts(h, "AAA", PERSONAL, kid);
    assert Admissible(EMPTY_WORLD, calls[0].env, calls[0].tx);
    var w1 := Issues(h, EMPTY_WORLD, calls[0].env, "AAA", calls[0].tx.meta, con);
    assert calls[..|calls| - 1] == calls[..1] && calls[..1][..0] == [];
    assert Exec(h, EMPTY_WORLD, calls[..1]) == w1;
    assert Admissible(w1, calls[1].env, calls[1].tx);
    w := Opens(h, w1, calls[1].env, "AAA");
    assert Exec(h, EMPTY_WORLD, calls) == w;
  }

  lemma PayPlanIs(h: Hasher, b: World, env: Env, tx: Tx, fee: int)
    requires tx.TxPay? && tx.amount > 0 && tx.receiver.code == tx.sender.code && tx.sender != tx.receiver
    requires Authorised(b, tx.sender, env.kid) && Active(b, tx.sender) && Active(b, tx.receiver)
    requires tx.sender in b.balances && b.balances[tx.sender].amount >= tx.amount
    requires OwnSigners(b, tx.sender, env.kid) == {env.kid} && CalcFee(b, tx.receiver, "pay", tx.amount) == Some(fee)
    ensures PlanOf(h, b, env, tx) ==
      Some(Then(PutPay(env.RecordId(), PayRec(tx.receiver, tx.amount, fee, 0, tx.sender, "", env.ts, env.txid)),
           Then(Post(tx.sender, PayLog, ToAccount(tx.receiver), -tx.amount, 0, env.ts), Done)))
  {
    hide CalcFee, OwnSigners, HasHolder;
    assert |{env.kid}| == 1;
  }

  lemma PaidDouble(h: Hasher, kid: string, con: Con) returns (w: World)
    ensures w == Exec(h, EMPTY_WORLD, DoubleFee(h, kid, con))
    ensures var g, a := GenesisOf(h, "AAA", "1"), NewAddress(h, "AAA", PERSONAL, kid);
      && w.accounts == map[g := Account({kid}, false), a := Account({}, false)]
      && a in w.balances && w.balances[a] == Balance(0, "")
      && (a, T + 3) !in w.logs && w.contracts == map[] && w.used == {"1", "2", "3"} && w.prunedPays == {}
      && w.pays == map[PrintId(T + 2, "3") := PayRec(a, 10, 20, 0, g, "", T + 2, "3")]
  {
    hide Step, NewAddress, Commit, Apply, PlanOf, PrintId;
    var calls := DoubleFee(h, kid, con);
    var g, a := GenesisOf(h, "AAA", "1"), NewAddress(h, "AAA", PERSONAL, kid);
    var policy := Some(MetaPolicy(None, map["pay" := DOUBLE]));
    var u := BeforePay(h, kid, con, 10, policy);
    var env, tx := calls[2].env, calls[2].tx;
    NewAddressParts(h, "AAA", JOINT, "1");
    NewAddressParts(h, "AAA", PERSONAL, kid);
    StepIs(h, u, env, tx);
    var b := Begin(u, env);
    OneSigner(b, g, kid);
    assert RatedFee(DOUBLE, 10) == 20;
    PayPlanIs(h, b, env, tx, 20);
    w := Records(b, PutPay(env.RecordId(), PayRec(a, 10, 20, 0, g, "", T + 2, "3")), Post(g, PayLog, ToAccount(a), -10, 0, T + 2));
    assert Opened(h, kid, con, 10, policy) == calls[..|calls| - 1];
  }

  // Pruning that pay, without a refund anywhere, leaves the merchant with minus ten.
  lemma DoubleFeeOverdraws(h: Hasher, kid: string, con: Con)
    requires IsKid(kid)
    ensures NoRefunds(DoubleFee(h, kid, con))
    ensures var w, a := Exec(h, EMPTY_WORLD, DoubleFee(h, kid, con)), NewAddress(h, "AAA", PERSONAL, kid);
      var env, tx := Env(kid, T + 3, "4", 0), TxPayPrune(a, false, None, [PrintId(T + 2, "3")]);
      && Step(h, w, env, tx).Some? && a in w.balances && w.balances[a].amount == 0
      && a in Step(h, w, env, tx).value.balances && Step(h, w, env, tx).value.balances[a].amount == -10
  {
    hide Step, NewAddress, Inv, PrintId, SplitTime, NewBatch;
    var a, id := NewAddress(h, "AAA", PERSONAL, kid), PrintId(T + 2, "3");
    var w := PaidDouble(h, kid, con);
    var env, tx := Env(kid, T + 3, "4", 0), TxPayPrune(a, false, None, [id]);
    EmptyWorldOk();
    RunKeepsInv(h, EMPTY_WORLD, DoubleFee(h, kid, con));
    NewAddressParts(h, "AAA", PERSONAL, kid);
    KidHolds(h, "AAA", kid);
    assert Listing(PayRecs(w.pays), a, 0, T + 3, [id]) by { OnlyOneDue(w.pays, a, id); }
    assert Admissible(w, env, tx);
    PayPruneSucceedsIff(h, w, env, tx);
    PrunesOnePay(h, w, env, tx, id);
  }

  // A pay prune of one record adds its amount less its fee.
  lemma PrunesOnePay(h: Hasher, w: World, env: Env, tx: Tx, id: string)
    requires Inv(w) && tx.TxPayPrune? && Step(h, w, env, tx).Some? && tx.order == [id] && id in w.pays
    ensures var v := Step(h, w, env, tx).value;
      && tx.account in w.balances && tx.account in v.balances
      && v.balances[tx.account].amount == w.balances[tx.account].amount + w.pays[id].amount - w.pays[id].fee
  {
    hide Inv, Step, NewBatch, MarkTime, SeqSum, Batch;
    PayPruneCounts(h, w, env, tx);
    OneRecord(w.pays, id);
  }

  lemma KidHolds(h: Hasher, code: string, kid: string)
    requires IsKid(kid)
    ensures ID(NewAddress(h, code, PERSONAL, kid)) == kid
  {
    HolderRecoversKid(h, code, kid);
    HolderIsID(NewAddress(h, code, PERSONAL, kid));
  }

  lemma OnlyOneDue(pays: map<string, PayRec>, a: Address, id: string)
    requires pays.Keys == {id} && pays[id].merchant == a && pays[id].created == T + 2
    ensures Listing(PayRecs(pays), a, 0, T + 3, [id])
  {
    assert [id][0] == id;
  }
}
