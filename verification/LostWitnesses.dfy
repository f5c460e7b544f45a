/**
  More short runs from the empty ledger: a pay committed behind the watermark, a
  refund that takes a balance below zero although no fee is charged anywhere, and a
  batch that ends in the middle of an instant.
 */
module LostWitnesses {
  import opened Sums
  import opened FeeFormulas
  import opened Addresses
  import opened RecordIds
  import opened Pruning
  import opened Ledger
  import opened Rules
  import opened Invariants
  import opened Steps
  import opened Successes
  import opened SupplyTheorems
  import opened Prunes
  import opened Refunds
  import opened LostRecords
  import opened Witnesses
  import PayTx

  // ---- single steps ----

  // Token AAA is there, without fees, and nothing waits for signatures.
  ghost predicate Plain(w: World) {
    "AAA" in w.tokens && w.tokens["AAA"].policy.None? && w.contracts == map[]
  }

  // An account of it that kid alone pays from.
  ghost predicate Sole(w: World, a: Address, kid: string) {
    a.code == "AAA" && Authorised(w, a, kid) && Active(w, a) && a in w.balances && OwnSigners(w, a, kid) == {kid}
  }

  ghost predicate Fresh(w: World, env: Env) {
    InRange(env.ts) && env.txid !in w.used && env.txid != ""
  }

  ghost predicate MayPay(w: World, env: Env, tx: Tx) {
    && tx.TxPay? && Fresh(w, env) && Plain(w) && Sole(w, tx.sender, env.kid) && (tx.sender, env.ts) !in w.logs
    && tx.receiver.code == "AAA" && Active(w, tx.receiver) && tx.receiver != tx.sender
    && 0 < tx.amount <= w.balances[tx.sender].amount
  }

  // What a pay, a refund or a prune leaves of a state.
  ghost predicate Continues(w: World, v: World, env: Env, a: Address) {
    && v.used == w.used + {env.txid} && v.contracts == w.contracts && v.tokens == w.tokens && v.accounts == w.accounts
    && v.balances.Keys == w.balances.Keys && v.logs.Keys == w.logs.Keys + {(a, env.ts)}
  }

  lemma StaysSole(w: World, v: World, a: Address, kid: string)
    requires v.accounts == w.accounts && v.balances.Keys == w.balances.Keys && Sole(w, a, kid)
    ensures Sole(v, a, kid)
  {
    hide HasHolder;
  }

  lemma MayPayFree(w: World, env: Env, tx: Tx)
    requires MayPay(w, env, tx)
    ensures Admissible(w, env, tx)
    ensures CalcFee(Begin(w, env), tx.receiver, "pay", tx.amount) == Some(0)
  {
    hide OwnSigners, HasHolder, RatedFee;
  }

  lemma Pays(h: Hasher, w: World, env: Env, tx: Tx) returns (v: World)
    requires MayPay(w, env, tx)
    ensures Step(h, w, env, tx) == Some(v) && Continues(w, v, env, tx.sender) && Plain(v)
    ensures v.balances == w.balances[tx.sender := w.balances[tx.sender].(amount := w.balances[tx.sender].amount - tx.amount)]
    ensures v.pays == w.pays[env.RecordId() := PayRec(tx.receiver, tx.amount, 0, 0, tx.sender, "", env.ts, env.txid)]
    ensures v.prunedPays == w.prunedPays
  {
    hide Apply, Commit, PlanOf, Admissible, HasHolder, PrintId, CalcFee, OwnSigners, Step;
    var b := Begin(w, env);
    MayPayFree(w, env, tx);
    StepIs(h, w, env, tx);
    StaysSole(w, b, tx.sender, env.kid);
    PayPlanIs(h, b, env, tx, 0);
    v := Records(b, PutPay(env.RecordId(), PayRec(tx.receiver, tx.amount, 0, 0, tx.sender, "", env.ts, env.txid)),
                 Post(tx.sender, PayLog, ToAccount(tx.receiver), -tx.amount, 0, env.ts));
  }

  ghost predicate MayPrune(w: World, env: Env, a: Address, order: seq<string>) {
    && Fresh(w, env) && Authorised(w, a, env.kid) && Active(w, a) && a in w.balances && (a, env.ts) !in w.logs
    && WatermarkStart(w.balances[a].mark).Some? && order != []
    && Listing(PayRecs(w.pays), a, WatermarkStart(w.balances[a].mark).value, env.ts, order)
  }

  lemma PrunesNow(h: Hasher, w: World, env: Env, a: Address, order: seq<string>) returns (v: World)
    requires MayPrune(w, env, a, order)
    ensures Step(h, w, env, TxPayPrune(a, false, None, order)) == Some(v) && Continues(w, v, env, a) && Batch(order) != []
    ensures v.pays == w.pays && v.prunedPays == w.prunedPays + Elements(Batch(order))
    ensures var recs := PayRecs(w.pays);
      v.balances == w.balances[a := Balance(w.balances[a].amount + SeqSum(AmountsOf(recs), Batch(order)) - SeqSum(FeesOf(recs), Batch(order)), Last(Batch(order)))]
  {
    hide Apply, Commit, PlanOf, Admissible, HasHolder, WatermarkStart, SeqSum, PayBatchPlan, PayPrune, Listing, Step;
    var b, tx, recs := Begin(w, env), TxPayPrune(a, false, None, order), PayRecs(w.pays);
    PruneAsked(h, w, env, a, order);
    StepIs(h, w, env, tx);
    PayTx.PayPruneIsBatch(b, env, a, order);
    PayTx.PayBatchResult(b, env, a, Batch(order), SeqSum(AmountsOf(recs), Batch(order)), SeqSum(FeesOf(recs), Batch(order)));
    v := Step(h, w, env, tx).value;
  }

  lemma PruneAsked(h: Hasher, w: World, env: Env, a: Address, order: seq<string>)
    requires MayPrune(w, env, a, order)
    ensures var tx := TxPayPrune(a, false, None, order);
      Admissible(w, env, tx) && PlanOf(h, Begin(w, env), env, tx) == PayPrune(Begin(w, env), env, a, order)
  {
    hide PayPrune, Listing, WatermarkStart, HasHolder;
  }

  lemma OneMore(h: Hasher, w: World, calls: seq<Call>, c: Call, v: World)
    requires Step(h, Exec(h, w, calls), c.env, c.tx) == Some(v)
    ensures Exec(h, w, calls + [c]) == v
  {
    hide Step;
    assert (calls + [c])[..|calls|] == calls;
  }

  // ---- one pay, one prune ----

  function Genesis(h: Hasher): Address {
    GenesisOf(h, "AAA", "1")
  }

  function Personal(h: Hasher, kid: string): Address {
    NewAddress(h, "AAA", PERSONAL, kid)
  }

  function FirstPay(): string {
    PrintId(T + 2, "3")
  }

  // A token without fees is issued, its holder opens a personal account and pays to it
  // from the genesis account,
  function PaidRun(h: Hasher, kid: string, con: Con, supply: nat, amount: nat): seq<Call> {
    Opened(h, kid, con, supply, None) + [Call(Env(kid, T + 2, "3", 0), TxPay(Genesis(h), Personal(h, kid), amount, con))]
  }

  // and prunes.
  function PrunedRun(h: Hasher, kid: string, con: Con, supply: nat, amount: nat): seq<Call> {
    PaidRun(h, kid, con, supply, amount) + [Call(Env(kid, T + 3, "4", 0), TxPayPrune(Personal(h, kid), false, None, [FirstPay()]))]
  }

  lemma Parties(h: Hasher, kid: string)
    requires IsKid(kid)
    ensures Genesis(h).code == "AAA" && Genesis(h).kind == JOINT
    ensures Personal(h, kid).code == "AAA" && Personal(h, kid).kind == PERSONAL && ID(Personal(h, kid)) == kid
    ensures Genesis(h) != Personal(h, kid)
  {
    hide IsKid, ID, NewAddress;
    NewAddressParts(h, "AAA", JOINT, "1");
    NewAddressParts(h, "AAA", PERSONAL, kid);
    KidHolds(h, "AAA", kid);
  }

  // The two accounts, both in the hands of kid.
  ghost predicate InHand(h: Hasher, kid: string, w: World) {
    && Plain(w) && Genesis(h) != Personal(h, kid) && Sole(w, Genesis(h), kid) && Sole(w, Personal(h, kid), kid)
  }

  lemma StaysInHand(h: Hasher, kid: string, w: World, v: World)
    requires InHand(h, kid, w) && Plain(v) && v.accounts == w.accounts && v.balances.Keys == w.balances.Keys
    ensures InHand(h, kid, v)
  {
    hide Sole, NewAddress, Plain;
    StaysSole(w, v, Genesis(h), kid);
    StaysSole(w, v, Personal(h, kid), kid);
  }

  lemma OpenedInHand(h: Hasher, kid: string, w: World)
    requires IsKid(kid) && Plain(w)
    requires w.accounts == map[Genesis(h) := Account({kid}, false), Personal(h, kid) := Account({}, false)]
    requires w.balances.Keys == w.accounts.Keys
    ensures InHand(h, kid, w)
  {
    Parties(h, kid);
    hide IsKid, ID, NewAddress;
    OneSigner(w, Genesis(h), kid);
  }

  lemma Paid(h: Hasher, kid: string, con: Con, supply: nat, amount: nat) returns (w: World)
    requires IsKid(kid) && 0 < amount <= supply
    ensures w == Exec(h, EMPTY_WORLD, PaidRun(h, kid, con, supply, amount)) && InHand(h, kid, w)
    ensures var g, a := Genesis(h), Personal(h, kid);
      && w.accounts.Keys == {g, a} && w.balances == map[g := Balance(supply - amount, ""), a := Balance(0, "")]
      && w.pays == map[FirstPay() := PayRec(a, amount, 0, 0, g, "", T + 2, "3")] && w.prunedPays == {}
      && w.used == {"1", "2", "3"} && w.logs.Keys <= {(g, T), (g, T + 2)}
  {
    hide IsKid, Step, NewAddress, PrintId, Sole, OwnSigners, Exec;
    var c := Call(Env(kid, T + 2, "3", 0), TxPay(Genesis(h), Personal(h, kid), amount, con));
    var u := BeforePay(h, kid, con, supply, None);
    OpenedInHand(h, kid, u);
    PartOfSole(u, Genesis(h), kid);
    PartOfSole(u, Personal(h, kid), kid);
    w := Pays(h, u, c.env, c.tx);
    StaysInHand(h, kid, u, w);
    OneMore(h, EMPTY_WORLD, Opened(h, kid, con, supply, None), c, w);
  }

  lemma PartOfSole(w: World, a: Address, kid: string)
    requires Sole(w, a, kid)
    ensures a.code == "AAA" && Authorised(w, a, kid) && Active(w, a) && a in w.balances
  {
    hide HasHolder;
  }

  lemma Pruned(h: Hasher, kid: string, con: Con, supply: nat, amount: nat) returns (w: World)
    requires IsKid(kid) && 0 < amount <= supply
    ensures w == Exec(h, EMPTY_WORLD, PrunedRun(h, kid, con, supply, amount)) && InHand(h, kid, w)
    ensures var g, a := Genesis(h), Personal(h, kid);
      && w.accounts.Keys == {g, a} && w.balances == map[g := Balance(supply - amount, ""), a := Balance(amount, FirstPay())]
      && w.pays == map[FirstPay() := PayRec(a, amount, 0, 0, g, "", T + 2, "3")] && w.prunedPays == {FirstPay()}
      && w.used == {"1", "2", "3", "4"} && w.logs.Keys <= {(g, T), (g, T + 2), (a, T + 3)}
  {
    hide IsKid, Step, NewAddress, PrintId, Sole, OwnSigners, Exec, SeqSum, Authorised, Active;
    var a, env := Personal(h, kid), Env(kid, T + 3, "4", 0);
    var u := Paid(h, kid, con, supply, amount);
    PartOfSole(u, a, kid);
    assert Listing(PayRecs(u.pays), a, 0, T + 3, [FirstPay()]) by { OnlyOneDue(u.pays, a, FirstPay()); }
    OneRecord(u.pays, FirstPay());
    w := PrunesNow(h, u, env, a, [FirstPay()]);
    assert Elements([FirstPay()]) == {FirstPay()};
    StaysInHand(h, kid, u, w);
    OneMore(h, EMPTY_WORLD, PaidRun(h, kid, con, supply, amount), Call(env, TxPayPrune(a, false, None, [FirstPay()])), w);
  }

  lemma FirstPayTime()
    ensures FirstPay() != "" && WatermarkStart(FirstPay()) == Some(T + 2) && MarkTime(FirstPay()) == T + 2
  {
    hide PrintId, SplitTime;
    RoundTrip(T + 2, "3");
    IdNotEmpty(T + 2, "3");
  }

  // Being lost already, a pay stays lost by whatever is invoked afterwards.
  lemma StaysLost(h: Hasher, calls: seq<Call>, more: seq<Call>, id: string)
    requires LatePay(Exec(h, EMPTY_WORLD, calls), id)
    ensures LatePay(Exec(h, Exec(h, EMPTY_WORLD, calls), more), id)
  {
    hide *;
    EmptyWorldOk();
    RunKeepsInv(h, EMPTY_WORLD, calls);
    LostForever(h, Exec(h, EMPTY_WORLD, calls), more, id);
  }

  // ---- a late pay ----

  // The genesis account pays two more, with a timestamp before the pay that was pruned.
  function LateRun(h: Hasher, kid: string, con: Con): seq<Call> {
    PrunedRun(h, kid, con, 10, 4) + [Call(Env(kid, T + 1, "5", 0), TxPay(Genesis(h), Personal(h, kid), 2, con))]
  }

  lemma LatePayIsLost(h: Hasher, kid: string, con: Con, more: seq<Call>)
    requires IsKid(kid)
    ensures LatePay(Exec(h, EMPTY_WORLD, LateRun(h, kid, con)), PrintId(T + 1, "5"))
    ensures LatePay(Exec(h, Exec(h, EMPTY_WORLD, LateRun(h, kid, con)), more), PrintId(T + 1, "5"))
  {
    hide IsKid, Step, NewAddress, PrintId, Sole, OwnSigners, Exec, Authorised, Active, MarkTime;
    FirstPayTime();
    if PrintId(T + 1, "5") == FirstPay() {
      IdsInjective(T + 1, "5", T + 2, "3");
    }
    var u := Pruned(h, kid, con, 10, 4);
    var c := Call(Env(kid, T + 1, "5", 0), TxPay(Genesis(h), Personal(h, kid), 2, con));
    PartOfSole(u, Personal(h, kid), kid);
    var w := Pays(h, u, c.env, c.tx);
    OneMore(h, EMPTY_WORLD, PrunedRun(h, kid, con, 10, 4), c, w);
    StaysLost(h, LateRun(h, kid, con), more, PrintId(T + 1, "5"));
  }

  // ---- a refund that is not there ----

  // The merchant pays its ten units away,
  function SpentRun(h: Hasher, kid: string, con: Con): seq<Call> {
    PrunedRun(h, kid, con, 10, 10) + [Call(Env(kid, T + 4, "5", 0), TxPay(Personal(h, kid), Genesis(h), 10, con))]
  }

  // and then refunds them to the first payer.
  function RefundRun(h: Hasher, kid: string, con: Con): seq<Call> {
    SpentRun(h, kid, con) + [Call(Env(kid, T + 5, "6", 0), TxRefund(FirstPay(), 10))]
  }

  lemma DifferentIds()
    ensures FirstPay() != PrintId(T + 4, "5") && FirstPay() != PrintId(T + 5, "6") && PrintId(T + 4, "5") != PrintId(T + 5, "6")
  {
    hide PrintId, SplitTime;
    RoundTrip(T + 2, "3");
    RoundTrip(T + 4, "5");
    RoundTrip(T + 5, "6");
  }

  lemma Spent(h: Hasher, kid: string, con: Con) returns (w: World)
    requires IsKid(kid)
    ensures w == Exec(h, EMPTY_WORLD, SpentRun(h, kid, con)) && InHand(h, kid, w)
    ensures var g, a := Genesis(h), Personal(h, kid);
      && w.balances == map[g := Balance(0, ""), a := Balance(0, FirstPay())]
      && w.pays == map[FirstPay() := PayRec(a, 10, 0, 0, g, "", T + 2, "3"), PrintId(T + 4, "5") := PayRec(g, 10, 0, 0, a, "", T + 4, "5")]
      && w.used == {"1", "2", "3", "4", "5"} && w.logs.Keys <= {(g, T), (g, T + 2), (a, T + 3), (a, T + 4)}
  {
    hide IsKid, Step, NewAddress, PrintId, Sole, OwnSigners, Exec, Authorised, Active;
    var u := Pruned(h, kid, con, 10, 10);
    var c := Call(Env(kid, T + 4, "5", 0), TxPay(Personal(h, kid), Genesis(h), 10, con));
    PartOfSole(u, Genesis(h), kid);
    PartOfSole(u, Personal(h, kid), kid);
    w := Pays(h, u, c.env, c.tx);
    StaysInHand(h, kid, u, w);
    OneMore(h, EMPTY_WORLD, PrunedRun(h, kid, con, 10, 10), c, w);
  }

  // A full refund of a pay without a fee.
  lemma RefundsNow(h: Hasher, w: World, env: Env, id: string) returns (v: World)
    requires Fresh(w, env) && id in w.pays && env.RecordId() != id && MayRefund(w, env, id, w.pays[id].amount)
    requires w.pays[id].fee == 0 && w.pays[id].totalRefund == 0 && w.pays[id].merchant in w.balances && w.pays[id].payer in w.balances
    ensures var p := w.pays[id];
      && Step(h, w, env, TxRefund(id, p.amount)) == Some(v) && Continues(w, v, env, p.payer)
      && v.pays == w.pays[env.RecordId() := PayRec(p.merchant, -p.amount, 0, 0, p.payer, id, env.ts, env.txid)][id := p.(totalRefund := p.amount)]
      && v.balances == w.balances[p.payer := w.balances[p.payer].(amount := w.balances[p.payer].amount + p.amount)]
  {
    hide Apply, Commit, PlanOf, HasHolder, PrintId, Step;
    var b, p := Begin(w, env), w.pays[id];
    StepIs(h, w, env, TxRefund(id, p.amount));
    RefundPlanOf(h, b, env, id, p.amount);
    assert RefundFee(p.amount, p.amount, 0) == 0;
    v := Records(b, PutRefund(env.RecordId(), PayRec(p.merchant, -p.amount, 0, 0, p.payer, id, env.ts, env.txid)),
                 Post(p.payer, RefundLog, ToAccount(p.merchant), p.amount, 0, env.ts));
  }

  lemma Refunded(h: Hasher, kid: string, con: Con) returns (w: World)
    requires IsKid(kid)
    ensures w == Exec(h, EMPTY_WORLD, RefundRun(h, kid, con)) && InHand(h, kid, w)
    ensures var g, a := Genesis(h), Personal(h, kid);
      && w.balances == map[g := Balance(10, ""), a := Balance(0, FirstPay())]
      && w.pays == map[FirstPay() := PayRec(a, 10, 0, 10, g, "", T + 2, "3"), PrintId(T + 4, "5") := PayRec(g, 10, 0, 0, a, "", T + 4, "5"),
                       PrintId(T + 5, "6") := PayRec(a, -10, 0, 0, g, FirstPay(), T + 5, "6")]
      && w.used == {"1", "2", "3", "4", "5", "6"} && (a, T + 6) !in w.logs
  {
    hide IsKid, Step, NewAddress, PrintId, Sole, OwnSigners, Exec, Authorised, Active;
    DifferentIds();
    var u := Spent(h, kid, con);
    var c := Call(Env(kid, T + 5, "6", 0), TxRefund(FirstPay(), 10));
    PartOfSole(u, Genesis(h), kid);
    PartOfSole(u, Personal(h, kid), kid);
    w := RefundsNow(h, u, c.env, FirstPay());
    StaysInHand(h, kid, u, w);
    OneMore(h, EMPTY_WORLD, SpentRun(h, kid, con), c, w);
  }

  // No fee is charged anywhere in this run, so all rates are at most one; pruning the
  // refund leaves the merchant with minus ten.
  lemma RefundOverdraws(h: Hasher, kid: string, con: Con)
    requires IsKid(kid)
    ensures RunHas(RatesUpToOne, h, EMPTY_WORLD, RefundRun(h, kid, con))
    ensures var w, a := Exec(h, EMPTY_WORLD, RefundRun(h, kid, con)), Personal(h, kid);
      var env, tx := Env(kid, T + 6, "7", 0), TxPayPrune(a, false, None, [PrintId(T + 5, "6")]);
      && Step(h, w, env, tx).Some? && a in w.balances && w.balances[a].amount == 0
      && a in Step(h, w, env, tx).value.balances && Step(h, w, env, tx).value.balances[a].amount == -10
  {
    hide IsKid, Step, NewAddress, PrintId, Sole, OwnSigners, Exec, Authorised, Active, WatermarkStart, SeqSum, RunHas;
    DifferentIds();
    FirstPayTime();
    var w := Refunded(h, kid, con);
    var a, id := Personal(h, kid), PrintId(T + 5, "6");
    PartOfSole(w, a, kid);
    assert Listing(PayRecs(w.pays), a, T + 2, T + 6, [id]) by { assert [id][0] == id; }
    OneRecord(w.pays, id);
    var v := PrunesNow(h, w, Env(kid, T + 6, "7", 0), a, [id]);
    NoRates(h, kid, con);
  }

  lemma NoRates(h: Hasher, kid: string, con: Con)
    ensures RunHas(RatesUpToOne, h, EMPTY_WORLD, RefundRun(h, kid, con))
  {
    hide Exec, NewAddress;
  }

  // ---- a batch that ends in the middle of an instant ----

  // A shop opens an account. It is paid 901 times, one unit each, in 900 instants: the
  // last two pays come from the two accounts of kid at one nanosecond.
  function ShopRun(h: Hasher, kid: string, shop: string, con: Con, n: nat): seq<Call> {
    if n == 0 then PrunedRun(h, kid, con, 1000, 1) + [Call(Env(shop, T + 4, "5", 0), TxAccountCreate("AAA", false))]
    else ShopRun(h, kid, shop, con, n - 1) + [OrderCall(h, kid, shop, con, n - 1)]
  }

  function OrderCall(h: Hasher, kid: string, shop: string, con: Con, i: nat): Call {
    Call(Env(kid, OrderTime(i), OrderTx(i), 0), TxPay(Buyer(h, kid, i), Personal(h, shop), 1, con))
  }

  function Buyer(h: Hasher, kid: string, i: nat): Address {
    if i < PRUNE_SIZE then Genesis(h) else Personal(h, kid)
  }

  function OrderTime(i: nat): nat {
    if i < PRUNE_SIZE then T + 10 + i else T + 9 + PRUNE_SIZE
  }

  function OrderTx(i: nat): string {
    seq(i + 10, _ => 'x')
  }

  function OrderId(i: nat): string {
    PrintId(OrderTime(i), OrderTx(i))
  }

  function OrderIds(n: nat): (ids: seq<string>)
    ensures |ids| == n && forall i :: 0 <= i < n ==> ids[i] == OrderId(i)
  {
    seq(n, i requires 0 <= i < n => OrderId(i))
  }

  // It prunes them all, as listed.
  function CutRun(h: Hasher, kid: string, shop: string, con: Con): seq<Call> {
    ShopRun(h, kid, shop, con, PRUNE_SIZE + 1)
    + [Call(Env(shop, T + 2000, OrderTx(PRUNE_SIZE + 1), 0), TxPayPrune(Personal(h, shop), false, None, OrderIds(PRUNE_SIZE + 1)))]
  }

  lemma OrderIdsDiffer(i: nat, j: nat)
    requires i != j && i <= PRUNE_SIZE && j <= PRUNE_SIZE
    ensures OrderId(i) != OrderId(j) && OrderId(i) != FirstPay()
  {
    hide PrintId;
    if OrderId(i) == OrderId(j) {
      IdsInjective(OrderTime(i), OrderTx(i), OrderTime(j), OrderTx(j));
      assert |OrderTx(i)| == i + 10;
    }
    if OrderId(i) == FirstPay() {
      IdsInjective(OrderTime(i), OrderTx(i), T + 2, "3");
    }
  }

  // The shop's account: nothing pruned, nothing logged since it was opened.
  ghost predicate Shop(w: World, m: Address, shop: string) {
    && m.code == "AAA" && Authorised(w, m, shop) && Active(w, m) && m in w.balances && w.balances[m].mark == ""
    && forall k :: k in w.logs && k.0 == m ==> k.1 < T + 10
  }

  // The buyer of the next order has a unit left and no log entry at its instant.
  ghost predicate CanBuy(w: World, g: Address, a: Address, n: nat) {
    && g in w.balances && a in w.balances
    && w.balances[g].amount + n >= PRUNE_SIZE && (n <= PRUNE_SIZE ==> w.balances[a].amount >= 1)
    && (forall k :: k in w.logs && k.0 == g ==> k.1 < T + 10 + n)
    && (n <= PRUNE_SIZE ==> forall k :: k in w.logs && k.0 == a ==> k.1 < T + 10)
    && (forall t :: t in w.used ==> |t| < n + 10)
  }

  ghost predicate Ordered(h: Hasher, kid: string, pays: map<string, PayRec>, m: Address, n: nat) {
    && pays.Keys == {FirstPay()} + Elements(OrderIds(n)) && pays[FirstPay()].merchant != m
    && forall i :: 0 <= i < n ==> OrderId(i) in pays && pays[OrderId(i)] == PayRec(m, 1, 0, 0, Buyer(h, kid, i), "", OrderTime(i), OrderTx(i))
  }

  ghost predicate Busy(h: Hasher, kid: string, shop: string, w: World, n: nat) {
    var g, a, m := Genesis(h), Personal(h, kid), Personal(h, shop);
    && InHand(h, kid, w) && m != g && m != a && Shop(w, m, shop)
    && CanBuy(w, g, a, n) && Ordered(h, kid, w.pays, m, n) && w.prunedPays == {FirstPay()}
  }

  lemma ShopOpens(h: Hasher, kid: string, shop: string, con: Con) returns (w: World)
    requires IsKid(kid) && IsKid(shop) && kid != shop
    ensures w == Exec(h, EMPTY_WORLD, ShopRun(h, kid, shop, con, 0)) && Busy(h, kid, shop, w, 0)
  {
    hide IsKid, Step, NewAddress, PrintId, Exec, ID, ValidateTokenCode, InHand, CanBuy, Ordered, Shop;
    var c := Call(Env(shop, T + 4, "5", 0), TxAccountCreate("AAA", false));
    var u := Pruned(h, kid, con, 1000, 1);
    Parties(h, kid);
    Parties(h, shop);
    ValidCode("AAA");
    assert Admissible(u, c.env, c.tx) && "AAA" in u.tokens by { PartOfHand(h, kid, u); }
    w := Opens(h, u, c.env, "AAA");
    OneMore(h, EMPTY_WORLD, PrunedRun(h, kid, con, 1000, 1), c, w);
    ShopOpened(h, kid, shop, u, w);
    BuyersReady(h, kid, w);
  }

  lemma PartOfHand(h: Hasher, kid: string, w: World)
    requires InHand(h, kid, w)
    ensures "AAA" in w.tokens && w.contracts == map[]
  {
    hide Sole, NewAddress;
  }

  lemma BuyersReady(h: Hasher, kid: string, w: World)
    requires var g, a := Genesis(h), Personal(h, kid);
      && g != a && g in w.balances && a in w.balances && w.balances[g].amount == 999 && w.balances[a].amount == 1
      && w.logs.Keys <= {(g, T), (g, T + 2), (a, T + 3)} && w.used == {"1", "2", "3", "4", "5"}
    ensures CanBuy(w, Genesis(h), Personal(h, kid), 0)
  {
    hide NewAddress;
  }

  lemma ShopOpened(h: Hasher, kid: string, shop: string, u: World, w: World)
    requires InHand(h, kid, u) && Personal(h, shop) !in u.accounts
    requires u.balances.Keys == u.accounts.Keys
    requires w.accounts == u.accounts[Personal(h, shop) := Account({}, false)] && w.balances == u.balances[Personal(h, shop) := Balance(0, "")]
    requires w.tokens == u.tokens && w.contracts == u.contracts
    requires Personal(h, shop).code == "AAA" && Personal(h, shop).kind == PERSONAL && ID(Personal(h, shop)) == shop
    requires forall k :: k in w.logs ==> k.0 != Personal(h, shop)
    requires u.pays.Keys == {FirstPay()} && u.pays[FirstPay()].merchant == Personal(h, kid) && w.pays == u.pays
    ensures InHand(h, kid, w) && Shop(w, Personal(h, shop), shop) && Ordered(h, kid, w.pays, Personal(h, shop), 0)
  {
    hide NewAddress, ID, PrintId, SplitTime;
    assert OrderIds(0) == [];
  }

  // What one order does to the buyers, to the records and to the shop.
  lemma OrderPaid(w: World, v: World, env: Env, b: Address, g: Address, a: Address, n: nat)
    requires n <= PRUNE_SIZE && CanBuy(w, g, a, n) && g != a && b == (if n < PRUNE_SIZE then g else a)
    requires env.ts == OrderTime(n) && env.txid == OrderTx(n) && Continues(w, v, env, b)
    requires v.balances == w.balances[b := w.balances[b].(amount := w.balances[b].amount - 1)]
    ensures CanBuy(v, g, a, n + 1)
  {
  }

  lemma OrderRecorded(h: Hasher, kid: string, pays: map<string, PayRec>, m: Address, n: nat)
    requires n <= PRUNE_SIZE && Ordered(h, kid, pays, m, n)
    ensures Ordered(h, kid, pays[OrderId(n) := PayRec(m, 1, 0, 0, Buyer(h, kid, n), "", OrderTime(n), OrderTx(n))], m, n + 1)
  {
    hide OrderId, Personal, OrderTime, OrderTx;
    OrderIdsDiffer(n, if n == 0 then 1 else 0);
    forall i | 0 <= i < n ensures OrderId(i) != OrderId(n) {
      OrderIdsDiffer(i, n);
    }
    assert OrderIds(n + 1) == OrderIds(n) + [OrderId(n)];
  }

  lemma ShopWaits(w: World, v: World, env: Env, b: Address, m: Address, shop: string)
    requires Shop(w, m, shop) && b in w.balances && b != m && Continues(w, v, env, b)
    requires v.balances == w.balances[b := w.balances[b].(amount := w.balances[b].amount - 1)]
    ensures Shop(v, m, shop)
  {
    hide HasHolder;
  }

  lemma OneOrder(h: Hasher, kid: string, shop: string, con: Con, w: World, n: nat) returns (v: World)
    requires n <= PRUNE_SIZE && Busy(h, kid, shop, w, n)
    ensures var c := OrderCall(h, kid, shop, con, n); Step(h, w, c.env, c.tx) == Some(v)
    ensures Busy(h, kid, shop, v, n + 1)
  {
    hide Step, NewAddress, PrintId, OwnSigners, Authorised, Active, Ordered, OrderIds;
    var c := OrderCall(h, kid, shop, con, n);
    v := Pays(h, w, c.env, c.tx);
    StaysInHand(h, kid, w, v);
    OrderPaid(w, v, c.env, c.tx.sender, Genesis(h), Personal(h, kid), n);
    OrderRecorded(h, kid, w.pays, c.tx.receiver, n);
    ShopWaits(w, v, c.env, c.tx.sender, c.tx.receiver, shop);
  }

  lemma {:induction false} Orders(h: Hasher, kid: string, shop: string, con: Con, n: nat) returns (w: World)
    requires IsKid(kid) && IsKid(shop) && kid != shop && n <= PRUNE_SIZE + 1
    ensures w == Exec(h, EMPTY_WORLD, ShopRun(h, kid, shop, con, n)) && Busy(h, kid, shop, w, n)
  {
    hide IsKid, Step, Exec, Busy, OrderCall;
    if n == 0 {
      w := ShopOpens(h, kid, shop, con);
    } else {
      var u := Orders(h, kid, shop, con, n - 1);
      w := OneOrder(h, kid, shop, con, u, n - 1);
      OneMore(h, EMPTY_WORLD, ShopRun(h, kid, shop, con, n - 1), OrderCall(h, kid, shop, con, n - 1), w);
    }
  }

  lemma OrdersListed(h: Hasher, kid: string, pays: map<string, PayRec>, m: Address)
    requires Ordered(h, kid, pays, m, PRUNE_SIZE + 1)
    ensures Listing(PayRecs(pays), m, 0, T + 2000, OrderIds(PRUNE_SIZE + 1))
  {
    hide PrintId;
    var ids := OrderIds(PRUNE_SIZE + 1);
    forall i, j | 0 <= i < j < |ids| ensures ids[i] != ids[j] {
      OrderIdsDiffer(i, j);
    }
  }

  // Pruned with 900 of the 901, the last one is lost.
  lemma CutPayIsLost(h: Hasher, kid: string, shop: string, con: Con, more: seq<Call>)
    requires IsKid(kid) && IsKid(shop) && kid != shop
    ensures LatePay(Exec(h, EMPTY_WORLD, CutRun(h, kid, shop, con)), OrderId(PRUNE_SIZE))
    ensures LatePay(Exec(h, Exec(h, EMPTY_WORLD, CutRun(h, kid, shop, con)), more), OrderId(PRUNE_SIZE))
  {
    hide IsKid, Exec, LatePay, NewAddress, PrintId, OrderIds;
    var v := CutPrune(h, kid, shop, con);
    StaysLost(h, CutRun(h, kid, shop, con), more, OrderId(PRUNE_SIZE));
  }

  lemma CutPrune(h: Hasher, kid: string, shop: string, con: Con) returns (v: World)
    requires IsKid(kid) && IsKid(shop) && kid != shop
    ensures v == Exec(h, EMPTY_WORLD, CutRun(h, kid, shop, con)) && LatePay(v, OrderId(PRUNE_SIZE))
  {
    hide IsKid, Step, NewAddress, PrintId, OrderId, OrderIds, OwnSigners, Exec, Authorised, Active, InHand, SeqSum, LatePay, Ordered, Listing, Batch;
    var w := Orders(h, kid, shop, con, PRUNE_SIZE + 1);
    var m, order, env := Personal(h, shop), OrderIds(PRUNE_SIZE + 1), Env(shop, T + 2000, OrderTx(PRUNE_SIZE + 1), 0);
    OrdersListed(h, kid, w.pays, m);
    v := PrunesNow(h, w, env, m, order);
    OneMore(h, EMPTY_WORLD, ShopRun(h, kid, shop, con, PRUNE_SIZE + 1), Call(env, TxPayPrune(m, false, None, order)), v);
    LastIsCut(h, kid, v, m);
  }

  lemma LastIsCut(h: Hasher, kid: string, v: World, m: Address)
    requires Ordered(h, kid, v.pays, m, PRUNE_SIZE + 1) && v.prunedPays == {FirstPay()} + Elements(Batch(OrderIds(PRUNE_SIZE + 1)))
    requires m in v.balances && v.balances[m].mark == Last(Batch(OrderIds(PRUNE_SIZE + 1)))
    ensures LatePay(v, OrderId(PRUNE_SIZE))
  {
    hide PrintId, SplitTime, OrderTx;
    var ids := OrderIds(PRUNE_SIZE + 1);
    RoundTrip(OrderTime(PRUNE_SIZE - 1), OrderTx(PRUNE_SIZE - 1));
    IdNotEmpty(OrderTime(PRUNE_SIZE - 1), OrderTx(PRUNE_SIZE - 1));
    forall i | 0 <= i < PRUNE_SIZE ensures OrderId(i) != OrderId(PRUNE_SIZE) {
      OrderIdsDiffer(i, PRUNE_SIZE);
    }
    OrderIdsDiffer(PRUNE_SIZE, 0);
  }
}
