/**
  What holds in every reachable state, field group by field group, and why each
  elementary effect keeps it when its enabling condition holds.
 */
module Invariants {
  import opened Sums
  import opened Addresses
  import opened RecordIds
  import opened FeeFormulas
  import opened Pruning
  import opened Ledger

  // ---- documents are where they belong ----

  ghost predicate PendingOk(used: set<string>, balances: map<Address, Balance>, contracts: map<string, Doc>, id: string, p: Pending) {
    && id in used && p.account in balances && p.amount > 0 && FeePart(p.fee) >= 0
    && (p.custody == AccountHeld ==> p.fee.None?)
    && (p.custody == ContractHeld ==> Backed(balances, contracts, id, p))
  }

  // A contract-held balance is named by exactly the document its contract carries;
  // only transfers hold a fee.
  ghost predicate Backed(balances: map<Address, Balance>, contracts: map<string, Doc>, id: string, p: Pending) {
    && p.rid.ToId? && p.rid.id in contracts
    && var doc := contracts[p.rid.id];
       && doc.Money() && doc.pb == id && doc.sender == p.account
       && (doc.DocWrap? || (doc.receiver.code == p.account.code && doc.receiver in balances))
       && (doc.DocTransfer? || p.fee.None?)
  }

  ghost predicate PayOk(used: set<string>, balances: map<Address, Balance>, id: string, p: PayRec) {
    InRange(p.created) && id == PrintId(p.created, p.tx) && p.tx in used && p.merchant in balances && p.payer in balances && p.amount != 0
  }

  ghost predicate FeeOk(used: set<string>, balances: map<Address, Balance>, id: string, f: FeeRec) {
    InRange(f.created) && id == PrintId(f.created, f.tx) && f.tx in used && f.account in balances && f.code == f.account.code && f.amount != 0
  }

  ghost predicate WrapOk(used: set<string>, balances: map<Address, Balance>, completed: map<string, Address>, id: string, wr: WrapRec) {
    id in used && id != "" && wr.address in balances && wr.amount > 0 && (wr.completeTx != "" <==> id in completed)
  }

  ghost predicate TokenOk(balances: map<Address, Balance>, code: string, t: Token) {
    t.genesis in balances && t.genesis.code == code && t.supply <= t.maxSupply
  }

  ghost predicate PendingsOk(used: set<string>, balances: map<Address, Balance>, contracts: map<string, Doc>, pendings: map<string, Pending>) {
    forall id :: id in pendings ==> PendingOk(used, balances, contracts, id, pendings[id])
  }

  ghost predicate PaysOk(used: set<string>, balances: map<Address, Balance>, pays: map<string, PayRec>) {
    forall id :: id in pays ==> PayOk(used, balances, id, pays[id])
  }

  ghost predicate FeesOk(used: set<string>, balances: map<Address, Balance>, fees: map<string, FeeRec>) {
    forall id :: id in fees ==> FeeOk(used, balances, id, fees[id])
  }

  ghost predicate WrapsOk(used: set<string>, balances: map<Address, Balance>, completed: map<string, Address>, wraps: map<string, WrapRec>) {
    && (forall id :: id in wraps ==> WrapOk(used, balances, completed, id, wraps[id]))
    && (forall id :: id in completed ==> id in wraps)
  }

  ghost predicate TokensOk(balances: map<Address, Balance>, tokens: map<string, Token>) {
    forall code :: code in tokens ==> TokenOk(balances, code, tokens[code])
  }

  // Token contracts carry the non-negative answers of the token chaincode; the
  // accounts a contract names exist.
  ghost predicate DocOk(balances: map<Address, Balance>, doc: Doc) {
    && (doc.DocMint? ==> doc.amount >= 0) && (doc.DocBurn? ==> doc.amount >= 0)
    && (doc.DocTransfer? || doc.DocPay? ==> doc.sender in balances && doc.receiver in balances)
    && (doc.DocWrap? ==> doc.sender in balances)
    && (doc.DocHolderAdd? || doc.DocHolderRemove? ==> doc.account in balances)
  }

  ghost predicate ContractsOk(balances: map<Address, Balance>, contracts: map<string, Doc>) {
    forall cid :: cid in contracts ==> DocOk(balances, contracts[cid])
  }

  ghost predicate DocumentsOk(w: World) {
    && ContractsOk(w.balances, w.contracts)
    && w.accounts.Keys == w.balances.Keys
    && PendingsOk(w.used, w.balances, w.contracts, w.pendings)
    && PaysOk(w.used, w.balances, w.pays)
    && FeesOk(w.used, w.balances, w.fees)
    && WrapsOk(w.used, w.balances, w.completed, w.wraps)
    && TokensOk(w.balances, w.tokens)
  }

  // ---- balances replay from their logs ----

  ghost function Replay(journal: seq<LogKey>, logs: map<LogKey, Log>, a: Address): int {
    if journal == [] then 0
    else
      var k := journal[|journal| - 1];
      Replay(journal[..|journal| - 1], logs, a)
      + if k.0 == a && k in logs then logs[k].diff - logs[k].fee else 0
  }

  ghost predicate JournalOk(balances: map<Address, Balance>, logs: map<LogKey, Log>, journal: seq<LogKey>) {
    && NoRepeats(journal)
    && (forall k :: k in logs <==> k in journal)
    && (forall k :: k in logs ==> k.0 in balances)
  }

  ghost predicate BalancesReplay(balances: map<Address, Balance>, logs: map<LogKey, Log>, journal: seq<LogKey>) {
    forall a :: a in balances ==> balances[a].amount == Replay(journal, logs, a)
  }

  // The log at position i shows the balance as it was right after its own step.
  ghost predicate ShowsBalance(logs: map<LogKey, Log>, journal: seq<LogKey>, i: nat)
    requires i < |journal|
  {
    journal[i] in logs && logs[journal[i]].amount == Replay(journal[..i + 1], logs, journal[i].0)
  }

  ghost predicate LogsOk(balances: map<Address, Balance>, logs: map<LogKey, Log>, journal: seq<LogKey>) {
    && JournalOk(balances, logs, journal)
    && BalancesReplay(balances, logs, journal)
    && (forall i: nat :: i < |journal| ==> ShowsBalance(logs, journal, i))
  }

  // ---- refunds ----

  ghost function Children(pays: map<string, PayRec>, id: string): map<string, int> {
    map k | k in pays :: if pays[k].parent == id then -pays[k].amount else 0
  }

  ghost predicate RefundOk(pays: map<string, PayRec>, id: string)
    requires id in pays
  {
    var p := pays[id];
    && p.amount != 0 && p.totalRefund == Sum(Children(pays, id))
    && (p.amount > 0 ==> p.parent == "" && p.fee >= 0 && 0 <= p.totalRefund <= p.amount)
    && (p.amount < 0 ==> p.totalRefund == 0 && IsRefundOf(pays, p))
  }

  ghost predicate IsRefundOf(pays: map<string, PayRec>, p: PayRec) {
    && p.parent in pays && p.parent != "" && pays[p.parent].amount > 0
    && p.merchant == pays[p.parent].merchant && p.payer == pays[p.parent].payer
    && -p.fee == RefundFee(-p.amount, pays[p.parent].amount, pays[p.parent].fee)
  }

  ghost predicate RefundsOk(pays: map<string, PayRec>) {
    "" !in pays && forall id :: id in pays ==> RefundOk(pays, id)
  }

  // ---- watermarks ----

  ghost function MarkTime(mark: string): int {
    if WatermarkStart(mark).Some? then WatermarkStart(mark).value else 0
  }

  ghost predicate MarkOk<O>(recs: map<string, Rec<O>>, counted: set<string>, owner: O, mark: string) {
    (mark == "" || (mark in recs && recs[mark].owner == owner)) && CountedBelow(recs, counted, owner, MarkTime(mark))
  }

  ghost predicate PayMarksOk(balances: map<Address, Balance>, pays: map<string, PayRec>, pruned: set<string>) {
    && (forall id :: id in pruned ==> id in pays)
    && (forall a :: a in balances ==> MarkOk(PayRecs(pays), pruned, a, balances[a].mark))
  }

  ghost predicate FeeMarksOk(w: World) {
    && (forall id :: id in w.prunedFees ==> id in w.fees)
    && (forall code :: MarkOk(FeeRecs(w.fees), w.prunedFees.Keys, code, FeeMark(w, code)))
  }

  // ---- shortfall ----

  // What pruned records have taken from their merchant, and negative fee records
  // from the target they were pruned into.
  function PayLoss(pays: map<string, PayRec>, a: Address): map<string, int> {
    map id | id in pays :: if pays[id].merchant == a then Max0(pays[id].fee - pays[id].amount) else 0
  }

  function FeeLoss(fees: map<string, FeeRec>): map<string, int> {
    map id | id in fees :: Max0(-fees[id].amount)
  }

  function PrunedInto(pruned: map<string, Address>, a: Address): set<string> {
    set id | id in pruned && pruned[id] == a
  }

  ghost function PayShort(pays: map<string, PayRec>, pruned: set<string>, a: Address): int {
    Sum(Inside(PayLoss(pays, a), pruned))
  }

  ghost function FeeShort(fees: map<string, FeeRec>, pruned: map<string, Address>, a: Address): int {
    Sum(Inside(FeeLoss(fees), PrunedInto(pruned, a)))
  }

  ghost function Shortfall(w: World, a: Address): int {
    PayShort(w.pays, w.prunedPays, a) + FeeShort(w.fees, w.prunedFees, a)
  }

  ghost predicate ShortfallOk(w: World) {
    forall a :: a in w.balances ==> w.balances[a].amount + Shortfall(w, a) >= 0
  }

  // ---- holders ----

  ghost predicate HoldersOk(accounts: map<Address, Account>, holders: set<(string, Address)>) {
    && (forall k, a :: (k, a) in holders ==> a in accounts)
    && (forall k, a :: a in accounts && a.kind == JOINT ==> ((k, a) in holders <==> k in accounts[a].holders))
  }

  // ---- everything ----

  ghost predicate Inv(w: World) {
    && DocumentsOk(w)
    && LogsOk(w.balances, w.logs, w.journal)
    && RefundsOk(w.pays)
    && PayMarksOk(w.balances, w.pays, w.prunedPays)
    && FeeMarksOk(w)
    && ShortfallOk(w)
    && HoldersOk(w.accounts, w.holders)
  }

  // ---- when an effect may be applied ----

  ghost predicate NewBatch<O>(recs: map<string, Rec<O>>, counted: set<string>, owner: O, mark: string, ids: seq<string>) {
    && ids != [] && NoRepeats(ids)
    && (forall id :: id in ids ==> id in recs && id !in counted && recs[id].owner == owner)
    && MarkTime(mark) < recs[Last(ids)].created
    && CountedBelow(recs, counted + Elements(ids), owner, recs[Last(ids)].created)
  }

  ghost predicate Enabled(w: World, e: Effect) {
    && (e.Post? ==> e.a in w.balances && w.balances[e.a].amount + e.diff - e.logFee + Shortfall(w, e.a) >= 0)
    && (e.PutPending? ==> e.pid !in w.pendings && PendingOk(w.used, w.balances, w.contracts, e.pid, e.p))
    && (e.DropPending? ==> e.pid in w.pendings)
    && (e.PutPay? ==> e.id !in w.pays && PayOk(w.used, w.balances, e.id, e.pay) && IsPlainPay(e.pay))
    && (e.PutRefund? ==> e.id !in w.pays && PayOk(w.used, w.balances, e.id, e.pay) && IsNewRefund(w.pays, e.pay))
    && (e.PutFee? ==> e.id !in w.fees && FeeOk(w.used, w.balances, e.id, e.fee))
    && (e.PutWrap? ==> e.id !in w.wraps && WrapOk(w.used, w.balances, w.completed, e.id, e.wrap) && e.wrap.completeTx == "")
    && (e.CloseWrap? ==> e.id in w.wraps && w.wraps[e.id].completeTx == "" && e.completeTx != "")
    && (e.PutUnwrap? ==> e.ext !in w.unwraps)
    && (e.PutToken? ==> TokenOk(w.balances, e.code, e.token) && (e.code in w.feeMarks || FeeMark(w, e.code) == e.token.legacyMark))
    && (e.MarkPays? ==> e.a in w.balances && NewBatch(PayRecs(w.pays), w.prunedPays, e.a, w.balances[e.a].mark, e.ids))
    && (e.MarkFees? ==> NewBatch(FeeRecs(w.fees), w.prunedFees.Keys, e.code, FeeMark(w, e.code), e.ids))
    && (e.PutContract? ==> e.cid !in w.contracts && DocOk(w.balances, e.doc))
    && (e.OpenAccount? ==> e.a !in w.accounts && (e.a.kind == JOINT ==> e.kids == e.acc.holders))
    && (e.SetSuspended? || e.AddHolder? || e.DropHolder? ==> e.a in w.accounts)
  }

  ghost predicate IsPlainPay(p: PayRec) {
    p.amount > 0 && p.fee >= 0 && p.totalRefund == 0 && p.parent == ""
  }

  ghost predicate IsNewRefund(pays: map<string, PayRec>, p: PayRec) {
    && p.amount < 0 && p.totalRefund == 0 && IsRefundOf(pays, p)
    && pays[p.parent].totalRefund - p.amount <= pays[p.parent].amount
  }

  ghost predicate PlanOk(w: World, plan: Plan)
    decreases plan
  {
    match plan
    case Done => true
    case Then(e, rest) => Accepted(w, e) ==> Enabled(w, e) && PlanOk(Apply(w, e), rest)
  }

  // ---- each group is kept by each effect ----

  lemma OwnersGrow(w: World, e: Effect)
    ensures forall a :: a in w.balances ==> a in Apply(w, e).balances
    ensures Apply(w, e).used == w.used
  {
  }

  lemma KeepOwners(w: World, e: Effect)
    requires w.accounts.Keys == w.balances.Keys && Accepted(w, e) && Enabled(w, e)
    ensures Apply(w, e).accounts.Keys == Apply(w, e).balances.Keys
  {
  }

  lemma KeepPendings(w: World, e: Effect)
    requires PendingsOk(w.used, w.balances, w.contracts, w.pendings) && Enabled(w, e)
    ensures var v := Apply(w, e); PendingsOk(v.used, v.balances, v.contracts, v.pendings)
  {
    var v := Apply(w, e);
    OwnersGrow(w, e);
    assert forall cid :: cid in w.contracts ==> cid in v.contracts && v.contracts[cid] == w.contracts[cid];
    forall id | id in v.pendings ensures PendingOk(v.used, v.balances, v.contracts, id, v.pendings[id]) {
      assert PendingOk(w.used, w.balances, w.contracts, id, v.pendings[id]);
    }
  }

  lemma KeepPays(w: World, e: Effect)
    requires PaysOk(w.used, w.balances, w.pays) && Enabled(w, e)
    ensures PaysOk(w.used, Apply(w, e).balances, Apply(w, e).pays)
  {
    var v := Apply(w, e);
    OwnersGrow(w, e);
    forall id | id in v.pays ensures PayOk(w.used, v.balances, id, v.pays[id]) {
      if id in w.pays { assert PayOk(w.used, w.balances, id, w.pays[id]); }
    }
  }

  lemma KeepFees(w: World, e: Effect)
    requires FeesOk(w.used, w.balances, w.fees) && Enabled(w, e)
    ensures FeesOk(w.used, Apply(w, e).balances, Apply(w, e).fees)
  {
    OwnersGrow(w, e);
  }

  lemma KeepContracts(w: World, e: Effect)
    requires ContractsOk(w.balances, w.contracts) && Enabled(w, e)
    ensures ContractsOk(Apply(w, e).balances, Apply(w, e).contracts)
  {
    OwnersGrow(w, e);
  }

  lemma KeepWraps(w: World, e: Effect)
    requires WrapsOk(w.used, w.balances, w.completed, w.wraps) && Enabled(w, e)
    ensures WrapsOk(w.used, Apply(w, e).balances, Apply(w, e).completed, Apply(w, e).wraps)
  {
    OwnersGrow(w, e);
  }

  lemma KeepTokens(w: World, e: Effect)
    requires TokensOk(w.balances, w.tokens) && Enabled(w, e)
    ensures TokensOk(Apply(w, e).balances, Apply(w, e).tokens)
  {
    OwnersGrow(w, e);
  }

  lemma KeepDocuments(w: World, e: Effect)
    requires DocumentsOk(w) && Accepted(w, e) && Enabled(w, e)
    ensures DocumentsOk(Apply(w, e))
  {
    OwnersGrow(w, e);
    KeepOwners(w, e);
    KeepPendings(w, e);
    KeepPays(w, e);
    KeepFees(w, e);
    KeepContracts(w, e);
    KeepWraps(w, e);
    KeepTokens(w, e);
  }

  lemma {:induction false} ReplayFrame(journal: seq<LogKey>, logs: map<LogKey, Log>, k: LogKey, log: Log, a: Address)
    requires k !in journal
    ensures Replay(journal, logs[k := log], a) == Replay(journal, logs, a)
  {
    if journal != [] {
      ReplayFrame(journal[..|journal| - 1], logs, k, log, a);
      assert journal[|journal| - 1] in journal;
    }
  }

  lemma {:induction false} ReplayNothing(journal: seq<LogKey>, logs: map<LogKey, Log>, a: Address)
    requires forall k :: k in journal ==> k.0 != a
    ensures Replay(journal, logs, a) == 0
  {
    if journal != [] {
      ReplayNothing(journal[..|journal| - 1], logs, a);
      assert journal[|journal| - 1] in journal;
    }
  }

  lemma ReplayPost(logs: map<LogKey, Log>, journal: seq<LogKey>, k: LogKey, log: Log, a: Address)
    requires k !in journal
    ensures Replay(journal + [k], logs[k := log], a) == Replay(journal, logs, a) + if k.0 == a then log.diff - log.fee else 0
  {
    assert (journal + [k])[..|journal + [k]| - 1] == journal;
    ReplayFrame(journal, logs, k, log, a);
  }

  lemma ShownPost(logs: map<LogKey, Log>, journal: seq<LogKey>, k: LogKey, log: Log, i: nat)
    requires k !in journal && i < |journal| && ShowsBalance(logs, journal, i)
    ensures ShowsBalance(logs[k := log], journal + [k], i)
  {
    assert (journal + [k])[..i + 1] == journal[..i + 1];
    assert journal[i] in journal;
    ReplayFrame(journal[..i + 1], logs, k, log, journal[i].0);
  }

  lemma JournalPost(balances: map<Address, Balance>, logs: map<LogKey, Log>, journal: seq<LogKey>, k: LogKey, log: Log)
    requires JournalOk(balances, logs, journal) && k !in logs && k.0 in balances
    ensures JournalOk(balances, logs[k := log], journal + [k]) && k !in journal
  {
  }

  lemma KeepLogsPost(balances: map<Address, Balance>, logs: map<LogKey, Log>, journal: seq<LogKey>, k: LogKey, log: Log)
    requires LogsOk(balances, logs, journal) && k.0 in balances && k !in logs
    requires log.amount == balances[k.0].amount + log.diff - log.fee
    ensures LogsOk(balances[k.0 := balances[k.0].(amount := log.amount)], logs[k := log], journal + [k])
  {
    var logs', journal' := logs[k := log], journal + [k];
    var balances' := balances[k.0 := balances[k.0].(amount := log.amount)];
    JournalPost(balances, logs, journal, k, log);
    assert JournalOk(balances', logs', journal');
    forall a | a in balances' ensures balances'[a].amount == Replay(journal', logs', a) {
      ReplayPost(logs, journal, k, log, a);
    }
    forall i: nat | i < |journal'| ensures ShowsBalance(logs', journal', i) {
      if i < |journal| {
        ShownPost(logs, journal, k, log, i);
      } else {
        assert journal'[..i + 1] == journal';
        ReplayPost(logs, journal, k, log, k.0);
      }
    }
  }

  lemma KeepLogsOpen(balances: map<Address, Balance>, logs: map<LogKey, Log>, journal: seq<LogKey>, a: Address)
    requires LogsOk(balances, logs, journal) && a !in balances
    ensures LogsOk(balances[a := Balance(0, "")], logs, journal)
  {
    ReplayNothing(journal, logs, a);
  }

  lemma KeepLogsMark(balances: map<Address, Balance>, logs: map<LogKey, Log>, journal: seq<LogKey>, a: Address, mark: string)
    requires LogsOk(balances, logs, journal) && a in balances
    ensures LogsOk(balances[a := balances[a].(mark := mark)], logs, journal)
  {
  }

  lemma KeepLogs(w: World, e: Effect)
    requires w.accounts.Keys == w.balances.Keys && LogsOk(w.balances, w.logs, w.journal) && Accepted(w, e) && Enabled(w, e)
    ensures var v := Apply(w, e); LogsOk(v.balances, v.logs, v.journal)
  {
    if e.Post? {
      KeepLogsPost(w.balances, w.logs, w.journal, (e.a, e.ts), Apply(w, e).logs[(e.a, e.ts)]);
    } else if e.OpenAccount? {
      KeepLogsOpen(w.balances, w.logs, w.journal, e.a);
    } else if e.MarkPays? {
      KeepLogsMark(w.balances, w.logs, w.journal, e.a, Last(e.ids));
    }
  }

  lemma ChildrenOfNew(pays: map<string, PayRec>, id: string, p: PayRec, parent: string)
    requires id !in pays
    ensures Sum(Children(pays[id := p], parent))
         == Sum(Children(pays, parent)) + if p.parent == parent then -p.amount else 0
  {
    var c := Children(pays, parent);
    assert Children(pays[id := p], parent) == c[id := if p.parent == parent then -p.amount else 0];
    SumPut(c, id, if p.parent == parent then -p.amount else 0);
  }

  lemma KeepPutPay(pays: map<string, PayRec>, id: string, p: PayRec)
    requires RefundsOk(pays) && id !in pays && id != "" && IsPlainPay(p)
    ensures RefundsOk(pays[id := p])
  {
    var after := pays[id := p];
    forall k | k in after ensures RefundOk(after, k) {
      ChildrenOfNew(pays, id, p, k);
      if k != id {
        assert RefundOk(pays, k);
      } else {
        NoChildren(pays, id);
      }
    }
  }

  lemma NoChildren(pays: map<string, PayRec>, id: string)
    requires RefundsOk(pays) && id !in pays && id != ""
    ensures Sum(Children(pays, id)) == 0
  {
    forall k | k in pays ensures pays[k].parent != id {
      assert RefundOk(pays, k);
    }
    SumZero(Children(pays, id));
  }

  lemma ChildrenOfRefund(pays: map<string, PayRec>, id: string, p: PayRec, k: string)
    requires id !in pays && p.parent in pays
    ensures Sum(Children(WithRefund(pays, id, p), k))
         == Sum(Children(pays, k)) + if p.parent == k then -p.amount else 0
  {
    var one := pays[id := p];
    var q := one[p.parent].(totalRefund := one[p.parent].totalRefund - p.amount);
    assert WithRefund(pays, id, p) == one[p.parent := q];
    assert q.parent == one[p.parent].parent && q.amount == one[p.parent].amount;
    assert Children(one[p.parent := q], k) == Children(one, k);
    ChildrenOfNew(pays, id, p, k);
  }

  // One refund adds to the total of its parent and to no other.
  lemma RefundKeepsEach(pays: map<string, PayRec>, id: string, p: PayRec, k: string)
    requires RefundsOk(pays) && id !in pays && id != "" && IsNewRefund(pays, p)
    requires k in pays || k == id
    ensures RefundOk(WithRefund(pays, id, p), k)
  {
    hide Sum, Children, RefundFee;
    ChildrenOfRefund(pays, id, p, k);
    if k == id {
      NoChildren(pays, id);
    } else {
      assert RefundOk(pays, k);
    }
  }

  lemma KeepPutRefund(pays: map<string, PayRec>, id: string, p: PayRec)
    requires RefundsOk(pays) && id !in pays && id != "" && IsNewRefund(pays, p)
    ensures RefundsOk(WithRefund(pays, id, p))
  {
    forall k | k in WithRefund(pays, id, p) ensures RefundOk(WithRefund(pays, id, p), k) {
      RefundKeepsEach(pays, id, p, k);
    }
  }

  lemma KeepRefunds(w: World, e: Effect)
    requires DocumentsOk(w) && RefundsOk(w.pays) && Enabled(w, e)
    ensures RefundsOk(Apply(w, e).pays)
  {
    if e.PutPay? {
      IdNotEmpty(e.pay.created, e.pay.tx);
      KeepPutPay(w.pays, e.id, e.pay);
    } else if e.PutRefund? {
      IdNotEmpty(e.pay.created, e.pay.tx);
      KeepPutRefund(w.pays, e.id, e.pay);
    }
  }

  // The watermark left by a prune reads back as the time of the last record counted.
  lemma MarkTimeOfPay(w: World, id: string)
    requires DocumentsOk(w) && id in w.pays
    ensures id != "" && WatermarkStart(id) == Some(w.pays[id].created) && MarkTime(id) == w.pays[id].created
  {
    assert PayOk(w.used, w.balances, id, w.pays[id]);
    IdNotEmpty(w.pays[id].created, w.pays[id].tx);
    RoundTrip(w.pays[id].created, w.pays[id].tx);
  }

  lemma MarkTimeOfFee(w: World, id: string)
    requires DocumentsOk(w) && id in w.fees
    ensures id != "" && WatermarkStart(id) == Some(w.fees[id].created) && MarkTime(id) == w.fees[id].created
  {
    assert FeeOk(w.used, w.balances, id, w.fees[id]);
    IdNotEmpty(w.fees[id].created, w.fees[id].tx);
    RoundTrip(w.fees[id].created, w.fees[id].tx);
  }

  // Records only join; the counted ones keep their owner and time.
  lemma MarkKept<O>(recs: map<string, Rec<O>>, more: map<string, Rec<O>>, counted: set<string>, owner: O, mark: string)
    requires MarkOk(recs, counted, owner, mark) && forall id :: id in counted ==> id in recs
    requires forall id :: id in recs ==> id in more && more[id].owner == recs[id].owner && more[id].created == recs[id].created
    ensures MarkOk(more, counted, owner, mark)
  {
  }

  lemma MarkMoved<O>(recs: map<string, Rec<O>>, counted: set<string>, owner: O, mark: string, ids: seq<string>)
    requires NewBatch(recs, counted, owner, mark, ids) && MarkTime(Last(ids)) == recs[Last(ids)].created
    ensures MarkOk(recs, counted + Elements(ids), owner, Last(ids))
  {
  }

  lemma MarkOfOther<O>(recs: map<string, Rec<O>>, counted: set<string>, owner: O, mark: string, ids: seq<string>, other: O, otherMark: string)
    requires NewBatch(recs, counted, owner, mark, ids) && other != owner && MarkOk(recs, counted, other, otherMark)
    ensures MarkOk(recs, counted + Elements(ids), other, otherMark)
  {
  }

  lemma NewPayKeepsMarks(w: World, more: map<string, PayRec>)
    requires PayMarksOk(w.balances, w.pays, w.prunedPays)
    requires forall id :: id in w.pays ==> id in more && more[id].merchant == w.pays[id].merchant && more[id].created == w.pays[id].created
    ensures PayMarksOk(w.balances, more, w.prunedPays)
  {
    forall a | a in w.balances ensures MarkOk(PayRecs(more), w.prunedPays, a, w.balances[a].mark) {
      MarkKept(PayRecs(w.pays), PayRecs(more), w.prunedPays, a, w.balances[a].mark);
    }
  }

  lemma BatchKeepsPayMarks(w: World, a: Address, ids: seq<string>)
    requires DocumentsOk(w) && PayMarksOk(w.balances, w.pays, w.prunedPays) && Enabled(w, MarkPays(a, ids))
    ensures PayMarksOk(w.balances[a := w.balances[a].(mark := Last(ids))], w.pays, w.prunedPays + Elements(ids))
  {
    var recs := PayRecs(w.pays);
    assert Last(ids) in ids;
    MarkTimeOfPay(w, Last(ids));
    MarkMoved(recs, w.prunedPays, a, w.balances[a].mark, ids);
    forall b | b in w.balances && b != a ensures MarkOk(recs, w.prunedPays + Elements(ids), b, w.balances[b].mark) {
      MarkOfOther(recs, w.prunedPays, a, w.balances[a].mark, ids, b, w.balances[b].mark);
    }
  }

  lemma OpenKeepsPayMarks(w: World, a: Address)
    requires DocumentsOk(w) && PayMarksOk(w.balances, w.pays, w.prunedPays) && a !in w.balances
    ensures PayMarksOk(w.balances[a := Balance(0, "")], w.pays, w.prunedPays)
  {
    forall id | id in w.pays ensures w.pays[id].merchant != a {
      assert PayOk(w.used, w.balances, id, w.pays[id]);
    }
    assert MarkOk(PayRecs(w.pays), w.prunedPays, a, "");
  }

  lemma PostKeepsPayMarks(w: World, a: Address, amount: int)
    requires PayMarksOk(w.balances, w.pays, w.prunedPays) && a in w.balances
    ensures PayMarksOk(w.balances[a := w.balances[a].(amount := amount)], w.pays, w.prunedPays)
  {
  }

  lemma OwnersMatch(w: World)
    requires DocumentsOk(w)
    ensures w.accounts.Keys == w.balances.Keys
  {
  }

  lemma OldPaysStay(w: World, e: Effect)
    requires Enabled(w, e)
    ensures forall id :: id in w.pays ==>
      id in Apply(w, e).pays && Apply(w, e).pays[id].merchant == w.pays[id].merchant && Apply(w, e).pays[id].created == w.pays[id].created
  {
    hide Shortfall, NewBatch;
  }

  lemma KeepPayMarks(w: World, e: Effect)
    requires DocumentsOk(w) && PayMarksOk(w.balances, w.pays, w.prunedPays) && Enabled(w, e)
    ensures var v := Apply(w, e); PayMarksOk(v.balances, v.pays, v.prunedPays)
  {
    hide MarkOk, SplitTime, Shortfall, DocumentsOk, WithRefund, CountedBelow;
    var v := Apply(w, e);
    if e.PutPay? || e.PutRefund? {
      OldPaysStay(w, e);
      NewPayKeepsMarks(w, v.pays);
    } else if e.MarkPays? {
      BatchKeepsPayMarks(w, e.a, e.ids);
    } else if e.OpenAccount? {
      assert e.a !in w.balances by { assert w.accounts.Keys == w.balances.Keys by { OwnersMatch(w); } }
      OpenKeepsPayMarks(w, e.a);
    } else if e.Post? {
      PostKeepsPayMarks(w, e.a, v.balances[e.a].amount);
    }
  }

  lemma FeeMarksOnly(w: World, v: World)
    requires FeeMarksOk(w) && v.prunedFees == w.prunedFees
    requires forall id :: id in w.fees ==> id in v.fees && v.fees[id].code == w.fees[id].code && v.fees[id].created == w.fees[id].created
    requires forall code :: FeeMark(v, code) == FeeMark(w, code)
    ensures FeeMarksOk(v)
  {
    forall code ensures MarkOk(FeeRecs(v.fees), v.prunedFees.Keys, code, FeeMark(v, code)) {
      MarkKept(FeeRecs(w.fees), FeeRecs(v.fees), w.prunedFees.Keys, code, FeeMark(w, code));
    }
  }

  lemma BatchKeepsFeeMarks(w: World, code: string, ids: seq<string>, a: Address)
    requires DocumentsOk(w) && FeeMarksOk(w) && Enabled(w, MarkFees(code, ids, a))
    ensures FeeMarksOk(Apply(w, MarkFees(code, ids, a)))
  {
    hide DocumentsOk, Shortfall, SplitTime, CountedBelow;
    var v := Apply(w, MarkFees(code, ids, a));
    var recs := FeeRecs(w.fees);
    assert Last(ids) in ids;
    MarkTimeOfFee(w, Last(ids));
    assert v.prunedFees.Keys == w.prunedFees.Keys + Elements(ids);
    MarkMoved(recs, w.prunedFees.Keys, code, FeeMark(w, code), ids);
    OtherFeeMarks(w, code, ids, a);
  }

  lemma OtherFeeMarks(w: World, code: string, ids: seq<string>, a: Address)
    requires FeeMarksOk(w) && Enabled(w, MarkFees(code, ids, a))
    ensures var v := Apply(w, MarkFees(code, ids, a));
            forall c :: c != code ==> MarkOk(FeeRecs(w.fees), w.prunedFees.Keys + Elements(ids), c, FeeMark(v, c))
  {
    hide NewBatch, MarkOk;
    var v := Apply(w, MarkFees(code, ids, a));
    forall c | c != code ensures MarkOk(FeeRecs(w.fees), w.prunedFees.Keys + Elements(ids), c, FeeMark(v, c)) {
      assert FeeMark(v, c) == FeeMark(w, c);
      MarkOfOther(FeeRecs(w.fees), w.prunedFees.Keys, code, FeeMark(w, code), ids, c, FeeMark(w, c));
    }
  }

  lemma KeepFeeMarks(w: World, e: Effect)
    requires DocumentsOk(w) && FeeMarksOk(w) && Enabled(w, e)
    ensures FeeMarksOk(Apply(w, e))
  {
    hide MarkOk, SplitTime, DocumentsOk, Shortfall, NewBatch;
    if e.MarkFees? {
      BatchKeepsFeeMarks(w, e.code, e.ids, e.a);
    } else {
      FeeMarksOnly(w, Apply(w, e));
    }
  }

  lemma ShortfallNotNegative(w: World, a: Address)
    ensures Shortfall(w, a) >= 0
  {
    InsideMonotone(PayLoss(w.pays, a), {}, w.prunedPays);
    InsideMonotone(FeeLoss(w.fees), {}, PrunedInto(w.prunedFees, a));
  }

  // What a batch adds to the shortfall: exactly the losses of its records.
  lemma PayShortBatch(pays: map<string, PayRec>, pruned: set<string>, a: Address, ids: seq<string>)
    requires NoRepeats(ids) && forall id :: id in ids ==> id in pays && id !in pruned
    ensures PayShort(pays, pruned + Elements(ids), a) == PayShort(pays, pruned, a) + SeqSum(PayLoss(pays, a), ids)
  {
    MoveInside(PayLoss(pays, a), pruned, ids);
  }

  lemma FeeShortBatch(fees: map<string, FeeRec>, pruned: map<string, Address>, ids: seq<string>, into: Address, a: Address)
    requires NoRepeats(ids) && forall id :: id in ids ==> id in fees && id !in pruned
    ensures FeeShort(fees, pruned + (map id | id in Elements(ids) :: into), a)
         == FeeShort(fees, pruned, a) + if a == into then SeqSum(FeeLoss(fees), ids) else 0
  {
    hide Sum, Inside;
    var pruned' := pruned + (map id | id in Elements(ids) :: into);
    if a == into {
      assert PrunedInto(pruned', a) == PrunedInto(pruned, a) + Elements(ids);
      MoveInside(FeeLoss(fees), PrunedInto(pruned, a), ids);
    } else {
      assert PrunedInto(pruned', a) == PrunedInto(pruned, a);
    }
  }

  lemma {:induction false} SeqSumNonNegative<K>(m: map<K, int>, ids: seq<K>)
    requires forall k :: k in m ==> 0 <= m[k]
    ensures 0 <= SeqSum(m, ids)
  {
    if ids != [] {
      SeqSumNonNegative(m, ids[..|ids| - 1]);
    }
  }

  lemma PayShortGrows(w: World, e: Effect, a: Address)
    requires Enabled(w, e) && PayMarksOk(w.balances, w.pays, w.prunedPays)
    ensures var v := Apply(w, e);
      && PayShort(v.pays, v.prunedPays, a) >= PayShort(w.pays, w.prunedPays, a)
      && (!e.MarkPays? ==> PayShort(v.pays, v.prunedPays, a) == PayShort(w.pays, w.prunedPays, a))
  {
    hide PayShort, PayLoss, SeqSum, MarkOk, SplitTime;
    var v := Apply(w, e);
    LossesNotNegative(w.pays, w.fees, a);
    if e.PutPay? {
      PayLossOfNew(w.pays, w.prunedPays, e.id, e.pay, a);
    } else if e.PutRefund? {
      PayLossOfRefund(w.pays, w.prunedPays, e.id, e.pay, a);
    } else if e.MarkPays? {
      PayShortBatch(w.pays, w.prunedPays, a, e.ids);
      SeqSumNonNegative(PayLoss(w.pays, a), e.ids);
    }
  }

  lemma FeeShortGrows(w: World, e: Effect, a: Address)
    requires Enabled(w, e) && FeeMarksOk(w)
    ensures var v := Apply(w, e);
      && FeeShort(v.fees, v.prunedFees, a) >= FeeShort(w.fees, w.prunedFees, a)
      && (!e.MarkFees? ==> FeeShort(v.fees, v.prunedFees, a) == FeeShort(w.fees, w.prunedFees, a))
  {
    hide FeeShort, FeeLoss, SeqSum, MarkOk, SplitTime;
    var v := Apply(w, e);
    LossesNotNegative(w.pays, w.fees, a);
    if e.PutFee? {
      FeeLossOfNew(w.fees, w.prunedFees, e.id, e.fee, a);
    } else if e.MarkFees? {
      FeeShortBatch(w.fees, w.prunedFees, e.ids, e.a, a);
      SeqSumNonNegative(FeeLoss(w.fees), e.ids);
    }
  }

  lemma ShortfallGrows(w: World, e: Effect, a: Address)
    requires Enabled(w, e) && PayMarksOk(w.balances, w.pays, w.prunedPays) && FeeMarksOk(w)
    ensures Shortfall(Apply(w, e), a) >= Shortfall(w, a)
    ensures !e.MarkPays? && !e.MarkFees? ==> Shortfall(Apply(w, e), a) == Shortfall(w, a)
  {
    PayShortGrows(w, e, a);
    FeeShortGrows(w, e, a);
  }

  lemma LossesNotNegative(pays: map<string, PayRec>, fees: map<string, FeeRec>, a: Address)
    ensures forall id :: id in PayLoss(pays, a) ==> 0 <= PayLoss(pays, a)[id]
    ensures forall id :: id in FeeLoss(fees) ==> 0 <= FeeLoss(fees)[id]
  {
  }

  lemma PayLossOfNew(pays: map<string, PayRec>, pruned: set<string>, id: string, p: PayRec, a: Address)
    requires id !in pruned
    ensures PayShort(pays[id := p], pruned, a) == PayShort(pays, pruned, a)
  {
    var x := if p.merchant == a then Max0(p.fee - p.amount) else 0;
    assert PayLoss(pays[id := p], a) == PayLoss(pays, a)[id := x];
    InsideIgnores(PayLoss(pays, a), pruned, id, x);
  }

  lemma PayLossOfRefund(pays: map<string, PayRec>, pruned: set<string>, id: string, p: PayRec, a: Address)
    requires id !in pruned && id !in pays && p.parent in pays
    ensures PayShort(WithRefund(pays, id, p), pruned, a) == PayShort(pays, pruned, a)
  {
    PayLossOfNew(pays, pruned, id, p, a);
    assert PayLoss(WithRefund(pays, id, p), a) == PayLoss(pays[id := p], a);
  }

  lemma FeeLossOfNew(fees: map<string, FeeRec>, pruned: map<string, Address>, id: string, f: FeeRec, a: Address)
    requires id !in pruned
    ensures FeeShort(fees[id := f], pruned, a) == FeeShort(fees, pruned, a)
  {
    assert FeeLoss(fees[id := f]) == FeeLoss(fees)[id := Max0(-f.amount)];
    InsideIgnores(FeeLoss(fees), PrunedInto(pruned, a), id, Max0(-f.amount));
  }

  lemma KeepShortfall(w: World, e: Effect)
    requires PayMarksOk(w.balances, w.pays, w.prunedPays) && FeeMarksOk(w) && ShortfallOk(w) && Accepted(w, e) && Enabled(w, e)
    ensures ShortfallOk(Apply(w, e))
  {
    hide Sum, MarkOk, SplitTime, NewBatch, Inside;
    var v := Apply(w, e);
    forall a | a in v.balances ensures v.balances[a].amount + Shortfall(v, a) >= 0 {
      ShortfallGrows(w, e, a);
      ShortfallNotNegative(w, a);
    }
  }

  lemma KeepHolders(w: World, e: Effect)
    requires HoldersOk(w.accounts, w.holders) && Enabled(w, e)
    ensures HoldersOk(Apply(w, e).accounts, Apply(w, e).holders)
  {
  }

  lemma KeepInv(w: World, e: Effect)
    requires Inv(w) && Accepted(w, e) && Enabled(w, e)
    ensures Inv(Apply(w, e))
  {
    KeepDocuments(w, e);
    KeepLogs(w, e);
    KeepRefunds(w, e);
    KeepPayMarks(w, e);
    KeepFeeMarks(w, e);
    KeepShortfall(w, e);
    KeepHolders(w, e);
  }

  lemma {:induction false} KeepInvAll(w: World, plan: Plan)
    requires Inv(w) && PlanOk(w, plan) && Commit(w, plan).Some?
    ensures Inv(Commit(w, plan).value)
    decreases plan
  {
    match plan {
      case Done =>
      case Then(e, rest) =>
        KeepInv(w, e);
        KeepInvAll(Apply(w, e), rest);
    }
  }

  lemma EmptyWorldOk()
    ensures Inv(EMPTY_WORLD)
  {
    forall a | a in EMPTY_WORLD.balances ensures false {
    }
  }
}
