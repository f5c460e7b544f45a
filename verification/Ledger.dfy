/**
  The world state of the chaincode as one value, and the elementary effects a
  transaction composes. Fields marked "history" are not stored by the chaincode;
  they record what has happened so that it can be stated.
 */
module Ledger {
  import opened Sums
  import opened Addresses
  import opened RecordIds
  import opened FeeFormulas
  import opened Pruning

  // ---- documents ----

  datatype LogKind =
    | MintLog | BurnLog | SendLog | ReceiveLog | DepositLog | WithdrawLog | PayLog | RefundLog
    | PrunePayLog | PruneFeeLog | WrapLog | UnwrapLog | WrapCompleteLog | UnwrapCompleteLog

  datatype Ref = NoRef | ToAccount(account: Address) | ToId(id: string)

  // mark is LastPrunedPayID
  datatype Balance = Balance(amount: int, mark: string)

  // fee is 0 where the source leaves it out
  datatype Log = Log(kind: LogKind, rid: Ref, diff: int, fee: int, amount: int)

  datatype Custody = AccountHeld | ContractHeld

  datatype Pending = Pending(custody: Custody, account: Address, rid: Ref, amount: int, fee: Option<int>, pendingTime: int)
  {
    function Worth(): int {
      amount + FeePart(fee)
    }
  }

  function FeePart(fee: Option<int>): int {
    match fee
    case None => 0
    case Some(f) => f
  }

  // tx is the transaction id inside the pay id (history)
  datatype PayRec = PayRec(merchant: Address, amount: int, fee: int, totalRefund: int, payer: Address, parent: string, created: nat, tx: string)

  // tx and cause are history: the transaction, and the kind of step that charged the fee
  datatype FeeCause = TransferFee | PayFee | WrapFee
  datatype FeeRec = FeeRec(code: string, account: Address, amount: int, created: nat, tx: string, cause: FeeCause)

  datatype WrapRec = WrapRec(address: Address, amount: int, extCode: string, extId: string, completeTx: string)

  // wrapper and moved are history: the wrap account, and what left its balance
  datatype UnwrapRec = UnwrapRec(completeTx: string, wrapper: Address, moved: int)

  datatype Policy = Policy(target: Address, rates: map<string, ValidRate>)

  datatype Token = Token(maxSupply: int, supply: int, legacyMark: string, genesis: Address, policy: Option<Policy>, bridge: map<string, Address>)

  // For a personal account the holders are not stored; its address names its holder.
  datatype Account = Account(holders: set<string>, suspended: bool)

  // Documents handed to the contract chaincode. pb is the pending balance they speak of.
  datatype Doc =
    | DocTransfer(pb: string, sender: Address, receiver: Address, orderId: string)
    | DocPay(pb: string, sender: Address, receiver: Address)
    | DocWrap(pb: string, sender: Address, extCode: string, extId: string)
    | DocMint(code: string, amount: int)
    | DocBurn(code: string, amount: int)
    | DocTokenCreate(code: string, holders: set<string>)
    | DocAccountCreate(code: string, holders: set<string>)
    | DocHolderAdd(account: Address, kid: string)
    | DocHolderRemove(account: Address, kid: string)
  {
    predicate Money() {
      DocTransfer? || DocPay? || DocWrap?
    }
  }

  type LogKey = (Address, nat)

  datatype World = World(
    tokens: map<string, Token>,
    accounts: map<Address, Account>,
    holders: set<(string, Address)>,
    balances: map<Address, Balance>,
    logs: map<LogKey, Log>,
    pendings: map<string, Pending>,
    pays: map<string, PayRec>,
    fees: map<string, FeeRec>,
    feeMarks: map<string, string>,        // LastPrunedFeeID documents
    wraps: map<string, WrapRec>,
    unwraps: map<string, UnwrapRec>,
    contracts: map<string, Doc>,          // registry of the contract chaincode
    used: set<string>,                    // history: transaction ids
    journal: seq<LogKey>,                 // history: log keys in commit order
    prunedPays: set<string>,              // history: pays counted by a prune
    prunedFees: map<string, Address>,     // history: fees counted, and where they went
    completed: map<string, Address>)      // history: wraps completed, and where they went

  const EMPTY_WORLD := World(map[], map[], {}, map[], map[], map[], map[], map[], map[], map[], map[], map[], {}, [], {}, map[], map[])

  // What the network gives a transaction: the invoker, the proposal timestamp, the
  // transaction id, and the true time of its commit, which no code reads.
  datatype Env = Env(kid: string, ts: nat, txid: string, now: int)
  {
    function RecordId(): string {
      PrintId(ts, txid)
    }
  }

  // ---- small readers shared by rules and methods ----

  function HasHolder(a: Address, acc: Account, kid: string): bool {
    if a.kind == JOINT then kid in acc.holders else ID(a) == kid
  }

  function WatermarkStart(mark: string): Option<int> {
    if mark == "" then Some(0) else SplitTime(mark)
  }

  function FeeMark(w: World, code: string): string {
    if code in w.feeMarks then w.feeMarks[code]
    else if code in w.tokens then w.tokens[code].legacyMark
    else ""
  }

  const SAFE_MARGIN := 600 * NANOS
  const MAX_SIGNERS := 128
  const MAX_HOLDERS := 128

  // The upper end of a prune: the given seconds or the timestamp, at most ten
  // minutes before the timestamp when the safe flag is set.
  function EndTime(ts: nat, safe: bool, endSeconds: Option<int>): int {
    var end := if endSeconds.Some? then endSeconds.value * NANOS else ts;
    if safe && end > ts - SAFE_MARGIN then ts - SAFE_MARGIN else end
  }

  function PayRecs(pays: map<string, PayRec>): map<string, Rec<Address>> {
    map id | id in pays :: Rec(pays[id].merchant, pays[id].created, pays[id].amount, pays[id].fee)
  }

  function FeeRecs(fees: map<string, FeeRec>): map<string, Rec<string>> {
    map id | id in fees :: Rec(fees[id].code, fees[id].created, fees[id].amount, 0)
  }

  // wrap.go NormalizeExtTxID: lower case, then 0x and 64 hexadecimal digits.
  function NormalizeExtTxID(txid: string): Option<string> {
    var t := ToLower(txid);
    if |t| == 66 && t[0] == '0' && t[1] == 'x'
       && forall i :: 2 <= i < 66 ==> '0' <= t[i] <= '9' || 'a' <= t[i] <= 'f'
    then Some(t) else None
  }

  // ---- effects ----

  datatype Effect =
    | Post(a: Address, kind: LogKind, rid: Ref, diff: int, logFee: int, ts: nat)
    | PutPending(pid: string, p: Pending)
    | DropPending(pid: string)
    | PutPay(id: string, pay: PayRec)
    | PutRefund(id: string, pay: PayRec)
    | PutFee(id: string, fee: FeeRec)
    | PutWrap(id: string, wrap: WrapRec)
    | CloseWrap(id: string, completeTx: string, a: Address)
    | PutUnwrap(ext: string, unwrap: UnwrapRec)
    | PutToken(code: string, token: Token)
    | MarkPays(a: Address, ids: seq<string>)
    | MarkFees(code: string, ids: seq<string>, a: Address)
    | PutContract(cid: string, doc: Doc)
    | OpenAccount(a: Address, acc: Account, kids: set<string>)
    | SetSuspended(a: Address, suspended: bool)
    | AddHolder(a: Address, kid: string)
    | DropHolder(a: Address, kid: string)

  datatype Plan = Done | Then(head: Effect, tail: Plan)

  // A balance posting aborts the transaction when the balance is missing or the
  // log key of that account and nanosecond is taken (balance_stub.go:179-188).
  predicate Accepted(w: World, e: Effect) {
    e.Post? ==> e.a in w.balances && (e.a, e.ts) !in w.logs
  }

  // ---- what an effect makes of each collection ----

  ghost function Posted(b: Balance, e: Effect): Balance
    requires e.Post?
  {
    b.(amount := b.amount + e.diff - e.logFee)
  }

  ghost function BalancesAfter(balances: map<Address, Balance>, e: Effect): map<Address, Balance> {
    if e.Post? && e.a in balances then balances[e.a := Posted(balances[e.a], e)]
    else if e.MarkPays? && e.a in balances && e.ids != [] then balances[e.a := balances[e.a].(mark := Last(e.ids))]
    else if e.OpenAccount? then balances[e.a := Balance(0, "")]
    else balances
  }

  ghost function LogsAfter(w: World, e: Effect): map<LogKey, Log> {
    if e.Post? && e.a in w.balances
    then w.logs[(e.a, e.ts) := Log(e.kind, e.rid, e.diff, e.logFee, Posted(w.balances[e.a], e).amount)]
    else w.logs
  }

  ghost function PendingsAfter(pendings: map<string, Pending>, e: Effect): map<string, Pending> {
    if e.PutPending? then pendings[e.pid := e.p] else if e.DropPending? then pendings - {e.pid} else pendings
  }

  ghost function PaysAfter(pays: map<string, PayRec>, e: Effect): map<string, PayRec> {
    if e.PutPay? then pays[e.id := e.pay] else if e.PutRefund? then WithRefund(pays, e.id, e.pay) else pays
  }

  ghost function WrapsAfter(wraps: map<string, WrapRec>, e: Effect): map<string, WrapRec> {
    if e.PutWrap? then wraps[e.id := e.wrap]
    else if e.CloseWrap? && e.id in wraps then wraps[e.id := wraps[e.id].(completeTx := e.completeTx)]
    else wraps
  }

  ghost function AccountsAfter(accounts: map<Address, Account>, e: Effect): map<Address, Account> {
    if e.OpenAccount? then accounts[e.a := e.acc]
    else if e.SetSuspended? && e.a in accounts then accounts[e.a := accounts[e.a].(suspended := e.suspended)]
    else if e.AddHolder? && e.a in accounts then accounts[e.a := accounts[e.a].(holders := accounts[e.a].holders + {e.kid})]
    else if e.DropHolder? && e.a in accounts then accounts[e.a := accounts[e.a].(holders := accounts[e.a].holders - {e.kid})]
    else accounts
  }

  ghost function HoldersAfter(w: World, e: Effect): set<(string, Address)> {
    if e.OpenAccount? then w.holders + set k | k in e.kids :: (k, e.a)
    else if e.AddHolder? && e.a in w.accounts then w.holders + {(e.kid, e.a)}
    else if e.DropHolder? && e.a in w.accounts then w.holders - {(e.kid, e.a)}
    else w.holders
  }

  ghost function PrunedFeesAfter(pruned: map<string, Address>, e: Effect): map<string, Address> {
    if e.MarkFees? && e.ids != [] then pruned + (map id | id in Elements(e.ids) :: e.a) else pruned
  }

  ghost function Apply(w: World, e: Effect): World {
    World(
      if e.PutToken? then w.tokens[e.code := e.token] else w.tokens,
      AccountsAfter(w.accounts, e),
      HoldersAfter(w, e),
      BalancesAfter(w.balances, e),
      LogsAfter(w, e),
      PendingsAfter(w.pendings, e),
      PaysAfter(w.pays, e),
      if e.PutFee? then w.fees[e.id := e.fee] else w.fees,
      if e.MarkFees? && e.ids != [] then w.feeMarks[e.code := Last(e.ids)] else w.feeMarks,
      WrapsAfter(w.wraps, e),
      if e.PutUnwrap? then w.unwraps[e.ext := e.unwrap] else w.unwraps,
      if e.PutContract? then w.contracts[e.cid := e.doc] else w.contracts,
      w.used,
      if e.Post? && e.a in w.balances then w.journal + [(e.a, e.ts)] else w.journal,
      if e.MarkPays? && e.a in w.balances then w.prunedPays + Elements(e.ids) else w.prunedPays,
      PrunedFeesAfter(w.prunedFees, e),
      if e.CloseWrap? && e.id in w.wraps then w.completed[e.id := e.a] else w.completed)
  }

  // pay_stub.go Refund: the negative record, and the total on its parent.
  function WithRefund(pays: map<string, PayRec>, id: string, pay: PayRec): map<string, PayRec> {
    if pay.parent !in pays then pays
    else pays[id := pay][pay.parent := pays[pay.parent].(totalRefund := pays[pay.parent].totalRefund - pay.amount)]
  }

  // All effects in order, or nothing at all.
  ghost function Commit(w: World, plan: Plan): Option<World>
    decreases plan
  {
    match plan
    case Done => Some(w)
    case Then(e, rest) => if Accepted(w, e) then Commit(Apply(w, e), rest) else None
  }
}
