/**
  What each transaction does: its guards, and on success the plan of effects.
  None stands for an error response. Every definition follows the source
  function named in its comment, guard by guard.
 */
module Rules {
  import opened Sums
  import opened Addresses
  import opened RecordIds
  import opened FeeFormulas
  import opened Pruning
  import opened Ledger

  // A contract created by the contract chaincode: its id and its expiry.
  datatype Con = Con(cid: string, expiry: int)

  // Answer of the token meta chaincode (token_tx.go getValidatedTokenMeta).
  datatype MetaPolicy = MetaPolicy(target: Option<Address>, rates: map<string, ValidRate>)
  datatype Meta = Meta(maxSupply: int, initial: int, policy: Option<MetaPolicy>, bridge: Option<map<string, Address>>)

  datatype Tx =
    | TxAccountCreate(code: string, known: bool)
    | TxJointCreate(code: string, known: bool, texts: seq<string>, con: Con)
    | TxHolderAdd(joint: Address, target: Address, con: Con)
    | TxHolderRemove(joint: Address, target: Address, con: Con)
    | TxSuspend(code: string)
    | TxUnsuspend(code: string)
    | TxTokenCreate(code: string, meta: Meta, co: seq<Address>, con: Con)
    | TxTokenUpdate(code: string, meta: Meta)
    | TxMint(code: string, amount: int, con: Con)
    | TxBurn(code: string, amount: int, con: Con)
    | TxTransfer(sender: Address, receiver: Address, amount: int, lockSeconds: Option<int>, orderId: string, extra: seq<Address>, con: Con)
    | TxPay(sender: Address, receiver: Address, amount: int, con: Con)
    | TxRefund(payId: string, amount: int)
    | TxPayPrune(account: Address, safe: bool, end: Option<int>, order: seq<string>)
    | TxFeePrune(code: string, safe: bool, end: Option<int>, order: seq<string>)
    | TxWithdraw(pid: string)
    | TxWrap(sender: Address, extCode: string, extId: string, amount: int, extra: seq<Address>, con: Con)
    | TxWrapComplete(wrapId: string, fee: int, extTx: Option<string>)
    | TxUnwrap(code: string, to: Option<Address>, extCode: string, extId: string, burnTx: string, amount: int)
    | TxExecute(cid: string, meta: Meta)
    | TxCancel(cid: string)

  // ---- accounts ----

  predicate Authorised(w: World, a: Address, kid: string) {
    a in w.accounts && HasHolder(a, w.accounts[a], kid)
  }

  predicate Active(w: World, a: Address) {
    a in w.accounts && !w.accounts[a].suspended
  }

  // account_stub.go GetSignableIDs
  function SignableIDs(w: World, code: string, a: Address): Option<set<string>> {
    if a.code != code || a !in w.accounts then None
    else if a.kind == JOINT then Some(w.accounts[a].holders)
    else Some({ID(a)})
  }

  // The loops that grow a signer set from account addresses.
  function Gather(w: World, code: string, extra: seq<Address>, start: set<string>): Option<set<string>>
  {
    if extra == [] then Some(start)
    else
      match (Gather(w, code, extra[..|extra| - 1], start), SignableIDs(w, code, extra[|extra| - 1]))
      case (Some(s), Some(t)) => Some(s + t)
      case _ => None
  }

  function OwnSigners(w: World, a: Address, kid: string): set<string>
    requires a in w.accounts
  {
    if a.kind == JOINT then {kid} + w.accounts[a].holders else {kid}
  }

  // account_tx.go accountCreate, one holder; account_stub.go CreateAccount
  ghost function AccountCreate(h: Hasher, w: World, env: Env, code: string, known: bool): Option<Plan> {
    var a := NewAddress(h, code, PERSONAL, env.kid);
    if ValidateTokenCode(code) != Some(code) || !(code in w.tokens || known) || a in w.accounts then None
    else Some(Then(OpenAccount(a, Account({}, false), {env.kid}), Done))
  }

  // The addresses in a list of texts, if all of them are.
  function ParseAll(h: Hasher, texts: seq<string>): Option<seq<Address>> {
    if texts == [] then Some([])
    else
      match (ParseAll(h, texts[..|texts| - 1]), ParseAddress(h, texts[|texts| - 1]))
      case (Some(init), Some(a)) => Some(init + [a])
      case _ => None
  }

  // account_tx.go accountCreate, several holders. The limit counts different texts; two
  // spellings of one address are two of them.
  ghost function JointCreate(h: Hasher, w: World, env: Env, code: string, known: bool, co: seq<string>, con: Con): Option<Plan> {
    if ValidateTokenCode(code) != Some(code) || !(code in w.tokens || known)
       || NewAddress(h, code, PERSONAL, env.kid) !in w.accounts || |Elements(co)| > 128 || ParseAll(h, co).None? then None
    else
      match Gather(w, code, ParseAll(h, co).value, {env.kid})
      case None => None
      case Some(kids) =>
        if |kids| < 2 then None else Some(Then(PutContract(con.cid, DocAccountCreate(code, kids)), Done))
  }

  // account_stub.go CreateJointAccount
  ghost function JointAccount(h: Hasher, w: World, env: Env, code: string, kids: set<string>, rest: Plan): Option<Plan> {
    var a := NewAddress(h, code, JOINT, env.txid);
    if a in w.accounts then None
    else Some(Then(OpenAccount(a, Account(kids, false), kids), rest))
  }

  // account_tx.go accountHolderAdd
  ghost function HolderAdd(w: World, env: Env, joint: Address, target: Address, con: Con): Option<Plan> {
    if joint.kind != JOINT || target.kind != PERSONAL || joint.code != target.code
       || !Authorised(w, joint, env.kid) || |w.accounts[joint].holders| > MAX_HOLDERS - 1
       || target !in w.accounts || ID(target) in w.accounts[joint].holders then None
    else Some(Then(PutContract(con.cid, DocHolderAdd(joint, ID(target))), Done))
  }

  // account_tx.go accountHolderRemove
  ghost function HolderRemove(w: World, env: Env, joint: Address, target: Address, con: Con): Option<Plan> {
    if joint.kind != JOINT || target.kind != PERSONAL || joint.code != target.code
       || !Authorised(w, joint, env.kid) || |w.accounts[joint].holders| < 3
       || (ID(target) != env.kid && ID(target) !in w.accounts[joint].holders) then None
    else if ID(target) == env.kid then Some(Then(DropHolder(joint, env.kid), Done))
    else Some(Then(PutContract(con.cid, DocHolderRemove(joint, ID(target))), Done))
  }

  // account_tx.go executeAccountHolderAdd
  ghost function ExecuteHolderAdd(w: World, a: Address, kid: string): Option<Plan> {
    if a !in w.accounts || |w.accounts[a].holders| > MAX_HOLDERS - 1 || kid in w.accounts[a].holders then None
    else Some(Then(AddHolder(a, kid), Done))
  }

  // account_tx.go executeAccountHolderRemove
  ghost function ExecuteHolderRemove(w: World, a: Address, kid: string): Option<Plan> {
    if a !in w.accounts || |w.accounts[a].holders| < 3 || kid !in w.accounts[a].holders then None
    else Some(Then(DropHolder(a, kid), Done))
  }

  // account_stub.go SuspendAccount and UnsuspendAccount
  ghost function Suspend(h: Hasher, w: World, env: Env, code: string, flag: bool): Option<Plan> {
    var a := NewAddress(h, code, PERSONAL, env.kid);
    if a !in w.accounts || w.accounts[a].suspended == flag then None
    else Some(Then(SetSuspended(a, flag), Done))
  }

  // ---- tokens ----

  predicate MetaValid(meta: Meta) {
    0 <= meta.initial <= meta.maxSupply
  }

  predicate BridgeKnown(w: World, bridge: map<string, Address>) {
    forall ext :: ext in bridge ==> bridge[ext] in w.accounts
  }

  function BridgeOr(bridge: Option<map<string, Address>>, current: map<string, Address>): map<string, Address> {
    match bridge
    case None => current
    case Some(b) => b
  }

  // token_stub.go CreateToken
  ghost function CreateToken(h: Hasher, w: World, env: Env, code: string, meta: Meta, kids: set<string>): Option<Plan> {
    var genesis := NewAddress(h, code, JOINT, env.txid);
    var policy := match meta.policy
      case None => None
      case Some(p) => Some(Policy(if p.target.Some? then p.target.value else genesis, p.rates));
    if (meta.policy.Some? && meta.policy.value.target.Some? && meta.policy.value.target.value !in w.accounts)
       || !BridgeKnown(w, BridgeOr(meta.bridge, map[])) then None
    else
      var token := Token(meta.maxSupply, meta.initial, "", genesis, policy, BridgeOr(meta.bridge, map[]));
      var last := Then(PutToken(code, token), Done);
      JointAccount(h, w, env, code, kids,
        if meta.initial > 0 then Then(Post(genesis, MintLog, NoRef, meta.initial, 0, env.ts), last) else last)
  }

  // token_tx.go tokenCreate
  ghost function TokenCreate(h: Hasher, w: World, env: Env, code: string, meta: Meta, co: seq<Address>, con: Con): Option<Plan> {
    if ValidateTokenCode(code) != Some(code) || code in w.tokens || !MetaValid(meta) then None
    else
      match Gather(w, code, co, {env.kid})
      case None => None
      case Some(kids) =>
        if |kids| > 1 then Some(Then(PutContract(con.cid, DocTokenCreate(code, kids)), Done))
        else CreateToken(h, w, env, code, meta, kids)
  }

  // token_tx.go tokenUpdate: rates are replaced, a missing target keeps the old one.
  ghost function TokenUpdate(w: World, code: string, meta: Meta): Option<Plan> {
    if code !in w.tokens || !MetaValid(meta) then None
    else
      var t := w.tokens[code];
      match UpdatedPolicy(w, t, meta.policy)
      case None => None
      case Some(policy) =>
        if !BridgeKnown(w, BridgeOr(meta.bridge, map[])) then None
        else if meta.policy.None? && t.policy.None? && meta.bridge.None? then Some(Done)
        else Some(Then(PutToken(code, t.(policy := policy, bridge := BridgeOr(meta.bridge, t.bridge))), Done))
  }

  function UpdatedPolicy(w: World, t: Token, meta: Option<MetaPolicy>): Option<Option<Policy>> {
    match meta
    case None => Some(if t.policy.None? then None else Some(t.policy.value.(rates := map[])))
    case Some(p) =>
      if p.target.Some? then
        if p.target.value in w.accounts then Some(Some(Policy(p.target.value, p.rates))) else None
      else
        Some(Some(Policy(if t.policy.None? then t.genesis else t.policy.value.target, p.rates)))
  }

  // token_stub.go Mint
  ghost function Mint(w: World, env: Env, code: string, amount: int): Option<Plan> {
    if code !in w.tokens then None
    else
      var t := w.tokens[code];
      if t.genesis !in w.balances || t.supply >= t.maxSupply then None
      else
        var applied := if t.supply + amount > t.maxSupply then t.maxSupply - t.supply else amount;
        Some(Then(PutToken(code, t.(supply := t.supply + applied)), Then(Post(t.genesis, if applied < 0 then BurnLog else MintLog, NoRef, applied, 0, env.ts), Done)))
  }

  // token_stub.go Burn
  ghost function Burn(w: World, env: Env, code: string, amount: int): Option<Plan> {
    if code !in w.tokens then None
    else
      var t := w.tokens[code];
      if t.genesis !in w.balances || t.supply == 0 then None
      else
        var applied := if w.balances[t.genesis].amount < amount then w.balances[t.genesis].amount else amount;
        if applied <= 0 then Some(Done)
        else Some(Then(Post(t.genesis, BurnLog, NoRef, -applied, 0, env.ts), Then(PutToken(code, t.(supply := t.supply - applied)), Done)))
  }

  // token_tx.go tokenMint; amount is the answer of the token chaincode
  ghost function TokenMint(w: World, env: Env, code: string, amount: int, con: Con): Option<Plan> {
    if code !in w.tokens then None
    else
      var t := w.tokens[code];
      if t.supply >= t.maxSupply || !Authorised(w, t.genesis, env.kid) || t.genesis !in w.balances || amount < 0 then None
      else if |w.accounts[t.genesis].holders| > 1 then Some(Then(PutContract(con.cid, DocMint(code, amount)), Done))
      else Mint(w, env, code, amount)
  }

  // token_tx.go tokenBurn
  ghost function TokenBurn(w: World, env: Env, code: string, amount: int, con: Con): Option<Plan> {
    if code !in w.tokens then None
    else
      var t := w.tokens[code];
      if !Authorised(w, t.genesis, env.kid) || t.genesis !in w.balances || w.balances[t.genesis].amount == 0
         || amount < 0 || t.supply < amount then None
      else if |w.accounts[t.genesis].holders| > 1 then Some(Then(PutContract(con.cid, DocBurn(code, amount)), Done))
      else Burn(w, env, code, amount)
  }

  // ---- fees ----

  // fee_stub.go CalcFee
  function CalcFee(w: World, payer: Address, fn: string, amount: int): Option<int> {
    if payer.code !in w.tokens then None
    else
      var t := w.tokens[payer.code];
      if t.policy.None? || fn !in t.policy.value.rates || t.genesis == payer || t.policy.value.target == payer then Some(0)
      else Some(RatedFee(t.policy.value.rates[fn], amount))
  }

  // fee_stub.go CreateFee: nothing is written for a zero amount.
  ghost function CreateFee(env: Env, account: Address, amount: int, cause: FeeCause, rest: Plan): Plan {
    if amount == 0 then rest else Then(NewFee(env, account, amount, cause), rest)
  }

  ghost function NewFee(env: Env, account: Address, amount: int, cause: FeeCause): Effect {
    PutFee(env.RecordId(), FeeRec(account.code, account, amount, env.ts, env.txid, cause))
  }

  // ---- balances ----

  // A multi-signature proposal: the contract is registered and the money deposited.
  ghost function Deposit(env: Env, sender: Address, con: Con, doc: Doc, amount: int, fee: Option<int>): Plan {
    Then(PutContract(con.cid, doc), Escrow(env, sender, con.cid, con.expiry, amount, fee))
  }

  // balance_stub.go Deposit
  ghost function Escrow(env: Env, sender: Address, cid: string, expiry: int, amount: int, fee: Option<int>): Plan {
    Then(PutPending(env.txid, Pending(ContractHeld, sender, ToId(cid), amount, fee, expiry)),
    Then(Post(sender, DepositLog, ToId(cid), -amount, FeePart(fee), env.ts), Done))
  }

  // The receiving half of Transfer and TransferPendingBalance: a time lock or a credit.
  ghost function Receive(env: Env, sender: Address, receiver: Address, amount: int, pendingTime: Option<int>, rest: Plan): Plan {
    if pendingTime.Some? && pendingTime.value > env.ts
    then Then(PutPending(env.txid, Pending(AccountHeld, receiver, ToAccount(sender), amount, None, pendingTime.value)), rest)
    else Then(Post(receiver, ReceiveLog, ToAccount(sender), amount, 0, env.ts), rest)
  }

  // balance_stub.go Transfer
  ghost function Send(env: Env, sender: Address, receiver: Address, amount: int, fee: int, pendingTime: Option<int>): Plan {
    Receive(env, sender, receiver, amount, pendingTime,
      Then(Post(sender, SendLog, ToAccount(receiver), -amount, fee, env.ts),
      CreateFee(env, sender, fee, TransferFee, Done)))
  }

  // balance_stub.go TransferPendingBalance
  ghost function SendPending(env: Env, pid: string, pb: Pending, sender: Address, receiver: Address, pendingTime: Option<int>): Plan {
    Receive(env, sender, receiver, pb.amount, pendingTime,
      CreateFee(env, pb.account, FeePart(pb.fee), TransferFee, Then(DropPending(pid), Done)))
  }

  // balance_stub.go Withdraw
  ghost function Withdraw(env: Env, pid: string, pb: Pending): Plan {
    Then(Post(pb.account, WithdrawLog, pb.rid, pb.Worth(), 0, env.ts), Then(DropPending(pid), Done))
  }

  // transfer_tx.go: a lock in the past, to the second, is no lock.
  function LockTime(ts: nat, lockSeconds: Option<int>): Option<int> {
    if lockSeconds.Some? && ts / NANOS < lockSeconds.value then Some(lockSeconds.value * NANOS) else None
  }

  // transfer_tx.go transfer
  ghost function Transfer(w: World, env: Env, sender: Address, receiver: Address, amount: int, lockSeconds: Option<int>, orderId: string, extra: seq<Address>, con: Con): Option<Plan> {
    if amount <= 0 || receiver.code != sender.code || sender == receiver
       || !Authorised(w, sender, env.kid) || !Active(w, sender) || !Active(w, receiver)
       || sender !in w.balances || receiver !in w.balances then None
    else
      match (CalcFee(w, sender, "transfer", amount), Gather(w, sender.code, extra, OwnSigners(w, sender, env.kid)))
      case (Some(fee), Some(signers)) =>
        if w.balances[sender].amount < amount + fee || |signers| > MAX_SIGNERS then None
        else if |signers| > 1 then Some(Deposit(env, sender, con, DocTransfer(env.txid, sender, receiver, orderId), amount, Some(fee)))
        else Some(Send(env, sender, receiver, amount, fee, LockTime(env.ts, lockSeconds)))
      case _ => None
  }

  // balance_tx.go balancePendingWithdraw
  ghost function PendingWithdraw(w: World, env: Env, pid: string): Option<Plan> {
    if pid !in w.pendings then None
    else
      var pb := w.pendings[pid];
      if pb.pendingTime > env.ts || !Authorised(w, pb.account, env.kid) || !Active(w, pb.account) then None
      else Some(Withdraw(env, pid, pb))
  }

  // ---- pays ----

  // pay_tx.go pay
  ghost function Pay(w: World, env: Env, sender: Address, receiver: Address, amount: int, con: Con): Option<Plan> {
    if amount <= 0 || receiver.code != sender.code || sender == receiver
       || !Authorised(w, sender, env.kid) || !Active(w, sender) || !Active(w, receiver)
       || sender !in w.balances || w.balances[sender].amount < amount then None
    else
      var signers := OwnSigners(w, sender, env.kid);
      if |signers| > MAX_SIGNERS then None
      else if |signers| > 1 then Some(Deposit(env, sender, con, DocPay(env.txid, sender, receiver), amount, None))
      else
        match CalcFee(w, receiver, "pay", amount)
        case None => None
        case Some(fee) =>
          Some(Then(PutPay(env.RecordId(), PayRec(receiver, amount, fee, 0, sender, "", env.ts, env.txid)),
               Then(Post(sender, PayLog, ToAccount(receiver), -amount, 0, env.ts), Done)))
  }

  // pay_tx.go payRefund
  ghost function Refund(w: World, env: Env, payId: string, amount: int): Option<Plan> {
    if amount <= 0 || payId !in w.pays then None
    else
      var p := w.pays[payId];
      if p.payer.code != p.merchant.code || p.merchant == p.payer || p.amount < p.totalRefund + amount
         || !Authorised(w, p.merchant, env.kid) || !Active(w, p.merchant) || !Active(w, p.payer)
         || p.merchant !in w.balances || p.payer !in w.balances || p.amount == 0 then None
      else
        var fee := RefundFee(amount, p.amount, p.fee);
        Some(Then(PutRefund(env.RecordId(), PayRec(p.merchant, -amount, -fee, 0, p.payer, payId, env.ts, env.txid)),
             Then(Post(p.payer, RefundLog, ToAccount(p.merchant), amount, 0, env.ts), Done)))
  }

  // pay_tx.go payPrune
  ghost function PayPrune(w: World, env: Env, a: Address, order: seq<string>): Option<Plan> {
    if !Authorised(w, a, env.kid) || !Active(w, a) || a !in w.balances || order == []
       || WatermarkStart(w.balances[a].mark).None? then None
    else
      var batch := Batch(order);
      var recs := PayRecs(w.pays);
      var sum, fee := SeqSum(AmountsOf(recs), batch), SeqSum(FeesOf(recs), batch);
      Some(Then(MarkPays(a, batch),
           CreateFee(env, a, fee, PayFee,
           Then(Post(a, PrunePayLog, NoRef, sum - fee, 0, env.ts), Done))))
  }

  // fee_tx.go feePrune
  ghost function FeePrune(w: World, env: Env, code: string, order: seq<string>): Option<Plan> {
    if code !in w.tokens then None
    else
      var t := w.tokens[code];
      if t.policy.None? then Some(Done)
      else
        var target := t.policy.value.target;
        if !Authorised(w, target, env.kid) || target !in w.balances || order == []
           || WatermarkStart(FeeMark(w, code)).None? then None
        else
          var batch := Batch(order);
          var last := Then(Post(target, PruneFeeLog, NoRef, SeqSum(AmountsOf(FeeRecs(w.fees)), batch), 0, env.ts), Done);
          Some(Then(MarkFees(code, batch, target),
               if code in w.feeMarks then last else Then(PutToken(code, t.(legacyMark := "")), last)))
  }

  // ---- bridge ----

  // token.go GetWrapAddress
  function WrapAddress(w: World, code: string, extCode: string): Option<Address> {
    if code in w.tokens && extCode in w.tokens[code].bridge then Some(w.tokens[code].bridge[extCode]) else None
  }

  // wrap_tx.go wrap
  ghost function Wrap(w: World, env: Env, sender: Address, extCode: string, extId: string, amount: int, extra: seq<Address>, con: Con): Option<Plan> {
    match WrapAddress(w, sender.code, extCode)
    case None => None
    case Some(wrapper) =>
      if amount <= 0 || !Authorised(w, sender, env.kid) || !Active(w, sender) || sender == wrapper || !Active(w, wrapper)
         || sender !in w.balances || w.balances[sender].amount < amount then None
      else
        match Gather(w, sender.code, extra, OwnSigners(w, sender, env.kid))
        case None => None
        case Some(signers) =>
          if |signers| > MAX_SIGNERS then None
          else if |signers| > 1 then Some(Deposit(env, sender, con, DocWrap(env.txid, sender, extCode, extId), amount, None))
          else Some(Then(PutWrap(env.txid, WrapRec(sender, amount, extCode, extId, "")),
                    Then(Post(sender, WrapLog, ToId(extId), -amount, 0, env.ts), Done)))
  }

  // wrap_tx.go wrapComplete; without an external transaction the wrap was
  // impossible, the fee is ignored and the wrap is marked with its own id.
  ghost function WrapComplete(w: World, env: Env, wrapId: string, feeParam: int, extTx: Option<string>): Option<Plan> {
    if feeParam < 0 || wrapId !in w.wraps || w.wraps[wrapId].completeTx != ""
       || (extTx.Some? && NormalizeExtTxID(extTx.value).None?) then None
    else
      var wrap := w.wraps[wrapId];
      var fee := if extTx.Some? then feeParam else 0;
      var completeTx := if extTx.Some? then NormalizeExtTxID(extTx.value).value else wrapId;
      match WrapAddress(w, wrap.address.code, wrap.extCode)
      case None => None
      case Some(wrapper) =>
        if !Authorised(w, wrapper, env.kid) || !Active(w, wrapper) || wrapper !in w.balances || wrap.amount - fee <= 0 then None
        else Some(Then(CloseWrap(wrapId, completeTx, wrapper),
                  Then(Post(wrapper, WrapCompleteLog, ToId(wrapId), wrap.amount, fee, env.ts),
                  CreateFee(env, wrapper, fee, WrapFee, Done))))
  }

  // wrap_tx.go unwrap; a token code instead of a receiver means an impossible unwrap.
  ghost function Unwrap(w: World, env: Env, codeParam: string, receiverParam: Option<Address>, extCode: string, extId: string, extTx: string, amount: int): Option<Plan> {
    var code := if receiverParam.Some? then receiverParam.value.code else codeParam;
    match (NormalizeExtTxID(extTx), WrapAddress(w, code, extCode))
    case (Some(ext), Some(wrapper)) =>
      var receiver := if receiverParam.Some? then receiverParam.value else wrapper;
      if ext in w.unwraps || amount <= 0 || !Authorised(w, wrapper, env.kid) || !Active(w, wrapper) || !Active(w, receiver)
         || receiver !in w.balances || wrapper !in w.balances then None
      else if wrapper != receiver then
        if w.balances[wrapper].amount < amount then None
        else Some(Then(PutUnwrap(ext, UnwrapRec(env.txid, wrapper, amount)),
                  Then(Post(receiver, UnwrapLog, ToId(extId), amount, 0, env.ts),
                  Then(Post(wrapper, UnwrapCompleteLog, ToAccount(receiver), -amount, 0, env.ts), Done))))
      else Some(Then(PutUnwrap(ext, UnwrapRec(env.txid, wrapper, 0)),
                Then(Post(wrapper, UnwrapCompleteLog, ToAccount(wrapper), 0, 0, env.ts), Done)))
    case _ => None
  }

  // ---- contract callbacks ----

  // The validation shared by cancelTransfer and the execute functions.
  predicate Holds(w: World, cid: string, pid: string) {
    pid in w.pendings && w.pendings[pid].custody == ContractHeld && w.pendings[pid].rid == ToId(cid)
  }

  // The pending time that executeTransfer finds in the document: it reads the order id,
  // and the proposal has written nothing else of the pending time it was given.
  // None where the order id is neither empty nor a number.
  function ReadLock(orderId: string): Option<Option<int>> {
    if orderId == "" || orderId == "0" then Some(None)
    else
      match ParseInt(orderId)
      case None => None
      case Some(seconds) => Some(Some(seconds * NANOS))
  }

  function LockOf(orderId: string): Option<int> {
    match ReadLock(orderId)
    case None => None
    case Some(lock) => lock
  }

  // transfer_tx.go executeTransfer
  ghost function ExecuteTransfer(w: World, env: Env, cid: string, doc: Doc): Option<Plan>
    requires doc.DocTransfer?
  {
    if !Holds(w, cid, doc.pb) || doc.sender !in w.balances || doc.receiver !in w.balances || ReadLock(doc.orderId).None? then None
    else Some(SendPending(env, doc.pb, w.pendings[doc.pb], doc.sender, doc.receiver, LockOf(doc.orderId)))
  }

  // pay_tx.go executePay and pay_stub.go PayPendingBalance: the fee is taken from the rates of now.
  ghost function ExecutePay(w: World, env: Env, cid: string, doc: Doc): Option<Plan>
    requires doc.DocPay?
  {
    if !Holds(w, cid, doc.pb) || doc.sender !in w.balances then None
    else
      var pb := w.pendings[doc.pb];
      match CalcFee(w, doc.receiver, "pay", pb.amount)
      case None => None
      case Some(fee) =>
        Some(Then(PutPay(env.RecordId(), PayRec(doc.receiver, pb.amount, fee, 0, pb.account, "", env.ts, env.txid)),
             Then(DropPending(doc.pb), Done)))
  }

  // wrap_tx.go executeWrap and wrap_stub.go WrapPendingBalance
  ghost function ExecuteWrap(w: World, env: Env, cid: string, doc: Doc): Option<Plan>
    requires doc.DocWrap?
  {
    if !Holds(w, cid, doc.pb) || doc.sender !in w.balances then None
    else Some(Then(PutWrap(env.txid, WrapRec(doc.sender, w.pendings[doc.pb].amount, doc.extCode, doc.extId, "")),
              Then(DropPending(doc.pb), Done)))
  }

  // contract_tx.go contractExecute
  ghost function Execute(h: Hasher, w: World, env: Env, cid: string, meta: Meta): Option<Plan> {
    if cid !in w.contracts then None
    else
      var doc := w.contracts[cid];
      match doc
      case DocTransfer(_, _, _, _) => ExecuteTransfer(w, env, cid, doc)
      case DocPay(_, _, _) => ExecutePay(w, env, cid, doc)
      case DocWrap(_, _, _, _) => ExecuteWrap(w, env, cid, doc)
      case DocMint(code, amount) => Mint(w, env, code, amount)
      case DocBurn(code, amount) => Burn(w, env, code, amount)
      case DocTokenCreate(code, kids) => if code in w.tokens || !MetaValid(meta) then None else CreateToken(h, w, env, code, meta, kids)
      case DocAccountCreate(code, kids) => JointAccount(h, w, env, code, kids, Done)
      case DocHolderAdd(a, kid) => ExecuteHolderAdd(w, a, kid)
      case DocHolderRemove(a, kid) => ExecuteHolderRemove(w, a, kid)
  }

  // transfer_tx.go cancelTransfer
  ghost function CancelTransfer(w: World, env: Env, cid: string, doc: Doc): Option<Plan>
    requires doc.Money()
  {
    if !Holds(w, cid, doc.pb) || w.pendings[doc.pb].account !in w.balances then None
    else Some(Withdraw(env, doc.pb, w.pendings[doc.pb]))
  }

  // contract_tx.go contractCancel: money goes back, everything else is void.
  ghost function Cancel(w: World, env: Env, cid: string): Option<Plan> {
    if cid !in w.contracts then None
    else
      var doc := w.contracts[cid];
      if !doc.Money() then Some(Done) else CancelTransfer(w, env, cid, doc)
  }

  // ---- one transaction ----

  ghost function PlanOf(h: Hasher, w: World, env: Env, tx: Tx): Option<Plan> {
    match tx
    case TxAccountCreate(code, known) => AccountCreate(h, w, env, code, known)
    case TxJointCreate(code, known, co, con) => JointCreate(h, w, env, code, known, co, con)
    case TxHolderAdd(joint, target, con) => HolderAdd(w, env, joint, target, con)
    case TxHolderRemove(joint, target, con) => HolderRemove(w, env, joint, target, con)
    case TxSuspend(code) => Suspend(h, w, env, code, true)
    case TxUnsuspend(code) => Suspend(h, w, env, code, false)
    case TxTokenCreate(code, meta, co, con) => TokenCreate(h, w, env, code, meta, co, con)
    case TxTokenUpdate(code, meta) => TokenUpdate(w, code, meta)
    case TxMint(code, amount, con) => TokenMint(w, env, code, amount, con)
    case TxBurn(code, amount, con) => TokenBurn(w, env, code, amount, con)
    case TxTransfer(sender, receiver, amount, lockSeconds, orderId, extra, con) => Transfer(w, env, sender, receiver, amount, lockSeconds, orderId, extra, con)
    case TxPay(sender, receiver, amount, con) => Pay(w, env, sender, receiver, amount, con)
    case TxRefund(payId, amount) => Refund(w, env, payId, amount)
    case TxPayPrune(a, safe, end, order) => PayPrune(w, env, a, order)
    case TxFeePrune(code, safe, end, order) => FeePrune(w, env, code, order)
    case TxWithdraw(pid) => PendingWithdraw(w, env, pid)
    case TxWrap(sender, extCode, extId, amount, extra, con) => Wrap(w, env, sender, extCode, extId, amount, extra, con)
    case TxWrapComplete(wrapId, fee, extTx) => WrapComplete(w, env, wrapId, fee, extTx)
    case TxUnwrap(code, receiver, extCode, extId, extTx, amount) => Unwrap(w, env, code, receiver, extCode, extId, extTx, amount)
    case TxExecute(cid, meta) => Execute(h, w, env, cid, meta)
    case TxCancel(cid) => Cancel(w, env, cid)
  }

  function ContractOf(tx: Tx): Option<Con> {
    match tx
    case TxJointCreate(_, _, _, con) => Some(con)
    case TxHolderAdd(_, _, con) => Some(con)
    case TxHolderRemove(_, _, con) => Some(con)
    case TxTokenCreate(_, _, _, con) => Some(con)
    case TxMint(_, _, con) => Some(con)
    case TxBurn(_, _, con) => Some(con)
    case TxTransfer(_, _, _, _, _, _, con) => Some(con)
    case TxPay(_, _, _, con) => Some(con)
    case TxWrap(_, _, _, _, _, con) => Some(con)
    case _ => None
  }

  ghost predicate QueryAnswered(w: World, env: Env, tx: Tx) {
    match tx
    case TxPayPrune(a, safe, end, order) =>
      a in w.balances && WatermarkStart(w.balances[a].mark).Some? ==>
        Listing(PayRecs(w.pays), a, WatermarkStart(w.balances[a].mark).value, EndTime(env.ts, safe, end), order)
    case TxFeePrune(code, safe, end, order) =>
      WatermarkStart(FeeMark(w, code)).Some? ==>
        Listing(FeeRecs(w.fees), code, WatermarkStart(FeeMark(w, code)).value, EndTime(env.ts, safe, end), order)
    case _ => true
  }

  // What the network and the foreign chaincodes promise: timestamps of the current
  // era, transaction ids and contract ids never used before, and query answers that
  // match the committed state. Nothing else reaches the ledger.
  ghost predicate Admissible(w: World, env: Env, tx: Tx) {
    && InRange(env.ts)
    && env.txid !in w.used && env.txid != ""
    && (ContractOf(tx).Some? ==> ContractOf(tx).value.cid !in w.contracts)
    && QueryAnswered(w, env, tx)
  }

  function Begin(w: World, env: Env): World {
    w.(used := w.used + {env.txid})
  }

  // The committed result of a transaction; None for an error response.
  ghost function Step(h: Hasher, w: World, env: Env, tx: Tx): Option<World> {
    if !Admissible(w, env, tx) then None
    else
      match PlanOf(h, Begin(w, env), env, tx)
      case None => None
      case Some(plan) => Commit(Begin(w, env), plan)
  }

  datatype Call = Call(env: Env, tx: Tx)

  ghost function Next(h: Hasher, w: World, c: Call): World {
    match Step(h, w, c.env, c.tx)
    case None => w
    case Some(w') => w'
  }

  // A run: calls in commit order; an error response changes nothing.
  ghost function Exec(h: Hasher, w: World, calls: seq<Call>): World {
    if calls == [] then w
    else Next(h, Exec(h, w, calls[..|calls| - 1]), calls[|calls| - 1])
  }
}
