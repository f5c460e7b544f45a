/**
  contract_tx.go and the entry point: one call on the committed ledger, with its
  writes kept only when it succeeds.
 */
module Chaincode {
  import opened Sums
  import opened Addresses
  import opened Ledger
  import opened Fields
  import opened Rules
  import opened Invariants
  import opened Steps
  import opened Shim
  import opened History
  import TransferTx
  import PayTx
  import WrapTx
  import TokenTx
  import AccountTx

  // The document tells which callback runs.
  method ContractExecute(s: Stub, cid: string, meta: Meta) returns (ok: bool)
    requires s.next == s.state && Inv(s.state)
    modifies s
    ensures Outcome(s.state, Execute(s.h, s.state, s.env, cid, meta)) == if ok then Some(s.next) else None
  {
    hide Inv, Commit, CreateToken, JointAccount, Mint, Burn, Rules.ExecutePay, Rules.ExecuteWrap, Rules.ExecuteTransfer, ExecuteHolderAdd, ExecuteHolderRemove;
    if cid !in s.state.contracts {
      return false;
    }
    var doc := s.state.contracts[cid];
    match doc {
      case DocTransfer(_, _, _, _) => ok := TransferTx.ExecuteTransfer(s, cid, doc);
      case DocPay(_, _, _) => ok := PayTx.ExecutePay(s, cid, doc);
      case DocWrap(_, _, _, _) => ok := WrapTx.ExecuteWrap(s, cid, doc);
      case DocMint(code, amount) => ok := TokenTx.ExecuteTokenMint(s, code, amount);
      case DocBurn(code, amount) => ok := TokenTx.ExecuteTokenBurn(s, code, amount);
      case DocTokenCreate(code, kids) => ok := TokenTx.ExecuteTokenCreate(s, code, kids, meta);
      case DocAccountCreate(code, kids) => ok := AccountTx.ExecuteAccountCreate(s, code, kids);
      case DocHolderAdd(a, kid) => ok := AccountTx.ExecuteAccountHolderAdd(s, a, kid);
      case DocHolderRemove(a, kid) => ok := AccountTx.ExecuteAccountHolderRemove(s, a, kid);
    }
  }

  method ContractCancel(s: Stub, cid: string) returns (ok: bool)
    requires s.next == s.state
    modifies s
    ensures Outcome(s.state, Cancel(s.state, s.env, cid)) == if ok then Some(s.next) else None
  {
    hide Commit;
    if cid !in s.state.contracts {
      return false;
    }
    var doc := s.state.contracts[cid];
    if !doc.Money() {
      CommitNothing(s.next);
      return true;
    }
    ok := TransferTx.CancelTransfer(s, cid, doc);
  }

  predicate AboutAccounts(tx: Tx) {
    tx.TxAccountCreate? || tx.TxJointCreate? || tx.TxHolderAdd? || tx.TxHolderRemove? || tx.TxSuspend? || tx.TxUnsuspend?
    || tx.TxTokenCreate? || tx.TxTokenUpdate? || tx.TxMint? || tx.TxBurn?
  }

  method RouteAccounts(s: Stub, tx: Tx) returns (ok: bool)
    requires s.next == s.state && AboutAccounts(tx)
    modifies s
    ensures Outcome(s.state, PlanOf(s.h, s.state, s.env, tx)) == if ok then Some(s.next) else None
  {
    hide Commit, AccountCreate, JointCreate, HolderAdd, HolderRemove, Suspend, TokenCreate, TokenUpdate, TokenMint, TokenBurn;
    match tx {
      case TxAccountCreate(code, known) => ok := AccountTx.AccountCreate(s, code, known);
      case TxJointCreate(code, known, co, con) => ok := AccountTx.JointAccountCreate(s, code, known, co, con);
      case TxHolderAdd(joint, target, con) => ok := AccountTx.AccountHolderAdd(s, joint, target, con);
      case TxHolderRemove(joint, target, con) => ok := AccountTx.AccountHolderRemove(s, joint, target, con);
      case TxSuspend(code) => ok := AccountTx.SetSuspension(s, code, true);
      case TxUnsuspend(code) => ok := AccountTx.SetSuspension(s, code, false);
      case TxTokenCreate(code, meta, co, con) => ok := TokenTx.TokenCreate(s, code, meta, co, con);
      case TxTokenUpdate(code, meta) => ok := TokenTx.TokenUpdate(s, code, meta);
      case TxMint(code, amount, con) => ok := TokenTx.TokenMint(s, code, amount, con);
      case TxBurn(code, amount, con) => ok := TokenTx.TokenBurn(s, code, amount, con);
    }
  }

  method Route(s: Stub, tx: Tx) returns (ok: bool)
    requires s.next == s.state && Inv(s.state) && QueryAnswered(s.state, s.env, tx)
    modifies s
    ensures Outcome(s.state, PlanOf(s.h, s.state, s.env, tx)) == if ok then Some(s.next) else None
  {
    hide Inv, Commit, QueryAnswered, Transfer, Pay, Refund, PayPrune, FeePrune, PendingWithdraw, Wrap, WrapComplete, Unwrap, Execute, Cancel;
    if AboutAccounts(tx) {
      ok := RouteAccounts(s, tx);
      return;
    }
    match tx {
      case TxTransfer(sender, receiver, amount, lock, orderId, extra, con) => ok := TransferTx.Transfer(s, sender, receiver, amount, lock, orderId, extra, con);
      case TxPay(sender, receiver, amount, con) => ok := PayTx.Pay(s, sender, receiver, amount, con);
      case TxRefund(payId, amount) => ok := PayTx.PayRefund(s, payId, amount);
      case TxPayPrune(a, safe, end, order) => var sum; ok, sum := PayTx.PayPrune(s, a, safe, end, order);
      case TxFeePrune(code, safe, end, order) => var sum; ok, sum := PayTx.FeePrune(s, code, safe, end, order);
      case TxWithdraw(pid) => ok := TransferTx.BalancePendingWithdraw(s, pid);
      case TxWrap(sender, extCode, extId, amount, extra, con) => ok := WrapTx.Wrap(s, sender, extCode, extId, amount, extra, con);
      case TxWrapComplete(wrapId, fee, extTx) => ok := WrapTx.WrapComplete(s, wrapId, fee, extTx);
      case TxUnwrap(code, to, extCode, extId, burnTx, amount) => ok := WrapTx.Unwrap(s, code, to, extCode, extId, burnTx, amount);
      case TxExecute(cid, meta) => ok := ContractExecute(s, cid, meta);
      case TxCancel(cid) => ok := ContractCancel(s, cid);
    }
  }

  /** The committed ledger. */
  class Channel {
    const h: Hasher
    var world: World

    constructor (h: Hasher)
      ensures this.h == h && world == EMPTY_WORLD && Valid()
    {
      this.h := h;
      this.world := EMPTY_WORLD;
      new;
      EmptyWorldOk();
    }

    ghost predicate Valid()
      reads this
    {
      Inv(world)
    }

    // One transaction in commit order. An error response leaves the ledger as it was,
    // and no later transaction can undo what this one leaves behind.
    method Invoke(env: Env, tx: Tx) returns (ok: bool)
      requires Valid() && Admissible(world, env, tx)
      modifies this
      ensures Valid()
      ensures Step(h, old(world), env, tx) == if ok then Some(world) else None
      ensures world == Next(h, old(world), Call(env, tx))
      ensures Extends(old(world), world)
    {
      hide Inv, PlanOf, Commit, QueryAnswered, Extends;
      BeginReady(world, env);
      SameQuery(world, env, tx);
      var s := new Stub(h, Begin(world, env), env);
      ok := Route(s, tx);
      if ok {
        StepKeepsInv(h, world, env, tx);
        StepExtends(h, world, env, tx);
        world := s.next;
      } else {
        ExtendsSelf(world);
      }
    }
  }
}
