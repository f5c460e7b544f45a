/** transfer_tx.go and balance_tx.go: transfers, their contract callbacks, and withdrawals. */
module TransferTx {
  import opened Sums
  import opened Addresses
  import opened RecordIds
  import opened Amounts
  import opened Ledger
  import opened Fields
  import opened Rules
  import opened Invariants
  import opened Steps
  import opened Shim
  import BalanceStub
  import FeeStub
  import AccountStub

  // The guard that begins every transaction on money: the invoker holds the account,
  // and it is not suspended.
  method HolderOfActive(s: Stub, a: Address) returns (ok: bool)
    ensures ok <==> Authorised(s.state, a, s.env.kid) && Active(s.state, a)
  {
    if a !in s.state.accounts {
      return false;
    }
    var account := s.state.accounts[a];
    ok := HasHolder(a, account, s.env.kid) && !account.suspended;
  }

  // The signers of an account and of further addresses.
  method SignersOf(s: Stub, a: Address, extra: seq<Address>) returns (signers: Option<set<string>>)
    requires a in s.state.accounts
    ensures signers == Gather(s.state, a.code, extra, OwnSigners(s.state, a, s.env.kid))
  {
    var own := {s.env.kid};
    if a.kind == JOINT {
      own := own + s.state.accounts[a].holders;
    }
    signers := AccountStub.GatherSigners(s, a.code, extra, own);
  }

  // A contract is created and the money deposited with it.
  method Propose(s: Stub, sender: BalanceDoc, con: Con, doc: Doc, amount: int, fee: Option<int>) returns (ok: bool)
    requires sender.Mirrors(s.next) && s.Unlogged(sender.id)
    modifies s, sender.amount
    ensures Commit(old(s.next), Deposit(s.env, sender.id, con, doc, amount, fee)) == if ok then Some(s.next) else None
  {
    ghost var w, e := s.next, PutContract(con.cid, doc);
    s.CreateContract(con, doc);
    PutContractFields(w, e);
    hide Apply, Commit;
    CommitStep(w, e, Escrow(s.env, sender.id, con.cid, con.expiry, amount, fee));
    ok := BalanceStub.Deposit(s, s.env.txid, sender, con, amount, fee);
  }

  method Transfer(s: Stub, sender: Address, receiver: Address, amount: int, lockSeconds: Option<int>, orderId: string, extra: seq<Address>, con: Con) returns (ok: bool)
    requires s.next == s.state
    modifies s
    ensures Outcome(s.state, Rules.Transfer(s.state, s.env, sender, receiver, amount, lockSeconds, orderId, extra, con)) == if ok then Some(s.next) else None
  {
    hide Commit, Gather, CalcFee;
    if amount <= 0 || receiver.code != sender.code || sender == receiver {
      return false;
    }
    var entitled := HolderOfActive(s, sender);
    if !entitled || receiver !in s.state.accounts || s.state.accounts[receiver].suspended {
      return false;
    }
    var sBal := s.GetBalance(sender);
    var rBal := s.GetBalance(receiver);
    if sBal == null || rBal == null {
      return false;
    }
    var fee := FeeStub.CalcFee(s, sender, "transfer", amount);
    if fee.None? {
      return false;
    }
    var applied := new Amount(amount);
    var charge := new Amount(fee.value);
    applied.Add(charge);
    if sBal.amount.Cmp(applied) < 0 {
      return false;
    }
    var pendingTime := None;
    if lockSeconds.Some? && s.env.ts / NANOS < lockSeconds.value {
      pendingTime := Some(lockSeconds.value * NANOS);
    }
    var signers := SignersOf(s, sender, extra);
    if signers.None? || |signers.value| > MAX_SIGNERS {
      return false;
    }
    if |signers.value| > 1 {
      ok := Propose(s, sBal, con, DocTransfer(s.env.txid, sender, receiver, orderId), amount, fee);
    } else {
      ok := BalanceStub.Transfer(s, sBal, rBal, amount, fee.value, pendingTime);
    }
  }

  method ExecuteTransfer(s: Stub, cid: string, doc: Doc) returns (ok: bool)
    requires s.next == s.state && Inv(s.state) && doc.DocTransfer?
    modifies s
    ensures Outcome(s.state, Rules.ExecuteTransfer(s.state, s.env, cid, doc)) == if ok then Some(s.next) else None
  {
    hide Inv, Commit;
    if doc.pb !in s.state.pendings {
      return false;
    }
    var pb := s.state.pendings[doc.pb];
    PendingOf(s.state, doc.pb);
    if pb.custody != ContractHeld || pb.rid != ToId(cid) {
      return false;
    }
    var sBal := s.GetBalance(doc.sender);
    var rBal := s.GetBalance(doc.receiver);
    if sBal == null || rBal == null {
      return false;
    }
    var pendingTime: Option<int> := None;
    if doc.orderId != "" && doc.orderId != "0" {
      var seconds := ParseInt(doc.orderId);
      if seconds.None? {
        return false;
      }
      pendingTime := Some(seconds.value * NANOS);
    }
    ok := BalanceStub.TransferPendingBalance(s, doc.pb, pb, sBal, rBal, pendingTime);
  }

  // The money of a transfer, pay or wrap goes back to its owner.
  method CancelTransfer(s: Stub, cid: string, doc: Doc) returns (ok: bool)
    requires s.next == s.state && doc.Money()
    modifies s
    ensures Outcome(s.state, Rules.CancelTransfer(s.state, s.env, cid, doc)) == if ok then Some(s.next) else None
  {
    hide Commit;
    if doc.pb !in s.state.pendings {
      return false;
    }
    var pb := s.state.pendings[doc.pb];
    if pb.custody != ContractHeld || pb.rid != ToId(cid) {
      return false;
    }
    ok := BalanceStub.Withdraw(s, doc.pb, pb);
  }

  // Only the holder of the owning account, and only when the time has come.
  method BalancePendingWithdraw(s: Stub, pid: string) returns (ok: bool)
    requires s.next == s.state && Inv(s.state)
    modifies s
    ensures Outcome(s.state, PendingWithdraw(s.state, s.env, pid)) == if ok then Some(s.next) else None
  {
    hide Inv, Commit;
    if pid !in s.state.pendings {
      return false;
    }
    var pb := s.state.pendings[pid];
    PendingOf(s.state, pid);
    if pb.pendingTime > s.env.ts {
      return false;
    }
    var entitled := HolderOfActive(s, pb.account);
    if !entitled {
      return false;
    }
    ok := BalanceStub.Withdraw(s, pid, pb);
  }
}
