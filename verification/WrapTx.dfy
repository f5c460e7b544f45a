/** wrap_tx.go: the guards of the bridge. */
module WrapTx {
  import opened Sums
  import opened Addresses
  import opened Amounts
  import opened Ledger
  import opened Fields
  import opened Rules
  import opened Shim
  import opened TransferTx
  import WrapStub

  // The wrap account of a token for an external code.
  method GetWrapAddress(s: Stub, code: string, extCode: string) returns (wrapper: Option<Address>)
    ensures wrapper == WrapAddress(s.state, code, extCode)
  {
    if code !in s.state.tokens {
      return None;
    }
    var bridge := s.state.tokens[code].bridge;
    wrapper := if extCode in bridge then Some(bridge[extCode]) else None;
  }

  method Wrap(s: Stub, sender: Address, extCode: string, extId: string, amount: int, extra: seq<Address>, con: Con) returns (ok: bool)
    requires s.next == s.state
    modifies s
    ensures Outcome(s.state, Rules.Wrap(s.state, s.env, sender, extCode, extId, amount, extra, con)) == if ok then Some(s.next) else None
  {
    hide Commit, Gather;
    if amount <= 0 {
      return false;
    }
    var wrapper := GetWrapAddress(s, sender.code, extCode);
    if wrapper.None? {
      return false;
    }
    var entitled := HolderOfActive(s, sender);
    if !entitled || sender == wrapper.value || wrapper.value !in s.state.accounts || s.state.accounts[wrapper.value].suspended {
      return false;
    }
    var sBal := s.GetBalance(sender);
    if sBal == null {
      return false;
    }
    var needed := new Amount(amount);
    if sBal.amount.Cmp(needed) < 0 {
      return false;
    }
    var signers := SignersOf(s, sender, extra);
    if signers.None? || |signers.value| > MAX_SIGNERS {
      return false;
    }
    if |signers.value| > 1 {
      ok := Propose(s, sBal, con, DocWrap(s.env.txid, sender, extCode, extId), amount, None);
    } else {
      ok := WrapStub.Wrap(s, sBal, amount, extCode, extId);
    }
  }

  method WrapComplete(s: Stub, wrapId: string, feeParam: int, extTx: Option<string>) returns (ok: bool)
    requires s.next == s.state
    modifies s
    ensures Outcome(s.state, Rules.WrapComplete(s.state, s.env, wrapId, feeParam, extTx)) == if ok then Some(s.next) else None
  {
    hide Commit;
    if feeParam < 0 {
      return false;
    }
    var fee, extTxId := feeParam, "";
    if extTx.Some? {
      var normal := NormalizeExtTxID(extTx.value);
      if normal.None? {
        return false;
      }
      extTxId := normal.value;
    } else {
      fee := 0;
    }
    hide NormalizeExtTxID;
    if wrapId !in s.state.wraps {
      return false;
    }
    var wrap := s.state.wraps[wrapId];
    if wrap.completeTx != "" {
      return false;
    }
    var wrapper := GetWrapAddress(s, wrap.address.code, wrap.extCode);
    if wrapper.None? {
      return false;
    }
    var entitled := HolderOfActive(s, wrapper.value);
    if !entitled {
      return false;
    }
    var wBal := s.GetBalance(wrapper.value);
    if wBal == null {
      return false;
    }
    ok := WrapStub.WrapComplete(s, wrapId, wrap, wBal, fee, extTxId);
  }

  // The marker of the external transaction is written first; it only stays if everything succeeds.
  method Unwrap(s: Stub, codeParam: string, receiverParam: Option<Address>, extCode: string, extId: string, extTx: string, amount: int) returns (ok: bool)
    requires s.next == s.state
    modifies s
    ensures Outcome(s.state, Rules.Unwrap(s.state, s.env, codeParam, receiverParam, extCode, extId, extTx, amount)) == if ok then Some(s.next) else None
  {
    hide Commit, NormalizeExtTxID, Apply;
    var ext := NormalizeExtTxID(extTx);
    if ext.None? || ext.value in s.state.unwraps || amount <= 0 {
      return false;
    }
    var code := if receiverParam.Some? then receiverParam.value.code else codeParam;
    var wAddr := GetWrapAddress(s, code, extCode);
    if wAddr.None? {
      return false;
    }
    var wrapper := wAddr.value;
    var receiver := if receiverParam.Some? then receiverParam.value else wrapper;
    var entitled := HolderOfActive(s, wrapper);
    if !entitled || receiver !in s.state.accounts || s.state.accounts[receiver].suspended {
      return false;
    }
    var rBal := s.GetBalance(receiver);
    var wBal := s.GetBalance(wrapper);
    if rBal == null || wBal == null {
      return false;
    }
    ok := Release(s, ext.value, wBal, rBal, extId, amount);
  }

  // The part of unwrap that writes.
  method Release(s: Stub, ext: string, wBal: BalanceDoc, rBal: BalanceDoc, extId: string, amount: int) returns (ok: bool)
    requires wBal.Mirrors(s.next) && rBal.Mirrors(s.next) && wBal.amount != rBal.amount && s.Unlogged(wBal.id) && s.Unlogged(rBal.id)
    modifies s, wBal.amount, rBal.amount
    ensures wBal.id != rBal.id && old(wBal.amount.v) < amount ==> !ok
    ensures wBal.id != rBal.id && old(wBal.amount.v) >= amount ==>
      Commit(old(s.next), Then(PutUnwrap(ext, UnwrapRec(s.env.txid, wBal.id, amount)), WrapStub.UnwrapPlan(s.env, wBal.id, rBal.id, amount, extId)))
      == if ok then Some(s.next) else None
    ensures wBal.id == rBal.id ==>
      Commit(old(s.next), Then(PutUnwrap(ext, UnwrapRec(s.env.txid, wBal.id, 0)),
                          Then(Post(wBal.id, UnwrapCompleteLog, ToAccount(wBal.id), 0, 0, s.env.ts), Done)))
      == if ok then Some(s.next) else None
  {
    hide Commit, Apply;
    var unwrap := UnwrapRec(s.env.txid, wBal.id, if wBal.id != rBal.id then amount else 0);
    ghost var w, e := s.next, PutUnwrap(ext, unwrap);
    s.PutUnwrap(ext, unwrap);
    PutUnwrapFields(w, e);
    if wBal.id != rBal.id {
      var needed := new Amount(amount);
      if wBal.amount.Cmp(needed) < 0 {
        return false;
      }
      CommitStep(w, e, WrapStub.UnwrapPlan(s.env, wBal.id, rBal.id, amount, extId));
      ok := WrapStub.Unwrap(s, wBal, rBal, amount, extId);
    } else {
      CommitStep(w, e, Then(Post(wBal.id, UnwrapCompleteLog, ToAccount(wBal.id), 0, 0, s.env.ts), Done));
      ok := WrapStub.UnwrapImpossible(s, wBal);
    }
  }

  method ExecuteWrap(s: Stub, cid: string, doc: Doc) returns (ok: bool)
    requires s.next == s.state && doc.DocWrap?
    modifies s
    ensures Outcome(s.state, Rules.ExecuteWrap(s.state, s.env, cid, doc)) == if ok then Some(s.next) else None
  {
    hide Commit;
    if doc.pb !in s.state.pendings {
      return false;
    }
    var pb := s.state.pendings[doc.pb];
    if pb.custody != ContractHeld || pb.rid != ToId(cid) {
      return false;
    }
    var sBal := s.GetBalance(doc.sender);
    if sBal == null {
      return false;
    }
    WrapStub.WrapPendingBalance(s, doc.pb, pb, doc.sender, doc.extCode, doc.extId);
    ok := true;
  }
}
