/** token_tx.go: creating, updating, minting and burning tokens. */
module TokenTx {
  import opened Sums
  import opened Addresses
  import opened Ledger
  import opened Fields
  import opened Rules
  import opened Shim
  import opened TokenStub
  import AccountStub

  method TokenCreate(s: Stub, code: string, meta: Meta, co: seq<Address>, con: Con) returns (ok: bool)
    requires s.next == s.state
    modifies s
    ensures Outcome(s.state, Rules.TokenCreate(s.h, s.state, s.env, code, meta, co, con)) == if ok then Some(s.next) else None
  {
    hide Commit, Apply, Gather, Rules.CreateToken;
    if ValidateTokenCode(code) != Some(code) || code in s.state.tokens || !(0 <= meta.initial <= meta.maxSupply) {
      return false;
    }
    var holders := AccountStub.GatherSigners(s, code, co, {s.env.kid});
    if holders.None? {
      return false;
    }
    if |holders.value| > 1 {
      CommitLast(s.next, PutContract(con.cid, DocTokenCreate(code, holders.value)));
      s.CreateContract(con, DocTokenCreate(code, holders.value));
      return true;
    }
    ok := TokenStub.CreateToken(s, code, meta, holders.value);
  }

  // The rates are replaced, or removed when there is no policy any more; the target is
  // replaced only by a new one.
  method TokenUpdate(s: Stub, code: string, meta: Meta) returns (ok: bool)
    requires s.next == s.state
    modifies s
    ensures Outcome(s.state, Rules.TokenUpdate(s.state, code, meta)) == if ok then Some(s.next) else None
  {
    hide Commit, Apply, BridgeKnown;
    if code !in s.state.tokens || !(0 <= meta.initial <= meta.maxSupply) {
      return false;
    }
    var token := s.state.tokens[code];
    var policy := token.policy;
    var update := false;
    if meta.policy.None? {
      if policy.Some? {
        policy := Some(policy.value.(rates := map[]));
        update := true;
      }
    } else {
      var target := if policy.None? then token.genesis else policy.value.target;
      if meta.policy.value.target.Some? {
        target := meta.policy.value.target.value;
        if target !in s.state.accounts {
          return false;
        }
      }
      policy := Some(Policy(target, meta.policy.value.rates));
      update := true;
    }
    var bridge := token.bridge;
    NoBridge(s.state);
    if meta.bridge.Some? {
      var known := CheckBridge(s, meta.bridge.value);
      if !known {
        return false;
      }
      bridge := meta.bridge.value;
      update := true;
    }
    if update {
      var updated := token.(policy := policy, bridge := bridge);
      CommitLast(s.next, PutToken(code, updated));
      s.PutToken(code, updated);
    } else {
      CommitNothing(s.next);
    }
    ok := true;
  }

  lemma NoBridge(w: World)
    ensures BridgeKnown(w, map[])
  {
  }

  // The guards shared by mint and burn: the genesis account has its invoker as a holder.
  method Genesis(s: Stub, code: string) returns (bal: BalanceDoc?)
    requires code in s.state.tokens
    ensures var genesis := s.state.tokens[code].genesis;
      && (bal != null <==> Authorised(s.state, genesis, s.env.kid) && genesis in s.state.balances)
      && (bal != null ==> fresh(bal) && fresh(bal.amount) && bal.id == genesis && bal.Mirrors(s.state))
  {
    var genesis := s.state.tokens[code].genesis;
    if genesis !in s.state.accounts || !HasHolder(genesis, s.state.accounts[genesis], s.env.kid) {
      return null;
    }
    bal := s.GetBalance(genesis);
  }

  // amount is the answer of the token chaincode.
  method TokenMint(s: Stub, code: string, amount: int, con: Con) returns (ok: bool)
    requires s.next == s.state
    modifies s
    ensures Outcome(s.state, Rules.TokenMint(s.state, s.env, code, amount, con)) == if ok then Some(s.next) else None
  {
    hide Commit, Apply, Rules.Mint;
    if code !in s.state.tokens || s.state.tokens[code].supply >= s.state.tokens[code].maxSupply {
      return false;
    }
    var bal := Genesis(s, code);
    if bal == null || amount < 0 {
      return false;
    }
    if |s.state.accounts[bal.id].holders| > 1 {
      CommitLast(s.next, PutContract(con.cid, DocMint(code, amount)));
      s.CreateContract(con, DocMint(code, amount));
      return true;
    }
    var token := new TokenDoc(code, s.state.tokens[code]);
    ok := TokenStub.Mint(s, token, bal, amount);
  }

  method TokenBurn(s: Stub, code: string, amount: int, con: Con) returns (ok: bool)
    requires s.next == s.state
    modifies s
    ensures Outcome(s.state, Rules.TokenBurn(s.state, s.env, code, amount, con)) == if ok then Some(s.next) else None
  {
    hide Commit, Apply, Rules.Burn;
    if code !in s.state.tokens {
      return false;
    }
    var bal := Genesis(s, code);
    if bal == null || bal.amount.v == 0 || amount < 0 || s.state.tokens[code].supply < amount {
      return false;
    }
    if |s.state.accounts[bal.id].holders| > 1 {
      CommitLast(s.next, PutContract(con.cid, DocBurn(code, amount)));
      s.CreateContract(con, DocBurn(code, amount));
      return true;
    }
    var token := new TokenDoc(code, s.state.tokens[code]);
    ok := TokenStub.Burn(s, token, bal, amount);
  }

  // The callbacks decide again on the state of their own time; a burn does not compare
  // the amount with the supply any more.
  method ExecuteTokenMint(s: Stub, code: string, amount: int) returns (ok: bool)
    requires s.next == s.state
    modifies s
    ensures Outcome(s.state, Rules.Mint(s.state, s.env, code, amount)) == if ok then Some(s.next) else None
  {
    if code !in s.state.tokens {
      return false;
    }
    var bal := s.GetBalance(s.state.tokens[code].genesis);
    if bal == null {
      return false;
    }
    hide Commit, Apply, Rules.Mint;
    var token := new TokenDoc(code, s.state.tokens[code]);
    ok := TokenStub.Mint(s, token, bal, amount);
  }

  method ExecuteTokenBurn(s: Stub, code: string, amount: int) returns (ok: bool)
    requires s.next == s.state
    modifies s
    ensures Outcome(s.state, Rules.Burn(s.state, s.env, code, amount)) == if ok then Some(s.next) else None
  {
    if code !in s.state.tokens {
      return false;
    }
    var bal := s.GetBalance(s.state.tokens[code].genesis);
    if bal == null {
      return false;
    }
    hide Commit, Apply, Rules.Burn;
    var token := new TokenDoc(code, s.state.tokens[code]);
    ok := TokenStub.Burn(s, token, bal, amount);
  }

  method ExecuteTokenCreate(s: Stub, code: string, kids: set<string>, meta: Meta) returns (ok: bool)
    requires s.next == s.state
    modifies s
    ensures Outcome(s.state, if code in s.state.tokens || !MetaValid(meta) then None else Rules.CreateToken(s.h, s.state, s.env, code, meta, kids))
         == if ok then Some(s.next) else None
  {
    hide Commit, Apply, Rules.CreateToken;
    if code in s.state.tokens || !(0 <= meta.initial <= meta.maxSupply) {
      return false;
    }
    ok := TokenStub.CreateToken(s, code, meta, kids);
  }
}
