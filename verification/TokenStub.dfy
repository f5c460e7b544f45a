/** token_stub.go: the token document, its supply, and the genesis account. */
module TokenStub {
  import opened Sums
  import opened Addresses
  import opened Amounts
  import opened Ledger
  import opened Fields
  import opened Rules
  import opened Shim
  import opened BalanceStub
  import opened AccountStub

  /** A token document as the code holds it: its supply is changed in place. */
  class TokenDoc {
    const code: string
    const rest: Token
    var supply: Amount

    constructor (code: string, token: Token)
      ensures this.code == code && rest == token && fresh(supply) && supply.v == token.supply
    {
      this.code, this.rest := code, token;
      this.supply := new Amount(token.supply);
    }

    function Value(): Token
      reads this, supply
    {
      rest.(supply := supply.v)
    }

    ghost predicate Mirrors(w: World)
      reads this, supply
    {
      code in w.tokens && w.tokens[code] == Value()
    }
  }

  function Min(x: int, y: int): (r: int)
    ensures r <= x && r <= y && (r == x || r == y)
  {
    if x < y then x else y
  }

  // The supply and the balance of the genesis account grow by the same amount, as far
  // as the maximum allows, although the supply is negated in place on the way.
  method Mint(s: Stub, token: TokenDoc, bal: BalanceDoc, amount: int) returns (ok: bool)
    requires token.Mirrors(s.next) && bal.id == token.rest.genesis && bal.Mirrors(s.next) && s.Unlogged(bal.id)
    requires token.supply != bal.amount
    modifies s, token, token.supply, bal.amount
    ensures Outcome(old(s.next), Rules.Mint(old(s.next), s.env, token.code, amount)) == if ok then Some(s.next) else None
    ensures old(token.supply.v) >= token.rest.maxSupply ==> !ok
    ensures ok ==>
      && token.supply.v == Min(old(token.supply.v) + amount, token.rest.maxSupply)
      && bal.amount.v - old(bal.amount.v) == token.supply.v - old(token.supply.v)
  {
    hide Apply;
    ghost var w := s.next;
    var max := new Amount(token.rest.maxSupply);
    if token.supply.Cmp(max) >= 0 {
      return false;
    }
    var x := Raise(token, amount, max);
    ghost var put := PutToken(token.code, token.Value());
    ghost var post := Post(bal.id, if x.v < 0 then BurnLog else MintLog, NoRef, x.v, 0, s.env.ts);
    PutTokenFields(w, put);
    s.PutToken(token.code, token.Value());
    ok := BalanceStub.Supply(s, bal, x.v);
    CommitStep(w, put, Then(post, Done));
    CommitLast(Apply(w, put), post);
  }

  // Adds to the supply; above the maximum it is set to the maximum, and the amount
  // becomes the real difference. The supply is negated in place to compute it.
  method Raise(token: TokenDoc, amount: int, max: Amount) returns (x: Amount)
    requires max.v == token.rest.maxSupply && max != token.supply
    modifies token, token.supply
    ensures fresh(x) && (token.supply == old(token.supply) || token.supply == max)
    ensures token.supply.v == Min(old(token.supply.v) + amount, token.rest.maxSupply)
    ensures x.v == token.supply.v - old(token.supply.v)
  {
    x := new Amount(amount);
    token.supply.Add(x);
    if max.Cmp(token.supply) < 0 {
      x.Add(max);
      token.supply.Neg();
      x.Add(token.supply);
      token.supply := max;
    }
  }

  method Burn(s: Stub, token: TokenDoc, bal: BalanceDoc, amount: int) returns (ok: bool)
    requires token.Mirrors(s.next) && bal.id == token.rest.genesis && bal.Mirrors(s.next) && s.Unlogged(bal.id)
    requires token.supply != bal.amount
    modifies s, token.supply, bal.amount
    ensures Outcome(old(s.next), Rules.Burn(old(s.next), s.env, token.code, amount)) == if ok then Some(s.next) else None
    ensures old(token.supply.v) == 0 ==> !ok
    ensures ok ==>
      && bal.amount.v == old(bal.amount.v) - Max0(Min(amount, old(bal.amount.v)))
      && bal.amount.v - old(bal.amount.v) == token.supply.v - old(token.supply.v)
  {
    hide Apply;
    ghost var w := s.next;
    if token.supply.v == 0 {
      return false;
    }
    var x := new Amount(amount);
    if bal.amount.Cmp(x) < 0 {
      x := bal.amount.Copy();
    }
    if x.v <= 0 {
      CommitNothing(w);
      return true;
    }
    x.Neg();
    ok := BalanceStub.Supply(s, bal, x.v);
    if !ok {
      return;
    }
    ghost var post := Post(bal.id, BurnLog, NoRef, x.v, 0, s.env.ts);
    token.supply.Add(x);
    CommitLast(s.next, PutToken(token.code, token.Value()));
    s.PutToken(token.code, token.Value());
  }

  // Whether every wrap account of a bridge exists.
  method CheckBridge(s: Stub, bridge: map<string, Address>) returns (ok: bool)
    ensures ok <==> BridgeKnown(s.state, bridge)
  {
    var rest := bridge.Keys;
    while rest != {}
      invariant rest <= bridge.Keys
      invariant forall ext :: ext in bridge.Keys - rest ==> bridge[ext] in s.state.accounts
      decreases |rest|
    {
      var ext :| ext in rest;
      if bridge[ext] !in s.state.accounts {
        return false;
      }
      rest := rest - {ext};
    }
    ok := true;
  }

  method CreateToken(s: Stub, code: string, meta: Meta, kids: set<string>) returns (ok: bool)
    requires s.next == s.state
    modifies s
    ensures Outcome(old(s.next), Rules.CreateToken(s.h, old(s.next), s.env, code, meta, kids)) == if ok then Some(s.next) else None
  {
    hide Apply, NewAddress, BridgeKnown;
    ghost var w := s.next;
    var balance := CreateJointAccount(s, code, kids);
    if balance == null {
      return false;
    }
    ghost var open := OpenAccount(balance.id, Account(kids, false), kids);
    ghost var w1 := s.next;
    OpenAccountFields(w, open);
    var policy: Option<Policy> := None;
    if meta.policy.Some? {
      var target := balance.id;
      if meta.policy.value.target.Some? {
        target := meta.policy.value.target.value;
        if target !in s.state.accounts {
          return false;
        }
      }
      policy := Some(Policy(target, meta.policy.value.rates));
    }
    var known := CheckBridge(s, BridgeOr(meta.bridge, map[]));
    if !known {
      return false;
    }
    var token := Token(meta.maxSupply, meta.initial, "", balance.id, policy, BridgeOr(meta.bridge, map[]));
    ghost var put := PutToken(code, token);
    CommitStep(w, open, Then(put, Done));
    if meta.initial > 0 {
      ghost var post := Post(balance.id, MintLog, NoRef, meta.initial, 0, s.env.ts);
      CommitStep(w, open, Then(post, Then(put, Done)));
      CommitStep(w1, post, Then(put, Done));
      ok := BalanceStub.Supply(s, balance, meta.initial);
      if !ok {
        return;
      }
    }
    CommitLast(s.next, put);
    s.PutToken(code, token);
    ok := true;
  }
}
