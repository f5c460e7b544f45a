/** account_stub.go: accounts, their holders, and the index from holders to accounts. */
module AccountStub {
  import opened Sums
  import opened Addresses
  import opened Ledger
  import opened Fields
  import opened Rules
  import opened Shim

  method CreateAccount(s: Stub, code: string, kid: string) returns (ok: bool)
    requires s.next == s.state
    modifies s
    ensures var a := NewAddress(s.h, code, PERSONAL, kid);
      && (ok <==> a !in s.state.accounts)
      && (ok ==> s.next == Apply(old(s.next), OpenAccount(a, Account({}, false), {kid})))
  {
    var a := NewAddress(s.h, code, PERSONAL, kid);
    if a in s.state.accounts {
      return false;
    }
    hide Apply;
    ghost var w := s.next;
    s.PutAccount(a, Account({}, false));
    var bal := new BalanceDoc(a, 0, "");
    s.PutBalance(bal);
    s.PutHolder(kid, a);
    OpenAccountFields(w, OpenAccount(a, Account({}, false), {kid}));
    assert {(kid, a)} == set k | k in {kid} :: (k, a);
    ok := true;
  }

  // The random address of a joint account is made from the transaction id. Every
  // holder gets an entry in the index.
  method CreateJointAccount(s: Stub, code: string, kids: set<string>) returns (bal: BalanceDoc?)
    requires s.next == s.state
    modifies s
    ensures var a := NewAddress(s.h, code, JOINT, s.env.txid);
      && (bal == null <==> a in s.state.accounts)
      && (bal != null ==>
            && fresh(bal) && fresh(bal.amount) && bal.id == a && bal.amount.v == 0 && bal.mark == ""
            && s.next == Apply(old(s.next), OpenAccount(a, Account(kids, false), kids)))
  {
    var a := NewAddress(s.h, code, JOINT, s.env.txid);
    if a in s.state.accounts {
      return null;
    }
    hide Apply, NewAddress, Entries;
    ghost var w := s.next;
    s.PutAccount(a, Account(kids, false));
    bal := new BalanceDoc(a, 0, "");
    s.PutBalance(bal);
    PutHolders(s, kids, a);
    OpensWithEntries(w, OpenAccount(a, Account(kids, false), kids));
  }

  method PutHolders(s: Stub, kids: set<string>, a: Address)
    modifies s
    ensures s.next == old(s.next).(holders := old(s.next).holders + Entries(kids, a))
  {
    ghost var w := s.next;
    var rest := kids;
    assert Entries(kids - rest, a) == {};
    hide Entries;
    while rest != {}
      invariant rest <= kids
      invariant s.next == w.(holders := w.holders + Entries(kids - rest, a))
      decreases |rest|
    {
      var k :| k in rest;
      OneMoreEntry(kids - rest, k, a);
      assert kids - (rest - {k}) == (kids - rest) + {k};
      s.PutHolder(k, a);
      rest := rest - {k};
    }
    assert kids - rest == kids;
  }

  lemma OpensWithEntries(w: World, e: Effect)
    requires e.OpenAccount?
    ensures Apply(w, e) == w.(accounts := w.accounts[e.a := e.acc], balances := w.balances[e.a := Balance(0, "")],
                              holders := w.holders + Entries(e.kids, e.a))
  {
    OpenAccountFields(w, e);
    hide Apply;
  }

  // The index entries of an account.
  ghost function Entries(kids: set<string>, a: Address): set<(string, Address)> {
    set k | k in kids :: (k, a)
  }

  lemma OneMoreEntry(kids: set<string>, k: string, a: Address)
    ensures Entries(kids + {k}, a) == Entries(kids, a) + {(k, a)}
  {
  }

  method SetSuspension(s: Stub, code: string, kid: string, flag: bool) returns (ok: bool)
    requires s.next == s.state
    modifies s
    ensures var a := NewAddress(s.h, code, PERSONAL, kid);
      && (ok <==> a in s.state.accounts && s.state.accounts[a].suspended != flag)
      && (ok ==> s.next == Apply(old(s.next), SetSuspended(a, flag)))
  {
    hide Apply;
    var a := NewAddress(s.h, code, PERSONAL, kid);
    if a !in s.state.accounts || s.state.accounts[a].suspended == flag {
      return false;
    }
    SetSuspendedFields(s.next, SetSuspended(a, flag));
    s.PutAccount(a, s.state.accounts[a].(suspended := flag));
    ok := true;
  }

  method AddHolder(s: Stub, a: Address, account: Account, kid: string) returns (ok: bool)
    requires a in s.next.accounts && s.next.accounts[a] == account
    modifies s
    ensures ok <==> kid !in account.holders
    ensures ok ==> s.next == Apply(old(s.next), Effect.AddHolder(a, kid))
  {
    hide Apply;
    if kid in account.holders {
      return false;
    }
    AddHolderFields(s.next, Effect.AddHolder(a, kid));
    s.PutAccount(a, account.(holders := account.holders + {kid}));
    s.PutHolder(kid, a);
    ok := true;
  }

  method RemoveHolder(s: Stub, a: Address, account: Account, kid: string) returns (ok: bool)
    requires a in s.next.accounts && s.next.accounts[a] == account
    modifies s
    ensures ok <==> kid in account.holders
    ensures ok ==> s.next == Apply(old(s.next), DropHolder(a, kid))
  {
    hide Apply;
    if kid !in account.holders {
      return false;
    }
    DropHolderFields(s.next, DropHolder(a, kid));
    s.PutAccount(a, account.(holders := account.holders - {kid}));
    s.DeleteHolder(kid, a);
    ok := true;
  }

  // The loop that collects the holders behind account addresses, for signatures.
  method GatherSigners(s: Stub, code: string, extra: seq<Address>, start: set<string>) returns (signers: Option<set<string>>)
    ensures signers == Gather(s.state, code, extra, start)
  {
    var kids := start;
    var i := 0;
    while i < |extra|
      invariant 0 <= i <= |extra|
      invariant Gather(s.state, code, extra[..i], start) == Some(kids)
    {
      assert extra[..i + 1][..i] == extra[..i];
      var more := SignableIDs(s.state, code, extra[i]);
      if more.None? {
        GatherFails(s.state, code, extra, i + 1, start);
        return None;
      }
      kids := kids + more.value;
      i := i + 1;
    }
    assert extra[..i] == extra;
    signers := Some(kids);
  }

  lemma {:induction false} GatherFails(w: World, code: string, extra: seq<Address>, i: nat, start: set<string>)
    requires i <= |extra| && Gather(w, code, extra[..i], start).None?
    ensures Gather(w, code, extra, start).None?
    decreases |extra| - i
  {
    if i == |extra| {
      assert extra[..i] == extra;
    } else {
      assert extra[..i + 1][..i] == extra[..i];
      GatherFails(w, code, extra, i + 1, start);
    }
  }

  // Every signer is the invoker, a holder of the own account, or one behind a given
  // address; and all of them are there.
  lemma {:induction false} GatheredExactly(w: World, code: string, extra: seq<Address>, start: set<string>, kid: string)
    requires Gather(w, code, extra, start).Some?
    ensures kid in Gather(w, code, extra, start).value <==>
      kid in start || exists a :: a in extra && SignableIDs(w, code, a).Some? && kid in SignableIDs(w, code, a).value
    ensures forall a :: a in extra ==> SignableIDs(w, code, a).Some?
  {
    if extra != [] {
      var init, last := extra[..|extra| - 1], extra[|extra| - 1];
      GatheredExactly(w, code, init, start, kid);
      assert extra == init + [last];
    }
  }
}
