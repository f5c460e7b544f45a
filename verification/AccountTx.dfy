/** account_tx.go: accounts and the contracts that change their holders. */
module AccountTx {
  import opened Sums
  import opened Addresses
  import opened Ledger
  import opened Fields
  import opened Rules
  import opened Shim
  import AccountStub

  // known tells whether the token chaincode answers for a token not issued yet.
  method AccountCreate(s: Stub, code: string, known: bool) returns (ok: bool)
    requires s.next == s.state
    modifies s
    ensures Outcome(s.state, Rules.AccountCreate(s.h, s.state, s.env, code, known)) == if ok then Some(s.next) else None
  {
    hide Commit, Apply, NewAddress;
    if ValidateTokenCode(code) != Some(code) || !(code in s.state.tokens || known) {
      return false;
    }
    ok := AccountStub.CreateAccount(s, code, s.env.kid);
    CommitLast(s.state, OpenAccount(NewAddress(s.h, code, PERSONAL, s.env.kid), Account({}, false), {s.env.kid}));
  }

  // The proposal only collects the holders; they have to sign a contract.
  method Propose(s: Stub, con: Con, doc: Doc)
    modifies s
    ensures Commit(old(s.next), Then(PutContract(con.cid, doc), Done)) == Some(s.next)
  {
    hide Commit, Apply;
    CommitLast(s.next, PutContract(con.cid, doc));
    s.CreateContract(con, doc);
  }

  // The loop that reads the given addresses.
  method ParseAddresses(h: Hasher, texts: seq<string>) returns (addrs: Option<seq<Address>>)
    ensures addrs == ParseAll(h, texts)
    ensures addrs.Some? ==> |addrs.value| == |texts| && forall i :: 0 <= i < |texts| ==> ParseAddress(h, texts[i]) == Some(addrs.value[i])
    ensures addrs.None? ==> exists i :: 0 <= i < |texts| && ParseAddress(h, texts[i]).None?
  {
    hide ParseAddress;
    var read: seq<Address> := [];
    var i := 0;
    while i < |texts|
      invariant 0 <= i <= |texts| && |read| == i
      invariant ParseAll(h, texts[..i]) == Some(read)
      invariant forall j :: 0 <= j < i ==> ParseAddress(h, texts[j]) == Some(read[j])
    {
      assert texts[..i + 1][..i] == texts[..i];
      var a := ParseAddress(h, texts[i]);
      if a.None? {
        ParseFails(h, texts, i + 1);
        return None;
      }
      read := read + [a.value];
      i := i + 1;
    }
    assert texts[..i] == texts;
    addrs := Some(read);
  }

  lemma {:induction false} ParseFails(h: Hasher, texts: seq<string>, i: nat)
    requires i <= |texts| && ParseAll(h, texts[..i]).None?
    ensures ParseAll(h, texts).None?
    decreases |texts| - i
  {
    hide ParseAddress;
    if i == |texts| {
      assert texts[..i] == texts;
    } else {
      assert texts[..i + 1][..i] == texts[..i];
      ParseFails(h, texts, i + 1);
    }
  }

  method JointAccountCreate(s: Stub, code: string, known: bool, co: seq<string>, con: Con) returns (ok: bool)
    requires s.next == s.state
    modifies s
    ensures Outcome(s.state, JointCreate(s.h, s.state, s.env, code, known, co, con)) == if ok then Some(s.next) else None
  {
    hide Commit, Apply, NewAddress, Gather, ParseAll;
    if ValidateTokenCode(code) != Some(code) || !(code in s.state.tokens || known)
       || NewAddress(s.h, code, PERSONAL, s.env.kid) !in s.state.accounts {
      return false;
    }
    var texts := set t | t in co;
    assert texts == Elements(co);
    if |texts| > 128 {
      return false;
    }
    var addrs := ParseAddresses(s.h, co);
    if addrs.None? {
      return false;
    }
    var holders := AccountStub.GatherSigners(s, code, addrs.value, {s.env.kid});
    if holders.None? || |holders.value| < 2 {
      return false;
    }
    Propose(s, con, DocAccountCreate(code, holders.value));
    ok := true;
  }

  method AccountHolderAdd(s: Stub, joint: Address, target: Address, con: Con) returns (ok: bool)
    requires s.next == s.state
    modifies s
    ensures Outcome(s.state, HolderAdd(s.state, s.env, joint, target, con)) == if ok then Some(s.next) else None
  {
    hide Commit, Apply, ID;
    if joint.kind != JOINT || target.kind != PERSONAL || joint.code != target.code || joint !in s.state.accounts {
      return false;
    }
    var jac := s.state.accounts[joint];
    if |jac.holders| > MAX_HOLDERS - 1 || s.env.kid !in jac.holders || target !in s.state.accounts {
      return false;
    }
    var holder := ID(target);
    if holder in jac.holders {
      return false;
    }
    Propose(s, con, DocHolderAdd(joint, holder));
    ok := true;
  }

  // A holder may leave without asking the others, as long as two remain.
  method AccountHolderRemove(s: Stub, joint: Address, target: Address, con: Con) returns (ok: bool)
    requires s.next == s.state
    modifies s
    ensures Outcome(s.state, HolderRemove(s.state, s.env, joint, target, con)) == if ok then Some(s.next) else None
  {
    hide Commit, Apply, ID;
    if joint.kind != JOINT || target.kind != PERSONAL || joint.code != target.code || joint !in s.state.accounts {
      return false;
    }
    var jac := s.state.accounts[joint];
    if |jac.holders| < 3 || s.env.kid !in jac.holders {
      return false;
    }
    var holder := ID(target);
    if holder == s.env.kid {
      CommitLast(s.next, DropHolder(joint, s.env.kid));
      ok := AccountStub.RemoveHolder(s, joint, jac, s.env.kid);
      return;
    }
    if holder !in jac.holders {
      return false;
    }
    Propose(s, con, DocHolderRemove(joint, holder));
    ok := true;
  }

  method SetSuspension(s: Stub, code: string, flag: bool) returns (ok: bool)
    requires s.next == s.state
    modifies s
    ensures Outcome(s.state, Suspend(s.h, s.state, s.env, code, flag)) == if ok then Some(s.next) else None
  {
    hide Commit, Apply, NewAddress;
    ok := AccountStub.SetSuspension(s, code, s.env.kid, flag);
    CommitLast(s.state, SetSuspended(NewAddress(s.h, code, PERSONAL, s.env.kid), flag));
  }

  method ExecuteAccountCreate(s: Stub, code: string, kids: set<string>) returns (ok: bool)
    requires s.next == s.state
    modifies s
    ensures Outcome(s.state, JointAccount(s.h, s.state, s.env, code, kids, Done)) == if ok then Some(s.next) else None
  {
    hide Commit, Apply, NewAddress;
    var bal := AccountStub.CreateJointAccount(s, code, kids);
    CommitLast(s.state, OpenAccount(NewAddress(s.h, code, JOINT, s.env.txid), Account(kids, false), kids));
    ok := bal != null;
  }

  // Both callbacks look at the holders of now, whatever they were when it was proposed.
  method ExecuteAccountHolderAdd(s: Stub, a: Address, kid: string) returns (ok: bool)
    requires s.next == s.state
    modifies s
    ensures Outcome(s.state, ExecuteHolderAdd(s.state, a, kid)) == if ok then Some(s.next) else None
  {
    hide Commit, Apply;
    if a !in s.state.accounts {
      return false;
    }
    var jac := s.state.accounts[a];
    if |jac.holders| > MAX_HOLDERS - 1 || kid in jac.holders {
      return false;
    }
    CommitLast(s.next, AddHolder(a, kid));
    ok := AccountStub.AddHolder(s, a, jac, kid);
  }

  method ExecuteAccountHolderRemove(s: Stub, a: Address, kid: string) returns (ok: bool)
    requires s.next == s.state
    modifies s
    ensures Outcome(s.state, ExecuteHolderRemove(s.state, a, kid)) == if ok then Some(s.next) else None
  {
    hide Commit, Apply;
    if a !in s.state.accounts {
      return false;
    }
    var jac := s.state.accounts[a];
    if |jac.holders| < 3 || kid !in jac.holders {
      return false;
    }
    CommitLast(s.next, DropHolder(a, kid));
    ok := AccountStub.RemoveHolder(s, a, jac, kid);
  }
}
