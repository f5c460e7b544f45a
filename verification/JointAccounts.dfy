/**
  How many holders a new joint account has: as many as the union of the invoker and
  the holders behind the given addresses. The limit of 128 counts the addresses.
 */
module JointAccounts {
  import opened Sums
  import opened Addresses
  import opened RecordIds
  import opened Ledger
  import opened Fields
  import opened Rules
  import opened Invariants
  import opened Steps
  import opened Successes

  // The holders a proposal asks to sign.
  function AskedHolders(h: Hasher, w: World, env: Env, code: string, texts: seq<string>): Option<set<string>> {
    match ParseAll(h, texts)
    case None => None
    case Some(addrs) => Gather(w, code, addrs, {env.kid})
  }

  lemma Proposes(h: Hasher, w: World, env: Env, code: string, known: bool, texts: seq<string>, con: Con)
    requires Step(h, w, env, TxJointCreate(code, known, texts, con)).Some?
    ensures AskedHolders(h, w, env, code, texts).Some? && con.cid !in w.contracts && |AskedHolders(h, w, env, code, texts).value| >= 2
    ensures Step(h, w, env, TxJointCreate(code, known, texts, con)).value
         == Begin(w, env).(contracts := w.contracts[con.cid := DocAccountCreate(code, AskedHolders(h, w, env, code, texts).value)])
  {
    hide Apply, ValidateTokenCode, NewAddress, ParseAll, Commit;
    var b := Begin(w, env);
    if ParseAll(h, texts).Some? {
      GatherFromBegin(w, env, code, ParseAll(h, texts).value, {env.kid});
    }
    var e := PutContract(con.cid, DocAccountCreate(code, AskedHolders(h, w, env, code, texts).value));
    CommitLast(b, e);
    PutContractFields(b, e);
  }

  lemma {:induction false} GatherFromBegin(w: World, env: Env, code: string, extra: seq<Address>, start: set<string>)
    ensures Gather(Begin(w, env), code, extra, start) == Gather(w, code, extra, start)
  {
    hide HexEncode;
    if extra != [] {
      GatherFromBegin(w, env, code, extra[..|extra| - 1], start);
    }
  }

  lemma Opens(h: Hasher, v: World, next: Env, cid: string, meta: Meta)
    requires cid in v.contracts && v.contracts[cid].DocAccountCreate? && Admissible(v, next, TxExecute(cid, meta))
    ensures var doc := v.contracts[cid];
      var a := NewAddress(h, doc.code, JOINT, next.txid);
      var u := Step(h, v, next, TxExecute(cid, meta));
      && (u.Some? <==> a !in v.accounts)
      && (u.Some? ==> u.value.accounts == v.accounts[a := Account(doc.holders, false)])
  {
    hide Apply, NewAddress, Admissible, Commit;
    var b, doc := Begin(v, next), v.contracts[cid];
    var open := OpenAccount(NewAddress(h, doc.code, JOINT, next.txid), Account(doc.holders, false), doc.holders);
    StepIs(h, v, next, TxExecute(cid, meta));
    CommitLast(b, open);
    OpenAccountFields(b, open);
  }

  // A joint account that is proposed and then executed has exactly the holders asked to
  // sign; so it stays within 128 if and only if their union does.
  lemma JointHolders(h: Hasher, w: World, env: Env, code: string, known: bool, texts: seq<string>, con: Con, next: Env, meta: Meta)
    requires Step(h, w, env, TxJointCreate(code, known, texts, con)).Some?
    requires Step(h, Step(h, w, env, TxJointCreate(code, known, texts, con)).value, next, TxExecute(con.cid, meta)).Some?
    ensures var u := Step(h, Step(h, w, env, TxJointCreate(code, known, texts, con)).value, next, TxExecute(con.cid, meta)).value;
      var a := NewAddress(h, code, JOINT, next.txid);
      var asked := AskedHolders(h, w, env, code, texts);
      && asked.Some? && a !in w.accounts && a in u.accounts && u.accounts[a].holders == asked.value
      && (|u.accounts[a].holders| <= MAX_HOLDERS <==> |asked.value| <= MAX_HOLDERS)
  {
    hide Step, NewAddress, AskedHolders;
    Proposes(h, w, env, code, known, texts, con);
    var v := Step(h, w, env, TxJointCreate(code, known, texts, con)).value;
    WasAdmissible(h, v, next, TxExecute(con.cid, meta));
    Opens(h, v, next, con.cid, meta);
  }

  lemma WasAdmissible(h: Hasher, w: World, env: Env, tx: Tx)
    requires Step(h, w, env, tx).Some?
    ensures Admissible(w, env, tx)
  {
    hide PlanOf, Commit, Admissible;
  }

  // ---- a joint account with 129 holders ----

  // There are as many different names as one likes.
  lemma {:induction false} Crowd(n: nat) returns (s: set<string>)
    ensures |s| == n && forall k :: k in s ==> |k| < n && forall i :: 0 <= i < |k| ==> k[i] == 'x'
  {
    if n == 0 {
      s := {};
    } else {
      var t := Crowd(n - 1);
      s := t + {seq(n - 1, _ => 'x')};
    }
  }

  // One personal account, and one joint account with the given holders.
  function Crowded(h: Hasher, kid: string, holders: set<string>): World {
    var p, j := NewAddress(h, "AAA", PERSONAL, kid), NewAddress(h, "AAA", JOINT, "1");
    EMPTY_WORLD.(accounts := map[p := Account({}, false), j := Account(holders, false)],
                balances := map[p := Balance(0, ""), j := Balance(0, "")],
                holders := {(kid, p)} + set k | k in holders :: (k, j),
                used := {"1"})
  }

  // A ledger with accounts only is fine.
  lemma AccountsOnly(w: World)
    requires w.accounts.Keys == w.balances.Keys && forall a :: a in w.balances ==> w.balances[a] == Balance(0, "")
    requires w.tokens == map[] && w.logs == map[] && w.journal == [] && w.pendings == map[] && w.pays == map[] && w.fees == map[]
    requires w.feeMarks == map[] && w.wraps == map[] && w.completed == map[] && w.contracts == map[]
    requires w.prunedPays == {} && w.prunedFees == map[] && HoldersOk(w.accounts, w.holders)
    ensures Inv(w)
  {
    hide HoldersOk, Sum;
    assert DocumentsOk(w);
    assert LogsOk(w.balances, w.logs, w.journal);
    assert PayMarksOk(w.balances, w.pays, w.prunedPays) && FeeMarksOk(w);
    forall a | a in w.balances ensures w.balances[a].amount + Shortfall(w, a) >= 0 {
      ShortfallNotNegative(w, a);
    }
  }

  lemma CrowdedOk(h: Hasher, kid: string, holders: set<string>)
    ensures Inv(Crowded(h, kid, holders))
  {
    var w := Crowded(h, kid, holders);
    assert HoldersOk(w.accounts, w.holders) by {
      NewAddressParts(h, "AAA", PERSONAL, kid);
      NewAddressParts(h, "AAA", JOINT, "1");
      hide NewAddress;
    }
    hide NewAddress, Inv, HoldersOk;
    AccountsOnly(w);
  }

  lemma AsksTheCrowd(h: Hasher, kid: string, holders: set<string>, env: Env)
    requires env.kid == kid
    ensures var j := NewAddress(h, "AAA", JOINT, "1");
      AskedHolders(h, Crowded(h, kid, holders), env, "AAA", [ToString(j)]) == Some({kid} + holders)
  {
    var j := NewAddress(h, "AAA", JOINT, "1");
    assert ValidateTokenCode("AAA") == Some("AAA") by { assert ToUpper("AAA") == "AAA"; }
    NewAddressWellFormed(h, "AAA", JOINT, "1");
    ParseInvertsString(h, j);
    NewAddressParts(h, "AAA", JOINT, "1");
    NewAddressParts(h, "AAA", PERSONAL, kid);
    hide NewAddress, ParseAddress, ToString, ValidateTokenCode, WellFormed;
    var w, text := Crowded(h, kid, holders), ToString(j);
    assert [text][..0] == [] && ParseAll(h, []) == Some([]);
    assert ParseAll(h, [text]) == Some([] + [j]);
    assert [j][..0] == [] && Gather(w, "AAA", [], {kid}) == Some({kid});
    assert SignableIDs(w, "AAA", j) == Some(holders);
  }

  // One address, of an account with 128 holders, is enough for a 129th: whoever they
  // are, if the invoker is not one of them.
  lemma OneTooMany(h: Hasher, con: Con, meta: Meta, kid: string, crowd: set<string>)
    requires |crowd| == 128 && kid !in crowd
    ensures Inv(Crowded(h, kid, crowd))
    ensures var w := Crowded(h, kid, crowd);
      var j, a := NewAddress(h, "AAA", JOINT, "1"), NewAddress(h, "AAA", JOINT, "3");
      var env, tx := Env(kid, MIN_STAMP, "2", 0), TxJointCreate("AAA", true, [ToString(j)], con);
      var next, execute := Env(kid, MIN_STAMP, "3", 0), TxExecute(con.cid, meta);
      && Step(h, w, env, tx).Some?
      && var v := Step(h, w, env, tx).value;
         (Step(h, v, next, execute).Some? <==> a != j)
         && (a != j ==> a in Step(h, v, next, execute).value.accounts && |Step(h, v, next, execute).value.accounts[a].holders| == 129)
  {
    var env, next := Env(kid, MIN_STAMP, "2", 0), Env(kid, MIN_STAMP, "3", 0);
    assert InRange(env.ts) && InRange(next.ts);
    hide *;
    CrowdedOk(h, kid, crowd);
    var v := CrowdProposes(h, kid, crowd, env, con);
    CrowdJoins(h, kid, crowd, v, con, next, meta);
  }

  lemma CrowdJoins(h: Hasher, kid: string, crowd: set<string>, v: World, con: Con, next: Env, meta: Meta)
    requires |crowd| == 128 && kid !in crowd && InRange(next.ts) && next.txid == "3" && v.used == {"1", "2"}
    requires v.contracts == map[con.cid := DocAccountCreate("AAA", {kid} + crowd)] && v.accounts == Crowded(h, kid, crowd).accounts
    ensures var j, a := NewAddress(h, "AAA", JOINT, "1"), NewAddress(h, "AAA", JOINT, "3");
      var u := Step(h, v, next, TxExecute(con.cid, meta));
      && (u.Some? <==> a != j)
      && (u.Some? ==> a in u.value.accounts && |u.value.accounts[a].holders| == 129)
  {
    NewAddressParts(h, "AAA", PERSONAL, kid);
    NewAddressParts(h, "AAA", JOINT, "3");
    hide Step, NewAddress, PlanOf;
    assert |{kid} + crowd| == 129;
    Opens(h, v, next, con.cid, meta);
  }

  // Such a crowd, and an invoker outside it.
  lemma ThereIsOne() returns (kid: string, crowd: set<string>)
    ensures |crowd| == 128 && kid !in crowd
  {
    kid := "k";
    crowd := Crowd(128);
    assert kid[0] == 'k';
  }

  lemma CrowdProposes(h: Hasher, kid: string, crowd: set<string>, env: Env, con: Con) returns (v: World)
    requires |crowd| == 128 && kid !in crowd && env.kid == kid && InRange(env.ts) && env.txid == "2"
    ensures Step(h, Crowded(h, kid, crowd), env, TxJointCreate("AAA", true, [ToString(NewAddress(h, "AAA", JOINT, "1"))], con)) == Some(v)
    ensures v.contracts == map[con.cid := DocAccountCreate("AAA", {kid} + crowd)] && v.accounts == Crowded(h, kid, crowd).accounts
    ensures v.used == {"1", "2"}
  {
    var w := Crowded(h, kid, crowd);
    var texts := [ToString(NewAddress(h, "AAA", JOINT, "1"))];
    hide NewAddress, ToString, ParseAll, Gather, Step;
    AsksTheCrowd(h, kid, crowd, env);
    assert |{kid} + crowd| == 129;
    CrowdStep(h, w, env, texts, con, {kid} + crowd);
    Proposes(h, w, env, "AAA", true, texts, con);
    v := Step(h, w, env, TxJointCreate("AAA", true, texts, con)).value;
  }

  lemma CrowdStep(h: Hasher, w: World, env: Env, texts: seq<string>, con: Con, asked: set<string>)
    requires AskedHolders(h, w, env, "AAA", texts) == Some(asked) && |asked| >= 2 && |texts| == 1
    requires NewAddress(h, "AAA", PERSONAL, env.kid) in w.accounts
    requires InRange(env.ts) && env.txid !in w.used && env.txid != "" && con.cid !in w.contracts
    ensures Step(h, w, env, TxJointCreate("AAA", true, texts, con)).Some?
  {
    var b, e := Begin(w, env), PutContract(con.cid, DocAccountCreate("AAA", asked));
    var tx := TxJointCreate("AAA", true, texts, con);
    assert Admissible(w, env, tx);
    hide NewAddress, ParseAll, Gather, Commit, Apply, PlanOf, Admissible;
    StepIs(h, w, env, tx);
    JointPlan(h, w, env, texts, con, asked);
    CommitLast(b, e);
  }

  lemma JointPlan(h: Hasher, w: World, env: Env, texts: seq<string>, con: Con, asked: set<string>)
    requires AskedHolders(h, w, env, "AAA", texts) == Some(asked) && |asked| >= 2 && |texts| == 1
    requires NewAddress(h, "AAA", PERSONAL, env.kid) in w.accounts
    ensures PlanOf(h, Begin(w, env), env, TxJointCreate("AAA", true, texts, con)) == Some(Then(PutContract(con.cid, DocAccountCreate("AAA", asked)), Done))
  {
    assert ValidateTokenCode("AAA") == Some("AAA") by { assert ToUpper("AAA") == "AAA"; }
    hide NewAddress, ValidateTokenCode, ParseAll, Gather;
    GatherFromBegin(w, env, "AAA", ParseAll(h, texts).value, {env.kid});
    assert Elements(texts) == {texts[0]};
  }
}
