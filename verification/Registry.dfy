/**
  Accounts over whole runs: how many holders a joint account can have, the holder
  index, and that every address the ledger keeps can be read back.
 */
module Registry {
  import opened Sums
  import opened Addresses
  import opened RecordIds
  import opened Ledger
  import opened Rules
  import opened Invariants
  import opened Steps
  import opened Shapes
  import opened History

  // ---- numbers of holders ----

  // One step of a joint account: nobody, one more up to the limit, or one less above the minimum.
  ghost predicate HoldersMove(x: set<string>, y: set<string>) {
    || y == x
    || (exists kid :: kid !in x && y == x + {kid} && |y| <= MAX_HOLDERS)
    || (exists kid :: kid in x && y == x - {kid} && |y| >= 2)
  }

  ghost predicate EffectMoves(w: World, e: Effect) {
    && (e.AddHolder? && e.a in w.accounts ==> HoldersMove(w.accounts[e.a].holders, w.accounts[e.a].holders + {e.kid}))
    && (e.DropHolder? && e.a in w.accounts ==> HoldersMove(w.accounts[e.a].holders, w.accounts[e.a].holders - {e.kid}))
  }

  // A plan changes accounts at most with its first effect.
  ghost predicate OneAccountEffect(w: World, env: Env, plan: Plan) {
    plan.Then? ==> EffectMoves(w, plan.head) && Only(plan.tail, env, ALL_KINDS - {KAccounts})
  }

  const ALL_KINDS := {KPost, KBridgePost, KPutPending, KDropPending, KPutPay, KPutRefund, KPutFee, KWrapFee, KPutWrap, KCloseWrap,
    KPutUnwrap, KPutToken, KMarkPays, KMarkFees, KPutContract, KAccounts}

  lemma {:induction false} OnlyMore(plan: Plan, env: Env, kinds: set<Kind>, more: set<Kind>)
    requires Only(plan, env, kinds) && kinds <= more
    ensures Only(plan, env, more)
    decreases plan
  {
    if plan.Then? {
      OnlyMore(plan.tail, env, kinds, more);
    }
  }

  lemma OneLess(x: set<string>, kid: string)
    requires kid in x && |x| >= 3
    ensures HoldersMove(x, x - {kid})
  {
    assert |x - {kid}| == |x| - 1;
  }

  lemma OneMore(x: set<string>, kid: string)
    requires kid !in x && |x| <= MAX_HOLDERS - 1
    ensures HoldersMove(x, x + {kid})
  {
    assert |x + {kid}| == |x| + 1;
  }

  lemma DropMoves(b: World, env: Env, a: Address, kid: string)
    requires a in b.accounts && kid in b.accounts[a].holders && |b.accounts[a].holders| >= 3
    ensures OneAccountEffect(b, env, Then(DropHolder(a, kid), Done))
  {
    hide HoldersMove;
    OneLess(b.accounts[a].holders, kid);
  }

  lemma AddMoves(b: World, env: Env, a: Address, kid: string)
    requires a in b.accounts && kid !in b.accounts[a].holders && |b.accounts[a].holders| <= MAX_HOLDERS - 1
    ensures OneAccountEffect(b, env, Then(AddHolder(a, kid), Done))
  {
    hide HoldersMove;
    OneMore(b.accounts[a].holders, kid);
  }

  lemma ProposalMoves(b: World, env: Env, con: Con, doc: Doc)
    ensures OneAccountEffect(b, env, Then(PutContract(con.cid, doc), Done))
  {
  }

  lemma HolderPlans(h: Hasher, b: World, env: Env, tx: Tx)
    requires PlanOf(h, b, env, tx).Some?
    requires tx.TxHolderRemove? || (tx.TxExecute? && tx.cid in b.contracts && (b.contracts[tx.cid].DocHolderAdd? || b.contracts[tx.cid].DocHolderRemove?))
    ensures OneAccountEffect(b, env, PlanOf(h, b, env, tx).value)
  {
    hide OneAccountEffect, ID, HexEncode;
    if tx.TxHolderRemove? {
      if ID(tx.target) == env.kid {
        DropMoves(b, env, tx.joint, env.kid);
      } else {
        ProposalMoves(b, env, tx.con, DocHolderRemove(tx.joint, ID(tx.target)));
      }
    } else {
      var doc := b.contracts[tx.cid];
      if doc.DocHolderAdd? {
        AddMoves(b, env, doc.account, doc.kid);
      } else {
        DropMoves(b, env, doc.account, doc.kid);
      }
    }
  }

  lemma TokenPlans(h: Hasher, b: World, env: Env, tx: Tx)
    requires PlanOf(h, b, env, tx).Some?
    requires tx.TxTokenCreate? || (tx.TxExecute? && tx.cid in b.contracts && b.contracts[tx.cid].DocTokenCreate?)
    ensures OneAccountEffect(b, env, PlanOf(h, b, env, tx).value)
  {
    hide NewAddress, BridgeKnown, Gather, HoldersMove, ValidateTokenCode;
    var plan := PlanOf(h, b, env, tx).value;
    if plan.tail.Then? {
      assert Only(plan.tail.tail, env, ALL_KINDS - {KAccounts});
    }
  }

  lemma AccountPlans(h: Hasher, b: World, env: Env, tx: Tx)
    requires PlanOf(h, b, env, tx).Some?
    requires tx.TxAccountCreate? || tx.TxJointCreate? || tx.TxHolderAdd? || tx.TxSuspend? || tx.TxUnsuspend?
      || (tx.TxExecute? && tx.cid in b.contracts && b.contracts[tx.cid].DocAccountCreate?)
    ensures OneAccountEffect(b, env, PlanOf(h, b, env, tx).value)
  {
    hide NewAddress, Gather, HoldersMove, ValidateTokenCode, ID, HexEncode;
  }

  lemma PlanMovesHolders(h: Hasher, b: World, env: Env, tx: Tx)
    requires PlanOf(h, b, env, tx).Some?
    ensures OneAccountEffect(b, env, PlanOf(h, b, env, tx).value)
  {
    hide HoldersMove, Only, PlanOf;
    Shape(h, b, env, tx);
    var plan := PlanOf(h, b, env, tx).value;
    if KAccounts !in KindsOf(b, tx) {
      WithoutAccounts(b, plan, env, KindsOf(b, tx));
    } else if tx.TxTokenCreate? {
      TokenPlans(h, b, env, tx);
    } else if tx.TxHolderRemove? {
      HolderPlans(h, b, env, tx);
    } else if tx.TxExecute? {
      var doc := b.contracts[tx.cid];
      if doc.DocTokenCreate? {
        TokenPlans(h, b, env, tx);
      } else if doc.DocAccountCreate? {
        AccountPlans(h, b, env, tx);
      } else {
        HolderPlans(h, b, env, tx);
      }
    } else {
      AccountPlans(h, b, env, tx);
    }
  }

  lemma EveryKind(k: Kind)
    ensures k in ALL_KINDS
  {
  }

  lemma AllButAccounts(kinds: set<Kind>)
    requires KAccounts !in kinds
    ensures kinds <= ALL_KINDS - {KAccounts}
  {
    forall k | k in kinds ensures k in ALL_KINDS - {KAccounts} {
      EveryKind(k);
    }
  }

  lemma OnlyTail(plan: Plan, env: Env, kinds: set<Kind>)
    requires Only(plan, env, kinds) && KAccounts !in kinds
    ensures plan.Then? ==> Only(plan.tail, env, kinds) && !plan.head.AddHolder? && !plan.head.DropHolder?
  {
    hide Stamped;
  }

  lemma WithoutAccounts(b: World, plan: Plan, env: Env, kinds: set<Kind>)
    requires Only(plan, env, kinds) && KAccounts !in kinds
    ensures OneAccountEffect(b, env, plan)
  {
    hide Stamped, Only, KindOf;
    AllButAccounts(kinds);
    OnlyTail(plan, env, kinds);
    if plan.Then? {
      OnlyMore(plan.tail, env, kinds, ALL_KINDS - {KAccounts});
    }
  }

  lemma {:induction false} AccountsUntouched(w: World, env: Env, plan: Plan)
    requires Only(plan, env, ALL_KINDS - {KAccounts}) && Commit(w, plan).Some?
    ensures Commit(w, plan).value.accounts == w.accounts
    decreases plan
  {
    if plan.Then? {
      AccountsUntouched(Apply(w, plan.head), env, plan.tail);
    }
  }

  // No transaction leaves a joint account with fewer than two holders by a removal, or
  // with more than 128 by an addition; callbacks included, whatever was proposed when.
  lemma StepMovesHolders(h: Hasher, w: World, env: Env, tx: Tx, a: Address)
    requires Inv(w) && Step(h, w, env, tx).Some? && a in w.accounts
    ensures var v := Step(h, w, env, tx).value;
      a in v.accounts && HoldersMove(w.accounts[a].holders, v.accounts[a].holders)
  {
    hide Inv, PlanOf, PlanOk, Step, Only, QueryAnswered, HoldersMove, KindsOf;
    var b, plan := PlanOfStep(h, w, env, tx);
    PlanMovesHolders(h, b, env, tx);
    assert HoldersMove(w.accounts[a].holders, w.accounts[a].holders) by { NobodyMoves(w.accounts[a].holders); }
    if plan.Then? {
      HeadEnabled(b, plan);
      EffectMovesOne(b, plan.head, a);
      assert Commit(b, plan) == Commit(Apply(b, plan.head), plan.tail);
      AccountsUntouched(Apply(b, plan.head), env, plan.tail);
    }
  }

  lemma HeadEnabled(w: World, plan: Plan)
    requires plan.Then? && PlanOk(w, plan) && Commit(w, plan).Some?
    ensures Enabled(w, plan.head)
  {
    hide Enabled, Apply;
  }

  lemma NobodyMoves(x: set<string>)
    ensures HoldersMove(x, x)
  {
  }

  lemma EffectMovesOne(w: World, e: Effect, a: Address)
    requires EffectMoves(w, e) && a in w.accounts && (e.OpenAccount? ==> e.a != a)
    ensures a in Apply(w, e).accounts && HoldersMove(w.accounts[a].holders, Apply(w, e).accounts[a].holders)
  {
    NobodyMoves(w.accounts[a].holders);
    hide HoldersMove;
  }

  lemma {:induction false} RunBoundsHolders(h: Hasher, w: World, calls: seq<Call>, a: Address)
    requires Inv(w) && a in w.accounts
    ensures var v := Exec(h, w, calls);
      && a in v.accounts
      && (|w.accounts[a].holders| >= 2 ==> |v.accounts[a].holders| >= 2)
      && (|w.accounts[a].holders| <= MAX_HOLDERS ==> |v.accounts[a].holders| <= MAX_HOLDERS)
  {
    hide Inv, Step, HoldersMove;
    if calls != [] {
      var init, c := calls[..|calls| - 1], calls[|calls| - 1];
      RunBoundsHolders(h, w, init, a);
      RunKeepsInv(h, w, init);
      var u := Exec(h, w, init);
      if Step(h, u, c.env, c.tx).Some? {
        StepMovesHolders(h, u, c.env, c.tx, a);
        MoveKeepsBounds(u.accounts[a].holders, Exec(h, w, calls).accounts[a].holders);
      }
    }
  }

  lemma MoveKeepsBounds(x: set<string>, y: set<string>)
    requires HoldersMove(x, y)
    ensures |x| >= 2 ==> |y| >= 2
    ensures |x| <= MAX_HOLDERS ==> |y| <= MAX_HOLDERS
  {
    forall kid | kid !in x && y == x + {kid} ensures |y| == |x| + 1 {
    }
    forall kid | kid in x && y == x - {kid} ensures |y| < |x| {
    }
  }

  // The holder index agrees with the accounts in every reachable state.
  lemma IndexAgrees(h: Hasher, calls: seq<Call>, kid: string, a: Address)
    ensures var w := Exec(h, EMPTY_WORLD, calls);
      && ((kid, a) in w.holders ==> a in w.accounts)
      && (a in w.accounts && a.kind == JOINT ==> ((kid, a) in w.holders <==> kid in w.accounts[a].holders))
  {
    EmptyWorldOk();
    RunKeepsInv(h, EMPTY_WORLD, calls);
    hide Exec, DocumentsOk, LogsOk, RefundsOk, PayMarksOk, FeeMarksOk, ShortfallOk;
  }

  // ---- stored addresses ----

  ghost predicate TokenAddresses(w: World, t: Token) {
    && (t.policy.Some? ==> t.policy.value.target in w.accounts)
    && BridgeKnown(w, t.bridge)
  }

  ghost predicate DocCodes(doc: Doc) {
    && (doc.DocTokenCreate? ==> ValidateTokenCode(doc.code) == Some(doc.code))
    && (doc.DocAccountCreate? ==> ValidateTokenCode(doc.code) == Some(doc.code))
  }

  ghost predicate AddressesOk(h: Hasher, w: World) {
    && (forall a :: a in w.accounts ==> WellFormed(h, a))
    && (forall cid :: cid in w.contracts ==> DocCodes(w.contracts[cid]))
    && (forall code :: code in w.tokens ==> TokenAddresses(w, w.tokens[code]))
  }

  ghost predicate KeepsAddresses(h: Hasher, w: World, e: Effect) {
    && (e.OpenAccount? ==> WellFormed(h, e.a))
    && (e.PutContract? ==> DocCodes(e.doc))
    && (e.PutToken? ==> TokenAddresses(w, e.token))
  }

  ghost predicate PlanKeepsAddresses(h: Hasher, w: World, plan: Plan)
    decreases plan
  {
    plan.Then? ==> KeepsAddresses(h, w, plan.head) && PlanKeepsAddresses(h, Apply(w, plan.head), plan.tail)
  }

  lemma AccountsStay(w: World, e: Effect)
    ensures forall a :: a in w.accounts ==> a in Apply(w, e).accounts
  {
  }

  lemma KeepAddresses(h: Hasher, w: World, e: Effect)
    requires AddressesOk(h, w) && KeepsAddresses(h, w, e)
    ensures AddressesOk(h, Apply(w, e))
  {
    hide WellFormed, DocCodes;
    AccountsStay(w, e);
    var v := Apply(w, e);
    forall code | code in v.tokens ensures TokenAddresses(v, v.tokens[code]) {
      assert TokenAddresses(w, v.tokens[code]);
    }
  }

  lemma {:induction false} CommitKeepsAddresses(h: Hasher, w: World, plan: Plan)
    requires AddressesOk(h, w) && PlanKeepsAddresses(h, w, plan) && Commit(w, plan).Some?
    ensures AddressesOk(h, Commit(w, plan).value)
    decreases plan
  {
    hide AddressesOk, KeepsAddresses, Apply;
    if plan.Then? {
      KeepAddresses(h, w, plan.head);
      CommitKeepsAddresses(h, Apply(w, plan.head), plan.tail);
    }
  }

  lemma {:induction false} MoneyKeepsAddresses(h: Hasher, w: World, plan: Plan, env: Env, kinds: set<Kind>)
    requires Only(plan, env, kinds) && KPutToken !in kinds && KAccounts !in kinds && KPutContract !in kinds
    ensures PlanKeepsAddresses(h, w, plan)
    decreases plan
  {
    hide Apply;
    if plan.Then? {
      MoneyKeepsAddresses(h, Apply(w, plan.head), plan.tail, env, kinds);
    }
  }

  // A plan of one effect, or a deposit: only its first effect can matter.
  lemma {:induction false} RestKeepsAddresses(h: Hasher, w: World, plan: Plan, env: Env, kinds: set<Kind>)
    requires plan.Then? && KeepsAddresses(h, w, plan.head)
    requires Only(plan.tail, env, kinds) && KPutToken !in kinds && KAccounts !in kinds && KPutContract !in kinds
    ensures PlanKeepsAddresses(h, w, plan)
  {
    hide Apply, KeepsAddresses, Only;
    MoneyKeepsAddresses(h, Apply(w, plan.head), plan.tail, env, kinds);
  }

  lemma DepositKeepsAddresses(h: Hasher, w: World, env: Env, sender: Address, con: Con, doc: Doc, amount: int, fee: Option<int>)
    requires doc.Money()
    ensures PlanKeepsAddresses(h, w, Deposit(env, sender, con, doc, amount, fee))
  {
    hide Apply;
    var plan := Deposit(env, sender, con, doc, amount, fee);
    assert Only(plan.tail.tail, env, {KPutPending, KPost});
    RestKeepsAddresses(h, w, plan, env, {KPutPending, KPost});
  }

  lemma MoneyPlansKeep(h: Hasher, b: World, env: Env, tx: Tx)
    requires tx.TxTransfer? || tx.TxPay? || tx.TxWrap?
    requires PlanOf(h, b, env, tx).Some?
    ensures PlanKeepsAddresses(h, b, PlanOf(h, b, env, tx).value)
  {
    hide PlanKeepsAddresses, Gather, CalcFee, Only, Apply;
    Shape(h, b, env, tx);
    var plan := PlanOf(h, b, env, tx).value;
    if plan.head.PutContract? {
      match tx {
        case TxTransfer(sender, receiver, amount, _, orderId, _, con) =>
          var fee := CalcFee(b, sender, "transfer", amount).value;
          DepositKeepsAddresses(h, b, env, sender, con, DocTransfer(env.txid, sender, receiver, orderId), amount, Some(fee));
        case TxPay(sender, receiver, amount, con) =>
          DepositKeepsAddresses(h, b, env, sender, con, DocPay(env.txid, sender, receiver), amount, None);
        case TxWrap(sender, extCode, extId, amount, _, con) =>
          DepositKeepsAddresses(h, b, env, sender, con, DocWrap(env.txid, sender, extCode, extId), amount, None);
      }
    } else {
      DirectKeeps(h, b, env, tx);
    }
  }

  lemma DirectKeeps(h: Hasher, b: World, env: Env, tx: Tx)
    requires tx.TxTransfer? || tx.TxPay? || tx.TxWrap?
    requires PlanOf(h, b, env, tx).Some? && !PlanOf(h, b, env, tx).value.head.PutContract?
    ensures PlanKeepsAddresses(h, b, PlanOf(h, b, env, tx).value)
  {
    var plan := PlanOf(h, b, env, tx).value;
    var kinds := {KPutPending, KPost, KPutFee, KPutPay, KPutWrap};
    DirectShape(h, b, env, tx);
    hide PlanOf, Only, Apply, PlanKeepsAddresses;
    MoneyKeepsAddresses(h, b, plan, env, kinds);
  }

  // A posting and a token whose addresses are already known, in either order.
  lemma TokenAndPost(h: Hasher, b: World, put: Effect, post: Effect)
    requires put.PutToken? && post.Post? && TokenAddresses(b, put.token)
    ensures PlanKeepsAddresses(h, b, Then(put, Then(post, Done)))
    ensures PlanKeepsAddresses(h, b, Then(post, Then(put, Done)))
    ensures PlanKeepsAddresses(h, b, Then(put, Done))
  {
    AccountsStay(b, put);
    AccountsStay(b, post);
    hide Apply;
    assert PlanKeepsAddresses(h, Apply(b, put), Then(post, Done));
    assert PlanKeepsAddresses(h, Apply(b, post), Then(put, Done));
  }

  lemma StoredToken(h: Hasher, b: World, code: string, supply: int)
    requires AddressesOk(h, b) && code in b.tokens
    ensures TokenAddresses(b, b.tokens[code]) && TokenAddresses(b, b.tokens[code].(supply := supply))
    ensures TokenAddresses(b, b.tokens[code].(legacyMark := ""))
  {
    hide WellFormed, DocCodes;
    assert TokenAddresses(b, b.tokens[code]);
  }

  lemma SupplyPlansKeepAddresses(h: Hasher, b: World, env: Env, code: string, amount: int)
    requires AddressesOk(h, b)
    ensures Mint(b, env, code, amount).Some? ==> PlanKeepsAddresses(h, b, Mint(b, env, code, amount).value)
    ensures Burn(b, env, code, amount).Some? ==> PlanKeepsAddresses(h, b, Burn(b, env, code, amount).value)
  {
    hide AddressesOk, TokenAddresses, PlanKeepsAddresses;
    var m, u := Mint(b, env, code, amount), Burn(b, env, code, amount);
    NothingKeeps(h, b);
    if m.Some? {
      StoredToken(h, b, code, m.value.head.token.supply);
      TokenAndPost(h, b, m.value.head, m.value.tail.head);
    }
    if u.Some? && u.value.Then? {
      StoredToken(h, b, code, u.value.tail.head.token.supply);
      TokenAndPost(h, b, u.value.tail.head, u.value.head);
    }
  }

  lemma CreateTokenKeepsAddresses(h: Hasher, b: World, env: Env, code: string, meta: Meta, kids: set<string>)
    requires ValidateTokenCode(code) == Some(code)
    ensures var p := CreateToken(h, b, env, code, meta, kids); p.Some? ==> PlanKeepsAddresses(h, b, p.value)
  {
    NewAddressWellFormed(h, code, JOINT, env.txid);
    hide NewAddress, WellFormed;
    var p := CreateToken(h, b, env, code, meta, kids);
    if p.Some? {
      var plan := p.value;
      var w1 := Apply(b, plan.head);
      if plan.tail.tail.Then? {
        assert PlanKeepsAddresses(h, Apply(w1, plan.tail.head), plan.tail.tail);
      }
      assert PlanKeepsAddresses(h, w1, plan.tail);
    }
  }

  lemma TokenUpdateKeepsAddresses(h: Hasher, b: World, code: string, meta: Meta)
    requires AddressesOk(h, b) && Inv(b)
    ensures var p := TokenUpdate(b, code, meta); p.Some? ==> PlanKeepsAddresses(h, b, p.value)
  {
    hide Inv, AddressesOk, PlanKeepsAddresses;
    NothingKeeps(h, b);
    if code in b.tokens {
      GenesisKnown(b, code);
      StoredToken(h, b, code, 0);
      var p := TokenUpdate(b, code, meta);
      if p.Some? && p.value.Then? {
        assert TokenAddresses(b, p.value.head.token);
        TokenAndPost(h, b, p.value.head, Post(b.tokens[code].genesis, MintLog, NoRef, 0, 0, 0));
      }
    }
  }

  lemma FeePruneKeepsAddresses(h: Hasher, b: World, env: Env, code: string, order: seq<string>)
    requires AddressesOk(h, b)
    ensures var p := FeePrune(b, env, code, order); p.Some? ==> PlanKeepsAddresses(h, b, p.value)
  {
    hide AddressesOk, SeqSum, SplitTime, TokenAddresses, Apply, FeeMark, PlanKeepsAddresses;
    NothingKeeps(h, b);
    var p := FeePrune(b, env, code, order);
    if p.Some? && p.value.Then? {
      StoredToken(h, b, code, 0);
      var e, w1 := p.value.head, Apply(b, p.value.head);
      AccountsUnmoved(b, e);
      if p.value.tail.head.PutToken? {
        SameAccounts(b, w1, p.value.tail.head.token);
        TokenAndPost(h, w1, p.value.tail.head, p.value.tail.tail.head);
      } else {
        PostKeeps(h, w1, p.value.tail.head);
      }
      MarkKeeps(h, b, e, p.value.tail);
    }
  }

  lemma NothingKeeps(h: Hasher, w: World)
    ensures PlanKeepsAddresses(h, w, Done)
  {
  }

  lemma PostKeeps(h: Hasher, w: World, post: Effect)
    requires post.Post?
    ensures PlanKeepsAddresses(h, w, Then(post, Done))
  {
  }

  lemma MarkKeeps(h: Hasher, w: World, e: Effect, rest: Plan)
    requires e.MarkFees? && PlanKeepsAddresses(h, Apply(w, e), rest)
    ensures PlanKeepsAddresses(h, w, Then(e, rest))
  {
    hide Apply;
  }

  lemma GenesisKnown(w: World, code: string)
    requires Inv(w) && code in w.tokens
    ensures w.tokens[code].genesis in w.accounts
  {
    TokenOf(w, code);
    OwnersHaveBalances(w);
    hide Inv;
  }

  lemma AccountsUnmoved(w: World, e: Effect)
    requires KindOf(e) != KAccounts
    ensures Apply(w, e).accounts == w.accounts
  {
  }

  lemma SameAccounts(w: World, v: World, t: Token)
    requires v.accounts == w.accounts && TokenAddresses(w, t)
    ensures TokenAddresses(v, t)
  {
  }

  lemma OneKeepsAddresses(h: Hasher, w: World, e: Effect)
    requires KeepsAddresses(h, w, e)
    ensures PlanKeepsAddresses(h, w, Then(e, Done))
  {
  }

  lemma AccountsKeepAddresses(h: Hasher, b: World, env: Env, tx: Tx)
    requires tx.TxAccountCreate? || tx.TxJointCreate? || tx.TxHolderAdd? || tx.TxHolderRemove? || tx.TxSuspend? || tx.TxUnsuspend?
    requires PlanOf(h, b, env, tx).Some?
    ensures PlanKeepsAddresses(h, b, PlanOf(h, b, env, tx).value)
  {
    if tx.TxAccountCreate? && ValidateTokenCode(tx.code) == Some(tx.code) {
      NewAddressWellFormed(h, tx.code, PERSONAL, env.kid);
    }
    hide Gather, NewAddress, ValidateTokenCode, ID, WellFormed, HexEncode, PlanKeepsAddresses;
    OneKeepsAddresses(h, b, PlanOf(h, b, env, tx).value.head);
  }

  lemma ExecuteKeepsAddresses(h: Hasher, b: World, env: Env, tx: Tx)
    requires AddressesOk(h, b) && tx.TxExecute? && PlanOf(h, b, env, tx).Some?
    ensures PlanKeepsAddresses(h, b, PlanOf(h, b, env, tx).value)
  {
    hide AddressesOk, PlanKeepsAddresses, CreateToken, Mint, Burn, Only, Apply, JointAccount, SendPending, CalcFee, DocCodes;
    var doc, plan := b.contracts[tx.cid], PlanOf(h, b, env, tx).value;
    CodesOfDoc(h, b, tx.cid);
    if doc.Money() {
      Shape(h, b, env, tx);
      MoneyKeepsAddresses(h, b, plan, env, KindsOf(b, tx));
    } else if doc.DocMint? || doc.DocBurn? {
      SupplyPlansKeepAddresses(h, b, env, doc.code, doc.amount);
    } else if doc.DocTokenCreate? {
      CreateTokenKeepsAddresses(h, b, env, doc.code, tx.meta, doc.holders);
    } else if doc.DocAccountCreate? {
      JointKeepsAddresses(h, b, env, doc.code, doc.holders);
    } else {
      OneKeepsAddresses(h, b, plan.head);
    }
  }

  lemma CodesOfDoc(h: Hasher, w: World, cid: string)
    requires AddressesOk(h, w) && cid in w.contracts
    ensures var doc := w.contracts[cid];
      doc.DocTokenCreate? || doc.DocAccountCreate? ==> ValidateTokenCode(doc.code) == Some(doc.code)
  {
    hide WellFormed, TokenAddresses, ValidateTokenCode;
    assert DocCodes(w.contracts[cid]);
  }

  lemma JointKeepsAddresses(h: Hasher, b: World, env: Env, code: string, kids: set<string>)
    requires ValidateTokenCode(code) == Some(code)
    ensures var p := JointAccount(h, b, env, code, kids, Done); p.Some? ==> PlanKeepsAddresses(h, b, p.value)
  {
    NewAddressWellFormed(h, code, JOINT, env.txid);
    hide NewAddress, WellFormed, ValidateTokenCode;
    OneKeepsAddresses(h, b, OpenAccount(NewAddress(h, code, JOINT, env.txid), Account(kids, false), kids));
  }

  lemma TokenTxsKeepAddresses(h: Hasher, b: World, env: Env, tx: Tx)
    requires AddressesOk(h, b) && Inv(b) && PlanOf(h, b, env, tx).Some?
    requires tx.TxTokenCreate? || tx.TxTokenUpdate? || tx.TxMint? || tx.TxBurn?
    ensures PlanKeepsAddresses(h, b, PlanOf(h, b, env, tx).value)
  {
    hide AddressesOk, Inv, PlanKeepsAddresses, CreateToken, Mint, Burn, WellFormed, Apply, TokenUpdate, Gather;
    match tx {
      case TxTokenCreate(code, meta, co, con) =>
        var kids := Gather(b, code, co, {env.kid}).value;
        OneKeepsAddresses(h, b, PutContract(con.cid, DocTokenCreate(code, kids)));
        CreateTokenKeepsAddresses(h, b, env, code, meta, kids);
      case TxTokenUpdate(code, meta) => TokenUpdateKeepsAddresses(h, b, code, meta);
      case TxMint(code, amount, con) =>
        OneKeepsAddresses(h, b, PutContract(con.cid, DocMint(code, amount)));
        SupplyPlansKeepAddresses(h, b, env, code, amount);
      case TxBurn(code, amount, con) =>
        OneKeepsAddresses(h, b, PutContract(con.cid, DocBurn(code, amount)));
        SupplyPlansKeepAddresses(h, b, env, code, amount);
    }
  }

  lemma PlanOfKeepsAddresses(h: Hasher, b: World, env: Env, tx: Tx)
    requires AddressesOk(h, b) && Inv(b) && PlanOf(h, b, env, tx).Some?
    ensures PlanKeepsAddresses(h, b, PlanOf(h, b, env, tx).value)
  {
    hide AddressesOk, Inv, PlanKeepsAddresses, PlanOf, Only;
    match tx {
      case TxTokenCreate(_, _, _, _) => TokenTxsKeepAddresses(h, b, env, tx);
      case TxTokenUpdate(_, _) => TokenTxsKeepAddresses(h, b, env, tx);
      case TxMint(_, _, _) => TokenTxsKeepAddresses(h, b, env, tx);
      case TxBurn(_, _, _) => TokenTxsKeepAddresses(h, b, env, tx);
      case TxTransfer(_, _, _, _, _, _, _) => MoneyPlansKeep(h, b, env, tx);
      case TxPay(_, _, _, _) => MoneyPlansKeep(h, b, env, tx);
      case TxWrap(_, _, _, _, _, _) => MoneyPlansKeep(h, b, env, tx);
      case TxFeePrune(code, _, _, order) =>
        FeePruneKeepsAddresses(h, b, env, code, order);
        assert PlanOf(h, b, env, tx) == FeePrune(b, env, code, order) by { PlanOfFeePrune(h, b, env, tx); }
      case TxExecute(_, _) => ExecuteKeepsAddresses(h, b, env, tx);
      case TxAccountCreate(_, _) => AccountsKeepAddresses(h, b, env, tx);
      case TxJointCreate(_, _, _, _) => AccountsKeepAddresses(h, b, env, tx);
      case TxHolderAdd(_, _, _) => AccountsKeepAddresses(h, b, env, tx);
      case TxHolderRemove(_, _, _) => AccountsKeepAddresses(h, b, env, tx);
      case TxSuspend(_) => AccountsKeepAddresses(h, b, env, tx);
      case TxUnsuspend(_) => AccountsKeepAddresses(h, b, env, tx);
      case _ =>
        Shape(h, b, env, tx);
        MoneyKeepsAddresses(h, b, PlanOf(h, b, env, tx).value, env, KindsOf(b, tx));
    }
  }

  lemma PlanOfFeePrune(h: Hasher, b: World, env: Env, tx: Tx)
    requires tx.TxFeePrune?
    ensures PlanOf(h, b, env, tx) == FeePrune(b, env, tx.code, tx.order)
  {
  }

  lemma StepKeepsAddresses(h: Hasher, w: World, env: Env, tx: Tx)
    requires Inv(w) && AddressesOk(h, w) && Step(h, w, env, tx).Some?
    ensures AddressesOk(h, Step(h, w, env, tx).value)
  {
    hide Inv, PlanOf, PlanOk, Commit, Step, Only, QueryAnswered, WellFormed, DocCodes, PlanKeepsAddresses, KindsOf;
    var b, plan := PlanOfStep(h, w, env, tx);
    assert AddressesOk(h, b);
    PlanOfKeepsAddresses(h, b, env, tx);
    CommitKeepsAddresses(h, b, plan);
  }

  lemma {:induction false} RunKeepsAddresses(h: Hasher, w: World, calls: seq<Call>)
    requires Inv(w) && AddressesOk(h, w)
    ensures AddressesOk(h, Exec(h, w, calls))
  {
    hide Inv, Step, AddressesOk;
    if calls != [] {
      var init, c := calls[..|calls| - 1], calls[|calls| - 1];
      RunKeepsAddresses(h, w, init);
      RunKeepsInv(h, w, init);
      var v := Exec(h, w, init);
      if Step(h, v, c.env, c.tx).Some? {
        StepKeepsAddresses(h, v, c.env, c.tx);
      }
    }
  }

  // The accounts a contract document names.
  function Named(doc: Doc): set<Address> {
    match doc
    case DocTransfer(_, sender, receiver, _) => {sender, receiver}
    case DocPay(_, sender, receiver) => {sender, receiver}
    case DocWrap(_, sender, _, _) => {sender}
    case DocHolderAdd(a, _) => {a}
    case DocHolderRemove(a, _) => {a}
    case _ => {}
  }

  // Every address kept as owner, payer, merchant, target or party of a contract is that
  // of an account.
  ghost predicate AllOwned(w: World) {
    && (forall id :: id in w.pendings ==> w.pendings[id].account in w.accounts)
    && (forall id :: id in w.pays ==> w.pays[id].merchant in w.accounts && w.pays[id].payer in w.accounts)
    && (forall id :: id in w.fees ==> w.fees[id].account in w.accounts)
    && (forall id :: id in w.wraps ==> w.wraps[id].address in w.accounts)
    && (forall code :: code in w.tokens ==> w.tokens[code].genesis in w.accounts)
    && (forall code :: code in w.tokens && w.tokens[code].policy.Some? ==> w.tokens[code].policy.value.target in w.accounts)
    && (forall code, ext :: code in w.tokens && ext in w.tokens[code].bridge ==> w.tokens[code].bridge[ext] in w.accounts)
    && (forall cid :: cid in w.contracts ==> Named(w.contracts[cid]) <= w.accounts.Keys)
  }

  // So each of them parses back from its printed form, and so does its token code.
  lemma StoredAddressesParse(h: Hasher, calls: seq<Call>)
    ensures var w := Exec(h, EMPTY_WORLD, calls);
      && AllOwned(w)
      && forall a :: a in w.accounts ==> ParseAddress(h, ToString(a)) == Some(a) && ParseCode(ToString(a)) == Some(a.code)
  {
    hide Exec, Inv, AllOwned, ParseAddress, ParseCode, ToString, Validate;
    EmptyWorldOk();
    RunKeepsInv(h, EMPTY_WORLD, calls);
    assert AddressesOk(h, EMPTY_WORLD);
    RunKeepsAddresses(h, EMPTY_WORLD, calls);
    var w := Exec(h, EMPTY_WORLD, calls);
    forall a | a in w.accounts ensures ParseAddress(h, ToString(a)) == Some(a) && ParseCode(ToString(a)) == Some(a.code) {
      assert WellFormed(h, a);
      ParseInvertsString(h, a);
      HolderIsID(a);
    }
    OwnedByAccounts(h, w);
  }

  lemma OwnedByAccounts(h: Hasher, w: World)
    requires Inv(w) && AddressesOk(h, w)
    ensures AllOwned(w)
  {
    hide Inv, AddressesOk, Named;
    OwnersHaveBalances(w);
    RecordsOwned(w);
    ContractsOwned(w);
    TargetsOwned(h, w);
  }

  lemma TargetsOwned(h: Hasher, w: World)
    requires AddressesOk(h, w)
    ensures forall code :: code in w.tokens && w.tokens[code].policy.Some? ==> w.tokens[code].policy.value.target in w.accounts
    ensures forall code, ext :: code in w.tokens && ext in w.tokens[code].bridge ==> w.tokens[code].bridge[ext] in w.accounts
  {
    hide WellFormed, DocCodes;
    assert forall code :: code in w.tokens ==> TokenAddresses(w, w.tokens[code]);
  }

  lemma RecordsOwned(w: World)
    requires Inv(w)
    ensures forall id :: id in w.pendings ==> w.pendings[id].account in w.balances
    ensures forall id :: id in w.pays ==> w.pays[id].merchant in w.balances && w.pays[id].payer in w.balances
    ensures forall id :: id in w.fees ==> w.fees[id].account in w.balances
    ensures forall id :: id in w.wraps ==> w.wraps[id].address in w.balances
    ensures forall code :: code in w.tokens ==> w.tokens[code].genesis in w.balances
  {
    hide LogsOk, RefundsOk, PayMarksOk, FeeMarksOk, ShortfallOk, HoldersOk, Backed, ContractsOk;
    assert forall id :: id in w.pendings ==> PendingOk(w.used, w.balances, w.contracts, id, w.pendings[id]);
    assert forall id :: id in w.pays ==> PayOk(w.used, w.balances, id, w.pays[id]);
    assert forall id :: id in w.fees ==> FeeOk(w.used, w.balances, id, w.fees[id]);
    assert forall id :: id in w.wraps ==> WrapOk(w.used, w.balances, w.completed, id, w.wraps[id]);
    assert forall code :: code in w.tokens ==> TokenOk(w.balances, code, w.tokens[code]);
  }

  lemma ContractsOwned(w: World)
    requires Inv(w)
    ensures forall cid :: cid in w.contracts ==> Named(w.contracts[cid]) <= w.balances.Keys
  {
    hide LogsOk, RefundsOk, PayMarksOk, FeeMarksOk, ShortfallOk, HoldersOk, PendingsOk, PaysOk, FeesOk, WrapsOk, TokensOk;
    assert forall cid :: cid in w.contracts ==> DocOk(w.balances, w.contracts[cid]);
  }
}
