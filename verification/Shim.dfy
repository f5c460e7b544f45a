/**
  The view a transaction has of the ledger: it reads the committed state, never its
  own writes, and its writes take effect together when it succeeds.
 */
module Shim {
  import opened Sums
  import opened Addresses
  import opened Amounts
  import opened Ledger
  import opened Fields
  import opened Rules

  // What a plan, or an error response in its place, makes of a state.
  ghost function Outcome(w: World, plan: Option<Plan>): Option<World> {
    match plan
    case None => None
    case Some(p) => Commit(w, p)
  }

  /** A balance document as the code holds it: its amount is changed in place. */
  class BalanceDoc {
    const id: Address
    const amount: Amount
    var mark: string

    constructor (id: Address, amount: int, mark: string)
      ensures this.id == id && this.mark == mark && fresh(this.amount) && this.amount.v == amount
    {
      this.id := id;
      this.amount := new Amount(amount);
      this.mark := mark;
    }

    // The document says what the given state says.
    ghost predicate Mirrors(w: World)
      reads this, amount
    {
      id in w.balances && w.balances[id] == Balance(amount.v, mark)
    }
  }

  class Stub {
    const h: Hasher
    const env: Env
    const state: World
    var next: World

    constructor (h: Hasher, state: World, env: Env)
      ensures this.h == h && this.env == env && this.state == state && next == state
    {
      this.h, this.env, this.state, this.next := h, env, state, state;
    }

    // This transaction has not written a log of the account yet.
    ghost predicate Unlogged(a: Address)
      reads this
    {
      (a, env.ts) in next.logs <==> (a, env.ts) in state.logs
    }

    method PutBalance(bal: BalanceDoc)
      modifies this
      ensures next == old(next).(balances := old(next).balances[bal.id := Balance(bal.amount.v, bal.mark)])
    {
      next := next.(balances := next.balances[bal.id := Balance(bal.amount.v, bal.mark)]);
    }

    // An entry of the same account and nanosecond is never overwritten.
    method PutBalanceLog(a: Address, log: Log) returns (ok: bool)
      modifies this
      ensures ok <==> (a, env.ts) !in state.logs
      ensures next == if ok then old(next).(logs := old(next).logs[(a, env.ts) := log], journal := old(next).journal + [(a, env.ts)]) else old(next)
    {
      ok := (a, env.ts) !in state.logs;
      if ok {
        next := next.(logs := next.logs[(a, env.ts) := log], journal := next.journal + [(a, env.ts)]);
      }
    }

    method GetBalance(a: Address) returns (bal: BalanceDoc?)
      ensures bal == null <==> a !in state.balances
      ensures bal != null ==> fresh(bal) && fresh(bal.amount) && bal.id == a && bal.Mirrors(state)
    {
      bal := null;
      if a in state.balances {
        bal := new BalanceDoc(a, state.balances[a].amount, state.balances[a].mark);
      }
    }

    method PutPending(pid: string, p: Pending)
      modifies this
      ensures next == Apply(old(next), Effect.PutPending(pid, p))
    {
      PutPendingFields(next, Effect.PutPending(pid, p));
      next := next.(pendings := next.pendings[pid := p]);
    }

    method DeletePending(pid: string)
      modifies this
      ensures next == Apply(old(next), DropPending(pid))
    {
      DropPendingFields(next, DropPending(pid));
      next := next.(pendings := next.pendings - {pid});
    }

    method PutPay(id: string, pay: PayRec)
      modifies this
      ensures next == Apply(old(next), Effect.PutPay(id, pay))
    {
      PutPayFields(next, Effect.PutPay(id, pay));
      next := next.(pays := next.pays[id := pay]);
    }

    method PutFee(id: string, fee: FeeRec)
      modifies this
      ensures next == Apply(old(next), Effect.PutFee(id, fee))
    {
      PutFeeFields(next, Effect.PutFee(id, fee));
      next := next.(fees := next.fees[id := fee]);
    }

    method PutToken(code: string, token: Token)
      modifies this
      ensures next == Apply(old(next), Effect.PutToken(code, token))
    {
      PutTokenFields(next, Effect.PutToken(code, token));
      next := next.(tokens := next.tokens[code := token]);
    }

    method PutWrap(id: string, wrap: WrapRec)
      modifies this
      ensures next == old(next).(wraps := old(next).wraps[id := wrap])
    {
      next := next.(wraps := next.wraps[id := wrap]);
    }

    method PutUnwrap(ext: string, unwrap: UnwrapRec)
      modifies this
      ensures next == Apply(old(next), Effect.PutUnwrap(ext, unwrap))
    {
      PutUnwrapFields(next, Effect.PutUnwrap(ext, unwrap));
      next := next.(unwraps := next.unwraps[ext := unwrap]);
    }

    method PutAccount(a: Address, acc: Account)
      modifies this
      ensures next == old(next).(accounts := old(next).accounts[a := acc])
    {
      next := next.(accounts := next.accounts[a := acc]);
    }

    method PutHolder(kid: string, a: Address)
      modifies this
      ensures next == old(next).(holders := old(next).holders + {(kid, a)})
    {
      next := next.(holders := next.holders + {(kid, a)});
    }

    method DeleteHolder(kid: string, a: Address)
      modifies this
      ensures next == old(next).(holders := old(next).holders - {(kid, a)})
    {
      next := next.(holders := next.holders - {(kid, a)});
    }

    // contract.CreateContract, as far as this ledger is concerned.
    method CreateContract(con: Con, doc: Doc)
      modifies this
      ensures next == Apply(old(next), PutContract(con.cid, doc))
    {
      PutContractFields(next, PutContract(con.cid, doc));
      next := next.(contracts := next.contracts[con.cid := doc]);
    }
  }
}
