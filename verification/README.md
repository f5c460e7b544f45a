# The token ledger

This project models the Kiesnet token chaincode as one ledger that is changed by
transactions in commit order, and proves what holds in every state that any sequence of
transactions can reach.

Money sits in six kinds of place: balances, pending balances (time locks of accounts, and
money held by contracts), pays not yet pruned, fees not yet pruned, and open wraps. The
transactions are those of the chaincode: creating accounts and tokens, holders joining and
leaving, suspension, mint and burn, transfer, pay, refund, the two prunes, withdrawal of a
pending balance, wrap, wrap completion, unwrap, and the execute and cancel callbacks of the
contract chaincode.

## How it is built

* `Sums`, `Amounts`, `FeeFormulas`, `RecordIds`, `Addresses`, `Pruning`: finite sums,
  in-place amounts with floor arithmetic, the two fee formulas, record ids, addresses, and
  batched pruning by a watermark, each with its own laws.
* `Ledger`, `Fields`, `Rules`: the world state, the elementary effects (a posting with its log entry, a
  record written, a watermark moved), and, for each transaction, its guards and the plan of
  effects it commits. `Rules.Step` is one committed transaction, `Rules.Exec` a run.
* `Shim`, `BalanceStub`, `FeeStub`, `PayStub`, `TokenStub`, `WrapStub`, `AccountStub`,
  `TransferTx`, `PayTx`, `WrapTx`, `TokenTx`, `AccountTx`, `Chaincode`: the code in its own
  form. Methods read the committed state, change documents and amounts in place, and write.
  Each is proved to do exactly what the rules say, and to fail exactly when they say so; at
  the top, `Chaincode.Channel.Invoke` equals `Rules.Next`.
* `Invariants`, `Steps`: what every reachable state satisfies. `Shapes`: which effects each
  transaction may use.
* `Conservation`, `SupplyTheorems`, `History`, `Settlement`, `Escrows`, `Prunes`, `Arrivals`, `Timing`,
  `Drain`, `LostRecords`, `Refunds`, `Shortfalls`, `Bridge`, `Registry`, `JointAccounts`, `Authority`: the
  main results. `Successes`: when refunds and bridge transactions go through. `Witnesses`, `LostWitnesses`:
  short runs on which a conditional property fails.

Some fields of the world are not stored by the chaincode; they only record what happened so
that it can be stated: the transaction ids used, the log keys in commit order, the pays and
fees already counted by a prune and where the fees went, the wrap account a wrap was completed
into, the amount that left a wrap account for an unwrap, and the transaction id and cause
inside a record. No guard reads them.

## What is assumed of the surroundings

* An error response leaves the ledger as it was; a transaction reads only committed state.
* Transaction ids and contract ids are never used twice and transaction ids are not empty.
  Timestamps are chosen by the submitter, of 10^18 up to 2^63 - 1 nanoseconds, and need not
  increase. Only the statements of `Timing` relate them to a true clock.
* The contract chaincode may call execute or cancel of any registered contract at any time, in
  any order and any number of times; it hands back the document that was registered. The token
  chaincode answers anything the code accepts; where a statement needs more (own addresses, rates
  of at most one) it says so.
* The answer of a prune query lists the due records in ascending created time; records of one
  instant come in any order. The fee query asks for this order; the pay query relies on its
  index for it.
* SHAKE256 is any function with digests of the right length. Text is ASCII.

Where the code and its own documentation differ, the code is followed. The documentation
allows 127 co-holders besides the invoker (README.md:36); the code compares the number of
different address texts with 128, and a joint address brings in all its holders
(account_tx.go:66-86). So a new joint account has exactly the holders behind the addresses and
the invoker, at most 128 if and only if that union is (`JointAccounts.JointHolders`), and one
address of an account with 128 holders makes 129 (`JointAccounts.OneTooMany`). Only additions
are held to 128.

## What turned out not to hold

* Balances can become negative. A transaction takes a balance below zero if and only if it is a
  pay prune of that account whose batch is worth less than minus the balance, or such a fee prune
  into it (`Authority.BelowZeroIff`); every negative balance of a run goes back to such a prune.
  Two things make a batch worth less than nothing: refunds, because a refund does not look at what
  the merchant has (`Successes.RefundSucceedsIff`, `Refunds.RefundPrunedIn`;
  `LostWitnesses.RefundOverdraws` is such a run), and rates above one, because then a pay can carry
  a fee above its amount (`Witnesses.DoubleFeeOverdraws` is such a run). `Shortfalls.BalanceBound` says how far below zero a balance can be when rates are at most
  one; without refunds and with such rates nothing is ever negative.
* Each token by itself is conserved by every transaction except wrap completion, unwrap and fee
  prune, and by those if and only if the account they post on is of that token
  (`SupplyTheorems.EachTokenConservedIff`), which no guard checks (`Successes`).
  `Witnesses.ForeignWrapBreaksOneToken` is a run that ends with four units less than the supply.
  All tokens together are conserved without any condition.
* A full batch that ends in the middle of one instant leaves the rest of that instant behind the
  watermark, uncounted; on an owner that had no such record before, a prune leaves one if and only
  if its batch ends like that (`LostRecords.PayPruneLosesIff`, `LostRecords.FeePruneLosesIff`).
  Two senders can pay one merchant at one nanosecond, and `LostWitnesses.CutPayIsLost` is a run of
  901 pays whose last one gets lost. A record can also be committed behind the watermark: if and
  only if its timestamp is not after the watermark of its owner (`LostRecords.PayLateIff`,
  `LostRecords.FeeLateIff`; `LostWitnesses.LatePayIsLost` is such a run). Either way it is lost for
  good (`LostRecords.LostForever`).
* The pending time of a multi-signature transfer is not honoured, although the parameter is
  documented (README.md:144-151). The proposal stores the order id in its place, and the execution
  reads the order id (transfer_tx.go:187-191, transfer_tx.go:327-335). So a proposal is the same
  whatever time it asks for (`Escrows.ProposalIgnoresLock`), and the money comes under that lock
  if and only if the order id spells a time with the same effect (`Escrows.LockHonouredIff`): with
  an empty order id it is delivered at once. With an order id that is neither empty nor a number
  the contract can never be executed (`Escrows.WordyOrderNeverExecutes`).
* A fee can exceed the amount: if and only if the part of the rate above one is worth a whole unit
  on the amount and the maximum is not in the way (`FeeFormulas.OverchargesIff`,
  `FeeStub.ChargedMoreIff`).
* The holder read from a personal account is its creator exactly when the creator's id is a
  KID of forty lower-case hexadecimal digits (`Addresses.HolderRecoversKid`).

## Model

| member | source | states |
|---|---|---|
| SupplyTheorems.Conserved | balance_stub.go:260-439 | In every state of every run, the supply of all tokens together equals balances + pending amounts with their fees + uncounted pays + uncounted fees + open wraps; and so for each single token while the token chaincode answers with accounts of that token. |
| SupplyTheorems.RunConserves | balance_stub.go:260-439 | From any state of the invariant, no run changes the difference between supply and holdings, under any interleaving. |
| Conservation.StepConserves | wrap_stub.go:73-231 | One committed transaction of any kind keeps supply minus holdings of all tokens together, and of one token too unless it is a wrap completion, unwrap or fee prune and a token names foreign accounts. |
| SupplyTheorems.SupplyWithinBounds | token_stub.go:126-196 | The supply never exceeds the maximum supply, and is never negative while nothing of the token is negative anywhere, although an executed burn does not compare with the supply. |
| SupplyTheorems.WrapCompleteNeedsOwnCode | wrap_tx.go:244-256 | A completed wrap conserves every single token if and only if the wrap account is of the wrapped token. |
| SupplyTheorems.UnwrapNeedsOwnCode | wrap_tx.go:341-424 | An unwrap conserves every single token if and only if the receiver is of the wrap account's token, or it is an impossible unwrap. |
| SupplyTheorems.FeePruneNeedsOwnCode | fee_tx.go:144-243 | A fee prune conserves every single token if and only if the fee target is of that token, or the fees come to nothing. |
| SupplyTheorems.EachTokenConservedIff | balance_stub.go:260-439 | Any committed transaction conserves every single token if and only if it stays within: the three above by their conditions, all others always. |
| SupplyTheorems.RunConservesEach | balance_stub.go:260-439 | A run conserves each token by itself whenever its committed calls stay within, whatever the token chaincode answers. |
| Successes.WrapCompleteSucceedsIff | wrap_tx.go:197-283 | Exactly when a completion goes through; the token of the wrap account does not matter. |
| Successes.UnwrapSucceedsIff | wrap_tx.go:290-432 | Exactly when an unwrap goes through; whose token the receiver is of does not matter. |
| Successes.RefundSucceedsIff | pay_tx.go:183-318 | Exactly when a refund goes through; what the merchant has does not matter. |
| Witnesses.ForeignWrapBreaksOneToken | wrap_tx.go:244-256 | A run from the empty ledger after which a token has a supply of ten and holds six. |
| Witnesses.DoubleFeeOverdraws | pay_tx.go:412-417 | A run without refunds from the empty ledger after which a balance is minus ten, by a fee rate of two. |
| SupplyTheorems.FirstToken | token_tx.go:122-183 | On the empty ledger a valid token can be created, and its initial supply is the balance of its genesis account. |
| Steps.RunKeepsInv | contract_tx.go:20-78 | Every run keeps the invariant: documents, logs, refunds, watermarks, shortfall, holders. |
| Steps.StepKeepsInv | main.go:22-66 | Every committed transaction keeps it. |
| History.RunExtends | balance_stub.go:179-198 | Along any run log entries, pays, fees, contracts, completed wraps and spent external transactions stay as they are, refund totals and watermarks only rise, and no pending balance comes back. |
| History.LogsReplay | balance.go:80-257 | Each balance is the sum of Diff less Fee over its log entries, each entry shows the balance right after its own step, and no entry is lost or overwritten later. |
| Authority.OnlyHoldersSpend | transfer_tx.go:62-115 | Whatever is committed, a balance gets smaller only in a transaction for that account by one of its holders (with the active-account guards of that transaction), or in an executed burn contract of its token. |
| Authority.BelowZeroIff | pay_tx.go:407-421 | A committed transaction takes a balance from zero or more to below zero if and only if it is a pay prune of that account, or a fee prune into it, whose batch is worth less than minus the balance. |
| Authority.OverdrawnByPrune | fee_tx.go:236-243 | Whenever a balance is below zero in a reachable state, such a prune of the run took it there. |
| Settlement.StepSettles | balance_stub.go:328-439 | A committed transaction either leaves a pending balance unchanged, or was entitled to settle it, and then its whole amount and fee go to exactly one place: back to the owner, to the receiver or a new lock with its fee record, into a pay, or into a wrap. |
| Settlement.RunSettles | transfer_tx.go:264-369 | Along any run a pending balance is settled at most once among withdraw, execute and cancel, at one position that is determined. |
| Settlement.TimeLockSafe | balance_tx.go:191-243 | A pending balance held by an account leaves only by a withdrawal not before its pending time, by a holder of the owning active account, and its full amount lands in that account. |
| Settlement.NeverReturns | balance_stub.go:252-257 | A pending balance that is gone stays gone. |
| Settlement.WithdrawSucceedsIff | balance_tx.go:191-243 | A withdrawal succeeds if and only if it is due, by a holder of the active owner, and the log key is free. |
| Settlement.CancelSucceedsIff | transfer_tx.go:264-290 | What a contract holds can be given back if and only if the log key of the owner is free. |
| Escrows.CancelUndoes | balance_stub.go:370-439 | A multi-signature transfer, pay or wrap followed by the cancellation of its contract leaves every balance, pending balance, record, wrap and token as before. |
| Escrows.ExecuteMatchesInstant | transfer_tx.go:293-341 | A multi-signature transfer followed by its execution ends in the same balances, pending balances and records as the instant transfer at that time, under the lock the order id spells. |
| Escrows.ProposalIgnoresLock | transfer_tx.go:183-205 | The committed state of a proposal does not depend on the pending time it asks for. |
| Escrows.LockHonouredIff | transfer_tx.go:326-341 | An executed transfer ends like a transfer under the lock asked for if and only if the lock spelt by the order id has the same effect at that time. |
| Escrows.WordyOrderNeverExecutes | transfer_tx.go:329-333 | With an order id that is neither empty nor a number the contract is never executed, in any later run. |
| Escrows.ExecuteTransferSucceedsIff | transfer_tx.go:293-341 | An execution of a held transfer succeeds if and only if the order id reads as a time or as none, and the receiver's log key is free unless a lock is ahead. |
| Prunes.PayPruneCounts | pay_tx.go:407-435 | A pay prune counts only records not counted before, all in its window, moves the watermark strictly up to the last of them, and nets amounts less fees into the balance. |
| Prunes.FeePruneCounts | fee_tx.go:164-256 | The same for fees, also across the move of the watermark out of the token; without a fee policy nothing changes. |
| Prunes.NeverCountedTwice | pay_tx.go:362-421 | With no assumption about time, no pay and no fee is counted by two prunes of a run. |
| Timing.CountedExactlyOnce | pay_tx.go:399-405 | With clocks off by at most five minutes, safe prunes and distinct times, in every state the counted records of each merchant and token are exactly those at or below its watermark. |
| Timing.NothingCommittedBehind | fee_tx.go:215-221 | So no record is ever committed at or below the watermark of its owner. |
| LostRecords.LostForever | queries.go:159-181 | A record that does get behind the watermark is never counted by any later prune. |
| LostRecords.PayLateIff | pay_stub.go:119-122 | A pay or refund record is committed behind the watermark if and only if its timestamp is not after the watermark of its merchant. |
| LostRecords.FeeLateIff | fee_stub.go:44-55 | The same for a fee record and the watermark of its token. |
| LostRecords.PayPruneLosesIff | pay_stub.go:179-224 | A committed pay prune on a merchant without records behind its watermark leaves some uncounted behind the new one if and only if its full batch ends in the middle of an instant. |
| LostRecords.FeePruneLosesIff | fee_stub.go:100-138 | The same for a fee prune and the fees of its token. |
| LostWitnesses.LatePayIsLost | pay_tx.go:407-421 | A run from the empty ledger that commits a pay behind the watermark, which no later run counts. |
| LostWitnesses.CutPayIsLost | pay_stub.go:207-211 | A run from the empty ledger whose prune takes 900 of 901 due pays, the last two of one nanosecond, after which no later run counts the last. |
| LostWitnesses.RefundOverdraws | pay_tx.go:263-268 | A run in which no fee is charged, so that all rates are at most one, after which the prune of a refund leaves a merchant with minus ten. |
| Pruning.BatchIsNew | pay_stub.go:180-224 | A batch holds no counted record, lies in the window, and moves the watermark up. |
| Pruning.BatchCountsExactly | pay_stub.go:207-211 | After a batch, everything at or below the new watermark is counted if and only if the batch does not end inside an instant. |
| Pruning.BatchLeavesRest | queries.go:159-181 | With distinct times the next query answers exactly the rest. |
| Pruning.ListingUnique | queries.go:244-260 | With distinct times the answer of the query is determined. |
| Drain.DrainPays | pay_tx.go:412-421 | Repeated pay prunes up to one end time add up to the fold over what they took; n due records take at most n / 900 prunes, rounded up. |
| Drain.NextPayPrune | pay_tx.go:444-449 | After k of them the next one succeeds if and only if k is below that number, else there is no record to prune. |
| Drain.DrainFees | fee_tx.go:236-245 | The same fold for fees, into the fee target. |
| Drain.NextFeePrune | fee_tx.go:265-269 | The same count for fees. |
| Drain.OneMoreBatch | fee_stub.go:114-136 | The rest strictly shrinks, and records remain after a batch exactly when the query had more than 900. |
| Drain.PayPruneSucceedsIff | pay_tx.go:345-449 | A pay prune succeeds if and only if a holder of the active account calls it, the watermark can be read, something is due, and the log key is free. |
| Drain.FeePruneSucceedsIff | fee_tx.go:144-269 | The same for fees; the target may be suspended. |
| Refunds.RefundsBounded | pay_tx.go:292-303 | For any accepted refunds of one pay, R of amount A and fee F: the total is the sum of the negated records and within 0..A, returned fees are within 0..F, and exceed F * R / A less one unit per refund. |
| Refunds.RefundStep | pay_stub.go:143-177 | An accepted refund needs a pay (not a refund) with enough left, writes one negative record and the new total, credits the payer, and leaves the merchant's balance alone. |
| Refunds.RefundsAreFinal | pay_tx.go:235-238 | A refund record can never be refunded, and no stored amount is zero, so the fee fraction is always defined. |
| Refunds.RefundPrunedIn | pay_tx.go:263-268 | The first prune to take up a refund record, in whatever batch of whatever later state, takes amount less returned fee from the merchant, who ends below zero if and only if the balance and the rest of the batch were worth less. |
| FeeFormulas.RefundFeesOfMany | pay_tx.go:292-303 | Any set of refunds rounds down by less than a unit each. |
| FeeFormulas.ReducedRefundFee | pay_tx.go:298-299 | Reducing Fee / Amount to lowest terms changes no floor. |
| FeeFormulas.RefundFeeIsFloor | pay_tx.go:300-302 | The full-refund branch agrees with the floor formula. |
| FeeFormulas.RatedFeeIsClampedFloor | fee_stub.go:154-167 | A charged fee is the floor of amount times rate, moved into 0..maximum. |
| FeeFormulas.OverchargesIff | fee_stub.go:154-167 | A charged fee exceeds the amount if and only if amount times the excess of the rate over one is at least one, and the amount is below any positive maximum. |
| FeeFormulas.OverchargedAmounts | fee.go:54 | Two such inputs: rate 2 with maximum 100 on 10, and rate 5/2 on 1. |
| FeeStub.ChargeIsClampedFloor | fee_stub.go:141-173 | The same on the ledger, for every payer that is not free. |
| FeeStub.ChargeIsFair | fee_stub.go:141-173 | Genesis and target pay nothing; with a rate in 0..1 the fee is monotone, at most the amount, and splitting a payment saves at most one unit. |
| FeeStub.ChargedMoreIff | fee_stub.go:141-173 | On the ledger a payer is charged more than the amount if and only if it is not free and the rate overcharges. |
| FeeStub.CalcFee | fee_stub.go:141-173 | The step-by-step computation returns what the rules charge. |
| FeeStub.GetFeeSumByTime | fee_stub.go:101-138 | The loop sums exactly the first 900 records of the answer, and reports more exactly when there are. |
| Shortfalls.BalanceBound | pay_tx.go:412-417 | With rates of at most one, a balance plus the net of refund records pruned into it plus the negative fee records pruned into it is never below zero. |
| Shortfalls.NothingNegative | pay_tx.go:98-100 | Without refunds, and with such rates, no balance, pay, pending amount, fee or wrap is ever negative. |
| Bridge.BridgeBalances | wrap_stub.go:111-208 | For every account and run, bridge postings on it plus its wrap fees equal the wraps completed into it less the unwraps paid from it. |
| Bridge.CompletesOnce | wrap_tx.go:237-239 | No wrap is completed by two transactions, as successful or impossible. |
| Bridge.UnwrapsOnce | wrap_tx.go:302-324 | Whatever the case of its letters, no external transaction is unwrapped twice. |
| Bridge.UnwrapStep | wrap_tx.go:407-424 | An unwrap spends its external transaction; it moves the amount once from wrapper to receiver, and nothing when it is impossible. |
| Registry.StepMovesHolders | account_tx.go:430-495 | Whatever was proposed when, a committed step changes an account's holders by nobody, by one more up to 128, or by one less with at least two left. |
| Registry.RunBoundsHolders | account_stub.go:289-338 | Over any run an account with two holders keeps two, and one with at most 128 stays there. |
| Registry.IndexAgrees | account_stub.go:84-132 | The index has an entry for a holder and a joint account exactly when the account lists the holder. |
| JointAccounts.JointHolders | account_tx.go:53-87 | A joint account that is proposed and executed has exactly the invoker and the holders behind the addresses, so at most 128 if and only if that union has. |
| JointAccounts.OneTooMany | account_tx.go:66-76 | An input with 129: the address of a joint account with 128 holders, the invoker not among them. |
| Registry.StoredAddressesParse | fee_tx.go:146 | Every address kept as owner, payer, merchant, genesis, fee target, wrap account or party of a contract is that of an account, and it and its token code parse back from the printed form. |
| Addresses.ParseInvertsString | address.go:42-64 | Parsing gives back an address from its printed form if and only if it is well formed. |
| Addresses.StringOfParsed | address.go:97-100 | A parsed address is well formed and prints as its upper-case input. |
| Addresses.EqualExactlyWhenStringsEqual | address.go:92-94 | Two addresses are equal if and only if their printed forms, the ledger keys, are. |
| Addresses.NewAddressWellFormed | address.go:22-39 | A new address of a valid code is well formed. |
| Addresses.HolderRecoversKid | account.go:69-72 | The holder read back is the creator if and only if the creator's id is a KID. |
| RecordIds.RoundTripExactly | pay_tx.go:364-374 | Splitting a printed id at digits 10 and 19 gives back its time if and only if the time has 19 digits. |
| RecordIds.RoundTrip | fee_tx.go:185-197 | So for every timestamp of the admitted range the watermark reads back as the time of the last record. |
| RecordIds.IdsInjective | pay_stub.go:119-120 | Different transactions never share a record id. |
| Amounts.Amount.MulRat | amount.go:62-66 | In place, the largest integer not above the product. |
| Amounts.Amount.Copy | amount.go:50-53 | A new amount of the same value. |
| Amounts.SetFrac | pay_tx.go:298 | An equal fraction with a positive denominator, in lowest terms: nothing above one divides both parts. |
| BalanceStub.Save | balance_stub.go:162-198 | A changed balance and its log entry are written together, or the key is taken and nothing may commit. |
| BalanceStub.Supply | balance_stub.go:260-278 | Adds an amount of either sign and logs it as mint or burn. |
| BalanceStub.Transfer | balance_stub.go:281-325 | Credit or time lock, debit with fee, and fee record, exactly as the rules say. |
| BalanceStub.TransferPendingBalance | balance_stub.go:328-366 | The same out of a pending balance, which is then gone; for either branch of the pending time. |
| BalanceStub.Deposit | balance_stub.go:370-404 | Amount and fee leave the balance for a pending balance held by the contract. |
| BalanceStub.Withdraw | balance_stub.go:408-439 | The whole worth goes back to the owner's balance and the pending balance is gone. |
| PayStub.Pay | pay_stub.go:114-140 | Record and debit, with the local amount negated in place. |
| PayStub.Refund | pay_stub.go:143-177 | Negative record, parent's total, credit of the payer. |
| PayStub.GetPaySumByTime | pay_stub.go:180-224 | The loop sums amounts and fees of exactly the first 900 records, and reports more exactly when there are. |
| PayStub.PayPendingBalance | pay_stub.go:250-274 | The pending amount becomes a pay and the pending balance is gone. |
| TokenStub.Mint | token_stub.go:164-196 | Supply and genesis balance grow by the same amount, cut at the maximum supply, although the supply is negated in place. |
| TokenStub.Burn | token_stub.go:126-161 | Supply and genesis balance shrink by the same amount, cut at the balance; nothing happens at zero. |
| TokenStub.CreateToken | token_stub.go:30-85 | Genesis account with its holders, target and bridge checks, first mint, token. |
| WrapStub.Wrap | wrap_stub.go:73-108 | An open wrap and the debit. |
| WrapStub.WrapComplete | wrap_stub.go:111-157 | Refused when completed or not above the fee; else completed, credited less the fee, and the fee recorded. |
| WrapStub.Unwrap | wrap_stub.go:160-192 | Credit of the receiver, debit of the wrap account, both logged. |
| WrapStub.UnwrapImpossible | wrap_stub.go:195-208 | One log entry over nothing. |
| WrapStub.WrapPendingBalance | wrap_stub.go:211-231 | The pending amount becomes an open wrap and the pending balance is gone. |
| AccountStub.CreateAccount | account_stub.go:38-81 | Account, empty balance and index entry, once per address. |
| AccountStub.CreateJointAccount | account_stub.go:84-132 | Account, empty balance and one index entry per holder. |
| AccountStub.AddHolder | account_stub.go:289-313 | Holder and index entry together. |
| AccountStub.RemoveHolder | account_stub.go:316-338 | The same in reverse. |
| AccountStub.GatherSigners | transfer_tx.go:164-172 | The loop collects all signers, or fails on the first bad address. |
| AccountStub.GatheredExactly | account_stub.go:192-209 | The collected signers are the starting ones and the holders behind the addresses, and no others. |
| TransferTx.Transfer | transfer_tx.go:25-223 | All guards, then a contract with a deposit or an instant transfer; fails exactly when the rules do. |
| TransferTx.ExecuteTransfer | transfer_tx.go:293-369 | Only the contract that holds the money can move it, under the time read from the document. |
| TransferTx.CancelTransfer | transfer_tx.go:264-290 | For transfers, pays and wraps alike: whatever the document, only the contract that holds the money gives it back. |
| TransferTx.BalancePendingWithdraw | balance_tx.go:191-243 | Time, holder and suspension guards of a withdrawal. |
| PayTx.Pay | pay_tx.go:25-177 | Guards of a pay; with several signers the money is deposited without a fee. |
| PayTx.RefundedFee | pay_tx.go:292-306 | The two branches compute the refund formula. |
| PayTx.PayRefund | pay_tx.go:183-318 | Guards of a refund, including the cap. |
| PayTx.PruneEnd | pay_tx.go:381-405 | The end is never after the requested one, at least ten minutes before now under the safe flag, and one of the two. |
| PayTx.OneEnd | fee_tx.go:199-221 | Exactly one end is like that, and it is the one queried. |
| PayTx.PayPrune | pay_tx.go:323-450 | Watermark, window, sum, netting, fee record and log, as the rules say. |
| PayTx.ExecutePay | pay_tx.go:581-622 | The fee is taken from the rates at execution. |
| PayTx.GetLastPrunedFeeID | fee_tx.go:164-183 | The watermark, moved out of the token on first use. |
| PayTx.FeePrune | fee_tx.go:107-271 | The same steps for fees. |
| WrapTx.Wrap | wrap_tx.go:23-192 | Guards of a wrap. |
| WrapTx.WrapComplete | wrap_tx.go:197-283 | Guards of a completion; the fee is ignored when impossible. |
| WrapTx.Unwrap | wrap_tx.go:290-432 | Guards of an unwrap; the early marker only counts on success. |
| WrapTx.ExecuteWrap | wrap_tx.go:435-494 | Only the contract that holds the money can wrap it. |
| TokenTx.TokenCreate | token_tx.go:122-183 | Guards of token creation. |
| TokenTx.TokenUpdate | token_tx.go:308-398 | Rates are replaced or removed, a target only by a new one. |
| TokenTx.TokenMint | token_tx.go:211-304 | Guards of mint. |
| TokenTx.TokenBurn | token_tx.go:22-118 | Guards of burn. |
| TokenTx.ExecuteTokenMint | token_tx.go:552-588 | The callback decides on the state of its own time. |
| TokenTx.ExecuteTokenBurn | token_tx.go:478-514 | The same for a burn. |
| TokenTx.ExecuteTokenCreate | token_tx.go:517-549 | A token that exists by then is refused. |
| AccountTx.AccountCreate | account_tx.go:19-51 | Guards of a personal account. |
| AccountTx.ParseAddresses | account_stub.go:192-196 | The texts are read in order, or the first bad one is refused. |
| AccountTx.JointAccountCreate | account_tx.go:53-87 | Guards of a joint account; the limit counts different texts, so two spellings of one address are two. |
| AccountTx.AccountHolderAdd | account_tx.go:130-167 | Guards of a proposal to add. |
| AccountTx.AccountHolderRemove | account_tx.go:171-217 | Leaving by oneself at once, removing others by contract. |
| AccountTx.SetSuspension | account_stub.go:224-269 | Suspending and unsuspending a personal account. |
| AccountTx.ExecuteAccountCreate | account_tx.go:409-427 | The joint account is created by the callback. |
| AccountTx.ExecuteAccountHolderAdd | account_tx.go:430-461 | Re-validation at execution. |
| AccountTx.ExecuteAccountHolderRemove | account_tx.go:464-495 | Re-validation at execution. |
| Chaincode.ContractExecute | contract_tx.go:35-73 | The document decides the callback. |
| Chaincode.ContractCancel | contract_tx.go:67-78 | Money goes back, everything else is void. |
| Chaincode.Channel.Invoke | main.go:22-66 | One call commits all its writes or none, equals the step of the rules, and keeps the invariant. |

## Left out

- JSON encoding, query text, pagination, list and get queries, responses, log messages: plumbing around the modelled state; only the meaning of the two prune selectors is kept.
- Parsing of parameters, memos, decimals, created and updated times: they decide no money; transactions take parsed addresses (a joint creation takes texts), codes already in upper case, and integers.
- Identity, the check of the calling chaincode, and the signing logic of the contract chaincode: other chaincodes, modelled as inputs.
- The check that a submitted timestamp is near the peer's clock: outside this repository; the statements of `Timing` assume its five minutes.
- Fabric's conflict detection and endorsement: transactions are atomic steps in commit order.
- External addresses and their checksum: copied through unchanged.
- Parsing of fee policies and wrap bridges: their validated results are inputs.
- Times outside the years 0 to 9999: end times and pending times are compared as numbers here; the source stores and compares formatted times, which neither sort like numbers nor can be read back out of that range.
- Panics (an address that was not checked for an error, a malformed document): a failed transaction like any other.
