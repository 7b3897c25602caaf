# The off-chain buyer, modelled and proved

In a round, backers hand SOL to a *keeper*. The off-chain buyer splits that SOL over coins,
buys each coin in many small purchases, burns the share of the tokens that backers asked to
have destroyed, delivers the rest to the backers' wallets, tops up whoever is short and
refunds the SOL it did not spend. It does so against a chain that answers late, drops
answers or says "do not know", and as a process that can die at any await. This project
states what that program promises and proves it, for every input, every run, every crash
and every future of the chain.

## How it is modelled

- **The chain and the world** (`Solana`). A signed transaction carries its block limit. It
  may land at any height up to that limit, at most once, with or without an error; between
  any two awaits the chain may grow by any number of blocks and include any signed
  transaction. `Extends` is "a later state of this chain", `Dead` is "succeeds in no later
  state". The class `World` holds the chain and every transaction ever signed; each of its
  methods that stands for an await may report that the process died there. What a method of
  the program has saved by then is what survives. `mishaps` counts what has gone wrong so
  far: a crash, a request that failed, an answer that does not tell, a transaction that was
  not confirmed, an attempt to buy that threw, a balance that is not the truth, SOL that
  does not reach for what was planned; `deaths` counts the crashes among them. What a
  stretch of a run comes to "if nothing goes wrong" is a clause over `mishaps` before and
  after it, so no method reports on itself. What was last read (the balance, the finalized
  height, a status, whether an account is there) and the transactions whose fate was asked
  for and not told are kept as ghost state, so that contracts can run from the chain to the
  answer.
- **Buying** (`BuyAmounts`, `PurchaseLedger`, `Batch`, `BatchBuy`, `Resume`, `Amm`). The
  batch is a class whose methods change purchase records in place. `LedgerOk` says that of
  all the transactions signed for a purchase only the last may still land. Every step of the
  main loop, of its recoveries and of the retry phase is proved to keep it. `Resume` runs a
  coin over any number of restarts within its budget.
- **What was bought** (`PurchaseTokens`). The amount known to have been bought, against what
  the chain really brought.
- **Shares, deliveries and burns** (`Shares`, `SendRecords`, `CoinState`, `Deficits`,
  `Burns`, `DeliveryLedger`, `Conservation`, `BetShares`, `Promises`, `Deliveries`,
  `SendRounds`, `Sweep`, `Settlement`, `CoinRun`, `Limits`). `Kept` in `SendRounds` is the
  invariant of a coin: it ties the burn records, the delivery records, the signatures given
  out and the chain together. Every method of the rounds, the settlement, the sweep, the
  last burns and the restart keeps it at every await. The batches of a round run side by
  side: `DeliverAll` takes their steps in any order. Where nobody burns, what a wallet
  should have follows from the balance and the bets: `BetShares`, and what visits, sweep and
  settlement make of it. `PromiseKept` says what the invariant means on chain;
  `SettleAndSweep`, `RunCoin` and `WholeLife` say how settlement, sweep and whole runs end.
  A coin is *tidy* while nothing was signed that is not on record as delivered and no
  delivery has failed.
- **Refunds** (`RefundLedger`, `RefundPlan`). What the round is charged, and what is sent
  back.
- **Small cores** (`SendLimiter`, `BurnMemo`, `MintTlv`, with `Bytes`).

Amounts are integers: lamports and raw token units. Where the source rounds SOL to nine
decimals the model rounds half up to the lamport; where it divides bigints, the model rounds
down. Times of the limiter are reals. Nothing here was executed.

## Where the code does not do what one would expect

These are results, each with the inputs that show it and the exact condition.

- *Rounds do not look at deliveries they have given up.* A delivery that is given up with a
  signature still unresolved, one closed as an account mismatch after it had arrived, and
  one that waits for a later round than this one after a restart, are not counted as
  delivered; a round may hand the wallet its share again. With enough on the keeper a round
  takes a wallet above what it is owed if and only if the wallet is short and has such an
  uncounted delivery (`Promises.OverservedExactly`); `Limits.GivenUpDeliveryServedAgain` is
  an instance. The theorems about wallets therefore speak of wallets outside `tainted`, the
  ghost set of wallets a round has overserved in this sense. A visit taints nobody while
  every uncounted delivery is in line (`SendRounds.SendRound`), nor does a run from a tidy
  start in which nothing goes wrong (`CoinRun.RunCoin`).
- *The account rule can overwrite a delivery just found to have arrived*: the rule closes
  every record of the wallet that was in line at the start of the round
  (`SendRounds.BlockWallet`), so its tokens are no longer counted. In
  `Limits.MismatchedDeliveryServedAgain` the settlement then gives the wallet a new delivery
  and a round its whole share again. The rule does so exactly when the account was there at
  the start, is gone, and the commit is below half a SOL (`SendRounds.AtaRule`).
- *The last recipient of a scaled-down round* takes all the rounding and may get more than
  it is short of: exactly when the remainders of the others' divisions together exceed what
  its own deficit is scaled down by (`Deficits.LastMayExceedItsDeficit`);
  `Deficits.LastGetsTwice` is an instance. A coin with burners is never scaled down while no
  wallet is overserved (`Promises.NeverScaledDown`).
- *"Failed" is not always final.* The status decision returns "failed" at commitment level
  `processed` as well, and such a block may be left for a fork in which the transaction
  succeeds (`Solana.ProcessedFailureIsNotFinal`). Signing again is safe exactly when the
  transaction signed before is dead (`PurchaseLedger.SafeToSignAgain`);
  `PurchaseLedger.ProcessedFailureBuysTwice` is a purchase that buys twice. All other
  verdicts that mean "may sign again" are final (`Solana.AbsentIsFinal`,
  `Solana.LandedAndFailedAreFinal`), as long as a limit was given
  (`Solana.AbsentWithoutALimit`) and the two nodes are at most one block more than the
  margin apart (`Solana.MarginIsTight`).
- *A burn cut down to the balance that was read counts as made.* Neither the settlement nor
  the last burns come back to the rest (`offchain/orchestrator/burns.ts:236-241`, 289); only a
  sweep that still has deliveries to make does. All that is owed is burned if and only if
  the balance read is not below what is due (`Burns.AllIsBurnedExactly`);
  `Limits.UntrueBalanceCutsTheBurn` is an instance. A true balance never is, while no wallet
  is tainted (`SendRounds.TheBurnIsThere`), so then a settlement in which nothing goes wrong
  burns all that is owed (`CoinRun.Settle`, `CoinRun.FinishBurns`).
- *A delivery that is unclear at the settlement and then turns out to have arrived* leaves
  its wallet without a top-up, however short it is (`Limits.LateArrivalLeavesShort`). A
  wallet all of whose deliveries in line had arrived ends with what it had and what they
  brought, and is made whole if and only if that is what it is owed (`Sweep.LateIsExact`);
  every other wallet in line is made whole (`CoinRun.SettleAndSweep`).
- *The refund's per-recipient fee is rounded and shared by everybody behind the coin,* also
  by those too small to be sent anything, so the fees really paid may exceed what was held
  back: exactly when they exceed what those paid were charged, what stays unsent and what
  the rounding lost (`RefundPlan.WhenFeesAreCovered`), by at most 8,750 lamports and half a
  lamport a recipient (`RefundPlan.FeesNearlyCovered`). `RefundPlan.FeesMayNotBeCovered` is
  an input that exceeds it by 8,750.
- *The parts of a split are not within a tenth of the base amount*, although the comment at
  `offchain/scheduler/fees.ts:158` says so: the weights are normalised after they are drawn.
  `BuyAmounts.PartLeavesTheTenth` is an instance. A part is within a tenth exactly if its
  weight, against the sum of the weights, is (`BuyAmounts.PartsWithinTenth`), which in
  amounts of some size means within a tenth of the mean weight
  (`BuyAmounts.TenthOfTheMeanWeight`). The sum is exact and no part is negative
  (`BuyAmounts.SplitAmount`, `BuyAmounts.NoPartNegative`).

## Model

| member | source | states |
|---|---|---|
| Solana.DeadMeansNever | offchain/solana/signatureOutcome.ts:4-24 | a transaction is dead if and only if it succeeds in no future of the chain: what "safe to sign again" has to mean |
| Solana.AbsentIsFinal | offchain/solana/signatureOutcome.ts:67-80 | height read first, status second, status node at most the margin (or one block more) behind: "absent" means the transaction is in no extension of the chain |
| Solana.MarginIsTight | offchain/solana/signatureOutcome.ts:42-50 | one block further behind, and for every limit there is a chain on which a landed transaction is called absent |
| Solana.AbsentWithoutALimit | offchain/solana/signatureOutcome.ts:56-60 | with no limit every transaction not yet seen is called absent, and it can still land exactly if its limit is ahead of the chain |
| Solana.LandedAndFailedAreFinal | offchain/solana/signatureOutcome.ts:82-87 | "landed" is given exactly for a status without an error at confirmed or above and is a success in every future; "failed" exactly for a status with an error, and at confirmed or above means dead |
| Solana.WhatTheChainSays | offchain/solana/signatureOutcome.ts:61-91 | from the chain to the answer: "unknown" exactly when the reads do not tell; found at confirmed or above, landed if and only if it succeeded and failed if and only if it ran into an error; not found with the height past limit and margin, absent, and with its own limit dead |
| Solana.ProcessedFailureIsNotFinal | offchain/solana/signatureOutcome.ts:82-84 | for every transaction there is a chain and a future in which it was called failed and then succeeds |
| Solana.World.SignatureOutcome | offchain/solana/signatureOutcome.ts:61-91 | over two reads that may each fail or be followed by a crash, and an error only reported from a block that stays: the answer is unknown exactly when the heights and the status read do not tell, which is a mishap; otherwise a transaction found at confirmed or above is landed if and only if it succeeded, failed if and only if it failed on chain, one not found is absent, and absent with its own limit means dead |
| Shares.BurnWeightOf | offchain/orchestrator/shares.ts:44-59 | never more than the whole commit; a valid weight is taken as it is; nothing asked, nothing burned |
| Shares.SharesOf | offchain/orchestrator/shares.ts:69-95 | the round's own record if it has one, the deliveries otherwise; one entry a wallet, positive commits, burns within commits |
| Shares.MergedIsPerWallet | offchain/orchestrator/shares.ts:76-95 | after merging, a wallet's entry is exactly the sum of its own commits and burn weights, and a wallet without a commit has none |
| Shares.MergeAdds | offchain/orchestrator/shares.ts:69-95 | merging a backer in neither loses nor invents a lamport of stake or of burn weight |
| Shares.PromiseAddsUp | offchain/orchestrator/shares.ts:117-133 | for any backers, what is owed to all wallets plus the burn lies between what was bought less one unit a backer and what was bought |
| Shares.OwedGrows | offchain/orchestrator/shares.ts:117-133 | every wallet's figure and the burn's are nonnegative and grow with what was bought |
| Shares.OthersChoicesDoNotMatter | offchain/orchestrator/shares.ts:126-133 | a wallet's figure is the same whatever anybody else asked to have burned |
| Deficits.SharedOut | offchain/orchestrator/sendRounds.ts:291-308 | the amounts add up to the smaller of total deficit and balance; unscaled each gets its deficit; scaled, all but the last get at most it, and the last exceeds its proportional share by at most the number of the others |
| Deficits.LastMayExceedItsDeficit | offchain/orchestrator/sendRounds.ts:301-302 | the last recipient gets more than its deficit if and only if the remainders of the others' divisions exceed (total deficit - balance) times its deficit, and by exactly that difference over the total |
| Deficits.LastGetsTwice | offchain/orchestrator/sendRounds.ts:301-302 | three deficits of one and a balance of two: the last recipient gets two |
| Deficits.Split | offchain/orchestrator/sendRounds.ts:312-323 | a recipient's records carry exactly its amount, each a positive part, and no other record changes |
| Deficits.DeficitPerRecipient | offchain/orchestrator/sendRounds.ts:269-289 | one deficit for each recipient in order of first appearance, each with all of its records, and their total; what each is short of is fixed by `Promises` for coins with burners and by `BetShares` for the others |
| Deficits.CalculateDeficitAmounts | offchain/orchestrator/sendRounds.ts:227-327 | all amounts positive and for active records only; together min(total deficit, balance); each recipient's records together exactly its part; nothing if there is no balance or no commit |
| BetShares.TargetIsBetShare | offchain/orchestrator/sendRounds.ts:243-276 | where nobody burns a wallet's target is its bet's share, rounded down, of the balance and of all that was delivered before |
| BetShares.MoreBetMoreShare | offchain/orchestrator/sendRounds.ts:269-276 | equal bets give equal targets, a larger bet never a smaller one, none is negative |
| BetShares.TargetsAddUp | offchain/orchestrator/sendRounds.ts:243-289 | the targets of all wallets, each once, add up to the pot, less at most one unit a wallet |
| BetShares.ShortfallsAreThere | offchain/orchestrator/sendRounds.ts:291-308 | while nobody was delivered more than its target, what any wallets are short of together is within the balance, so the round is not scaled down |
| BetShares.RoundByBet | offchain/orchestrator/sendRounds.ts:227-327 | so each wallet of such a round is brought to exactly its bet's share of the pot |
| BetShares.FirstRoundByBet | offchain/orchestrator/sendRounds.ts:227-327 | with nothing delivered before nobody is ahead and the pot is the balance: each wallet of the first round gets its bet's share of the balance |
| Burns.SettlePending | offchain/orchestrator/burns.ts:128-169 | keeps the burn invariant at every await; afterwards no burn is open, or the coin is not burned now; burned plus in flight never grows |
| Burns.BurnDueFor | offchain/orchestrator/burns.ts:192-321 | burned plus in flight stays within what is owed to the fire whatever the chain answers; "nothing" means all of it is burned, "burned" means the last burn took what was due or the balance read if that was less; if nothing goes wrong and the keeper keeps the fire's share, all of it is burned; only burns are signed |
| Burns.SignAndSend | offchain/orchestrator/burns.ts:266-320 | the signature is on record before it goes out, so a crash or an unconfirmed send leaves exactly one open burn that names it |
| Burns.NeverBurnsTooMuch | offchain/orchestrator/burns.ts:185-191 | in every future of the chain the tokens destroyed are at most the recorded burns, these at most what is owed of the known amount, that at most what is owed of the real one |
| DeliveryLedger.OneDeliveryLands | offchain/orchestrator/sendRounds.ts:440-446 | of all transactions ever signed for a delivery record at most one succeeds in any future, it is the one the record names, and the record takes exactly its amount |
| DeliveryLedger.PaidIsPotential | offchain/orchestrator/sendRounds.ts:756-767 | what a record has really taken from the keeper is at most what its named transaction may take |
| Deliveries.CheckPendingSend | offchain/orchestrator/sendRounds.ts:431-492 | "settled" closes the record with its transaction and gross amount, "send" leaves it with nothing in flight, "unknown" and a crash change nothing |
| Deliveries.SplitBatch | offchain/orchestrator/sendRounds.ts:801-827 | the halves are apart, together the batch, smaller than it, and nothing of it can still arrive |
| Deliveries.FailBatch | offchain/orchestrator/sendRounds.ts:829-905 | every record leaves the wire, keeps the signature that may have flown, takes no more than planned, and is out of the queue at the attempt limit |
| Deliveries.DeliverBatch | offchain/orchestrator/sendRounds.ts:769-786 | every record is completed by the transaction that carried it, with what it took from the keeper as its gross amount |
| Deliveries.SignBatch | offchain/orchestrator/sendRounds.ts:750-767 | a new transaction is signed only while nothing else can pay its records, and it pays only those |
| Deliveries.DeliverAll | offchain/orchestrator/sendRounds.ts:716-924 | the batches in any interleaving, with splits, failures and a crash anywhere: no record takes more than planned, only planned records change, a completed one took exactly its planned amount, and if nothing goes wrong every planned record is completed |
| Conservation.ShortfallsFit | offchain/orchestrator/shares.ts:117-133 | while no wallet is tainted, whatever any wallets and the fire are still short of, all together, is on the keeper, even with transfers of unknown fate |
| Promises.RoundKeepsPromise | offchain/orchestrator/sendRounds.ts:592-703 | a wallet within what it is owed, counting everything that may still land, stays within it through a round that does not overserve it |
| Promises.OverservedExactly | offchain/orchestrator/sendRounds.ts:604-609 | with enough on the keeper a round takes a wallet above what it is owed if and only if it serves it while one of its deliveries is uncounted, and then by exactly the uncounted amount |
| Promises.NeverScaledDown | offchain/orchestrator/sendRounds.ts:291-308 | on the exact basis and a truthful balance the deficits of a round always fit the balance |
| Promises.RoundMakesWhole | offchain/orchestrator/sendRounds.ts:273-282 | a round whose transfers to a wallet land brings that wallet to exactly what it is owed |
| Promises.PromiseOnChain | offchain/orchestrator/sendRounds.ts:247-256 | a wallet's claims are within a bound if and only if in no future of the chain does it receive more than that bound |
| SendRounds.AtaRule | offchain/orchestrator/sendRounds.ts:621-682 | the verdict is exactly the one the commit, the account at the start, the account really there now and the last round give; only blocking changes records, and only this wallet's |
| SendRounds.BlockWallet | offchain/orchestrator/sendRounds.ts:643-659 | every record of the wallet in this round is closed as a mismatch, the one just completed included; nothing takes more than before |
| SendRounds.ResolvePending | offchain/orchestrator/sendRounds.ts:592-609 | every waiting record is completed, free, or its wallet is left out; a record with no signature is untouched |
| SendRounds.AtaRules | offchain/orchestrator/sendRounds.ts:611-682 | every wallet of the round is ruled on once, a wallet of unknown fate gets nothing from any of its records |
| SendRounds.ChosenExactly | offchain/orchestrator/sendRounds.ts:526-532 | a visit takes up exactly the deliveries that wait and whose round has come, a sweep all that wait |
| SendRounds.CloseSatisfied | offchain/orchestrator/sendRounds.ts:705-714 | exactly the active records with nothing to carry are closed |
| SendRounds.ServeFrom | offchain/orchestrator/sendRounds.ts:684-721 | keeps the coin's invariant; for a coin with burners the wallets newly tainted are exactly those the round overserves; unscaled, every other wallet of the round all of whose records are cleared has exactly what it is owed, and if nothing goes wrong all are cleared |
| SendRounds.SendRound | offchain/orchestrator/sendRounds.ts:526-924 | one visit keeps every promise of the coin at any crash point, changes only records in line, and taints no wallet if all uncounted deliveries are in line; if nothing goes wrong every delivery in line had arrived, is completed, is ruled out or held up because its account is gone, or waits on an empty keeper, whether or not anybody burns, and where nobody burns each wallet sent something then has its bet's share of balance and earlier deliveries; for a coin with burners, after a last round every wallet all of whose records in line are cleared is made whole, or got only deliveries that had arrived already, or has lost its account, or had an uncounted delivery out of line |
| SendRounds.TheBurnIsThere | offchain/orchestrator/burns.ts:234-241 | while no wallet is tainted, in every future the deliveries leave the fire's share of what is known on the keeper, so a true balance never cuts a burn |
| Sweep.RevivePendingSends | offchain/orchestrator/orchestrator.ts:386-403 | a delivery waits afterwards exactly if it did, or if it was given up for an error that may pass or is not known, after fewer than three attempts; nothing else about it changes |
| Sweep.ResumeSends | offchain/orchestrator/resume.ts:242-249 | exactly the deliveries in progress are back in line, with their signatures |
| Sweep.SweepDeliveries | offchain/orchestrator/orchestrator.ts:405-451 | records out of line stay as they are; if nothing goes wrong and no purchase is read on the way, every wallet with a delivery in line is made whole, or all its deliveries in line had arrived already, or it has lost its account or has an uncounted delivery out of line; a tidy coin stays tidy; where nobody burns and the keeper holds anything, nothing in line waits any more and each wallet sent something has its bet's share |
| Sweep.LateIsExact | offchain/orchestrator/sendRounds.ts:592-609 | a wallet all of whose deliveries in line had arrived ends with what it had plus what they brought, and is made whole if and only if that is what it is owed |
| Settlement.SettlingTwice | offchain/orchestrator/settle.ts:190-319 | for any records, books and answers of the chain, a second settlement on the same answers changes nothing |
| Settlement.TopUpsAre | offchain/orchestrator/settle.ts:274-315 | one top-up for each wallet that is short by more than dust, not in the queue and not unclear, and none for any other |
| Settlement.InferredTargetIsStakeShare | offchain/orchestrator/settle.ts:288-290 | where nobody burns a backer is topped up to its stake's share of the inferred pot, rounded down |
| Settlement.InferredTargetsAddUp | offchain/orchestrator/settle.ts:255-290 | and those shares add up to the pot, less at most one unit a backer |
| Settlement.QueueTopUps | offchain/orchestrator/settle.ts:238-315 | the loop over the wallets adds exactly those top-ups |
| Settlement.LookUpGivenUp | offchain/orchestrator/settle.ts:206-231 | given-up deliveries whose signature landed are completed, wallets the chain cannot tell about are set aside, all else is as it was |
| Settlement.TopUpsFor | offchain/orchestrator/settle.ts:190-319 | the whole step is the settlement function of the old records and the chain's answers, and keeps the coin's invariant; where nobody burns and nothing goes wrong, on the pot inferred from the balance really read |
| CoinRun.Settle | offchain/orchestrator/settle.ts:77-133 | purchases read, burn final, top-ups: the new records are the settlement of the old ones on the known amount, or, where nobody burns, on the pot inferred from the balance; what is not left waiting is burned out, or the last burn took all the balance read allowed; if nothing goes wrong, no wallet is tainted and burning is not blocked, exactly what is owed is burned |
| CoinRun.FinishBurns | offchain/orchestrator/settle.ts:151-188 | not waiting afterwards means burning is blocked, or no burn is open and the last one took all the balance read allowed; if nothing goes wrong, no wallet is tainted and burning is not blocked, exactly what is owed is burned |
| CoinRun.SettleAndSweep | offchain/orchestrator/orchestrator.ts:354-451 | the records settled are the settlement function of the old ones on the chain's answers; if nothing goes wrong and no purchase is read after the settlement, every wallet then has exactly what it is owed, is short by less than a delivery's fee is worth, has lost its account, or got only deliveries that had arrived already and is short of what they leave; from a tidy start the fire has exactly its share too; where nobody burns, nothing in line is left waiting and each wallet sent something has its bet's share |
| CoinRun.RunCoin | offchain/orchestrator/orchestrator.ts:296-470 | rounds, settlement, sweep and last burns, with any number of crashes and restarts, keep the invariant at every moment, and the run that gets through ends as above; if nothing goes wrong but that the process dies, no more often than it is started again, it gets through, with nothing wrong from its settlement on; if nothing goes wrong at all from a tidy start, no wallet is tainted, every wallet has its share, is short by dust or has lost its account, and the fire has exactly its share unless burning is blocked |
| CoinRun.WholeLife | offchain/orchestrator/orchestrator.ts:296-470 | a coin from its first record to its last burn: if nothing goes wrong and no purchase is read after the settlement, no wallet is overserved, every wallet has exactly its share, is short by dust or has lost its account, and exactly the fire's share is burned; if only the process dies, the run gets through, and with no wallet overserved and no purchase read after the settlement every wallet is settled |
| CoinRun.PromiseKept | offchain/orchestrator/shares.ts:117-133 | at any moment of any run and in every future: burned total is the sum of the completed burns, at most the last one open; never more burned than owed; no untainted wallet ever receives more than it is owed; no delivery beyond its attempts |
| CoinRun.AllTogether | offchain/orchestrator/shares.ts:117-133 | with no wallet tainted, burned plus delivered on chain never exceeds the amount known to have been bought, in any future |
| CoinRun.WithinThePurchases | offchain/orchestrator/purchaseTokens.ts:124-155 | with that amount read from the coin's purchases, it is within what those purchases really brought |
| Limits.GivenUpDeliveryServedAgain | offchain/orchestrator/sendRounds.ts:530-532 | an input on which every record is in order and the next round hands a wallet its whole share a second time |
| Limits.MismatchedDeliveryServedAgain | offchain/orchestrator/sendRounds.ts:643-659 | an input on which a delivery found to have arrived is closed as a mismatch, the settlement tops the wallet up, and a round hands it its whole share a second time |
| Limits.LateArrivalLeavesShort | offchain/orchestrator/settle.ts:282-286 | an input on which a wallet stays ninety of its hundred tokens short whatever the chain answers |
| Limits.UntrueBalanceCutsTheBurn | offchain/orchestrator/burns.ts:234-241 | an input on which forty of a hundred tokens are burned and the burn counts as made |
| PurchaseLedger.OnePurchaseLands | offchain/scheduler/batch.ts:602-610 | of all transactions ever signed for a purchase at most one succeeds in any future, it is the last and is for the amount on record |
| PurchaseLedger.NothingInFlightIsAllDead | offchain/scheduler/batch.ts:96-106 | when the last transaction is dead, so is every earlier one |
| PurchaseLedger.LandedWithin | offchain/orchestrator/resume.ts:120-138 | everything that has landed for the coin is on record as spent or possibly spent |
| PurchaseLedger.LandedIsOnRecord | offchain/orchestrator/resume.ts:120-138 | and exactly what the purchases on record whose last transaction succeeded were for |
| PurchaseLedger.SafeToSignAgain | offchain/scheduler/batch.ts:602-610 | a purchase can be signed again without both transactions ever succeeding if and only if the first one is dead |
| PurchaseLedger.ProcessedFailureBuysTwice | offchain/solana/signatureOutcome.ts:82-84 | a purchase reported as failed from a block that is only processed, signed again, and bought twice |
| Batch.BatchStateManager.UpdatePurchase | offchain/scheduler/state.ts:126-153 | one record replaced, and the summary again the sums over the records |
| Batch.BatchStateManager.RecordSentAttempt | offchain/scheduler/state.ts:159-172 | the attempt becomes the pending one and the last of the list |
| Batch.BuyGraduated | offchain/buy.ts:30-57 | through both venues the ledger is kept, so the pool is signed for only while nothing sent is alive; the result's transaction is the one on record; if nothing goes wrong it is bought |
| Batch.Buy | offchain/buy.ts:79-119 | through any change of venue the ledger is kept, so nothing is signed beside a live transaction; the result's transaction is the one on record, and a harmless error leaves nothing in flight; if nothing goes wrong it is bought |
| BatchBuy.SignatureVerdict | offchain/scheduler/batch.ts:115-138 | "landed" means succeeded; "clear" with the transaction's limit means dead; only a mishap leaves it open |
| BatchBuy.TryConfirmPending | offchain/scheduler/batch.ts:175-198 | a purchase is closed only by the transaction that landed for it, and if nothing goes wrong exactly if it did |
| BatchBuy.ResignExpired | offchain/scheduler/batch.ts:611-670 | through every re-sign the ledger is kept, so each replacement is signed with all before it dead; settled means completed, otherwise the error kept is about the transaction on record; an expired attempt after which nothing goes wrong ends completed |
| BatchBuy.ResolveSpendableAmount | offchain/scheduler/batch.ts:323-352 | the lesser of what was planned and what the balance read leaves above the floor; as planned if it cannot be read; none exactly if the balance leaves less than the plan and less than the smallest purchase |
| BatchBuy.ShrinkToFit | offchain/scheduler/batch.ts:678-739 | the amount only shrinks and the ledger is kept, so no live transaction is for another amount than the one on record; settled means completed, or given up with the keeper drained; with only the balance short it is bought for what the balance leaves above the floor, or given up exactly if that is below the smallest purchase |
| BatchBuy.ClimbLadder | offchain/scheduler/batch.ts:752-819 | through every step the ledger is kept, so each attempt is signed with all before it dead; settled means completed, and if nothing goes wrong it is, for its whole amount |
| BatchBuy.FallBack | offchain/scheduler/batch.ts:678-823 | if nothing more goes wrong a slippage refusal ends bought, a lasting error is given up and any other is left for the retries; if only the balance is short, the purchase is bought for what that leaves above the floor, or given up with the keeper drained exactly if that is below the smallest purchase |
| BatchBuy.BuyOne | offchain/scheduler/batch.ts:525-823 | keeps the ledger, signs for the purchase at most six times and leaves it decided; once the keeper is drained it is given up with nothing signed; otherwise, if nothing goes wrong, it is completed by a transaction that succeeded, for the whole amount planned |
| BatchBuy.SettleEarlier | offchain/scheduler/batch.ts:874-913 | the retry phase signs only if the earlier transaction is dead, closes it if it landed, gives the purchase up otherwise, the last only after a mishap |
| BatchBuy.RetryAttempt | offchain/scheduler/batch.ts:918-1086 | another attempt follows only with nothing in flight; one in which nothing goes wrong buys |
| BatchBuy.BuyBatch | offchain/scheduler/batch.ts:518-1103 | over the whole batch, with a crash anywhere, the ledger is kept, no attempt is forgotten, no purchase is signed for more than ten times or grows; at the end each is bought or given up, and the summary adds up; if nothing goes wrong every purchase is completed and what landed for the batch is exactly what was planned |
| BuyAmounts.CalculateN | offchain/scheduler/fees.ts:69-98 | at most a hundred, none exactly for no money, and how much money more than one or more than ten need |
| BuyAmounts.SplitAmount | offchain/scheduler/fees.ts:169-211 | the parts add up exactly to the amount; all but the last are their share by weight, rounded |
| BuyAmounts.PartsWithinTenth | offchain/scheduler/fees.ts:173-208 | every part but the last is within a tenth of an even share if and only if its weight against the sum of the weights is; the last is within half a lamport for each other part of its own share |
| BuyAmounts.TenthOfTheMeanWeight | offchain/scheduler/fees.ts:173-193 | in amounts above five times parts times weights: within a tenth of the mean weight, within a tenth of an even share, and not beyond it |
| BuyAmounts.PartLeavesTheTenth | offchain/scheduler/fees.ts:173-208 | weights of 0.9, 1.1 and 1.1 over a thousand: the first part is 290, below 300 |
| BuyAmounts.NoPartNegative | offchain/scheduler/fees.ts:199-208 | no part is negative, for any weights each within a tenth of one, once the amount exceeds a bound quadratic in the number of parts |
| BuyAmounts.EnoughForAll | offchain/scheduler/fees.ts:127-149 | which the number of purchases chosen for an amount, after fees, always meets |
| Resume.SpentInBatch | offchain/orchestrator/resume.ts:125-138 | the sum over the purchases completed or possibly landed |
| Resume.PurchasesThatMayHaveLanded | offchain/orchestrator/resume.ts:153-181 | every purchase not bought is in the set or has nothing in flight; what is in the set is the last attempt of a purchase not bought that succeeded or that the chain did not tell about, and succeeded if nothing went wrong |
| Resume.SpentCovers | offchain/orchestrator/resume.ts:140-152 | looking at last attempts only and taking "unknown" for spent covers everything that can still land |
| Resume.SpentIsLanded | offchain/orchestrator/resume.ts:108-181 | so after asking with nothing going wrong, what counts as spent is exactly what has landed, now and in every future |
| Resume.SpentForGood | offchain/orchestrator/resume.ts:108-181 | which is exactly what has landed of everything ever signed for the coin, and within its budget |
| Resume.PlanResume | offchain/orchestrator/resume.ts:199-240 | something is bought again exactly if the rest is worth it, and then exactly the rest; otherwise the coin is settled or failed |
| Resume.BuyPass | offchain/orchestrator/orchestrator.ts:579-651 | a pass within the rest of the budget keeps the whole coin within its budget; if nothing goes wrong every purchase of it is bought, for exactly its amount less the fees kept back |
| Resume.Restart | offchain/orchestrator/resume.ts:199-240 | a restart keeps the coin within its budget; if nothing goes wrong it counts exactly what has landed, and buys the rest if that is worth it and nothing otherwise |
| Resume.NeverOverspent | offchain/orchestrator/resume.ts:108-138 | within the budget on record means within it in every future of the chain |
| Resume.RunToken | offchain/orchestrator/orchestrator.ts:567-653 | over any number of crashes and restarts, in every future, the purchases that land take at most what the coin was given; if nothing goes wrong, exactly that less the fees kept back; if nothing goes wrong but that the process dies, no more often than it is started again, the run finishes with all of it bought for but the fees of the last purchases or a rest not worth buying |
| PurchaseTokens.TokensBought | offchain/orchestrator/purchaseTokens.ts:124-155 | the loops give the known amount and exactly the unread signatures |
| PurchaseTokens.CountedAre | offchain/orchestrator/purchaseTokens.ts:37-101 | exactly the signatures of the coin's purchases, completed or attempted, each once |
| PurchaseTokens.KnownIsBought | offchain/orchestrator/purchaseTokens.ts:124-155 | what is known never exceeds what was really bought |
| PurchaseTokens.KnownIsExact | offchain/orchestrator/purchaseTokens.ts:55-63 | with everything read, and nothing written off that landed, it is exactly what was bought |
| PurchaseTokens.KnownGrows | offchain/orchestrator/state.ts:160-175 | it does not decrease as long as no signature stops counting and no reading is changed |
| PurchaseTokens.AttemptsAndCompletionKeepKnown | offchain/scheduler/state.ts:159-201 | so neither another attempt nor a completion makes it smaller |
| PurchaseTokens.TokenRecord.RecordPurchaseTokens | offchain/orchestrator/state.ts:160-175 | adds what was read and never overwrites |
| PurchaseTokens.Refresh | offchain/orchestrator/purchaseTokens.ts:165-221 | exactly the signatures that count, were not read, and that the node answered for are put on record, with what they brought, and as zero an attempt it does not have that is long past; if that is all of them nothing is left to read; the record stays truthful, and the known amount does not decrease |
| Amm.ParseMaxFeeBps | offchain/pumpfun/buy.ts:424-450 | an error exactly if the account is shorter than its tier count says; otherwise the largest total rate in it |
| Amm.EveryTierCovered | offchain/pumpfun/buy.ts:406-423 | for every encodable fee account, the rate read is at least every tier's total, and is one of them |
| Amm.BoundIsWithinTheCurve | offchain/pumpfun/buy.ts:538-571 | the minimum asked for is at most what the curve yields at any fee up to the one read, and that never drains the curve |
| Amm.AsksForTheRest | offchain/pumpfun/buy.ts:538-571 | the minimum asked for is the one figure that is all the curve gives for the budget less the highest fee, less the tolerated share, up to one unit of rounding at each step; with no slippage the whole |
| Amm.LadderRises | offchain/scheduler/slippage.ts:39-57 | later attempts tolerate at least as much, up to the ceiling |
| Amm.StepByStep | offchain/scheduler/slippage.ts:14-57 | it starts where told and takes every step of 300, 500, 900, 1300 above that in turn, none left out, until the last or the ceiling |
| Amm.LaterAsksNoMore | offchain/scheduler/slippage.ts:39-57 | so on the same curve a later attempt never asks for more tokens |
| RefundPlan.DistributeBuyBudget | offchain/orchestrator/fees.ts:39-64 | the allocations add up exactly to the budget; all but the last are their share, rounded |
| RefundPlan.PlanRefunds | offchain/orchestrator/refunds.ts:105-179 | the plan has a record for every backer of every coin worth refunding and no others, from the ledger's figures, or from the round's state for a coin missing from it |
| RefundPlan.RecordIs | offchain/orchestrator/refunds.ts:143-175 | a record's gross amount is the backer's share of what was not spent, to half a lamport, and it sends that less the fee, or nothing below the threshold |
| RefundPlan.PlanOnce | offchain/orchestrator/refunds.ts:143-175 | with distinct backers no backer of a coin is in the plan twice |
| RefundPlan.PaidWithin | offchain/orchestrator/refunds.ts:135-146 | a coin pays back less than it did not spend, by more than a thousand lamports for each one paid |
| RefundPlan.RefundsFit | offchain/orchestrator/refundLedger.ts:118-148 | refunds, purchases and deliveries together never take more than budget and delivery reserve |
| RefundPlan.RoundStaysInItsPool | offchain/orchestrator/fees.ts:39-64 | so the round never takes more than its pool, or than its reserve if the pool did not cover it |
| RefundPlan.WhenFeesAreCovered | offchain/orchestrator/refunds.ts:135-141 | the refunds' fees are covered if and only if they are at most the fee charged times the number paid, plus what stays unsent, plus what rounding lost, the last at most half a lamport a backer |
| RefundPlan.AllPaidAllCovered | offchain/orchestrator/refunds.ts:135-141 | if every backer is paid, they are covered to a lamport a backer |
| RefundPlan.FeesNearlyCovered | offchain/orchestrator/refunds.ts:135-141 | with the refunds' own fees the overrun is at most 8,750 lamports and half a lamport a recipient |
| RefundPlan.FeesMayNotBeCovered | offchain/orchestrator/refunds.ts:135-141 | an input on which the overrun is exactly 8,750 lamports |
| RefundLedger.CollectRoundSignatures | offchain/orchestrator/refundLedger.ts:85-110 | every signature of purchases, deliveries and burns, each once, in order |
| RefundLedger.BuySpend | offchain/orchestrator/refundLedger.ts:151-215 | the charge over all batch files, planned figures if there are none; exact if and only if everything charged was read |
| RefundLedger.DeliverySpent | offchain/orchestrator/refundLedger.ts:225-288 | each signature charged once however many records share it, plus rent owed where the record says the account was not there; exact if and only if all were read |
| RefundLedger.RentOwedExactly | offchain/orchestrator/refundLedger.ts:236-267 | the estimated rent is for exactly the wallets recorded as having no account and none of whose deliveries was read |
| RefundLedger.EveryLamportOnce | offchain/orchestrator/refundLedger.ts:85-302 | with every debit read, buying plus delivery is the sum over the round's signatures, each once, plus the rent of wallets none of whose deliveries was read |
| RefundLedger.SoundPurchasesOwnTheirs | offchain/orchestrator/refundLedger.ts:187-211 | purchases on a sound ledger share no signature, which that sum needs |
| SendLimiter.AtMostInSpan | offchain/solana/rateLimiter.ts:43-58 | for any history of calls and any clock, a span of length L releases at most floor(L / interval) + burst |
| SendLimiter.SpacedWithoutCredit | offchain/solana/rateLimiter.ts:43-58 | with burst one, consecutive releases are at least an interval apart |
| SendLimiter.InCallOrder | offchain/solana/rateLimiter.ts:37-42 | calls are let through in the order they were made |
| SendLimiter.VolleyAfterPause | offchain/solana/rateLimiter.ts:45-48 | after a pause the whole burst passes at once and the rest an interval apart: the bound is reached |
| SendLimiter.RateLimiter.Acquire | offchain/solana/rateLimiter.ts:43-58 | the class gives each call the release of the specification and changes no earlier one |
| BurnMemo.ReadsBack | webapp/backend/shared/burn_memo.py:80-112 | reading the rendered lines of any forest of call frames gives back the stack and exactly the length-consistent memos of top-level memo frames |
| BurnMemo.TopLevelMemos | webapp/backend/shared/burn_memo.py:80-112 | the loop is the line-by-line reader, with nothing for a log that cannot be trusted |
| BurnMemo.ReadCommit | webapp/backend/shared/burn_memo.py:115-126 | the share is the one top-level burn memo, zero with none or several, whatever other programs log |
| BurnMemo.MemoTextReadsBack | webapp/backend/shared/burn_memo.py:65-77 | every share of 0 to 10000 bps written as a memo reads back as itself |
| BurnMemo.CommitAsksForItsShare | webapp/backend/shared/burn_memo.py:65-126 | written, logged by the memo program before and after any other calls that leave no burn memo of their own, and read: exactly that share |
| BurnMemo.TruncatedIsDistrusted | webapp/backend/shared/burn_memo.py:90-91 | a log cut anywhere gives nothing |
| BurnMemo.NoMoreThanAll | webapp/backend/shared/burn_memo.py:71-77 | no text asks for more than everything, so the range check never refuses |
| BurnMemo.RuntimeLinesAreNeutral | webapp/backend/shared/burn_memo.py:56-60 | the runtime's own lines open no frame, close none and are no memo |
| MintTlv.WalkReadsBack | webapp/backend/mint_validator.py:275-290 | walking any encoded extensions, with any zero padding and anything before them, gives them back |
| MintTlv.BurnBlocker | webapp/backend/mint_validator.py:260-291 | on any bytes: the first refusing entry's reason, unreadable if the data ends within an entry before that, none otherwise |
| MintTlv.RefusedByOne | webapp/backend/mint_validator.py:284-289 | refused if and only if an extension refuses, with the reason of the first |
| MintTlv.MintRedFlags | webapp/backend/mint_validator.py:321-358 | on any bytes: the authorities, then each whole entry's flag in order |
| MintTlv.Token2022Name | webapp/backend/mint_validator.py:416-431 | on any bytes: the name in the first metadata entry, whole or cut |
| MintTlv.BorshStrings | webapp/backend/mint_validator.py:402-413 | the strings one after the other, none if the data ends within one |
| MintTlv.MetadataReadsBack | webapp/backend/mint_validator.py:402-431 | metadata encoded with a name and a symbol gives them back, whatever follows |
| MintTlv.MintReadsBack | webapp/backend/mint_validator.py:260-431 | the three readers on one encoded mint: first refusal, all flags in order, first metadata's name |
| MintTlv.MintAsWritten | webapp/backend/mint_validator.py:238-431 | a mint written byte by byte as the token programs lay it out, with any authorities and any list of extensions by their published numbers: both readers tell exactly the powers set, burning is refused exactly as the first refusing one says, and the name is the first given |

## Left out

- RPC, HTTP, building, simulating and serializing transactions, rebroadcasting: an error kind, an answer or a crash at each await stands for them.
- Classification of errors by their text: the kinds are given, and the kinds that say "refused", "out of funds" or "too big" are taken to be right that nothing is in flight. The sweep classifies the saved text again; the model keeps the class.
- Files and JSON: a save is atomic, and every update is saved before the next await. Batch file names do not collide.
- `crashed` also stands for an exception that leaves the round; what the orchestrator does with it (go on to the refund) is not modelled.
- Logs, metrics, timers, schedules, delays, the semaphores, caches and the HTTP, bot, web and database code.
- Floating point: SOL amounts are whole lamports and `Number(...)` of a raw amount is exact. The seven-figure constants of the fee curve are the rational numbers written in the code.
- Solana.World.SignatureOutcome: takes an error as reported from a block that stays; `Solana.ProcessedFailureIsNotFinal` and `PurchaseLedger.ProcessedFailureBuysTwice` show what happens otherwise.
- Solana.AbsentIsFinal: the two nodes' distance is a hypothesis; nothing in the code checks it.
- SendRounds.Kept: for coins nobody burns the invariant holds no lasting promise to wallets, because the program infers their pot from the keeper's balance at each visit; what a single visit, the settlement and the sweep give their wallets is proved (`SendRounds.SendRound`, `CoinRun.SettleAndSweep`), while nobody is ahead of its share of that pot.
- SendRounds.Recount: the amount known grows and stays below what was bought by the two theorems of `PurchaseTokens`; the coin's machine takes that as given, since purchases run beside it. `CoinRun.WithinThePurchases` puts the two together.
- SendRounds.ReadBalance: the balance the deliveries are planned on is the truth or an error; with a stale balance the scale-down could be taken. The burn's balance may be any figure.
- CoinRun.SettleAndSweep: how wallets end is said for a stretch without mishaps in which no purchase is read after the settlement: a purchase read later raises what every wallet is owed, and only wallets in line are served again.
- CoinRun.RunCoin: buying and delivering run side by side; here tokens arrive at any await instead. One coin in one world: other coins sign other transactions.
- PurchaseTokens.KnownIsExact: an attempt written off as never landed after five minutes that does land is not counted; that is the theorem's hypothesis.
- RefundLedger.EveryLamportOnce: says nothing of unread debits beyond the estimate; that estimates are upper bounds is not claimed, the rent is keyed by wallet and an earlier attempt is estimated at its fee.
- RefundPlan.RefundsFit: a coin that pays nothing back may not have overspent its allocation; that is a hypothesis, met by `Resume.RunToken` up to fees.
- RefundPlan.PlanRefunds: the stakes of each coin are given, as `Shares.SharesOf` makes them; sending the refunds, which writes no signature down first, is not modelled.
- Amm.BoundIsWithinTheCurve: integers of any size; the 64-bit limits of the program and sums of rates above 2^53 are not modelled.
- BurnMemo.ReadsBack: digits are ASCII, while the patterns would also take other decimal digits; what the memo program escapes in a text is not modelled.
- MintTlv.Token2022Name: turning bytes into text is a parameter.
- Record ids are places in a list, and a purchase is never put back to pending.
- `calculateSendN`, `assignRounds`, `generateSendRecords`, `calculateSendReserve` and `averageBurnBps`: short sums and cases with nothing to prove about a run.
- The on-chain program, the random draw, the weights commitment, phase and event workers: not part of this model.
