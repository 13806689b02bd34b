# Escrow settlement, payment webhooks and fees: a verified model

The system pays the parties of a trade contract out of an escrow account. This project models the parts of it
in which money moves or must not move, and proves what holds in every run.

* **Settlement protocol.** `SettlementEntity` and `EscrowAccounts` are the two entities, each as a class whose
  methods are proved equal to a function from state to state. `SettlementSystem` is the whole protocol: every
  `BEGIN`..`COMMIT` block of the orchestrator and of the dispute listener is one function from database to
  database, and reads before a transaction and calls after a commit wait in `calls` until some later step runs
  them, with anything in between. `SettlementServices` and `DisputeListeners` are the services themselves,
  methods that load, mutate and save, proved to be those transactions. `SettlementInvariant`,
  `SettlementPreservation`, `SettlementTransactions` and `EscrowTransactions` build the invariant;
  `SettlementTheorems`, `SettlementRecords`, `SettlementChecks`, `BankRejections`, `DisputeDelivery` and
  `DisputePolls` hold the results, `PollWindows` the block windows of the poller. `SettlementRuns` and
  `SettlementWitnesses` show, for every contract that can be paid, runs that reach each of the cases the theorems
  speak of.
* **Payment webhooks.** `WebhookSystem` models any number of deliveries over pooled sessions with re-entrant
  advisory locks, transaction-private rows, and a finalizer that the body does not await, so that it runs
  after the session has gone back to the pool. `WebhookInvariant` and `WebhookPreservation` build the
  invariant, `WebhookTheorems` has the results, `WebhookWitnesses` runs in which locks and results are lost,
  `WebhookServices` the classes. `LockKey` is the key function.
* **Sandbox bank.** `MockBanks` is the adapter, with the timers that complete transfers; `MockBankTheorems` and
  `MockBankReports` have its results. `SplitPayments` is the split the bank is fed with, and `EndToEnd` runs the
  settlement system and the bank together.
* **Fees and contract.** `MoneyValue`, `FeeStructures`, `ContractStatuses`, `ContractEntity`,
  `ContractLifecycle` and `CreateContractUseCases`.

Amounts are integers in the smallest unit. A percentage is exact, half up: `(amount * bps + 5000) / 10000`;
rates are integers in basis points. Identifiers, hashes, texts and dates carry no structure. What bank and
ledger answer is an argument of a step, so every theorem covers every answer.

## What the proofs show

The following was promised in the code, its comments or its migrations and does not hold as it stands. Each has
a lemma with the exact condition and, where the condition does not name the input itself, a lemma with an input or a
run on which it fails.

* An escrow account funded with exactly the agreed total cannot complete its first attempt: `debit` tests the
  *available* balance while the same total is still frozen. Completion goes through exactly when the total is
  available besides what is frozen, and otherwise rolls back to `BANK_SUCCESS`
  (`CompletionGoesThroughExactly`, `FirstAttemptNeedsTwiceTheTotal`, `ExactlyFundedCannotComplete`).
* Three failures the orchestrator writes are never stored, because the table has no edge for them and the transaction
  rolls back: a transfer the bank rejects, a ledger status that cannot be read, a submission that fails
  (`BankAnswerStoredExactly`, `CompletionShape`). A rejected transfer leaves its settlement locked, without a retry,
  until someone asks for the transfer by hand or a dispute arrives (`RejectedTransferStalls`, `StallEndsExactly`,
  `RejectionStalls`).
* Money frozen by a dispute stays frozen exactly when no `unlockEscrow` of a failed bank transfer is still
  waiting, because that call releases everything (`DisputedMoneyStaysLockedExactly`,
  `DisputedMoneyIsReleased`).
* A settlement in `BLOCKED_BY_STATE_CHANGE` passes `canBeFrozenByDispute` but has no edge to
  `FROZEN_BY_DISPUTE`: its dispute fails and freezes nothing, and the poll window advances all the same. Polls that
  do not overlap never read the event again; with overlap it is read again exactly if another open poll ends
  before its block (`FreezableWithoutEdge`, `DisputeOutcome`, `BlockedSettlementLosesItsDispute`,
  `FailedDisputeIsNeverPolledAgain`, `CompletedBlockIsReadAgainExactly`).
* A retry asks for the bank transfer exactly when the status read before the lock was `BANK_FAILED`; the
  completion it asks for after a ledger failure can do nothing, since the row is back in `ESCROW_LOCKED`
  (`RetryAfterLedgerFailureStalls`, `LedgerFailureStalls`).
* Counting successful legs is right exactly up to results for legs the split does not have; a callback that reports
  one result too many is stored as a success with its first leg failed (`CountingSuccessesIsExact`,
  `SuccessfulCallbackPaidEveryLeg`, `StraySuccessMisleads`).
* The webhook lock excludes deliveries from each other up to the moment the session is given back, not up to
  the commit; an overlap needs, and follows from, a delivery that has left without committing
  (`BodiesExclude`, `GrantedLockOverlapsExactly`, `OverlapHappens`).
* Releasing the webhook lock takes effect only on the session that holds it: after an exception never, after
  a rejection exactly when the pool hands that session out again (`UnlockAfterAnExceptionIsLost`,
  `ReleaseTakesEffectExactly`, `ExceptionLosesItsLock`, `RejectionLosesItsResult`).
* The result of a payment that succeeded is stored at once exactly if the pool hands the finalizer a session without
  an open transaction. A rejected delivery leaves such a transaction behind; on its session the result waits for a
  commit or is lost, and the claim still says PROCESSING (`CommittedClaimGetsItsResult`).
* Polls may overlap, since the timer does not wait. `lastProcessedBlock` then steps back at exactly those steps that
  complete a poll ending before it. No block is skipped, but the windows tile the chain exactly when no poll is
  overtaken (`LastNeverDecreasesExactly`, `TilingExactlyWhenNeverOvertaken`, `OverlappingPollsStepBack`).
* The sandbox bank's report on a batch agrees with its debits exactly when the last completion by hand, if any, said
  what the timer had done; a completion by hand never moves money, whatever it reports (`ReportAgreesExactly`,
  `CompletionByHandNeverPays`, `DisagreementsHappen`). A retry of a failed transfer is answered with the failed
  batch (`OverNeverPaysAgain`), and two accepted transfers can overdraw the account
  (`AcceptedTransfersCanOverdraw`).
* Creating a contract is not all or nothing: when the publisher throws after the save, the row stays and its
  creation is never published (`AllOrNothingExactly`).
* Without minimum, maximum and fixed fee, `calculateFees` throws exactly when the rates sum to 10000 and the
  platform's share ends in one half; a seller's net can fall by one unit as the total grows
  (`PurePercentagesFailExactlyAtHalf`, `TwoHalvesOfOneFail`, `NetCanFallByOne`).
* Event versions restart when the queue is pulled, so they stay distinct exactly until the first command
  (`VersionsDistinctExactlyUntilFirstCommand`).

## Model

| member | source | states |
|---|---|---|
| SettlementTheorems.NextKeeps | src/escrow/services/settlement-orchestrator.service.ts:172-929 | every step of any transaction, check, credit or lost call keeps the system invariant and lets each row evolve only by falling potential, appended log and no debit but on completion |
| SettlementTheorems.EscrowPaysOnceAndOnlyOnCompletion | src/escrow/services/settlement-orchestrator.service.ts:539-757 | in every reachable world a contract has at most one settlement, and its escrow balance is all credits minus the total exactly when that settlement is completed |
| SettlementTheorems.UnsettledAccountsKeepAllCredits | src/escrow/services/settlement-orchestrator.service.ts:172-337 | an account whose contract has no settlement has never been debited |
| SettlementTheorems.FirstAttemptKeepsTotalFrozen | src/escrow/services/settlement-orchestrator.service.ts:284-297 | a first attempt that is locked, pending, paid, failed on the ledger or blocked keeps its whole total frozen, with unlocks and disputes landing anywhere |
| SettlementTheorems.CompletedWasVerifiedAfterPayment | src/escrow/services/settlement-orchestrator.service.ts:539-757 | leg results aside, the log of a completed settlement ends with bank success, on-chain status 2, submission, completion, however many attempts came before |
| SettlementTheorems.CompletionGoesThroughExactly | src/escrow/services/settlement-orchestrator.service.ts:684-757 | with every answer favourable, completion goes through exactly when the total is available besides what is frozen; otherwise nothing at all is stored |
| SettlementTheorems.FirstAttemptNeedsTwiceTheTotal | src/escrow/domain/escrow-account.entity.ts:249-294 | an account credited with less than twice the total only ever completes after a retry |
| SettlementTheorems.RetryAfterLedgerFailureStalls | src/escrow/services/settlement-orchestrator.service.ts:786-807 | for every retriable row and every status read before the lock: the bank transfer is asked for exactly after BANK_FAILED, the completion exactly after BLOCKCHAIN_FAILED, and that completion does nothing whatever the ledger answers |
| BankRejections.BankAnswerStoredExactly | src/escrow/services/settlement-orchestrator.service.ts:386-408 | in every reachable world the bank's answer is stored exactly when it accepts the transfer of a locked settlement; a rejection is stored no more than an exception and asks for no unlock |
| BankRejections.StallEndsExactly | src/escrow/services/settlement-orchestrator.service.ts:346-416 | a locked settlement for which no call to the bank is waiting is moved on, among all steps of the system, exactly by asking for the transfer by hand and by a dispute over its contract |
| BankRejections.RejectedTransferStalls | src/escrow/domain/settlement-status.enum.ts:117-171 | after a rejected transfer no retry passes its check, and the settlement stays locked in every run without those two |
| SettlementTheorems.FrozenSettlementStaysFrozen | src/escrow/services/settlement-orchestrator.service.ts:425-527 | no run changes the status of a frozen settlement or lowers its escrow balance, callbacks that had passed their check included |
| SettlementTheorems.FreezeLastsWithoutUnlock | src/escrow/services/settlement-orchestrator.service.ts:888-929 | with no unlock waiting, what is frozen never decreases in any run |
| SettlementTheorems.WaitingUnlockReleasesEverything | src/escrow/services/settlement-orchestrator.service.ts:888-929 | one waiting unlock brings the frozen amount to zero, the part a dispute froze included |
| SettlementTheorems.DisputedMoneyStaysLockedExactly | src/escrow/blockchain/dispute-listener.service.ts:402-451 | disputed money stays locked in every run if and only if no unlock is waiting |
| SettlementTheorems.ChangesUseUpPotential | src/escrow/domain/settlement.entity.ts:264-271 | status changes in a run use up the pair of remaining retries and stage rank, which never falls below zero |
| SettlementTheorems.AtMostSixteenStatusChanges | src/escrow/services/settlement-orchestrator.service.ts:765-826 | in every run a settlement changes its committed status at most 16 times |
| SettlementWitnesses.SixteenStatusChangesHappen | src/escrow/services/settlement-orchestrator.service.ts:765-826 | the bound is reached: four attempts that fail on the ledger and a dispute |
| SettlementWitnesses.ExactlyFundedCannotComplete | src/escrow/services/settlement-orchestrator.service.ts:698-713 | for every payable contract a run credits exactly the total, is paid by the bank, and no answer of the ledger completes it |
| SettlementWitnesses.TwiceFundedCompletes | src/escrow/services/settlement-orchestrator.service.ts:690-715 | credited with twice the total, a run completes at the first attempt |
| SettlementWitnesses.DisputedMoneyIsReleased | src/escrow/services/settlement-orchestrator.service.ts:480-499 | a failed bank transfer followed by a dispute: frozen money that does not stay frozen |
| SettlementWitnesses.LedgerFailureStalls | src/escrow/services/settlement-orchestrator.service.ts:800-807 | a run to BLOCKCHAIN_FAILED whose retry stalls |
| SettlementWitnesses.RejectionStalls | src/escrow/services/settlement-orchestrator.service.ts:386-408 | for every payable contract a run to a first attempt with its total frozen that any rejection stalls |
| SettlementWitnesses.BlockedSettlementLosesItsDispute | src/escrow/domain/settlement-status.enum.ts:219-222 | a run to BLOCKED_BY_STATE_CHANGE after which every dispute fails and changes nothing |
| SettlementWitnesses.StraySuccessMisleads | src/escrow/services/settlement-orchestrator.service.ts:453-479 | from a reachable pending row with any number of legs, a callback reporting the first leg failed and one success too many is stored as a bank success |
| SettlementTheorems.DisputeOutcome | src/escrow/blockchain/dispute-listener.service.ts:376-536 | dispute processing fails exactly on a settlement blocked by a state change and then changes nothing; a success leaves nothing available and the settlement terminal or frozen |
| SettlementInvariant.OneSettlementPerContract | src/infrastructure/database/migrations/003_escrow_settlement_tables.sql:65 | racing initiations past the unlocked check cannot create two settlements, because the reference is unique |
| SettlementRecords.EveryRowHasASoundRecord | src/escrow/domain/settlement.entity.ts:776-805 | in every reachable world version, last event, retry numbers and leg results of each row agree with its log, and a completed row was locked, pending and paid since its last lock |
| SettlementRecords.SuccessfulCallbackPaidEveryLeg | src/escrow/services/settlement-orchestrator.service.ts:443-479 | in every reachable world and for every callback: storing a bank success means the row was waiting, and every leg succeeded exactly when no success is stray; without a stray success it is stored exactly when the row waits and every leg succeeded |
| SettlementRecords.FittingCallbacksLeaveNoStray | src/escrow/services/settlement-orchestrator.service.ts:453-470 | along runs whose callbacks report on no more legs than there are, no success is ever stray |
| SettlementRecords.CallbackRecordsExactly | src/escrow/services/settlement-orchestrator.service.ts:443-479 | on any row: what a callback stores is, for each leg it names, the result it reports, and for every other leg what was there, so a leg has succeeded exactly as last reported |
| SettlementRecords.BankSuccessStoredExactly | src/escrow/services/settlement-orchestrator.service.ts:443-479 | without successes for missing legs, a bank success is stored exactly when the row waits for it and every leg succeeds, by the callback for the legs it names and by the row for the others |
| EscrowTransactions.InitiateShape | src/escrow/services/settlement-orchestrator.service.ts:223-337 | an initiation changes nothing, or adds one locked settlement under a new reference and freezes its total on the contract's account |
| SettlementChecks.InitiationStoredExactly | src/escrow/services/settlement-orchestrator.service.ts:223-337 | in every reachable world an initiation is stored exactly when the account has the total available, the payout breaks no rule, every leg has a complete account, and id and reference are new; what it stores, or that nothing changes |
| SettlementChecks.InitiateCheckExactly | src/escrow/services/settlement-orchestrator.service.ts:180-218 | an initiation passes its check exactly at ledger status 2 and without an earlier settlement |
| SettlementChecks.CallbackCheckExactly | src/escrow/services/settlement-orchestrator.service.ts:430-441 | a callback passes its check exactly when the settlement of its reference waits for the bank |
| SettlementChecks.RetryCheckExactly | src/escrow/services/settlement-orchestrator.service.ts:768-784 | a retry passes its check exactly after a failure with retries left, and remembers the failure it saw |
| SettlementTransactions.CallbackShape | src/escrow/services/settlement-orchestrator.service.ts:449-527 | what a callback leaves, for every status it can report |
| SettlementTransactions.CompletionShape | src/escrow/services/settlement-orchestrator.service.ts:539-757 | which of the many branches of completion ever stores anything, and what |
| SettlementServices.SettlementOrchestrator.InitiateSettlement | src/escrow/services/settlement-orchestrator.service.ts:223-337 | the method is the initiation transaction: freeze and new row together or not at all |
| SettlementServices.SettlementOrchestrator.ExecuteBankTransfer | src/escrow/services/settlement-orchestrator.service.ts:346-416 | the method is the bank transfer transaction |
| SettlementServices.SettlementOrchestrator.RecordResults | src/escrow/services/settlement-orchestrator.service.ts:453-470 | the loop records the reported results in the order of the legs |
| SettlementServices.SettlementOrchestrator.HandleBankCallback | src/escrow/services/settlement-orchestrator.service.ts:425-527 | the method is the callback transaction |
| SettlementServices.SettlementOrchestrator.CompleteSettlementOnChain | src/escrow/services/settlement-orchestrator.service.ts:539-757 | the method is the completion transaction |
| SettlementServices.SettlementOrchestrator.RetrySettlement | src/escrow/services/settlement-orchestrator.service.ts:765-826 | the method is the retry transaction, its follow-up chosen by the status read before the lock |
| SettlementServices.SettlementOrchestrator.UnlockEscrow | src/escrow/services/settlement-orchestrator.service.ts:888-929 | the method releases the whole frozen amount or changes nothing |
| SettlementHistory.AcceptedExactly | src/escrow/domain/settlement.entity.ts:320-642 | each call returns normally exactly from its source statuses, given leg results and retry budget |
| SettlementHistory.RejectedCallsLeaveTheRecord | src/escrow/domain/settlement.entity.ts:386-445 | a call that throws leaves status, log, version, leg results and retries as they were |
| SettlementHistory.RejectedCallCanSetSideField | src/escrow/domain/settlement.entity.ts:407-421 | a call that throws may have set a side field before the transition was tested |
| SettlementHistory.SideFieldsExactly | src/escrow/domain/settlement.entity.ts:386-642 | hash, block and error message after any call, accepted or not, and that no call changes what identifies the settlement |
| SettlementHistory.RecordingReplacesExactly | src/escrow/domain/settlement.entity.ts:336-346 | after recording, a result is among the leg results exactly when it is the new one or was there for another leg |
| SettlementHistory.AcceptedCallFollows | src/escrow/domain/settlement-status.enum.ts:117-171 | every accepted call logs a status that follows the table, a retry from BLOCKCHAIN_FAILED excepted |
| SettlementHistory.HistoryOfAnySettlement | src/escrow/domain/settlement.entity.ts:320-642 | for any calls: version counts events, last event carries the status, at most 3 numbered retries, statuses form a path, and every COMPLETED was paid since the last lock |
| SettlementHistory.RouteThroughTheBank | src/escrow/domain/settlement-status.enum.ts:117-171 | everything from bank success on was reached through lock, pending and success with no later lock |
| SettlementHistory.CountingSuccessesIsExact | src/escrow/domain/settlement.entity.ts:651-658 | on distinct legs, counting successes agrees with every leg having succeeded exactly when no result names a missing leg |
| SettlementHistory.BankSuccessNeedsEveryLeg | src/escrow/domain/settlement.entity.ts:371-381 | bank success is accepted exactly when pending and every leg succeeded, as long as results name legs of the split |
| SettlementStatuses.FreezableWithoutEdge | src/escrow/domain/settlement-status.enum.ts:219-222 | being blocked by a state change is the one freezable status without an edge to the frozen one |
| SettlementEntity.Settlement.Create | src/escrow/domain/settlement.entity.ts:128-168 | a new settlement is INITIATED with one logged event and version 1 |
| SettlementEntity.Settlement.RecordResult | src/escrow/domain/settlement.entity.ts:336-366 | the whole new state: the leg's earlier result replaced or the result appended, and logged; RecordingReplacesExactly says what that leaves |
| SettlementEntity.Settlement.BankSuccess | src/escrow/domain/settlement.entity.ts:371-381 | the whole new state of markBankSuccess |
| SettlementEntity.Settlement.Completed | src/escrow/domain/settlement.entity.ts:407-421 | the whole new state of markCompleted |
| SettlementEntity.Settlement.Retry | src/escrow/domain/settlement.entity.ts:463-483 | the whole new state of prepareForRetry, which assigns the status without the table |
| SettlementEntity.Settlement.FreezeByDispute | src/escrow/domain/settlement.entity.ts:547-581 | the whole new state of markFrozenByDispute |
| EscrowAccounts.LogTellsTheWholeStory | src/escrow/domain/escrow-account.entity.ts:429-461 | after any commands the log replays to balance and frozen amount, its entries are chained, verifyBalance matches, and 0 <= frozen <= balance |
| EscrowAccounts.AcceptedExactly | src/escrow/domain/escrow-account.entity.ts:209-378 | a command is accepted exactly when it is positive, the account is open and its entry replays to 0 <= frozen <= balance, debits needing available money besides; and what it logs |
| EscrowAccounts.CloseAcceptedExactly | src/escrow/domain/escrow-account.entity.ts:385-397 | a sound account can be closed exactly when it is open and its balance is 0 |
| EscrowAccounts.ApplyKeepsValid | src/escrow/domain/escrow-account.entity.ts:209-397 | every command keeps the account sound, and a rejected one changes nothing |
| EscrowAccounts.DebitReleasesFrozenMoney | src/escrow/domain/escrow-account.entity.ts:249-294 | a debit lowers what is available by its amount exactly when nothing was frozen |
| EscrowAccounts.StatusAfter | src/escrow/domain/escrow-account.entity.ts:303-397 | which status each accepted command leaves |
| EscrowAccounts.UnfreezeUndoesFreeze | src/escrow/domain/escrow-account.entity.ts:303-378 | unfreezing what was frozen restores both funds |
| EscrowAccounts.ClosedIsFinal | src/escrow/domain/escrow-account.entity.ts:385-397 | a closed account accepts nothing, although freeze and unfreeze do not test for it |
| EscrowAccounts.EscrowAccount.DebitAccount | src/escrow/domain/escrow-account.entity.ts:249-294 | the whole new state of a debit, which consumes frozen money |
| EscrowAccounts.EscrowAccount.Freeze | src/escrow/domain/escrow-account.entity.ts:303-336 | the whole new state of freezing |
| DisputeListeners.DisputeListener.ProcessDisputeOpened | src/escrow/blockchain/dispute-listener.service.ts:376-536 | the method is the dispute transaction plus its memory of successful events |
| DisputeListeners.DisputeListener.PollForEvents | src/escrow/blockchain/dispute-listener.service.ts:221-255 | the loop processes the events of one window and advances the block unless something threw; PollHandlesEveryEvent says what becomes of each event |
| DisputePolls.PollHandlesEveryEvent | src/escrow/blockchain/dispute-listener.service.ts:221-255 | in every reachable world and for every poll: exactly the events before the failure whose contract is not blocked become processed; each of them seen first while the bank answers leaves nothing available and its settlement terminal or frozen; and where the block ends |
| DisputeDelivery.LookupsAreUnique | src/escrow/blockchain/dispute-listener.service.ts:403-454 | in every reachable world the lookups by contract find at most one account and one settlement, which is what the service methods ask for |
| DisputeDelivery.RedeliveryIsHarmlessExactly | src/escrow/blockchain/dispute-listener.service.ts:376-536 | delivering an event again after a success, even after a restart, changes nothing exactly when the first delivery froze what there was to freeze |
| DisputeDelivery.PolledBlocksExactly | src/escrow/blockchain/dispute-listener.service.ts:221-255 | over any polls in sequence the completed windows are disjoint, in order, at most maxBlocksPerPoll + 1 long, and cover exactly the blocks up to lastProcessedBlock |
| DisputeDelivery.FailedDisputeIsNeverPolledAgain | src/escrow/blockchain/dispute-listener.service.ts:221-255 | whatever else a poll brings, a dispute over a blocked settlement freezes nothing and stays unprocessed; if its poll completes and polls do not overlap, it lies before every later window |
| PollWindows.NoBlockIsSkipped | src/escrow/blockchain/dispute-listener.service.ts:210-255 | however polls overlap and fail, every block up to lastProcessedBlock lies in a completed window |
| PollWindows.TilingExactlyWhenNeverOvertaken | src/escrow/blockchain/dispute-listener.service.ts:210-255 | the completed windows tile the blocks, contiguous and disjoint, exactly when every completing poll still finds the block where it was when it began |
| PollWindows.SerialPollsCoverExactly | src/escrow/blockchain/dispute-listener.service.ts:221-255 | polls that do not overlap cover exactly the blocks up to lastProcessedBlock, each once |
| PollWindows.LastNeverDecreasesExactly | src/escrow/blockchain/dispute-listener.service.ts:226-251 | in every run of overlapping polls the block decreases at exactly those steps that complete a poll ending before it |
| PollWindows.ReadAgainExactly | src/escrow/blockchain/dispute-listener.service.ts:226-233 | some continuation reads a block again exactly when the listener is before it or an open poll will bring it there |
| PollWindows.CompletedBlockIsReadAgainExactly | src/escrow/blockchain/dispute-listener.service.ts:226-251 | a block whose poll has completed can be read again exactly if another open poll ends before it |
| PollWindows.OverlappingPollsStepBack | src/escrow/blockchain/dispute-listener.service.ts:210-213 | two polls that began together, the slower one completing last, bring the block back from 20 to 10 |
| SplitPayments.LegsMoveTheTotal | src/escrow/domain/split-payment.value.ts:173-239 | every valid split moves exactly its total, in one to three positive legs to distinct recipients |
| SplitPayments.LegsPayTheParties | src/escrow/domain/split-payment.value.ts:607-650 | the legs of a valid split are exactly the seller's amount to the seller's account, the platform's fee to the platform's, the mediator's to the mediator's, each where positive, in this order |
| SplitPayments.CreateSucceedsExactly | src/escrow/domain/split-payment.value.ts:173-239 | a split is created exactly when the payout breaks none of the rules, and an error names a rule that is broken |
| SplitPayments.BuildTransferLegs | src/escrow/domain/split-payment.value.ts:607-650 | the pushed list is the seller, platform and mediator legs in this order; LegsPayTheParties says whom they pay |
| SplitPayments.ValidateAccounts | src/escrow/domain/split-payment.value.ts:419-440 | one error per violated rule and leg, none exactly when every leg is sound |
| SplitPayments.ActualAmountsConserve | src/escrow/domain/split-payment.value.ts:450-494 | net amounts plus the fee taken out of them sum to the total, whoever bears it, and only an unknown bearer fails |
| SplitPayments.BearerPaysTheFee | src/escrow/domain/split-payment.value.ts:450-494 | exactly the bearer is charged the actual fee, the other parties get their amounts, and the variance is the actual fee less the estimate |
| SplitPayments.DisclosedNetMatchesActual | src/escrow/domain/network-fee.types.ts:288-309 | the disclosed seller net is the actual one at the estimated fee, except exactly when the seller bears more than the seller gets |
| MockBankTheorems.ReferencePaysAtMostOnce | src/escrow/adapters/mock-bank.adapter.ts:282-344 | fed by valid splits, a reference has at most one batch and is debited at most once, on one account, and then exactly the payments of that batch, which is over |
| MockBankTheorems.AnswersExactly | src/escrow/adapters/mock-bank.adapter.ts:282-344 | the answer to every request: the batch that has the reference, account not found, a rejection above the balance, or a new pending batch with one pending transfer for each leg; no money moves |
| MockBankTheorems.CompletionReportsEveryLeg | src/escrow/adapters/mock-bank.adapter.ts:472-602 | completing a batch, by timer or by hand, gives every leg the status of the batch and changes nothing else in it |
| MockBankTheorems.LogEndsWithBalance | src/escrow/adapters/mock-bank.adapter.ts:452-602 | in every run the last entry of an account's log shows its balance |
| MockBankTheorems.BalanceMatchesLogExactly | src/escrow/adapters/mock-bank.adapter.ts:125-153 | a balance equals logged credits minus logged debits exactly when the account was not opened with a negative deposit |
| MockBankTheorems.OverNeverPaysAgain | src/escrow/adapters/mock-bank.adapter.ts:545-602 | a batch that is over is never debited again short of a reset, and asking for its reference again returns it |
| MockBankTheorems.CompletionByHandNeverPays | src/escrow/adapters/mock-bank.adapter.ts:472-499 | completing a batch by hand in any status sets the report, and what was debited for it stays as it was in any later run |
| MockBankReports.ReportAgreesExactly | src/escrow/adapters/mock-bank.adapter.ts:472-602 | in every run, resets included, a batch is reported successful exactly when debited in full if and only if its last completion by hand, if any, said what its timer had done |
| MockBankReports.CompletingByHandAgreesExactly | src/escrow/adapters/mock-bank.adapter.ts:472-499 | what a caller can check: completing by hand leaves an agreeing report exactly if it says what was debited |
| MockBankReports.DisagreementsHappen | src/escrow/adapters/mock-bank.adapter.ts:472-602 | from every pending batch with a running timer, success without debit twice and failure with a full debit |
| MockBankTheorems.AcceptedTransfersCanOverdraw | src/escrow/adapters/mock-bank.adapter.ts:300-335 | two accepted transfers overdraw the account exactly when the balance does not cover both |
| MockBankTheorems.UnfreezeAfterSettlementExactly | src/escrow/adapters/mock-bank.adapter.ts:247-268 | releasing a freeze record after a settlement makes the frozen amount negative exactly when the settlement exceeded what was frozen before |
| MockBankTheorems.FreezeAndUnfreezeExactly | src/escrow/adapters/mock-bank.adapter.ts:210-276 | a freeze is refused exactly above the unfrozen balance; its id releases what it froze, once; neither moves money |
| MockBankTheorems.ResetLeavesOrphans | src/escrow/adapters/mock-bank.adapter.ts:504-509 | a reset forgets accounts and batches but no timer: one set before it still goes off after any later steps, and changes neither account nor batch |
| EndToEnd.BankPaysEachSettlementAtMostOnce | src/escrow/services/settlement-orchestrator.service.ts:366-408 | the settlement system and the bank run together: however often a settlement is retried or its transaction lost after the bank's answer, its reference is debited at most once, on its own escrow account, for exactly its parties' amounts to their accounts, the total in all, and nothing else is ever debited |
| MockBanks.MockBank.ExecuteSplit | src/escrow/adapters/mock-bank.adapter.ts:282-344 | duplicate, unknown account, insufficient balance or a new pending batch with its timer |
| MockBanks.MockBank.FireTimer | src/escrow/adapters/mock-bank.adapter.ts:545-602 | the timer marks every leg and debits once, or leaves a finished or vanished batch alone |
| MockBanks.MockBank.ManuallyCompleteTransfer | src/escrow/adapters/mock-bank.adapter.ts:472-499 | every leg gets the status, and no account changes |
| MockBanks.MockBank.FreezeFunds | src/escrow/adapters/mock-bank.adapter.ts:210-245 | freezes and records exactly when the amount is available |
| MockBanks.MockBank.UnfreezeFunds | src/escrow/adapters/mock-bank.adapter.ts:247-276 | releases the recorded amount exactly when the record exists |
| WebhookPreservation.NextKeeps | src/payments/xendit/xendit.service.ts:432-770 | every step of every delivery, finalizer, session or outside party keeps locks exclusive, inserts unique and each delivery's claims true |
| WebhookTheorems.BodiesExclude | src/payments/xendit/xendit.idempotency.ts:86-101 | no two deliveries with one lock key are between the granted lock and the return of their session |
| WebhookTheorems.GrantedLockOverlapsExactly | src/payments/xendit/xendit.service.ts:742-770 | a delivery granted the lock overlaps with another between acquire and commit exactly when one has left its body uncommitted |
| WebhookTheorems.OverlapNeedsAReturnedSession | src/payments/xendit/xendit.service.ts:733-736 | of two deliveries with one key between acquire and commit, one has given its session back |
| WebhookTheorems.OverlapHappens | src/payments/xendit/xendit.service.ts:514-525 | for any two invoices with one key there is a run in which both are between acquire and commit |
| WebhookTheorems.OverlappingLockComesFrom | src/payments/xendit/xendit.service.ts:733-736 | an overlapping lock is granted on the very session the other delivery has given back, or that session has lost the key |
| WebhookTheorems.SuccessIsUnique | src/payments/xendit/xendit.idempotency.ts:127-144 | at most one delivery succeeds for an invoice, and at most one for a contract |
| WebhookTheorems.SuccessIsRecorded | src/payments/xendit/xendit.service.ts:625-694 | a success owns the committed claim, the funded contract row and the ledger's transition |
| WebhookTheorems.SuccessRowsAreTrue | src/payments/xendit/xendit.idempotency.ts:186-194 | a claim row that says SUCCESS belongs to a delivery whose body went all the way |
| WebhookTheorems.FundedRowsLeftCreated | src/payments/xendit/xendit.service.ts:662-671 | a contract row is FUNDED, committed or not, only if a delivery made the ledger leave CREATED |
| WebhookTheorems.CommittedClaimExcludes | src/payments/xendit/xendit.idempotency.ts:103-125 | once a claim is committed only its owner is ever past the claim for that invoice |
| WebhookTheorems.ClaimsAreForever | src/payments/xendit/xendit.idempotency.ts:356-372 | no run removes a committed claim or changes its owner, stale-claim cleanup included |
| WebhookTheorems.ExceptionFreesInvoiceExactly | src/payments/xendit/xendit.service.ts:695-696 | an exception after the claim frees the invoice exactly when the claim was not committed |
| WebhookTheorems.UnlockAfterAnExceptionIsLost | src/payments/xendit/xendit.service.ts:715-736 | after an exception the lock stays on the returned session, so every other session is refused the key |
| WebhookTheorems.ReleaseTakesEffectExactly | src/payments/xendit/xendit.idempotency.ts:173-210 | after a rejection result and unlock take effect exactly on the session just returned |
| WebhookTheorems.RejectedClaimIsCommitted | src/payments/xendit/xendit.service.ts:742-770 | a rejected delivery uses up its invoice: its claim is committed, with the rejection's result exactly if the release ran on its own session, else PROCESSING with the key still locked |
| WebhookTheorems.CleanupMarksStaleClaims | src/payments/xendit/xendit.idempotency.ts:356-372 | stale-claim cleanup turns PROCESSING into UNKNOWN_ERROR, keeps the owner, and touches nothing else |
| WebhookServices.CommittedClaimGetsItsResult | src/payments/xendit/xendit.idempotency.ts:187-194 | in every reachable world the release of a committed claim stores the result at once exactly if its session has no transaction open; otherwise the result waits there |
| WebhookWitnesses.ExceptionLosesItsLock | src/payments/xendit/xendit.service.ts:695-736 | for every invoice a run after which nobody processes it, no claim exists, and every other session is refused its key, until the pool closes the session that holds it: then the next delivery gets its claim |
| WebhookWitnesses.RejectionLosesItsResult | src/payments/xendit/xendit.service.ts:749-757 | for every invoice and every rejection a run in which the release leaves claim and lock as they were |
| WebhookServices.IdempotencyGuard.AcquireProcessingLock | src/payments/xendit/xendit.idempotency.ts:74-160 | is the three protocol steps in a row, and acquires exactly when the key is free and no row for the invoice is visible or on its way |
| WebhookServices.IdempotencyGuard.ReleaseProcessingLock | src/payments/xendit/xendit.idempotency.ts:173-210 | is the three protocol steps in a row, from the finalizer or from the catch block, on whatever session the pool hands out; CommittedClaimGetsItsResult says what it stores |
| WebhookServices.XenditService.FinalizeProcessing | src/payments/xendit/xendit.service.ts:742-770 | alone, ends with the result the body has chosen and leaves the ledger alone |
| WebhookServices.XenditService.Recover | src/payments/xendit/xendit.service.ts:695-736 | an exception anywhere in the body ends in UNKNOWN_ERROR and leaves the ledger alone |
| WebhookServices.XenditService.ProcessPaymentWebhook | src/payments/xendit/xendit.service.ts:432-737 | one delivery by itself, exceptions included, is a run of the protocol; it funds the ledger exactly when everything it asks is in its favour, succeeds exactly if moreover nothing throws, and then leaves the committed claim at SUCCESS, or at PROCESSING exactly if the pool hands the finalizer another session with a transaction open |
| LockKey.GenerateLockKey | src/payments/xendit/xendit.idempotency.ts:427-437 | wrapping at each step equals wrapping the base-31 polynomial of the whole string once, and the key lies in 0..2^31 |
| LockKey.DifferentInvoicesCanShareAKey | src/payments/xendit/xendit.idempotency.ts:427-437 | exchanging two units inside any invoice id keeps its key |
| FeeStructures.FeesAddUp | src/domain/value-objects/FeeStructure.ts:81-121 | platform fee, mediator fee and net sum to the total whenever calculateFees returns; FeesExactly gives each of them |
| FeeStructures.FeesExactly | src/domain/value-objects/FeeStructure.ts:81-121 | in integers: the platform fee is the rounded percentage plus the fixed fee, lifted to the minimum and then cut at the maximum, the mediator fee its rounded percentage; defined exactly when the currencies agree and both fit the total |
| FeeStructures.NetAlmostMonotone | src/domain/value-objects/FeeStructure.ts:81-121 | as the total grows the net never falls by more than 1, through fixed fee and clamps, and not at all without mediator fee |
| FeeStructures.NetCanFallByOne | src/domain/value-objects/FeeStructure.ts:81-121 | the bound of 1 is reached |
| FeeStructures.PurePercentagesFailExactlyAtHalf | src/domain/value-objects/FeeStructure.ts:163-178 | with pure percentages calculateFees throws exactly at complementary rates and remainder one half, and then the fees exceed the total by 1 |
| FeeStructures.TwoHalvesOfOneFail | src/domain/value-objects/FeeStructure.ts:81-121 | at 50% each, the fees of a total of 1 are undefined |
| FeeStructures.UseCaseFeesDefinedExactly | src/application/use-cases/CreateContractUseCase.ts:120-138 | with the use case's clamps the fees are defined exactly when minimum and mediator fee fit the total |
| MoneyValue.PercentageIsNearest | src/domain/value-objects/Money.ts:86-98 | a percentage is within half a unit of the exact value, halves going up |
| MoneyValue.SubtractInvertsAdd | src/domain/value-objects/Money.ts:63-81 | subtraction undoes addition, and fails exactly below zero or across currencies |
| ContractEntity.HalfWayExactlyWhenFeesUndefined | src/domain/entities/Contract.ts:219-260 | a command fails half way exactly when it is an allowed settlement whose fees are undefined |
| ContractEntity.AcceptedCommandRecordsItself | src/domain/entities/Contract.ts:146-333 | an accepted command moves to its status, logs and emits the one action it stands for, with the fees if it settles, and sets only the references it brings |
| ContractEntity.DirectContractCanSettleHalfWay | src/domain/entities/Contract.ts:219-260 | a contract created directly can end SETTLED with nothing logged |
| ContractEntity.Contract.SettleContract | src/domain/entities/Contract.ts:219-260 | the whole new state of settle, the half-way failure included |
| ContractEntity.Contract.PullDomainEvents | src/domain/entities/Contract.ts:357-361 | hands over the queue and empties it |
| ContractLifecycle.ExecuteSucceedsExactly | src/application/use-cases/CreateContractUseCase.ts:213-246 | creation succeeds exactly on valid input with a whole total that covers the fees |
| ContractLifecycle.RefusalsExactly | src/application/use-cases/CreateContractUseCase.ts:213-246 | every refusal and its cause: a broken input rule, a total that is not whole, a total that does not cover least fee and mediator share |
| ContractLifecycle.SavedContractCharges | src/application/use-cases/CreateContractUseCase.ts:100-151 | total, fees and net of a created contract as numbers computed from the input, with its first audit entry and event |
| ContractLifecycle.SavedContractLivesSoundly | src/domain/entities/Contract.ts:146-373 | a saved contract accepts at most 4 commands, each logged and emitted once, trail and emitted events agree one to one, and its fees stay those promised |
| ContractLifecycle.SavedContractNeverSettlesHalfWay | src/application/use-cases/CreateContractUseCase.ts:137-151 | settle never stops half way on a saved contract |
| ContractLifecycle.StepKeepsSound | src/domain/value-objects/AuditTrail.ts:45-47 | one command appends one audit entry and one event or changes nothing |
| ContractLifecycle.VersionsDistinctExactlyUntilFirstCommand | src/domain/entities/Contract.ts:349-361 | event versions are distinct exactly as long as no command has been accepted |
| ContractStatuses.TransitionsUseUpRemaining | src/domain/value-objects/ContractStatus.ts:46-71 | every transition of the table lowers the number of commands still possible |
| ContractStatuses.ReachedExactly | src/domain/value-objects/ContractStatus.ts:46-71 | from which statuses each one can be reached, and that the terminal ones are those without a way out |
| CreateContractUseCases.CreateContractUseCase.ExecuteUseCase | src/application/use-cases/CreateContractUseCase.ts:79-168 | a refusal or a save that throws leaves both stores as they were; a publisher that throws leaves exactly the saved row; a success saves a contract with defined fees and publishes exactly its creation |
| CreateContractUseCases.AllOrNothingExactly | src/application/use-cases/CreateContractUseCase.ts:151-168 | row and publication go together exactly when the publisher does not throw after a successful save |
| CreateContractUseCases.EffectsExactly | src/application/use-cases/CreateContractUseCase.ts:151-168 | which of row and announcement the effects leave behind, and that other rows and earlier announcements stay |

## Left out

- Frontend, deployment, wiring, configuration, HTTP clients (bank services, ledger, payment provider): network and plumbing; they appear as arbitrary answers.
- The ledger contract itself is not part of this model: only that funding takes effect from CREATED and that the status never returns to CREATED. The payout it holds for a contract is fixed during a run.
- completeSettlementOnChain awaits a confirmation (src/escrow/services/settlement-orchestrator.service.ts:688) that the ledger service's result type does not define; it is modelled as the call site uses it.
- The Postgres repository adapter: only save, find, lock, commit and rollback. The status check of migration 003 lists nine statuses only; the model lets every status be saved.
- The reference of a settlement is an arbitrary function of contract and payout; that a truncated hash may collide is covered, the hash itself is not.
- The reference text of a dispute freeze is one constant; timestamps, event details and audit texts are left out, and with them the sharing of the results array between log and entity.
- Operator-only calls (unfreezing after resolution, cancelling, a second lock) are in the entity results, not in the runs of the system.
- Reconciliation jobs, governance and arbitration, reports: bookkeeping over fields the entities do not have, or thin wrappers.
- JavaScript floating-point error in percentages: rates are integers in basis points and percentages exact.
- Generated ids (batches, accounts, sessions, lock ids) never repeat; the source shortens some of them.
- A connection that breaks while a delivery uses its session, and SQL errors other than a duplicate claim, are exceptions after which the source rolls back; that a broken connection frees its locks early is not modelled. The check for a row waits for nothing, although FOR UPDATE may.
- Stale-claim cleanup commits at once; the source may run it on a session another delivery has left in a transaction.
- PollForEvents: does not model the query for resolved disputes, whose processing only emits an event, nor polls that overlap, because the processing of one poll is one method call here; PollWindows covers the overlap of the windows.
- DisputeOutcome: does not model database errors and lock cycles between completion (settlement row, then account) and dispute (account, then settlement), which also make processing fail, because the database grants every lock here.
- ProcessPaymentWebhook: does not model an exception between the COMMIT and the return, because the protocol of WebhookSystem covers it (its Throw step).
- DisputeListener: does not model the loading of processed disputes, because the source never reads them back.
- MockBank: does not model callbacks to the orchestrator and response delays, because the steps of the two systems are connected only through arbitrary answers.
