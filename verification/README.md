# Verified model of the Flash cash-wallet cutover, card top-ups and referral rewards

A Dafny model of the parts of the Flash backend that move money in several steps and must survive
crashes, retries and concurrent callers, with proofs of what they guarantee.

**The cash-wallet cutover** moves every account's balance from a legacy USD wallet to a USDT wallet. One
record per account walks a machine of 19 statuses. `Migrations` is the record with every guarded update any
actor issues, in any interleaving. `Sagas`, `Forward` and `Rollback` are the step functions as methods on the
record, the wallets and a log of payments; every service call takes a reply chosen by the environment, and a
*lost* reply means that the call took effect and the caller never learnt it. `RollbackRuns` puts them together:
a run mixes forward steps, rollback passes, locks, failure marks, retries, rollback requests and outside movements
of the wallets in any order. `Ledger` books every payment against the wallets; `ForwardRuns`, `ForwardLimits`,
`Completion`, `RollbackLimits`, `Returns`, `Conservation` and `Wholeness` prove statements about all runs. `StaleRetries` and `StaleWorkers` go below single steps: retries and workers that act on
whatever they once read, payment and write apart. `Routing` is the guard that sends an account to one wallet or the
other, `RoutingRuns` relates it to the money, `Batches` the loops over many records, `Decimals`, `Amounts` and
`Division` the exact decimal arithmetic underneath.

**Card top-ups.** `Topup`, `TopupDesk` and `TopupRaces` model authorisation before the charge: reserve, read
again, back out; sequentially as methods, and as a state machine over any number of interleaved calls.

**Smaller parts.** `Referrals` and `ReferralRaces` (the reward claim with its two payment legs), `Connections`
(cursor pagination), `BalanceQueue` and `StageProgress` (the operator dashboard's single worker and its
milestones).

Every lemma turns automatic induction off, so each inductive proof is written out.

Units: *pico* is 10^-12 dollars (one digit of the twelve-place balances), `source` amounts are in 10^-8 dollars
(precise cents), everything else in the saga is USDT micros. Top-up amounts are cents.

## What turned out not to hold

Each of these is kept as the code has it, with a witness and the exact condition:

- Completion does not imply that the default wallet was switched: the planner stores a previous default on the
  record, and a retry takes that for a finished switch (`Migrations.CompletionFlipsIff`). The comment at
  src/app/cash-wallet-cutover/rollback-worker.ts:158-160, that only the switch writes the field, disagrees with
  src/app/cash-wallet-cutover/planner.ts:35; the model follows the code. Without such a retry no balance is left behind
  at the switch (`Completion.SwitchedIsDelivered`).
- Payment ids are write-once under retries that act on an old reading exactly for records inserted with a previous
  default wallet (`StaleRetries.PaymentsSurviveStaleRetriesIff`). The planner inserts every record with one
  (src/app/cash-wallet-cutover/planner.ts:35), so the loss shown by `StaleRetries.StaleRetryLosesPayment` needs a
  record that was inserted some other way.
- `rolled_back` is not final: the failure mark is guarded by the lock alone, so it can land on a finished record.
  Route and number of passes are then open again (`Routing.RouteIsFinalIff`, `RollbackLimits.PassesAreBounded`).
- While the cutover is in progress the guard sends a paid account to the emptied legacy wallet at
  `legacy_zero_verified`, and every completion passes through that status (`Routing.EveryCompletionPassesTheGap`).
- A record can be `failed` after paying, at that same status, against the retry's premise
  (`Batches.FailedMeansUnpaidIff`).
- A rolled-back user has the balance back up to a cent exactly if the forward payment is on record, none was made, or
  the balance was no more than a cent (`Wholeness.RolledBackIsWholeIff`); a lost write after the payment leaves the user
  short of the whole target (`RollbackLimits.LostForwardWriteStrands`).
- A lock that went stale lets several workers act on the same record. They pay a balance twice exactly if the legacy
  wallet is credited meanwhile and could then have held two units (`StaleWorkers.PaysOnceIff`).
- A payment whose record is lost is made again on resumption: the fee exactly if the treasury holds it twice
  (`ForwardLimits.LostFeeRepeatsIff`), the balance move exactly if the legacy wallet does
  (`ForwardLimits.LostMoveRepeatsIff`), the reverse payment exactly if the USDT wallet held nearly twice the target
  (`RollbackLimits.LostReverseRepeatsIff`).
- The daily top-up limit is over-issued by a failed second read, or by a payment that settles between a call's
  two reads (`TopupRaces.FailedRereadOverIssues`, `TopupRaces.SettlementInWindowOverIssues`).
- One reward per invitee holds only for calls that do not overlap (`ReferralRaces.OverlapRewardsTwice`).
- A fee discount can push the net above gross less processor fee exactly if the configured Flash fee is negative
  (`Topup.DiscountIsBounded`).
- Normalising a digit string without a point can change its value (`Decimals.NormalizeKeepsValueIff`).
- Pages differ from the pagination algorithm of the GraphQL Cursor Connections Specification for crossed cursors
  (`Connections.MatchesReferenceIff`), and following the cursors returns the array exactly if the last node of every
  page but the last is the first with its id (`Connections.PagingReturnsArrayIff`).

## Model

| member | source | states |
|---|---|---|
| Migrations.ConsistentStep | src/services/mongoose/cash-wallet-cutover.ts:206-311 | every guarded update any actor issues keeps the inductive invariant tying each status to the payments, amounts and invoices the record must carry |
| Migrations.PaymentsAreWriteOnce | src/app/cash-wallet-cutover/retry-failed.ts:87-126 | in every interleaving of workers, failure marks, rollbacks and retries that decide on the state they update, a recorded balance-move or fee transaction, and the amounts it was made against, is never cleared or overwritten |
| StaleRetries.PaymentsSurviveStaleRetriesIff | src/app/cash-wallet-cutover/retry-failed.ts:67-126 | for every new record, in every history whose retries decided on any earlier failed and unpaid state, recorded transactions and amounts stay between any two states, if and only if the record was inserted with a previous default, as planned ones are |
| StaleRetries.StaleRetryLosesPayment | src/app/cash-wallet-cutover/retry-failed.ts:96-126 | from any new record without a previous default, which the planner never inserts, a retry can read it failed and unpaid while another lets it pay and fail; the first one's update then lands and any other transaction takes the place of the recorded one |
| Migrations.FieldsArePresentInEveryRun | src/app/cash-wallet-cutover/worker.ts:229-269 | in every reachable record the step of its status finds all fields it insists on |
| Migrations.RollbackableIsTabled | src/app/cash-wallet-cutover/state-machine.ts:9-99 | the list of rollbackable statuses and the transition table agree |
| Migrations.LegalIsTabled | src/app/cash-wallet-cutover/state-machine.ts:28-109 | every transition any actor issues is an edge of the table |
| Migrations.TableIsIssued | src/app/cash-wallet-cutover/state-machine.ts:28-109 | and every edge of the table is one that some actor issues, or leads to a failure of a record under way |
| ForwardRuns.FailureEdges | src/app/cash-wallet-cutover/state-machine.ts:28-99 | the failure edges are exactly those of the steps under way, and those to review exactly from the balance invoice to the fee payment |
| Migrations.HolderKeepsLock | src/services/mongoose/cash-wallet-cutover.ts:233-311 | in every interleaving a worker keeps the lock it got until it releases the record, marks it failed, or the lock goes stale |
| Migrations.CompletionFlipsIff | src/app/cash-wallet-cutover/retry-failed.ts:96-103 | every run to `complete` switched the default wallet, if and only if the record was inserted without a previous default |
| Sagas.Saga.Write | src/services/mongoose/cash-wallet-cutover.ts:206-232 | a transition changes the record only if its status matches; a lost reply changes it and reports failure |
| Sagas.Saga.FlipDefaultWallet | src/app/cash-wallet-cutover/runtime-services.ts:459-479 | the account's default wallet is replaced and the one it had is returned |
| Forward.RecordBalance | src/app/cash-wallet-cutover/handlers.ts:84-99 | records the balance cut to eight places, the rounded target and the starting balance, from `provisioned` only |
| Forward.CreateMoveInvoice | src/app/cash-wallet-cutover/worker.ts:351-386 | when an invoice is recorded, and that nothing else changes |
| Forward.SendBalanceMove | src/app/cash-wallet-cutover/worker.ts:211-288 | moves exactly the recorded source and then records the transaction, a stale invoice being replaced first; what an interruption leaves behind; fails only for a missing field, a refused service or missing funds |
| Forward.VerifyLegacyZero | src/app/cash-wallet-cutover/runtime-services.ts:480-493 | passes only if less than a micro is left |
| Forward.VerifyMove | src/app/cash-wallet-cutover/worker.ts:315-349 | the same check behind a recorded transaction |
| Forward.CreateFeeInvoice | src/app/cash-wallet-cutover/worker.ts:388-437 | the invoice fixes the amount from 10,000 micros on and leaves it to the sender below |
| Forward.SettleFee | src/app/cash-wallet-cutover/handlers.ts:131-150 | the fee is what the destination misses of the target; below 2,500 micros it is absorbed, otherwise invoiced |
| Forward.SendFee | src/app/cash-wallet-cutover/worker.ts:466-553 | pays the recorded fee from the treasury, a stale invoice being replaced first, then records the transaction |
| Forward.FlipPointer | src/app/cash-wallet-cutover/worker.ts:580-608 | switches the default wallet and records the previous one; the three states an interruption can leave |
| Forward.MarkNext | src/app/cash-wallet-cutover/worker.ts:131-151 | the steps that only advance the status |
| Forward.AfterBalanceRead | src/app/cash-wallet-cutover/handlers.ts:100-114 | a zero target goes straight to the switch |
| Forward.Provision | src/app/cash-wallet-cutover/worker.ts:153-178 | advances only behind a provisioned wallet |
| Forward.Execute | src/app/cash-wallet-cutover/executor.ts:20-39 | terminal records are left alone; any other takes exactly the step of its status, succeeds whenever it can, and reports a missing field only if one is missing |
| ForwardRuns.StepIsIssued | src/app/cash-wallet-cutover/handlers.ts:65-183 | every step, interrupted or not, writes the record only by issued updates |
| ForwardRuns.RankStep | src/app/cash-wallet-cutover/handlers.ts:72-183 | every successful step strictly raises the rank of the status, and only completion is terminal |
| ForwardLimits.ForwardTerminates | src/app/cash-wallet-cutover/handlers.ts:72-183 | in every run at most 13 steps succeed, plus 13 for each retry that resets the record and 2 for each that resumes it behind the switch |
| Completion.CompletesIff | src/app/cash-wallet-cutover/executor.ts:20-39 | with every service working and nobody else moving the wallets, thirteen steps complete a new migration exactly if there is nothing to move, or the treasury can pay the fee that what arrived leaves due; the balance is then in the log exactly if its rounded value is not zero |
| Completion.SwitchedIsDelivered | src/app/cash-wallet-cutover/handlers.ts:100-114 | in every run in which no retry resumes the record behind the switch, a record that got there or completed has its balance moved on record, or had none to move |
| Ledger.BooksBalance | src/app/cash-wallet-cutover/worker.ts:271-287 | in every run, replies and writes lost anywhere, each of the three wallets holds what it held plus what arrived minus what the logged payments drew from it |
| Conservation.ForwardConserves | src/app/cash-wallet-cutover/handlers.ts:72-183 | a migration that completes in any run without lost replies in its forward steps, failed and retried as often as may be, leaves only dust in the legacy wallet; if it moved the balance, the destination gained exactly the once-rounded balance if the fee was reimbursed, at most 2,499 micros less, which the record says, if it was absorbed, the treasury paid the recorded fee or nothing and the default wallet was switched; if not, nothing moved |
| ForwardLimits.BalanceMovesAtMostOnce | src/app/cash-wallet-cutover/worker.ts:271-287 | in every run, replies and writes lost anywhere, the balance leaves the legacy wallet at most once if nobody else pays into it |
| StaleWorkers.PaysOnceIff | src/services/mongoose/cash-wallet-cutover.ts:233-257 | for any number of workers whose locks went stale, each paying what it once loaded and writing when it gets there, with stale retries and balances read at any earlier time: in every interleaving with at most a given credit the balance is paid at most once, if and only if there is no credit or start plus credit stays under two units |
| ForwardLimits.LostMoveRepeatsIff | src/app/cash-wallet-cutover/worker.ts:271-287 | a balance move whose record was lost is paid again on resumption exactly if the wallet holds the source again |
| ForwardLimits.FeesPaidAreRecordedOrLost | src/app/cash-wallet-cutover/worker.ts:529-552 | in every run the fees paid are the recorded one and one for each record that was lost |
| ForwardLimits.LostFeeRepeatsIff | src/app/cash-wallet-cutover/worker.ts:529-552 | a fee whose record was lost is paid again on resumption exactly if the treasury held it twice |
| ForwardLimits.VerifiedStaysDrained | src/app/cash-wallet-cutover/runtime-services.ts:480-493 | in every run a verified or completed migration has only dust in the legacy wallet, if nobody else pays into it |
| Rollback.Keep | src/app/cash-wallet-cutover/rollback-worker.ts:108-123 | progress is recorded only on a record still in `rollback_started` |
| Rollback.RestorePointer | src/app/cash-wallet-cutover/rollback-worker.ts:158-187 | the default wallet goes back only if a previous one is recorded and the account still defaults to USDT; done once |
| Rollback.PayReverse | src/app/cash-wallet-cutover/rollback-worker.ts:230-277 | invoice, payment and record of the reverse payment, a stale invoice being replaced first, with every partial effect |
| Rollback.ReverseMove | src/app/cash-wallet-cutover/rollback-worker.ts:189-278 | fails closed with nothing changed unless the spendable balance covers the target up to a cent and is payable |
| Rollback.PayTopUp | src/app/cash-wallet-cutover/rollback-worker.ts:307-368 | tops up the shortfall, never with a top-up on record; a new invoice is kept with its amount |
| Rollback.TopUpOrFinish | src/app/cash-wallet-cutover/rollback-worker.ts:280-379 | finishes only if nothing had been sent or the wallet reads whole up to a cent |
| Rollback.ExecuteRollback | src/app/cash-wallet-cutover/rollback-worker.ts:141-379 | one pass resumes where the record stands; its effect for every combination of replies, when it must succeed, and that with all replies the reverse payment is made whenever due and allowed |
| Returns.RolledBackIsTakenBack | src/app/cash-wallet-cutover/rollback-worker.ts:189-278 | in every run, passes interrupted and repeated, a rolled-back migration with a recorded forward payment of a positive target has its reverse payment on record, and the destination wallet is lower than what arrived in it by what was taken back, at least the target less a cent |
| Returns.TakenBackOnce | src/app/cash-wallet-cutover/rollback-worker.ts:230-277 | where each reverse payment is recorded by the pass that makes it, no more than the target is taken back |
| Returns.TwoPassesEndIff | src/app/cash-wallet-cutover/rollback-worker.ts:124-140 | with every service working two passes end a rollback exactly if the reverse payment, if due, is allowed, and what it leaves short is within a cent, or a first top-up can be paid and enough of it arrives |
| RollbackRuns.PassLeavesOwnDefault | src/app/cash-wallet-cutover/rollback-worker.ts:158-187 | a pass changes the default wallet only from the USDT wallet to the recorded previous one |
| RollbackRuns.PassIsIssued | src/app/cash-wallet-cutover/rollback-worker.ts:141-379 | a pass, interrupted anywhere, writes the record only by issued updates |
| RollbackRuns.EveryRunIsSafe | src/app/cash-wallet-cutover/rollback-worker.ts:189-379 | in every run, with outside movements: a reverse payment is the lesser of target and spendable balance, at least the target less 10,000 micros and 2,500 micros; a paid fee is at least 2,500 micros and carried by the invoice from 10,000 on, by the sender below; nothing is returned without a recorded forward payment; a rolled-back record with one was last read within 10,000 micros of its source; required fields are present |
| RollbackRuns.FeesAreExact | src/app/cash-wallet-cutover/worker.ts:486-552 | across refreshes and resumptions every fee payment moved exactly the fee on the record |
| RollbackRuns.PaymentOfStep | src/app/cash-wallet-cutover/worker.ts:82-114 | a paid fee is at least 2,500 micros and is carried by exactly one of the invoice and the sender's amount |
| Conservation.RollbackUndoesCompletion | src/app/cash-wallet-cutover/rollback-worker.ts:124-140 | a completed migration rolled back by any run, passes interrupted and repeated, has its legacy balance from before back up to a cent, and its default wallet, unless a rollback tried before the payment had already recorded it as restored |
| RollbackLimits.TreasuryTopsUpAtMostOnce | src/app/cash-wallet-cutover/rollback-worker.ts:280-368 | in every run, replies and writes lost anywhere, the treasury tops up at most once if top-ups lose less than a cent and nobody else empties the legacy wallet |
| RollbackLimits.LostReverseRepeatsIff | src/app/cash-wallet-cutover/rollback-worker.ts:208-277 | after a reverse payment whose record was lost the next pass reverses again exactly if the wallet held the target plus the larger of target less a cent and 2,500 micros; never if it held no more than the target |
| RollbackLimits.ReversesAtMostOnce | src/app/cash-wallet-cutover/rollback-worker.ts:189-278 | in every run, replies and writes lost anywhere and the rollback failed and requested again, the balance is sent back at most once if the USDT wallet holds no more than the target at each pass and nobody else pays into it |
| RollbackLimits.ClosedForever | src/app/cash-wallet-cutover/rollback-worker.ts:216-229 | once the reverse payment is due and not allowed, no pass of any later run succeeds and nothing is paid, until somebody credits the USDT wallet |
| RollbackLimits.PassesAreBounded | src/app/cash-wallet-cutover/rollback-worker.ts:307-379 | at most two passes of a migration succeed, plus one for each failure mark that lands on a rolled-back record |
| RollbackLimits.ReopenedRollsBackAgain | src/services/mongoose/cash-wallet-cutover.ts:282-311 | such a mark is possible, and lets a finished rollback succeed once more, each time |
| RollbackLimits.UnrecordedPaymentIsNotReturned | src/app/cash-wallet-cutover/rollback-worker.ts:189-192 | without a recorded forward payment a pass moves no money |
| Wholeness.RolledBackIsWholeIff | src/app/cash-wallet-cutover/rollback-worker.ts:189-379 | in every run in which nobody else touches the legacy wallet, a rolled-back migration has its legacy balance from the start back up to a cent exactly if its forward payment is on record, none was made, or that balance was no more than a cent |
| RollbackLimits.LostForwardWriteStrands | src/app/cash-wallet-cutover/worker.ts:271-287 | so a forward payment whose record is lost leaves the legacy wallet short of the whole target after the rollback |
| Routing.RoutingAgreesWithRecord | src/app/cash-wallet-cutover/guard.ts:70-84 | in every reachable state of a cutover in progress USDT is given exactly to complete and skipped records, and a paid, not rolled-back record gets the legacy wallet exactly at `legacy_zero_verified` |
| Routing.RouteByState | src/app/cash-wallet-cutover/guard.ts:31-84 | in every state of the cutover, exactly who is given which wallet, who has to wait and who is told of a failure; before it everybody stays on the legacy wallet, and a rolled-back account is on it in every state |
| Routing.EveryCompletionPassesTheGap | src/app/cash-wallet-cutover/guard.ts:16-29 | every run that completes passes through that status with the payment it completes with |
| Routing.CutoverRun.CompleteRollback | src/app/cash-wallet-cutover/rollback.ts:168-235 | when run-level completion succeeds; unless the configuration was rolled back already, every record is then rolled back or skipped and the guard errs for no account |
| Routing.RouteIsFinalIff | src/app/cash-wallet-cutover/guard.ts:51-68 | after completion a record keeps its route through any run exactly if no failure mark lands on it |
| Routing.MarkedAfterCompletion | src/services/mongoose/cash-wallet-cutover.ts:282-311 | a worker that locks a rolled-back record late can mark it, and the guard then errs |
| RoutingRuns.PresentationFindsMoney | src/app/cash-wallet-cutover/guard.ts:87-106 | in every run of a cutover in progress in which nobody else pays into the legacy wallet, a client is shown USDT, natively or as dollars, only if the legacy wallet holds nothing but dust, and the legacy balance only if the money is there, except at `legacy_zero_verified` |
| RoutingRuns.LegacyRouteFindsMoney | src/app/cash-wallet-cutover/guard.ts:40-84 | in every run and every state of the cutover an account is routed to the legacy wallet only with no forward payment on record, or rolled back and read whole, except at `legacy_zero_verified` |
| RoutingRuns.PaidAccountsAreHeld | src/app/cash-wallet-cutover/guard.ts:70-84 | in every run an account with a recorded forward payment is given a wallet exactly when its migration is complete, rolled back, or at `legacy_zero_verified` |
| Batches.FailedMeansUnpaidIff | src/app/cash-wallet-cutover/runner.ts:46-60 | a runner's failure lands in `failed` with a payment on record exactly for paid records at `legacy_zero_verified` |
| Batches.RetryableIff | src/app/cash-wallet-cutover/runner.ts:46-60 | a failure is marked retryable exactly at statuses from which no step can have paid or left a payment on record, and at `legacy_zero_verified` |
| Batches.PayingFailsForReview | src/app/cash-wallet-cutover/runner.ts:46-60 | a step that paid, recorded or not, is marked for review if it fails |
| Batches.TakeTurn | src/app/cash-wallet-cutover/runner.ts:97-134 | one locked turn of the forward or the rollback executor: record and wallets after it, the mark and that the lock is gone, the counters, and when the batch must stop; it is a piece of a run; a forward turn that leaves the record retryable paid nothing |
| Batches.RunBatch | src/app/cash-wallet-cutover/runner.ts:62-142 | a batch, forwards or with the rollback executor and its own failure status, extends the run of every migration it lists, so everything proved of runs holds of it; each turn is counted once |
| Batches.TurnIsARun | src/app/cash-wallet-cutover/rollback.ts:116-161 | lock, step or pass, and mark or release are moves of a run; rollback failures all go to review |
| Batches.Store.RetryOne | src/app/cash-wallet-cutover/retry-failed.ts:87-138 | counting first and taking it back after a lost race gives the same report as counting only what was confirmed |
| Batches.Store.RetryFailed | src/app/cash-wallet-cutover/retry-failed.ts:33-142 | each candidate gets its own guarded update, nothing else changes, dry runs change nothing |
| Batches.ReportAddsUp | src/app/cash-wallet-cutover/retry-failed.ts:77-142 | eligible, money-moved and conflicts partition the candidates, and the listed ids are exactly the confirmed ones |
| Batches.ResumptionsAddUp | src/app/cash-wallet-cutover/retry-failed.ts:96-126 | the two counters are the confirmed candidates that resume behind the switch and at the start |
| Batches.ConfirmedIsReset | src/app/cash-wallet-cutover/retry-failed.ts:104-138 | a failed candidate whose reply is seen is reported exactly if its record is no longer failed |
| Batches.FaithfulRetryIsIssued | src/app/cash-wallet-cutover/retry-failed.ts:88-126 | a retry on the record it read is an issued update and never touches a paid or not failed record; a reset record has nothing of the earlier attempt left |
| Batches.Store.RequestOne | src/app/cash-wallet-cutover/rollback-worker.ts:77-106 | the guarded request, and exactly when it succeeds |
| Batches.Store.RequestRollback | src/app/cash-wallet-cutover/rollback.ts:33-108 | the candidates before the first failed request got their update, the others did not; all of it by issued updates |
| Batches.RequestsAddUp | src/app/cash-wallet-cutover/rollback.ts:78-107 | every candidate is eligible and listed, or counted as skipped under one of the three statuses that are not rollbackable |
| Batches.SkipsByStatus | src/app/cash-wallet-cutover/rollback.ts:86-90 | the skip count of a status is the number of candidates that have it |
| Batches.RequestIsIdempotent | src/app/cash-wallet-cutover/rollback.ts:27-32 | repeating a request, whatever its reply was, changes nothing more, and the original status stays on record |
| Decimals.ScaledIsExact | src/app/cash-wallet-cutover/amount-conversion.ts:16-39 | for digit strings of any length scaling is the exact floor, or the exact half-up rounding |
| Decimals.PrintThenParse | src/app/cash-wallet-cutover/runtime-services.ts:71-84 | printing a scaled integer and scaling it again is the identity |
| Decimals.NormalizeKeepsValueIff | src/app/cash-wallet-cutover/runtime-services.ts:41-42 | normalising keeps the value exactly if there is a point, the last digit is not zero, or the value is zero |
| Decimals.NormalizeReadsHundredAsOne | src/app/cash-wallet-cutover/runtime-services.ts:41-42 | "100" becomes "1" |
| Decimals.RuntimeScalingIsExact | src/app/cash-wallet-cutover/runtime-services.ts:44-69 | the runtime scaler is exact on strings with a point |
| Decimals.CentsToMicros | src/app/cash-wallet-cutover/amount-conversion.ts:41-66 | precise cents become the half-up rounded micros |
| Decimals.ChainRoundsOnce | src/app/cash-wallet-cutover/runtime-services.ts:86-105 | dollars to precise cents to micros equals one half-up rounding of the dollars |
| Decimals.ChainError | src/app/cash-wallet-cutover/runtime-services.ts:86-105 | so the micros miss the true value by more than -1/2 and at most 1/2 |
| Amounts.BalanceReadsAreExact | src/app/cash-wallet-cutover/runtime-services.ts:236-275 | the three readers of a balance: cut to eight places, rounded, floored |
| Amounts.DustIsUnderAMicro | src/app/cash-wallet-cutover/runtime-services.ts:107-108 | the dust test is the exact comparison of the normalised balance with a micro, and means that nothing is spendable |
| Amounts.TargetIsRoundedBalance | src/app/cash-wallet-cutover/worker.ts:180-209 | the recorded target is the balance rounded to micros once |
| Amounts.LegacyShortfallIsExact | src/app/cash-wallet-cutover/amount-conversion.ts:106-122 | the shortfall computed on the stored strings fills the wallet up to the source and not past it |
| Amounts.DestinationShortfallIsExact | src/app/cash-wallet-cutover/amount-conversion.ts:124-143 | malformed digits are refused; otherwise the shortfall tops the receipt up to the target and not past it |
| Amounts.CentsCeilIsLeast | src/app/cash-wallet-cutover/amount-conversion.ts:92-104 | malformed digits are refused; otherwise the least number of cents that covers the micros, in digits |
| Topup.DiscountIsBounded | src/services/fygaro/webhook-server/fees.ts:40-60 | the discount moves the Flash fee towards zero, never past it, and leaves the processor's alone; the net stays within gross less processor fee exactly if the full Flash fee is not negative |
| Topup.FeesAreNearest | src/services/fygaro/webhook-server/fees.ts:27-60 | each fee is its percentage of the gross to the nearest cent plus its fixed part, the Flash fee discounted as a whole, and the net is what they leave |
| Topup.CreditsIff | src/services/fygaro/webhook-server/fees.ts:89-114 | the gate credits exactly if every condition holds, bounds inclusive |
| Topup.ProbeDecides | src/services/fygaro/webhook-server/fees.ts:115-167 | a probe without history decides every stop that needs none; credit implies that prior spend plus gross is within the limit |
| Topup.InsertThenWithout | src/services/fygaro/checkout-intent-store.ts:378-401 | releasing what was just reserved restores the index |
| Topup.InsertKeepsOrder | src/services/fygaro/checkout-intent-store.ts:378-401 | the index stays ordered by expiry |
| TopupDesk.Soonest | src/app/fygaro/authorize-topup.ts:285-295 | the hold that lifts first |
| TopupDesk.RemainingIsRoom | src/app/fygaro/topup-allowance.ts:153-175 | a positive amount fits under the limit beside spend and holds exactly if it is at most the figure; spend, holds and figure make up the limit, or the figure is zero |
| TopupDesk.DailyGateIsRemaining | src/app/fygaro/authorize-topup.ts:317-377 | an amount that passes the gates without history passes the daily one exactly if it is at most the reported figure |
| TopupDesk.Desk.ReadReservations | src/services/fygaro/checkout-intent-store.ts:331-370 | drops exactly the lapsed holds and returns the rest, or fails closed |
| TopupDesk.Desk.SaveIntent | src/services/fygaro/checkout-intent-store.ts:190-306 | the hold is written before the record, so a record never stands without its hold |
| TopupDesk.Desk.RefuseOpenCheckout | src/app/fygaro/authorize-topup.ts:217-295 | hands back only the account's own unpaid, unexpired link for the same amount, and does if the first hold of that amount has one; otherwise names the first hold to lift |
| TopupDesk.Desk.Reserve | src/app/fygaro/authorize-topup.ts:383-482 | reserve, read again, back out: the answer and the whole index for every combination of replies; a request backed out holds nothing |
| TopupDesk.ReservedIsHeld | src/app/fygaro/authorize-topup.ts:383-482 | a reservation that is not backed out is held for its whole life, whoever raced it |
| TopupDesk.BackedOutHoldsNothing | src/app/fygaro/authorize-topup.ts:443-475 | backing out withdraws the own hold and nobody else's |
| TopupDesk.Desk.Authorize | src/app/fygaro/authorize-topup.ts:115-482 | a link is minted exactly when the gate passes on settled spend plus holds and the second read fits or fails; the index then; what remains is the queried figure less the amount; the reason of every refusal |
| TopupDesk.ReasonTellsTruth | src/app/fygaro/authorize-topup.ts:356-377 | every refusal names something that holds: the switch, the settings, the single limit, the level without a limit, the history, the reservations, the net, the minimum; an open checkout only if spend alone leaves room and the holds take it; an exceeded allowance only if spend alone leaves none, or another request came in between |
| TopupDesk.Desk.Allowance | src/app/fygaro/topup-allowance.ts:101-188 | when the query answers, and that spend, holds and the reported figure make up the limit, or nothing is left |
| TopupDesk.QueryAgreesWithAuthorization | src/app/fygaro/topup-allowance.ts:153-175 | without a race the second read never backs out, and the figure drops by exactly the amount |
| TopupDesk.AskAuthorizeAsk | src/app/fygaro/topup-allowance.ts:101-188 | a client that asks, authorises and asks again: a link is minted only within the first figure, which is what authorisation started from, and the second figure is what it returned |
| TopupDesk.QueryLaterReportsMore | src/app/fygaro/topup-allowance.ts:153-175 | with time alone the reported allowance never shrinks |
| TopupRaces.NeverOverIssued | src/app/fygaro/authorize-topup.ts:317-476 | for any number of interleaved calls settled spend plus all payable new links stays within the limit, if second reads succeed and no payment settles between a call's reads |
| TopupRaces.FailedRereadOverIssues | src/app/fygaro/authorize-topup.ts:443-475 | with one failed second read twice the limit is issued, for every limit |
| TopupRaces.SettlementInWindowOverIssues | src/app/fygaro/authorize-topup.ts:318-348 | with one payment settling between the reads the limit is spent and issued again, for every limit |
| Referrals.FinalStatusMeans | src/app/invite/award-referral-reward.ts:186-194 | paid exactly if both legs are, failed exactly if both failed, partial exactly if one did, pending only with a leg pending |
| Referrals.CatchStatusMeans | src/app/invite/award-referral-reward.ts:240-262 | after a throw the reward is failed exactly if no leg returned paid or pending, and partial otherwise |
| Referrals.InviteBook.MarkReward | src/app/invite/award-referral-reward.ts:24-29 | one mark, and whether the caller saw it land |
| Referrals.InviteBook.PayParty | src/app/invite/award-referral-reward.ts:152-180 | sends only to a party with a wallet |
| Referrals.InviteBook.Attempt | src/app/invite/award-referral-reward.ts:88-212 | which legs are sent, what is known of them, and that a landed mark shows it |
| Referrals.InviteBook.Award | src/app/invite/award-referral-reward.ts:45-267 | when a call claims, and that nothing of the invitee was processed before; each leg at most once; the exact status of a call that does not throw, and of the catch; if the last mark lands, exactly the legs that returned paid or pending are stamped; non-overlapping calls reward an invitee once |
| ReferralRaces.LegsOnceWithEvidence | src/app/invite/award-referral-reward.ts:72-78 | in every interleaving no leg is sent twice, and any landed mark stamps exactly the legs that returned paid or pending, with a status that tells of them: failed exactly if both are, unless there was nothing to pay |
| ReferralRaces.OncePerInviteeIfAlone | src/app/invite/award-referral-reward.ts:54-70 | one reward per invitee for calls that do not overlap between check and claim |
| ReferralRaces.OverlapRewardsTwice | src/app/invite/award-referral-reward.ts:58-78 | two overlapping calls can claim two invites of one invitee |
| Connections.IndexOf | src/graphql/connections.ts:34-39 | the first node with the id, or none |
| Connections.Offsets | src/graphql/connections.ts:28-50 | for any total the updated offsets are the cut of the interval the cursors leave of the array cut to the total |
| Connections.Paginate | src/graphql/connections.ts:21-71 | for any total the nodes and cursors are those of the array cut to the total; a next page is promised exactly if the page is limited and ends before the `before` cursor's place in the uncut array, or before the total, and a previous one exactly if it is limited and starts behind the node after `after` |
| Connections.MatchesReferenceIff | src/graphql/connections.ts:31-53 | the page is that of the specification's pagination algorithm (section 4.4) exactly if the cursors do not cross or nothing follows `after` |
| Connections.ForwardPaging | src/graphql/connections.ts:44-70 | following `endCursor` while there is a next page ends within one page per node and returns the array, each node once, in order |
| Connections.BackwardPaging | src/graphql/connections.ts:48-70 | likewise backwards |
| Connections.PagingReturnsArrayIff | src/graphql/connections.ts:34-70 | for every array and page size the walk along `endCursor` ends and returns the array exactly if the last node of every page but the last is the first with its id |
| Connections.RepeatedIdsLoop | src/graphql/connections.ts:34-37 | if the second node repeats the id of the first, pages of one node go round on the second for ever |
| Connections.RequestArgs.Check | src/graphql/connections.ts:143-184 | what passes, the default it sets in place, and that only explicit nulls leave a request unbounded |
| BalanceQueue.Dashboard.Advance | src/scripts/cash-wallet-cutover-dashboard.ts:935-962 | up to its next await a running loop takes the first request or leaves, keeping the queue invariant |
| BalanceQueue.Dashboard.RunBalanceWorker | src/scripts/cash-wallet-cutover-dashboard.ts:931-970 | a loop is started exactly without a handle, and then none is running: never two |
| BalanceQueue.Dashboard.Resume | src/scripts/cash-wallet-cutover-dashboard.ts:950-962 | stores the balance, serves requests in order, and leaves less to do |
| BalanceQueue.Dashboard.Throw | src/scripts/cash-wallet-cutover-dashboard.ts:950-963 | a failed read keeps the invariant, leaves less to do and the promise to be rejected |
| BalanceQueue.Dashboard.Finally | src/scripts/cash-wallet-cutover-dashboard.ts:963-967 | a queue that grew meanwhile gets a loop, so a non-empty queue always has one; a loop that threw rejects its promise |
| BalanceQueue.Dashboard.EnqueueBalance | src/scripts/cash-wallet-cutover-dashboard.ts:972-988 | the id set is the queue's, without duplicates and without the active id; what is enqueued and when |
| StageProgress.StagesPartition | src/app/cash-wallet-cutover/operator-dashboard.ts:983-1007 | the stage table lists every status exactly once |
| StageProgress.StagesFollowSteps | src/app/cash-wallet-cutover/operator-dashboard.ts:983-1007 | the stages in flight are the consecutive stretches of the steps, done is who the guard sends to USDT, attention who it turns away as failed |
| StageProgress.StagesAddUp | src/app/cash-wallet-cutover/operator-dashboard.ts:1052-1060 | stage counts sum to the total |
| StageProgress.DoneWithinEligible | src/app/cash-wallet-cutover/operator-dashboard.ts:1058-1062 | done never exceeds the eligible total |
| StageProgress.EligibleIsPlanned | src/app/cash-wallet-cutover/operator-dashboard.ts:1058-1062 | before the cutover all accounts count, afterwards those with a record |
| StageProgress.PercentIsFloor | src/app/cash-wallet-cutover/operator-dashboard.ts:1071 | the percentage is the floor, and 100 exactly if all eligible are done |
| StageProgress.Summarize | src/app/cash-wallet-cutover/operator-dashboard.ts:1029-1076 | the counting loop computes the stage counts and figures derived from them |
| StageProgress.StateMilestones | src/app/cash-wallet-cutover/operator-dashboard.ts:1103-1125 | exactly when each state, provisioning, batch and first-account milestone appears |
| StageProgress.TroubleMilestones | src/app/cash-wallet-cutover/operator-dashboard.ts:1151-1171 | exactly when each attention and rollback milestone appears |
| StageProgress.DeriveMilestones | src/app/cash-wallet-cutover/operator-dashboard.ts:1088-1174 | each threshold appears once for an upward crossing and otherwise not; full completion when it is new |
| StageProgress.AnnouncedExactlyOnce | src/app/cash-wallet-cutover/operator-dashboard.ts:1127-1131 | over any snapshots with nondecreasing progress each threshold above the first and within the last value is announced once, any other never |
| StageProgress.RepeatsAreDrops | src/app/cash-wallet-cutover/operator-dashboard.ts:1127-1131 | in general repeats are exactly the times progress fell back below the threshold |
| StageProgress.Observer.Observe | src/scripts/cash-wallet-cutover-dashboard.ts:885-905 | announces against the last summary and keeps the newest 300 |
| StageProgress.Observer.ObserveAll | src/scripts/cash-wallet-cutover-dashboard.ts:885-905 | over any run of snapshots each threshold is announced as often as progress crosses it upwards; with nondecreasing progress exactly once if it lies above the first reading and within the last, otherwise never |

## Left out

- IBEX, Mongo, Redis, ERPNext and Kratos clients: replies are parameters; a payment takes its amount from the
  sender and credits an arbitrary arrived amount, a record update is compare-and-set. That a payment service refuses
  an invoice it has seen paid is not assumed.
- Retrying rate-limited IBEX calls, and the memoised treasury wallet lookup: a call has one final reply.
- Invoice decoding and expiry: staleness of an invoice is a parameter. Invoice hashes, memos, timestamps, error
  texts, `attempts` and `estimatedFee` are not part of the record.
- Concurrent steps on the wallets of one migration: interleavings of several workers are covered for the record and
  for the balance payment; the statements about fees and returns take steps of one migration one at a time,
  interrupted anywhere.
- Floating point: balances are exact decimal strings of twelve places, fee percentages and the progress ratio are
  exact, operator settings are rounded to cents already.
- Single-account modes, listing limits and listing errors of retry, rollback request and batch: candidates are
  given.
- Planning new records after a run-level rollback completed, and the completion of the forward cutover.
- The guard's callers, discovery, preflight and provisioning: lookups and filters.
- Top-up payments that settle after their link expired: the state machine settles only links that can still be
  paid.
- Texts of top-up refusals (single limit, minimum) and of milestones; sign-in, notifications, servers, schema.
- Connections.Paginate: states the page for page sizes as the argument check lets them through, not for zero or
  negative ones.
