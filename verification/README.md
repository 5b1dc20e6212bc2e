# Kora protocol: verified models

Dafny models of the accounting and governance contracts of an invoice-financing protocol, and of the time-series
service beside them, with proofs of what they promise over whole runs.

Each contract appears twice. A specification over plain values says what every call does to the storage, including each
error. A class then performs the same calls step by step, with the loops the contract has, and is proved to end in
exactly the specified storage. What the protocol promises is proved about the specification: as invariants of every
reachable state, as exact conditions, and as comparisons with independent definitions.

| file | what it models |
|---|---|
| `FinancingPool.dfy` | pools, positions, penalties, installments, netting, defaults, buyouts, escrow hooks, and the invoice NFT's status machine |
| `PoolInvariants.dfy`, `PoolSteps.dfy`, `PoolSafety.dfy`, `PoolRuns.dfy` | custody, at-most-once payout and exact counters over every run |
| `PayoutShares.dfy`, `PayoutRuns.dfy` | what investors receive, from one share to whole runs |
| `PenaltyTerms.dfy`, `PoolTerms.dfy` | late penalties of `repay` and `net_settle`; face values, shares, schedules, buyouts and defaults |
| `Netting.dfy`, `PoolNetting.dfy`, `NettingRepeats.dfy` | exactness and safety of `net_settle`, for distinct and for repeated ids |
| `Installments.dfy`, `EarlySettlement.dfy`, `PoolFrames.dfy` | scheduled repayment; when a buyout settles; what other calls leave alone |
| `PoolWitnesses.dfy` | runs from the empty state that reach the cases the documentation excludes |
| `FinancingPoolContract.dfy` | the contract, step by step |
| `DisputeEscrow.dfy`, `EscrowLiveness.dfy`, `EscrowVerdicts.dfy`, `DisputeEscrowContract.dfy` | the escrow and its reservation at the pool, as two contracts |
| `PoolModel.dfy`, `Rounding.dfy` | the repository's own pool model with its invariants I1-I5, and the two roundings |
| `AccessControl.dfy`, `ExecutedActions.dfy`, `SignerChanges.dfy`, `AccessControlContract.dfy`, `AuditLog.dfy` | multisig proposals, batches, rotation, what executed actions do, signer sets, and the audit ring |
| `Delegation.dfy`, `DelegationChains.dfy`, `Voting.dfy`, `Ballots.dfy` | delegation index, chains and cycles, tallies, quadratic voting and its square root, ballots and quorum |
| `Fractionalizer.dfy`, `Redemptions.dfy` | fractional shares, and what they redeem for |
| `Downsampling.dfy`, `TimeSeries.dfy` | bucket aggregation, the store, backfill |
| `Prelude.dfy` | options and results, 128-bit bounds, sums |

`dafny verify dfyconfig.toml` checks everything.

## How to read the model

- A call that returns an error changes nothing, because the host rolls it back (contracts/dispute_escrow/src/lib.rs:133).
  The specification of a call is therefore a function to a new storage or an error, and `Invoke` restores the storage.
- Amounts are unbounded integers with the `i128` checks, saturations and truncations of the contracts written out.
- The clock, the pause flag, the caller's rank, governed parameters and whether a high-value approval was executed are
  parameters (`Env`, `approved`, `byAdmin`, `baseWeight`).
- Payouts round with `bps_of_normalized` of contracts/shared/src/validation.rs.
- `financing_pool/src/lib.rs` has three copies of the escrow hooks; the first (lines 209-455) is modelled.
- The runs of `PoolRuns` ask of the callers what the contract does not check (`Disciplined`): recorded shares of a pool
  add up to at most 10 000 basis points, netted ids are distinct, rates are at most 10 000, and no default is the one of
  `DefaultLeaksIff`. Nothing else is asked; in particular all calls, defaults and buyouts included, may interleave.

## Where the code and its documentation differ

The model follows the code; each difference has an exact condition or an example.

- model.rs documents its rounding as mirroring the contract's. For a token of any number of decimals it agrees if and only
  if the contract's share is a whole number of 10^decimals units and the model's own arithmetic stays in range
  (`ModelAgreesWithContractIff`; `ModelDisagreesWithContract`, `ModelDisagreesAboveStandard`).
- I5 is stated with a tolerance of one unit for everyone. Tranches within the debt keep it if and only if what the others'
  rounded shares leave is at most one unit above the first investor's rounded share of the debt (`NeverOverpaysIff`;
  `FirstInvestorCanExceedTolerance`).
- A buyout is documented to settle once all investors accepted. It settles if and only if the running total, recorded at
  each acceptance, reaches 10 000 (`AcceptanceSettlesIff`). While no position is recorded under the open offer this total
  is that of the recorded shares (`RunTallied`), so the last acceptance settles if and only if the rounded-down shares
  reach 10 000 (`LastAcceptanceSettlesIff`; `ThirdsFallShort`).
- Recording a position under an open offer is allowed and does not correct the running total (`RecordKeepsTallyIff`). A
  share raised after its acceptance can leave an offer open that everybody accepted (`RaisedShareStaysOpen`), a lowered
  one can settle an offer with less than 10 000 recorded (`LoweredShareSettles`).
- A schedule's final payment is documented to allow for a penalty. It closes the pool if and only if it covers it
  (`FinalPaymentClosesIff`); otherwise `repay` is never accepted again (`UnderpaidIsStuck`; `UnderpaidScheduleReached`),
  although `net_settle` still accepts the pool (`UnderpaidCanBeNetted`).
- `mark_default` can pay a treasury cut that was never repaid, exactly in the case of `DefaultLeaksIff` (`DefaultLeaks`).
- `net_settle` does not check that its ids differ. It credits the payment in full if and only if no id receives two
  positive allocations (`CreditedInFullIff`; `RepeatedIdLosesCredit`).
- Delegation is documented as single-level. The code keeps it so if and only if the delegate has not delegated and nobody
  has delegated to the delegator (`DelegateKeepsSingleLevelIff`, `RunSingleLevelIff`); of cycles it refuses those of two
  parties, and a longer one arises if and only if a delegation leads back (`DelegateKeepsAcyclicIff`,
  `RunAcyclicIff`; `LongerCyclesAreReachable`).
- Quadratic voting is documented as for sentiment proposals only. Only financial ones are refused
  (`QuadraticAcceptedIff`).
- A redemption is documented as a pro-rata portion of the payout. It takes the share of what is still held, so a holder
  who is not the first often gets less (`ProRataIff`; `SecondRedeemerGetsLess`).
- The fractionalizer's last redeemer does not always get whatever is left (`LastRedeemerEmptiesIff`;
  `LastRedeemerLeavesDust`).
- Backfill rebuilds buckets over the batch's own time span and overwrites buckets that reach beyond it. Such a bucket
  agrees with the stored points if and only if no stored point of its window lies outside the span
  (`BackfilledBucketAgreesIff`; `BackfillOverwrites`).

## Model

| member | source | states |
|---|---|---|
| `PoolRuns.Custody` | contracts/financing_pool/src/lib.rs:1709-1932 | after any run of pool calls the balance of each token covers what was repaid into every pool not yet paid out plus every buyout held |
| `PoolRuns.DisbursedOnce` | contracts/financing_pool/src/lib.rs:2193-2292 | over any run no invoice is distributed twice, and treasury cut plus all payouts of a distribution never exceed what was repaid into that pool |
| `PayoutRuns.EveryoneGotTheirShare` | contracts/financing_pool/src/lib.rs:2235-2276 | for every disbursement of every run: at the call that made it each investor received exactly the rounded-down share of what was repaid less the treasury's cut, and the contract kept back only what rounding takes and shares nobody holds, within explicit bounds |
| `PayoutRuns.RepaidIsPaidOut` | contracts/financing_pool/src/lib.rs:2193-2292 | in every reachable state every repaid invoice has been paid out |
| `PayoutRuns.CallPays` | contracts/financing_pool/src/lib.rs:1709-2405 | each call pays investors nothing but their shares, and leaves no invoice repaid without paying it out |
| `PayoutShares.DistributionPays` | contracts/financing_pool/src/lib.rs:2193-2292 | a distribution sends the recorded cut to the treasury and to each investor, up to seven decimals the floor of (total - cut) x bps / 10 000, above seven the floor taken of whole units of the seventh decimal; the balance falls by just that |
| `PayoutShares.SharesKeepRounding` | contracts/shared/src/validation.rs:334-350 | what such payouts leave of (repaid - cut) is at least the unheld shares' part and at most that plus the rounding of each share |
| `PoolRuns.CountersExact` | contracts/financing_pool/src/lib.rs:759-766 | as long as fewer than 2^32 pools were opened: opened pools are the active, defaulted and repaid ones, and a funded invoice always finds the active counter above zero, so no decrement saturates |
| `PoolRuns.StatusMatchesPool` | contracts/invoice_nft/kani/invoice_state_machine.rs:95-133 | NFT funded means pool open and repaid means pool closed; the debt stays between the face value and twice the face value |
| `PoolRuns.RunSound` | contracts/financing_pool/src/lib.rs:690-766 | every run of disciplined calls keeps the books of every invoice, the disbursement log and the counters, and never lowers the free balance of any token |
| `PoolRuns.StepSound` | contracts/financing_pool/src/lib.rs:1709-1932 | each single call does, whether it succeeds or is rolled back |
| `PoolRuns.CallStep` | contracts/financing_pool/src/lib.rs:1180-1282 | each call on one invoice leaves every other invoice's records as they were and its own consistent |
| `PoolRuns.DefaultLeaksIff` | contracts/financing_pool/src/lib.rs:2314-2405 | a default that succeeds pays out of other pools' money if and only if the pool has no investor and its recorded treasury cut exceeds what was repaid |
| `PoolRuns.SmallLateRepaymentUncovers` | contracts/financing_pool/src/lib.rs:1844-1889 | such a pool arises from one late repayment that leaves less repaid than the treasury's part of the face value's penalty |
| `PoolWitnesses.DefaultLeaks` | contracts/financing_pool/src/lib.rs:2314-2405 | a run from the empty state in which such a default succeeds: 10 001 units are left of the 20 000 the contract owes for the other pool |
| `PoolSafety.CountersAddUp` | contracts/financing_pool/src/lib.rs:2395-2405 | opened = active + defaulted + repaid in every sound state |
| `PoolSafety.StatusTellsPool` | contracts/invoice_nft/kani/invoice_state_machine.rs:95-115 | a funded invoice's pool is open and still owes something; a repaid one's is closed |
| `PoolSafety.GoodStepSound` | contracts/financing_pool/src/lib.rs:1887-1927 | what one call does to one invoice keeps the log (each invoice at most once) and the counters exact for all |
| `PoolSteps.RepayStep` | contracts/financing_pool/src/lib.rs:1709-1932 | a repayment, with penalty, installment cursor, closing and payout, keeps the invoice's books and takes nothing from other pools |
| `PenaltyTerms.RepayCharges` | contracts/financing_pool/src/lib.rs:1791-1889 | a repayment is credited in full; if late, the rate of the whole face value, whatever was repaid before, is charged once, split by the treasury's rate between cut and debt; the pool closes exactly when the debt is then covered |
| `PoolTerms.FaceIsInvoiceAmount` | contracts/financing_pool/src/lib.rs:690-766 | in every reachable state a pool's face value is the amount its invoice was minted with |
| `PoolTerms.ReleasedTerms` | contracts/financing_pool/src/lib.rs:690-766 | a released pool owes exactly its face value, at the rate in force |
| `PoolTerms.RecordedShare` | contracts/financing_pool/src/lib.rs:1180-1282 | a recorded share is the contribution's rounded-down part of the stated total, at most the cap; nobody else's changes |
| `PoolTerms.FrozenIsUntouched` | contracts/financing_pool/src/lib.rs:1709-1740 | while an invoice is frozen nothing is repaid into its pool and no position in it changes, except by the buyout that settles it |
| `PoolTerms.PausedAdmits` | contracts/financing_pool/src/lib.rs:3271-3285 | while the protocol is paused only repayments, the end of a reservation, the withdrawal of a buyout and the invoice's own calls go through |
| `PoolTerms.DefaultedWhenDue` | contracts/financing_pool/src/lib.rs:2314-2405 | only the admin defaults, and only a funded, undisputed invoice past due date and grace period |
| `PoolTerms.DefaultClosesIff` | contracts/financing_pool/src/lib.rs:2314-2405 | a default closes the pool exactly if it was credited through the escrow |
| `PoolSteps.LatePenaltyBounds` | contracts/financing_pool/src/lib.rs:1791-1829 | treasury and investor part of a penalty are non-negative, at most the face value together, and zero when no penalty is due |
| `PoolSteps.DefaultStep` | contracts/financing_pool/src/lib.rs:2314-2405 | a default keeps the books and the free balances unless the pool has no investor and an uncovered cut |
| `PoolSteps.AcceptStep` | contracts/financing_pool/src/lib.rs:2688-2783 | an accepted buyout pays the investors out of the amount held for the offer |
| `PoolSteps.CancelStep` | contracts/financing_pool/src/lib.rs:2811-2846 | a cancelled buyout returns exactly what was held for it |
| `PoolSteps.SettleStep` | contracts/financing_pool/src/lib.rs:318-403 | a settled reservation is credited, and paid out if it completes the debt, without touching other pools' money |
| `PoolInvariants.DistributeEffect` | contracts/financing_pool/src/lib.rs:2193-2292 | a distribution that succeeds sends out between nothing and the amount distributed, and logs exactly that |
| `PoolInvariants.PayoutsBounded` | contracts/shared/src/validation.rs:334-350 | payouts rounded with `bps_of_normalized` add up to at most the amount shared out when the shares add up to at most 10 000 |
| `PoolInvariants.SlackChange` | contracts/financing_pool/src/lib.rs:2193-2292 | the free balance moves by exactly the token movement and the change in what is owed for one invoice |
| `Netting.AllocationsAreExact` | contracts/financing_pool/src/lib.rs:2056-2088 | allocations are non-negative and add up to exactly the payment; all but the first are the rounded-down shares, the first gets less than n units more |
| `Netting.AllocationsWithinDebt` | contracts/financing_pool/src/lib.rs:2056-2088 | a payment within the total debt gives no later pool more than it owes; a payment of the whole debt gives each exactly its debt |
| `PoolNetting.NettingIsExact` | contracts/financing_pool/src/lib.rs:2056-2144 | the repaid amounts of the listed pools grow by exactly the payment and no other pool changes |
| `PoolNetting.WholeDebtClosesAll` | contracts/financing_pool/src/lib.rs:2100-2180 | paying the whole debt of pools that are not late closes each at exactly its debt and marks its invoice repaid |
| `NettingTerms.NettingCharges` | contracts/financing_pool/src/lib.rs:2056-2144 | each listed pool is credited its rounded-down proportional part of the payment, the first also the remainder; a late one is charged the stored rate of its face value, once; it closes, and its invoice is repaid, exactly when that covers its debt |
| `NettingTerms.WholeDebtClosesIff` | contracts/financing_pool/src/lib.rs:2105-2127 | paying the recorded debts of all listed pools closes a pool if and only if no late penalty is added, and otherwise leaves it open owing just the penalty |
| `PoolNetting.NetSettleSound` | contracts/financing_pool/src/lib.rs:1970-2190 | netting distinct invoices keeps all books, the log and the counters, and never lowers a free balance |
| `PoolNetting.RepeatedIdLosesCredit` | contracts/financing_pool/src/lib.rs:2100-2144 | two positive allocations to the same id leave the credit of the second only |
| `NettingRepeats.CreditedInFullIff` | contracts/financing_pool/src/lib.rs:2056-2144 | for every list of ids, repeated or not: never more than the payment is credited, and all of it if and only if no id receives two positive allocations |
| `Netting.ApplyEffect` | contracts/financing_pool/src/lib.rs:2100-2144 | after the apply loop each listed pool is what its own allocation makes of the loaded pool, and all others are unchanged |
| `Netting.ClosingEffect` | contracts/financing_pool/src/lib.rs:2127-2136 | the pools to close are, once each, exactly those their allocation closes |
| `Installments.RepaidIsPrefixSum` | contracts/financing_pool/src/lib.rs:1762-1889 | from a schedule that was just accepted, over any run that leaves it alone: after m repayments the pool holds exactly the first m installments and is open, before the last one; and if each repayment came by its due date, or while no penalty was charged, the last one closes it |
| `Installments.RunOnSchedule` | contracts/financing_pool/src/lib.rs:1831-1838 | as many installments are ticked off as repayments went through, whatever else is called in between, netting of other invoices included; excepted are a second schedule, a buyout and a netting of the invoice itself |
| `Installments.PunctualDebt` | contracts/financing_pool/src/lib.rs:1791-1829 | over a run of punctual repayments the debt never grows |
| `Installments.FreshSchedule` | contracts/financing_pool/src/lib.rs:2924-2980 | a schedule that is accepted has positive installments that add up to the debt and starts at the first |
| `PoolTerms.ScheduleAcceptedIff` | contracts/financing_pool/src/lib.rs:2924-2980 | the admin's schedule for an open pool without repayments is accepted if and only if its installments are positive, in order of due date, and add up to the debt |
| `Installments.FinalPaymentClosesIff` | contracts/financing_pool/src/lib.rs:1778-1889 | documented to allow for a penalty: the final payment closes the pool if and only if it covers the last installment, what earlier penalties added to the debt, and what the treasury leaves of the face value's penalty due at that moment |
| `Installments.UnderpaidIsStuck` | contracts/financing_pool/src/lib.rs:1769-1775 | after a final payment that did not close the pool `repay` is refused for good, whatever is called in between |
| `Installments.UnderpaidCanBeNetted` | contracts/financing_pool/src/lib.rs:2003-2054 | while the preflight of `net_settle` still accepts that pool |
| `PoolWitnesses.UnderpaidScheduleReached` | contracts/financing_pool/src/lib.rs:1762-1889 | a run from the empty state whose one installment, paid in full but late, leaves the pool open and without further repayments |
| `EarlySettlement.LastAcceptanceSettlesIff` | contracts/financing_pool/src/lib.rs:2733-2783 | documented as settling on unanimous acceptance: after any run that records no position under the open offer, the last investor's acceptance settles if and only if the recorded shares reach 10 000 basis points |
| `EarlySettlement.NeverSettlesBelowUnanimity` | contracts/financing_pool/src/lib.rs:2733-2783 | after such a run, with less than 10 000 recorded, no acceptance changes a pool or pays anything |
| `EarlySettlement.AcceptanceSettlesIff` | contracts/financing_pool/src/lib.rs:2729-2783 | in any state: an acceptance settles if and only if the offer's running total and the investor's recorded share reach 10 000; then the pool is closed at the offered amount, otherwise no money moves |
| `EarlySettlement.RunTallied` | contracts/financing_pool/src/lib.rs:2688-2783 | over any run that records no position under the open offer, the running total is the sum of the recorded shares of those who accepted, each once |
| `EarlySettlement.RecordKeepsTallyIff` | contracts/financing_pool/src/lib.rs:1180-1282 | recording a position under an open offer keeps that if and only if the investor has not accepted yet or the share stays the same |
| `PoolWitnesses.RaisedShareStaysOpen` | contracts/financing_pool/src/lib.rs:2733-2783 | a run in which everybody has accepted, exactly 10 000 are recorded, and the offer stays open |
| `PoolWitnesses.LoweredShareSettles` | contracts/financing_pool/src/lib.rs:2733-2783 | a run in which an offer settles with 4 001 recorded |
| `PoolFrames.OfferUntouched` | contracts/financing_pool/src/lib.rs:690-2980 | no call but recording, proposing, accepting and cancelling for an invoice writes its offer or positions |
| `EarlySettlement.ThirdsFallShort` | contracts/financing_pool/src/lib.rs:1212-1218 | three equal contributions are recorded as 9 999 basis points |
| `EarlySettlement.OpenAcceptanceTallied` | contracts/financing_pool/src/lib.rs:2729-2741 | an acceptance that leaves the offer open adds the investor's share to the running total |
| `PoolTerms.WithdrawnBuyoutLeavesNothing` | contracts/financing_pool/src/lib.rs:2614-2846 | a buyout that is proposed and withdrawn leaves everything, and every balance, as it was |
| `FinancingPoolContract.Contract.Invoke` | contracts/financing_pool/src/lib.rs:690-2980 | one transaction: the storage becomes the specified next state, or stays as it was on an error |
| `FinancingPoolContract.Contract.PayInvestors` | contracts/financing_pool/src/lib.rs:2239-2283 | the transfer loop pays every investor the specified payout in any order, or fails because a payout overflows or the balance does not cover all of them |
| `FinancingPoolContract.Contract.DistributeYield` | contracts/financing_pool/src/lib.rs:2193-2292 | treasury cut and payouts leave as specified and the cut record is gone |
| `FinancingPoolContract.Contract.RepayInternal` | contracts/financing_pool/src/lib.rs:1709-1932 | repayment as specified: installment check, penalty split, credit, statistics, payout |
| `FinancingPoolContract.Contract.Charge` | contracts/financing_pool/src/lib.rs:1791-1889 | penalty, repayment and closing decision of one pool, with its overflow errors |
| `FinancingPoolContract.Contract.PreflightAll` | contracts/financing_pool/src/lib.rs:2003-2054 | the preflight loop finds the first objection, or what each pool still owes |
| `FinancingPoolContract.Contract.Allocate` | contracts/financing_pool/src/lib.rs:2056-2089 | the allocation loop computes the specified allocations, and fails exactly when a product leaves `i128` |
| `FinancingPoolContract.Contract.ApplyAll` | contracts/financing_pool/src/lib.rs:2100-2144 | the apply loop writes the specified pools and collects exactly the closed ones |
| `FinancingPoolContract.Contract.NetSettle` | contracts/financing_pool/src/lib.rs:1970-2190 | netting as specified, with every error case |
| `FinancingPoolContract.Contract.CheckSchedule` | contracts/financing_pool/src/lib.rs:2957-2971 | the schedule loop reports the first objection or the total |
| `FinancingPoolContract.Contract.MarkDefault` | contracts/financing_pool/src/lib.rs:2314-2405 | default as specified |
| `FinancingPoolContract.Contract.AcceptEarly` | contracts/financing_pool/src/lib.rs:2688-2783 | acceptance as specified, partial or settling |
| `FinancingPoolContract.Contract.SettleEscrow` | contracts/financing_pool/src/lib.rs:318-403 | end of a reservation as specified |
| `EscrowSafety.ReservationHonourable` | contracts/dispute_escrow/src/lib.rs:74-142 | in every reachable joint state a reservation stands exactly for an unresolved dispute, of its amount and token, within what the pool is still owed; and the escrow holds exactly the unresolved amounts |
| `EscrowSafety.PendingPoolIsFrozen` | contracts/financing_pool/src/lib.rs:418-427 | while a dispute is unresolved no call of the pool's own changes the pool or ends the reservation |
| `EscrowSafety.ReleasedExactlyOnce` | contracts/dispute_escrow/src/lib.rs:197-240 | each dispute is paid out exactly once when resolved, in its own token and amount, to the side recorded with it (the side decided for, by `EscrowVerdicts.ReleaseFollowsVerdict`) |
| `EscrowVerdicts.ReleaseFollowsVerdict` | contracts/dispute_escrow/src/lib.rs:147-240 | whatever left the escrow in a run was deposited by an earlier opening of the run, in the same amount, and went to the side a later verdict of the admin named, or back to the payer after a timeout |
| `EscrowVerdicts.VerdictCarriedOut` | contracts/dispute_escrow/src/lib.rs:147-167 | a verdict is the admin's, before the deadline; decided for the pool, the amount leaves the escrow and the pool is credited exactly it; decided against, it goes back and the pool only loses its reservation |
| `EscrowVerdicts.TimeoutRefunds` | contracts/dispute_escrow/src/lib.rs:170-178 | after the deadline, and only then, anybody ends the dispute, always as a refund |
| `EscrowVerdicts.RefundSucceedsIff` | contracts/dispute_escrow/src/lib.rs:147-178 | at every moment an unresolved dispute can be ended: within seven days by the admin's refund, afterwards by anybody's, and by exactly one of the two |
| `EscrowVerdicts.OpenedWithDeposit` | contracts/dispute_escrow/src/lib.rs:74-142 | a dispute is opened by the SME or an investor with a contribution, about at most what is still owed, against the SME's deposit of that amount |
| `EscrowSafety.PlaySound` | contracts/dispute_escrow/src/lib.rs:133-133 | every run of both contracts, with failed calls rolled back, keeps the joint invariant and the pool's custody |
| `EscrowSafety.PoolCallKeeps` | contracts/financing_pool/src/lib.rs:418-438 | no call of the pool's own adds, drops or changes a reservation, or changes a pool's token |
| `EscrowLiveness.RefundAlwaysPossible` | contracts/dispute_escrow/src/lib.rs:170-178 | after the deadline the refund of an unresolved dispute always succeeds and changes nothing else at the pool |
| `EscrowLiveness.PayPoolSucceedsIff` | contracts/dispute_escrow/src/lib.rs:147-167 | before the deadline, deciding for the pool succeeds if and only if the invoice is not frozen and the repayment counter does not overflow; the payout never lacks funds |
| `EscrowLiveness.ClosingPayoutSucceeds` | contracts/financing_pool/src/lib.rs:388-397 | the payout of a reserved amount that completes the debt can neither overflow nor run out of balance |
| `DisputeEscrowContract.Escrow.Invoke` | contracts/dispute_escrow/src/lib.rs:74-178 | one escrow transaction, calling the pool as a second object: both storages become the specified ones or both stay |
| `DisputeEscrowContract.Escrow.Settle` | contracts/dispute_escrow/src/lib.rs:197-240 | resolution, transfer and pool hook as specified |
| `DisputeEscrowContract.Escrow.OpenDispute` | contracts/dispute_escrow/src/lib.rs:74-142 | dispute, reservation and deposit as specified, with every refusal |
| `PoolModel.SharesNearlyFill` | contracts/financing_pool/verification/model.rs:155-161 | for any number of investors: 10 000 - n < sum of shares <= 10 000 |
| `PoolModel.PayoutsAreExact` | contracts/financing_pool/verification/model.rs:296-330 | I3: payouts sum to exactly the amount repaid; the dust for the first investor is non-negative and below n token units plus (n - 1)/10 000 of the amount |
| `PoolModel.TranchesVersusLumpSum` | contracts/financing_pool/verification/model.rs:258-330 | after m tranches totalling R every investor but the first has between the rounded share of R less m - 1 units and that share; all claims together are R |
| `PoolModel.TranchesNeverOverpay` | contracts/financing_pool/verification/model.rs:541-577 | I5 for every investor but the first, over any tranches within the debt: never more than the rounded share of the whole debt |
| `PoolModel.NeverOverpaysIff` | contracts/financing_pool/verification/model.rs:541-577 | I5 as checked after every tranche, over any tranches within the debt: it holds throughout if and only if what the others' rounded shares of the tranches leave is at most one unit above the first investor's rounded share of the debt |
| `PoolModel.FirstInvestorCanExceedTolerance` | contracts/financing_pool/verification/model.rs:541-577 | three equal investors and one tranche break that tolerance |
| `PoolModel.PoolState.RecordPosition` | contracts/financing_pool/verification/model.rs:210-244 | I1: recording recomputes every share and keeps balance = total funded = sum of contributions |
| `PoolModel.PoolState.RepayPartial` | contracts/financing_pool/verification/model.rs:258-330 | a tranche is accepted exactly when the pool is open, unfrozen, within its debt and the distribution does not overflow; it is credited in full, pays out exactly its amount and leaves the balance at the contributions |
| `PoolModel.PoolState.Repay` | contracts/financing_pool/verification/model.rs:334-382 | I2: the lump sum is accepted exactly when it is positive, the pool is open and the distribution does not overflow; it closes the pool, and a closed pool never pays again |
| `PoolModel.PoolState.RunTranches` | contracts/financing_pool/verification/model.rs:643-700 | a scenario succeeds exactly when every tranche can be paid, and is then the specified sequence of distributions |
| `Rounding.ContractShareIsAtMostExact` | contracts/shared/src/validation.rs:334-350 | a normalised share never exceeds its exact fraction, for any number of decimals |
| `Rounding.ModelAgreesWithContractIff` | contracts/financing_pool/verification/model.rs:138-151 | the model's rounding, documented as mirroring the contract, agrees with it for a token of any number of decimals if and only if the contract's share is a whole number of 10^decimals units and the model's own product and scale stay in range |
| `Rounding.ModelAgreesAboveStandardIff` | contracts/shared/src/validation.rs:334-350 | above seven decimals the contract's share is a product of two floors; the model's whole units equal it if and only if the inner one is a multiple of 10^7 |
| `Rounding.ModelAgreesUpToStandardIff` | contracts/shared/src/validation.rs:334-350 | up to seven decimals the contract's share is the plain floor; the model's equals it if and only if that floor is a whole number of units |
| `Rounding.ModelDisagreesWithContract` | contracts/financing_pool/verification/model.rs:138-151 | a share of a token with seven decimals where the two differ |
| `Rounding.ModelDisagreesAboveStandard` | contracts/shared/src/validation.rs:334-350 | a token with eight decimals: the plain share is 100 000 000 and so is the model's, the contract's is 99 999 990 |
| `Rounding.WholeUnitsSplit` | contracts/financing_pool/verification/model.rs:143-151 | splitting an amount loses at most one token unit of a share |
| `AccessControl.RotationSafety` | contracts/access_control/src/lib.rs:2496-2578 | right after an executed rotation no stored proposal is active, the protocol is unpaused, and the delay has passed without expiry |
| `AccessControl.RotationEndsBatch` | contracts/access_control/src/lib.rs:1024-1174 | in a successful batch of distinct ids a rotation is the last element, and the batch ends safely |
| `AccessControl.RotationInBatch` | contracts/access_control/src/lib.rs:1024-1174 | in any successful batch, whatever follows a rotation repeats an earlier id |
| `AccessControl.ExecutedHadQuorum` | contracts/access_control/src/lib.rs:833-960 | whatever a run executed was executed at one moment by at least the threshold of distinct signers then in force, while not cancelled |
| `AccessControl.RunSound` | contracts/access_control/src/lib.rs:1714-1759 | over any run: approvals distinct, executed and cancelled exclusive, ids exactly 1..next-1, and 1 <= threshold <= number of signers |
| `AccessControl.StepSound` | contracts/access_control/src/lib.rs:705-1003 | flags only latch, approvals only grow, and the executed flag rises only with a quorum |
| `ExecutedActions.ExecutionTakesEffect` | contracts/access_control/src/lib.rs:833-960 | an executed action does what it names: a pause pauses, an unpause unpauses, role 1 makes the target operator and role 2 verifier, a revocation leaves no role, a transfer or rotation makes the target admin; everything else stays |
| `ExecutedActions.BatchTakesEffect` | contracts/access_control/src/lib.rs:1024-1174 | a batch goes through one state for each element, each the effect of that element's action |
| `ExecutedActions.BatchPauses` | contracts/access_control/src/lib.rs:1080-1174 | after a batch the protocol is paused as its last pause or unpause says |
| `ExecutedActions.PauseBlocksRotations` | contracts/access_control/src/lib.rs:2496-2578 | after an executed pause and until an unpause is executed, the protocol stays paused and every rotation fails, for that reason when otherwise due |
| `ExecutedActions.PauseComesFrom` | contracts/access_control/src/lib.rs:348-378 | of the modelled calls only a guardian's emergency pause or an executed pause stops the protocol |
| `ExecutedActions.AdminComesFrom` | contracts/access_control/src/lib.rs:833-960 | whoever becomes admin was named by an executed transfer or rotation |
| `ExecutedActions.RoleComesFrom` | contracts/access_control/src/lib.rs:833-960 | no role is gained or lost but by an executed action that names its holder, or a rotation |
| `SignerChanges.SignersChangeOnlyBy` | contracts/access_control/src/lib.rs:633-660 | signers and threshold change only by the admin's configuration, by an executed recovery without objections after its delay, or by a confirmed election of one seat; no proposal can change them |
| `SignerChanges.ReseatingHadVotes` | contracts/access_control/src/lib.rs:1984-2057 | a seat changes hands only if at least the threshold of distinct addresses voted |
| `SignerChanges.VotesAreSupport` | contracts/access_control/src/lib.rs:1940-1983 | over any run the votes for an election grow by exactly the supporting votes cast |
| `SignerChanges.ObjectionBlocksRecovery` | contracts/access_control/src/lib.rs:1678-1759 | one objection blocks a signer recovery for good |
| `SignerChanges.WasProposed` | contracts/access_control/src/lib.rs:705-765 | every proposal of a run was proposed in it by a signer, with the action and dates it has |
| `SignerChanges.ApprovalCounts` | contracts/access_control/src/lib.rs:774-832 | an accepted approval adds one to the votes of the current signers, once per signer |
| `SignerChanges.CancelledBy` | contracts/access_control/src/lib.rs:971-1003 | a proposal is cancelled by its proposer, by a signer once it has the threshold of approvals, or by a newer rotation |
| `SignerChanges.CancelledIsNeverExecuted` | contracts/access_control/src/lib.rs:833-1003 | what is cancelled no run executes |
| `AccessControl.ValidVotesCountApprovers` | contracts/access_control/src/lib.rs:863-871 | the vote count is the number of distinct approvers among the current signers |
| `AccessControl.ExecutableHasQuorum` | contracts/access_control/src/lib.rs:833-878 | an executable proposal has a quorum of the current signers |
| `AccessControl.ReseatKeepsDistinctIff` | contracts/access_control/src/lib.rs:2006-2028 | a council rotation keeps the signers distinct if and only if the replacement does not already hold another seat |
| `AccessControlContract.Contract.Batch` | contracts/access_control/src/lib.rs:1024-1174 | batch execution as specified, rolled back on an error |
| `AccessControlContract.Contract.Execute` | contracts/access_control/src/lib.rs:833-960 | single execution as specified |
| `AccessControlContract.Contract.ProposeAction` | contracts/access_control/src/lib.rs:705-765 | proposing as specified, superseding a pending rotation |
| `AccessControlContract.Contract.RequireNoOtherActive` | contracts/access_control/src/lib.rs:2554-2578 | the scan with early exit finds an active proposal if and only if there is one besides the skipped one |
| `AccessControlContract.Contract.Collect` | contracts/access_control/src/lib.rs:1029-1077 | the batch check loop accepts exactly the specified members |
| `AccessControlContract.Contract.ConcludeCouncilRotation` | contracts/access_control/src/lib.rs:1984-2057 | council rotation as specified |
| `AuditLog.AuditRing.Append` | contracts/access_control/src/lib.rs:2346-2387 | appending to the 500-slot ring appends to the unbounded log it stands for |
| `AuditLog.AuditRing.GetAuditLog` | contracts/access_control/src/lib.rs:2233-2269 | a page is the matching slice of the newest min(total, 500) entries, newest first |
| `AuditLog.PagesConcatenate` | contracts/access_control/src/lib.rs:2233-2269 | the pages in order are the retained log, without gap or repeat |
| `AuditLog.AppendRetained` | contracts/shared/src/audit.rs:6-6 | a new entry becomes the newest and pushes out the oldest of a full ring |
| `AuditLog.SlotOfOffset` | contracts/access_control/src/lib.rs:2250-2262 | walking back from the head reaches the slot of the entry that many places before the newest |
| `Delegation.ReachableIndexAgrees` | contracts/governance_voting/src/lib.rs:288-357 | in every reachable state the reverse index lists exactly the delegators of each delegate, once each, and nobody delegates to themselves or back |
| `Delegation.DelegatedWeightIsConserved` | contracts/governance_voting/src/lib.rs:766-782 | below saturation the delegated weight over all delegates equals the base weight over all delegators |
| `Delegation.WeightIsDelegators` | contracts/governance_voting/src/lib.rs:766-782 | below saturation a delegate's weight is that of exactly those who delegated to them |
| `Delegation.DelegateTakesEffect` | contracts/governance_voting/src/lib.rs:288-332 | a delegation is accepted unless to oneself or back, replaces an earlier one in map and index, and changes nobody else's |
| `Delegation.RevokeTakesEffect` | contracts/governance_voting/src/lib.rs:339-357 | exactly a delegator can revoke; the delegation is then gone from map and index, and no other one is |
| `Delegation.LongerCyclesAreReachable` | contracts/governance_voting/src/lib.rs:280-305 | documented as single-level; a three-party cycle is reachable |
| `DelegationChains.DelegateKeepsSingleLevelIff` | contracts/governance_voting/src/lib.rs:280-332 | an accepted delegation keeps the documented single level if and only if the delegate has not delegated and nobody has delegated to the delegator |
| `DelegationChains.DelegateKeepsAcyclicIff` | contracts/governance_voting/src/lib.rs:280-332 | an accepted delegation closes a cycle if and only if the delegate's chain already leads to the delegator |
| `DelegationChains.RunSingleLevelIff` | contracts/governance_voting/src/lib.rs:280-357 | a run from the empty ledger is single-level throughout if and only if each delegation it accepts meets that condition when made |
| `DelegationChains.RunAcyclicIff` | contracts/governance_voting/src/lib.rs:280-357 | a run is free of cycles throughout if and only if no delegation it accepts leads back when made |
| `Delegation.DelegationRegistry.DelegateTo` | contracts/governance_voting/src/lib.rs:288-332 | delegation as specified |
| `Delegation.DelegationRegistry.RemoveFromDelegatedByIndex` | contracts/governance_voting/src/lib.rs:807-828 | the index loop removes exactly the delegator and drops an empty entry |
| `Delegation.DelegationRegistry.GetDelegatedWeight` | contracts/governance_voting/src/lib.rs:766-782 | the saturating sum over the index |
| `SquareRoot.IntegerSqrt` | contracts/governance_voting/src/lib.rs:833-864 | no step overflows; the result is the floor root for every non-negative input except the largest `i128`, where it is not |
| `Tally.ReachableTallies` | contracts/governance_voting/src/lib.rs:466-563 | in every reachable book each count is exactly the sum of the recorded weights of that choice |
| `Tally.RecordsAreImmutable` | contracts/governance_voting/src/lib.rs:493-497 | no run changes or drops a recorded ballot |
| `Tally.ClosedProposalsAreFrozen` | contracts/governance_voting/src/lib.rs:637-676 | once executed or expired a proposal and its ballots never change |
| `Tally.QuadraticVotesAreBounded` | contracts/governance_voting/src/lib.rs:508-541 | quadratic votes squared are at most the number of voters times the credits they spent |
| `Ballots.ExecuteSucceedsIff` | contracts/governance_voting/src/lib.rs:637-676 | the admin can execute a proposal if and only if it is open and all ballots cast for it, abstentions included, reach its quorum (and their sum is an `i128`) |
| `Ballots.ExecutedHasQuorum` | contracts/governance_voting/src/lib.rs:637-676 | whatever a run executed has ballots of at least its quorum |
| `Ballots.WasCast` | contracts/governance_voting/src/lib.rs:466-563 | every ballot of a run was cast in it by its voter, in time, with the choice it has, and weighs the whole base weight or the floor root of the credits spent |
| `Ballots.QuadraticAcceptedIff` | contracts/governance_voting/src/lib.rs:384-413 | documented as for sentiment proposals only: a quadratic proposal is accepted if and only if it is not a financial one |
| `Ballots.WasCreated` | contracts/governance_voting/src/lib.rs:384-460 | every proposal of a run was created in it with the terms it has; money is never voted on quadratically |
| `Tally.VotingContract.Vote` | contracts/governance_voting/src/lib.rs:466-563 | voting as specified in both modes, with every refusal |
| `Fractionalizer.SupplyIsConserved` | contracts/fractionalizer/src/lib.rs:99-188 | over any run from the empty state that wraps no live record again, the balances of all holders of a wrap add up to its outstanding shares, which are the shares issued less those redeemed |
| `Fractionalizer.PayoutIsConserved` | contracts/fractionalizer/src/lib.rs:252-335 | in any such run in which a wrap is settled: from then on, what was paid plus what is still held is the settled payout, no payment exceeds its rounded-up share, and none was made before |
| `Fractionalizer.PaidOnce` | contracts/fractionalizer/src/lib.rs:286-335 | no run changes or repeats a payment |
| `Fractionalizer.SettlementStarts` | contracts/fractionalizer/src/lib.rs:191-249 | settling fixes the payout at the share of the amount repaid, with nothing paid of it yet |
| `Fractionalizer.TransferPreserves` | contracts/fractionalizer/src/lib.rs:160-188 | a transfer, to oneself included, succeeds exactly with a positive covered amount, never overflows, and conserves the supply |
| `Fractionalizer.RedeemPreserves` | contracts/fractionalizer/src/lib.rs:252-335 | a redemption conserves payout and supply and pays at most the rounded-up share |
| `Fractionalizer.RedeemNeverUnderflows` | contracts/fractionalizer/src/lib.rs:286-324 | a first redemption of settled shares fails only if a product leaves `u128` |
| `Fractionalizer.RewrapKeepsSupplyIff` | contracts/fractionalizer/src/lib.rs:99-150 | re-wrapping a live record keeps supply and balances equal if and only if nobody else holds shares |
| `Fractionalizer.LastRedeemerEmptiesIff` | contracts/fractionalizer/src/lib.rs:293-306 | commented as giving the last redeemer whatever is left: it does if and only if the rounded-down share of the others is zero |
| `Fractionalizer.LastRedeemerLeavesDust` | contracts/fractionalizer/src/lib.rs:293-306 | a run from the empty state that leaves two tokens behind when every share is redeemed |
| `Redemptions.RedemptionTakes` | contracts/fractionalizer/src/lib.rs:286-324 | a redemption burns exactly the holder's shares and pays the rounded-down share of the payout still held; for the holder of all outstanding shares, what the others' rounded-down share leaves |
| `Redemptions.ProRataIff` | contracts/fractionalizer/src/lib.rs:246-306 | documented as a pro-rata portion of the payout: in any run a holder who is not the last gets that if and only if (paid before) x holding is at most the remainder of payout x holding by all shares |
| `Redemptions.SecondRedeemerGetsLess` | contracts/fractionalizer/src/lib.rs:279-306 | a run in which three of ten shares of 100 get 15 |
| `Redemptions.WrapIssuesAll` | contracts/fractionalizer/src/lib.rs:99-150 | a wrap issues between one and a million shares, all to its investor |
| `Redemptions.UnwrapUndoesWrap` | contracts/fractionalizer/src/lib.rs:345-385 | unwrapping undoes a wrap |
| `Fractionalizer.FractionalizerContract.RedeemShares` | contracts/fractionalizer/src/lib.rs:252-335 | redemption as specified |
| `Downsampling.DownsamplingComposes` | services/timeseries/downsampler.ts:50-90 | a coarse bucket has the summed counts, the count-weighted mean, the least minimum and the greatest maximum of the fine ones in its window |
| `Downsampling.GranularitiesNest` | services/timeseries/downsampler.ts:25-44 | hours tile days and weeks, days tile weeks |
| `Downsampling.CountsAddUp` | services/timeseries/downsampler.ts:50-90 | the buckets partition the points: counts add up to the number of points |
| `Downsampling.Downsample` | services/timeseries/downsampler.ts:50-90 | strictly ordered buckets, one for each window that holds a point, each the exact minimum, maximum, mean and count of it |
| `Downsampling.DescriptionIsUnique` | services/timeseries/downsampler.ts:66-86 | a window's points leave no choice for its bucket |
| `TimeSeries.WeekAlignedRebuildAgrees` | services/timeseries/timeseries-service.ts:147-162 | after a rebuild over whole weeks every persisted hourly, daily and weekly bucket of a stored point is the aggregate of all stored points of its window |
| `TimeSeries.RebuiltBucketAgreesIff` | services/timeseries/timeseries-service.ts:57-79 | in general a rebuilt bucket agrees with all stored points of its window if and only if none of them lies outside the rebuilt range; a window inside the range always does |
| `TimeSeries.BackfilledBucketAgreesIff` | services/timeseries/timeseries-service.ts:57-79 | so after a backfill the bucket of a stored point agrees if and only if no stored point of its window lies outside the span of the batch |
| `TimeSeries.TimeSeriesStore.Backfill` | services/timeseries/timeseries-service.ts:57-79 | backfill stores the new points, counts them, rebuilds the buckets of each series over the span of its own timestamps in the batch, and leaves every other bucket alone |
| `TimeSeries.BackfillOverwrites` | services/timeseries/timeseries-service.ts:57-79 | two backfills in one hour: the second leaves an hourly bucket that counts its own point only |
| `TimeSeries.Ranges` | services/timeseries/timeseries-service.ts:57-72 | the loop finds the least and the greatest timestamp of exactly the series in the batch |
| `TimeSeries.ReplayWritesNothing` | services/timeseries/store.ts:80-90 | replaying a batch, or part of it in any order, stores nothing |
| `TimeSeries.FirstPointStays` | services/timeseries/store.ts:80-90 | of several new points under one key in a batch the first is stored |
| `TimeSeries.TimeSeriesStore.QueryRange` | services/timeseries/store.ts:92-102 | exactly the stored points of the series in the range, ascending |
| `TimeSeries.TimeSeriesStore.RebuildBuckets` | services/timeseries/timeseries-service.ts:147-162 | all three granularities describe the stored points of the range; buckets of windows without such a point, and other series, are untouched |
| `TimeSeries.TimeSeriesStore.InsertBatch` | services/timeseries/store.ts:80-90 | the first point under a key stays, and the count is of new keys |

## Left out

- `repay_partial` of the contract, split positions and share sales, position transfers and the secondary market: no run includes them.
- The approval flow of high-value repayments: whether an executed approval is stored is a parameter.
- Currency conversion and token symbols: repayments are in the pool's token and currency, and `token` arguments equal the pool's token.
- `AggregateFunded`, which no modelled call reads.
- The repayment lock: calls are atomic, so a lock is never observed held.
- The marketplace binding of `release_funds`, `require_auth`, events, storage lifetimes, initialisation and upgrades.
- Token contracts: balances are a map, transfers in always succeed, and investors, payers and the treasury are never the contract itself.
- FinancingPoolContract.Contract.PayInvestors: when a distribution could fail for two reasons, which of the two errors is reported depends on the order of iteration and is not specified.
- PoolRuns.Custody: assumes what `Disciplined` lists, because the contract does not check it.
- The overflow check on `yield_claimed` in model.rs, which cannot fail: what is claimed never exceeds what was repaid, an `i128`.
- Installments.RunOnSchedule: excludes netting of the same invoice and an accepted buyout of it, which move the pool without the schedule, and a second schedule for it, which replaces the first.
- PoolRuns.CountersExact: holds up to 2^32 - 1 opened pools; beyond that the 32-bit counters saturate.
- Tally.QuadraticVotesAreBounded: excludes credits equal to the largest `i128`, for which the square root is wrong.
- SquareRoot.IntegerSqrt: says what is returned for the largest `i128` but not that it is a root, because it is not.
- Downsampling.DownsamplingComposes: values are reals; floating-point rounding is not modelled.
- Retention, pruning, the query fallback and the REST layer of the time-series service.
- Direct admin calls that bypass the multisig, role-member lists, council term clocks, and parameter and community proposals of access control.
- The checksum chain of the audit log, which stores nothing the log does not hold.
- The vesting contract behind a voter's base weight, which is a parameter of `Vote`.
- `debtor_attestation`, `governance`, `dispute_resolution`, `secondary_market`, `referral_rewards`: easier versions of what is modelled.
