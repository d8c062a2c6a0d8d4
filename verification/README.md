# COMEBACKHERE contracts: model and proofs

A Dafny model of three Soroban contracts and the arithmetic they share, with proofs about every run of them.

- **Treasury**: weighted multisig settlements with holds, disputes, partial and batch payouts; deposits and a
  withdrawal window; a signer registry with rotations and timelocked changes.
- **Invoice**: the invoice lifecycle with refunds, its pending and merchant indexes, the audit history, batch
  creation and the recurring-template keeper.
- **Compliance**: the allow and block flags with lazy expiry, the paged address index, the sweep, the bounded
  status history and the Merkle blocklist check.
- **Basis points**: the overflow-free refund fee and the exact dispute split.

In each contract indexes, totals and logs are kept by hand next to the primary records. The main theorems say that
they agree with the records after any sequence of calls, and that the records are what the successful calls, read from
the run alone, made them.

Check everything with `dafny verify dfyconfig.toml`.

## How it is organised

| files | content |
|---|---|
| `Common`, `BasisPoints` | integer widths, results, sequence facts; fee and split arithmetic |
| `TreasuryTypes`, `Multisig`, `Governance`, `Settlements`, `Vault` | treasury storage and one specification function per entrypoint |
| `GovernanceSafety`, `SettlementSafety`, `Quorum`, `Disputes`, `DisputeHolds`, `VaultSafety` | what each treasury call keeps |
| `TreasuryRuns`, `TallyBacking`, `VoteBacking`, `DisputeRuns`, `TreasuryLimits` | theorems over all treasury runs; runs on which a promise fails |
| `VaultLedger`, `PayoutRecipients`, `SettlementOutcomes`, `DisputeOutcomes`, `GovernanceOutcomes`, `TreasuryCalls` | every balance, transfer, settlement, dispute, signer and rule told by the calls of the run; exactly which calls succeed |
| `TreasuryContract` | the class `Treasury`: entrypoints with the source's loops and in-place updates, proved against the specification |
| `InvoiceSpec`, `InvoiceSafety`, `InvoiceHistory`, `InvoiceBatch`, `InvoiceKeeper`, `InvoiceRuns`, `InvoicePayer`, `InvoiceContract` | the same for the invoice contract |
| `InvoiceCreation`, `InvoiceCalls`, `InvoiceOutcomes`, `KeeperRuns`, `RefundRuns` | what each invoice call stores, exactly when it succeeds, which templates the keeper runs, and at which rate and fee a refund was made |
| `ComplianceSpec`, `ComplianceIndex`, `ComplianceSweep`, `ComplianceRuns`, `ComplianceContract`, `BlocklistProof` | the same for the compliance contract |
| `ComplianceDecisions` | the allow decision told by the calls that name an address; exactly which calls succeed |

A run is a sequence of timed calls from empty storage. A specification function returns the new storage or an error;
an error stands for a returned error and for a panic alike, and leaves the storage unchanged. Every class method's
postcondition `Commits` says that it returns and stores what the specification function says. Where a theorem needs
time not to go backwards it says so (`Chronological`).

Conventions:

- The caller is an argument that has authorised the call; the ledger time is an argument.
- Token transfers are entries of a log (`payouts`, `splits`, `outflows`). A transfer that fails makes the call fail,
  so such a call is absent from a run; a refund transfer, whose failure is caught, is the argument `sent`.
- The answer of the pinned compliance contract is the argument `cleared`; the token balance that `withdraw_all` reads
  is the argument `held`.
- Events that the proofs read (`journal`, `events`, `log`) are part of the storage model. They are only appended to.
- Digests are numbers, and the hash is a parameter of the Merkle theorems.

## Where the code departs from its documentation

The model follows the code. Each of these departures has the exact condition under which the promise holds and a run on
which it fails.

- `batch_execute_settlements` stores records directly, so a paid settlement stays in the pending index
  (`PendingIndexIsExact`, `BatchLeavesStaleEntry`).
- `revoke_approval` subtracts the signer's current weight. If that was lowered since the approval, the recorded weight
  exceeds what the remaining approvers granted, and a settlement without approvers can be paid
  (`RevokeKeepsBackingIff`, `PaidWithoutApprovers`).
- An executed rotation does not update the signer list (`SwapKeepsRegistryIff`, `RotationLeavesListStale`), so the full
  quorum of an emergency withdrawal can leave out signers with weight (`EmergencyNeedsEveryoneIff`,
  `EmergencyWithoutSigners`).
- A timelocked removal or weight change lacks the quorum check of the direct removal, so the threshold can become
  unreachable; a directly set weight and a rotation have no such check either (`QueuedChangeReachableIff`,
  `SetSignerReachableIff`, `SwapReachableIff`, `ThresholdBecomesUnreachable`).
- A partial execution does not read the total that partial approvals cap (`PartialWithinApprovedIff`,
  `PartPaidUnapproved`).
- Releasing a hold after a dispute keeps a stored hold expiry (`ReleaseIsCleanIff`). The hold of a later dispute then
  lapses at that expiry, and a settlement can be paid while the dispute is open (`PaidIff`, `PaidWhileDisputed`). An open
  dispute as such stops no payment: it works through the hold, which also a release by hand or a dispute raised before
  the settlement defeats (`ReleaseHoldHoldsIff`, `RaiseHoldsIff`, `ReleasedUnderDispute`, `DisputedBeforeProposal`).
  Without these, `DisputedIsOnHold` and `DisputedIsPaidOnlyAfterLapse` hold over whole runs, and without dated holds
  `DisputedIsNeverPaid`.
- A dispute resolved by vote does not release the hold (`HoldReleaseIsExact`, `VoteLeavesHold`).
- The execution deadline stops a full execution only (`LateIsPaidIff`, `PaidAfterDeadline`).
- An invoice's payer, checked to differ from the merchant on payment, can become the merchant by a transfer
  (`TransferKeepsPayersIff`, `HandedToMerchant`).
- `raise_dispute` and `create_invoice` work before `initialize`, which then sets the counter back to zero, so an early
  record is overwritten (`ResetKeepsDisputesIff`, `EarlyDisputeIsOverwritten`, `InitializeKeepsIff`,
  `EarlyInvoiceIsOverwritten`). The theorems that need it ask for `InitializedFirst`.
- `batch_cancel_invoices` with a repeated id appends two history entries (`BatchCancelAuditsIff`,
  `RepeatedCancelLogsTwice`).
- `block_address` and `bulk_block_addresses` leave an earlier block's expiry in place (`BlockHoldsIff`,
  `StaleExpiryLiftsBlock`).

Three smaller differences need no condition:

- Partial execution moves the settlement out of Pending, so a settlement is partially paid at most once, although a
  running executed total is kept (`PaidAtMostOnce`).
- An empty batch on a paused contract fails, while a sequence of no creations does nothing
  (`BatchEqualsSequence`, `PausedSequenceFails`).
- The keeper bound holds even when the next run time saturates: creating an invoice at the largest time fails, because
  it must expire later (`CallStepSchedules`).

## Model

| member | source | states |
|---|---|---|
| `TreasuryRuns.PaidAtMostOnce` | contracts/treasury/src/settlements.rs:349-609 | in every run a settlement is paid by at most one transfer (full, batch with repeated ids, or partial), never above its amount, never while Pending or OnHold, and its partial-approved and partial-executed totals stay within the amount |
| `TreasuryRuns.FinishedStaysFinished` | contracts/treasury/src/settlements.rs:349-711 | a settlement that has left {Pending, OnHold} has the same record at every later point of the run, and its amount never changes at all |
| `TreasuryRuns.RunEvolves` | contracts/treasury/src/holds.rs:36-155 | between any two points of a run: settlements keep their identity, finished ones are frozen, and the payout and split logs only grow |
| `SettlementSafety.BookStepKeeps` | contracts/treasury/src/settlements.rs:101-852 | each settlement, hold, dispute and configuration call keeps the payout-log, partial-total and pending-index invariant |
| `TreasuryRuns.PendingIndexIsExact` | contracts/treasury/src/lib.rs:150-186 | in every run the index is duplicate-free and holds exactly the Pending ids and the ids paid by a batch; every stale entry is an Executed settlement |
| `TreasuryRuns.IndexIsTheScan` | contracts/treasury/src/settlements.rs:717-734 | without batch execution the index is, up to order, the filter of all ids for Pending |
| `TreasuryRuns.IndexGroupsLikeTheScan` | contracts/treasury/src/settlements.rs:771-803 | without batch execution, per token, count and sum over the index are those over the filter of all settlements |
| `TreasuryLimits.BatchLeavesStaleEntry` | contracts/treasury/src/settlements.rs:478-492 | a run in which a batch naming one id twice pays it once and leaves it in the index |
| `TreasuryRuns.WeightIsBacked` | crates/multisig/src/lib.rs:507-566 | in every run approvers are distinct, the recorded weight is at most what they weighed on approving if no revoking signer had lost weight, and equal to it if none had changed |
| `TreasuryRuns.EveryPayoutIsBacked` | contracts/treasury/src/settlements.rs:383-393 | every transfer for a settlement at every step of every such run is backed by a non-empty set of distinct approvers with positive granted weights that sum to at least the non-zero threshold then in force |
| `QuorumSteps.BookStepMoves` | contracts/treasury/src/settlements.rs:101-334 | every call leaves a settlement's tally alone, adds one authorised signer with its current weight, or takes one approver off with its current weight |
| `QuorumSteps.BookStepNeedsQuorum` | contracts/treasury/src/settlements.rs:478-575 | every transfer a call makes is for a settlement whose recorded weight reached the configured non-zero threshold before the call |
| `VoteBacking.ClosingVoteIsBacked` | contracts/treasury/src/disputes.rs:280-333 | every dispute a vote closes, at every step of every run, is backed by distinct signers whose positive weights when they voted sum to at least the threshold then in force |
| `VoteBacking.ExecutedRotationIsBacked` | contracts/treasury/src/signers.rs:257-308 | every executed rotation, at every step of every run, is backed by distinct signers whose positive weights when they approved sum to at least the threshold then in force |
| `TallyBacking.GrowingIsBacked` | crates/multisig/src/lib.rs:507-525 | any tally that only records approvals has distinct approvers, each of positive weight when it joined, and a weight equal to the sum of those weights |
| `TreasuryLimits.PartialWithinApprovedIff` | contracts/treasury/src/settlements.rs:545-609 | a partial execution, which never reads the partially approved total, stays within it if and only if its part does |
| `TreasuryLimits.PartPaidUnapproved` | contracts/treasury/src/settlements.rs:545-609 | a run in which a part is paid although no partial amount was approved |
| `TreasuryLimits.RevokeKeepsBackingIff` | crates/multisig/src/lib.rs:531-563 | a revocation keeps the recorded weight within what the remaining approvers granted if and only if the revoking signer weighs at least what it granted |
| `TreasuryLimits.PaidWithoutApprovers` | crates/multisig/src/lib.rs:552-566 | a run in which a signer's weight is lowered, it revokes the only approval, and the settlement is still paid |
| `Multisig.RevokeUndoesRecord` | crates/multisig/src/lib.rs:507-566 | recording and then revoking with an unchanged weight restores approvals and weight |
| `TreasuryRuns.OutflowIsCapped` | contracts/treasury/src/deposits.rs:319-368 | in every chronological run, while a positive limit and window length W stay fixed, what is sent to one address by withdraw and withdraw_all in any interleaving is at most the limit in its recorded window and at most twice the limit in any interval [t, t + W) |
| `VaultSafety.VaultStepCaps` | contracts/treasury/src/deposits.rs:62-181 | one call keeps the window bound of every address, whether it opens a fresh window, charges a running one, or concerns somebody else |
| `TreasuryRuns.DepositsAreConserved` | contracts/treasury/src/deposits.rs:62-307 | in every run each token total is the sum of all holders' balances, and no balance is negative |
| `VaultSafety.VaultStepConserves` | contracts/treasury/src/deposits.rs:262-307 | each deposit, batch deposit and withdrawal keeps that equality |
| `TreasuryRuns.TimelockHolds` | contracts/treasury/src/timelock.rs:85-289 | in every run the delay is within 1 hour to 30 days, a change is applied at most once, never if cancelled, and never sooner than the delay recorded in the one entry that queued it |
| `TreasuryRuns.QueuedWithDelayInForce` | contracts/treasury/src/timelock.rs:64-131 | the delay so recorded is the one in force, and the time the one of the call, when the change was proposed |
| `GovernanceSafety.GovStepKeeps` | contracts/treasury/src/timelock.rs:146-251 | each governance call keeps the timelock rules, the duplicate-free signer list and, until a rotation executes, its completeness |
| `GovernanceSafety.ChainFromStart` | contracts/treasury/src/timelock.rs:307-337 | chaining pages with any positive limit from an unchanged state lists each pending change once, in id order |
| `GovernanceSafety.ChainListsAll` | contracts/treasury/src/timelock.rs:307-337 | the same from any starting id |
| `TreasuryRuns.RegistryIsComplete` | contracts/treasury/src/signers.rs:22-136 | in every run the signer list has no duplicates and, until a rotation executes, holds every signer with weight |
| `GovernanceSafety.SwapKeepsRegistryIff` | contracts/treasury/src/signers.rs:287-294 | an executed rotation keeps the list complete if and only if the new signer gains nothing, is already listed, or is the old one |
| `TreasuryLimits.RotationLeavesListStale` | contracts/treasury/src/signers.rs:287-294 | a run after which the new signer has weight but is not listed |
| `TreasuryRuns.ThresholdStaysReachable` | contracts/treasury/src/signers.rs:88-136 | after any successful removal, threshold update or timelocked threshold change in any run the listed weights sum to at least the threshold |
| `GovernanceSafety.RemovalLeavesQuorum` | contracts/treasury/src/signers.rs:88-136 | the removal guard implies this although it sums with saturation |
| `GovernanceSafety.ThresholdIsReachable` | contracts/treasury/src/admin.rs:12-34 | a new threshold is non-zero and at most the listed weight |
| `GovernanceSafety.QueuedChangeReachableIff` | contracts/treasury/src/timelock.rs:169-212 | an executed timelocked weight change or removal, which lacks remove_signer's quorum check, leaves the threshold reachable if and only if the listed weight with the change made reaches it |
| `GovernanceSafety.SetSignerReachableIff` | contracts/treasury/src/signers.rs:22-47 | the same for a weight set directly |
| `GovernanceSafety.SwapReachableIff` | contracts/treasury/src/signers.rs:287-294 | the same for an executed rotation, whose new signer counts only if listed |
| `TreasuryLimits.ThresholdBecomesUnreachable` | contracts/treasury/src/timelock.rs:195-211 | a run in which a timelocked removal, refused to remove_signer, leaves a threshold above the listed weight |
| `TreasuryRuns.DisputeListIsTheScan` | contracts/treasury/src/disputes.rs:40-104 | if no dispute preceded initialisation, every settlement's dispute list is the ascending filter of all dispute ids |
| `TreasuryRuns.ClosedDisputesStay` | contracts/treasury/src/disputes.rs:112-333 | along every such run a closed dispute is frozen, voters stay distinct and only grow, and the direction is fixed by the first vote |
| `DisputeSafety.BookStepKeeps` | contracts/treasury/src/disputes.rs:40-333 | every call keeps the dispute lists equal to the scans and those monotonicity rules |
| `DisputeSafety.HoldReleaseIsExact` | contracts/treasury/src/disputes.rs:338-372 | a dispute call takes a settlement off hold if and only if it expires, resolves or splits the one dispute open against it before the call; raising and voting never do; and no dispute call changes a hold expiry |
| `DisputeSafety.ReleaseIsCleanIff` | contracts/treasury/src/disputes.rs:338-372 | the release after a dispute leaves what release_hold leaves, and no hold expiry, if and only if none was stored before |
| `DisputeHolds.PaidIff` | contracts/treasury/src/settlements.rs:349-609 | exactly when each of the three payout calls pays a settlement, as a condition on the state before it, repeated ids included: no dispute occurs in it; batch and partial need Pending, a full execution Pending or a hold whose stored expiry has lapsed |
| `DisputeHolds.ExecuteEachAt` | contracts/treasury/src/settlements.rs:466-503 | a batch execution pays each named ready settlement once and leaves every other record alone |
| `DisputeHolds.LateIsPaidIff` | contracts/treasury/src/settlements.rs:396-400 | after its execution deadline a settlement is paid by no full execution but by every batch or partial one that is otherwise ready |
| `DisputeRuns.DisputedIsOnHold` | contracts/treasury/src/disputes.rs:40-104 | in every run initialised before its first dispute, with no release_hold under an open dispute and no dispute about a settlement not yet proposed, every live settlement with a Raised dispute is OnHold |
| `DisputeRuns.DisputedIsPaidOnlyAfterLapse` | contracts/treasury/src/settlements.rs:360-378 | in those runs a settlement with a Raised dispute is paid by no batch or partial execution, and by a full one only from its stored hold expiry on |
| `DisputeRuns.DisputedIsNeverPaid` | contracts/treasury/src/holds.rs:36-83 | if besides no hold is placed with an expiry, no call pays a settlement while a dispute of it is open |
| `DisputeHolds.BookStepHolds` | contracts/treasury/src/disputes.rs:40-372 | every permitted call keeps disputed settlements existing and off Pending |
| `DisputeHolds.RaiseHoldsIff` | contracts/treasury/src/disputes.rs:40-104 | raising a dispute keeps that if and only if the settlement it names exists |
| `DisputeHolds.ReleaseHoldHoldsIff` | contracts/treasury/src/holds.rs:133-155 | releasing a hold by hand keeps it if and only if no dispute of the settlement is open |
| `DisputeRuns.PaidWhileDisputed` | contracts/treasury/src/disputes.rs:365-369 | a run in which the expiry kept by the release after one dispute lets a settlement be paid while its next dispute is Raised |
| `DisputeRuns.VoteLeavesHold` | contracts/treasury/src/disputes.rs:318-332 | a run in which a vote resolves the last dispute and the settlement stays OnHold |
| `DisputeRuns.ReleasedUnderDispute` | contracts/treasury/src/holds.rs:133-155 | a run in which a hold released by hand leaves a settlement Pending under an open dispute |
| `DisputeRuns.DisputedBeforeProposal` | contracts/treasury/src/disputes.rs:54-63 | a run in which a dispute raised before its settlement is proposed does not hold it |
| `DisputeRuns.PaidAfterDeadline` | contracts/treasury/src/settlements.rs:478-492 | a run in which a batch pays a settlement after its execution deadline |
| `GovernanceSafety.EmergencyNeedsEveryoneIff` | contracts/treasury/src/deposits.rs:206-259 | an emergency withdrawal needs every signer with weight if and only if the signer list is complete (or the contract is not paused, when it needs nobody because it fails) |
| `TreasuryLimits.EmergencyWithoutSigners` | contracts/treasury/src/deposits.rs:206-259 | a run after which, with a stale signer list, an emergency withdrawal succeeds without any signer |
| `TreasuryContract.MetricsAreTheScan` | contracts/treasury/src/settlements.rs:771-803 | on every run without batch execution buckets are the group-by of the index, as GetPendingMetrics returns them, if and only if they are the group-by of the scan of all settlements |
| `TreasuryContract.PendingReadIsTheScan` | contracts/treasury/src/settlements.rs:717-734 | on every such run the records GetPendingSettlements returns are, up to order, those of the scan |
| `DisputeSafety.SplitPaysExactly` | contracts/treasury/src/disputes.rs:252-263 | a successful split makes at most two positive payments that sum exactly to the disputed amount, the claimant's being the floor of its share |
| `TreasuryRuns.ResetKeepsDisputesIff` | contracts/treasury/src/lib.rs:41-85 | initialising keeps the dispute lists right if and only if no dispute had been raised before |
| `TreasuryLimits.EarlyDisputeIsOverwritten` | contracts/treasury/src/lib.rs:41-85 | a run in which a dispute raised before initialisation is overwritten by a later one with the same id |
| `BasisPoints.NetRefundIsExact` | contracts/invoice/src/refund.rs:181-236 | for all i128 inputs the breakdown succeeds exactly on positive gross, bps up to 10000 and a non-negative network fee, never overflows, and equals floor, min and max(0, ...) as documented |
| `BasisPoints.NetRefundAgreesWithApplyBps` | crates/protocol-math/src/lib.rs:52-56 | wherever the direct product fits in i128 the decomposed fee equals the shared helper's result |
| `BasisPoints.ProcessingFeeIsFloor` | contracts/invoice/src/refund.rs:195-207 | quotient and remainder parts stay in i128 and add up to floor(gross * bps / 10000) |
| `BasisPoints.FloorDecomposes` | contracts/invoice/src/refund.rs:195-207 | the identity behind the decomposition, for all integers |
| `BasisPoints.SplitIsExact` | crates/protocol-math/src/lib.rs:65-68 | a split succeeds exactly when the product fits, and its two non-negative parts sum to the amount |
| `BasisPoints.SplitIsMonotone` | crates/protocol-math/src/lib.rs:65-68 | a larger ratio never pays the first party less; 0 and 10000 give everything to one side |
| `VaultLedger.BalanceIsDepositsLessWithdrawals` | contracts/treasury/src/deposits.rs:62-116 | in every run, for every holder and token, the balance is what the holder deposited less what withdraw sent it, both summed over the successful calls |
| `VaultLedger.NobodyOverdraws` | contracts/treasury/src/deposits.rs:82-110 | in every run nobody withdraws more of a token than it deposited |
| `VaultLedger.VaultStepMoves` | contracts/treasury/src/deposits.rs:262-307 | a withdrawal lowers its receiver's balance and the total by exactly the amount, a deposit raises its depositor's, a batch by its sum per token, and every other balance, total and limit stays |
| `VaultLedger.VaultStepSends` | contracts/treasury/src/deposits.rs:156-181 | each call's transfer: to whom, in what token, how much and when, or none |
| `VaultLedger.VaultCallOkIff` | contracts/treasury/src/deposits.rs:20-116 | after any chronological run a vault call succeeds if and only if a condition on pause, amount, balance, destination and window holds; conservation leaves no other arithmetic failure |
| `VaultLedger.MeterIsByTheCalls` | contracts/treasury/src/deposits.rs:319-368 | in every chronological run the limit is the one set last, and each address's window starts and has used exactly what the successful calls sent in it |
| `PayoutRecipients.PayoutGoesToTheMerchant` | contracts/treasury/src/settlements.rs:414-424 | every transfer at every step of every run: full and batched ones send the whole amount to the payout address the merchant set last before, or to the merchant if none; partial ones the asked part to the merchant; in the token and at the time of the call |
| `PayoutRecipients.AddressIsTheLast` | contracts/treasury/src/settlements.rs:859-892 | in every run a merchant's stored payout address is the one of its last successful call, or none |
| `SettlementOutcomes.SettlementIsAsProposed` | contracts/treasury/src/settlements.rs:101-151 | in every run settlement n exists if and only if n proposals succeeded, and carries the merchant, amount, token, deadline and time of the n-th |
| `SettlementOutcomes.ApproverIffLastWord` | contracts/treasury/src/settlements.rs:170-334 | in every run a signer is among the approvers of a settlement if and only if its last successful call about it, proposal, batch and partial approvals included, was not a revocation |
| `SettlementOutcomes.MarginsAreByTheCalls` | contracts/treasury/src/holds.rs:36-155 | in every run the hold expiry is that of the last hold, gone after a release, single execution, cancellation or expiry; the partial sums are the parts approved and paid |
| `SettlementOutcomes.BookStepMakes` | contracts/treasury/src/settlements.rs:101-852 | what every call on the book makes of every settlement's whole record, repeated ids in batches included |
| `TreasuryCalls.BookCallOkIff` | contracts/treasury/src/settlements.rs:101-971 | after any run each of the 23 calls on settlements, holds, disputes and settings succeeds if and only if its condition on the state before holds |
| `TreasuryCalls.GovStepOkIff` | contracts/treasury/src/signers.rs:22-337 | the same for each of the 11 governance calls, in any state |
| `DisputeOutcomes.DisputeIsByTheCalls` | contracts/treasury/src/disputes.rs:40-333 | in every run initialised first dispute n is the n-th one raised, with its parties, amount and expiry; its voters, their weight when they voted, direction, status and split are exactly what the successful calls on it made: resolved for the side asked, by vote once the threshold is reached |
| `DisputeOutcomes.SplitsAreByTheCalls` | contracts/treasury/src/disputes.rs:227-275 | every step of every such run pays out of a dispute only by a successful split: the floored share of the amount raised to the claimant, the rest to the counterparty, in the token of the call |
| `DisputeOutcomes.DisputeStepSetsSettlement` | contracts/treasury/src/disputes.rs:338-372 | what a dispute call makes of every settlement: put on hold when raised against, off hold when its last dispute is closed, otherwise as before |
| `GovernanceOutcomes.RegistryIsByTheCalls` | contracts/treasury/src/signers.rs:22-308 | in every run every signer's weight and listing, the admin, threshold, pause and delay are what the last successful call about them made: an executed change does what its request asked, a completed rotation moves the weight the old signer had when it was proposed |
| `GovernanceOutcomes.RotationIsByTheCalls` | contracts/treasury/src/signers.rs:196-337 | in every run rotation n carries the signers of the n-th proposal and the old signer's weight at that time; backers, their weight and the end are what the calls on it made |
| `GovernanceOutcomes.ChangeIsByTheCalls` | contracts/treasury/src/timelock.rs:85-289 | in every run change n is what the n-th request asked for, due one delay in force later, and executed or cancelled if and only if a call did so |
| `GovernanceOutcomes.GovStepSets` | contracts/treasury/src/timelock.rs:169-251 | what every governance call makes of every signer's standing and of every rule; in an initial list the last weight given to an address wins |
| `GovernanceOutcomes.ProposalsAreAnHourApart` | contracts/treasury/src/signers.rs:204-216 | in every run two successful rotation proposals of one signer are an hour apart, or the second is at the largest time |
| `TreasuryContract.Treasury.Initialize` | contracts/treasury/src/lib.rs:41-85 | enrols admin and signers in a loop, listing each positive weight once, and resets the book's counters, exactly as specified |
| `TreasuryContract.Treasury.WriteSettlement` | contracts/treasury/src/lib.rs:150-186 | stores the record, clears the hold expiry of ended settlements and adds or filters the id in the pending index |
| `TreasuryContract.Treasury.ProposeSettlement` | contracts/treasury/src/settlements.rs:101-151 | new pending settlement with the proposer's approval, or the specified error with storage untouched |
| `TreasuryContract.Treasury.ApproveSettlement` | contracts/treasury/src/settlements.rs:170-197 | one approval recorded once, or the specified error with storage untouched |
| `TreasuryContract.Treasury.RevokeSettlementApproval` | contracts/treasury/src/settlements.rs:206-238 | the approval taken out and the current weight subtracted with saturation, or the specified error |
| `TreasuryContract.Treasury.BatchApproveSettlements` | contracts/treasury/src/settlements.rs:246-282 | the loop equals folding the single approval over the ids, skipping others, and returns the updated records of those that were pending; an overflow undoes all |
| `TreasuryContract.Treasury.ApprovePartialSettlement` | contracts/treasury/src/settlements.rs:288-334 | approval plus a checked running total within the amount, or the specified error |
| `TreasuryContract.Treasury.ExecuteSettlement` | contracts/treasury/src/settlements.rs:349-431 | the guards in order, one logged transfer to the payout address, status Executed |
| `TreasuryContract.Treasury.BatchExecuteSettlements` | contracts/treasury/src/settlements.rs:441-504 | the loop equals folding the ready-check over the ids, writing records directly, and returns the records it paid, once each, in order |
| `TreasuryContract.Treasury.PartiallyExecuteSettlement` | contracts/treasury/src/settlements.rs:545-609 | one logged partial transfer and status PartiallyExecuted, or the specified error |
| `TreasuryContract.Treasury.BatchCancelSettlements` | contracts/treasury/src/settlements.rs:644-667 | the loop equals folding the cancellation over the ids and returns exactly the ids that were pending, once each, in order |
| `TreasuryContract.Treasury.GetPendingSettlements` | contracts/treasury/src/settlements.rs:717-734 | the records behind the index, in index order |
| `TreasuryContract.Treasury.GetPendingMetrics` | contracts/treasury/src/settlements.rs:771-803 | the buckets are the group-by of the index: one per token, with its count and exact sum; it fails exactly when some token's sum leaves i128 |
| `TreasuryContract.Treasury.HoldSettlement` | contracts/treasury/src/holds.rs:36-83 | OnHold with reason and optional expiry unless an active hold exists |
| `TreasuryContract.Treasury.FindOpenDispute` | contracts/treasury/src/disputes.rs:338-364 | the while loop finds an open dispute if and only if there is one |
| `TreasuryContract.Treasury.ReleaseHoldIfNoOpenDisputes` | contracts/treasury/src/disputes.rs:338-372 | back to Pending exactly when on hold with no open dispute, leaving the hold expiry |
| `TreasuryContract.Treasury.RaiseSettlementDispute` | contracts/treasury/src/disputes.rs:40-104 | new Raised dispute under the returned next id, its list entry, and a Pending settlement put on hold |
| `TreasuryContract.Treasury.ExpireSettlementDispute` | contracts/treasury/src/disputes.rs:112-136 | closes an overdue dispute and releases the hold if it was the last |
| `TreasuryContract.Treasury.ResolveSettlementDispute` | contracts/treasury/src/disputes.rs:176-208 | closes a dispute for one side and releases the hold if it was the last |
| `TreasuryContract.Treasury.ResolveDisputeSplit` | contracts/treasury/src/disputes.rs:227-274 | pays the two shares and closes the dispute, or the overflow error |
| `TreasuryContract.Treasury.VoteDisputeResolution` | contracts/treasury/src/disputes.rs:280-333 | one vote per signer in the fixed direction, resolving at the threshold without touching the settlement |
| `TreasuryContract.Treasury.GetDisputesBySettlement` | contracts/treasury/src/disputes.rs:150-167 | the records behind the settlement's dispute list |
| `TreasuryContract.Treasury.EnforceWithdrawalLimit` | contracts/treasury/src/deposits.rs:319-368 | charges a running or a fresh window, or the limit error |
| `TreasuryContract.Treasury.DepositTokens` | contracts/treasury/src/deposits.rs:262-307 | balance and total raised by the amount, both checked |
| `TreasuryContract.Treasury.BatchDepositTokens` | contracts/treasury/src/deposits.rs:42-57 | the loop equals folding single deposits; an error undoes all |
| `TreasuryContract.Treasury.WithdrawTokens` | contracts/treasury/src/deposits.rs:62-116 | window charged, balance and total lowered, one logged outflow, or the first failing guard's error |
| `TreasuryContract.Treasury.EmergencyWithdraw` | contracts/treasury/src/deposits.rs:206-259 | the loop accepts exactly when every listed signer with weight is supplied, while paused |
| `TreasuryContract.Treasury.AddToBuckets` | contracts/treasury/src/settlements.rs:788-801 | one settlement added to its token's bucket, or an error exactly when that token's sum overflows |
| `TreasuryContract.Treasury.DrainTokens` | contracts/treasury/src/deposits.rs:156-181 | the reported balance sent while paused, charged to the recipient's window |
| `TreasuryContract.Treasury.SetSignerWeight` | contracts/treasury/src/signers.rs:22-47 | weight stored and signer listed once |
| `TreasuryContract.Treasury.RemoveRegisteredSigner` | contracts/treasury/src/signers.rs:88-136 | the saturating sum loop decides, then weight and list entry go |
| `TreasuryContract.Treasury.SumListedWeights` | contracts/treasury/src/admin.rs:19-24 | the u32 sum of listed weights, failing exactly when it overflows |
| `TreasuryContract.Treasury.StoreThreshold` | contracts/treasury/src/timelock.rs:212-226 | non-zero and reachable, or the specified error |
| `TreasuryContract.Treasury.ChangeThreshold` | contracts/treasury/src/admin.rs:12-34 | the same for the admin's direct update |
| `TreasuryContract.Treasury.ProposeSignerRotation` | contracts/treasury/src/signers.rs:196-246 | cooldown, returned next id, proposer's approval and captured weight |
| `TreasuryContract.Treasury.ApproveSignerRotation` | contracts/treasury/src/signers.rs:257-308 | approval recorded; at the threshold the weights are swapped and the list is left alone |
| `TreasuryContract.Treasury.ProposeSignerChange` | contracts/treasury/src/timelock.rs:85-131 | change queued under the returned next id with the delay in force, delay bounds checked |
| `TreasuryContract.Treasury.ExecuteSignerChange` | contracts/treasury/src/timelock.rs:146-251 | a due pending change applied by kind and finalised, or the specified error |
| `TreasuryContract.Treasury.ListPendingSignerChanges` | contracts/treasury/src/timelock.rs:307-337 | the scan loop returns exactly the page: the first pending changes above the start, up to the capped limit |
| `InvoicePayer.MerchantNeverPays` | contracts/invoice/src/entrypoints/lifecycle.rs:68-133 | in every run with no transfer to the invoice's merchant no invoice has its merchant as payer |
| `InvoicePayer.TransferKeepsPayersIff` | contracts/invoice/src/entrypoints/transfer.rs:30-67 | a transfer keeps payers different from merchants if and only if it does not go to the merchant |
| `InvoicePayer.HandedToMerchant` | contracts/invoice/src/entrypoints/transfer.rs:30-67 | a run after which an invoice is recorded as paid by its merchant |
| `InvoiceRuns.IndexesAreFilters` | contracts/invoice/src/lib.rs:38-62 | in every run initialised before its first invoice, the pending index is the ascending filter of all ids for Pending and each merchant's index entries spell out the ascending filter for that merchant |
| `InvoiceRuns.NoncesAreUnique` | contracts/invoice/src/entrypoints/lifecycle.rs:21-66 | in every run initialised before its first invoice, two invoices of one merchant never share a non-zero nonce |
| `InvoiceRuns.TerminalStays` | contracts/invoice/src/invoice.rs:73-83 | in every run initialised before its first invoice, an invoice in a terminal status has the same record at every later point of the run |
| `InvoiceRuns.RunEvolves` | contracts/invoice/src/entrypoints/lifecycle.rs:68-327 | between any two points of such a run invoices keep merchant and nonce and terminal ones are frozen |
| `InvoiceRuns.PaymentEvidence` | contracts/invoice/src/entrypoints/lifecycle.rs:68-133 | in every run initialised before its first invoice, payer and payment time are recorded exactly in Paid, RefundRequested, Released and Refunded, and 1 USDC <= amount <= gross |
| `InvoiceRuns.NeverInconsistent` | contracts/invoice/src/refund.rs:90-101 | no call in any run initialised before its first invoice fails with PaymentStateInconsistent |
| `InvoiceRuns.AuditLogExplains` | contracts/invoice/src/lib.rs:86-99 | in every such chronological run with distinct ids in batch cancellations, every history starts at Pending, follows the status graph entry to entry, has non-decreasing times and ends in the current status |
| `InvoiceRuns.NeverReleasedAndRefunded` | contracts/invoice/src/entrypoints/refund.rs:22-199 | in those runs no history contains both a release and a refund |
| `InvoiceHistory.BatchCancelAuditsIff` | contracts/invoice/src/entrypoints/batch.rs:183-212 | a successful batch cancellation keeps all histories right if and only if it names no id twice |
| `InvoiceRuns.RepeatedCancelLogsTwice` | contracts/invoice/src/entrypoints/batch.rs:183-212 | a run in which a repeated id is logged as cancelled twice |
| `InvoiceHistory.TerminalIsLast` | contracts/invoice/src/invoice.rs:73-83 | a terminal status occurs in a history only as its last entry |
| `InvoiceHistory.CallStepAudits` | contracts/invoice/src/entrypoints/batch.rs:133-215 | every call keeps every history an explanation of the current status, a batch cancellation if its ids are distinct |
| `InvoiceBatch.BatchEqualsSequence` | contracts/invoice/src/entrypoints/batch.rs:19-124 | a batch succeeds exactly when the contract is not paused and creating each element in turn succeeds, with the same final ledger |
| `InvoiceBatch.PausedSequenceFails` | contracts/invoice/src/entrypoints/batch.rs:19-26 | on a paused contract a non-empty sequence fails with the batch's error |
| `InvoiceSafety.CallStepKeeps` | contracts/invoice/src/entrypoints/lifecycle.rs:21-327 | each call keeps indexes, nonces, payment evidence, amounts and breakdowns right |
| `InvoiceSafety.InitializeKeepsIff` | contracts/invoice/src/entrypoints/admin.rs:15-24 | initialising keeps the invariant if and only if no invoice had been created before |
| `InvoiceRuns.EarlyInvoiceIsOverwritten` | contracts/invoice/src/entrypoints/admin.rs:15-24 | a run in which an invoice created before initialisation is overwritten and its id indexed twice |
| `InvoiceRuns.KeeperIsBounded` | contracts/invoice/src/entrypoints/template.rs:205-258 | in every chronological run, with repeated ids and late calls, keeper-made invoices of a template never exceed floor((now - created) / period), and the next run is creation plus a whole number of periods, more than were used, unless saturated |
| `InvoiceKeeper.AdvanceIsLeast` | contracts/invoice/src/entrypoints/template.rs:239-250 | the advanced time is the least point of the schedule above now unless it saturates, which needs now + period beyond u64 |
| `InvoiceKeeper.FireKeepsSchedule` | contracts/invoice/src/entrypoints/template.rs:205-258 | one keeper run uses one more whole period and leaves the next run on schedule |
| `InvoiceKeeper.CallStepSchedules` | contracts/invoice/src/entrypoints/template.rs:27-258 | every call keeps every template's schedule, also at saturation |
| `InvoiceContract.AdvanceSchedule` | contracts/invoice/src/entrypoints/template.rs:239-250 | the inner while loop terminates with the closed form of the schedule |
| `RefundRuns.BreakdownPays` | contracts/invoice/src/entrypoints/refund.rs:146-199 | in every run initialised first a stored breakdown belongs to a Refunded invoice and is computed from its amount, the rate of the one call that processed it and the network fee last set before that call (100 if none): floored fee, capped network fee, and it pays at most the amount |
| `RefundRuns.FeeIsTheLast` | contracts/invoice/src/entrypoints/admin.rs:279-291 | in every run the network fee in force is the one of the last successful call, or 100, and lies within its bounds |
| `InvoiceCalls.RefundStepSets` | contracts/invoice/src/entrypoints/refund.rs:22-314 | what each refund call makes of the invoice, the breakdowns and the fees: a processed refund stores gross, floored fee, capped network fee and net for the rate of the call |
| `InvoiceCalls.RateTooHighIsRefused` | contracts/invoice/src/entrypoints/refund.rs:173-177 | a rate above 100% fails with RefundFeeTooHigh once everything checked before it is in order |
| `KeeperRuns.KeeperRunsExactlyTheDueOfRuns` | contracts/invoice/src/entrypoints/template.rs:205-258 | after any chronological run a keeper call makes one invoice for a template if and only if it is named, stored, active and due before the call, repeated ids included, and otherwise none |
| `KeeperRuns.KeeperMakesAsAsked` | contracts/invoice/src/entrypoints/template.rs:221-250 | a keeper call makes one invoice per reported run, numbered in turn, and no other; each has its template's merchant, amounts, hashes and duration |
| `KeeperRuns.OnDemandMakesAsAsked` | contracts/invoice/src/entrypoints/template.rs:158-189 | a merchant gets one invoice of its own active template, and the schedule stays |
| `KeeperRuns.DeactivatedIsLeftAlone` | contracts/invoice/src/entrypoints/template.rs:128-150 | in every chronological run the keeper makes no invoice of a template from a point at which it is off until it is switched on |
| `KeeperRuns.KeeperOkIff` | contracts/invoice/src/entrypoints/template.rs:205-258 | a keeper call succeeds if and only if the contract is not paused, at most 20 ids are named and the invoices to make have room |
| `InvoiceCreation.CreateStores` | contracts/invoice/src/entrypoints/lifecycle.rs:21-66 | a created invoice gets the next number, holds merchant, amounts, hashes, nonce and token as asked, expires as asked, and no other invoice changes |
| `InvoiceCreation.CreateEachStores` | contracts/invoice/src/entrypoints/batch.rs:79-122 | the i-th element of a batch gets the i-th next number and holds what was asked |
| `InvoiceCreation.CreateOkIff` | contracts/invoice/src/validation.rs:32-84 | a creation in a sound ledger succeeds if and only if it is unpaused, its amounts, hashes and duration are within bounds and its nonce is new |
| `InvoiceCreation.BatchCreateOkIff` | contracts/invoice/src/entrypoints/batch.rs:19-75 | a batch succeeds if and only if every element is valid and no non-zero nonce is used before or twice in it |
| `InvoiceCalls.StatusStepSets` | contracts/invoice/src/entrypoints/lifecycle.rs:68-275 | what each payment, release, cancellation and expiry, single or batched, makes of every invoice |
| `InvoiceCalls.EditStepSets` | contracts/invoice/src/entrypoints/lifecycle.rs:276-327 | what each amendment, extension and transfer makes of every invoice |
| `InvoiceCalls.TemplateStores` | contracts/invoice/src/entrypoints/template.rs:27-82 | a new template gets the next number, is active, holds what was asked and is due one period later |
| `InvoiceOutcomes.CallOkIff` | contracts/invoice/src/entrypoints/lifecycle.rs:21-327 | after any chronological run initialised first each call on the contract succeeds if and only if its condition on the state before holds |
| `InvoiceContract.Invoices.PendingIndexAdd` | contracts/invoice/src/lib.rs:38-46 | the id appended, nothing else changed |
| `InvoiceContract.Invoices.PendingIndexRemove` | contracts/invoice/src/lib.rs:48-62 | the rebuilt index is the old one without the id |
| `InvoiceContract.Invoices.AppendHistory` | contracts/invoice/src/lib.rs:86-99 | one transition appended |
| `InvoiceContract.Invoices.CreateInvoiceRecord` | contracts/invoice/src/entrypoints/lifecycle.rs:403-470 | id, nonce, record and both index entries written, or an overflow error with storage untouched |
| `InvoiceContract.Invoices.CreateInvoice` | contracts/invoice/src/entrypoints/lifecycle.rs:21-66 | all guards in order and then the record under the returned next id, or the first failing guard's error |
| `InvoiceContract.Invoices.MarkInvoicePaid` | contracts/invoice/src/entrypoints/lifecycle.rs:68-133 | Pending to Paid before the deadline with grace, payer and time set |
| `InvoiceContract.Invoices.GetInvoicesByMerchant` | contracts/invoice/src/entrypoints/lifecycle.rs:333-357 | on every reachable ledger the page is the requested slice of the filter of all ids for the merchant |
| `InvoiceContract.Invoices.CheckBatch` | contracts/invoice/src/entrypoints/batch.rs:27-49 | the validation loop gives the first failing element's error, nonces within the batch included |
| `InvoiceContract.Invoices.CreateBatchElement` | contracts/invoice/src/entrypoints/batch.rs:62-121 | the batch's own writes have the effect of single creation |
| `InvoiceContract.Invoices.BatchCreateInvoice` | contracts/invoice/src/entrypoints/batch.rs:19-124 | check everything, then write everything; returns consecutive ids; an error undoes all |
| `InvoiceContract.Invoices.BatchExpireInvoices` | contracts/invoice/src/entrypoints/batch.rs:133-160 | the loop equals folding the due-check over the ids and returns how many distinct named invoices were due |
| `InvoiceContract.Invoices.ReadPending` | contracts/invoice/src/entrypoints/batch.rs:182-197 | the first pass reads every record or gives the first error |
| `InvoiceContract.Invoices.BatchCancelInvoices` | contracts/invoice/src/entrypoints/batch.rs:169-215 | the second pass equals folding the cancellation over the ids |
| `InvoiceContract.Invoices.ExtendInvoiceExpiry` | contracts/invoice/src/entrypoints/admin.rs:239-272 | later expiry of a pending invoice, or the overflow error |
| `InvoiceContract.Invoices.TransferInvoice` | contracts/invoice/src/entrypoints/transfer.rs:30-67 | the payer of a paid invoice replaced and nothing else |
| `InvoiceContract.Invoices.RequestInvoiceRefund` | contracts/invoice/src/entrypoints/refund.rs:22-74 | Paid to RefundRequested within the window, request time stored |
| `InvoiceContract.Invoices.ApproveInvoiceRefund` | contracts/invoice/src/entrypoints/refund.rs:86-113 | RefundRequested to Refunded by the admin |
| `InvoiceContract.Invoices.ProcessInvoiceRefund` | contracts/invoice/src/entrypoints/refund.rs:146-199 | breakdown stored and returned, RefundRequested to Refunded, or the first failing guard's error |
| `InvoiceContract.Invoices.RejectInvoiceRefund` | contracts/invoice/src/entrypoints/refund.rs:288-314 | RefundRequested back to Paid |
| `InvoiceContract.Invoices.RegisterTemplate` | contracts/invoice/src/entrypoints/template.rs:27-82 | template stored under the returned next id with its first run one period ahead and indexed for its merchant |
| `InvoiceContract.Invoices.GenerateOnDemand` | contracts/invoice/src/entrypoints/template.rs:158-189 | one invoice, under the returned next id, outside the schedule for an active template of the merchant |
| `InvoiceContract.Invoices.GenerateDueInvoices` | contracts/invoice/src/entrypoints/template.rs:205-258 | the keeper loop equals folding the due-check over the ids and returns the number of invoices created; an error undoes all |
| `ComplianceRuns.IndexIsFlat` | contracts/compliance/src/lib.rs:1679-1734 | in every run the pages concatenate to a duplicate-free sequence of AddrIndexCount <= 2000 addresses, slot i lies on page i / 25 at i % 25, pages before the last are full, and the markers are exactly its elements |
| `ComplianceRuns.IndexOnlyGrows` | contracts/compliance/src/lib.rs:1679-1710 | an earlier index is a prefix of every later one in the run |
| `ComplianceIndex.TrackAppends` | contracts/compliance/src/lib.rs:1679-1710 | tracking a new address appends it to the concatenation of the pages |
| `ComplianceIndex.SlotAt` | contracts/compliance/src/lib.rs:1448-1460 | the page arithmetic finds the element of the flat sequence |
| `ComplianceIndex.PagesTile` | contracts/compliance/src/lib.rs:1427-1468 | consecutive snapshot pages concatenate to the longer page, for every start, limits and state filter |
| `ComplianceRuns.FlaggedAreTracked` | contracts/compliance/src/lib.rs:257-1058 | in every run each address with an allow or block flag, an expiry of either, or a tier is tracked; the tracked addresses are exactly those with a history, of 1 to 10 entries |
| `ComplianceRuns.HistoryIsNewest` | contracts/compliance/src/lib.rs:1740-1759 | along every chronological run the stored history is the newest ten of all changes ever recorded for the address, oldest first, in time order |
| `ComplianceIndex.CallStepKeeps` | contracts/compliance/src/lib.rs:244-1391 | every call keeps index, membership, flags and histories in agreement and only extends the index and the log |
| `ComplianceSweep.SweepClearsTheFirst` | contracts/compliance/src/lib.rs:1345-1391 | a sweep clears exactly the first min(limit, n) of the n lapsed allows in index order, all when the limit is 0, and returns their number; the lapsed list has every lapsed address once |
| `ComplianceSweep.SweepLeavesTheRest` | contracts/compliance/src/lib.rs:1345-1391 | per address: swept allows are off with no expiry, all other allows and all blocks are as before |
| `ComplianceSweep.SweepIsUnobservable` | contracts/compliance/src/lib.rs:388-421 | a sweep changes the allow decision for no address and no time from now on |
| `ComplianceSweep.UnlimitedSweepIsComplete` | contracts/compliance/src/lib.rs:1345-1391 | after an unlimited sweep no address anywhere has a lapsed allow |
| `ComplianceSweep.SweepsAddUp` | contracts/compliance/src/lib.rs:1324-1391 | limited sweeps in a row leave exactly the state in which the first sum-of-limits lapsed allows were cleared in order, history and counter included |
| `ComplianceSweep.LimitedSweepsReachUnlimited` | contracts/compliance/src/lib.rs:1324-1391 | they reach the state of one unlimited sweep if and only if their limits sum to at least the number of lapsed allows |
| `ComplianceSweep.ZeroMeansDone` | contracts/compliance/src/lib.rs:1324-1391 | once a limited sweep returns 0 the state is that of one unlimited sweep |
| `ComplianceRuns.SweepsAreInvisible` | contracts/compliance/src/lib.rs:388-421 | removing all sweeps from any chronological run changes no allow decision at its end or later, whatever other calls follow each sweep |
| `ComplianceRuns.CallStepAlike` | contracts/compliance/src/lib.rs:257-1058 | any other call succeeds or fails alike in a swept and an unswept state and leaves them alike |
| `ComplianceSweep.DecisionsAgree` | contracts/compliance/src/lib.rs:353-421 | the allow-first decision equals the documented block-first precedence; a snapshot says Allowed exactly when also no block flag is set, and Expired exactly for unblocked lapsed allows |
| `ComplianceSweep.BlockHoldsIff` | contracts/compliance/src/lib.rs:694-715 | a block without expiry refuses the address at all times if and only if no earlier block expiry is stored, the address is not allowed, or the allow ends by that expiry |
| `ComplianceRuns.StaleExpiryLiftsBlock` | contracts/compliance/src/lib.rs:694-748 | a run in which such a block, placed after a temporary one lapsed, leaves the address allowed |
| `BlocklistProof.ListedIsAccepted` | contracts/compliance/src/lib.rs:1126-1146 | every listed address has a proof the contract accepts, for any hash and any tree shape |
| `BlocklistProof.AcceptedIsListed` | contracts/compliance/src/lib.rs:1126-1146 | without hash collisions an accepted proof belongs to a listed address |
| `BlocklistProof.BlockedIffListed` | contracts/compliance/src/lib.rs:1099-1146 | without hash collisions, some proof gets an address refused if and only if it is flagged or listed under the committed root |
| `ComplianceDecisions.DecisionIsByTheCalls` | contracts/compliance/src/lib.rs:388-421 | after any chronological run, now or later, an address is allowed if and only if the successful calls that named it left an allowance that has not run out and no block that still stands; sweeps do not count |
| `ComplianceDecisions.LastNamingCallDecides` | contracts/compliance/src/lib.rs:468-1058 | in every run that standing stays what the last successful call naming the address made it |
| `ComplianceDecisions.DecisionIsByTheLast` | contracts/compliance/src/lib.rs:353-421 | after any chronological run, now or later, the decision is what the last naming call makes of the standing before it: none after a revocation, without a standing block after an allow, besides only before its end after a temporary one, always after a clear |
| `ComplianceDecisions.RevokedIsRefused` | contracts/compliance/src/lib.rs:1044-1058 | an address whose last naming call revoked its allowance is refused at all later times |
| `ComplianceDecisions.ClearedIsAllowed` | contracts/compliance/src/lib.rs:974-1039 | an address whose last naming call cleared it is allowed at all later times |
| `ComplianceDecisions.DecisionIsTheStanding` | contracts/compliance/src/lib.rs:353-421 | the decision in any state: an allowance that has not run out and no block that still stands |
| `ComplianceDecisions.CallStepSets` | contracts/compliance/src/lib.rs:257-1058 | what every call makes of the allowance, block, tier and provenance of every address, repeated ones in a batch included; addresses not named keep theirs |
| `ComplianceDecisions.SweepSets` | contracts/compliance/src/lib.rs:1345-1391 | a sweep takes only allowances that have run out and changes nothing else |
| `ComplianceDecisions.LapsedIsRunOut` | contracts/compliance/src/lib.rs:1355-1368 | a sweep looks for exactly the allowances that have run out |
| `ComplianceDecisions.MarkStepCounts` | contracts/compliance/src/lib.rs:468-498 | the counter counts plain allows and clears of addresses not yet allowed, up to its maximum; other single calls leave it |
| `ComplianceDecisions.RoleStepSets` | contracts/compliance/src/lib.rs:1178-1294 | each role call sets its own setting and no other; the operator set gains or loses exactly the one named |
| `ComplianceDecisions.CallOkIff` | contracts/compliance/src/lib.rs:244-1294 | after any run each call succeeds if and only if its condition on roles, pause, cooldown, batch size and room in the index holds |
| `ComplianceDecisions.CallStepLogs` | contracts/compliance/src/lib.rs:1740-1759 | each call logs one change per address it marks, in order, with status, time and caller |
| `BlocklistProof.CombineSorts` | contracts/compliance/src/lib.rs:1126-1146 | the smaller digest is hashed first, whichever side it comes from |
| `ComplianceContract.Compliance.TrackAddress` | contracts/compliance/src/lib.rs:1679-1710 | marker, tail page and counter written for a new address, nothing for a known one, an error when full |
| `ComplianceContract.Compliance.ReadIndex` | contracts/compliance/src/lib.rs:1715-1734 | the nested loops rebuild the flat index |
| `ComplianceContract.Compliance.AppendStatusHistory` | contracts/compliance/src/lib.rs:1740-1759 | the trimming loop leaves the newest nine and appends one |
| `ComplianceContract.Compliance.Allow` | contracts/compliance/src/lib.rs:468-498 | allowed without expiry, counter, history and slot, or the specified error |
| `ComplianceContract.Compliance.AllowTier` | contracts/compliance/src/lib.rs:509-531 | the same with a tier and without the counter |
| `ComplianceContract.Compliance.AllowTemporarily` | contracts/compliance/src/lib.rs:831-852 | allowed with an expiry, past ones accepted |
| `ComplianceContract.Compliance.BulkAllowAddresses` | contracts/compliance/src/lib.rs:257-296 | cooldown and size guards, then the loop equals folding the single allow; an error undoes all |
| `ComplianceContract.Compliance.Block` | contracts/compliance/src/lib.rs:694-748 | blocked by admin or operator, provenance recorded, a stored expiry replaced only when one is given |
| `ComplianceContract.Compliance.BulkBlockAddresses` | contracts/compliance/src/lib.rs:649-672 | cooldown and size guards, then the loop equals folding the single block; an error undoes all |
| `ComplianceContract.Compliance.Clear` | contracts/compliance/src/lib.rs:974-1039 | block, provenance, expiries and tier removed and the address allowed; an operator only for a block of its own |
| `ComplianceContract.Compliance.Revoke` | contracts/compliance/src/lib.rs:1044-1058 | allow and its expiry removed |
| `ComplianceContract.Compliance.MayOperate` | contracts/compliance/src/lib.rs:1580-1608 | the loop accepts exactly the admin, a member of the operator set, or the legacy operator |
| `ComplianceContract.Compliance.EnrollOperator` | contracts/compliance/src/lib.rs:1227-1250 | added once, at most ten |
| `ComplianceContract.Compliance.DismissOperator` | contracts/compliance/src/lib.rs:1266-1294 | the set without the operator, untouched if absent |
| `ComplianceContract.Compliance.SweepLapsed` | contracts/compliance/src/lib.rs:1345-1391 | the loop with its early stop gives the specified state and count |
| `ComplianceContract.Compliance.BulkCheckAddresses` | contracts/compliance/src/lib.rs:304-321 | one decision per address in input order, or an error exactly above 50 |
| `ComplianceContract.Compliance.ExportSnapshotPage` | contracts/compliance/src/lib.rs:1427-1468 | for all u64 arguments the nested page loops return the slice of the flat index with states, filtered by the wanted state |
| `ComplianceContract.Compliance.CheckBlocklist` | contracts/compliance/src/lib.rs:1126-1146 | block flag, or the folded proof equals the committed root |
| `TreasuryContract.Treasury.CancelSettlement` | contracts/treasury/src/settlements.rs:615-637 | Pending to Cancelled, or the specified error |
| `TreasuryContract.Treasury.ForceCancelSettlement` | contracts/treasury/src/settlements.rs:688-711 | Pending or OnHold to Cancelled by the admin |
| `TreasuryContract.Treasury.ExpireSettlement` | contracts/treasury/src/settlements.rs:823-852 | Pending to Expired strictly after the expiry, with the overflow error |
| `TreasuryContract.Treasury.ReleaseSettlementHold` | contracts/treasury/src/holds.rs:133-155 | OnHold to Pending with the expiry removed |
| `TreasuryContract.Treasury.CancelSignerRotation` | contracts/treasury/src/signers.rs:314-337 | pending rotation cancelled by the admin |
| `TreasuryContract.Treasury.CancelSignerChange` | contracts/treasury/src/timelock.rs:261-289 | pending change cancelled by the admin |
| `InvoiceContract.Invoices.ReleaseEscrow` | contracts/invoice/src/entrypoints/lifecycle.rs:138-159 | Paid to Released by the admin |
| `InvoiceContract.Invoices.CancelInvoice` | contracts/invoice/src/entrypoints/lifecycle.rs:246-272 | Pending to Cancelled by merchant or admin |
| `InvoiceContract.Invoices.AmendInvoice` | contracts/invoice/src/entrypoints/lifecycle.rs:276-327 | amounts and expiry of a pending invoice replaced |

## Left out

- The Soroban host: storage lifetimes, encoding, budgets, event publication and signature checks.
- contracts/settlement-workflow: forwards to treasury and compliance; its joint pause is host rollback.
- Admin handovers of all three contracts, and the settings that no modelled call reads (invoice late fee and open-invoice caps, tier limits, jurisdictions, pause and block reasons, labels, memos, schema version).
- Deposit references, merchant settlement index and payout-address history of the treasury: no property here depends on them. `emergency_withdraw` writes no storage and is modelled by its guard and amount, outside the runs.
- Agreement of the payer index with the current payer: `transfer_invoice` does not migrate it, so the index is not modelled.
- `BlockCount` in compliance: it is never incremented. `AllowCount` is modelled as stored; it has no invariant over runs, since two allow paths skip it.
- Plain getters and the paged reads not listed above, among them `export_snapshot`, the older u32 form of the snapshot page.
- Setters that write one field after a guard (pause flags, withdrawal limit, expiry, token list, payout address, grace and refund windows, network fee, template switch, legacy operator, blocklist root) are steps of the runs but have no class method.
- Error codes: the theorems say exactly when a call fails; with which error, in the source's order of guards, is stated by the specification functions and through them by the class methods.
- Return values that repeat the stored record are modelled as success only.
- The counters of scan loops and metric buckets are unbounded: the wrap of a u64 counter after 2^64 - 1 records is not modelled.
- GovernanceSafety.ChainListsAll: requires fewer than 2^64 - 1 changes, because the page start saturates at the last id.
- TreasuryRuns.OutflowIsCapped: bounds what is sent per address over all tokens together, as the window does; solvency against the real token balance is not a property of this contract.
- TreasuryRuns.EveryPayoutIsBacked: requires that no revoking signer of that settlement had lost weight since it approved; without this the claim is false (`PaidWithoutApprovers`).
- InvoiceKeeper.AdvanceIsLeast: when the addition overflows the schedule stays at the largest time, which is not a point of it.
- BlocklistProof.AcceptedIsListed: assumes a collision-free hash on unbounded digests; a 32-byte hash is only practically so.
- The order of hash inputs in scripts/build-blocklist-merkle.py, which describes a different tree from the contract's sorted pairs.
- InvoiceRuns.IndexesAreFilters: requires, as do the other invoice theorems about indexes, evidence and history, that no invoice was created before `initialize`; without this the claims are false (`EarlyInvoiceIsOverwritten`), and the condition is exact (`InitializeKeepsIff`).
- TreasuryRuns.DisputeListIsTheScan: requires, as do the other theorems about the disputes of a run, that no dispute was raised before `initialize`; without this it is false (`EarlyDisputeIsOverwritten`), and the condition is exact (`ResetKeepsDisputesIff`).
- InvoiceRuns.AuditLogExplains: requires distinct ids in each batch cancellation; without this it is false (`RepeatedCancelLogsTwice`), and the condition is exact (`BatchCancelAuditsIff`).
- ComplianceContract.Compliance.ExportSnapshotPage: requires well-formed pages, which every run has (`IndexIsFlat`).
- DisputeRuns.DisputedIsOnHold: requires that no hold is released by hand under an open dispute and no dispute names a settlement not yet proposed; without either it is false (`ReleasedUnderDispute`, `DisputedBeforeProposal`), and for one call each condition is exact (`ReleaseHoldHoldsIff`, `RaiseHoldsIff`).
- InvoicePayer.MerchantNeverPays: requires that no invoice is transferred to its merchant; without this it is false (`HandedToMerchant`), and the condition is exact (`TransferKeepsPayersIff`).
- TreasuryRuns.ThresholdStaysReachable: covers the three calls that check the listed weight; the others have their exact conditions in `QueuedChangeReachableIff`, `SetSignerReachableIff` and `SwapReachableIff`.
