/**
 Settlements, holds and disputes (contracts/treasury/src/settlements.rs, holds.rs, disputes.rs and
 `write_settlement` in lib.rs). Every function is one call on the settlement book, reading the
 governance records; `Err` means the call rolled back. A pinned compliance contract is represented
 by its answer, the `cleared` argument, which is true when none is pinned.
 */
module SettlementSpec {
  import opened Common
  import opened BasisPoints
  import opened TreasuryTypes
  import opened Multisig

  type Outcome = Result<Book, TreasuryError>

  // ----- records -----

  predicate Live(status: SettlementStatus) { status.Pending? || status.OnHold? }

  predicate ClearsHold(status: SettlementStatus) { status.Executed? || status.Cancelled? || status.Expired? }

  function Find(b: Book, id: nat): Result<Settlement, TreasuryError> {
    if id in b.settlements then Ok(b.settlements[id]) else Err(SettlementNotFound)
  }

  function FindPending(b: Book, id: nat, error: TreasuryError): Result<Settlement, TreasuryError> {
    var st :- Find(b, id);
    if st.status.Pending? then Ok(st) else Err(error)
  }

  /** The pending index after settlement `id` was written with the given pending flag. */
  function Reindex(index: seq<nat>, id: nat, pending: bool): seq<nat> {
    if pending && id !in index then index + [id]
    else if !pending && id in index then Without(index, id)
    else index
  }

  function WriteSettlement(b: Book, id: nat, st: Settlement): Book {
    b.(settlements := b.settlements[id := st],
       holdExpiry := if ClearsHold(st.status) then b.holdExpiry - {id} else b.holdExpiry,
       pendingIndex := Reindex(b.pendingIndex, id, st.status.Pending?))
  }

  function TallyOf(st: Settlement): Tally { Tally(st.approvals, st.approvalWeight) }

  function WithTally(st: Settlement, t: Tally): Settlement {
    st.(approvals := t.approvals, approvalWeight := t.weight)
  }

  // ----- proposing and approving -----

  function Propose(g: Governance, b: Book, now: u64, signer: Address, merchant: Address, amount: i128,
                   token: Option<Address>, deadline: u64, cleared: bool): Outcome {
    var _ :- RequireNotPaused(g);
    var _ :- RequireSigner(g, signer);
    var _ :- Need(amount > 0, InvalidAmount);
    var _ :- Need(cleared, ComplianceCheckFailed);
    var id :- CheckedSucc(b.settlementCount);
    var t :- RecordApproval(g, Tally([], 0), signer);
    var st := Settlement(id, merchant, amount, t.approvals, t.weight, Pending, NoHold, now, deadline, token);
    Ok(WriteSettlement(b, id, st).(settlementCount := id))
  }

  function Approve(g: Governance, b: Book, signer: Address, id: nat): Outcome {
    var _ :- RequireNotPaused(g);
    var _ :- RequireSigner(g, signer);
    var st :- FindPending(b, id, AlreadyExecuted);
    var t :- RecordApproval(g, TallyOf(st), signer);
    Ok(WriteSettlement(b, id, WithTally(st, t)))
  }

  function Revoke(g: Governance, b: Book, signer: Address, id: nat): Outcome {
    var _ :- RequireNotPaused(g);
    var _ :- RequireSigner(g, signer);
    var st :- FindPending(b, id, AlreadyExecuted);
    match RevokeApproval(g, TallyOf(st), signer)
    case None => Err(ApprovalNotFound)
    case Some(t) => Ok(WriteSettlement(b, id, WithTally(st, t)))
  }

  /** One element of a batch approval: unknown and non-pending ids are skipped. */
  function ApproveIfPending(g: Governance, b: Book, signer: Address, id: nat): Outcome {
    if id in b.settlements && b.settlements[id].status.Pending? then
      var t :- RecordApproval(g, TallyOf(b.settlements[id]), signer);
      Ok(WriteSettlement(b, id, WithTally(b.settlements[id], t)))
    else Ok(b)
  }

  function ApproveEach(g: Governance, b: Book, signer: Address, ids: seq<nat>): Outcome {
    if ids == [] then Ok(b)
    else
      var b' :- ApproveEach(g, b, signer, ids[..|ids| - 1]);
      ApproveIfPending(g, b', signer, ids[|ids| - 1])
  }

  function BatchApprove(g: Governance, b: Book, signer: Address, ids: seq<nat>): Outcome {
    var _ :- RequireNotPaused(g);
    var _ :- RequireSigner(g, signer);
    var _ :- Need(|ids| <= MAX_BATCH_SIZE, BatchTooLarge);
    ApproveEach(g, b, signer, ids)
  }

  function ApprovePartial(g: Governance, b: Book, signer: Address, id: nat, part: i128): Outcome {
    var _ :- RequireNotPaused(g);
    var _ :- RequireSigner(g, signer);
    var st :- FindPending(b, id, AlreadyExecuted);
    var _ :- Need(0 < part < st.amount, InvalidAmount);
    var total := Lookup(b.partialApproved, id, 0) + part;
    var _ :- Need(total <= I128_MAX, ArithmeticOverflow);
    var _ :- Need(I128_MIN <= total <= st.amount, InvalidAmount);
    var t :- RecordApproval(g, TallyOf(st), signer);
    Ok(WriteSettlement(b.(partialApproved := b.partialApproved[id := total]), id, WithTally(st, t)))
  }

  // ----- executing -----

  function PayoutAddress(b: Book, merchant: Address): Address { Lookup(b.payoutAddress, merchant, merchant) }

  /** The quorum check made by every payout: a non-zero threshold that the recorded weight reaches. */
  function RequireQuorum(g: Governance, st: Settlement): Guard<TreasuryError> {
    if g.threshold.GetOr(0) == 0 then Fail(ThresholdNotConfigured)
    else Need(MeetsThreshold(st.approvalWeight, g.threshold.value), ThresholdNotMet)
  }

  function RequireToken(b: Book, token: Address): Guard<TreasuryError> {
    if token == TREASURY then Fail(InvalidTokenContract)
    else Need(b.allowedTokens == [] || token in b.allowedTokens, TokenNotAllowed)
  }

  predicate HoldLapsed(b: Book, id: nat, now: u64) { id in b.holdExpiry && now >= b.holdExpiry[id] }

  function Execute(g: Governance, b: Book, now: u64, signer: Address, id: nat, token: Address, cleared: bool): Outcome {
    var _ :- RequireNotPaused(g);
    var _ :- RequireSigner(g, signer);
    var st :- Find(b, id);
    var _ :- Need(st.status.OnHold? ==> HoldLapsed(b, id, now), SettlementOnHold);
    var _ :- Need(Live(st.status), AlreadyExecuted);
    var _ :- RequireQuorum(g, st);
    var _ :- Need(st.executionDeadline > 0 ==> now <= st.executionDeadline, ExecutionDeadlineExceeded);
    var _ :- RequireToken(b, token);
    var _ :- Need(cleared, ComplianceCheckFailed);
    var payout := Payout(Full, id, token, PayoutAddress(b, st.merchant), st.amount, now);
    Ok(WriteSettlement(b.(payouts := b.payouts + [payout]), id, st.(status := Executed)))
  }

  /** One element of a batch execution. The record is stored directly: the pending index is not updated. */
  function ExecuteIfReady(b: Book, now: u64, threshold: u32, token: Address, id: nat): Book {
    if id in b.settlements && b.settlements[id].status.Pending? &&
       MeetsThreshold(b.settlements[id].approvalWeight, threshold) then
      var st := b.settlements[id];
      var payout := Payout(Batched, id, token, PayoutAddress(b, st.merchant), st.amount, now);
      b.(settlements := b.settlements[id := st.(status := Executed)], payouts := b.payouts + [payout])
    else b
  }

  function ExecuteEach(b: Book, now: u64, threshold: u32, token: Address, ids: seq<nat>): Book {
    if ids == [] then b
    else ExecuteIfReady(ExecuteEach(b, now, threshold, token, ids[..|ids| - 1]), now, threshold, token, ids[|ids| - 1])
  }

  function BatchExecute(g: Governance, b: Book, now: u64, signer: Address, ids: seq<nat>, token: Address): Outcome {
    var _ :- RequireNotPaused(g);
    var _ :- RequireSigner(g, signer);
    var _ :- Need(|ids| <= MAX_BATCH_SIZE, BatchTooLarge);
    var _ :- Need(g.threshold.GetOr(0) != 0, ThresholdNotConfigured);
    var _ :- RequireToken(b, token);
    Ok(ExecuteEach(b, now, g.threshold.value, token, ids))
  }

  function ExecutePartially(g: Governance, b: Book, now: u64, signer: Address, id: nat, part: i128,
                            token: Address): Outcome {
    var _ :- RequireNotPaused(g);
    var _ :- RequireSigner(g, signer);
    var st :- FindPending(b, id, AlreadyExecuted);
    var _ :- Need(0 < part < st.amount, InvalidAmount);
    var _ :- RequireQuorum(g, st);
    var _ :- Need(token != TREASURY, InvalidTokenContract);
    var total := Lookup(b.partialExecuted, id, 0) + part;
    var _ :- Need(I128_MIN <= total <= I128_MAX, ArithmeticOverflow);
    var _ :- Need(total <= st.amount, InvalidAmount);
    var payout := Payout(Partial, id, token, st.merchant, part, now);
    Ok(WriteSettlement(b.(partialExecuted := b.partialExecuted[id := total], payouts := b.payouts + [payout]),
                       id, st.(status := PartiallyExecuted)))
  }

  // ----- ending without payment -----

  function Cancel(g: Governance, b: Book, signer: Address, id: nat): Outcome {
    var _ :- RequireNotPaused(g);
    var _ :- RequireSigner(g, signer);
    var st :- FindPending(b, id, SettlementNotCancellable);
    Ok(WriteSettlement(b, id, st.(status := Cancelled)))
  }

  function CancelIfPending(b: Book, id: nat): Book {
    if id in b.settlements && b.settlements[id].status.Pending? then
      WriteSettlement(b, id, b.settlements[id].(status := Cancelled))
    else b
  }

  function CancelEach(b: Book, ids: seq<nat>): Book {
    if ids == [] then b else CancelIfPending(CancelEach(b, ids[..|ids| - 1]), ids[|ids| - 1])
  }

  function BatchCancel(g: Governance, b: Book, caller: Address, ids: seq<nat>): Outcome {
    var _ :- RequireAdmin(g, caller);
    Ok(CancelEach(b, ids))
  }

  function ForceCancel(g: Governance, b: Book, caller: Address, id: nat): Outcome {
    var _ :- RequireAdmin(g, caller);
    var st :- Find(b, id);
    var _ :- Need(Live(st.status), ForceCancelNotAllowed);
    Ok(WriteSettlement(b, id, st.(status := Cancelled)))
  }

  function Expire(g: Governance, b: Book, now: u64, caller: Address, id: nat): Outcome {
    var _ :- RequireAdmin(g, caller);
    var st :- FindPending(b, id, AlreadyExecuted);
    var _ :- Need(st.proposedAt + b.expirySecs <= U64_MAX, ArithmeticOverflow);
    var _ :- Need(now > st.proposedAt + b.expirySecs, TtlNotElapsed);
    Ok(WriteSettlement(b, id, st.(status := Expired)))
  }

  // ----- holds -----

  predicate HoldActive(b: Book, id: nat, now: u64) { id in b.holdExpiry ==> now < b.holdExpiry[id] }

  function Hold(g: Governance, b: Book, now: u64, caller: Address, id: nat, reason: HoldReason,
                until: Option<u64>): Outcome {
    var _ :- RequireAdmin(g, caller);
    var st :- Find(b, id);
    var _ :- Need(!(st.status.OnHold? && HoldActive(b, id, now)), AlreadyOnHold);
    var _ :- Need(Live(st.status), AlreadyExecuted);
    var b' := WriteSettlement(b, id, st.(status := OnHold, holdReason := reason));
    Ok(b'.(holdExpiry := if until.Some? then b'.holdExpiry[id := until.value] else b'.holdExpiry - {id}))
  }

  function ReleaseHold(g: Governance, b: Book, caller: Address, id: nat): Outcome {
    var _ :- RequireAdmin(g, caller);
    var st :- Find(b, id);
    var _ :- Need(st.status.OnHold?, NotOnHold);
    var b' := WriteSettlement(b, id, st.(status := Pending, holdReason := NoHold));
    Ok(b'.(holdExpiry := b'.holdExpiry - {id}))
  }

  // ----- disputes -----

  predicate OpenFor(b: Book, d: nat, sid: nat) {
    d in b.disputes && b.disputes[d].settlementId == sid && b.disputes[d].status.Raised?
  }

  predicate HasOpenDispute(b: Book, sid: nat) {
    exists d: nat :: 1 <= d <= b.disputeCount && OpenFor(b, d, sid)
  }

  /** Back to Pending once no open dispute refers to the settlement; the hold expiry is left alone. */
  function ReleaseIfUndisputed(b: Book, sid: nat): Book {
    if sid in b.settlements && b.settlements[sid].status.OnHold? && !HasOpenDispute(b, sid) then
      WriteSettlement(b, sid, b.settlements[sid].(status := Pending, holdReason := NoHold))
    else b
  }

  function HoldForDispute(b: Book, sid: nat): Book {
    if sid in b.settlements && b.settlements[sid].status.Pending? then
      WriteSettlement(b, sid, b.settlements[sid].(status := OnHold))
    else b
  }

  function RaiseDispute(g: Governance, b: Book, claimant: Address, sid: nat, counterparty: Address,
                        amount: i128, expiresAt: u64): Outcome {
    var _ :- RequireNotPaused(g);
    var _ :- Need(amount > 0, InvalidAmount);
    var b' := HoldForDispute(b, sid);
    var id :- CheckedSucc(b.disputeCount);
    var d := Dispute(id, sid, claimant, counterparty, amount, Raised, [], 0, false, expiresAt, 0);
    Ok(b'.(disputes := b.disputes[id := d], disputeCount := id,
           settlementDisputes := b.settlementDisputes[sid := Lookup(b.settlementDisputes, sid, []) + [id]]))
  }

  function FindRaised(b: Book, id: nat): Result<Dispute, TreasuryError> {
    if id !in b.disputes then Err(DisputeNotFound)
    else if b.disputes[id].status.Raised? then Ok(b.disputes[id])
    else Err(DisputeAlreadyResolved)
  }

  /** Stores the closed dispute and releases the settlement if it was the last open one. */
  function CloseDispute(b: Book, id: nat, d: Dispute): Book {
    ReleaseIfUndisputed(b.(disputes := b.disputes[id := d]), d.settlementId)
  }

  function ExpireDispute(g: Governance, b: Book, now: u64, caller: Address, id: nat): Outcome {
    var _ :- RequireAdmin(g, caller);
    var d :- FindRaised(b, id);
    var _ :- Need(now >= d.expiresAt, DisputeNotExpired);
    Ok(CloseDispute(b, id, d.(status := DisputeExpired)))
  }

  function ResolveDispute(g: Governance, b: Book, caller: Address, id: nat, forClaimant: bool): Outcome {
    var _ :- RequireAdmin(g, caller);
    var _ :- RequireNotPaused(g);
    var d :- FindRaised(b, id);
    Ok(CloseDispute(b, id, d.(status := if forClaimant then ResolvedClaimant else ResolvedCounterparty)))
  }

  /** The transfers of a split: each positive share is paid, claimant first. */
  function SplitPayments(id: nat, d: Dispute, token: Address, share: i128, rest: i128): seq<SplitPayment> {
    (if share > 0 then [SplitPayment(id, token, d.claimant, share)] else []) +
    (if rest > 0 then [SplitPayment(id, token, d.counterparty, rest)] else [])
  }

  function ResolveSplit(g: Governance, b: Book, caller: Address, id: nat, bps: u32, token: Address): Outcome {
    var _ :- RequireAdmin(g, caller);
    var _ :- RequireNotPaused(g);
    var _ :- Need(IsValidBps(bps), InvalidSplitRatio);
    var d :- FindRaised(b, id);
    match SplitBps(d.amount, bps)
    case None => Err(ArithmeticOverflow)
    case Some((share, rest)) =>
      Ok(CloseDispute(b.(splits := b.splits + SplitPayments(id, d, token, share, rest)),
                      id, d.(status := ResolvedSplit, claimantBps := bps)))
  }

  function Vote(g: Governance, b: Book, signer: Address, id: nat, forClaimant: bool): Outcome {
    var _ :- RequireNotPaused(g);
    var _ :- RequireSigner(g, signer);
    var d :- FindRaised(b, id);
    var _ :- Need(signer !in d.approvals, DuplicateVote);
    var _ :- Need(d.weight == 0 || d.forClaimant == forClaimant, ResolutionDirectionMismatch);
    var t :- RecordApproval(g, Tally(d.approvals, d.weight), signer);
    var _ :- Need(g.threshold.Some?, ThresholdNotConfigured);
    var status := if !MeetsThreshold(t.weight, g.threshold.value) then Raised
                  else if forClaimant then ResolvedClaimant else ResolvedCounterparty;
    Ok(b.(disputes := b.disputes[id := d.(approvals := t.approvals, weight := t.weight,
                                          forClaimant := forClaimant, status := status)]))
  }

  // ----- configuration -----

  function SetExpiry(g: Governance, b: Book, caller: Address, seconds: u64): Outcome {
    var _ :- RequireAdmin(g, caller);
    Ok(b.(expirySecs := seconds))
  }

  function SetPayoutAddress(g: Governance, b: Book, merchant: Address, to: Address): Outcome {
    var _ :- RequireNotPaused(g);
    Ok(b.(payoutAddress := b.payoutAddress[merchant := to]))
  }

  function AllowToken(g: Governance, b: Book, caller: Address, token: Address): Outcome {
    var _ :- RequireAdmin(g, caller);
    if token in b.allowedTokens then Ok(b)
    else
      var _ :- Need(|b.allowedTokens| < MAX_ALLOWED_TOKENS, AllowlistFull);
      Ok(b.(allowedTokens := b.allowedTokens + [token]))
  }

  predicate HasPending(b: Book) {
    exists id: nat :: 1 <= id <= b.settlementCount && id in b.settlements && b.settlements[id].status.Pending?
  }

  function DisallowToken(g: Governance, b: Book, caller: Address, token: Address, tokenTotal: i128): Outcome {
    var _ :- RequireAdmin(g, caller);
    var _ :- Need(token in b.allowedTokens ==> !HasPending(b), TokenHasPendingSettlements);
    var _ :- Need(token in b.allowedTokens ==> tokenTotal <= 0, TokenHasBalance);
    Ok(b.(allowedTokens := Without(b.allowedTokens, token)))
  }

  // ----- calls -----

  datatype ApprovalCall =
    | CallPropose(signer: Address, merchant: Address, amount: i128, token: Option<Address>, deadline: u64,
                  cleared: bool)
    | CallApprove(signer: Address, id: nat)
    | CallRevoke(signer: Address, id: nat)
    | CallBatchApprove(signer: Address, ids: seq<nat>)
    | CallApprovePartial(signer: Address, id: nat, part: i128)

  function ApprovalStep(g: Governance, b: Book, now: u64, call: ApprovalCall): Outcome {
    match call
    case CallPropose(signer, merchant, amount, token, deadline, cleared) =>
      Propose(g, b, now, signer, merchant, amount, token, deadline, cleared)
    case CallApprove(signer, id) => Approve(g, b, signer, id)
    case CallRevoke(signer, id) => Revoke(g, b, signer, id)
    case CallBatchApprove(signer, ids) => BatchApprove(g, b, signer, ids)
    case CallApprovePartial(signer, id, part) => ApprovePartial(g, b, signer, id, part)
  }

  datatype PayoutCall =
    | CallExecute(signer: Address, id: nat, token: Address, cleared: bool)
    | CallBatchExecute(signer: Address, ids: seq<nat>, token: Address)
    | CallExecutePartially(signer: Address, id: nat, part: i128, token: Address)

  function PayoutStep(g: Governance, b: Book, now: u64, call: PayoutCall): Outcome {
    match call
    case CallExecute(signer, id, token, cleared) => Execute(g, b, now, signer, id, token, cleared)
    case CallBatchExecute(signer, ids, token) => BatchExecute(g, b, now, signer, ids, token)
    case CallExecutePartially(signer, id, part, token) => ExecutePartially(g, b, now, signer, id, part, token)
  }

  /** Calls that change the status of a settlement without paying it. */
  datatype StatusCall =
    | CallCancel(signer: Address, id: nat)
    | CallBatchCancel(caller: Address, ids: seq<nat>)
    | CallForceCancel(caller: Address, id: nat)
    | CallExpire(caller: Address, id: nat)
    | CallHold(caller: Address, id: nat, reason: HoldReason, until: Option<u64>)
    | CallReleaseHold(caller: Address, id: nat)

  function StatusStep(g: Governance, b: Book, now: u64, call: StatusCall): Outcome {
    match call
    case CallCancel(signer, id) => Cancel(g, b, signer, id)
    case CallBatchCancel(caller, ids) => BatchCancel(g, b, caller, ids)
    case CallForceCancel(caller, id) => ForceCancel(g, b, caller, id)
    case CallExpire(caller, id) => Expire(g, b, now, caller, id)
    case CallHold(caller, id, reason, until) => Hold(g, b, now, caller, id, reason, until)
    case CallReleaseHold(caller, id) => ReleaseHold(g, b, caller, id)
  }

  datatype DisputeCall =
    | CallRaiseDispute(claimant: Address, sid: nat, counterparty: Address, amount: i128, expiresAt: u64)
    | CallExpireDispute(caller: Address, id: nat)
    | CallResolveDispute(caller: Address, id: nat, forClaimant: bool)
    | CallResolveSplit(caller: Address, id: nat, bps: u32, token: Address)
    | CallVote(signer: Address, id: nat, forClaimant: bool)

  function DisputeStep(g: Governance, b: Book, now: u64, call: DisputeCall): Outcome {
    match call
    case CallRaiseDispute(claimant, sid, counterparty, amount, expiresAt) =>
      RaiseDispute(g, b, claimant, sid, counterparty, amount, expiresAt)
    case CallExpireDispute(caller, id) => ExpireDispute(g, b, now, caller, id)
    case CallResolveDispute(caller, id, forClaimant) => ResolveDispute(g, b, caller, id, forClaimant)
    case CallResolveSplit(caller, id, bps, token) => ResolveSplit(g, b, caller, id, bps, token)
    case CallVote(signer, id, forClaimant) => Vote(g, b, signer, id, forClaimant)
  }

  datatype SettingCall =
    | CallSetExpiry(caller: Address, seconds: u64)
    | CallSetPayoutAddress(merchant: Address, to: Address)
    | CallAllowToken(caller: Address, token: Address)
    | CallDisallowToken(caller: Address, token: Address)

  /** `totals` are the depositor totals, read by the token removal only. */
  function SettingStep(g: Governance, totals: map<Address, i128>, b: Book, call: SettingCall): Outcome {
    match call
    case CallSetExpiry(caller, seconds) => SetExpiry(g, b, caller, seconds)
    case CallSetPayoutAddress(merchant, to) => SetPayoutAddress(g, b, merchant, to)
    case CallAllowToken(caller, token) => AllowToken(g, b, caller, token)
    case CallDisallowToken(caller, token) => DisallowToken(g, b, caller, token, Lookup(totals, token, 0))
  }

  datatype BookCall =
    | Approving(approval: ApprovalCall)
    | Paying(payout: PayoutCall)
    | Moving(move: StatusCall)
    | Disputing(dispute: DisputeCall)
    | Setting(setting: SettingCall)

  function BookStep(g: Governance, totals: map<Address, i128>, b: Book, now: u64, call: BookCall): Outcome {
    match call
    case Approving(c) => ApprovalStep(g, b, now, c)
    case Paying(c) => PayoutStep(g, b, now, c)
    case Moving(c) => StatusStep(g, b, now, c)
    case Disputing(c) => DisputeStep(g, b, now, c)
    case Setting(c) => SettingStep(g, totals, b, c)
  }
}
