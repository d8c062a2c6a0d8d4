/** How one call can move the approvals of a settlement, and what a payout needs of them. */
module QuorumSteps {
  import opened Common
  import opened TreasuryTypes
  import opened Multisig
  import opened SettlementSpec
  import SettlementSafety

  ghost function ApprovalsOf(b: Book, id: nat): seq<Address> {
    if id in b.settlements then b.settlements[id].approvals else []
  }

  ghost function WeightOf(b: Book, id: nat): int {
    if id in b.settlements then b.settlements[id].approvalWeight else 0
  }

  ghost predicate SameTally(b: Book, b': Book, id: nat) {
    ApprovalsOf(b', id) == ApprovalsOf(b, id) && WeightOf(b', id) == WeightOf(b, id)
  }

  /** `a` joined the approvers of `id` with the weight it has in `g`. */
  ghost predicate Joined(g: Governance, b: Book, b': Book, id: nat, a: Address) {
    && a !in ApprovalsOf(b, id) && SignerWeight(g, a) > 0
    && ApprovalsOf(b', id) == ApprovalsOf(b, id) + [a]
    && WeightOf(b', id) == WeightOf(b, id) + SignerWeight(g, a)
  }

  /** The approver at position `i` left; its weight in `g` was taken off, saturating at zero. */
  ghost predicate Left(g: Governance, b: Book, b': Book, id: nat, i: nat) {
    && i < |ApprovalsOf(b, id)|
    && ApprovalsOf(b', id) == ApprovalsOf(b, id)[..i] + ApprovalsOf(b, id)[i + 1..]
    && WeightOf(b', id) == Max(0, WeightOf(b, id) - SignerWeight(g, ApprovalsOf(b, id)[i]))
  }

  ghost predicate TallyMoves(g: Governance, b: Book, b': Book, id: nat) {
    || SameTally(b, b', id)
    || (exists a :: Joined(g, b, b', id, a))
    || (exists i :: Left(g, b, b', id, i))
  }

  lemma {:induction false} ApproveEachMoves(g: Governance, b: Book, signer: Address, ids: seq<nat>, id: nat)
    requires SignerWeight(g, signer) > 0 && ApproveEach(g, b, signer, ids).Ok?
    ensures var b' := ApproveEach(g, b, signer, ids).value;
            SameTally(b, b', id) || Joined(g, b, b', id, signer)
  {
    if ids != [] { ApproveEachMoves(g, b, signer, ids[..|ids| - 1], id); }
  }

  lemma {:induction false} ExecuteEachKeepsTally(b: Book, now: u64, threshold: u32, token: Address, ids: seq<nat>,
                                                 id: nat)
    ensures SameTally(b, ExecuteEach(b, now, threshold, token, ids), id)
  {
    if ids != [] { ExecuteEachKeepsTally(b, now, threshold, token, ids[..|ids| - 1], id); }
  }

  lemma {:induction false} CancelEachKeepsTally(b: Book, ids: seq<nat>, id: nat)
    ensures SameTally(b, CancelEach(b, ids), id)
  {
    if ids != [] { CancelEachKeepsTally(b, ids[..|ids| - 1], id); }
  }

  lemma ProposeMoves(g: Governance, b: Book, now: u64, signer: Address, merchant: Address, amount: i128,
                     token: Option<Address>, deadline: u64, cleared: bool, id: nat)
    requires Propose(g, b, now, signer, merchant, amount, token, deadline, cleared).Ok?
    requires b.settlementCount + 1 !in b.settlements
    ensures var b' := Propose(g, b, now, signer, merchant, amount, token, deadline, cleared).value;
            SameTally(b, b', id) || Joined(g, b, b', id, signer)
  {
  }

  lemma ApproveMoves(g: Governance, b: Book, signer: Address, target: nat, id: nat)
    requires Approve(g, b, signer, target).Ok?
    ensures var b' := Approve(g, b, signer, target).value;
            SameTally(b, b', id) || Joined(g, b, b', id, signer)
  {
  }

  lemma ApprovePartialMoves(g: Governance, b: Book, signer: Address, target: nat, part: i128, id: nat)
    requires ApprovePartial(g, b, signer, target, part).Ok?
    ensures var b' := ApprovePartial(g, b, signer, target, part).value;
            SameTally(b, b', id) || Joined(g, b, b', id, signer)
  {
  }

  lemma RevokeMoves(g: Governance, b: Book, signer: Address, target: nat, id: nat)
    requires Revoke(g, b, signer, target).Ok?
    ensures var b' := Revoke(g, b, signer, target).value;
            if id == target
            then signer in ApprovalsOf(b, id) && Left(g, b, b', id, FirstIndexOf(ApprovalsOf(b, id), signer))
            else SameTally(b, b', id)
  {
  }

  lemma ApprovalStepMoves(g: Governance, b: Book, now: u64, call: ApprovalCall, id: nat)
    requires ApprovalStep(g, b, now, call).Ok?
    requires b.settlementCount + 1 !in b.settlements
    ensures TallyMoves(g, b, ApprovalStep(g, b, now, call).value, id)
  {
    match call
    case CallPropose(signer, merchant, amount, token, deadline, cleared) =>
      ProposeMoves(g, b, now, signer, merchant, amount, token, deadline, cleared, id);
    case CallApprove(signer, target) => ApproveMoves(g, b, signer, target, id);
    case CallRevoke(signer, target) => RevokeMoves(g, b, signer, target, id);
    case CallBatchApprove(signer, ids) => ApproveEachMoves(g, b, signer, ids, id);
    case CallApprovePartial(signer, target, part) => ApprovePartialMoves(g, b, signer, target, part, id);
  }

  lemma PayoutStepKeepsTally(g: Governance, b: Book, now: u64, call: PayoutCall, id: nat)
    requires PayoutStep(g, b, now, call).Ok?
    ensures SameTally(b, PayoutStep(g, b, now, call).value, id)
  {
    match call
    case CallBatchExecute(_, ids, token) => ExecuteEachKeepsTally(b, now, g.threshold.value, token, ids, id);
    case CallExecute(_, _, _, _) =>
    case CallExecutePartially(_, _, _, _) =>
  }

  lemma StatusStepKeepsTally(g: Governance, b: Book, now: u64, call: StatusCall, id: nat)
    requires StatusStep(g, b, now, call).Ok?
    ensures SameTally(b, StatusStep(g, b, now, call).value, id)
  {
    match call
    case CallBatchCancel(_, ids) => CancelEachKeepsTally(b, ids, id);
    case CallCancel(_, _) =>
    case CallForceCancel(_, _) =>
    case CallExpire(_, _) =>
    case CallHold(_, _, _, _) =>
    case CallReleaseHold(_, _) =>
  }

  lemma CloseKeepsTally(b: Book, did: nat, d: Dispute, id: nat)
    ensures SameTally(b, CloseDispute(b, did, d), id)
    ensures CloseDispute(b, did, d).payouts == b.payouts
  {
  }

  lemma SplitKeepsTally(g: Governance, b: Book, caller: Address, did: nat, bps: u32, token: Address, id: nat)
    requires ResolveSplit(g, b, caller, did, bps, token).Ok?
    ensures SameTally(b, ResolveSplit(g, b, caller, did, bps, token).value, id)
    ensures ResolveSplit(g, b, caller, did, bps, token).value.payouts == b.payouts
  {
    var b' := ResolveSplit(g, b, caller, did, bps, token).value;
    CloseKeepsTally(b.(splits := b'.splits), did, b.disputes[did].(status := ResolvedSplit, claimantBps := bps), id);
  }

  lemma RaiseKeepsTally(g: Governance, b: Book, claimant: Address, sid: nat, counterparty: Address, amount: i128,
                        expiresAt: u64, id: nat)
    requires RaiseDispute(g, b, claimant, sid, counterparty, amount, expiresAt).Ok?
    ensures SameTally(b, RaiseDispute(g, b, claimant, sid, counterparty, amount, expiresAt).value, id)
    ensures RaiseDispute(g, b, claimant, sid, counterparty, amount, expiresAt).value.payouts == b.payouts
  {
    var mid := HoldForDispute(b, sid);
    assert SameTally(b, mid, id) && mid.payouts == b.payouts;
  }

  lemma VoteKeepsTally(g: Governance, b: Book, signer: Address, did: nat, forClaimant: bool, id: nat)
    requires Vote(g, b, signer, did, forClaimant).Ok?
    ensures SameTally(b, Vote(g, b, signer, did, forClaimant).value, id)
    ensures Vote(g, b, signer, did, forClaimant).value.payouts == b.payouts
  {
  }

  lemma DisputeStepKeepsTally(g: Governance, b: Book, now: u64, call: DisputeCall, id: nat)
    requires DisputeStep(g, b, now, call).Ok?
    ensures SameTally(b, DisputeStep(g, b, now, call).value, id)
    ensures DisputeStep(g, b, now, call).value.payouts == b.payouts
  {
    match call
    case CallRaiseDispute(claimant, sid, counterparty, amount, expiresAt) =>
      RaiseKeepsTally(g, b, claimant, sid, counterparty, amount, expiresAt, id);
    case CallExpireDispute(_, did) => CloseKeepsTally(b, did, b.disputes[did].(status := DisputeExpired), id);
    case CallResolveDispute(_, did, forClaimant) =>
      var status := if forClaimant then ResolvedClaimant else ResolvedCounterparty;
      CloseKeepsTally(b, did, b.disputes[did].(status := status), id);
    case CallResolveSplit(caller, did, bps, token) => SplitKeepsTally(g, b, caller, did, bps, token, id);
    case CallVote(signer, did, forClaimant) => VoteKeepsTally(g, b, signer, did, forClaimant, id);
  }

  lemma SettingStepKeepsTally(g: Governance, totals: map<Address, i128>, b: Book, call: SettingCall, id: nat)
    requires SettingStep(g, totals, b, call).Ok?
    ensures SameTally(b, SettingStep(g, totals, b, call).value, id)
  {
    SettlementSafety.SettingTouchesSettings(g, totals, b, call);
  }

  /** Every call leaves a settlement's tally alone, adds one authorised signer, or takes one approver off. */
  lemma BookStepMoves(g: Governance, totals: map<Address, i128>, b: Book, now: u64, call: BookCall, id: nat)
    requires BookStep(g, totals, b, now, call).Ok?
    requires b.settlementCount + 1 !in b.settlements
    ensures TallyMoves(g, b, BookStep(g, totals, b, now, call).value, id)
  {
    match call
    case Approving(c) => ApprovalStepMoves(g, b, now, c, id);
    case Paying(c) => PayoutStepKeepsTally(g, b, now, c, id);
    case Moving(c) => StatusStepKeepsTally(g, b, now, c, id);
    case Disputing(c) => DisputeStepKeepsTally(g, b, now, c, id);
    case Setting(c) => SettingStepKeepsTally(g, totals, b, c, id);
  }

  // ----- what a payout needs -----

  /** The threshold in force is non-zero and the recorded weight of `id` reaches it. */
  ghost predicate HasQuorum(g: Governance, b: Book, id: nat) {
    && g.threshold.Some? && g.threshold.value > 0
    && id in b.settlements && WeightOf(b, id) >= g.threshold.value
  }

  lemma {:induction false} ExecuteEachNeedsQuorum(g: Governance, b: Book, now: u64, token: Address, ids: seq<nat>,
                                                  k: nat)
    requires g.threshold.Some? && g.threshold.value > 0
    requires var b' := ExecuteEach(b, now, g.threshold.value, token, ids); |b.payouts| <= k < |b'.payouts|
    ensures HasQuorum(g, b, ExecuteEach(b, now, g.threshold.value, token, ids).payouts[k].id)
  {
    if ids != [] {
      var front := ids[..|ids| - 1];
      var mid := ExecuteEach(b, now, g.threshold.value, token, front);
      if k < |mid.payouts| {
        ExecuteEachNeedsQuorum(g, b, now, token, front, k);
      } else {
        ExecuteEachKeepsTally(b, now, g.threshold.value, token, front, ids[|ids| - 1]);
      }
    }
  }

  /** Every transfer a payout call makes is for a settlement whose recorded weight meets the threshold. */
  lemma PayoutStepNeedsQuorum(g: Governance, b: Book, now: u64, call: PayoutCall, k: nat)
    requires PayoutStep(g, b, now, call).Ok?
    requires |b.payouts| <= k < |PayoutStep(g, b, now, call).value.payouts|
    ensures HasQuorum(g, b, PayoutStep(g, b, now, call).value.payouts[k].id)
  {
    match call
    case CallBatchExecute(_, ids, token) => ExecuteEachNeedsQuorum(g, b, now, token, ids, k);
    case CallExecute(_, _, _, _) =>
    case CallExecutePartially(_, _, _, _) =>
  }

  lemma {:induction false} ApproveEachPaysNothing(g: Governance, b: Book, signer: Address, ids: seq<nat>)
    requires ApproveEach(g, b, signer, ids).Ok?
    ensures ApproveEach(g, b, signer, ids).value.payouts == b.payouts
  {
    if ids != [] { ApproveEachPaysNothing(g, b, signer, ids[..|ids| - 1]); }
  }

  lemma {:induction false} CancelEachPaysNothing(b: Book, ids: seq<nat>)
    ensures CancelEach(b, ids).payouts == b.payouts
  {
    if ids != [] { CancelEachPaysNothing(b, ids[..|ids| - 1]); }
  }

  lemma ApprovalStepPaysNothing(g: Governance, b: Book, now: u64, call: ApprovalCall)
    requires ApprovalStep(g, b, now, call).Ok?
    ensures ApprovalStep(g, b, now, call).value.payouts == b.payouts
  {
    match call
    case CallBatchApprove(signer, ids) => ApproveEachPaysNothing(g, b, signer, ids);
    case CallPropose(_, _, _, _, _, _) =>
    case CallApprove(_, _) =>
    case CallRevoke(_, _) =>
    case CallApprovePartial(_, _, _) =>
  }

  lemma StatusStepPaysNothing(g: Governance, b: Book, now: u64, call: StatusCall)
    requires StatusStep(g, b, now, call).Ok?
    ensures StatusStep(g, b, now, call).value.payouts == b.payouts
  {
    match call
    case CallBatchCancel(_, ids) => CancelEachPaysNothing(b, ids);
    case CallCancel(_, _) =>
    case CallForceCancel(_, _) =>
    case CallExpire(_, _) =>
    case CallHold(_, _, _, _) =>
    case CallReleaseHold(_, _) =>
  }

  lemma BookStepNeedsQuorum(g: Governance, totals: map<Address, i128>, b: Book, now: u64, call: BookCall, k: nat)
    requires BookStep(g, totals, b, now, call).Ok?
    requires |b.payouts| <= k < |BookStep(g, totals, b, now, call).value.payouts|
    ensures HasQuorum(g, b, BookStep(g, totals, b, now, call).value.payouts[k].id)
  {
    match call
    case Approving(c) => ApprovalStepPaysNothing(g, b, now, c);
    case Paying(c) => PayoutStepNeedsQuorum(g, b, now, c, k);
    case Moving(c) => StatusStepPaysNothing(g, b, now, c);
    case Disputing(c) => DisputeStepKeepsTally(g, b, now, c, 0);
    case Setting(c) => SettlementSafety.SettingTouchesSettings(g, totals, b, c);
  }
}
