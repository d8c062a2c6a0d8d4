/** Exactly which calls on the treasury succeed: one condition per call on the state before it. */
module TreasuryCalls {
  import opened Common
  import opened BasisPoints
  import opened TreasuryTypes
  import opened Multisig
  import opened GovernanceSpec
  import opened SettlementSpec
  import opened TreasuryRuns
  import opened DisputeHolds
  import GovernanceSafety
  import SettlementSafety
  import DisputeSafety

  ghost predicate ByAdmin(g: Governance, caller: Address) { g.admin == Some(caller) }

  ghost predicate BySigner(g: Governance, caller: Address) { SignerWeight(g, caller) > 0 }

  /** Adding the approval of `a` stays within the width of a weight. */
  ghost predicate CanJoin(g: Governance, approvals: seq<Address>, weight: int, a: Address) {
    a in approvals || weight + SignerWeight(g, a) <= U32_MAX
  }

  // ----- governance -----

  ghost predicate NewThreshold(g: Governance, t: int) { 0 < t <= ListedWeight(g) <= U32_MAX }

  ghost predicate AnHourToAMonth(seconds: int) { 3_600 <= seconds <= 30 * 86_400 }

  ghost predicate PendingRotation(g: Governance, id: nat) {
    id in g.rotations && g.rotations[id].status.RotationPending?
  }

  ghost predicate PendingChange(g: Governance, id: nat) { id in g.changes && g.changes[id].status.ChangePending? }

  ghost predicate GovEnabled(g: Governance, now: u64, call: GovCall) {
    match call
    case CallInitialize(_, threshold, _) => g.admin.None? && threshold > 0
    case CallSetPaused(caller, _) => ByAdmin(g, caller)
    case CallUpdateThreshold(caller, t) => ByAdmin(g, caller) && NewThreshold(g, t)
    case CallSetSigner(caller, _, w) => ByAdmin(g, caller) && w > 0
    case CallRemoveSigner(caller, a) =>
      ByAdmin(g, caller) && Max(0, Min(ListedWeight(g), U32_MAX) - SignerWeight(g, a)) >= g.threshold.GetOr(0)
    case CallProposeRotation(caller, _, _) =>
      && BySigner(g, caller) && g.rotationCount < U64_MAX
      && (caller in g.lastRotation ==> now - g.lastRotation[caller] >= 3_600 || now == U64_MAX)
    case CallApproveRotation(caller, id) =>
      && BySigner(g, caller) && PendingRotation(g, id)
      && CanJoin(g, g.rotations[id].approvals, g.rotations[id].approvalWeight, caller)
    case CallCancelRotation(caller, id) => ByAdmin(g, caller) && PendingRotation(g, id)
    case CallProposeChange(caller, kind) =>
      && ByAdmin(g, caller) && g.changeCount < U64_MAX && now + g.delaySecs.GetOr(86_400) <= U64_MAX
      && (kind.SetDelay? ==> AnHourToAMonth(kind.seconds))
    case CallExecuteChange(caller, id) =>
      && ByAdmin(g, caller) && PendingChange(g, id) && now >= g.changes[id].executableAt
      && (g.changes[id].kind.SetThreshold? ==> NewThreshold(g, g.changes[id].kind.threshold))
      && (g.changes[id].kind.SetDelay? ==> AnHourToAMonth(g.changes[id].kind.seconds))
    case CallCancelChange(caller, id) => ByAdmin(g, caller) && PendingChange(g, id)
  }

  lemma SignerCallOkIff(g: Governance, now: u64, call: GovCall)
    requires call.CallInitialize? || call.CallSetPaused? || call.CallUpdateThreshold? || call.CallSetSigner?
             || call.CallRemoveSigner?
    ensures GovStep(g, now, call).Ok? <==> GovEnabled(g, now, call)
  {
    GovernanceSafety.ListedWeightNonNegative(g);
  }

  lemma RotationCallOkIff(g: Governance, now: u64, call: GovCall)
    requires call.CallProposeRotation? || call.CallApproveRotation? || call.CallCancelRotation?
    ensures GovStep(g, now, call).Ok? <==> GovEnabled(g, now, call)
  {
  }

  lemma ChangeCallOkIff(g: Governance, now: u64, call: GovCall)
    requires call.CallProposeChange? || call.CallExecuteChange? || call.CallCancelChange?
    ensures GovStep(g, now, call).Ok? <==> GovEnabled(g, now, call)
  {
    GovernanceSafety.ListedWeightNonNegative(g);
  }

  /** A governance call succeeds exactly when it is enabled. */
  lemma GovStepOkIff(g: Governance, now: u64, call: GovCall)
    ensures GovStep(g, now, call).Ok? <==> GovEnabled(g, now, call)
  {
    if call.CallProposeRotation? || call.CallApproveRotation? || call.CallCancelRotation? {
      RotationCallOkIff(g, now, call);
    } else if call.CallProposeChange? || call.CallExecuteChange? || call.CallCancelChange? {
      ChangeCallOkIff(g, now, call);
    } else {
      SignerCallOkIff(g, now, call);
    }
  }

  // ----- approving -----

  ghost predicate Pending(b: Book, id: nat) { id in b.settlements && b.settlements[id].status.Pending? }

  ghost predicate ApprovalEnabled(g: Governance, b: Book, call: ApprovalCall) {
    && !g.paused && BySigner(g, call.signer)
    && match call
       case CallPropose(_, _, amount, _, _, cleared) => amount > 0 && cleared && b.settlementCount < U64_MAX
       case CallApprove(signer, id) =>
         Pending(b, id) && CanJoin(g, b.settlements[id].approvals, b.settlements[id].approvalWeight, signer)
       case CallRevoke(signer, id) => Pending(b, id) && signer in b.settlements[id].approvals
       case CallBatchApprove(signer, ids) =>
         |ids| <= 50 && forall i :: 0 <= i < |ids| ==> Joinable(g, b, signer, ids[i])
       case CallApprovePartial(signer, id, part) =>
         && Pending(b, id) && 0 < part < b.settlements[id].amount
         && Lookup(b.partialApproved, id, 0) + part <= b.settlements[id].amount
         && CanJoin(g, b.settlements[id].approvals, b.settlements[id].approvalWeight, signer)
  }

  ghost predicate Joinable(g: Governance, b: Book, signer: Address, id: nat) {
    Pending(b, id) ==> CanJoin(g, b.settlements[id].approvals, b.settlements[id].approvalWeight, signer)
  }

  /** Settlement `id` after its approval: as before, or with the signer added. */
  ghost predicate ApprovedOrSame(b: Book, b': Book, signer: Address, id: nat, named: bool) {
    && (id in b'.settlements <==> id in b.settlements)
    && (id in b.settlements ==> b'.settlements[id].status == b.settlements[id].status)
    && (id in b.settlements && !(named && b.settlements[id].status.Pending?) ==>
        b'.settlements[id] == b.settlements[id])
    && (id in b.settlements && named && b.settlements[id].status.Pending? ==> signer in b'.settlements[id].approvals)
  }

  lemma ApproveOneSets(g: Governance, b: Book, signer: Address, x: nat, id: nat)
    requires ApproveIfPending(g, b, signer, x).Ok?
    ensures ApprovedOrSame(b, ApproveIfPending(g, b, signer, x).value, signer, id, id == x)
  {
  }

  lemma {:induction false} ApproveEachSets(g: Governance, b: Book, signer: Address, ids: seq<nat>, id: nat)
    requires ApproveEach(g, b, signer, ids).Ok?
    ensures ApprovedOrSame(b, ApproveEach(g, b, signer, ids).value, signer, id, id in ids)
  {
    if ids != [] {
      var front, last := ids[..|ids| - 1], ids[|ids| - 1];
      var mid := ApproveEach(g, b, signer, front).value;
      ApproveEachSets(g, b, signer, front, id);
      ApproveOneSets(g, mid, signer, last, id);
      assert id in ids <==> id in front || id == last by { assert ids == front + [last]; }
      if id == last && id in front && Pending(b, id) { ApproveAgain(g, mid, signer, id); }
    }
  }

  /** A second approval changes nothing. */
  lemma ApproveAgain(g: Governance, b: Book, signer: Address, id: nat)
    requires Pending(b, id) && signer in b.settlements[id].approvals
    ensures ApproveIfPending(g, b, signer, id).Ok?
    ensures ApproveIfPending(g, b, signer, id).value.settlements == b.settlements
  {
  }

  lemma {:induction false} ApproveEachOkIff(g: Governance, b: Book, signer: Address, ids: seq<nat>)
    ensures ApproveEach(g, b, signer, ids).Ok? <==> forall i :: 0 <= i < |ids| ==> Joinable(g, b, signer, ids[i])
  {
    if ids != [] {
      var front, last := ids[..|ids| - 1], ids[|ids| - 1];
      ApproveEachOkIff(g, b, signer, front);
      assert ids == front + [last];
      if ApproveEach(g, b, signer, front).Ok? {
        ApproveEachSets(g, b, signer, front, last);
        LastJoinable(g, b, ApproveEach(g, b, signer, front).value, signer, front, last);
      }
    }
  }

  lemma LastJoinable(g: Governance, b: Book, mid: Book, signer: Address, front: seq<nat>, last: nat)
    requires ApproveEach(g, b, signer, front) == Ok(mid) && ApprovedOrSame(b, mid, signer, last, last in front)
    requires forall i :: 0 <= i < |front| ==> Joinable(g, b, signer, front[i])
    ensures ApproveIfPending(g, mid, signer, last).Ok? <==> Joinable(g, b, signer, last)
  {
    if last in front {
      var i :| 0 <= i < |front| && front[i] == last;
      assert Joinable(g, b, signer, front[i]);
    }
  }

  lemma ApprovalStepOkIff(g: Governance, b: Book, now: u64, call: ApprovalCall)
    requires forall id :: SettlementSafety.PartialOk(b, id)
    ensures ApprovalStep(g, b, now, call).Ok? <==> ApprovalEnabled(g, b, call)
  {
    match call
    case CallBatchApprove(signer, ids) => ApproveEachOkIff(g, b, signer, ids);
    case CallApprovePartial(_, id, _) => assert SettlementSafety.PartialOk(b, id);
    case CallPropose(_, _, _, _, _, _) =>
    case CallApprove(_, _) =>
    case CallRevoke(_, _) =>
  }

  // ----- paying -----

  ghost predicate AcceptedToken(b: Book, token: Address) {
    token != TREASURY && (b.allowedTokens == [] || token in b.allowedTokens)
  }

  ghost predicate PayoutEnabled(g: Governance, b: Book, now: u64, call: PayoutCall) {
    match call
    case CallExecute(_, id, _, _) => Ready(g, b, now, call, id)
    case CallBatchExecute(signer, ids, token) =>
      && !g.paused && BySigner(g, signer) && |ids| <= 50 && g.threshold.GetOr(0) > 0 && AcceptedToken(b, token)
    case CallExecutePartially(_, id, _, _) => Ready(g, b, now, call, id)
  }

  lemma PayoutStepOkIff(g: Governance, b: Book, now: u64, call: PayoutCall)
    requires SettlementSafety.Sound(b)
    ensures PayoutStep(g, b, now, call).Ok? <==> PayoutEnabled(g, b, now, call)
  {
    if !call.CallBatchExecute? { OnePayoutOkIff(g, b, now, call); }
  }

  lemma OnePayoutOkIff(g: Governance, b: Book, now: u64, call: PayoutCall)
    requires SettlementSafety.Sound(b) && !call.CallBatchExecute?
    ensures PayoutStep(g, b, now, call).Ok? <==> Ready(g, b, now, call, call.id)
  {
    PaidIff(g, b, now, call, call.id);
    if PayoutStep(g, b, now, call).Ok? {
      var b' := PayoutStep(g, b, now, call).value;
      assert b'.payouts == b.payouts + [b'.payouts[|b.payouts|]] && b'.payouts[|b.payouts|].id == call.id;
      SettlementSafety.LogSnoc(b.payouts, b'.payouts[|b.payouts|], call.id);
    }
  }

  // ----- statuses -----

  ghost predicate LiveIn(b: Book, id: nat) {
    id in b.settlements && (b.settlements[id].status.Pending? || b.settlements[id].status.OnHold?)
  }

  ghost predicate StatusEnabled(g: Governance, b: Book, now: u64, call: StatusCall) {
    match call
    case CallCancel(signer, id) => !g.paused && BySigner(g, signer) && Pending(b, id)
    case CallBatchCancel(caller, _) => ByAdmin(g, caller)
    case CallForceCancel(caller, id) => ByAdmin(g, caller) && LiveIn(b, id)
    case CallExpire(caller, id) =>
      ByAdmin(g, caller) && Pending(b, id) && b.settlements[id].proposedAt + b.expirySecs < now
    case CallHold(caller, id, _, _) =>
      && ByAdmin(g, caller) && LiveIn(b, id)
      && (b.settlements[id].status.OnHold? ==> id in b.holdExpiry && b.holdExpiry[id] <= now)
    case CallReleaseHold(caller, id) => ByAdmin(g, caller) && id in b.settlements && b.settlements[id].status.OnHold?
  }

  lemma StatusStepOkIff(g: Governance, b: Book, now: u64, call: StatusCall)
    ensures StatusStep(g, b, now, call).Ok? <==> StatusEnabled(g, b, now, call)
  {
    match call
    case CallCancel(_, _) =>
    case CallBatchCancel(_, _) =>
    case CallForceCancel(_, _) =>
    case CallExpire(_, _) =>
    case CallHold(_, _, _, _) =>
    case CallReleaseHold(_, _) =>
  }

  /** What becomes of settlement `id` when a status call succeeds. */
  ghost function StatusAfter(st: Settlement, id: nat, call: StatusCall): Settlement {
    match call
    case CallCancel(_, n) => if n == id then st.(status := Cancelled) else st
    case CallBatchCancel(_, ids) => if id in ids && st.status.Pending? then st.(status := Cancelled) else st
    case CallForceCancel(_, n) => if n == id then st.(status := Cancelled) else st
    case CallExpire(_, n) => if n == id then st.(status := Expired) else st
    case CallHold(_, n, reason, _) => if n == id then st.(status := OnHold, holdReason := reason) else st
    case CallReleaseHold(_, n) => if n == id then st.(status := SettlementStatus.Pending, holdReason := NoHold) else st
  }

  lemma {:induction false} CancelEachSets(b: Book, ids: seq<nat>, id: nat, caller: Address)
    ensures var b' := CancelEach(b, ids);
            && (id in b'.settlements <==> id in b.settlements)
            && (id in b.settlements ==>
                  b'.settlements[id] == StatusAfter(b.settlements[id], id, CallBatchCancel(caller, ids)))
  {
    if ids != [] {
      var front, last := ids[..|ids| - 1], ids[|ids| - 1];
      CancelEachSets(b, front, id, caller);
      assert id in ids <==> id in front || id == last by { assert ids == front + [last]; }
    }
  }

  /** A successful status call does to every settlement exactly what the table says. */
  lemma StatusStepSets(g: Governance, b: Book, now: u64, call: StatusCall, id: nat)
    requires StatusStep(g, b, now, call).Ok?
    ensures var b' := StatusStep(g, b, now, call).value;
            && (id in b'.settlements <==> id in b.settlements)
            && (id in b.settlements ==> b'.settlements[id] == StatusAfter(b.settlements[id], id, call))
  {
    match call
    case CallBatchCancel(caller, ids) => CancelEachSets(b, ids, id, caller);
    case CallCancel(_, _) =>
    case CallForceCancel(_, _) =>
    case CallExpire(_, _) =>
    case CallHold(_, _, _, _) =>
    case CallReleaseHold(_, _) =>
  }

  // ----- disputes -----

  ghost predicate OpenDispute(b: Book, id: nat) { id in b.disputes && b.disputes[id].status.Raised? }

  ghost predicate DisputeEnabled(g: Governance, b: Book, now: u64, call: DisputeCall) {
    match call
    case CallRaiseDispute(_, _, _, amount, _) => !g.paused && amount > 0 && b.disputeCount < U64_MAX
    case CallExpireDispute(caller, id) => ByAdmin(g, caller) && OpenDispute(b, id) && now >= b.disputes[id].expiresAt
    case CallResolveDispute(caller, id, _) => ByAdmin(g, caller) && !g.paused && OpenDispute(b, id)
    case CallResolveSplit(caller, id, bps, _) =>
      ByAdmin(g, caller) && !g.paused && bps <= 10_000 && OpenDispute(b, id) && b.disputes[id].amount * bps <= I128_MAX
    case CallVote(signer, id, forClaimant) =>
      && BySigner(g, signer) && !g.paused && OpenDispute(b, id) && g.threshold.Some?
      && var d := b.disputes[id];
      && signer !in d.approvals && (d.approvals != [] ==> d.forClaimant == forClaimant)
      && d.weight + SignerWeight(g, signer) <= U32_MAX
  }

  lemma DisputeStepOkIff(g: Governance, b: Book, now: u64, call: DisputeCall)
    requires DisputeSafety.Sound(b)
    ensures DisputeStep(g, b, now, call).Ok? <==> DisputeEnabled(g, b, now, call)
  {
    match call
    case CallResolveSplit(_, id, bps, _) =>
      assert DisputeSafety.DisputeOk(b, id);
      if id in b.disputes && bps <= 10_000 { SplitIsExact(b.disputes[id].amount, bps); }
    case CallVote(_, id, _) => assert DisputeSafety.DisputeOk(b, id);
    case CallRaiseDispute(_, _, _, _, _) =>
    case CallExpireDispute(_, _) =>
    case CallResolveDispute(_, _, _) =>
  }

  // ----- settings -----

  ghost predicate SettingEnabled(g: Governance, totals: map<Address, i128>, b: Book, call: SettingCall) {
    match call
    case CallSetExpiry(caller, _) => ByAdmin(g, caller)
    case CallSetPayoutAddress(_, _) => !g.paused
    case CallAllowToken(caller, token) => ByAdmin(g, caller) && (token in b.allowedTokens || |b.allowedTokens| < 20)
    case CallDisallowToken(caller, token) =>
      && ByAdmin(g, caller)
      && (token in b.allowedTokens ==> (forall id :: !Pending(b, id)) && Lookup(totals, token, 0) <= 0)
  }

  lemma SettingStepOkIff(g: Governance, totals: map<Address, i128>, b: Book, call: SettingCall)
    requires forall id :: SettlementSafety.RecordOk(b, id)
    ensures SettingStep(g, totals, b, call).Ok? <==> SettingEnabled(g, totals, b, call)
  {
    if call.CallDisallowToken? && !HasPending(b) {
      forall id ensures !Pending(b, id) { assert SettlementSafety.RecordOk(b, id); }
    }
    if call.CallDisallowToken? && HasPending(b) {
      var id: nat :| id in b.settlements && b.settlements[id].status.Pending?;
      assert Pending(b, id);
    }
  }

  /** A successful setting call sets its own setting and no other. */
  lemma SettingStepSets(g: Governance, totals: map<Address, i128>, b: Book, call: SettingCall)
    requires SettingStep(g, totals, b, call).Ok?
    ensures var b' := SettingStep(g, totals, b, call).value;
            match call
            case CallSetExpiry(_, seconds) => b' == b.(expirySecs := seconds)
            case CallSetPayoutAddress(merchant, to) => b' == b.(payoutAddress := b.payoutAddress[merchant := to])
            case CallAllowToken(_, token) =>
              && b' == b.(allowedTokens := b'.allowedTokens)
              && forall t :: t in b'.allowedTokens <==> t in b.allowedTokens || t == token
            case CallDisallowToken(_, token) =>
              && b' == b.(allowedTokens := b'.allowedTokens)
              && forall t :: t in b'.allowedTokens <==> t in b.allowedTokens && t != token
  {
    if call.CallDisallowToken? { WithoutMembers(b.allowedTokens, call.token); }
  }

  // ----- every call on the book -----

  ghost predicate BookEnabled(g: Governance, totals: map<Address, i128>, b: Book, now: u64, call: BookCall) {
    match call
    case Approving(c) => ApprovalEnabled(g, b, c)
    case Paying(c) => PayoutEnabled(g, b, now, c)
    case Moving(c) => StatusEnabled(g, b, now, c)
    case Disputing(c) => DisputeEnabled(g, b, now, c)
    case Setting(c) => SettingEnabled(g, totals, b, c)
  }

  lemma BookStepOkIff(g: Governance, totals: map<Address, i128>, b: Book, now: u64, call: BookCall)
    requires SettlementSafety.Sound(b) && (call.Disputing? ==> DisputeSafety.Sound(b))
    ensures BookStep(g, totals, b, now, call).Ok? <==> BookEnabled(g, totals, b, now, call)
  {
    match call
    case Approving(c) => ApprovalStepOkIff(g, b, now, c);
    case Paying(c) => PayoutStepOkIff(g, b, now, c);
    case Moving(c) => StatusStepOkIff(g, b, now, c);
    case Disputing(c) => DisputeStepOkIff(g, b, now, c);
    case Setting(c) => SettingStepOkIff(g, totals, b, c);
  }

  /**
   After any run a call on the settlement book (one on disputes after a run initialised first) succeeds exactly when
   enabled.
   */
  lemma BookCallOkIff(es: seq<Event>, now: u64, call: BookCall)
    requires call.Disputing? ==> InitializedFirst(es)
    ensures var s := Run(es);
            BookStep(s.gov, s.vault.totals, s.book, now, call).Ok? <==>
              BookEnabled(s.gov, s.vault.totals, s.book, now, call)
  {
    RunIsSound(es);
    if call.Disputing? { DisputesAreSound(es); }
    BookStepOkIff(Run(es).gov, Run(es).vault.totals, Run(es).book, now, call);
  }
}
