/** What an open dispute stops: it holds a live settlement, and what a payout nevertheless needs. */
module DisputeHolds {
  import opened Common
  import opened TreasuryTypes
  import opened SettlementSpec
  import opened DisputeSafety
  import SettlementSafety

  // ----- what it takes to be paid -----

  ghost predicate Authorised(g: Governance, b: Book, signer: Address, id: nat) {
    && !g.paused && SignerWeight(g, signer) != 0 && id in b.settlements
    && g.threshold.GetOr(0) > 0 && b.settlements[id].approvalWeight >= g.threshold.value
  }

  /** The state before the call in which `call` pays settlement `id`. */
  ghost predicate Ready(g: Governance, b: Book, now: u64, call: PayoutCall, id: nat) {
    && Authorised(g, b, call.signer, id)
    && var st := b.settlements[id];
    match call
    case CallExecute(_, sid, token, cleared) =>
      && sid == id && (st.status.Pending? || (st.status.OnHold? && HoldLapsed(b, id, now)))
      && (st.executionDeadline > 0 ==> now <= st.executionDeadline) && RequireToken(b, token).Pass? && cleared
    case CallBatchExecute(_, ids, token) =>
      id in ids && |ids| <= MAX_BATCH_SIZE && st.status.Pending? && RequireToken(b, token).Pass?
    case CallExecutePartially(_, sid, part, token) =>
      sid == id && st.status.Pending? && 0 < part < st.amount && token != TREASURY
  }

  ghost predicate Pays(b: Book, b': Book, id: nat) {
    SettlementSafety.PaidCount(b'.payouts, id) > SettlementSafety.PaidCount(b.payouts, id)
  }

  lemma ExecutePaysIff(g: Governance, b: Book, now: u64, signer: Address, sid: nat, token: Address, cleared: bool,
                       id: nat)
    ensures var r := Execute(g, b, now, signer, sid, token, cleared);
            r.Ok? && Pays(b, r.value, id) <==> Ready(g, b, now, CallExecute(signer, sid, token, cleared), id)
  {
    var r := Execute(g, b, now, signer, sid, token, cleared);
    if r.Ok? {
      var st := b.settlements[sid];
      SettlementSafety.LogSnoc(b.payouts, Payout(Full, sid, token, PayoutAddress(b, st.merchant), st.amount, now), id);
    }
  }

  lemma PartialPaysIff(g: Governance, b: Book, now: u64, signer: Address, sid: nat, part: i128, token: Address, id: nat)
    requires sid in b.settlements && b.settlements[sid].status.Pending? ==> sid !in b.partialExecuted
    ensures var r := ExecutePartially(g, b, now, signer, sid, part, token);
            r.Ok? && Pays(b, r.value, id) <==> Ready(g, b, now, CallExecutePartially(signer, sid, part, token), id)
  {
    var r := ExecutePartially(g, b, now, signer, sid, part, token);
    if r.Ok? {
      SettlementSafety.LogSnoc(b.payouts, Payout(Partial, sid, token, b.settlements[sid].merchant, part, now), id);
    }
  }

  /** What a batch execution has done to settlement `id`: paid it once if it was named and ready, else nothing. */
  lemma {:induction false} ExecuteEachAt(b: Book, now: u64, threshold: u32, token: Address, ids: seq<nat>, id: nat)
    ensures var b' := ExecuteEach(b, now, threshold, token, ids);
            var ready := id in b.settlements && b.settlements[id].status.Pending?
                         && b.settlements[id].approvalWeight >= threshold;
            && (id in b'.settlements <==> id in b.settlements)
            && (id in b.settlements ==>
                  b'.settlements[id] == if ready && id in ids then b.settlements[id].(status := Executed)
                                        else b.settlements[id])
            && SettlementSafety.PaidCount(b'.payouts, id)
               == SettlementSafety.PaidCount(b.payouts, id) + (if ready && id in ids then 1 else 0)
  {
    if ids != [] {
      var front, last := ids[..|ids| - 1], ids[|ids| - 1];
      ExecuteEachAt(b, now, threshold, token, front, id);
      assert id in ids <==> id in front || id == last by { assert ids == front + [last]; }
      var mid := ExecuteEach(b, now, threshold, token, front);
      BatchElementAt(mid, now, threshold, token, last, id);
    }
  }

  lemma BatchElementAt(b: Book, now: u64, threshold: u32, token: Address, last: nat, id: nat)
    ensures var b' := ExecuteIfReady(b, now, threshold, token, last);
            var paid := last == id && id in b.settlements && b.settlements[id].status.Pending?
                        && b.settlements[id].approvalWeight >= threshold;
            && (id in b'.settlements <==> id in b.settlements)
            && (id in b.settlements ==>
                  b'.settlements[id] == if paid then b.settlements[id].(status := Executed) else b.settlements[id])
            && SettlementSafety.PaidCount(b'.payouts, id)
               == SettlementSafety.PaidCount(b.payouts, id) + (if paid then 1 else 0)
  {
    var b' := ExecuteIfReady(b, now, threshold, token, last);
    if b'.payouts != b.payouts {
      SettlementSafety.LogSnoc(b.payouts, b'.payouts[|b.payouts|], id);
    }
  }

  lemma BatchPaysIff(g: Governance, b: Book, now: u64, signer: Address, ids: seq<nat>, token: Address, id: nat)
    ensures var r := BatchExecute(g, b, now, signer, ids, token);
            r.Ok? && Pays(b, r.value, id) <==> Ready(g, b, now, CallBatchExecute(signer, ids, token), id)
  {
    if g.threshold.Some? { ExecuteEachAt(b, now, g.threshold.value, token, ids, id); }
  }

  /**
   Whether a payout call pays a settlement is decided by this condition, in which no dispute occurs: a batch or a
   partial execution needs Pending, a full one Pending or a hold whose stored expiry has lapsed; only the full one
   asks for the execution deadline.
   */
  lemma PaidIff(g: Governance, b: Book, now: u64, call: PayoutCall, id: nat)
    requires SettlementSafety.Sound(b)
    ensures var r := PayoutStep(g, b, now, call);
            r.Ok? && Pays(b, r.value, id) <==> Ready(g, b, now, call, id)
  {
    match call
    case CallExecute(signer, sid, token, cleared) => ExecutePaysIff(g, b, now, signer, sid, token, cleared, id);
    case CallBatchExecute(signer, ids, token) => BatchPaysIff(g, b, now, signer, ids, token, id);
    case CallExecutePartially(signer, sid, part, token) =>
      assert SettlementSafety.PaidOk(b, sid);
      PartialPaysIff(g, b, now, signer, sid, part, token, id);
  }

  /**
   After its execution deadline a settlement is paid by no full execution, yet by any batch or partial one that
   is ready.
   */
  lemma LateIsPaidIff(g: Governance, b: Book, now: u64, call: PayoutCall, id: nat)
    requires SettlementSafety.Sound(b) && id in b.settlements && 0 < b.settlements[id].executionDeadline < now
    ensures var r := PayoutStep(g, b, now, call);
            r.Ok? && Pays(b, r.value, id) <==> !call.CallExecute? && Ready(g, b, now, call, id)
  {
    PaidIff(g, b, now, call, id);
  }

  // ----- disputed settlements are held -----

  /** A settlement with an open dispute exists and is not Pending; so if it is live, it is on hold. */
  ghost predicate HeldOk(b: Book, sid: nat) {
    AnyOpen(b, sid) ==> sid in b.settlements && !b.settlements[sid].status.Pending?
  }

  ghost predicate Held(b: Book) { forall sid :: HeldOk(b, sid) }

  /** Not a release under an open dispute, and not a dispute about a settlement that does not exist yet. */
  ghost predicate Permitted(b: Book, call: BookCall) {
    && (call.Moving? && call.move.CallReleaseHold? ==> !AnyOpen(b, call.move.id))
    && (call.Disputing? && call.dispute.CallRaiseDispute? ==> call.dispute.sid in b.settlements)
  }

  /** No settlement that was there became Pending. */
  ghost predicate StaysOff(b: Book, b': Book, sid: nat) {
    sid in b.settlements && !b.settlements[sid].status.Pending? ==>
      sid in b'.settlements && !b'.settlements[sid].status.Pending?
  }

  lemma {:induction false} ApproveEachStaysOff(g: Governance, b: Book, signer: Address, ids: seq<nat>, sid: nat)
    requires ApproveEach(g, b, signer, ids).Ok?
    ensures StaysOff(b, ApproveEach(g, b, signer, ids).value, sid)
  {
    if ids != [] { ApproveEachStaysOff(g, b, signer, ids[..|ids| - 1], sid); }
  }

  lemma {:induction false} CancelEachStaysOff(b: Book, ids: seq<nat>, sid: nat)
    ensures StaysOff(b, CancelEach(b, ids), sid)
  {
    if ids != [] { CancelEachStaysOff(b, ids[..|ids| - 1], sid); }
  }

  lemma ApprovalStaysOff(g: Governance, b: Book, now: u64, call: ApprovalCall, sid: nat)
    requires ApprovalStep(g, b, now, call).Ok? && b.settlementCount + 1 !in b.settlements
    ensures StaysOff(b, ApprovalStep(g, b, now, call).value, sid)
  {
    match call
    case CallBatchApprove(signer, ids) => ApproveEachStaysOff(g, b, signer, ids, sid);
    case CallPropose(_, _, _, _, _, _) =>
    case CallApprove(_, _) =>
    case CallRevoke(_, _) =>
    case CallApprovePartial(_, _, _) =>
  }

  lemma PayoutStaysOff(g: Governance, b: Book, now: u64, call: PayoutCall, sid: nat)
    requires PayoutStep(g, b, now, call).Ok?
    ensures StaysOff(b, PayoutStep(g, b, now, call).value, sid)
  {
    match call
    case CallBatchExecute(_, ids, token) => ExecuteEachAt(b, now, g.threshold.value, token, ids, sid);
    case CallExecute(_, _, _, _) =>
    case CallExecutePartially(_, _, _, _) =>
  }

  lemma StatusStaysOff(g: Governance, b: Book, now: u64, call: StatusCall, sid: nat)
    requires StatusStep(g, b, now, call).Ok? && !(call.CallReleaseHold? && call.id == sid)
    ensures StaysOff(b, StatusStep(g, b, now, call).value, sid)
  {
    match call
    case CallBatchCancel(_, ids) => CancelEachStaysOff(b, ids, sid);
    case CallCancel(_, _) =>
    case CallForceCancel(_, _) =>
    case CallExpire(_, _) =>
    case CallHold(_, _, _, _) =>
    case CallReleaseHold(_, _) =>
  }

  lemma UndisputedKeepsHeld(b: Book, b': Book)
    requires Held(b) && Untouched(b, b') && forall sid :: AnyOpen(b, sid) ==> StaysOff(b, b', sid)
    ensures Held(b')
  {
    forall sid ensures HeldOk(b', sid) {
      assert HeldOk(b, sid);
      assert AnyOpen(b', sid) ==> AnyOpen(b, sid) by {
        if d :| OpenFor(b', d, sid) { assert OpenFor(b, d, sid); }
      }
    }
  }

  // ----- dispute calls -----

  lemma RaiseHolds(g: Governance, b: Book, claimant: Address, sid: nat, counterparty: Address, amount: i128,
                   expiresAt: u64)
    requires DisputeSafety.Sound(b) && Held(b) && sid in b.settlements
    requires RaiseDispute(g, b, claimant, sid, counterparty, amount, expiresAt).Ok?
    ensures Held(RaiseDispute(g, b, claimant, sid, counterparty, amount, expiresAt).value)
  {
    var b' := RaiseDispute(g, b, claimant, sid, counterparty, amount, expiresAt).value;
    var id := b.disputeCount + 1;
    forall s ensures HeldOk(b', s) {
      assert HeldOk(b, s);
      if d :| OpenFor(b', d, s) {
        assert d == id || OpenFor(b, d, s);
      }
    }
  }

  /** Raising a dispute keeps disputed settlements held exactly when the settlement it names exists. */
  lemma RaiseHoldsIff(g: Governance, b: Book, claimant: Address, sid: nat, counterparty: Address, amount: i128,
                      expiresAt: u64)
    requires DisputeSafety.Sound(b) && Held(b)
    requires RaiseDispute(g, b, claimant, sid, counterparty, amount, expiresAt).Ok?
    ensures Held(RaiseDispute(g, b, claimant, sid, counterparty, amount, expiresAt).value) <==> sid in b.settlements
  {
    if sid in b.settlements {
      RaiseHolds(g, b, claimant, sid, counterparty, amount, expiresAt);
    } else {
      var b' := RaiseDispute(g, b, claimant, sid, counterparty, amount, expiresAt).value;
      assert OpenFor(b', b.disputeCount + 1, sid);
      assert !HeldOk(b', sid);
    }
  }

  lemma ReleaseHolds(b: Book, target: nat)
    requires DisputeSafety.Sound(b) && Held(b)
    ensures Held(ReleaseIfUndisputed(b, target))
  {
    var b' := ReleaseIfUndisputed(b, target);
    forall sid ensures HeldOk(b', sid) {
      assert HeldOk(b, sid);
      if d :| OpenFor(b', d, sid) {
        assert OpenFor(b, d, sid) && DisputeOk(b, d);
      }
    }
  }

  lemma FewerOpenHolds(b: Book, b': Book)
    requires Held(b) && b'.settlements == b.settlements
    requires forall d, sid :: OpenFor(b', d, sid) ==> OpenFor(b, d, sid)
    ensures Held(b')
  {
    forall sid ensures HeldOk(b', sid) { assert HeldOk(b, sid); }
  }

  lemma CloseHolds(g: Governance, b: Book, now: u64, call: DisputeCall)
    requires DisputeSafety.Sound(b) && Held(b) && Closing(call) && DisputeStep(g, b, now, call).Ok?
    ensures Held(DisputeStep(g, b, now, call).value)
  {
    var b' := DisputeStep(g, b, now, call).value;
    CloseShape(g, b, now, call);
    DisputeStepKeeps(g, b, now, call);
    var mid := BeforeRelease(b, b');
    UntouchedKeeps(b', mid);
    FewerOpenHolds(b, mid);
    ReleaseHolds(mid, b.disputes[call.id].settlementId);
  }

  lemma VoteHolds(g: Governance, b: Book, signer: Address, id: nat, forClaimant: bool)
    requires Held(b) && Vote(g, b, signer, id, forClaimant).Ok?
    ensures Held(Vote(g, b, signer, id, forClaimant).value)
  {
    FewerOpenHolds(b, Vote(g, b, signer, id, forClaimant).value);
  }

  lemma DisputeStepHolds(g: Governance, b: Book, now: u64, call: DisputeCall)
    requires DisputeSafety.Sound(b) && Held(b) && DisputeStep(g, b, now, call).Ok?
    requires call.CallRaiseDispute? ==> call.sid in b.settlements
    ensures Held(DisputeStep(g, b, now, call).value)
  {
    match call
    case CallRaiseDispute(claimant, sid, counterparty, amount, expiresAt) =>
      RaiseHolds(g, b, claimant, sid, counterparty, amount, expiresAt);
    case CallVote(signer, id, forClaimant) => VoteHolds(g, b, signer, id, forClaimant);
    case _ => CloseHolds(g, b, now, call);
  }

  /** Releasing a hold by hand keeps disputed settlements held exactly when none of its disputes is open. */
  lemma ReleaseHoldHoldsIff(g: Governance, b: Book, caller: Address, id: nat)
    requires Held(b) && ReleaseHold(g, b, caller, id).Ok?
    ensures Held(ReleaseHold(g, b, caller, id).value) <==> !AnyOpen(b, id)
  {
    var b' := ReleaseHold(g, b, caller, id).value;
    if AnyOpen(b, id) {
      var d :| OpenFor(b, d, id);
      assert OpenFor(b', d, id) && !HeldOk(b', id);
    } else {
      UndisputedKeepsHeld(b, b');
    }
  }

  /** Every permitted call keeps disputed settlements held. */
  lemma BookStepHolds(g: Governance, totals: map<Address, i128>, b: Book, now: u64, call: BookCall)
    requires SettlementSafety.Sound(b) && DisputeSafety.Sound(b) && Held(b)
    requires BookStep(g, totals, b, now, call).Ok? && Permitted(b, call)
    ensures Held(BookStep(g, totals, b, now, call).value)
  {
    var b' := BookStep(g, totals, b, now, call).value;
    match call
    case Disputing(c) => DisputeStepHolds(g, b, now, c);
    case Approving(c) =>
      assert SettlementSafety.RecordOk(b, b.settlementCount + 1);
      ApprovalUntouched(g, b, now, c);
      forall sid ensures StaysOff(b, b', sid) { ApprovalStaysOff(g, b, now, c, sid); }
      UndisputedKeepsHeld(b, b');
    case Paying(c) =>
      PayoutUntouched(g, b, now, c);
      forall sid ensures StaysOff(b, b', sid) { PayoutStaysOff(g, b, now, c, sid); }
      UndisputedKeepsHeld(b, b');
    case Moving(c) =>
      StatusUntouched(g, b, now, c);
      forall sid | AnyOpen(b, sid) ensures StaysOff(b, b', sid) { StatusStaysOff(g, b, now, c, sid); }
      UndisputedKeepsHeld(b, b');
    case Setting(c) =>
      SettlementSafety.SettingTouchesSettings(g, totals, b, c);
      UndisputedKeepsHeld(b, b');
  }

  // ----- hold expiries -----

  ghost predicate DatesAHold(call: BookCall) { call.Moving? && call.move.CallHold? && call.move.until.Some? }

  /** No settlement gained a hold expiry. */
  ghost predicate NoNewDates(b: Book, b': Book) { b'.holdExpiry.Keys <= b.holdExpiry.Keys }

  lemma {:induction false} ApproveEachDates(g: Governance, b: Book, signer: Address, ids: seq<nat>)
    requires ApproveEach(g, b, signer, ids).Ok?
    ensures NoNewDates(b, ApproveEach(g, b, signer, ids).value)
  {
    if ids != [] { ApproveEachDates(g, b, signer, ids[..|ids| - 1]); }
  }

  lemma {:induction false} ExecuteEachDates(b: Book, now: u64, threshold: u32, token: Address, ids: seq<nat>)
    ensures NoNewDates(b, ExecuteEach(b, now, threshold, token, ids))
  {
    if ids != [] { ExecuteEachDates(b, now, threshold, token, ids[..|ids| - 1]); }
  }

  lemma {:induction false} CancelEachDates(b: Book, ids: seq<nat>)
    ensures NoNewDates(b, CancelEach(b, ids))
  {
    if ids != [] { CancelEachDates(b, ids[..|ids| - 1]); }
  }

  lemma ApprovalDates(g: Governance, b: Book, now: u64, call: ApprovalCall)
    requires ApprovalStep(g, b, now, call).Ok?
    ensures NoNewDates(b, ApprovalStep(g, b, now, call).value)
  {
    match call
    case CallBatchApprove(signer, ids) => ApproveEachDates(g, b, signer, ids);
    case CallPropose(_, _, _, _, _, _) =>
    case CallApprove(_, _) =>
    case CallRevoke(_, _) =>
    case CallApprovePartial(_, _, _) =>
  }

  lemma PayoutDates(g: Governance, b: Book, now: u64, call: PayoutCall)
    requires PayoutStep(g, b, now, call).Ok?
    ensures NoNewDates(b, PayoutStep(g, b, now, call).value)
  {
    match call
    case CallBatchExecute(_, ids, token) => ExecuteEachDates(b, now, g.threshold.value, token, ids);
    case CallExecute(_, _, _, _) =>
    case CallExecutePartially(_, _, _, _) =>
  }

  lemma StatusDates(g: Governance, b: Book, now: u64, call: StatusCall)
    requires StatusStep(g, b, now, call).Ok? && !(call.CallHold? && call.until.Some?)
    ensures NoNewDates(b, StatusStep(g, b, now, call).value)
  {
    match call
    case CallBatchCancel(_, ids) => CancelEachDates(b, ids);
    case CallCancel(_, _) =>
    case CallForceCancel(_, _) =>
    case CallExpire(_, _) =>
    case CallHold(_, _, _, _) =>
    case CallReleaseHold(_, _) =>
  }

  /** Only a hold placed with an expiry stores one. */
  lemma BookStepDates(g: Governance, totals: map<Address, i128>, b: Book, now: u64, call: BookCall)
    requires BookStep(g, totals, b, now, call).Ok? && !DatesAHold(call)
    ensures NoNewDates(b, BookStep(g, totals, b, now, call).value)
  {
    match call
    case Approving(c) => ApprovalDates(g, b, now, c);
    case Paying(c) => PayoutDates(g, b, now, c);
    case Moving(c) => StatusDates(g, b, now, c);
    case Disputing(c) => ExpiriesStay(g, b, now, c);
    case Setting(c) => SettlementSafety.SettingTouchesSettings(g, totals, b, c);
  }
}
