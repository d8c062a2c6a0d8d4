/**
 What every settlement call keeps: each settlement is paid at most once and within its amount, a
 settlement that stopped being live never changes, and the pending index holds exactly the pending
 settlements and those paid by a batch.
 */
module SettlementSafety {
  import opened Common
  import BasisPoints
  import opened TreasuryTypes
  import opened Multisig
  import opened SettlementSpec

  // ----- the payout log -----

  ghost function PaidCount(log: seq<Payout>, id: nat): nat {
    if log == [] then 0
    else PaidCount(log[..|log| - 1], id) + (if log[|log| - 1].id == id then 1 else 0)
  }

  ghost function PaidTotal(log: seq<Payout>, id: nat): int {
    if log == [] then 0
    else PaidTotal(log[..|log| - 1], id) + (if log[|log| - 1].id == id then log[|log| - 1].amount else 0)
  }

  ghost predicate BatchPaid(log: seq<Payout>, id: nat) {
    log != [] && (BatchPaid(log[..|log| - 1], id) || (log[|log| - 1].id == id && log[|log| - 1].kind.Batched?))
  }

  lemma LogSnoc(log: seq<Payout>, p: Payout, id: nat)
    ensures PaidCount(log + [p], id) == PaidCount(log, id) + (if p.id == id then 1 else 0)
    ensures PaidTotal(log + [p], id) == PaidTotal(log, id) + (if p.id == id then p.amount else 0)
    ensures BatchPaid(log + [p], id) <==> BatchPaid(log, id) || (p.id == id && p.kind.Batched?)
  {
    assert (log + [p])[..|log + [p]| - 1] == log;
  }

  // ----- the invariant -----

  ghost predicate IsPending(b: Book, id: nat) {
    id in b.settlements && b.settlements[id].status.Pending?
  }

  ghost predicate RecordOk(b: Book, id: nat) {
    id in b.settlements ==>
      var st := b.settlements[id];
      && 1 <= id <= b.settlementCount && st.id == id && st.amount > 0
      && NoDup(st.approvals) && !st.status.PartiallySettled?
  }

  /** What the payout log says about one settlement, given its status. */
  ghost predicate PaidOk(b: Book, id: nat) {
    var n, total := PaidCount(b.payouts, id), PaidTotal(b.payouts, id);
    if id in b.settlements && b.settlements[id].status.Executed? then
      n == 1 && total == b.settlements[id].amount && id !in b.partialExecuted
    else if id in b.settlements && b.settlements[id].status.PartiallyExecuted? then
      && n == 1 && 0 < total < b.settlements[id].amount
      && id in b.partialExecuted && b.partialExecuted[id] == total && !BatchPaid(b.payouts, id)
    else
      n == 0 && total == 0 && !BatchPaid(b.payouts, id) && id !in b.partialExecuted
  }

  ghost predicate PartialOk(b: Book, id: nat) {
    id in b.partialApproved ==> id in b.settlements && 0 < b.partialApproved[id] <= b.settlements[id].amount
  }

  ghost predicate IndexOk(b: Book) {
    && NoDup(b.pendingIndex)
    && forall id :: id in b.pendingIndex <==> IsPending(b, id) || BatchPaid(b.payouts, id)
  }

  ghost predicate Sound(b: Book) {
    && (forall id :: RecordOk(b, id))
    && (forall id :: PaidOk(b, id))
    && (forall id :: PartialOk(b, id))
    && IndexOk(b)
  }

  /** The identity of a settlement never changes, one that is not live never changes at all, and the log only grows. */
  ghost predicate Kept(b: Book, b': Book, id: nat) {
    id in b.settlements ==>
      && id in b'.settlements
      && var st, st' := b.settlements[id], b'.settlements[id];
      && st'.amount == st.amount && st'.merchant == st.merchant && st'.token == st.token
      && st'.proposedAt == st.proposedAt && st'.executionDeadline == st.executionDeadline
      && (!Live(st.status) ==> st' == st)
  }

  ghost predicate Evolves(b: Book, b': Book) {
    && (forall id :: Kept(b, b', id))
    && b.payouts <= b'.payouts && b.splits <= b'.splits
    && b.settlementCount <= b'.settlementCount
  }

  lemma EvolvesTrans(a: Book, b: Book, c: Book)
    requires Evolves(a, b) && Evolves(b, c)
    ensures Evolves(a, c)
  {
    forall id ensures Kept(a, c, id) {
      assert Kept(a, b, id) && Kept(b, c, id);
    }
  }

  // ----- primitive updates -----

  lemma ReindexMembers(index: seq<nat>, id: nat, pending: bool)
    requires NoDup(index)
    ensures NoDup(Reindex(index, id, pending))
    ensures forall x :: x in Reindex(index, id, pending) <==> (if x == id then pending else x in index)
  {
    WithoutMembers(index, id);
  }

  ghost predicate SameIdentity(st: Settlement, st': Settlement) {
    && st'.id == st.id && st'.amount == st.amount && st'.merchant == st.merchant && st'.token == st.token
    && st'.proposedAt == st.proposedAt && st'.executionDeadline == st.executionDeadline
  }

  /** Rewriting a live settlement without paying it. */
  lemma WriteLive(b: Book, id: nat, st: Settlement)
    requires Sound(b) && id in b.settlements && Live(b.settlements[id].status)
    requires SameIdentity(b.settlements[id], st) && NoDup(st.approvals)
    requires Live(st.status) || st.status.Cancelled? || st.status.Expired?
    ensures Sound(WriteSettlement(b, id, st)) && Evolves(b, WriteSettlement(b, id, st))
  {
    var b' := WriteSettlement(b, id, st);
    ReindexMembers(b.pendingIndex, id, st.status.Pending?);
    assert RecordOk(b, id) && PaidOk(b, id);
    forall x ensures RecordOk(b', x) && PaidOk(b', x) && PartialOk(b', x) && Kept(b, b', x) {
      assert RecordOk(b, x) && PaidOk(b, x) && PartialOk(b, x);
    }
    forall x ensures x in b'.pendingIndex <==> IsPending(b', x) || BatchPaid(b'.payouts, x) {
      assert PaidOk(b, x);
    }
  }

  /** Paying a live settlement and storing it through `write_settlement`. */
  lemma PayAndWrite(b: Book, id: nat, st: Settlement, p: Payout)
    requires Sound(b) && id in b.settlements && Live(b.settlements[id].status)
    requires p.id == id && !p.kind.Batched? && p.amount > 0
    requires SameIdentity(b.settlements[id], st) && NoDup(st.approvals)
    requires (st.status.Executed? && p.amount == st.amount) || (st.status.PartiallyExecuted? && p.amount < st.amount)
    ensures var paid := b.(payouts := b.payouts + [p],
                           partialExecuted := if st.status.Executed? then b.partialExecuted
                                              else b.partialExecuted[id := p.amount]);
            Sound(WriteSettlement(paid, id, st)) && Evolves(b, WriteSettlement(paid, id, st))
  {
    var paid := b.(payouts := b.payouts + [p],
                   partialExecuted := if st.status.Executed? then b.partialExecuted
                                      else b.partialExecuted[id := p.amount]);
    var b' := WriteSettlement(paid, id, st);
    ReindexMembers(b.pendingIndex, id, false);
    assert RecordOk(b, id) && PaidOk(b, id);
    forall x ensures RecordOk(b', x) && PaidOk(b', x) && PartialOk(b', x) && Kept(b, b', x) {
      assert RecordOk(b, x) && PaidOk(b, x) && PartialOk(b, x);
      LogSnoc(b.payouts, p, x);
    }
    forall x ensures x in b'.pendingIndex <==> IsPending(b', x) || BatchPaid(b'.payouts, x) {
      assert PaidOk(b, x);
      LogSnoc(b.payouts, p, x);
    }
  }

  /** Paying inside a batch: the record is stored directly, so the id stays in the index. */
  lemma PayInBatch(b: Book, now: u64, threshold: u32, token: Address, id: nat)
    requires Sound(b)
    ensures Sound(ExecuteIfReady(b, now, threshold, token, id))
    ensures Evolves(b, ExecuteIfReady(b, now, threshold, token, id))
  {
    var b' := ExecuteIfReady(b, now, threshold, token, id);
    if b' != b {
      var p := b'.payouts[|b.payouts|];
      assert RecordOk(b, id) && PaidOk(b, id);
      forall x ensures RecordOk(b', x) && PaidOk(b', x) && PartialOk(b', x) && Kept(b, b', x) {
        assert RecordOk(b, x) && PaidOk(b, x) && PartialOk(b, x);
        LogSnoc(b.payouts, p, x);
      }
      forall x ensures x in b'.pendingIndex <==> IsPending(b', x) || BatchPaid(b'.payouts, x) {
        LogSnoc(b.payouts, p, x);
      }
    }
  }

  lemma {:induction false} PayEach(b: Book, now: u64, threshold: u32, token: Address, ids: seq<nat>)
    requires Sound(b)
    ensures Sound(ExecuteEach(b, now, threshold, token, ids))
    ensures Evolves(b, ExecuteEach(b, now, threshold, token, ids))
  {
    if ids != [] {
      PayEach(b, now, threshold, token, ids[..|ids| - 1]);
      var mid := ExecuteEach(b, now, threshold, token, ids[..|ids| - 1]);
      PayInBatch(mid, now, threshold, token, ids[|ids| - 1]);
      EvolvesTrans(b, mid, ExecuteEach(b, now, threshold, token, ids));
    }
  }

  lemma {:induction false} ApproveEachKeeps(g: Governance, b: Book, signer: Address, ids: seq<nat>)
    requires Sound(b) && ApproveEach(g, b, signer, ids).Ok?
    ensures Sound(ApproveEach(g, b, signer, ids).value) && Evolves(b, ApproveEach(g, b, signer, ids).value)
  {
    if ids != [] {
      var front, id := ids[..|ids| - 1], ids[|ids| - 1];
      ApproveEachKeeps(g, b, signer, front);
      var mid := ApproveEach(g, b, signer, front).value;
      if IsPending(mid, id) {
        assert RecordOk(mid, id);
        var st := mid.settlements[id];
        WriteLive(mid, id, WithTally(st, RecordApproval(g, TallyOf(st), signer).value));
        EvolvesTrans(b, mid, ApproveEach(g, b, signer, ids).value);
      }
    }
  }

  lemma {:induction false} CancelEachKeeps(b: Book, ids: seq<nat>)
    requires Sound(b)
    ensures Sound(CancelEach(b, ids)) && Evolves(b, CancelEach(b, ids))
  {
    if ids != [] {
      var front, id := ids[..|ids| - 1], ids[|ids| - 1];
      CancelEachKeeps(b, front);
      var mid := CancelEach(b, front);
      if IsPending(mid, id) {
        assert RecordOk(mid, id);
        WriteLive(mid, id, mid.settlements[id].(status := Cancelled));
        EvolvesTrans(b, mid, CancelEach(b, ids));
      }
    }
  }

  lemma ProposeKeeps(g: Governance, b: Book, now: u64, signer: Address, merchant: Address, amount: i128,
                     token: Option<Address>, deadline: u64, cleared: bool)
    requires Sound(b) && Propose(g, b, now, signer, merchant, amount, token, deadline, cleared).Ok?
    ensures var b' := Propose(g, b, now, signer, merchant, amount, token, deadline, cleared).value;
            Sound(b') && Evolves(b, b')
  {
    var b' := Propose(g, b, now, signer, merchant, amount, token, deadline, cleared).value;
    var id := b.settlementCount + 1;
    assert RecordOk(b, id) && PaidOk(b, id) && PartialOk(b, id);
    ReindexMembers(b.pendingIndex, id, true);
    forall x ensures RecordOk(b', x) && PaidOk(b', x) && PartialOk(b', x) && Kept(b, b', x) {
      assert RecordOk(b, x) && PaidOk(b, x) && PartialOk(b, x);
    }
  }

  ghost predicate Untouched(b: Book, b': Book) {
    && b'.settlements == b.settlements && b'.settlementCount == b.settlementCount
    && b'.pendingIndex == b.pendingIndex && b'.payouts == b.payouts && b.splits <= b'.splits
    && b'.partialApproved == b.partialApproved && b'.partialExecuted == b.partialExecuted
  }

  /** Rewriting disputes, splits or configuration leaves the settlement invariant alone. */
  lemma OtherFields(b: Book, b': Book)
    requires Sound(b) && Untouched(b, b')
    ensures Sound(b') && Evolves(b, b')
  {
    forall x ensures RecordOk(b', x) && PaidOk(b', x) && PartialOk(b', x) && Kept(b, b', x) {
      assert RecordOk(b, x) && PaidOk(b, x) && PartialOk(b, x);
    }
    forall x ensures x in b'.pendingIndex <==> IsPending(b', x) || BatchPaid(b'.payouts, x) {
      assert IsPending(b, x) <==> IsPending(b', x);
    }
  }

  lemma ReleaseKeeps(b: Book, sid: nat)
    requires Sound(b)
    ensures Sound(ReleaseIfUndisputed(b, sid)) && Evolves(b, ReleaseIfUndisputed(b, sid))
  {
    if sid in b.settlements && b.settlements[sid].status.OnHold? && !HasOpenDispute(b, sid) {
      assert RecordOk(b, sid);
      WriteLive(b, sid, b.settlements[sid].(status := Pending, holdReason := NoHold));
    }
  }

  // ----- every call -----

  lemma RevokeKeeps(g: Governance, b: Book, signer: Address, id: nat)
    requires Sound(b) && Revoke(g, b, signer, id).Ok?
    ensures Sound(Revoke(g, b, signer, id).value) && Evolves(b, Revoke(g, b, signer, id).value)
  {
    assert RecordOk(b, id);
    var st := b.settlements[id];
    RemoveAt(st.approvals, FirstIndexOf(st.approvals, signer));
    WriteLive(b, id, WithTally(st, RevokeApproval(g, TallyOf(st), signer).value));
  }

  lemma PartialTotalKeeps(b: Book, id: nat, total: i128)
    requires Sound(b) && id in b.settlements && 0 < total <= b.settlements[id].amount
    ensures var b' := b.(partialApproved := b.partialApproved[id := total]); Sound(b') && Evolves(b, b')
  {
    var b' := b.(partialApproved := b.partialApproved[id := total]);
    forall x ensures RecordOk(b', x) && PaidOk(b', x) && PartialOk(b', x) && Kept(b, b', x) {
      assert RecordOk(b, x) && PaidOk(b, x) && PartialOk(b, x);
    }
    forall x ensures x in b'.pendingIndex <==> IsPending(b', x) || BatchPaid(b'.payouts, x) {
      assert IsPending(b, x) <==> IsPending(b', x);
    }
  }

  lemma ApprovePartialKeeps(g: Governance, b: Book, signer: Address, id: nat, part: i128)
    requires Sound(b) && ApprovePartial(g, b, signer, id, part).Ok?
    ensures var b' := ApprovePartial(g, b, signer, id, part).value; Sound(b') && Evolves(b, b')
  {
    assert RecordOk(b, id) && PartialOk(b, id);
    var st := b.settlements[id];
    var total := Lookup(b.partialApproved, id, 0) + part;
    PartialTotalKeeps(b, id, total);
    var mid := b.(partialApproved := b.partialApproved[id := total]);
    WriteLive(mid, id, WithTally(st, RecordApproval(g, TallyOf(st), signer).value));
    EvolvesTrans(b, mid, ApprovePartial(g, b, signer, id, part).value);
  }

  lemma ApprovalCallKeeps(g: Governance, b: Book, now: u64, call: ApprovalCall)
    requires Sound(b) && ApprovalStep(g, b, now, call).Ok?
    ensures var b' := ApprovalStep(g, b, now, call).value; Sound(b') && Evolves(b, b')
  {
    match call
    case CallPropose(signer, merchant, amount, token, deadline, cleared) =>
      ProposeKeeps(g, b, now, signer, merchant, amount, token, deadline, cleared);
    case CallApprove(signer, id) =>
      assert RecordOk(b, id);
      var st := b.settlements[id];
      WriteLive(b, id, WithTally(st, RecordApproval(g, TallyOf(st), signer).value));
    case CallRevoke(signer, id) => RevokeKeeps(g, b, signer, id);
    case CallBatchApprove(signer, ids) => ApproveEachKeeps(g, b, signer, ids);
    case CallApprovePartial(signer, id, part) => ApprovePartialKeeps(g, b, signer, id, part);
  }

  lemma ExecuteKeeps(g: Governance, b: Book, now: u64, signer: Address, id: nat, token: Address, cleared: bool)
    requires Sound(b) && Execute(g, b, now, signer, id, token, cleared).Ok?
    ensures var b' := Execute(g, b, now, signer, id, token, cleared).value; Sound(b') && Evolves(b, b')
  {
    assert RecordOk(b, id);
    var st := b.settlements[id];
    PayAndWrite(b, id, st.(status := Executed), Payout(Full, id, token, PayoutAddress(b, st.merchant), st.amount, now));
  }

  lemma ExecutePartiallyKeeps(g: Governance, b: Book, now: u64, signer: Address, id: nat, part: i128, token: Address)
    requires Sound(b) && ExecutePartially(g, b, now, signer, id, part, token).Ok?
    ensures var b' := ExecutePartially(g, b, now, signer, id, part, token).value; Sound(b') && Evolves(b, b')
  {
    assert RecordOk(b, id) && PaidOk(b, id);
    var st := b.settlements[id];
    PayAndWrite(b, id, st.(status := PartiallyExecuted), Payout(Partial, id, token, st.merchant, part, now));
  }

  lemma PayoutCallKeeps(g: Governance, b: Book, now: u64, call: PayoutCall)
    requires Sound(b) && PayoutStep(g, b, now, call).Ok?
    ensures var b' := PayoutStep(g, b, now, call).value; Sound(b') && Evolves(b, b')
  {
    match call
    case CallExecute(signer, id, token, cleared) => ExecuteKeeps(g, b, now, signer, id, token, cleared);
    case CallBatchExecute(signer, ids, token) => PayEach(b, now, g.threshold.value, token, ids);
    case CallExecutePartially(signer, id, part, token) => ExecutePartiallyKeeps(g, b, now, signer, id, part, token);
  }

  /** A live settlement that is cancelled or expires. */
  lemma EndKeeps(b: Book, id: nat, status: SettlementStatus)
    requires Sound(b) && id in b.settlements && Live(b.settlements[id].status) && (status.Cancelled? || status.Expired?)
    ensures var b' := WriteSettlement(b, id, b.settlements[id].(status := status)); Sound(b') && Evolves(b, b')
  {
    assert RecordOk(b, id);
    WriteLive(b, id, b.settlements[id].(status := status));
  }

  lemma HoldKeeps(b: Book, id: nat, st: Settlement, expiry: map<nat, u64>)
    requires Sound(b) && id in b.settlements && Live(b.settlements[id].status) && Live(st.status)
    requires SameIdentity(b.settlements[id], st) && st.approvals == b.settlements[id].approvals
    ensures var b' := WriteSettlement(b, id, st).(holdExpiry := expiry); Sound(b') && Evolves(b, b')
  {
    assert RecordOk(b, id);
    WriteLive(b, id, st);
    var mid := WriteSettlement(b, id, st);
    OtherFields(mid, mid.(holdExpiry := expiry));
    EvolvesTrans(b, mid, mid.(holdExpiry := expiry));
  }

  lemma StatusCallKeeps(g: Governance, b: Book, now: u64, call: StatusCall)
    requires Sound(b) && StatusStep(g, b, now, call).Ok?
    ensures var b' := StatusStep(g, b, now, call).value; Sound(b') && Evolves(b, b')
  {
    match call
    case CallCancel(signer, id) => EndKeeps(b, id, Cancelled);
    case CallBatchCancel(caller, ids) => CancelEachKeeps(b, ids);
    case CallForceCancel(caller, id) => EndKeeps(b, id, Cancelled);
    case CallExpire(caller, id) => EndKeeps(b, id, Expired);
    case CallHold(caller, id, reason, until) =>
      assert RecordOk(b, id);
      HoldKeeps(b, id, b.settlements[id].(status := OnHold, holdReason := reason),
                Hold(g, b, now, caller, id, reason, until).value.holdExpiry);
    case CallReleaseHold(caller, id) =>
      assert RecordOk(b, id);
      HoldKeeps(b, id, b.settlements[id].(status := Pending, holdReason := NoHold),
                ReleaseHold(g, b, caller, id).value.holdExpiry);
  }

  lemma RaiseKeeps(g: Governance, b: Book, claimant: Address, sid: nat, counterparty: Address, amount: i128,
                   expiresAt: u64)
    requires Sound(b) && RaiseDispute(g, b, claimant, sid, counterparty, amount, expiresAt).Ok?
    ensures var b' := RaiseDispute(g, b, claimant, sid, counterparty, amount, expiresAt).value;
            Sound(b') && Evolves(b, b')
  {
    var mid, b' := HoldForDispute(b, sid), RaiseDispute(g, b, claimant, sid, counterparty, amount, expiresAt).value;
    assert RecordOk(b, sid);
    if IsPending(b, sid) { WriteLive(b, sid, b.settlements[sid].(status := OnHold)); }
    OtherFields(mid, b');
    EvolvesTrans(b, mid, b');
  }

  lemma CloseKeeps(b: Book, id: nat, d: Dispute, splits: seq<SplitPayment>)
    requires Sound(b) && b.splits <= splits
    ensures var b' := CloseDispute(b.(splits := splits), id, d); Sound(b') && Evolves(b, b')
  {
    var mid := b.(splits := splits, disputes := b.disputes[id := d]);
    OtherFields(b, mid);
    ReleaseKeeps(mid, d.settlementId);
    EvolvesTrans(b, mid, CloseDispute(b.(splits := splits), id, d));
  }

  lemma SplitKeeps(g: Governance, b: Book, caller: Address, id: nat, bps: u32, token: Address)
    requires Sound(b) && ResolveSplit(g, b, caller, id, bps, token).Ok?
    ensures var b' := ResolveSplit(g, b, caller, id, bps, token).value; Sound(b') && Evolves(b, b')
  {
    var (share, rest) := BasisPoints.SplitBps(b.disputes[id].amount, bps).value;
    CloseKeeps(b, id, b.disputes[id].(status := ResolvedSplit, claimantBps := bps),
               b.splits + SplitPayments(id, b.disputes[id], token, share, rest));
  }

  lemma ExpireDisputeKeeps(g: Governance, b: Book, now: u64, caller: Address, id: nat)
    requires Sound(b) && ExpireDispute(g, b, now, caller, id).Ok?
    ensures var b' := ExpireDispute(g, b, now, caller, id).value; Sound(b') && Evolves(b, b')
  {
    CloseKeeps(b, id, b.disputes[id].(status := DisputeExpired), b.splits);
  }

  lemma ResolveKeeps(g: Governance, b: Book, caller: Address, id: nat, forClaimant: bool)
    requires Sound(b) && ResolveDispute(g, b, caller, id, forClaimant).Ok?
    ensures var b' := ResolveDispute(g, b, caller, id, forClaimant).value; Sound(b') && Evolves(b, b')
  {
    CloseKeeps(b, id, b.disputes[id].(status := if forClaimant then ResolvedClaimant else ResolvedCounterparty),
               b.splits);
  }

  lemma VoteKeeps(g: Governance, b: Book, signer: Address, id: nat, forClaimant: bool)
    requires Sound(b) && Vote(g, b, signer, id, forClaimant).Ok?
    ensures var b' := Vote(g, b, signer, id, forClaimant).value; Sound(b') && Evolves(b, b')
  {
    OtherFields(b, Vote(g, b, signer, id, forClaimant).value);
  }

  lemma DisputeCallKeeps(g: Governance, b: Book, now: u64, call: DisputeCall)
    requires Sound(b) && DisputeStep(g, b, now, call).Ok?
    ensures var b' := DisputeStep(g, b, now, call).value; Sound(b') && Evolves(b, b')
  {
    match call
    case CallRaiseDispute(claimant, sid, counterparty, amount, expiresAt) =>
      RaiseKeeps(g, b, claimant, sid, counterparty, amount, expiresAt);
    case CallExpireDispute(caller, id) => ExpireDisputeKeeps(g, b, now, caller, id);
    case CallResolveDispute(caller, id, forClaimant) => ResolveKeeps(g, b, caller, id, forClaimant);
    case CallResolveSplit(caller, id, bps, token) => SplitKeeps(g, b, caller, id, bps, token);
    case CallVote(signer, id, forClaimant) => VoteKeeps(g, b, signer, id, forClaimant);
  }

  lemma SettingCallKeeps(g: Governance, totals: map<Address, i128>, b: Book, call: SettingCall)
    requires Sound(b) && SettingStep(g, totals, b, call).Ok?
    ensures var b' := SettingStep(g, totals, b, call).value; Sound(b') && Evolves(b, b')
  {
    SettingTouchesSettings(g, totals, b, call);
    OtherFields(b, SettingStep(g, totals, b, call).value);
  }

  ghost predicate OnlySettings(b: Book, b': Book) {
    b' == b.(expirySecs := b'.expirySecs, payoutAddress := b'.payoutAddress, allowedTokens := b'.allowedTokens)
  }

  lemma SettingTouchesSettings(g: Governance, totals: map<Address, i128>, b: Book, call: SettingCall)
    requires SettingStep(g, totals, b, call).Ok?
    ensures OnlySettings(b, SettingStep(g, totals, b, call).value)
  {
    match call
    case CallSetExpiry(_, _) =>
    case CallSetPayoutAddress(_, _) =>
    case CallAllowToken(_, _) =>
    case CallDisallowToken(caller, token) => DisallowTouchesSettings(g, b, caller, token, Lookup(totals, token, 0));
  }

  lemma DisallowTouchesSettings(g: Governance, b: Book, caller: Address, token: Address, tokenTotal: i128)
    requires DisallowToken(g, b, caller, token, tokenTotal).Ok?
    ensures OnlySettings(b, DisallowToken(g, b, caller, token, tokenTotal).value)
  {
  }

  /** One call: the invariant is kept and no finished settlement moves. */
  lemma BookStepKeeps(g: Governance, totals: map<Address, i128>, b: Book, now: u64, call: BookCall)
    requires Sound(b) && BookStep(g, totals, b, now, call).Ok?
    ensures var b' := BookStep(g, totals, b, now, call).value; Sound(b') && Evolves(b, b')
  {
    match call
    case Approving(c) => ApprovalCallKeeps(g, b, now, c);
    case Paying(c) => PayoutCallKeeps(g, b, now, c);
    case Moving(c) => StatusCallKeeps(g, b, now, c);
    case Disputing(c) => DisputeCallKeeps(g, b, now, c);
    case Setting(c) => SettingCallKeeps(g, totals, b, c);
  }

  /** What the invariant says about one settlement: one payout at most, and every total within the amount. */
  lemma SoundPaysOnce(b: Book, id: nat)
    requires Sound(b)
    ensures PaidCount(b.payouts, id) <= 1
    ensures id !in b.settlements ==> PaidCount(b.payouts, id) == 0
    ensures id in b.settlements ==>
              && 0 <= PaidTotal(b.payouts, id) <= b.settlements[id].amount
              && 0 <= Lookup(b.partialApproved, id, 0) <= b.settlements[id].amount
              && 0 <= Lookup(b.partialExecuted, id, 0) <= b.settlements[id].amount
              && (Live(b.settlements[id].status) ==> PaidCount(b.payouts, id) == 0)
  {
    assert RecordOk(b, id) && PaidOk(b, id) && PartialOk(b, id);
  }
}
