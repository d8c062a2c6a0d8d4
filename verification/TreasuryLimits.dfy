/**
 Where the treasury departs from its comments: the exact condition under which a promise holds, and a run on
 which it fails. Dispute holds and deadlines have theirs in DisputeRuns.
 */
module TreasuryLimits {
  import opened Common
  import opened TreasuryTypes
  import opened Multisig
  import opened GovernanceSpec
  import opened SettlementSpec
  import opened TreasuryRuns
  import GovernanceSafety
  import SettlementSafety

  const ADMIN: Address := Account(1)
  const SIGNER: Address := Account(2)
  const MERCHANT: Address := Account(3)
  const TOKEN: Address := Account(4)

  // ----- revoking -----

  /**
   A revocation keeps the recorded weight within what the remaining approvers granted exactly when the
   revoking signer weighs at least what it weighed when it approved.
   */
  lemma RevokeKeepsBackingIff(g: Governance, t: Tally, signer: Address, granted: Address -> int)
    requires signer in t.approvals && (forall a :: granted(a) >= 0)
    requires t.weight == Sum(t.approvals, granted)
    ensures var t' := RevokeApproval(g, t, signer).value;
            t'.weight <= Sum(t'.approvals, granted) <==> SignerWeight(g, signer) >= granted(signer)
  {
    var i := FirstIndexOf(t.approvals, signer);
    SumRemove(t.approvals, i, granted);
    SumNonNegative(t.approvals[..i] + t.approvals[i + 1..], granted);
  }

  function AfterInit(): Governance {
    EMPTY_GOVERNANCE.(admin := Some(ADMIN), threshold := Some(2),
                      weights := map[ADMIN := 1, SIGNER := 3], signerList := [ADMIN, SIGNER])
  }

  const INITIALIZE: Event := Event(10, ToGovernance(CallInitialize(ADMIN, 2, [(SIGNER, 3)])))

  lemma AfterInitialize()
    ensures Run([INITIALIZE]) == State(AfterInit(), EMPTY_BOOK, EMPTY_VAULT)
  {
    var start := EMPTY_GOVERNANCE.(admin := Some(ADMIN), threshold := Some(2), weights := map[ADMIN := 1],
                                   signerList := [ADMIN]);
    assert [(SIGNER, 3)][..0] == [];
    assert Enrol(start, [(SIGNER, 3)]) == AfterInit();
    assert EMPTY_GOVERNANCE.weights[ADMIN := 1] == map[ADMIN := 1];
    RunSnoc([], INITIALIZE);
    assert [] + [INITIALIZE] == [INITIALIZE];
    assert ResetBook(EMPTY_BOOK) == EMPTY_BOOK;
  }

  const PROPOSE: Event := Event(20, ToBook(Approving(CallPropose(SIGNER, MERCHANT, 100, None, 0, true))))

  function Proposed(approvals: seq<Address>, weight: u32, status: SettlementStatus): Settlement {
    Settlement(1, MERCHANT, 100, approvals, weight, status, NoHold, 20, 0, None)
  }

  lemma AfterProposal()
    ensures Run([INITIALIZE, PROPOSE]) ==
            State(AfterInit(), OnePending(), EMPTY_VAULT)
  {
    AfterInitialize();
    RunSnoc([INITIALIZE], PROPOSE);
    assert [INITIALIZE] + [PROPOSE] == [INITIALIZE, PROPOSE];
    assert [] + [SIGNER] == [SIGNER];
    assert EMPTY_BOOK.pendingIndex + [1] == [1];
  }

  const LOWER: Event := Event(30, ToGovernance(CallSetSigner(ADMIN, SIGNER, 1)))
  const REVOKE: Event := Event(40, ToBook(Approving(CallRevoke(SIGNER, 1))))
  const EXECUTE: Event := Event(50, ToBook(Paying(CallExecute(ADMIN, 1, TOKEN, true))))
  const REVOKE_RUN: seq<Event> := [INITIALIZE, PROPOSE, LOWER, REVOKE, EXECUTE]

  function Lowered(): Governance {
    AfterInit().(weights := map[ADMIN := 1, SIGNER := 1])
  }

  function Bare(status: SettlementStatus): Book {
    EMPTY_BOOK.(settlements := map[1 := Proposed([], 2, status)], settlementCount := 1, pendingIndex := [1])
  }

  lemma AfterLowering()
    ensures Run([INITIALIZE, PROPOSE, LOWER]) == State(Lowered(), OnePending(), EMPTY_VAULT)
  {
    AfterProposal();
    RunSnoc([INITIALIZE, PROPOSE], LOWER);
    assert [INITIALIZE, PROPOSE] + [LOWER] == [INITIALIZE, PROPOSE, LOWER];
    assert SetSigner(AfterInit(), ADMIN, SIGNER, 1).value == Lowered();
  }

  lemma RevokeLeavesWeight()
    ensures Revoke(Lowered(), OnePending(), SIGNER, 1) == Ok(Bare(Pending))
  {
    assert [SIGNER][..0] + [SIGNER][1..] == [];
    assert RevokeApproval(Lowered(), Tally([SIGNER], 3), SIGNER) == Some(Tally([], 2));
    assert OnePending().settlements[1 := Proposed([], 2, Pending)] == Bare(Pending).settlements;
    assert WriteSettlement(OnePending(), 1, Proposed([], 2, Pending)) == Bare(Pending);
  }

  lemma AfterRevocation()
    ensures Run([INITIALIZE, PROPOSE, LOWER, REVOKE]) == State(Lowered(), Bare(Pending), EMPTY_VAULT)
  {
    AfterLowering();
    RevokeLeavesWeight();
    RunSnoc([INITIALIZE, PROPOSE, LOWER], REVOKE);
    assert [INITIALIZE, PROPOSE, LOWER] + [REVOKE] == [INITIALIZE, PROPOSE, LOWER, REVOKE];
  }

  lemma AfterExecution()
    ensures var b := Execute(Lowered(), Bare(Pending), 50, ADMIN, 1, TOKEN, true).value;
            && Execute(Lowered(), Bare(Pending), 50, ADMIN, 1, TOKEN, true).Ok?
            && b.settlements == map[1 := Proposed([], 2, Executed)]
            && b.payouts == [Payout(Full, 1, TOKEN, MERCHANT, 100, 50)]
  {
  }

  /** A signer whose weight was lowered revokes the only approval, and the settlement is paid all the same. */
  lemma PaidWithoutApprovers()
    ensures var b := Run(REVOKE_RUN).book;
            && 1 in b.settlements && b.settlements[1].status.Executed? && b.settlements[1].approvals == []
            && |b.payouts| == 1 && b.payouts[0].id == 1
    ensures !NoLossOnRevoke(REVOKE_RUN[..4], 1)
  {
    AfterRevocation();
    AfterExecution();
    var es := [INITIALIZE, PROPOSE, LOWER, REVOKE];
    RunSnoc(es, EXECUTE);
    assert es + [EXECUTE] == REVOKE_RUN == REVOKE_RUN[..5] && REVOKE_RUN[..4] == es;
    if NoLossOnRevoke(es, 1) {
      EveryPayoutIsBacked(REVOKE_RUN, 4, 0);
      assert false;
    }
  }

  // ----- batch execution -----

  const BATCH: Event := Event(30, ToBook(Paying(CallBatchExecute(ADMIN, [1, 1], TOKEN))))

  function OnePending(): Book {
    EMPTY_BOOK.(settlements := map[1 := Proposed([SIGNER], 3, Pending)], settlementCount := 1, pendingIndex := [1])
  }

  function OneBatched(): Book {
    OnePending().(settlements := map[1 := Proposed([SIGNER], 3, Executed)],
                  payouts := [Payout(Batched, 1, TOKEN, MERCHANT, 100, 30)])
  }

  lemma BatchPaysOnce()
    ensures ExecuteEach(OnePending(), 30, 2, TOKEN, [1, 1]) == OneBatched()
  {
    assert ExecuteIfReady(OnePending(), 30, 2, TOKEN, 1) == OneBatched();
    assert [1, 1][..1] == [1] && [1][..0] == [];
    assert ExecuteEach(OnePending(), 30, 2, TOKEN, [1]) == OneBatched();
    assert ExecuteIfReady(OneBatched(), 30, 2, TOKEN, 1) == OneBatched();
  }

  /** After a batch execution the index still lists the paid settlement; the repeated id is paid once. */
  lemma BatchLeavesStaleEntry()
    ensures var b := Run([INITIALIZE, PROPOSE, BATCH]).book;
            && b.pendingIndex == [1] && 1 in b.settlements && b.settlements[1].status.Executed?
            && |b.payouts| == 1 && PendingScan(b) == []
  {
    AfterProposal();
    BatchPaysOnce();
    var es := [INITIALIZE, PROPOSE];
    RunSnoc(es, BATCH);
    assert es + [BATCH] == [INITIALIZE, PROPOSE, BATCH];
    assert BatchExecute(AfterInit(), OnePending(), 30, ADMIN, [1, 1], TOKEN) == Ok(OneBatched());
    assert Ids(1)[..0] == [];
    assert PendingScan(OneBatched()) == [];
  }

  // ----- disputes raised before initialisation -----

  const EARLY: Event := Event(5, ToBook(Disputing(CallRaiseDispute(MERCHANT, 7, SIGNER, 100, 60))))
  const LATE: Event := Event(20, ToBook(Disputing(CallRaiseDispute(MERCHANT, 7, SIGNER, 200, 60))))

  lemma RaiseAlone(g: Governance, b: Book, amount: i128, listed: seq<nat>)
    requires !g.paused && amount > 0 && b.settlements == map[] && b.disputeCount == 0
    requires listed == Lookup(b.settlementDisputes, 7, [])
    ensures var r := RaiseDispute(g, b, MERCHANT, 7, SIGNER, amount, 60);
            && r.Ok? && r.value.disputeCount == 1 && r.value.settlements == map[]
            && 1 in r.value.disputes && r.value.disputes[1].amount == amount
            && 7 in r.value.settlementDisputes && r.value.settlementDisputes[7] == listed + [1]
  {
  }

  /** A dispute raised before `initialize` shares its id with the next one, which replaces it and is listed twice. */
  lemma EarlyDisputeIsOverwritten()
    ensures var b := Run([EARLY]).book; 1 in b.disputes && b.disputes[1].amount == 100
    ensures var b := Run([EARLY, INITIALIZE, LATE]).book;
            && 1 in b.disputes && b.disputes[1].amount == 200 && b.disputeCount == 1
            && 7 in b.settlementDisputes && b.settlementDisputes[7] == [1, 1]
    ensures !InitializedFirst([EARLY, INITIALIZE, LATE])
  {
    RunSnoc([], EARLY);
    assert [] + [EARLY] == [EARLY];
    RaiseAlone(EMPTY_GOVERNANCE, EMPTY_BOOK, 100, []);
    var s1 := Run([EARLY]);
    assert s1.gov == EMPTY_GOVERNANCE && s1.book.settlementDisputes[7] == [1];
    RunSnoc([EARLY], INITIALIZE);
    assert [EARLY] + [INITIALIZE] == [EARLY, INITIALIZE];
    EnrolKeepsPaused(EMPTY_GOVERNANCE.(admin := Some(ADMIN), threshold := Some(2), paused := false,
                                       weights := EMPTY_GOVERNANCE.weights[ADMIN := 1], signerList := [ADMIN]),
                     [(SIGNER, 3)]);
    var s2 := Run([EARLY, INITIALIZE]);
    assert s2.book == ResetBook(s1.book) && !s2.gov.paused;
    RaiseAlone(s2.gov, s2.book, 200, [1]);
    RunSnoc([EARLY, INITIALIZE], LATE);
    var es := [EARLY, INITIALIZE, LATE];
    assert [EARLY, INITIALIZE] + [LATE] == es;
    assert es[..1] == [EARLY];
    assert InitializesAt(es, 1) && Run(es[..1]).book.disputeCount == 1;
  }

  lemma {:induction false} EnrolKeepsPaused(g: Governance, signers: seq<(Address, u32)>)
    ensures Enrol(g, signers).paused == g.paused
  {
    if signers != [] { EnrolKeepsPaused(g, signers[..|signers| - 1]); }
  }

  // ----- rotation -----

  const ALONE: Event := Event(10, ToGovernance(CallInitialize(ADMIN, 1, [])))
  const ROTATE: Event := Event(20, ToGovernance(CallProposeRotation(ADMIN, ADMIN, SIGNER)))
  const AGREE: Event := Event(30, ToGovernance(CallApproveRotation(ADMIN, 1)))

  function Alone(): Governance {
    EMPTY_GOVERNANCE.(admin := Some(ADMIN), threshold := Some(1), weights := map[ADMIN := 1], signerList := [ADMIN])
  }

  function Rotating(): Governance {
    Alone().(lastRotation := map[ADMIN := 20], rotationCount := 1,
             rotations := map[1 := Rotation(ADMIN, SIGNER, [ADMIN], 1, RotationPending, 1)])
  }

  lemma AfterAlone()
    ensures Run([ALONE]).gov == Alone()
  {
    assert EMPTY_GOVERNANCE.weights[ADMIN := 1] == map[ADMIN := 1];
    RunSnoc([], ALONE);
    assert [] + [ALONE] == [ALONE];
  }

  lemma RotationIsQueued()
    ensures GovStep(Alone(), 20, ROTATE.call.gov) == Ok(Rotating())
  {
    assert [] + [ADMIN] == [ADMIN];
    assert RecordApproval(Alone(), Tally([], 0), ADMIN) == Ok(Tally([ADMIN], 1));
    assert Alone().lastRotation[ADMIN := 20] == map[ADMIN := 20];
    assert Alone().rotations[1 := Rotating().rotations[1]] == Rotating().rotations;
  }

  lemma AfterRotate()
    ensures Run([ALONE, ROTATE]).gov == Rotating()
  {
    AfterAlone();
    RotationIsQueued();
    RunSnoc([ALONE], ROTATE);
    assert [ALONE] + [ROTATE] == [ALONE, ROTATE];
  }

  lemma RotationExecutes()
    ensures GovStep(Rotating(), 30, AGREE.call.gov).Ok?
    ensures var g := GovStep(Rotating(), 30, AGREE.call.gov).value;
            g.signerList == [ADMIN] && SignerWeight(g, ADMIN) == 0 && SignerWeight(g, SIGNER) == 1
  {
  }

  /**
   After an executed rotation the new signer has weight but is not listed, and the old one is listed without weight.
   */
  lemma RotationLeavesListStale()
    ensures var g := Run([ALONE, ROTATE, AGREE]).gov;
            g.signerList == [ADMIN] && SignerWeight(g, ADMIN) == 0 && SignerWeight(g, SIGNER) == 1
  {
    AfterRotate();
    RotationExecutes();
    RunSnoc([ALONE, ROTATE], AGREE);
    assert [ALONE, ROTATE] + [AGREE] == [ALONE, ROTATE, AGREE];
  }

  const PAUSE: Event := Event(40, ToGovernance(CallSetPaused(ADMIN, true)))

  /** After that rotation, once paused, an emergency withdrawal needs no signer at all. */
  lemma EmergencyWithoutSigners(held: i128)
    ensures var g := Run([ALONE, ROTATE, AGREE, PAUSE]).gov;
            EmergencyPayout(g, [], held).Ok? && SignerWeight(g, SIGNER) > 0
  {
    RotationLeavesListStale();
    RotationKeepsAdmin();
    RunSnoc([ALONE, ROTATE, AGREE], PAUSE);
    assert [ALONE, ROTATE, AGREE] + [PAUSE] == [ALONE, ROTATE, AGREE, PAUSE];
  }

  lemma RotationKeepsAdmin()
    ensures Run([ALONE, ROTATE, AGREE]).gov.admin == Some(ADMIN)
  {
    AfterRotate();
    RunSnoc([ALONE, ROTATE], AGREE);
    assert [ALONE, ROTATE] + [AGREE] == [ALONE, ROTATE, AGREE];
  }

  // ----- an unreachable threshold -----

  const QUEUE_DROP: Event := Event(20, ToGovernance(CallProposeChange(ADMIN, DropSigner(SIGNER))))
  const APPLY_DROP: Event := Event(86_420, ToGovernance(CallExecuteChange(ADMIN, 1)))

  function DropQueued(): Governance {
    AfterInit().(changes := map[1 := SignerChange(1, DropSigner(SIGNER), 20, 86_420, ChangePending)],
                 changeCount := 1, journal := [Queued(1, 20, 86_400)])
  }

  lemma DropIsQueued()
    ensures GovStep(AfterInit(), 20, QUEUE_DROP.call.gov) == Ok(DropQueued())
  {
    assert AfterInit().changes[1 := DropQueued().changes[1]] == DropQueued().changes;
    assert [] + [Queued(1, 20, 86_400)] == [Queued(1, 20, 86_400)];
  }

  lemma ListedBeforeDrop()
    ensures ListedWeight(DropQueued()) == 4 && NoDup(DropQueued().signerList)
  {
    var both: seq<Address>, one: seq<Address> := [ADMIN, SIGNER], [ADMIN];
    assert both[..|both| - 1] == one && one[..|one| - 1] == [];
    assert Sum(one, WeightIn(DropQueued())) == 1;
  }

  lemma DropIsApplied()
    ensures GovStep(DropQueued(), 86_420, APPLY_DROP.call.gov).Ok?
    ensures !GovernanceSafety.Reachable(GovStep(DropQueued(), 86_420, APPLY_DROP.call.gov).value)
    ensures RemoveSigner(DropQueued(), ADMIN, SIGNER) == Err(QuorumBreak)
  {
    ListedBeforeDrop();
    GovernanceSafety.QueuedChangeReachableIff(DropQueued(), 86_420, ADMIN, 1);
  }

  /** A timelocked removal, refused to `remove_signer`, leaves a threshold that the listed signers cannot reach. */
  lemma ThresholdBecomesUnreachable()
    ensures !GovernanceSafety.Reachable(Run([INITIALIZE, QUEUE_DROP, APPLY_DROP]).gov)
    ensures RemoveSigner(Run([INITIALIZE, QUEUE_DROP]).gov, ADMIN, SIGNER) == Err(QuorumBreak)
  {
    AfterInitialize();
    DropIsQueued();
    DropIsApplied();
    RunSnoc([INITIALIZE], QUEUE_DROP);
    assert [INITIALIZE] + [QUEUE_DROP] == [INITIALIZE, QUEUE_DROP];
    RunSnoc([INITIALIZE, QUEUE_DROP], APPLY_DROP);
    assert [INITIALIZE, QUEUE_DROP] + [APPLY_DROP] == [INITIALIZE, QUEUE_DROP, APPLY_DROP];
  }

  // ----- the partially approved total -----

  /** What was partially paid for `id` is within what was partially approved. */
  ghost predicate WithinApproved(b: Book, id: nat) {
    Lookup(b.partialExecuted, id, 0) <= Lookup(b.partialApproved, id, 0)
  }

  /** A partial execution never reads the approved total: it stays within it exactly when its part does. */
  lemma PartialWithinApprovedIff(g: Governance, b: Book, now: u64, signer: Address, id: nat, part: i128, token: Address)
    requires SettlementSafety.Sound(b) && (forall k :: WithinApproved(b, k))
    requires ExecutePartially(g, b, now, signer, id, part, token).Ok?
    ensures (forall k :: WithinApproved(ExecutePartially(g, b, now, signer, id, part, token).value, k)) <==>
              part <= Lookup(b.partialApproved, id, 0)
  {
    assert SettlementSafety.PaidOk(b, id);
    var b' := ExecutePartially(g, b, now, signer, id, part, token).value;
    assert b'.partialApproved == b.partialApproved && b'.partialExecuted == b.partialExecuted[id := part];
    if part <= Lookup(b.partialApproved, id, 0) {
      forall k ensures WithinApproved(b', k) { assert WithinApproved(b, k); }
    } else {
      assert !WithinApproved(b', id);
    }
  }

  const PAY_PART: Event := Event(30, ToBook(Paying(CallExecutePartially(ADMIN, 1, 50, TOKEN))))

  /** A part of a settlement is paid although no partial amount was ever approved. */
  lemma PartPaidUnapproved()
    ensures var b := Run([INITIALIZE, PROPOSE, PAY_PART]).book;
            1 !in b.partialApproved && |b.payouts| == 1 && b.payouts[0].amount == 50 && !WithinApproved(b, 1)
  {
    AfterProposal();
    RunSnoc([INITIALIZE, PROPOSE], PAY_PART);
    assert [INITIALIZE, PROPOSE] + [PAY_PART] == [INITIALIZE, PROPOSE, PAY_PART];
  }
}
