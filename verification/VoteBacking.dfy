/** Disputes closed by vote and executed rotations: every one is backed, over all runs and without any condition. */
module VoteBacking {
  import opened Common
  import opened TreasuryTypes
  import opened Multisig
  import opened GovernanceSpec
  import opened SettlementSpec
  import opened TreasuryRuns
  import opened TallyBacking
  import SettlementSafety
  import DisputeSafety

  /** The state after the first `n` calls. */
  ghost function After(es: seq<Event>, n: nat): State { Run(es[..Min(n, |es|)]) }

  ghost function WeighIn(es: seq<Event>): (nat, Address) -> nat {
    (n: nat, a: Address) => SignerWeight(After(es, n).gov, a)
  }

  lemma AfterNext(es: seq<Event>, n: nat)
    requires 0 < n <= |es|
    ensures After(es, n) == Step(After(es, n - 1), es[n - 1])
  {
    RunPrefix(es, n - 1);
  }

  // ----- votes -----

  ghost function VotesOn(b: Book, d: nat): Tally {
    if d in b.disputes then Tally(b.disputes[d].approvals, b.disputes[d].weight) else Tally([], 0)
  }

  ghost function VotesIn(es: seq<Event>, d: nat): nat -> Tally { (n: nat) => VotesOn(After(es, n).book, d) }

  /** `a`, with weight in `g`, joins the voters of `d`. */
  ghost predicate VoteJoins(g: Governance, b: Book, b': Book, d: nat, a: Address) {
    var t, t' := VotesOn(b, d), VotesOn(b', d);
    && a !in t.approvals && SignerWeight(g, a) > 0
    && t'.approvals == t.approvals + [a] && t'.weight == t.weight + SignerWeight(g, a)
  }

  ghost predicate VotesMove(g: Governance, b: Book, b': Book, d: nat) {
    VotesOn(b', d) == VotesOn(b, d) || VotesOn(b', d) == Tally([], 0) || exists a :: VoteJoins(g, b, b', d, a)
  }

  lemma CloseKeepsVotes(g: Governance, b: Book, now: u64, call: DisputeCall, d: nat)
    requires DisputeSafety.Closing(call) && DisputeStep(g, b, now, call).Ok?
    ensures VotesOn(DisputeStep(g, b, now, call).value, d) == VotesOn(b, d)
  {
  }

  lemma VoteMovesVotes(g: Governance, b: Book, signer: Address, id: nat, forClaimant: bool, d: nat)
    requires Vote(g, b, signer, id, forClaimant).Ok?
    ensures var b' := Vote(g, b, signer, id, forClaimant).value;
            if d == id then VoteJoins(g, b, b', d, signer) else VotesOn(b', d) == VotesOn(b, d)
  {
  }

  lemma DisputeStepMovesVotes(g: Governance, b: Book, now: u64, call: DisputeCall, d: nat)
    requires DisputeStep(g, b, now, call).Ok?
    ensures VotesMove(g, b, DisputeStep(g, b, now, call).value, d)
  {
    match call
    case CallRaiseDispute(_, _, _, _, _) =>
    case CallVote(signer, id, forClaimant) => VoteMovesVotes(g, b, signer, id, forClaimant, d);
    case _ => CloseKeepsVotes(g, b, now, call, d);
  }

  lemma BookStepMovesVotes(g: Governance, totals: map<Address, i128>, b: Book, now: u64, call: BookCall, d: nat)
    requires BookStep(g, totals, b, now, call).Ok?
    ensures VotesMove(g, b, BookStep(g, totals, b, now, call).value, d)
  {
    match call
    case Approving(c) => DisputeSafety.ApprovalUntouched(g, b, now, c);
    case Paying(c) => DisputeSafety.PayoutUntouched(g, b, now, c);
    case Moving(c) => DisputeSafety.StatusUntouched(g, b, now, c);
    case Disputing(c) => DisputeStepMovesVotes(g, b, now, c, d);
    case Setting(c) => SettlementSafety.SettingTouchesSettings(g, totals, b, c);
  }

  lemma StepMovesVotes(s: State, e: Event, d: nat)
    ensures VotesMove(s.gov, s.book, Step(s, e).book, d)
  {
    if e.call.ToBook? && BookStep(s.gov, s.vault.totals, s.book, e.now, e.call.book).Ok? {
      BookStepMovesVotes(s.gov, s.vault.totals, s.book, e.now, e.call.book, d);
    } else {
      assert Step(s, e).book.disputes == s.book.disputes;
    }
  }

  lemma VotesGrow(es: seq<Event>, d: nat, n: nat)
    requires n <= |es|
    ensures Grows(VotesIn(es, d), WeighIn(es), n)
  {
    var tally, weigh := VotesIn(es, d), WeighIn(es);
    assert es[..0] == [];
    forall k | 0 < k <= n ensures GrowsAt(tally, weigh, k) {
      var s, s' := After(es, k - 1), After(es, k);
      AfterNext(es, k);
      StepMovesVotes(s, es[k - 1], d);
      if a :| VoteJoins(s.gov, s.book, s'.book, d, a) { assert JoinsAt(tally, weigh, k, a); }
    }
  }

  /** The weight recorded for a dispute's voters is, in every run, what they weighed when they voted. */
  lemma VotesAreBacked(es: seq<Event>, d: nat)
    ensures BackedAt(VotesIn(es, d), WeighIn(es), |es|)
  {
    VotesGrow(es, d, |es|);
    GrowingIsBacked(VotesIn(es, d), WeighIn(es), |es|);
  }

  /**
   Every dispute that a vote closes, at any step of any run, is backed: distinct signers whose positive weights when
   they voted add up to at least the threshold in force.
   */
  lemma ClosingVoteIsBacked(es: seq<Event>, i: nat, d: nat)
    requires i < |es| && es[i].call.ToBook? && es[i].call.book.Disputing? && es[i].call.book.dispute.CallVote?
    requires d in Run(es[..i]).book.disputes && Run(es[..i]).book.disputes[d].status.Raised?
    requires d in Run(es[..i + 1]).book.disputes && !Run(es[..i + 1]).book.disputes[d].status.Raised?
    ensures var voters := Run(es[..i + 1]).book.disputes[d].approvals;
            var granted := GrantedAfter(VotesIn(es[..i + 1], d), WeighIn(es[..i + 1]), i + 1);
            && voters != [] && NoDup(voters) && (forall a :: a in voters ==> granted(a) > 0)
            && Run(es[..i]).gov.threshold.Some? && Sum(voters, granted) >= Run(es[..i]).gov.threshold.value
  {
    var upTo := es[..i + 1];
    assert upTo[..Min(i + 1, |upTo|)] == upTo;
    RunPrefix(es, i);
    VotesAreBacked(upTo, d);
    ClosingVoteMeets(Run(es[..i]), es[i], d);
  }

  lemma ClosingVoteMeets(s: State, e: Event, d: nat)
    requires e.call.ToBook? && e.call.book.Disputing? && e.call.book.dispute.CallVote?
    requires d in s.book.disputes && s.book.disputes[d].status.Raised?
    requires d in Step(s, e).book.disputes && !Step(s, e).book.disputes[d].status.Raised?
    ensures Step(s, e).book.disputes[d].approvals != []
    ensures s.gov.threshold.Some? && Step(s, e).book.disputes[d].weight >= s.gov.threshold.value
  {
  }

  // ----- rotations -----

  ghost function BackersOf(g: Governance, id: nat): Tally {
    if id in g.rotations then Tally(g.rotations[id].approvals, g.rotations[id].approvalWeight) else Tally([], 0)
  }

  ghost function BackersIn(es: seq<Event>, id: nat): nat -> Tally { (n: nat) => BackersOf(After(es, n).gov, id) }

  ghost predicate BackerJoins(g: Governance, g': Governance, id: nat, a: Address) {
    var t, t' := BackersOf(g, id), BackersOf(g', id);
    && a !in t.approvals && SignerWeight(g, a) > 0
    && t'.approvals == t.approvals + [a] && t'.weight == t.weight + SignerWeight(g, a)
  }

  ghost predicate BackersMove(g: Governance, g': Governance, id: nat) {
    BackersOf(g', id) == BackersOf(g, id) || exists a :: BackerJoins(g, g', id, a)
  }

  /** Rotation ids are handed out by the counter. */
  ghost predicate Numbered(g: Governance) { forall id :: id in g.rotations ==> id <= g.rotationCount }

  lemma {:induction false} EnrolLeavesRotations(g: Governance, signers: seq<(Address, u32)>)
    ensures Enrol(g, signers).rotations == g.rotations && Enrol(g, signers).rotationCount == g.rotationCount
  {
    if signers != [] { EnrolLeavesRotations(g, signers[..|signers| - 1]); }
  }

  lemma OtherCallsLeaveRotations(g: Governance, now: u64, call: GovCall)
    requires GovStep(g, now, call).Ok?
    requires !call.CallProposeRotation? && !call.CallApproveRotation? && !call.CallCancelRotation?
    ensures var g' := GovStep(g, now, call).value; g'.rotations == g.rotations && g'.rotationCount == g.rotationCount
  {
    if call.CallInitialize? {
      EnrolLeavesRotations(g.(admin := Some(call.admin), threshold := Some(call.threshold), paused := false,
                              weights := g.weights[call.admin := 1], signerList := [call.admin]), call.signers);
    }
  }

  lemma ProposalMovesBackers(g: Governance, now: u64, caller: Address, oldSigner: Address, newSigner: Address, id: nat)
    requires Numbered(g) && ProposeRotation(g, now, caller, oldSigner, newSigner).Ok?
    ensures var g' := ProposeRotation(g, now, caller, oldSigner, newSigner).value;
            Numbered(g') && (BackersOf(g', id) == BackersOf(g, id) || BackerJoins(g, g', id, caller))
  {
  }

  lemma ApprovalMovesBackers(g: Governance, caller: Address, target: nat, id: nat)
    requires Numbered(g) && ApproveRotation(g, caller, target).Ok?
    ensures var g' := ApproveRotation(g, caller, target).value;
            Numbered(g') && (BackersOf(g', id) == BackersOf(g, id) || BackerJoins(g, g', id, caller))
  {
  }

  lemma GovStepMovesBackers(g: Governance, now: u64, call: GovCall, id: nat)
    requires Numbered(g) && GovStep(g, now, call).Ok?
    ensures Numbered(GovStep(g, now, call).value) && BackersMove(g, GovStep(g, now, call).value, id)
  {
    match call
    case CallProposeRotation(caller, oldSigner, newSigner) =>
      ProposalMovesBackers(g, now, caller, oldSigner, newSigner, id);
    case CallApproveRotation(caller, target) => ApprovalMovesBackers(g, caller, target, id);
    case CallCancelRotation(_, _) =>
    case _ => OtherCallsLeaveRotations(g, now, call);
  }

  lemma {:induction false} RunIsNumbered(es: seq<Event>)
    ensures Numbered(Run(es).gov)
  {
    if es != [] {
      var front, e := es[..|es| - 1], es[|es| - 1];
      RunIsNumbered(front);
      if e.call.ToGovernance? && GovStep(Run(front).gov, e.now, e.call.gov).Ok? {
        GovStepMovesBackers(Run(front).gov, e.now, e.call.gov, 0);
      }
    }
  }

  lemma StepMovesBackers(s: State, e: Event, id: nat)
    requires Numbered(s.gov)
    ensures BackersMove(s.gov, Step(s, e).gov, id)
  {
    if e.call.ToGovernance? && GovStep(s.gov, e.now, e.call.gov).Ok? {
      GovStepMovesBackers(s.gov, e.now, e.call.gov, id);
    } else {
      assert Step(s, e).gov == s.gov;
    }
  }

  lemma BackersGrow(es: seq<Event>, id: nat, n: nat)
    requires n <= |es|
    ensures Grows(BackersIn(es, id), WeighIn(es), n)
  {
    var tally, weigh := BackersIn(es, id), WeighIn(es);
    assert es[..0] == [];
    forall k | 0 < k <= n ensures GrowsAt(tally, weigh, k) {
      var s, s' := After(es, k - 1), After(es, k);
      AfterNext(es, k);
      RunIsNumbered(es[..k - 1]);
      StepMovesBackers(s, es[k - 1], id);
      if a :| BackerJoins(s.gov, s'.gov, id, a) { assert JoinsAt(tally, weigh, k, a); }
    }
  }

  /** The weight recorded for a rotation's backers is, in every run, what they weighed when they approved. */
  lemma BackersAreBacked(es: seq<Event>, id: nat)
    ensures BackedAt(BackersIn(es, id), WeighIn(es), |es|)
  {
    BackersGrow(es, id, |es|);
    GrowingIsBacked(BackersIn(es, id), WeighIn(es), |es|);
  }

  /**
   Every rotation executed, at any step of any run, is backed: distinct signers whose positive weights when they
   approved add up to at least the threshold in force (one, if none is configured).
   */
  lemma ExecutedRotationIsBacked(es: seq<Event>, i: nat, id: nat)
    requires i < |es| && id in Run(es[..i]).gov.rotations && Run(es[..i]).gov.rotations[id].status.RotationPending?
    requires id in Run(es[..i + 1]).gov.rotations && Run(es[..i + 1]).gov.rotations[id].status.RotationExecuted?
    ensures var backers := Run(es[..i + 1]).gov.rotations[id].approvals;
            var granted := GrantedAfter(BackersIn(es[..i + 1], id), WeighIn(es[..i + 1]), i + 1);
            && backers != [] && NoDup(backers) && (forall a :: a in backers ==> granted(a) > 0)
            && Sum(backers, granted) >= Run(es[..i]).gov.threshold.GetOr(1)
  {
    var upTo := es[..i + 1];
    assert upTo[..Min(i + 1, |upTo|)] == upTo;
    RunPrefix(es, i);
    BackersAreBacked(upTo, id);
    RunIsNumbered(es[..i]);
    ExecutionMeets(Run(es[..i]), es[i], id);
  }

  lemma ApprovalMeets(g: Governance, caller: Address, target: nat, id: nat)
    requires ApproveRotation(g, caller, target).Ok? && id in g.rotations && g.rotations[id].status.RotationPending?
    requires ApproveRotation(g, caller, target).value.rotations[id].status.RotationExecuted?
    ensures var r := ApproveRotation(g, caller, target).value.rotations[id];
            r.approvals != [] && r.approvalWeight >= g.threshold.GetOr(1)
  {
  }

  lemma OnlyApprovalExecutes(g: Governance, now: u64, call: GovCall, id: nat)
    requires Numbered(g) && GovStep(g, now, call).Ok? && id in g.rotations && g.rotations[id].status.RotationPending?
    requires id in GovStep(g, now, call).value.rotations
    requires GovStep(g, now, call).value.rotations[id].status.RotationExecuted?
    ensures call.CallApproveRotation?
  {
    if !call.CallProposeRotation? && !call.CallApproveRotation? && !call.CallCancelRotation? {
      OtherCallsLeaveRotations(g, now, call);
    }
  }

  lemma ExecutionMeets(s: State, e: Event, id: nat)
    requires Numbered(s.gov) && id in s.gov.rotations && s.gov.rotations[id].status.RotationPending?
    requires id in Step(s, e).gov.rotations && Step(s, e).gov.rotations[id].status.RotationExecuted?
    ensures var r := Step(s, e).gov.rotations[id]; r.approvals != [] && r.approvalWeight >= s.gov.threshold.GetOr(1)
  {
    OnlyApprovalExecutes(s.gov, e.now, e.call.gov, id);
    ApprovalMeets(s.gov, e.call.gov.caller, e.call.gov.id, id);
  }
}
