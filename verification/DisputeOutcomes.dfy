/** Every dispute, told by the calls of the run: who raised it for what, who voted, how it ended and what was paid. */
module DisputeOutcomes {
  import opened Common
  import opened BasisPoints
  import opened TreasuryTypes
  import opened SettlementSpec
  import opened TreasuryRuns
  import GovernanceSpec
  import DisputeSafety

  ghost predicate Succeeds(s: State, e: Event) {
    e.call.ToBook? && e.call.book.Disputing? && DisputeStep(s.gov, s.book, e.now, e.call.book.dispute).Ok?
  }

  ghost predicate Raises(s: State, e: Event) { Succeeds(s, e) && e.call.book.dispute.CallRaiseDispute? }

  ghost predicate Concerns(s: State, e: Event, d: nat) {
    Succeeds(s, e) && !e.call.book.dispute.CallRaiseDispute? && e.call.book.dispute.id == d
  }

  /** The successful raising calls; the one at `d - 1` raises dispute `d`. */
  ghost function Raising(es: seq<Event>): (cs: seq<DisputeCall>)
    ensures forall i :: 0 <= i < |cs| ==> cs[i].CallRaiseDispute?
  {
    if es == [] then []
    else
      var front, e := es[..|es| - 1], es[|es| - 1];
      if Raises(Run(front), e) then Raising(front) + [e.call.book.dispute] else Raising(front)
  }

  /** What has happened to a dispute since it was raised. */
  datatype Course = Course(voters: seq<Address>, weight: int, forClaimant: bool, status: DisputeStatus, bps: int)

  ghost function Verdict(forClaimant: bool): DisputeStatus {
    if forClaimant then ResolvedClaimant else ResolvedCounterparty
  }

  ghost function Next(c: Course, g: Governance, call: DisputeCall): Course {
    match call
    case CallRaiseDispute(_, _, _, _, _) => c
    case CallExpireDispute(_, _) => c.(status := DisputeExpired)
    case CallResolveDispute(_, _, forClaimant) => c.(status := Verdict(forClaimant))
    case CallResolveSplit(_, _, bps, _) => c.(status := ResolvedSplit, bps := bps)
    case CallVote(signer, _, forClaimant) =>
      var weight := c.weight + SignerWeight(g, signer);
      Course(c.voters + [signer], weight, forClaimant,
             if weight >= g.threshold.GetOr(0) then Verdict(forClaimant) else c.status, c.bps)
  }

  const UNTOUCHED: Course := Course([], 0, false, Raised, 0)

  ghost function CourseOf(es: seq<Event>, d: nat): Course {
    if es == [] then UNTOUCHED
    else
      var front, e := es[..|es| - 1], es[|es| - 1];
      if Concerns(Run(front), e, d) then Next(CourseOf(front, d), Run(front).gov, e.call.book.dispute)
      else CourseOf(front, d)
  }

  /** Dispute `x` carries the terms of the call that raised it and has taken course `c`. */
  ghost predicate Describes(x: Dispute, d: nat, raise: DisputeCall, c: Course)
    requires raise.CallRaiseDispute?
  {
    && x.id == d && x.settlementId == raise.sid && x.claimant == raise.claimant
    && x.counterparty == raise.counterparty && x.amount == raise.amount && x.expiresAt == raise.expiresAt
    && x.approvals == c.voters && x.weight == c.weight && x.forClaimant == c.forClaimant
    && x.status == c.status && x.claimantBps == c.bps
  }

  lemma RaiseStores(g: Governance, b: Book, now: u64, call: DisputeCall, d: nat)
    requires call.CallRaiseDispute? && DisputeStep(g, b, now, call).Ok?
    ensures var b' := DisputeStep(g, b, now, call).value;
            && b'.disputeCount == b.disputeCount + 1
            && (d in b'.disputes <==> d in b.disputes || d == b'.disputeCount)
            && (d in b.disputes && d != b'.disputeCount ==> b'.disputes[d] == b.disputes[d])
            && (d == b'.disputeCount ==> Describes(b'.disputes[d], d, call, UNTOUCHED))
  {
  }

  lemma OthersLeaveIt(g: Governance, b: Book, now: u64, call: DisputeCall, d: nat)
    requires !call.CallRaiseDispute? && DisputeStep(g, b, now, call).Ok?
    ensures var b' := DisputeStep(g, b, now, call).value;
            && call.id in b.disputes && b'.disputeCount == b.disputeCount
            && (d in b'.disputes <==> d in b.disputes)
            && (d in b.disputes && d != call.id ==> b'.disputes[d] == b.disputes[d])
  {
    if DisputeSafety.Closing(call) { DisputeSafety.CloseShape(g, b, now, call); }
  }

  /** A call on dispute `d` takes it one step along its course. */
  lemma CallAdvances(g: Governance, b: Book, now: u64, call: DisputeCall, raise: DisputeCall, c: Course)
    requires raise.CallRaiseDispute? && !call.CallRaiseDispute? && DisputeStep(g, b, now, call).Ok?
    requires call.id in b.disputes && Describes(b.disputes[call.id], call.id, raise, c)
    ensures call.id in DisputeStep(g, b, now, call).value.disputes
    ensures Describes(DisputeStep(g, b, now, call).value.disputes[call.id], call.id, raise, Next(c, g, call))
  {
    match call
    case CallExpireDispute(_, _) =>
    case CallResolveDispute(_, _, _) =>
    case CallResolveSplit(_, _, _, _) =>
    case CallVote(_, _, _) =>
  }

  lemma OnlyDisputeCallsCount(s: State, e: Event)
    requires !Succeeds(s, e)
    ensures var b' := Step(s, e).book;
            && b'.disputes == s.book.disputes && b'.splits == s.book.splits
            && (b'.disputeCount == s.book.disputeCount
                || (e.call.ToGovernance? && e.call.gov.CallInitialize?
                    && GovernanceSpec.GovStep(s.gov, e.now, e.call.gov).Ok?
                    && b'.disputeCount == 0))
  {
    if e.call.ToBook? && BookStep(s.gov, s.vault.totals, s.book, e.now, e.call.book).Ok? {
      match e.call.book
      case Approving(c) =>
        DisputeSafety.ApprovalUntouched(s.gov, s.book, e.now, c);
        ApprovalSplitsNothing(s.gov, s.book, e.now, c);
      case Paying(c) =>
        DisputeSafety.PayoutUntouched(s.gov, s.book, e.now, c);
        PayoutSplitsNothing(s.gov, s.book, e.now, c);
      case Moving(c) =>
        DisputeSafety.StatusUntouched(s.gov, s.book, e.now, c);
        StatusSplitsNothing(s.gov, s.book, e.now, c);
      case Disputing(c) =>
      case Setting(c) => SettingSplitsNothing(s.gov, s.vault.totals, s.book, c);
    }
  }

  /** The dispute as the run tells it; none before it is raised. */
  ghost predicate ToldBy(es: seq<Event>, d: nat) {
    var b := Run(es).book;
    && (d in b.disputes <==> 1 <= d <= |Raising(es)|)
    && (d in b.disputes ==> Describes(b.disputes[d], d, Raising(es)[d - 1], CourseOf(es, d)))
    && (d !in b.disputes ==> CourseOf(es, d) == UNTOUCHED)
  }

  lemma StepIsTold(es: seq<Event>, d: nat)
    requires es != []
    requires var front := es[..|es| - 1];
             && Run(front).book.disputeCount == |Raising(front)| && ToldBy(front, d)
             && (InitializesAt(es, |es| - 1) ==> Run(front).book.disputeCount == 0)
    ensures Run(es).book.disputeCount == |Raising(es)| && ToldBy(es, d)
  {
    var front, e := es[..|es| - 1], es[|es| - 1];
    var s := Run(front);
    if Raises(s, e) {
      RaiseStores(s.gov, s.book, e.now, e.call.book.dispute, d);
    } else if Succeeds(s, e) {
      OthersLeaveIt(s.gov, s.book, e.now, e.call.book.dispute, d);
      if Concerns(s, e, d) {
        CallAdvances(s.gov, s.book, e.now, e.call.book.dispute, Raising(front)[d - 1], CourseOf(front, d));
      }
    } else {
      OnlyDisputeCallsCount(s, e);
    }
  }

  /**
   In every run initialised first, dispute `d` is the one the `d`-th raising call asked for, and its voters, their
   weight, its direction, its status and its split are what the successful calls on it made of it.
   */
  lemma {:induction false} DisputeIsByTheCalls(es: seq<Event>, d: nat)
    requires InitializedFirst(es)
    ensures Run(es).book.disputeCount == |Raising(es)| && ToldBy(es, d)
  {
    if es != [] {
      InitializedFirstPrefix(es, |es| - 1);
      DisputeIsByTheCalls(es[..|es| - 1], d);
      StepIsTold(es, d);
    }
  }

  // ----- what splits pay -----

  lemma {:induction false} ApproveEachSplitsNothing(g: Governance, b: Book, signer: Address, ids: seq<nat>)
    requires ApproveEach(g, b, signer, ids).Ok?
    ensures ApproveEach(g, b, signer, ids).value.splits == b.splits
  {
    if ids != [] { ApproveEachSplitsNothing(g, b, signer, ids[..|ids| - 1]); }
  }

  lemma {:induction false} ExecuteEachSplitsNothing(b: Book, now: u64, threshold: u32, token: Address, ids: seq<nat>)
    ensures ExecuteEach(b, now, threshold, token, ids).splits == b.splits
  {
    if ids != [] { ExecuteEachSplitsNothing(b, now, threshold, token, ids[..|ids| - 1]); }
  }

  lemma {:induction false} CancelEachSplitsNothing(b: Book, ids: seq<nat>)
    ensures CancelEach(b, ids).splits == b.splits
  {
    if ids != [] { CancelEachSplitsNothing(b, ids[..|ids| - 1]); }
  }

  lemma ApprovalSplitsNothing(g: Governance, b: Book, now: u64, call: ApprovalCall)
    requires ApprovalStep(g, b, now, call).Ok?
    ensures ApprovalStep(g, b, now, call).value.splits == b.splits
  {
    if call.CallBatchApprove? { ApproveEachSplitsNothing(g, b, call.signer, call.ids); }
  }

  lemma PayoutSplitsNothing(g: Governance, b: Book, now: u64, call: PayoutCall)
    requires PayoutStep(g, b, now, call).Ok?
    ensures PayoutStep(g, b, now, call).value.splits == b.splits
  {
    if call.CallBatchExecute? { ExecuteEachSplitsNothing(b, now, g.threshold.value, call.token, call.ids); }
  }

  lemma StatusSplitsNothing(g: Governance, b: Book, now: u64, call: StatusCall)
    requires StatusStep(g, b, now, call).Ok?
    ensures StatusStep(g, b, now, call).value.splits == b.splits
  {
    if call.CallBatchCancel? { CancelEachSplitsNothing(b, call.ids); }
  }

  lemma SettingSplitsNothing(g: Governance, totals: map<Address, i128>, b: Book, call: SettingCall)
    requires SettingStep(g, totals, b, call).Ok?
    ensures var b' := SettingStep(g, totals, b, call).value;
            b'.splits == b.splits && b'.disputes == b.disputes && b'.disputeCount == b.disputeCount
  {
  }

  /** One payment, unless the share is nothing. */
  ghost function Share(id: nat, token: Address, to: Address, amount: int): seq<SplitPayment> {
    if 0 < amount <= I128_MAX then [SplitPayment(id, token, to, amount)] else []
  }

  ghost predicate Splits(s: State, e: Event) { Succeeds(s, e) && e.call.book.dispute.CallResolveSplit? }

  /** What a split at `bps` of the dispute raised by `raise` pays: the floored share, then the rest. */
  ghost predicate SplitInto(ps: seq<SplitPayment>, raise: DisputeCall, call: DisputeCall)
    requires raise.CallRaiseDispute? && call.CallResolveSplit?
  {
    var share := raise.amount * call.bps / 10_000;
    ps == Share(call.id, call.token, raise.claimant, share)
          + Share(call.id, call.token, raise.counterparty, raise.amount - share)
  }

  /** The step from `b` to `b'` pays that split and nothing else. */
  ghost predicate PaysSplit(b: Book, b': Book, raise: DisputeCall, call: DisputeCall)
    requires raise.CallRaiseDispute? && call.CallResolveSplit?
  {
    b.splits <= b'.splits && SplitInto(b'.splits[|b.splits|..], raise, call)
  }

  lemma SplitStepPays(g: Governance, b: Book, now: u64, call: DisputeCall, raise: DisputeCall, c: Course)
    requires call.CallResolveSplit? && DisputeStep(g, b, now, call).Ok? && raise.CallRaiseDispute? && raise.amount > 0
    requires call.id in b.disputes && Describes(b.disputes[call.id], call.id, raise, c)
    ensures PaysSplit(b, DisputeStep(g, b, now, call).value, raise, call)
  {
    SplitIsExact(raise.amount, call.bps);
    var (share, rest) := SplitBps(raise.amount, call.bps).value;
    var b' := DisputeStep(g, b, now, call).value;
    assert b'.splits == b.splits + SplitPayments(call.id, b.disputes[call.id], call.token, share, rest);
    assert b'.splits[|b.splits|..] == Share(call.id, call.token, raise.claimant, share)
                                      + Share(call.id, call.token, raise.counterparty, rest);
  }

  lemma OthersSplitNothing(g: Governance, b: Book, now: u64, call: DisputeCall)
    requires !call.CallResolveSplit? && DisputeStep(g, b, now, call).Ok?
    ensures DisputeStep(g, b, now, call).value.splits == b.splits
  {
  }

  lemma SplitTermsOfRun(es: seq<Event>, id: nat)
    requires InitializedFirst(es) && id in Run(es).book.disputes
    ensures 1 <= id <= |Raising(es)| && Raising(es)[id - 1].amount > 0
    ensures Describes(Run(es).book.disputes[id], id, Raising(es)[id - 1], CourseOf(es, id))
  {
    DisputeIsByTheCalls(es, id);
    DisputesAreSound(es);
    assert DisputeSafety.DisputeOk(Run(es).book, id);
  }

  lemma SplitNamesOne(s: State, e: Event)
    requires Splits(s, e)
    ensures e.call.book.dispute.id in s.book.disputes
  {
  }

  lemma SplitStepOfState(s: State, e: Event, raise: DisputeCall, c: Course)
    requires Splits(s, e) && raise.CallRaiseDispute? && raise.amount > 0
    requires var id := e.call.book.dispute.id; id in s.book.disputes && Describes(s.book.disputes[id], id, raise, c)
    ensures PaysSplit(s.book, Step(s, e).book, raise, e.call.book.dispute)
  {
    SplitStepPays(s.gov, s.book, e.now, e.call.book.dispute, raise, c);
  }

  lemma SplitOfRun(es: seq<Event>, e: Event)
    requires InitializedFirst(es) && Splits(Run(es), e)
    ensures 1 <= e.call.book.dispute.id <= |Raising(es)|
    ensures PaysSplit(Run(es).book, Step(Run(es), e).book, Raising(es)[e.call.book.dispute.id - 1],
                      e.call.book.dispute)
  {
    var id := e.call.book.dispute.id;
    SplitNamesOne(Run(es), e);
    SplitTermsOfRun(es, id);
    SplitStepOfState(Run(es), e, Raising(es)[id - 1], CourseOf(es, id));
  }

  lemma OtherStepsSplitNothing(s: State, e: Event)
    requires !Splits(s, e)
    ensures Step(s, e).book.splits == s.book.splits
  {
    if Succeeds(s, e) {
      OthersSplitNothing(s.gov, s.book, e.now, e.call.book.dispute);
    } else {
      OnlyDisputeCallsCount(s, e);
    }
  }

  /**
   In every run initialised first, a step pays out of a dispute only if it is a successful split, and then exactly the
   floored share of the amount raised to the claimant and the rest to the counterparty, in the token of the call.
   */
  lemma SplitsAreByTheCalls(es: seq<Event>, i: nat)
    requires InitializedFirst(es) && i < |es|
    ensures var s, s', e := Run(es[..i]), Run(es[..i + 1]), es[i];
            if Splits(s, e) then
              && 1 <= e.call.book.dispute.id <= |Raising(es[..i])|
              && PaysSplit(s.book, s'.book, Raising(es[..i])[e.call.book.dispute.id - 1], e.call.book.dispute)
            else s'.book.splits == s.book.splits
  {
    RunPrefix(es, i);
    InitializedFirstPrefix(es, i);
    if Splits(Run(es[..i]), es[i]) { SplitOfRun(es[..i], es[i]); } else { OtherStepsSplitNothing(Run(es[..i]), es[i]); }
  }

  // ----- what becomes of the settlement -----

  ghost function SettlementAfter(b: Book, call: DisputeCall, st: Settlement, sid: nat): Settlement {
    if call.CallRaiseDispute? && call.sid == sid && st.status.Pending? then st.(status := OnHold)
    else if st.status.OnHold?
      && DisputeSafety.ClosesLast(b, call, sid) then st.(status := Pending, holdReason := NoHold)
    else st
  }

  lemma ReleaseTouchesOne(b: Book, target: nat, sid: nat)
    requires sid in b.settlements
    ensures var b' := ReleaseIfUndisputed(b, target);
            && sid in b'.settlements
            && b'.settlements[sid] == if b.settlements[sid].status.OnHold? && b'.settlements[sid].status.Pending?
                                      then b.settlements[sid].(status := Pending, holdReason := NoHold)
                                      else b.settlements[sid]
  {
  }

  lemma CloseSetsSettlement(g: Governance, b: Book, now: u64, call: DisputeCall, sid: nat)
    requires DisputeSafety.Sound(b) && DisputeSafety.Closing(call) && DisputeStep(g, b, now, call).Ok?
    requires sid in b.settlements
    ensures var b' := DisputeStep(g, b, now, call).value;
            sid in b'.settlements && b'.settlements[sid] == SettlementAfter(b, call, b.settlements[sid], sid)
  {
    var b' := DisputeStep(g, b, now, call).value;
    DisputeSafety.CloseShape(g, b, now, call);
    ReleaseTouchesOne(DisputeSafety.BeforeRelease(b, b'), b.disputes[call.id].settlementId, sid);
    if b.settlements[sid].status.OnHold? { DisputeSafety.HoldReleaseIsExact(g, b, now, call, sid); }
  }

  /** A dispute call does to every settlement exactly what the table says, and makes none. */
  lemma DisputeStepSetsSettlement(g: Governance, b: Book, now: u64, call: DisputeCall, sid: nat)
    requires DisputeSafety.Sound(b) && DisputeStep(g, b, now, call).Ok? && sid in b.settlements
    ensures var b' := DisputeStep(g, b, now, call).value;
            sid in b'.settlements && b'.settlements[sid] == SettlementAfter(b, call, b.settlements[sid], sid)
  {
    if DisputeSafety.Closing(call) { CloseSetsSettlement(g, b, now, call, sid); }
  }
}
