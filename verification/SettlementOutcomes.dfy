/**
 Every settlement, told by the calls of the run: what it was proposed for, whose last word on it was an approval, and
 what each call does to its record, its hold expiry and its partial sums.
 */
module SettlementOutcomes {
  import opened Common
  import opened TreasuryTypes
  import opened Multisig
  import opened SettlementSpec
  import opened TreasuryRuns
  import opened QuorumSteps
  import TreasuryCalls
  import DisputeHolds
  import DisputeOutcomes
  import DisputeSafety
  import SettlementSafety

  // ----- what one call does to a settlement -----

  ghost function Joining(g: Governance, st: Settlement, a: Address): (int, seq<Address>) {
    if a in st.approvals then (st.approvalWeight, st.approvals)
    else (st.approvalWeight + SignerWeight(g, a), st.approvals + [a])
  }

  ghost predicate Named(call: ApprovalCall, st: Settlement, id: nat) {
    match call
    case CallPropose(_, _, _, _, _, _) => false
    case CallApprove(_, n) => n == id
    case CallRevoke(_, n) => n == id
    case CallBatchApprove(_, ids) => id in ids && st.status.Pending?
    case CallApprovePartial(_, n, _) => n == id
  }

  ghost predicate OnlyTally(st: Settlement, st': Settlement, weight: int, approvals: seq<Address>) {
    st'.approvalWeight == weight && st' == st.(approvals := approvals, approvalWeight := st'.approvalWeight)
  }

  /** `st'` is what an approving call makes of settlement `id`. */
  ghost predicate ApprovalMakes(g: Governance, call: ApprovalCall, id: nat, st: Settlement, st': Settlement) {
    if !Named(call, st, id) then st' == st
    else if call.CallRevoke? then
      OnlyTally(st, st', Max(0, st.approvalWeight - SignerWeight(g, call.signer)), Without(st.approvals, call.signer))
    else OnlyTally(st, st', Joining(g, st, call.signer).0, Joining(g, st, call.signer).1)
  }

  lemma ApproveOneMakes(g: Governance, b: Book, signer: Address, x: nat, id: nat)
    requires ApproveIfPending(g, b, signer, x).Ok? && id in b.settlements
    ensures var b' := ApproveIfPending(g, b, signer, x).value;
            && id in b'.settlements
            && ApprovalMakes(g, CallBatchApprove(signer, [x]), id, b.settlements[id], b'.settlements[id])
  {
  }

  lemma {:induction false} ApproveEachMakes(g: Governance, b: Book, signer: Address, ids: seq<nat>, id: nat)
    requires ApproveEach(g, b, signer, ids).Ok? && id in b.settlements
    ensures var b' := ApproveEach(g, b, signer, ids).value;
            && id in b'.settlements
            && ApprovalMakes(g, CallBatchApprove(signer, ids), id, b.settlements[id], b'.settlements[id])
  {
    if ids != [] {
      var front, last := ids[..|ids| - 1], ids[|ids| - 1];
      ApproveEachMakes(g, b, signer, front, id);
      ApproveOneMakes(g, ApproveEach(g, b, signer, front).value, signer, last, id);
      assert id in ids <==> id in front || id == last by { assert ids == front + [last]; }
    }
  }

  lemma {:induction false} RemovedIsWithout<T>(s: seq<T>, x: T, i: nat)
    requires i < |s| && s[i] == x && NoDup(s)
    ensures s[..i] + s[i + 1..] == Without(s, x)
  {
    var front := s[..|s| - 1];
    if i == |s| - 1 {
      FilterAll(front, Differs(x));
    } else {
      RemovedIsWithout(front, x, i);
      assert s[..i] + s[i + 1..] == (front[..i] + front[i + 1..]) + [s[|s| - 1]];
    }
  }

  lemma RevokeMakes(g: Governance, b: Book, signer: Address, n: nat, id: nat)
    requires Revoke(g, b, signer, n).Ok? && id in b.settlements && NoDup(b.settlements[id].approvals)
    ensures var b' := Revoke(g, b, signer, n).value;
            && id in b'.settlements
            && ApprovalMakes(g, CallRevoke(signer, n), id, b.settlements[id], b'.settlements[id])
  {
    if n == id {
      var approvals := b.settlements[id].approvals;
      RemovedIsWithout(approvals, signer, FirstIndexOf(approvals, signer));
    }
  }

  lemma ApprovalStepMakes(g: Governance, b: Book, now: u64, call: ApprovalCall, id: nat)
    requires ApprovalStep(g, b, now, call).Ok? && id in b.settlements && NoDup(b.settlements[id].approvals)
    requires b.settlementCount + 1 !in b.settlements
    ensures var b' := ApprovalStep(g, b, now, call).value;
            id in b'.settlements && ApprovalMakes(g, call, id, b.settlements[id], b'.settlements[id])
  {
    match call
    case CallBatchApprove(signer, ids) => ApproveEachMakes(g, b, signer, ids, id);
    case CallRevoke(signer, n) => RevokeMakes(g, b, signer, n, id);
    case CallPropose(_, _, _, _, _, _) =>
    case CallApprove(_, _) =>
    case CallApprovePartial(_, _, _) =>
  }

  /** The status a payout call leaves settlement `id` in. */
  ghost function PaidStatus(g: Governance, call: PayoutCall, id: nat, st: Settlement): SettlementStatus {
    match call
    case CallExecute(_, n, _, _) => if n == id then Executed else st.status
    case CallBatchExecute(_, ids, _) =>
      if id in ids && st.status.Pending? && st.approvalWeight >= g.threshold.GetOr(0) then Executed else st.status
    case CallExecutePartially(_, n, _, _) => if n == id then PartiallyExecuted else st.status
  }

  lemma PayoutStepMakes(g: Governance, b: Book, now: u64, call: PayoutCall, id: nat)
    requires PayoutStep(g, b, now, call).Ok? && id in b.settlements
    ensures var b' := PayoutStep(g, b, now, call).value;
            && id in b'.settlements
            && b'.settlements[id] == b.settlements[id].(status := PaidStatus(g, call, id, b.settlements[id]))
  {
    if call.CallBatchExecute? { DisputeHolds.ExecuteEachAt(b, now, g.threshold.value, call.token, call.ids, id); }
  }

  /** `st'` is what `call` makes of settlement `id` of book `b`. */
  ghost predicate Makes(g: Governance, b: Book, call: BookCall, id: nat, st': Settlement)
    requires id in b.settlements
  {
    var st := b.settlements[id];
    match call
    case Approving(c) => ApprovalMakes(g, c, id, st, st')
    case Paying(c) => st' == st.(status := PaidStatus(g, c, id, st))
    case Moving(c) => st' == TreasuryCalls.StatusAfter(st, id, c)
    case Disputing(c) => st' == DisputeOutcomes.SettlementAfter(b, c, st, id)
    case Setting(_) => st' == st
  }

  /** A successful call on the book does to every settlement exactly what the tables say. */
  lemma BookStepMakes(g: Governance, totals: map<Address, i128>, b: Book, now: u64, call: BookCall, id: nat)
    requires SettlementSafety.Sound(b) && (call.Disputing? ==> DisputeSafety.Sound(b))
    requires BookStep(g, totals, b, now, call).Ok? && id in b.settlements
    ensures var b' := BookStep(g, totals, b, now, call).value;
            id in b'.settlements && Makes(g, b, call, id, b'.settlements[id])
  {
    assert SettlementSafety.RecordOk(b, id) && SettlementSafety.RecordOk(b, b.settlementCount + 1);
    match call
    case Approving(c) => ApprovalStepMakes(g, b, now, c, id);
    case Paying(c) => PayoutStepMakes(g, b, now, c, id);
    case Moving(c) => TreasuryCalls.StatusStepSets(g, b, now, c, id);
    case Disputing(c) => DisputeOutcomes.DisputeStepSetsSettlement(g, b, now, c, id);
    case Setting(c) => SettlementSafety.SettingTouchesSettings(g, totals, b, c);
  }

  // ----- proposals -----

  ghost predicate Succeeds(s: State, e: Event) {
    e.call.ToBook? && BookStep(s.gov, s.vault.totals, s.book, e.now, e.call.book).Ok?
  }

  ghost predicate Proposes(s: State, e: Event) {
    Succeeds(s, e) && e.call.book.Approving? && e.call.book.approval.CallPropose?
  }

  /** A successful proposal and its time. */
  datatype Proposal = Proposal(call: ApprovalCall, at: u64)

  /** The successful proposals; the one at `id - 1` is settlement `id`. */
  ghost function Proposals(es: seq<Event>): (ps: seq<Proposal>)
    ensures forall i :: 0 <= i < |ps| ==> ps[i].call.CallPropose?
  {
    if es == [] then []
    else
      var front, e := es[..|es| - 1], es[|es| - 1];
      if Proposes(Run(front), e) then Proposals(front) + [Proposal(e.call.book.approval, e.now)] else Proposals(front)
  }

  ghost predicate AsProposed(st: Settlement, id: nat, p: Proposal)
    requires p.call.CallPropose?
  {
    && st.id == id && st.merchant == p.call.merchant && st.amount == p.call.amount && st.token == p.call.token
    && st.executionDeadline == p.call.deadline && st.proposedAt == p.at
  }

  ghost predicate TermsTold(b: Book, ps: seq<Proposal>, id: nat)
    requires forall i :: 0 <= i < |ps| ==> ps[i].call.CallPropose?
  {
    && (id in b.settlements <==> 1 <= id <= |ps|)
    && (id in b.settlements ==> AsProposed(b.settlements[id], id, ps[id - 1]))
  }

  lemma ProposeStores(g: Governance, b: Book, now: u64, call: ApprovalCall, id: nat)
    requires call.CallPropose? && ApprovalStep(g, b, now, call).Ok?
    ensures var b' := ApprovalStep(g, b, now, call).value;
            && b'.settlementCount == b.settlementCount + 1
            && (id in b'.settlements <==> id in b.settlements || id == b'.settlementCount)
            && (id in b.settlements && id != b'.settlementCount ==> b'.settlements[id] == b.settlements[id])
            && var st := b'.settlements[b'.settlementCount];
            && AsProposed(st, b'.settlementCount, Proposal(call, now)) && st.status.Pending? && st.holdReason.NoHold?
            && st.approvals == [call.signer] && st.approvalWeight == SignerWeight(g, call.signer)
  {
  }

  ghost predicate SameKeys(b: Book, b': Book) {
    b'.settlementCount == b.settlementCount && b'.settlements.Keys == b.settlements.Keys
  }

  lemma {:induction false} ApproveEachAddsNone(g: Governance, b: Book, signer: Address, ids: seq<nat>)
    requires ApproveEach(g, b, signer, ids).Ok?
    ensures SameKeys(b, ApproveEach(g, b, signer, ids).value)
  {
    if ids != [] { ApproveEachAddsNone(g, b, signer, ids[..|ids| - 1]); }
  }

  lemma {:induction false} ExecuteEachAddsNone(b: Book, now: u64, threshold: u32, token: Address, ids: seq<nat>)
    ensures SameKeys(b, ExecuteEach(b, now, threshold, token, ids))
  {
    if ids != [] { ExecuteEachAddsNone(b, now, threshold, token, ids[..|ids| - 1]); }
  }

  lemma {:induction false} CancelEachAddsNone(b: Book, ids: seq<nat>)
    ensures SameKeys(b, CancelEach(b, ids))
  {
    if ids != [] { CancelEachAddsNone(b, ids[..|ids| - 1]); }
  }

  lemma ApprovalAddsNone(g: Governance, b: Book, now: u64, call: ApprovalCall)
    requires !call.CallPropose? && ApprovalStep(g, b, now, call).Ok?
    ensures SameKeys(b, ApprovalStep(g, b, now, call).value)
  {
    if call.CallBatchApprove? { ApproveEachAddsNone(g, b, call.signer, call.ids); }
  }

  lemma PayoutAddsNone(g: Governance, b: Book, now: u64, call: PayoutCall)
    requires PayoutStep(g, b, now, call).Ok?
    ensures SameKeys(b, PayoutStep(g, b, now, call).value)
  {
    if call.CallBatchExecute? { ExecuteEachAddsNone(b, now, g.threshold.value, call.token, call.ids); }
  }

  lemma StatusAddsNone(g: Governance, b: Book, now: u64, call: StatusCall)
    requires StatusStep(g, b, now, call).Ok?
    ensures SameKeys(b, StatusStep(g, b, now, call).value)
  {
    if call.CallBatchCancel? { CancelEachAddsNone(b, call.ids); }
  }

  lemma DisputeAddsNone(g: Governance, b: Book, now: u64, call: DisputeCall)
    requires DisputeStep(g, b, now, call).Ok?
    ensures SameKeys(b, DisputeStep(g, b, now, call).value)
  {
    if DisputeSafety.Closing(call) { DisputeSafety.CloseShape(g, b, now, call); }
  }

  lemma OthersAddNone(s: State, e: Event)
    requires Sound(s) && !Proposes(s, e)
    ensures SameKeys(s.book, Step(s, e).book)
  {
    if Succeeds(s, e) {
      match e.call.book
      case Approving(c) => ApprovalAddsNone(s.gov, s.book, e.now, c);
      case Paying(c) => PayoutAddsNone(s.gov, s.book, e.now, c);
      case Moving(c) => StatusAddsNone(s.gov, s.book, e.now, c);
      case Disputing(c) => DisputeAddsNone(s.gov, s.book, e.now, c);
      case Setting(c) => SettlementSafety.SettingTouchesSettings(s.gov, s.vault.totals, s.book, c);
    }
  }

  lemma OthersKeepTerms(s: State, e: Event, ps: seq<Proposal>, id: nat)
    requires forall i :: 0 <= i < |ps| ==> ps[i].call.CallPropose?
    requires Sound(s) && !Proposes(s, e) && s.book.settlementCount == |ps| && TermsTold(s.book, ps, id)
    ensures Step(s, e).book.settlementCount == |ps| && TermsTold(Step(s, e).book, ps, id)
  {
    var b' := Step(s, e).book;
    OthersAddNone(s, e);
    StepKeeps(s, e);
    assert SettlementSafety.Kept(s.book, b', id) && SettlementSafety.RecordOk(b', id);
    assert id in b'.settlements <==> id in s.book.settlements;
  }

  /** In every run settlement `id` carries the merchant, amount, token, deadline and time of the `id`-th proposal. */
  lemma {:induction false} SettlementIsAsProposed(es: seq<Event>, id: nat)
    ensures Run(es).book.settlementCount == |Proposals(es)| && TermsTold(Run(es).book, Proposals(es), id)
  {
    if es != [] {
      var front, e := es[..|es| - 1], es[|es| - 1];
      var s := Run(front);
      SettlementIsAsProposed(front, id);
      RunIsSound(front);
      if Proposes(s, e) {
        ProposeStores(s.gov, s.book, e.now, e.call.book.approval, id);
      } else {
        OthersKeepTerms(s, e, Proposals(front), id);
      }
    }
  }

  // ----- approvals -----

  /** The call speaks about settlement `id` in the name of `a`. */
  ghost predicate Speaks(b: Book, call: ApprovalCall, id: nat, a: Address) {
    && call.signer == a
    && if call.CallPropose? then id == b.settlementCount + 1
       else id in b.settlements && Named(call, b.settlements[id], id)
  }

  /** Whether the last successful call of `a` about settlement `id` was an approval. */
  ghost predicate LastWord(es: seq<Event>, id: nat, a: Address) {
    if es == [] then false
    else
      var front, e := es[..|es| - 1], es[|es| - 1];
      if Succeeds(Run(front), e) && e.call.book.Approving? && Speaks(Run(front).book, e.call.book.approval, id, a)
      then !e.call.book.approval.CallRevoke?
      else LastWord(front, id, a)
  }

  lemma ApprovalDecides(g: Governance, b: Book, now: u64, call: ApprovalCall, id: nat, a: Address)
    requires SettlementSafety.Sound(b) && ApprovalStep(g, b, now, call).Ok?
    ensures a in ApprovalsOf(ApprovalStep(g, b, now, call).value, id) <==>
              if Speaks(b, call, id, a) then !call.CallRevoke? else a in ApprovalsOf(b, id)
  {
    assert SettlementSafety.RecordOk(b, id) && SettlementSafety.RecordOk(b, b.settlementCount + 1);
    if call.CallPropose? { ProposeStores(g, b, now, call, id); } else { ApprovalAddsNone(g, b, now, call); }
    if id in b.settlements {
      ApprovalStepMakes(g, b, now, call, id);
      WithoutMembers(b.settlements[id].approvals, call.signer);
    }
  }

  lemma OthersKeepApprovals(s: State, e: Event, id: nat)
    requires Sound(s) && !(Succeeds(s, e) && e.call.book.Approving?)
    ensures ApprovalsOf(Step(s, e).book, id) == ApprovalsOf(s.book, id)
  {
    if Succeeds(s, e) {
      match e.call.book
      case Paying(c) => PayoutStepKeepsTally(s.gov, s.book, e.now, c, id);
      case Moving(c) => StatusStepKeepsTally(s.gov, s.book, e.now, c, id);
      case Disputing(c) => DisputeStepKeepsTally(s.gov, s.book, e.now, c, id);
      case Setting(c) => SettingStepKeepsTally(s.gov, s.vault.totals, s.book, c, id);
    } else {
      OthersKeepTally(s, e, id);
    }
  }

  /**
   In every run the approvers of a settlement are exactly the signers whose last successful call about it, its proposal
   included, was an approval and not a revocation.
   */
  lemma {:induction false} ApproverIffLastWord(es: seq<Event>, id: nat, a: Address)
    ensures a in ApprovalsOf(Run(es).book, id) <==> LastWord(es, id, a)
  {
    if es != [] {
      var front, e := es[..|es| - 1], es[|es| - 1];
      var s := Run(front);
      ApproverIffLastWord(front, id, a);
      RunIsSound(front);
      if Succeeds(s, e) && e.call.book.Approving? {
        ApprovalDecides(s.gov, s.book, e.now, e.call.book.approval, id, a);
      } else {
        OthersKeepApprovals(s, e, id);
      }
    }
  }

  // ----- hold expiries and partial sums -----

  datatype Margins = Margins(expiry: Option<u64>, approvedParts: int, paidParts: int)

  ghost function MarginsIn(b: Book, id: nat): Margins {
    Margins(if id in b.holdExpiry then Some(b.holdExpiry[id]) else None,
            Lookup(b.partialApproved, id, 0), Lookup(b.partialExecuted, id, 0))
  }

  /** What a call makes of the margins of settlement `id`, given whether that was Pending. */
  ghost function MarginsAfter(m: Margins, call: BookCall, id: nat, pending: bool): Margins {
    match call
    case Approving(CallApprovePartial(_, n, part)) => if n == id then m.(approvedParts := m.approvedParts + part) else m
    case Paying(CallExecute(_, n, _, _)) => if n == id then m.(expiry := None) else m
    case Paying(CallExecutePartially(_, n, part, _)) => if n == id then m.(paidParts := m.paidParts + part) else m
    case Moving(CallBatchCancel(_, ids)) => if id in ids && pending then m.(expiry := None) else m
    case Moving(CallHold(_, n, _, until)) => if n == id then m.(expiry := until) else m
    case Moving(c) => if c.id == id then m.(expiry := None) else m
    case _ => m
  }

  lemma {:induction false} ApproveEachKeepsMargins(g: Governance, b: Book, signer: Address, ids: seq<nat>, id: nat)
    requires ApproveEach(g, b, signer, ids).Ok?
    ensures MarginsIn(ApproveEach(g, b, signer, ids).value, id) == MarginsIn(b, id)
  {
    if ids != [] { ApproveEachKeepsMargins(g, b, signer, ids[..|ids| - 1], id); }
  }

  lemma {:induction false} ExecuteEachKeepsMargins(b: Book, now: u64, threshold: u32, token: Address, ids: seq<nat>,
                                                   id: nat)
    ensures MarginsIn(ExecuteEach(b, now, threshold, token, ids), id) == MarginsIn(b, id)
  {
    if ids != [] { ExecuteEachKeepsMargins(b, now, threshold, token, ids[..|ids| - 1], id); }
  }

  lemma {:induction false} CancelEachClears(b: Book, ids: seq<nat>, id: nat, caller: Address)
    ensures MarginsIn(CancelEach(b, ids), id) ==
              MarginsAfter(MarginsIn(b, id), Moving(CallBatchCancel(caller, ids)), id, TreasuryCalls.Pending(b, id))
  {
    if ids != [] {
      var front, last := ids[..|ids| - 1], ids[|ids| - 1];
      CancelEachClears(b, front, id, caller);
      TreasuryCalls.CancelEachSets(b, front, id, caller);
      assert id in ids <==> id in front || id == last by { assert ids == front + [last]; }
    }
  }

  lemma ApprovalSetsMargins(g: Governance, b: Book, now: u64, call: ApprovalCall, id: nat)
    requires ApprovalStep(g, b, now, call).Ok?
    ensures MarginsIn(ApprovalStep(g, b, now, call).value, id) ==
              MarginsAfter(MarginsIn(b, id), Approving(call), id, TreasuryCalls.Pending(b, id))
  {
    if call.CallBatchApprove? { ApproveEachKeepsMargins(g, b, call.signer, call.ids, id); }
  }

  lemma PayoutSetsMargins(g: Governance, b: Book, now: u64, call: PayoutCall, id: nat)
    requires PayoutStep(g, b, now, call).Ok?
    ensures MarginsIn(PayoutStep(g, b, now, call).value, id) ==
              MarginsAfter(MarginsIn(b, id), Paying(call), id, TreasuryCalls.Pending(b, id))
  {
    if call.CallBatchExecute? { ExecuteEachKeepsMargins(b, now, g.threshold.value, call.token, call.ids, id); }
  }

  lemma StatusSetsMargins(g: Governance, b: Book, now: u64, call: StatusCall, id: nat)
    requires StatusStep(g, b, now, call).Ok?
    ensures MarginsIn(StatusStep(g, b, now, call).value, id) ==
              MarginsAfter(MarginsIn(b, id), Moving(call), id, TreasuryCalls.Pending(b, id))
  {
    match call
    case CallBatchCancel(caller, ids) => CancelEachClears(b, ids, id, caller);
    case CallCancel(_, _) =>
    case CallForceCancel(_, _) =>
    case CallExpire(_, _) =>
    case CallHold(_, _, _, _) =>
    case CallReleaseHold(_, _) =>
  }

  lemma DisputeKeepsMargins(g: Governance, b: Book, now: u64, call: DisputeCall, id: nat)
    requires DisputeStep(g, b, now, call).Ok?
    ensures MarginsIn(DisputeStep(g, b, now, call).value, id) == MarginsIn(b, id)
  {
    DisputeSafety.ExpiriesStay(g, b, now, call);
    if DisputeSafety.Closing(call) { DisputeSafety.CloseShape(g, b, now, call); }
  }

  lemma SettingKeepsMargins(g: Governance, totals: map<Address, i128>, b: Book, call: SettingCall, id: nat)
    requires SettingStep(g, totals, b, call).Ok?
    ensures MarginsIn(SettingStep(g, totals, b, call).value, id) == MarginsIn(b, id)
  {
    TreasuryCalls.SettingStepSets(g, totals, b, call);
  }

  lemma BookStepSetsMargins(g: Governance, totals: map<Address, i128>, b: Book, now: u64, call: BookCall, id: nat)
    requires BookStep(g, totals, b, now, call).Ok?
    ensures MarginsIn(BookStep(g, totals, b, now, call).value, id) ==
              MarginsAfter(MarginsIn(b, id), call, id, TreasuryCalls.Pending(b, id))
  {
    match call
    case Approving(c) => ApprovalSetsMargins(g, b, now, c, id);
    case Paying(c) => PayoutSetsMargins(g, b, now, c, id);
    case Moving(c) => StatusSetsMargins(g, b, now, c, id);
    case Disputing(c) => DisputeKeepsMargins(g, b, now, c, id);
    case Setting(c) => SettingKeepsMargins(g, totals, b, c, id);
  }

  ghost function MarginsBy(es: seq<Event>, id: nat): Margins {
    if es == [] then Margins(None, 0, 0)
    else
      var front, e := es[..|es| - 1], es[|es| - 1];
      if Succeeds(Run(front), e)
      then MarginsAfter(MarginsBy(front, id), e.call.book, id, TreasuryCalls.Pending(Run(front).book, id))
      else MarginsBy(front, id)
  }

  /**
   In every run a settlement's hold expiry is the one of its last hold, gone once it is released, executed alone,
   cancelled or expired; and its partial sums are the parts approved and paid.
   */
  lemma {:induction false} MarginsAreByTheCalls(es: seq<Event>, id: nat)
    ensures MarginsIn(Run(es).book, id) == MarginsBy(es, id)
  {
    if es != [] {
      var front, e := es[..|es| - 1], es[|es| - 1];
      var s := Run(front);
      MarginsAreByTheCalls(front, id);
      if Succeeds(s, e) { BookStepSetsMargins(s.gov, s.vault.totals, s.book, e.now, e.call.book, id); }
    }
  }
}
