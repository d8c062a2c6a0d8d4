/**
 What every call keeps of the disputes: closed ones never change, a vote keeps its first direction with
 distinct voters, the per-settlement list is the scan of all disputes, and the dispute paths release a
 hold exactly when no open dispute is left.
 */
module DisputeSafety {
  import opened Common
  import opened TreasuryTypes
  import opened BasisPoints
  import opened SettlementSpec
  import SettlementSafety

  /** The disputes raised against settlement `sid`. */
  function About(b: Book, sid: nat): nat -> bool {
    (d: nat) => d in b.disputes && b.disputes[d].settlementId == sid
  }

  ghost predicate DisputeOk(b: Book, d: nat) {
    && (d in b.disputes <==> 1 <= d <= b.disputeCount)
    && (d in b.disputes ==>
          var x := b.disputes[d];
          x.id == d && x.amount > 0 && NoDup(x.approvals) && (x.weight == 0 <==> x.approvals == []))
  }

  /** The list of disputes of `sid` is the ascending scan over all dispute ids. */
  ghost predicate ListOk(b: Book, sid: nat) {
    Lookup(b.settlementDisputes, sid, []) == Filter(Ids(b.disputeCount), About(b, sid))
  }

  ghost predicate Sound(b: Book) {
    && (forall d :: DisputeOk(b, d))
    && (forall sid :: ListOk(b, sid))
  }

  /** A dispute keeps its parties; once closed it is frozen; once voted on, its direction and its voters stay. */
  ghost predicate Kept(b: Book, b': Book, d: nat) {
    d in b.disputes ==>
      && d in b'.disputes
      && var x, x' := b.disputes[d], b'.disputes[d];
      && x'.settlementId == x.settlementId && x'.amount == x.amount
      && x'.claimant == x.claimant && x'.counterparty == x.counterparty
      && (!x.status.Raised? ==> x' == x)
      && x.approvals <= x'.approvals
      && (x.approvals != [] ==> x'.forClaimant == x.forClaimant)
  }

  ghost predicate Evolves(b: Book, b': Book) {
    forall d :: Kept(b, b', d)
  }

  ghost predicate Untouched(b: Book, b': Book) {
    && b'.disputes == b.disputes && b'.disputeCount == b.disputeCount
    && b'.settlementDisputes == b.settlementDisputes
  }

  lemma UntouchedKeeps(b: Book, b': Book)
    requires Sound(b) && Untouched(b, b')
    ensures Sound(b') && Evolves(b, b')
  {
    forall d ensures DisputeOk(b', d) && Kept(b, b', d) { assert DisputeOk(b, d); }
    forall sid ensures ListOk(b', sid) {
      assert ListOk(b, sid);
      FilterExt(Ids(b.disputeCount), About(b, sid), About(b', sid));
    }
  }

  // ----- calls that do not concern disputes -----

  lemma {:induction false} ApproveEachUntouched(g: Governance, b: Book, signer: Address, ids: seq<nat>)
    requires ApproveEach(g, b, signer, ids).Ok?
    ensures Untouched(b, ApproveEach(g, b, signer, ids).value)
  {
    if ids != [] { ApproveEachUntouched(g, b, signer, ids[..|ids| - 1]); }
  }

  lemma {:induction false} ExecuteEachUntouched(b: Book, now: u64, threshold: u32, token: Address, ids: seq<nat>)
    ensures Untouched(b, ExecuteEach(b, now, threshold, token, ids))
  {
    if ids != [] { ExecuteEachUntouched(b, now, threshold, token, ids[..|ids| - 1]); }
  }

  lemma {:induction false} CancelEachUntouched(b: Book, ids: seq<nat>)
    ensures Untouched(b, CancelEach(b, ids))
  {
    if ids != [] { CancelEachUntouched(b, ids[..|ids| - 1]); }
  }

  lemma ApprovalUntouched(g: Governance, b: Book, now: u64, call: ApprovalCall)
    requires ApprovalStep(g, b, now, call).Ok?
    ensures Untouched(b, ApprovalStep(g, b, now, call).value)
  {
    match call
    case CallBatchApprove(signer, ids) => ApproveEachUntouched(g, b, signer, ids);
    case CallPropose(_, _, _, _, _, _) =>
    case CallApprove(_, _) =>
    case CallRevoke(_, _) =>
    case CallApprovePartial(_, _, _) =>
  }

  lemma PayoutUntouched(g: Governance, b: Book, now: u64, call: PayoutCall)
    requires PayoutStep(g, b, now, call).Ok?
    ensures Untouched(b, PayoutStep(g, b, now, call).value)
  {
    match call
    case CallBatchExecute(_, ids, token) => ExecuteEachUntouched(b, now, g.threshold.value, token, ids);
    case CallExecute(_, _, _, _) =>
    case CallExecutePartially(_, _, _, _) =>
  }

  lemma StatusUntouched(g: Governance, b: Book, now: u64, call: StatusCall)
    requires StatusStep(g, b, now, call).Ok?
    ensures Untouched(b, StatusStep(g, b, now, call).value)
  {
    match call
    case CallBatchCancel(_, ids) => CancelEachUntouched(b, ids);
    case CallCancel(_, _) =>
    case CallForceCancel(_, _) =>
    case CallExpire(_, _) =>
    case CallHold(_, _, _, _) =>
    case CallReleaseHold(_, _) =>
  }

  // ----- dispute calls -----

  /** Rewriting an open dispute `x` without moving it to another settlement. */
  lemma RewriteKeeps(b: Book, b': Book, id: nat, x: Dispute)
    requires Sound(b) && id in b.disputes && b.disputes[id].status.Raised?
    requires b'.disputes == b.disputes[id := x] && b'.disputeCount == b.disputeCount
    requires b'.settlementDisputes == b.settlementDisputes
    requires x.id == id && x.settlementId == b.disputes[id].settlementId && x.amount == b.disputes[id].amount
    requires x.claimant == b.disputes[id].claimant && x.counterparty == b.disputes[id].counterparty
    requires b.disputes[id].approvals <= x.approvals && NoDup(x.approvals) && (x.weight == 0 <==> x.approvals == [])
    requires b.disputes[id].approvals != [] ==> x.forClaimant == b.disputes[id].forClaimant
    ensures Sound(b') && Evolves(b, b')
  {
    forall d ensures DisputeOk(b', d) && Kept(b, b', d) { assert DisputeOk(b, d); }
    forall sid ensures ListOk(b', sid) {
      assert ListOk(b, sid);
      FilterExt(Ids(b.disputeCount), About(b, sid), About(b', sid));
    }
  }

  /** Storing a new dispute under the next id and appending it to its settlement's list. */
  lemma AppendKeeps(b: Book, b': Book, x: Dispute)
    requires Sound(b) && x.id == b.disputeCount + 1 && x.amount > 0 && x.approvals == [] && x.weight == 0
    requires b'.disputeCount == x.id && b'.disputes == b.disputes[x.id := x]
    requires b'.settlementDisputes ==
             b.settlementDisputes[x.settlementId := Lookup(b.settlementDisputes, x.settlementId, []) + [x.id]]
    ensures Sound(b') && Evolves(b, b')
  {
    forall d ensures DisputeOk(b', d) && Kept(b, b', d) { assert DisputeOk(b, d) && DisputeOk(b, x.id); }
    forall sid ensures ListOk(b', sid) {
      assert ListOk(b, sid) && DisputeOk(b, x.id);
      ListGrows(b, b', x, sid);
    }
  }

  lemma ListGrows(b: Book, b': Book, x: Dispute, sid: nat)
    requires x.id == b.disputeCount + 1 && b'.disputeCount == x.id && b'.disputes == b.disputes[x.id := x]
    ensures Filter(Ids(b'.disputeCount), About(b', sid)) ==
            Filter(Ids(b.disputeCount), About(b, sid)) + (if x.settlementId == sid then [x.id] else [])
  {
    var all := Ids(x.id);
    assert all[..|all| - 1] == Ids(b.disputeCount);
    FilterExt(Ids(b.disputeCount), About(b, sid), About(b', sid));
  }

  lemma RaiseKeeps(g: Governance, b: Book, claimant: Address, sid: nat, counterparty: Address, amount: i128,
                   expiresAt: u64)
    requires Sound(b) && RaiseDispute(g, b, claimant, sid, counterparty, amount, expiresAt).Ok?
    ensures var b' := RaiseDispute(g, b, claimant, sid, counterparty, amount, expiresAt).value;
            Sound(b') && Evolves(b, b')
  {
    var b' := RaiseDispute(g, b, claimant, sid, counterparty, amount, expiresAt).value;
    AppendKeeps(b, b', b'.disputes[b.disputeCount + 1]);
  }

  lemma ReleaseLeavesDisputes(b: Book, sid: nat)
    ensures Untouched(b, ReleaseIfUndisputed(b, sid))
  {
  }

  lemma CloseKeeps(b: Book, id: nat, x: Dispute, splits: seq<SplitPayment>)
    requires Sound(b) && id in b.disputes && b.disputes[id].status.Raised?
    requires exists status, bps :: x == b.disputes[id].(status := status, claimantBps := bps)
    ensures var b' := CloseDispute(b.(splits := splits), id, x); Sound(b') && Evolves(b, b')
  {
    var mid := b.(splits := splits, disputes := b.disputes[id := x]);
    assert DisputeOk(b, id);
    ReleaseLeavesDisputes(mid, x.settlementId);
    RewriteKeeps(b, CloseDispute(b.(splits := splits), id, x), id, x);
  }

  lemma VoteKeeps(g: Governance, b: Book, signer: Address, id: nat, forClaimant: bool)
    requires Sound(b) && Vote(g, b, signer, id, forClaimant).Ok?
    ensures var b' := Vote(g, b, signer, id, forClaimant).value; Sound(b') && Evolves(b, b')
  {
    var b' := Vote(g, b, signer, id, forClaimant).value;
    assert DisputeOk(b, id);
    RewriteKeeps(b, b', id, b'.disputes[id]);
  }

  lemma DisputeStepKeeps(g: Governance, b: Book, now: u64, call: DisputeCall)
    requires Sound(b) && DisputeStep(g, b, now, call).Ok?
    ensures var b' := DisputeStep(g, b, now, call).value; Sound(b') && Evolves(b, b')
  {
    match call
    case CallRaiseDispute(claimant, sid, counterparty, amount, expiresAt) =>
      RaiseKeeps(g, b, claimant, sid, counterparty, amount, expiresAt);
    case CallExpireDispute(_, id) =>
      CloseKeeps(b, id, b.disputes[id].(status := DisputeExpired, claimantBps := b.disputes[id].claimantBps), b.splits);
    case CallResolveDispute(_, id, forClaimant) =>
      CloseKeeps(b, id, b.disputes[id].(status := if forClaimant then ResolvedClaimant else ResolvedCounterparty,
                                        claimantBps := b.disputes[id].claimantBps), b.splits);
    case CallResolveSplit(_, id, bps, token) =>
      var (share, rest) := SplitBps(b.disputes[id].amount, bps).value;
      CloseKeeps(b, id, b.disputes[id].(status := ResolvedSplit, claimantBps := bps),
                 b.splits + SplitPayments(id, b.disputes[id], token, share, rest));
    case CallVote(signer, id, forClaimant) => VoteKeeps(g, b, signer, id, forClaimant);
  }

  /** One call: closed disputes stay frozen, directions and voters stay, the lists stay the scans. */
  lemma BookStepKeeps(g: Governance, totals: map<Address, i128>, b: Book, now: u64, call: BookCall)
    requires Sound(b) && BookStep(g, totals, b, now, call).Ok?
    ensures var b' := BookStep(g, totals, b, now, call).value; Sound(b') && Evolves(b, b')
  {
    var b' := BookStep(g, totals, b, now, call).value;
    match call
    case Approving(c) => ApprovalUntouched(g, b, now, c); UntouchedKeeps(b, b');
    case Paying(c) => PayoutUntouched(g, b, now, c); UntouchedKeeps(b, b');
    case Moving(c) => StatusUntouched(g, b, now, c); UntouchedKeeps(b, b');
    case Disputing(c) => DisputeStepKeeps(g, b, now, c);
    case Setting(c) => SettlementSafety.SettingTouchesSettings(g, totals, b, c); UntouchedKeeps(b, b');
  }

  // ----- releasing holds -----

  ghost predicate Closing(call: DisputeCall) {
    call.CallExpireDispute? || call.CallResolveDispute? || call.CallResolveSplit?
  }

  /** The call names the one open dispute of `sid` and is not a vote. */
  ghost predicate ClosesLast(b: Book, call: DisputeCall, sid: nat) {
    Closing(call) && OpenFor(b, call.id, sid) && forall d :: OpenFor(b, d, sid) ==> d == call.id
  }

  ghost predicate AnyOpen(b: Book, sid: nat) {
    exists d :: OpenFor(b, d, sid)
  }

  lemma ReleaseExactly(b: Book, sid: nat, target: nat)
    requires Sound(b) && sid in b.settlements && b.settlements[sid].status.OnHold?
    ensures var b' := ReleaseIfUndisputed(b, target);
            b'.settlements[sid].status == if sid == target && !AnyOpen(b, sid) then Pending else OnHold
  {
    assert AnyOpen(b, sid) <==> HasOpenDispute(b, sid) by {
      if AnyOpen(b, sid) {
        var d :| OpenFor(b, d, sid);
        assert DisputeOk(b, d);
      }
    }
  }

  /**
   A dispute call takes a settlement off hold exactly when it expires, resolves or splits the settlement's only
   open dispute; and no dispute call touches a hold expiry.
   */
  lemma HoldReleaseIsExact(g: Governance, b: Book, now: u64, call: DisputeCall, sid: nat)
    requires Sound(b) && DisputeStep(g, b, now, call).Ok?
    requires sid in b.settlements && b.settlements[sid].status.OnHold?
    ensures var b' := DisputeStep(g, b, now, call).value;
            && sid in b'.settlements && b'.holdExpiry == b.holdExpiry
            && b'.settlements[sid].status == (if ClosesLast(b, call, sid) then Pending else OnHold)
  {
    ExpiriesStay(g, b, now, call);
    if Closing(call) {
      CloseReleases(g, b, now, call, sid);
    } else {
      OtherDisputeCallsHold(g, b, now, call, sid);
    }
  }

  lemma ExpiriesStay(g: Governance, b: Book, now: u64, call: DisputeCall)
    requires DisputeStep(g, b, now, call).Ok?
    ensures DisputeStep(g, b, now, call).value.holdExpiry == b.holdExpiry
  {
    match call
    case CallRaiseDispute(_, sid, _, _, _) => assert HoldForDispute(b, sid).holdExpiry == b.holdExpiry;
    case CallExpireDispute(_, id) => CloseKeepsExpiry(b, id, b.disputes[id].(status := DisputeExpired));
    case CallResolveDispute(_, id, forClaimant) =>
      var status := if forClaimant then ResolvedClaimant else ResolvedCounterparty;
      CloseKeepsExpiry(b, id, b.disputes[id].(status := status));
    case CallResolveSplit(caller, id, bps, token) => SplitKeepsExpiry(g, b, caller, id, bps, token);
    case CallVote(_, _, _) =>
  }

  lemma CloseKeepsExpiry(b: Book, id: nat, d: Dispute)
    ensures CloseDispute(b, id, d).holdExpiry == b.holdExpiry
  {
  }

  lemma SplitKeepsExpiry(g: Governance, b: Book, caller: Address, id: nat, bps: u32, token: Address)
    requires ResolveSplit(g, b, caller, id, bps, token).Ok?
    ensures ResolveSplit(g, b, caller, id, bps, token).value.holdExpiry == b.holdExpiry
  {
    var b' := ResolveSplit(g, b, caller, id, bps, token).value;
    CloseKeepsExpiry(b.(splits := b'.splits), id, b.disputes[id].(status := ResolvedSplit, claimantBps := bps));
  }

  /** What a closing call did before it looked for other open disputes. */
  ghost function BeforeRelease(b: Book, b': Book): Book { b.(splits := b'.splits, disputes := b'.disputes) }

  lemma CloseShape(g: Governance, b: Book, now: u64, call: DisputeCall)
    requires Closing(call) && DisputeStep(g, b, now, call).Ok?
    ensures call.id in b.disputes && b.disputes[call.id].status.Raised?
    ensures var b' := DisputeStep(g, b, now, call).value;
            && call.id in b'.disputes && !b'.disputes[call.id].status.Raised?
            && b'.disputes == b.disputes[call.id := b'.disputes[call.id]]
            && b'.disputes[call.id].settlementId == b.disputes[call.id].settlementId
            && b' == ReleaseIfUndisputed(BeforeRelease(b, b'), b.disputes[call.id].settlementId)
  {
  }

  lemma CloseReleases(g: Governance, b: Book, now: u64, call: DisputeCall, sid: nat)
    requires Sound(b) && DisputeStep(g, b, now, call).Ok? && Closing(call)
    requires sid in b.settlements && b.settlements[sid].status.OnHold?
    ensures var b' := DisputeStep(g, b, now, call).value;
            && sid in b'.settlements
            && b'.settlements[sid].status == (if ClosesLast(b, call, sid) then Pending else OnHold)
  {
    var b' := DisputeStep(g, b, now, call).value;
    CloseShape(g, b, now, call);
    DisputeStepKeeps(g, b, now, call);
    var mid := BeforeRelease(b, b');
    UntouchedKeeps(b', mid);
    ReleaseExactly(mid, sid, b.disputes[call.id].settlementId);
    StillOpen(b, mid, call.id, sid);
  }

  /** Closing dispute `id` leaves exactly the other open disputes open. */
  lemma StillOpen(b: Book, mid: Book, id: nat, sid: nat)
    requires id in b.disputes && id in mid.disputes && mid.disputes == b.disputes[id := mid.disputes[id]]
    requires !mid.disputes[id].status.Raised?
    ensures AnyOpen(mid, sid) <==> exists d :: d != id && OpenFor(b, d, sid)
  {
    if AnyOpen(mid, sid) {
      var d :| OpenFor(mid, d, sid);
      assert d != id && OpenFor(b, d, sid);
    }
    if d :| d != id && OpenFor(b, d, sid) {
      assert OpenFor(mid, d, sid);
    }
  }

  lemma OtherDisputeCallsHold(g: Governance, b: Book, now: u64, call: DisputeCall, sid: nat)
    requires DisputeStep(g, b, now, call).Ok? && (call.CallRaiseDispute? || call.CallVote?)
    requires sid in b.settlements && b.settlements[sid].status.OnHold?
    ensures var b' := DisputeStep(g, b, now, call).value;
            sid in b'.settlements && b'.settlements[sid] == b.settlements[sid]
  {
    match call
    case CallRaiseDispute(_, _, _, _, _) =>
    case CallVote(_, _, _) =>
  }

  /** The release after a dispute does what `release_hold` does exactly when no hold expiry is stored. */
  lemma ReleaseIsCleanIff(g: Governance, b: Book, admin: Address, sid: nat)
    requires Sound(b) && g.admin == Some(admin)
    requires sid in b.settlements && b.settlements[sid].status.OnHold? && !AnyOpen(b, sid)
    ensures ReleaseHold(g, b, admin, sid).Ok? && sid !in ReleaseHold(g, b, admin, sid).value.holdExpiry
    ensures ReleaseIfUndisputed(b, sid) == ReleaseHold(g, b, admin, sid).value <==> sid !in b.holdExpiry
    ensures sid !in ReleaseIfUndisputed(b, sid).holdExpiry <==> sid !in b.holdExpiry
  {
    assert !HasOpenDispute(b, sid);
    var written := WriteSettlement(b, sid, b.settlements[sid].(status := Pending, holdReason := NoHold));
    assert ReleaseIfUndisputed(b, sid) == written && written.holdExpiry == b.holdExpiry;
    if sid !in b.holdExpiry { assert b.holdExpiry - {sid} == b.holdExpiry; }
  }

  /** What a list of split payments pays in all, and to one party. */
  ghost function Paid(ps: seq<SplitPayment>): int {
    if ps == [] then 0 else ps[0].amount + Paid(ps[1..])
  }

  ghost function PaidTo(ps: seq<SplitPayment>, who: Address): int {
    if ps == [] then 0 else (if ps[0].to == who then ps[0].amount else 0) + PaidTo(ps[1..], who)
  }

  /** A successful split pays at most two positive shares that sum exactly to the disputed amount. */
  lemma SplitPaysExactly(g: Governance, b: Book, caller: Address, id: nat, bps: u32, token: Address)
    requires Sound(b) && ResolveSplit(g, b, caller, id, bps, token).Ok?
    ensures var b' := ResolveSplit(g, b, caller, id, bps, token).value;
            var d := b.disputes[id];
            && b.splits <= b'.splits
            && var made := b'.splits[|b.splits|..];
            && |made| <= 2 && (forall k :: 0 <= k < |made| ==> made[k].amount > 0 && made[k].dispute == id)
            && Paid(made) == d.amount
            && (d.claimant != d.counterparty ==>
                  PaidTo(made, d.claimant) == d.amount * bps / 10_000
                  && PaidTo(made, d.counterparty) == d.amount - d.amount * bps / 10_000)
  {
    assert DisputeOk(b, id);
    var d := b.disputes[id];
    SplitIsExact(d.amount, bps);
    var (share, rest) := SplitBps(d.amount, bps).value;
    var b' := ResolveSplit(g, b, caller, id, bps, token).value;
    assert b'.splits[|b.splits|..] == SplitPayments(id, d, token, share, rest);
    PaymentsSum(id, d, token, share, rest);
  }

  lemma PaymentsSum(id: nat, d: Dispute, token: Address, share: i128, rest: i128)
    requires 0 <= share && 0 <= rest && share + rest > 0
    ensures var ps := SplitPayments(id, d, token, share, rest);
            && Paid(ps) == share + rest
            && (d.claimant != d.counterparty ==> PaidTo(ps, d.claimant) == share && PaidTo(ps, d.counterparty) == rest)
  {
    var ps := SplitPayments(id, d, token, share, rest);
    var last: seq<SplitPayment> := if rest > 0 then [SplitPayment(id, token, d.counterparty, rest)] else [];
    assert rest > 0 ==> last[1..] == [];
    assert Paid(last) == rest && PaidTo(last, d.counterparty) == rest;
    assert d.claimant != d.counterparty ==> PaidTo(last, d.claimant) == 0;
    assert if share > 0 then ps[0] == SplitPayment(id, token, d.claimant, share) && ps[1..] == last else ps == last;
  }
}
