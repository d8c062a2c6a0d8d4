/**
 Runs of the whole treasury: any sequence of timed calls from empty storage. A call that fails leaves
 the state unchanged. The theorems here speak about every state of every run.
 */
module TreasuryRuns {
  import opened Common
  import opened TreasuryTypes
  import opened GovernanceSpec
  import opened SettlementSpec
  import opened VaultSpec
  import GovernanceSafety
  import SettlementSafety
  import DisputeSafety
  import VaultSafety
  import opened QuorumSteps

  datatype State = State(gov: Governance, book: Book, vault: Vault)

  datatype Call =
    | ToGovernance(gov: GovCall)
    | ToBook(book: BookCall)
    | ToVault(vault: VaultCall)

  datatype Event = Event(now: u64, call: Call)

  const EMPTY_STATE: State := State(EMPTY_GOVERNANCE, EMPTY_BOOK, EMPTY_VAULT)

  /** `initialize` also writes the book's counters and the default expiry. */
  function ResetBook(b: Book): Book {
    b.(settlementCount := 0, disputeCount := 0, expirySecs := DEFAULT_EXPIRY)
  }

  function Step(s: State, e: Event): State {
    match e.call
    case ToGovernance(c) =>
      (match GovStep(s.gov, e.now, c)
       case Ok(g) => State(g, if c.CallInitialize? then ResetBook(s.book) else s.book, s.vault)
       case Err(_) => s)
    case ToBook(c) =>
      (match BookStep(s.gov, s.vault.totals, s.book, e.now, c)
       case Ok(b) => s.(book := b)
       case Err(_) => s)
    case ToVault(c) =>
      (match VaultStep(s.gov, s.vault, e.now, c)
       case Ok(v) => s.(vault := v)
       case Err(_) => s)
  }

  function Run(es: seq<Event>): State {
    if es == [] then EMPTY_STATE else Step(Run(es[..|es| - 1]), es[|es| - 1])
  }

  lemma RunSnoc(es: seq<Event>, e: Event)
    ensures Run(es + [e]) == Step(Run(es), e)
  {
    assert (es + [e])[..|es + [e]| - 1] == es;
  }

  lemma RunPrefix(es: seq<Event>, i: nat)
    requires i < |es|
    ensures Run(es[..i + 1]) == Step(Run(es[..i]), es[i])
  {
    assert es[..i + 1][..i] == es[..i];
  }

  ghost predicate Chronological(es: seq<Event>) {
    forall i, j :: 0 <= i < j < |es| ==> es[i].now <= es[j].now
  }

  ghost function LastTime(es: seq<Event>): int {
    if es == [] then 0 else es[|es| - 1].now
  }

  // ----- the invariant of all runs -----

  ghost predicate Sound(s: State) {
    && GovernanceSafety.Sound(s.gov)
    && SettlementSafety.Sound(s.book)
    && VaultSafety.Conserved(s.vault)
    && (s.gov.admin.None? ==> s.book.settlements == map[] && s.book.settlementCount == 0)
  }

  lemma NobodyMayAct(s: State, now: u64, c: BookCall)
    requires Sound(s) && s.gov.admin.None? && BookStep(s.gov, s.vault.totals, s.book, now, c).Ok?
    ensures var b := BookStep(s.gov, s.vault.totals, s.book, now, c).value;
            b.settlements == map[] && b.settlementCount == 0
  {
    match c
    case Approving(a) =>
    case Paying(p) =>
    case Moving(m) =>
    case Disputing(d) => assert d.CallRaiseDispute?;
    case Setting(t) => assert t.CallSetPayoutAddress?;
  }

  lemma StepKeeps(s: State, e: Event)
    requires Sound(s)
    ensures Sound(Step(s, e)) && SettlementSafety.Evolves(s.book, Step(s, e).book)
  {
    SettlementSafety.OtherFields(s.book, s.book);
    match e.call
    case ToGovernance(c) =>
      if GovStep(s.gov, e.now, c).Ok? {
        GovernanceSafety.GovStepKeeps(s.gov, e.now, c);
        if c.CallInitialize? { SettlementSafety.OtherFields(s.book, ResetBook(s.book)); }
        AdminStays(s.gov, e.now, c);
      }
    case ToBook(c) =>
      if BookStep(s.gov, s.vault.totals, s.book, e.now, c).Ok? {
        SettlementSafety.BookStepKeeps(s.gov, s.vault.totals, s.book, e.now, c);
        if s.gov.admin.None? { NobodyMayAct(s, e.now, c); }
      }
    case ToVault(c) =>
      if VaultStep(s.gov, s.vault, e.now, c).Ok? { VaultSafety.VaultStepConserves(s.gov, s.vault, e.now, c); }
  }

  lemma AdminStays(g: Governance, now: u64, c: GovCall)
    requires GovernanceSafety.Sound(g) && GovStep(g, now, c).Ok?
    ensures GovStep(g, now, c).value.admin.Some?
  {
    GovernanceSafety.GovStepKeeps(g, now, c);
    if c.CallInitialize? {
      EnrolKeepsAdmin(g.(admin := Some(c.admin), threshold := Some(c.threshold), paused := false,
                         weights := g.weights[c.admin := 1], signerList := [c.admin]), c.signers);
    }
  }

  lemma {:induction false} EnrolKeepsAdmin(g: Governance, signers: seq<(Address, u32)>)
    ensures Enrol(g, signers).admin == g.admin && Enrol(g, signers).threshold == g.threshold
  {
    if signers != [] { EnrolKeepsAdmin(g, signers[..|signers| - 1]); }
  }

  lemma EmptyIsSound()
    ensures Sound(EMPTY_STATE)
  {
    GovernanceSafety.EmptyIsSound();
    assert SettlementSafety.Sound(EMPTY_BOOK) by {
      assert forall id :: SettlementSafety.RecordOk(EMPTY_BOOK, id);
      assert forall id :: SettlementSafety.PaidOk(EMPTY_BOOK, id);
      assert forall id :: SettlementSafety.PartialOk(EMPTY_BOOK, id);
    }
    assert EMPTY_VAULT.balances.Keys == {};
  }

  lemma {:induction false} RunIsSound(es: seq<Event>)
    ensures Sound(Run(es))
  {
    if es == [] { EmptyIsSound(); } else {
      RunIsSound(es[..|es| - 1]);
      StepKeeps(Run(es[..|es| - 1]), es[|es| - 1]);
    }
  }

  /** Settlements evolve monotonically between any two points of a run. */
  lemma {:induction false} RunEvolves(es: seq<Event>, i: nat)
    requires i <= |es|
    ensures SettlementSafety.Evolves(Run(es[..i]).book, Run(es).book)
  {
    if i == |es| {
      assert es[..i] == es;
      RunIsSound(es);
      SettlementSafety.OtherFields(Run(es).book, Run(es).book);
    } else {
      var front := es[..|es| - 1];
      assert es[..i] == front[..i];
      RunEvolves(front, i);
      RunIsSound(front);
      StepKeeps(Run(front), es[|es| - 1]);
      SettlementSafety.EvolvesTrans(Run(es[..i]).book, Run(front).book, Run(es).book);
    }
  }

  // ----- at most one payout -----

  /** In every run a settlement is paid at most once, at most its amount, and its partial totals stay within it. */
  lemma PaidAtMostOnce(es: seq<Event>, id: nat)
    ensures var b := Run(es).book;
            && SettlementSafety.PaidCount(b.payouts, id) <= 1
            && (id !in b.settlements ==> SettlementSafety.PaidCount(b.payouts, id) == 0)
            && (id in b.settlements ==>
                  && 0 <= SettlementSafety.PaidTotal(b.payouts, id) <= b.settlements[id].amount
                  && 0 <= Lookup(b.partialApproved, id, 0) <= b.settlements[id].amount
                  && 0 <= Lookup(b.partialExecuted, id, 0) <= b.settlements[id].amount
                  && (Live(b.settlements[id].status) ==> SettlementSafety.PaidCount(b.payouts, id) == 0))
  {
    RunIsSound(es);
    SettlementSafety.SoundPaysOnce(Run(es).book, id);
  }

  /** Once a settlement has left Pending and OnHold, its record is the same at every later point of the run. */
  lemma FinishedStaysFinished(es: seq<Event>, i: nat, id: nat)
    requires i <= |es| && id in Run(es[..i]).book.settlements
    ensures id in Run(es).book.settlements
    ensures Run(es).book.settlements[id].amount == Run(es[..i]).book.settlements[id].amount
    ensures !Live(Run(es[..i]).book.settlements[id].status) ==>
              Run(es).book.settlements[id] == Run(es[..i]).book.settlements[id]
  {
    RunEvolves(es, i);
    assert SettlementSafety.Kept(Run(es[..i]).book, Run(es).book, id);
  }

  // ----- the pending index -----

  /** The ids of all pending settlements, found by scanning every id ever handed out. */
  function PendingScan(b: Book): seq<nat> {
    Filter(Ids(b.settlementCount), IsPendingIn(b))
  }

  function IsPendingIn(b: Book): nat -> bool {
    (id: nat) => id in b.settlements && b.settlements[id].status.Pending?
  }

  /** In every run the index is duplicate-free and lists exactly the pending ids and the ids paid by a batch. */
  lemma PendingIndexIsExact(es: seq<Event>)
    ensures var b := Run(es).book;
            && NoDup(b.pendingIndex)
            && (forall id :: id in b.pendingIndex <==>
                  SettlementSafety.IsPending(b, id) || SettlementSafety.BatchPaid(b.payouts, id))
            && (forall id :: id in b.pendingIndex && !SettlementSafety.IsPending(b, id) ==>
                  id in b.settlements && b.settlements[id].status.Executed?)
  {
    RunIsSound(es);
    var b := Run(es).book;
    forall id | id in b.pendingIndex && !SettlementSafety.IsPending(b, id)
      ensures id in b.settlements && b.settlements[id].status.Executed?
    {
      assert SettlementSafety.PaidOk(b, id);
    }
  }

  ghost predicate BatchFree(es: seq<Event>) {
    forall i :: 0 <= i < |es| ==>
      !(es[i].call.ToBook? && es[i].call.book.Paying? && es[i].call.book.payout.CallBatchExecute?)
  }

  lemma {:induction false} BatchFreeLog(es: seq<Event>, id: nat)
    requires BatchFree(es)
    ensures !SettlementSafety.BatchPaid(Run(es).book.payouts, id)
  {
    if es != [] {
      var front, e := es[..|es| - 1], es[|es| - 1];
      var s := Run(front);
      BatchFreeLog(front, id);
      if e.call.ToBook? && BookStep(s.gov, s.vault.totals, s.book, e.now, e.call.book).Ok? {
        OnlyBatchesBatch(s.gov, s.vault.totals, s.book, e.now, e.call.book, id);
      }
    }
  }

  lemma FullPayoutIsSingle(g: Governance, b: Book, now: u64, signer: Address, sid: nat, token: Address, cleared: bool,
                           id: nat)
    requires Execute(g, b, now, signer, sid, token, cleared).Ok?
    ensures SettlementSafety.BatchPaid(Execute(g, b, now, signer, sid, token, cleared).value.payouts, id) ==>
              SettlementSafety.BatchPaid(b.payouts, id)
  {
    var b' := Execute(g, b, now, signer, sid, token, cleared).value;
    SettlementSafety.LogSnoc(b.payouts, b'.payouts[|b.payouts|], id);
  }

  lemma PartialPayoutIsSingle(g: Governance, b: Book, now: u64, signer: Address, sid: nat, part: i128, token: Address,
                              id: nat)
    requires ExecutePartially(g, b, now, signer, sid, part, token).Ok?
    ensures SettlementSafety.BatchPaid(ExecutePartially(g, b, now, signer, sid, part, token).value.payouts, id) ==>
              SettlementSafety.BatchPaid(b.payouts, id)
  {
    var b' := ExecutePartially(g, b, now, signer, sid, part, token).value;
    SettlementSafety.LogSnoc(b.payouts, b'.payouts[|b.payouts|], id);
  }

  lemma SinglePayout(g: Governance, b: Book, now: u64, p: PayoutCall, id: nat)
    requires PayoutStep(g, b, now, p).Ok? && !p.CallBatchExecute?
    ensures SettlementSafety.BatchPaid(PayoutStep(g, b, now, p).value.payouts, id) ==>
              SettlementSafety.BatchPaid(b.payouts, id)
  {
    match p
    case CallExecute(signer, sid, token, cleared) => FullPayoutIsSingle(g, b, now, signer, sid, token, cleared, id);
    case CallExecutePartially(signer, sid, part, token) =>
      PartialPayoutIsSingle(g, b, now, signer, sid, part, token, id);
  }

  lemma OnlyBatchesBatch(g: Governance, totals: map<Address, i128>, b: Book, now: u64, c: BookCall, id: nat)
    requires BookStep(g, totals, b, now, c).Ok? && !(c.Paying? && c.payout.CallBatchExecute?)
    ensures SettlementSafety.BatchPaid(BookStep(g, totals, b, now, c).value.payouts, id) ==>
              SettlementSafety.BatchPaid(b.payouts, id)
  {
    match c
    case Approving(a) => ApprovalStepPaysNothing(g, b, now, a);
    case Paying(p) => SinglePayout(g, b, now, p, id);
    case Moving(m) => StatusStepPaysNothing(g, b, now, m);
    case Disputing(d) => DisputeStepKeepsTally(g, b, now, d, 0);
    case Setting(t) => SettlementSafety.SettingTouchesSettings(g, totals, b, t);
  }

  /** Without batch executions the index is, up to order, the scan over all settlements. */
  lemma IndexIsTheScan(es: seq<Event>)
    requires BatchFree(es)
    ensures var b := Run(es).book;
            && NoDup(b.pendingIndex) && |b.pendingIndex| == |PendingScan(b)|
            && forall id :: id in b.pendingIndex <==> id in PendingScan(b)
  {
    RunIsSound(es);
    var b := Run(es).book;
    FilterMembers(Ids(b.settlementCount), IsPendingIn(b));
    FilterNoDup(Ids(b.settlementCount), IsPendingIn(b));
    forall id ensures id in b.pendingIndex <==> id in PendingScan(b) {
      BatchFreeLog(es, id);
      assert SettlementSafety.RecordOk(b, id);
      IdsMember(b.settlementCount, id);
    }
    SumSameElements(b.pendingIndex, PendingScan(b), (id: nat) => 0);
  }

  function TokenIs(b: Book, token: Option<Address>): nat -> bool {
    (id: nat) => id in b.settlements && b.settlements[id].token == token
  }

  function AmountIn(b: Book): nat -> int {
    (id: nat) => if id in b.settlements then b.settlements[id].amount else 0
  }

  /** Grouping the index by token gives the counts and sums of grouping the scan. */
  lemma IndexGroupsLikeTheScan(es: seq<Event>, token: Option<Address>)
    requires BatchFree(es)
    ensures var b := Run(es).book;
            && |Filter(b.pendingIndex, TokenIs(b, token))| == |Filter(PendingScan(b), TokenIs(b, token))|
            && Sum(Filter(b.pendingIndex, TokenIs(b, token)), AmountIn(b))
               == Sum(Filter(PendingScan(b), TokenIs(b, token)), AmountIn(b))
  {
    IndexIsTheScan(es);
    var b := Run(es).book;
    var p, scan := TokenIs(b, token), PendingScan(b);
    FilterNoDup(Ids(b.settlementCount), IsPendingIn(b));
    FilterNoDup(b.pendingIndex, p);
    FilterNoDup(scan, p);
    FilterMembers(b.pendingIndex, p);
    FilterMembers(scan, p);
    SumSameElements(Filter(b.pendingIndex, p), Filter(scan, p), AmountIn(b));
  }

  // ----- quorum -----

  /** The weight `a` had when its standing approval of settlement `id` was recorded. */
  ghost function Granted(es: seq<Event>, id: nat, a: Address): nat {
    if es == [] then 0
    else
      var front := es[..|es| - 1];
      if a in ApprovalsOf(Run(es).book, id) && a !in ApprovalsOf(Run(front).book, id)
      then SignerWeight(Run(front).gov, a) else Granted(front, id, a)
  }

  ghost function GrantedBy(es: seq<Event>, id: nat): Address -> int {
    a => Granted(es, id, a)
  }

  /** `a` was an approver of `id` before the last call of `es` and is not one after it. */
  ghost predicate Withdrew(es: seq<Event>, id: nat, a: Address)
    requires es != []
  {
    a in ApprovalsOf(Run(es[..|es| - 1]).book, id) && a !in ApprovalsOf(Run(es).book, id)
  }

  /** No signer that revoked its approval of `id` weighed less then than when it approved. */
  ghost predicate NoLossOnRevoke(es: seq<Event>, id: nat) {
    es == [] ||
    (&& NoLossOnRevoke(es[..|es| - 1], id)
     && forall a :: Withdrew(es, id, a) ==> SignerWeight(Run(es[..|es| - 1]).gov, a) >= Granted(es[..|es| - 1], id, a))
  }

  /** Every signer that revoked its approval of `id` weighed the same as when it approved. */
  ghost predicate SameOnRevoke(es: seq<Event>, id: nat) {
    es == [] ||
    (&& SameOnRevoke(es[..|es| - 1], id)
     && forall a :: Withdrew(es, id, a) ==> SignerWeight(Run(es[..|es| - 1]).gov, a) == Granted(es[..|es| - 1], id, a))
  }

  ghost function Backing(es: seq<Event>, id: nat): int {
    Sum(ApprovalsOf(Run(es).book, id), GrantedBy(es, id))
  }

  lemma NextIdIsFree(b: Book)
    requires SettlementSafety.Sound(b)
    ensures b.settlementCount + 1 !in b.settlements
  {
    assert SettlementSafety.RecordOk(b, b.settlementCount + 1);
  }

  lemma BookMovesTally(s: State, e: Event, id: nat)
    requires s.book.settlementCount + 1 !in s.book.settlements && e.call.ToBook?
    requires BookStep(s.gov, s.vault.totals, s.book, e.now, e.call.book).Ok?
    ensures TallyMoves(s.gov, s.book, Step(s, e).book, id)
  {
    BookStepMoves(s.gov, s.vault.totals, s.book, e.now, e.call.book, id);
  }

  lemma OthersKeepTally(s: State, e: Event, id: nat)
    requires !(e.call.ToBook? && BookStep(s.gov, s.vault.totals, s.book, e.now, e.call.book).Ok?)
    ensures SameTally(s.book, Step(s, e).book, id)
  {
  }

  lemma StepMovesTally(s: State, e: Event, id: nat)
    requires Sound(s)
    ensures TallyMoves(s.gov, s.book, Step(s, e).book, id)
  {
    if e.call.ToBook? && BookStep(s.gov, s.vault.totals, s.book, e.now, e.call.book).Ok? {
      NextIdIsFree(s.book);
      BookMovesTally(s, e, id);
    } else {
      OthersKeepTally(s, e, id);
    }
  }

  /** The last call does not change what an earlier approver granted. */
  lemma GrantedKept(es: seq<Event>, id: nat, a: Address)
    requires es != [] && a in ApprovalsOf(Run(es[..|es| - 1]).book, id)
    ensures Granted(es, id, a) == Granted(es[..|es| - 1], id, a)
  {
  }

  /** Over approvers from before the last call both sums of granted weights agree. */
  lemma BackingKept(es: seq<Event>, id: nat, approvers: seq<Address>)
    requires es != []
    requires forall j :: 0 <= j < |approvers| ==> approvers[j] in ApprovalsOf(Run(es[..|es| - 1]).book, id)
    ensures Sum(approvers, GrantedBy(es, id)) == Sum(approvers, GrantedBy(es[..|es| - 1], id))
  {
    var f, g := GrantedBy(es, id), GrantedBy(es[..|es| - 1], id);
    forall j | 0 <= j < |approvers| ensures f(approvers[j]) == g(approvers[j]) { GrantedKept(es, id, approvers[j]); }
    SumExt(approvers, f, g);
  }

  lemma BackingSame(es: seq<Event>, id: nat)
    requires es != [] && SameTally(Run(es[..|es| - 1]).book, Run(es).book, id)
    ensures Backing(es, id) == Backing(es[..|es| - 1], id)
  {
    BackingKept(es, id, ApprovalsOf(Run(es).book, id));
  }

  lemma BackingJoined(es: seq<Event>, id: nat, a: Address)
    requires es != [] && Joined(Run(es[..|es| - 1]).gov, Run(es[..|es| - 1]).book, Run(es).book, id, a)
    ensures Backing(es, id) == Backing(es[..|es| - 1], id) + SignerWeight(Run(es[..|es| - 1]).gov, a)
    ensures Granted(es, id, a) == SignerWeight(Run(es[..|es| - 1]).gov, a)
  {
    var before := ApprovalsOf(Run(es[..|es| - 1]).book, id);
    var f, g := GrantedBy(es, id), GrantedBy(es[..|es| - 1], id);
    GrantedNew(es, id, a);
    forall j | 0 <= j < |before| ensures f(before[j]) == g(before[j]) { GrantedKept(es, id, before[j]); }
    SumJoined(before, a, f, g);
  }

  lemma GrantedNew(es: seq<Event>, id: nat, a: Address)
    requires es != [] && Joined(Run(es[..|es| - 1]).gov, Run(es[..|es| - 1]).book, Run(es).book, id, a)
    ensures Granted(es, id, a) == SignerWeight(Run(es[..|es| - 1]).gov, a)
  {
    var after := ApprovalsOf(Run(es).book, id);
    assert after[|after| - 1] == a;
  }

  lemma BackingLeft(es: seq<Event>, id: nat, i: nat)
    requires es != [] && NoDup(ApprovalsOf(Run(es[..|es| - 1]).book, id))
    requires Left(Run(es[..|es| - 1]).gov, Run(es[..|es| - 1]).book, Run(es).book, id, i)
    ensures var a := ApprovalsOf(Run(es[..|es| - 1]).book, id)[i];
            && Backing(es, id) == Backing(es[..|es| - 1], id) - Granted(es[..|es| - 1], id, a)
            && Withdrew(es, id, a)
  {
    var front := es[..|es| - 1];
    var before, after := ApprovalsOf(Run(front).book, id), ApprovalsOf(Run(es).book, id);
    RemoveAt(before, i);
    SumRemove(before, i, GrantedBy(front, id));
    forall j | 0 <= j < |after| ensures after[j] in before { assert after[j] in after; }
    BackingKept(es, id, after);
  }

  lemma BackingNonNegative(es: seq<Event>, id: nat)
    ensures Backing(es, id) >= 0
  {
    SumNonNegative(ApprovalsOf(Run(es).book, id), GrantedBy(es, id));
  }

  lemma ApproversDistinct(es: seq<Event>, id: nat)
    ensures NoDup(ApprovalsOf(Run(es).book, id))
  {
    RunIsSound(es);
    assert SettlementSafety.RecordOk(Run(es).book, id);
  }

  /** The recorded weight against the backing, under what the run says about revocations. */
  ghost predicate Tracks(es: seq<Event>, id: nat) {
    && (NoLossOnRevoke(es, id) ==> WeightOf(Run(es).book, id) <= Backing(es, id))
    && (SameOnRevoke(es, id) ==> WeightOf(Run(es).book, id) == Backing(es, id))
  }

  lemma TracksSame(es: seq<Event>, id: nat)
    requires es != [] && Tracks(es[..|es| - 1], id) && SameTally(Run(es[..|es| - 1]).book, Run(es).book, id)
    ensures Tracks(es, id)
  {
    BackingSame(es, id);
  }

  lemma TracksJoined(es: seq<Event>, id: nat, a: Address)
    requires es != [] && Tracks(es[..|es| - 1], id)
    requires Joined(Run(es[..|es| - 1]).gov, Run(es[..|es| - 1]).book, Run(es).book, id, a)
    ensures Tracks(es, id)
  {
    BackingJoined(es, id, a);
  }

  lemma TracksLeft(es: seq<Event>, id: nat, i: nat)
    requires es != [] && Tracks(es[..|es| - 1], id) && NoDup(ApprovalsOf(Run(es[..|es| - 1]).book, id))
    requires Left(Run(es[..|es| - 1]).gov, Run(es[..|es| - 1]).book, Run(es).book, id, i)
    ensures Tracks(es, id)
  {
    BackingLeft(es, id, i);
    BackingNonNegative(es, id);
  }

  /**
   In every run the approvers of a settlement are distinct; its recorded weight is at most what they
   weighed when they approved if no revoking signer had lost weight, and equal to it if none had changed.
   */
  lemma {:induction false} WeightIsBacked(es: seq<Event>, id: nat)
    ensures NoDup(ApprovalsOf(Run(es).book, id))
    ensures NoLossOnRevoke(es, id) ==> WeightOf(Run(es).book, id) <= Backing(es, id)
    ensures SameOnRevoke(es, id) ==> WeightOf(Run(es).book, id) == Backing(es, id)
  {
    ApproversDistinct(es, id);
    if es != [] {
      var front := es[..|es| - 1];
      var s, s' := Run(front), Run(es);
      WeightIsBacked(front, id);
      RunIsSound(front);
      StepMovesTally(s, es[|es| - 1], id);
      if SameTally(s.book, s'.book, id) {
        TracksSame(es, id);
      } else if a :| Joined(s.gov, s.book, s'.book, id, a) {
        TracksJoined(es, id, a);
      } else {
        var i :| Left(s.gov, s.book, s'.book, id, i);
        TracksLeft(es, id, i);
      }
    }
  }

  /** A standing approval was given with a positive weight. */
  lemma {:induction false} ApprovalsWeigh(es: seq<Event>, id: nat, a: Address)
    requires a in ApprovalsOf(Run(es).book, id)
    ensures Granted(es, id, a) > 0
  {
    if es != [] {
      var front := es[..|es| - 1];
      var s, s' := Run(front), Run(es);
      RunIsSound(front);
      StepMovesTally(s, es[|es| - 1], id);
      if a in ApprovalsOf(s.book, id) {
        ApprovalsWeigh(front, id, a);
      } else if i :| Left(s.gov, s.book, s'.book, id, i) {
        RemoveAtSubset(ApprovalsOf(s.book, id), i);
      }
    }
  }

  lemma RemoveAtSubset<T>(s: seq<T>, i: nat)
    requires i < |s|
    ensures forall x :: x in s[..i] + s[i + 1..] ==> x in s
  {
  }

  /**
   Every transfer made for a settlement, at any step of any run, is backed: the threshold in force is
   non-zero and distinct approvers, whose weights when they approved are positive, reach it.
   */
  lemma EveryPayoutIsBacked(es: seq<Event>, i: nat, k: nat)
    requires i < |es| && |Run(es[..i]).book.payouts| <= k < |Run(es[..i + 1]).book.payouts|
    requires NoLossOnRevoke(es[..i], Run(es[..i + 1]).book.payouts[k].id)
    ensures var s := Run(es[..i]);
            var id := Run(es[..i + 1]).book.payouts[k].id;
            var approvers := ApprovalsOf(s.book, id);
            && s.gov.threshold.Some? && s.gov.threshold.value > 0
            && approvers != [] && NoDup(approvers)
            && (forall j :: 0 <= j < |approvers| ==> Granted(es[..i], id, approvers[j]) > 0)
            && Sum(approvers, GrantedBy(es[..i], id)) >= s.gov.threshold.value
  {
    var s, id := Run(es[..i]), Run(es[..i + 1]).book.payouts[k].id;
    RunPrefix(es, i);
    StepNeedsQuorum(s, es[i], k);
    WeightIsBacked(es[..i], id);
    var approvers := ApprovalsOf(s.book, id);
    forall j | 0 <= j < |approvers| ensures Granted(es[..i], id, approvers[j]) > 0 {
      ApprovalsWeigh(es[..i], id, approvers[j]);
    }
  }

  lemma StepNeedsQuorum(s: State, e: Event, k: nat)
    requires |s.book.payouts| <= k < |Step(s, e).book.payouts|
    ensures HasQuorum(s.gov, s.book, Step(s, e).book.payouts[k].id)
  {
    BookStepNeedsQuorum(s.gov, s.vault.totals, s.book, e.now, e.call.book, k);
  }

  // ----- governance -----

  /**
   In every run the delay is within its bounds and each change is applied at most once, in time and not if withdrawn.
   */
  lemma TimelockHolds(es: seq<Event>)
    ensures var g := Run(es).gov;
            && MIN_TIMELOCK <= CurrentDelay(g) <= MAX_TIMELOCK
            && (forall i, j :: 0 <= i < j < |g.journal| && g.journal[i].Applied? && g.journal[j].Applied? ==>
                  g.journal[i].id != g.journal[j].id)
            && (forall i, j :: 0 <= i < |g.journal| && 0 <= j < |g.journal| ==>
                  g.journal[i].Applied? && g.journal[j].Withdrawn? ==> g.journal[i].id != g.journal[j].id)
            && (forall k :: 0 <= k < |g.journal| && g.journal[k].Applied? ==> AppliedInTime(g.journal, k))
  {
    RunIsSound(es);
    var g := Run(es).gov;
    forall i, j | 0 <= i < j < |g.journal| && g.journal[i].Applied? && g.journal[j].Applied?
      ensures g.journal[i].id != g.journal[j].id
    {
      assert !GovernanceSafety.SameKind(g.journal[i], g.journal[j]);
    }
    forall i, j | 0 <= i < |g.journal| && 0 <= j < |g.journal| && g.journal[i].Applied? && g.journal[j].Withdrawn?
      ensures g.journal[i].id != g.journal[j].id
    {
      assert GovernanceSafety.EntryOk(g, i) && GovernanceSafety.EntryOk(g, j);
    }
    forall k | 0 <= k < |g.journal| && g.journal[k].Applied? ensures AppliedInTime(g.journal, k) {
      assert GovernanceSafety.Timely(g.journal, k);
      var i :| 0 <= i < k && GovernanceSafety.QueuedInTime(g.journal[i], g.journal[k]);
      assert OnlyQueueing(g.journal, i, k) by {
        forall j | 0 <= j < |g.journal| && j != i && g.journal[j].Queued? ensures g.journal[j].id != g.journal[k].id {
          assert !GovernanceSafety.SameKind(g.journal[Min(i, j)], g.journal[Max(i, j)]);
        }
      }
    }
  }

  /** Entry `i` is the one that queued the change applied at `k`, with a delay that has elapsed. */
  ghost predicate OnlyQueueing(journal: seq<GovEvent>, i: nat, k: nat)
    requires i < k < |journal| && journal[k].Applied?
  {
    && journal[i].Queued? && journal[i].id == journal[k].id
    && MIN_TIMELOCK <= journal[i].delay <= MAX_TIMELOCK
    && journal[k].at >= journal[i].at + journal[i].delay
    && forall j :: 0 <= j < |journal| && j != i && journal[j].Queued? ==> journal[j].id != journal[k].id
  }

  ghost predicate AppliedInTime(journal: seq<GovEvent>, k: nat)
    requires k < |journal| && journal[k].Applied?
  {
    exists i :: 0 <= i < k && OnlyQueueing(journal, i, k)
  }

  /** The delay an entry records is the one in force when its change was proposed. */
  lemma QueuedWithDelayInForce(es: seq<Event>, i: nat, k: nat)
    requires i < |es| && |Run(es[..i]).gov.journal| <= k < |Run(es[..i + 1]).gov.journal|
    requires Run(es[..i + 1]).gov.journal[k].Queued?
    ensures var e := Run(es[..i + 1]).gov.journal[k];
            e.delay == CurrentDelay(Run(es[..i]).gov) && e.at == es[i].now
  {
    RunPrefix(es, i);
    RunIsSound(es[..i]);
    GovernanceSafety.QueuedEntries(Run(es[..i]).gov, es[i].now, es[i].call.gov, k);
  }

  /** In every run the signer list has no duplicates; until a rotation executes it holds every signer with weight. */
  lemma RegistryIsComplete(es: seq<Event>)
    ensures NoDup(Run(es).gov.signerList)
    ensures GovernanceSafety.RotationFree(Run(es).gov) ==>
              forall a :: SignerWeight(Run(es).gov, a) > 0 ==> a in Run(es).gov.signerList
  {
    RunIsSound(es);
  }

  /** After any successful removal or threshold change in any run, the listed weights reach the threshold. */
  lemma ThresholdStaysReachable(es: seq<Event>, now: u64, c: GovCall)
    requires GovStep(Run(es).gov, now, c).Ok?
    requires c.CallRemoveSigner? || c.CallUpdateThreshold?
          || (c.CallExecuteChange? && c.id in Run(es).gov.changes && Run(es).gov.changes[c.id].kind.SetThreshold?)
    ensures var g := Run(es + [Event(now, ToGovernance(c))]).gov; ListedWeight(g) >= g.threshold.GetOr(0)
  {
    RunSnoc(es, Event(now, ToGovernance(c)));
    RunIsSound(es);
    if c.CallRemoveSigner? {
      GovernanceSafety.RemovalLeavesQuorum(Run(es).gov, c.caller, c.signer);
    } else {
      GovernanceSafety.ThresholdIsReachable(Run(es).gov, now, c);
    }
  }

  // ----- deposits -----

  /** In every run each token total is the sum of all its balances, and no balance is negative. */
  lemma DepositsAreConserved(es: seq<Event>, token: Address)
    ensures var v := Run(es).vault;
            && TotalOf(v, token) == VaultSafety.Holdings(v.balances, token)
            && forall k :: k in v.balances ==> v.balances[k] >= 0
  {
    RunIsSound(es);
  }

  lemma {:induction false} RunIsOrdered(es: seq<Event>)
    requires Chronological(es)
    ensures VaultSafety.Ordered(Run(es).vault, LastTime(es))
  {
    if es != [] {
      var front, e := es[..|es| - 1], es[|es| - 1];
      RunIsOrdered(front);
      var s := Run(front);
      assert LastTime(front) <= e.now;
      if e.call.ToVault? && VaultStep(s.gov, s.vault, e.now, e.call.vault).Ok? {
        VaultSafety.VaultStepOrders(s.gov, s.vault, LastTime(front), e.now, e.call.vault);
      } else {
        VaultSafety.OrderedKept(s.vault, Run(es).vault, LastTime(front), e.now);
      }
    }
  }

  /** From position `i` of the run on, the limit and the window length never change. */
  ghost predicate LimitsFixed(es: seq<Event>, i: nat)
    requires i <= |es|
  {
    forall j :: i <= j <= |es| ==>
      && Run(es[..j]).vault.limit == Run(es[..i]).vault.limit
      && Run(es[..j]).vault.windowSecs == Run(es[..i]).vault.windowSecs
  }

  lemma {:induction false} RunIsCapped(es: seq<Event>, i: nat, a: Address)
    requires Chronological(es) && i <= |es| && LimitsFixed(es, i)
    requires Run(es[..i]).vault.limit > 0 && Run(es[..i]).vault.windowSecs > 0
    ensures VaultSafety.Capped(Run(es).vault, |Run(es[..i]).vault.outflows|, a, LastTime(es))
  {
    if i == |es| {
      assert es[..i] == es;
      RunIsOrdered(es);
      VaultSafety.CappedStart(Run(es).vault, a, LastTime(es));
    } else {
      var front, e := es[..|es| - 1], es[|es| - 1];
      assert front[..i] == es[..i];
      assert LimitsFixed(front, i) by {
        forall j | i <= j <= |front| ensures front[..j] == es[..j] {}
      }
      RunIsCapped(front, i, a);
      var s, from := Run(front), |Run(es[..i]).vault.outflows|;
      assert es[..|es|] == es && es[..|front|] == front;
      CappedStep(s, e, from, a, LastTime(front));
    }
  }

  lemma CappedStep(s: State, e: Event, from: nat, a: Address, earlier: int)
    requires VaultSafety.Capped(s.vault, from, a, earlier) && earlier <= e.now
    requires Step(s, e).vault.limit == s.vault.limit && Step(s, e).vault.windowSecs == s.vault.windowSecs
    ensures VaultSafety.Capped(Step(s, e).vault, from, a, e.now)
  {
    if e.call.ToVault? && !e.call.vault.CallSetWithdrawalLimit? && VaultStep(s.gov, s.vault, e.now, e.call.vault).Ok? {
      VaultSafety.VaultStepCaps(s.gov, s.vault, e.now, e.call.vault, from, a, earlier);
    } else {
      assert Step(s, e).vault == s.vault;
    }
  }

  /**
   While a positive limit and the window length W stay fixed, what is sent to one address is at most
   the limit in its recorded window and at most twice the limit in any interval [t, t + W).
   */
  lemma OutflowIsCapped(es: seq<Event>, i: nat, a: Address, t: int)
    requires Chronological(es) && i <= |es| && LimitsFixed(es, i) && Run(es[..i]).vault.limit > 0
    ensures var v := Run(es).vault;
            && |Run(es[..i]).vault.outflows| <= |v.outflows|
            && var log := v.outflows[|Run(es[..i]).vault.outflows|..];
            && VaultSafety.Sent(log, a, t, t + v.windowSecs) <= 2 * (v.limit as int)
            && VaultSafety.Sent(log, a, WindowStartOf(v, a), WindowStartOf(v, a) + v.windowSecs) <= v.limit
  {
    CappedAtEnd(es, i, a);
    CappedAnyInterval(Run(es).vault, |Run(es[..i]).vault.outflows|, a, LastTime(es), t);
  }

  lemma CappedAtEnd(es: seq<Event>, i: nat, a: Address)
    requires Chronological(es) && i <= |es| && LimitsFixed(es, i) && Run(es[..i]).vault.limit > 0
    ensures var v := Run(es).vault;
            && v.limit > 0 && |Run(es[..i]).vault.outflows| <= |v.outflows|
            && (v.windowSecs > 0 ==> VaultSafety.Capped(v, |Run(es[..i]).vault.outflows|, a, LastTime(es)))
  {
    assert es[..|es|] == es;
    RunLogGrows(es, i);
    if Run(es).vault.windowSecs > 0 { RunIsCapped(es, i, a); }
  }

  lemma CappedAnyInterval(v: Vault, from: nat, a: Address, now: int, t: int)
    requires from <= |v.outflows| && v.limit > 0 && (v.windowSecs > 0 ==> VaultSafety.Capped(v, from, a, now))
    ensures VaultSafety.Sent(v.outflows[from..], a, t, t + v.windowSecs) <= 2 * (v.limit as int)
    ensures VaultSafety.Sent(v.outflows[from..], a, WindowStartOf(v, a), WindowStartOf(v, a) + v.windowSecs) <= v.limit
  {
    if v.windowSecs == 0 {
      VaultSafety.SentEmpty(v.outflows[from..], a, t, t);
      VaultSafety.SentEmpty(v.outflows[from..], a, WindowStartOf(v, a), WindowStartOf(v, a));
    } else {
      assert VaultSafety.TwiceAtMost(VaultSafety.Since(v, from), a, t, v.windowSecs, v.limit);
    }
  }

  lemma {:induction false} RunLogGrows(es: seq<Event>, i: nat)
    requires Chronological(es) && i <= |es|
    ensures |Run(es[..i]).vault.outflows| <= |Run(es).vault.outflows|
  {
    if i == |es| {
      assert es[..i] == es;
    } else {
      var front, e := es[..|es| - 1], es[|es| - 1];
      assert front[..i] == es[..i];
      RunLogGrows(front, i);
      RunIsOrdered(front);
      var s := Run(front);
      if e.call.ToVault? && VaultStep(s.gov, s.vault, e.now, e.call.vault).Ok? {
        VaultSafety.VaultStepOrders(s.gov, s.vault, LastTime(front), e.now, e.call.vault);
      }
    }
  }

  // ----- disputes -----

  /** No dispute had been raised when `initialize` reset the dispute counter. */
  ghost predicate InitializedFirst(es: seq<Event>) {
    forall i :: 0 <= i < |es| && InitializesAt(es, i) ==> Run(es[..i]).book.disputeCount == 0
  }

  ghost predicate InitializesAt(es: seq<Event>, i: nat)
    requires i < |es|
  {
    && es[i].call.ToGovernance? && es[i].call.gov.CallInitialize?
    && GovStep(Run(es[..i]).gov, es[i].now, es[i].call.gov).Ok?
  }

  lemma DisputeStepOfRun(s: State, e: Event)
    requires DisputeSafety.Sound(s.book)
    requires e.call.ToGovernance? && e.call.gov.CallInitialize? && GovStep(s.gov, e.now, e.call.gov).Ok? ==>
               s.book.disputeCount == 0
    ensures DisputeSafety.Sound(Step(s, e).book) && DisputeSafety.Evolves(s.book, Step(s, e).book)
  {
    if e.call.ToBook? && BookStep(s.gov, s.vault.totals, s.book, e.now, e.call.book).Ok? {
      DisputeSafety.BookStepKeeps(s.gov, s.vault.totals, s.book, e.now, e.call.book);
    } else {
      DisputeSafety.UntouchedKeeps(s.book, Step(s, e).book);
    }
  }

  lemma {:induction false} DisputesAreSound(es: seq<Event>)
    requires InitializedFirst(es)
    ensures DisputeSafety.Sound(Run(es).book)
  {
    if es == [] {
      assert forall d :: DisputeSafety.DisputeOk(EMPTY_BOOK, d);
      assert forall sid :: DisputeSafety.ListOk(EMPTY_BOOK, sid);
    } else {
      var front := es[..|es| - 1];
      InitializedFirstPrefix(es, |es| - 1);
      DisputesAreSound(front);
      assert InitializesAt(es, |es| - 1) ==> Run(front).book.disputeCount == 0;
      DisputeStepOfRun(Run(front), es[|es| - 1]);
    }
  }

  lemma InitializedFirstPrefix(es: seq<Event>, i: nat)
    requires InitializedFirst(es) && i <= |es|
    ensures InitializedFirst(es[..i])
  {
    forall j | 0 <= j < i && InitializesAt(es[..i], j) ensures Run(es[..i][..j]).book.disputeCount == 0 {
      assert es[..i][..j] == es[..j];
      assert InitializesAt(es, j);
    }
  }

  /** In every such run, each settlement's dispute list is the ascending scan of all disputes raised against it. */
  lemma DisputeListIsTheScan(es: seq<Event>, sid: nat)
    requires InitializedFirst(es)
    ensures var b := Run(es).book;
            && Lookup(b.settlementDisputes, sid, []) == Filter(Ids(b.disputeCount), DisputeSafety.About(b, sid))
            && Ascending(Lookup(b.settlementDisputes, sid, []))
  {
    DisputesAreSound(es);
    var b := Run(es).book;
    assert DisputeSafety.ListOk(b, sid);
    FilterAscending(Ids(b.disputeCount), DisputeSafety.About(b, sid));
  }

  /** A dispute closed at some point is the same at every later point; voters are distinct and the direction stays. */
  lemma {:induction false} ClosedDisputesStay(es: seq<Event>, i: nat, d: nat)
    requires InitializedFirst(es) && i <= |es| && d in Run(es[..i]).book.disputes
    ensures d in Run(es).book.disputes
    ensures var x, x' := Run(es[..i]).book.disputes[d], Run(es).book.disputes[d];
            && (!x.status.Raised? ==> x' == x)
            && x.approvals <= x'.approvals && NoDup(x'.approvals)
            && (x.approvals != [] ==> x'.forClaimant == x.forClaimant)
  {
    DisputesAreSound(es);
    assert DisputeSafety.DisputeOk(Run(es).book, d);
    if i == |es| {
      assert es[..i] == es;
    } else {
      var front := es[..|es| - 1];
      assert front[..i] == es[..i];
      InitializedFirstPrefix(es, |es| - 1);
      ClosedDisputesStay(front, i, d);
      DisputesAreSound(front);
      assert InitializesAt(es, |es| - 1) ==> Run(front).book.disputeCount == 0;
      DisputeStepKeepsOne(Run(front), es[|es| - 1], d);
    }
  }

  lemma DisputeStepKeepsOne(s: State, e: Event, d: nat)
    requires DisputeSafety.Sound(s.book)
    requires e.call.ToGovernance? && e.call.gov.CallInitialize? && GovStep(s.gov, e.now, e.call.gov).Ok? ==>
               s.book.disputeCount == 0
    ensures DisputeSafety.Kept(s.book, Step(s, e).book, d)
  {
    DisputeStepOfRun(s, e);
  }

  /** Initialising keeps the dispute index right exactly when no dispute had been raised before. */
  lemma ResetKeepsDisputesIff(b: Book)
    requires DisputeSafety.Sound(b)
    ensures DisputeSafety.Sound(ResetBook(b)) <==> b.disputeCount == 0
  {
    if b.disputeCount == 0 {
      DisputeSafety.UntouchedKeeps(b, ResetBook(b));
    } else {
      assert DisputeSafety.DisputeOk(b, 1);
      assert !DisputeSafety.DisputeOk(ResetBook(b), 1);
    }
  }
}
