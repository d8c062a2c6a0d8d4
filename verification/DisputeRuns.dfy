/** Disputes and payouts over whole runs: when a disputed settlement stays on hold, and runs on which it does not. */
module DisputeRuns {
  import opened Common
  import opened TreasuryTypes
  import opened Multisig
  import opened SettlementSpec
  import opened TreasuryRuns
  import opened DisputeSafety
  import opened DisputeHolds
  import opened TreasuryLimits

  /** The book call made at `i`, if it succeeds, is permitted. */
  ghost predicate PermittedAt(es: seq<Event>, i: nat)
    requires i < |es|
  {
    var s, e := Run(es[..i]), es[i];
    e.call.ToBook? && BookStep(s.gov, s.vault.totals, s.book, e.now, e.call.book).Ok? ==> Permitted(s.book, e.call.book)
  }

  /** No hold is released by hand under an open dispute, and no dispute names a settlement not yet proposed. */
  ghost predicate HoldsRespected(es: seq<Event>) {
    InitializedFirst(es) && forall i :: 0 <= i < |es| ==> PermittedAt(es, i)
  }

  lemma HoldsRespectedPrefix(es: seq<Event>, i: nat)
    requires HoldsRespected(es) && i <= |es|
    ensures HoldsRespected(es[..i])
  {
    InitializedFirstPrefix(es, i);
    forall j | 0 <= j < i ensures PermittedAt(es[..i], j) {
      assert es[..i][..j] == es[..j];
      assert PermittedAt(es, j);
    }
  }

  lemma StepHolds(s: State, e: Event)
    requires TreasuryRuns.Sound(s) && DisputeSafety.Sound(s.book) && Held(s.book)
    requires e.call.ToBook? && BookStep(s.gov, s.vault.totals, s.book, e.now, e.call.book).Ok? ==>
               Permitted(s.book, e.call.book)
    ensures Held(Step(s, e).book)
  {
    if e.call.ToBook? {
      if BookStep(s.gov, s.vault.totals, s.book, e.now, e.call.book).Ok? {
        BookStepHolds(s.gov, s.vault.totals, s.book, e.now, e.call.book);
      }
    } else {
      FewerOpenHolds(s.book, Step(s, e).book);
    }
  }

  lemma {:induction false} RunHolds(es: seq<Event>)
    requires HoldsRespected(es)
    ensures Held(Run(es).book)
  {
    if es == [] {
      assert forall sid :: HeldOk(EMPTY_BOOK, sid);
    } else {
      var front := es[..|es| - 1];
      HoldsRespectedPrefix(es, |es| - 1);
      RunHolds(front);
      RunIsSound(front);
      DisputesAreSound(front);
      assert PermittedAt(es, |es| - 1);
      StepHolds(Run(front), es[|es| - 1]);
    }
  }

  /** In every such run a live settlement with an open dispute is on hold. */
  lemma DisputedIsOnHold(es: seq<Event>, sid: nat)
    requires HoldsRespected(es) && AnyOpen(Run(es).book, sid)
    ensures sid in Run(es).book.settlements
    ensures Live(Run(es).book.settlements[sid].status) ==> Run(es).book.settlements[sid].status.OnHold?
  {
    RunHolds(es);
    assert HeldOk(Run(es).book, sid);
  }

  /**
   In every such run a disputed settlement is paid by a full execution only, after a stored hold expiry has passed.
   */
  lemma DisputedIsPaidOnlyAfterLapse(es: seq<Event>, now: u64, call: PayoutCall, id: nat)
    requires HoldsRespected(es) && AnyOpen(Run(es).book, id)
    ensures var s := Run(es);
            var r := PayoutStep(s.gov, s.book, now, call);
            && (r.Ok? && Pays(s.book, r.value, id) <==> call.CallExecute? && Ready(s.gov, s.book, now, call, id))
            && (r.Ok? && Pays(s.book, r.value, id) ==>
                  s.book.settlements[id].status.OnHold? && id in s.book.holdExpiry && now >= s.book.holdExpiry[id])
  {
    RunIsSound(es);
    DisputedIsOnHold(es, id);
    PaidIff(Run(es).gov, Run(es).book, now, call, id);
  }

  /** No hold is ever placed with an expiry. */
  ghost predicate Undated(es: seq<Event>) {
    forall i :: 0 <= i < |es| ==> !(es[i].call.ToBook? && DatesAHold(es[i].call.book))
  }

  lemma {:induction false} NoExpiryStored(es: seq<Event>)
    requires Undated(es)
    ensures Run(es).book.holdExpiry.Keys == {}
  {
    if es != [] {
      var front, e := es[..|es| - 1], es[|es| - 1];
      NoExpiryStored(front);
      var s := Run(front);
      if e.call.ToBook? && BookStep(s.gov, s.vault.totals, s.book, e.now, e.call.book).Ok? {
        BookStepDates(s.gov, s.vault.totals, s.book, e.now, e.call.book);
      }
    }
  }

  /** If besides no hold has an expiry, no call pays a settlement while one of its disputes is open. */
  lemma DisputedIsNeverPaid(es: seq<Event>, now: u64, call: PayoutCall, id: nat)
    requires HoldsRespected(es) && Undated(es) && AnyOpen(Run(es).book, id)
    ensures var r := PayoutStep(Run(es).gov, Run(es).book, now, call); r.Ok? ==> !Pays(Run(es).book, r.value, id)
  {
    NoExpiryStored(es);
    DisputedIsPaidOnlyAfterLapse(es, now, call, id);
  }

  // ----- where a promise fails -----

  lemma AfterBookCall(es: seq<Event>, e: Event, b: Book, b': Book)
    requires e.call.ToBook? && Run(es) == State(AfterInit(), b, EMPTY_VAULT)
    requires BookStep(AfterInit(), map[], b, e.now, e.call.book) == Ok(b')
    ensures Run(es + [e]) == State(AfterInit(), b', EMPTY_VAULT)
  {
    RunSnoc(es, e);
  }

  const HOLD: Event := Event(30, ToBook(Moving(CallHold(ADMIN, 1, AdminHold, Some(100)))))
  const RAISE: Event := Event(40, ToBook(Disputing(CallRaiseDispute(MERCHANT, 1, SIGNER, 100, 500))))
  const RESOLVE: Event := Event(50, ToBook(Disputing(CallResolveDispute(ADMIN, 1, true))))
  const RAISE_AGAIN: Event := Event(60, RAISE.call)
  const EXECUTE_LATE: Event := Event(100, ToBook(Paying(CallExecute(ADMIN, 1, TOKEN, true))))
  const DISPUTED_RUN: seq<Event> := [INITIALIZE, PROPOSE, HOLD, RAISE, RESOLVE, RAISE_AGAIN, EXECUTE_LATE]

  function Raised1(id: nat, status: DisputeStatus): Dispute {
    Dispute(id, 1, MERCHANT, SIGNER, 100, status, [], 0, false, 500, 0)
  }

  /** The book with the one settlement in the given state, an expiry of 100 and the given disputes. */
  function Dated(st: Settlement, index: seq<nat>, disputes: map<nat, Dispute>, count: u64,
                 listed: map<nat, seq<nat>>): Book {
    EMPTY_BOOK.(settlements := map[1 := st], settlementCount := 1, pendingIndex := index, holdExpiry := map[1 := 100],
                disputes := disputes, disputeCount := count, settlementDisputes := listed)
  }

  function OnHold1(reason: HoldReason): Settlement { Proposed([SIGNER], 3, OnHold).(holdReason := reason) }

  function AfterHold(): Book { Dated(OnHold1(AdminHold), [], map[], 0, map[]) }

  function AfterRaise(): Book { Dated(OnHold1(AdminHold), [], map[1 := Raised1(1, Raised)], 1, map[1 := [1]]) }

  function AfterResolve(): Book {
    Dated(Proposed([SIGNER], 3, Pending), [1], map[1 := Raised1(1, ResolvedClaimant)], 1, map[1 := [1]])
  }

  function AfterSecond(): Book {
    Dated(OnHold1(NoHold), [], map[1 := Raised1(1, ResolvedClaimant), 2 := Raised1(2, Raised)], 2, map[1 := [1, 2]])
  }

  lemma HoldStep()
    ensures BookStep(AfterInit(), map[], OnePending(), 30, HOLD.call.book) == Ok(AfterHold())
  {
    assert Without([1], 1) == [] by { assert [1][..0] == []; }
    assert OnePending().settlements[1 := OnHold1(AdminHold)] == AfterHold().settlements;
    assert OnePending().holdExpiry[1 := 100] == AfterHold().holdExpiry;
  }

  lemma RaiseStep()
    ensures BookStep(AfterInit(), map[], AfterHold(), 40, RAISE.call.book) == Ok(AfterRaise())
  {
    assert [] + [1] == [1];
    assert AfterHold().disputes[1 := Raised1(1, Raised)] == AfterRaise().disputes;
    assert AfterHold().settlementDisputes[1 := [1]] == AfterRaise().settlementDisputes;
  }

  lemma ResolveStep()
    ensures BookStep(AfterInit(), map[], AfterRaise(), 50, RESOLVE.call.book) == Ok(AfterResolve())
  {
    var mid := AfterRaise().(disputes := AfterRaise().disputes[1 := Raised1(1, ResolvedClaimant)]);
    assert mid.disputes == AfterResolve().disputes && !HasOpenDispute(mid, 1);
    assert mid.settlements[1 := Proposed([SIGNER], 3, Pending)] == AfterResolve().settlements;
    assert [] + [1] == [1];
    assert ReleaseIfUndisputed(mid, 1) == AfterResolve();
  }

  lemma SecondRaiseStep()
    ensures BookStep(AfterInit(), map[], AfterResolve(), 60, RAISE_AGAIN.call.book) == Ok(AfterSecond())
  {
    assert Without([1], 1) == [] by { assert [1][..0] == []; }
    assert [1] + [2] == [1, 2];
    assert AfterResolve().settlements[1 := OnHold1(NoHold)] == AfterSecond().settlements;
    assert AfterResolve().disputes[2 := Raised1(2, Raised)] == AfterSecond().disputes;
    assert AfterResolve().settlementDisputes[1 := [1, 2]] == AfterSecond().settlementDisputes;
  }

  lemma LateExecuteStep()
    ensures var r := Execute(AfterInit(), AfterSecond(), 100, ADMIN, 1, TOKEN, true);
            && r.Ok? && r.value.settlements == map[1 := OnHold1(NoHold).(status := Executed)]
            && r.value.payouts == [Payout(Full, 1, TOKEN, MERCHANT, 100, 100)]
            && r.value.disputes == AfterSecond().disputes
  {
  }

  lemma AfterFirstDispute()
    ensures Run([INITIALIZE, PROPOSE, HOLD, RAISE]) == State(AfterInit(), AfterRaise(), EMPTY_VAULT)
  {
    AfterProposal();
    HoldStep();
    AfterBookCall([INITIALIZE, PROPOSE], HOLD, OnePending(), AfterHold());
    RaiseStep();
    AfterBookCall([INITIALIZE, PROPOSE] + [HOLD], RAISE, AfterHold(), AfterRaise());
    assert [INITIALIZE, PROPOSE] + [HOLD] + [RAISE] == [INITIALIZE, PROPOSE, HOLD, RAISE];
  }

  lemma AfterDisputes()
    ensures Run([INITIALIZE, PROPOSE, HOLD, RAISE, RESOLVE, RAISE_AGAIN])
            == State(AfterInit(), AfterSecond(), EMPTY_VAULT)
  {
    var es := [INITIALIZE, PROPOSE, HOLD, RAISE];
    AfterFirstDispute();
    ResolveStep();
    AfterBookCall(es, RESOLVE, AfterRaise(), AfterResolve());
    SecondRaiseStep();
    AfterBookCall(es + [RESOLVE], RAISE_AGAIN, AfterResolve(), AfterSecond());
    assert es + [RESOLVE] + [RAISE_AGAIN] == [INITIALIZE, PROPOSE, HOLD, RAISE, RESOLVE, RAISE_AGAIN];
  }

  /**
   The expiry of a hold outlives the release after its dispute, so the hold of the next dispute does not stop
   a payment.
   */
  lemma PaidWhileDisputed()
    ensures var b := Run(DISPUTED_RUN).book;
            && 1 in b.settlements && b.settlements[1].status.Executed? && |b.payouts| == 1 && b.payouts[0].id == 1
            && OpenFor(b, 2, 1)
    ensures OpenFor(Run(DISPUTED_RUN[..6]).book, 2, 1)
  {
    AfterDisputes();
    LateExecuteStep();
    var es := [INITIALIZE, PROPOSE, HOLD, RAISE, RESOLVE, RAISE_AGAIN];
    RunSnoc(es, EXECUTE_LATE);
    assert es + [EXECUTE_LATE] == DISPUTED_RUN && DISPUTED_RUN[..6] == es;
    assert OpenFor(AfterSecond(), 2, 1);
  }

  // ----- a dispute resolved by vote -----

  const VOTE: Event := Event(50, ToBook(Disputing(CallVote(SIGNER, 1, true))))

  function Disputed1(d: Dispute): Book {
    EMPTY_BOOK.(settlements := map[1 := OnHold1(NoHold)], settlementCount := 1, pendingIndex := [],
                disputes := map[1 := d], disputeCount := 1, settlementDisputes := map[1 := [1]])
  }

  lemma RaiseTakesOffIndex()
    ensures HoldForDispute(OnePending(), 1)
            == OnePending().(settlements := map[1 := OnHold1(NoHold)], pendingIndex := [])
  {
    assert Without([1], 1) == [] by { assert [1][..0] == []; }
    assert OnePending().settlements[1 := OnHold1(NoHold)] == map[1 := OnHold1(NoHold)];
  }

  lemma RaisePendingStep()
    ensures BookStep(AfterInit(), map[], OnePending(), 40, RAISE.call.book) == Ok(Disputed1(Raised1(1, Raised)))
  {
    RaiseTakesOffIndex();
    assert [] + [1] == [1];
    assert OnePending().disputes[1 := Raised1(1, Raised)] == Disputed1(Raised1(1, Raised)).disputes;
    assert OnePending().settlementDisputes[1 := [1]] == Disputed1(Raised1(1, Raised)).settlementDisputes;
  }

  lemma VoteStep()
    ensures var r := BookStep(AfterInit(), map[], Disputed1(Raised1(1, Raised)), 50, VOTE.call.book);
            && r.Ok? && r.value.settlements == map[1 := OnHold1(NoHold)]
            && r.value.disputes.Keys == {1} && r.value.disputes[1].status.ResolvedClaimant?
  {
    assert RecordApproval(AfterInit(), Tally([], 0), SIGNER) == Ok(Tally([SIGNER], 3)) by {
      assert [] + [SIGNER] == [SIGNER];
    }
  }

  /** A vote that resolves the last dispute leaves the settlement on hold. */
  lemma VoteLeavesHold()
    ensures var b := Run([INITIALIZE, PROPOSE, RAISE, VOTE]).book;
            1 in b.settlements && b.settlements[1].status.OnHold? && !AnyOpen(b, 1)
            && 1 in b.disputes && b.disputes[1].status.ResolvedClaimant?
  {
    AfterProposal();
    var es := [INITIALIZE, PROPOSE];
    RaisePendingStep();
    AfterBookCall(es, RAISE, OnePending(), Disputed1(Raised1(1, Raised)));
    VoteStep();
    RunSnoc(es + [RAISE], VOTE);
    assert es + [RAISE] + [VOTE] == [INITIALIZE, PROPOSE, RAISE, VOTE];
  }

  // ----- the two conditions on the run -----

  const RELEASE: Event := Event(50, ToBook(Moving(CallReleaseHold(ADMIN, 1))))

  lemma ReleaseStep()
    ensures var r := BookStep(AfterInit(), map[], Disputed1(Raised1(1, Raised)), 50, RELEASE.call.book);
            && r.Ok? && 1 in r.value.settlements && r.value.settlements[1].status.Pending? && OpenFor(r.value, 1, 1)
  {
  }

  /** A hold released by hand leaves the settlement pending under its open dispute. */
  lemma ReleasedUnderDispute()
    ensures var b := Run([INITIALIZE, PROPOSE, RAISE, RELEASE]).book;
            1 in b.settlements && b.settlements[1].status.Pending? && OpenFor(b, 1, 1)
  {
    AfterProposal();
    var es := [INITIALIZE, PROPOSE];
    RaisePendingStep();
    AfterBookCall(es, RAISE, OnePending(), Disputed1(Raised1(1, Raised)));
    ReleaseStep();
    RunSnoc(es + [RAISE], RELEASE);
    assert es + [RAISE] + [RELEASE] == [INITIALIZE, PROPOSE, RAISE, RELEASE];
  }

  function OnlyDisputed(): Book {
    EMPTY_BOOK.(disputes := map[1 := Raised1(1, Raised)], disputeCount := 1, settlementDisputes := map[1 := [1]])
  }

  lemma RaiseAheadStep()
    ensures BookStep(AfterInit(), map[], EMPTY_BOOK, 40, RAISE.call.book) == Ok(OnlyDisputed())
  {
    assert [] + [1] == [1];
    assert EMPTY_BOOK.disputes[1 := Raised1(1, Raised)] == OnlyDisputed().disputes;
    assert EMPTY_BOOK.settlementDisputes[1 := [1]] == OnlyDisputed().settlementDisputes;
  }

  const PROPOSE_AFTER: Event := Event(60, PROPOSE.call)

  lemma ProposeAfterStep()
    ensures var r := BookStep(AfterInit(), map[], OnlyDisputed(), 60, PROPOSE_AFTER.call.book);
            && r.Ok? && 1 in r.value.settlements && r.value.settlements[1].status.Pending? && OpenFor(r.value, 1, 1)
  {
  }

  /** A dispute raised before its settlement is proposed does not hold it. */
  lemma DisputedBeforeProposal()
    ensures var b := Run([INITIALIZE, RAISE, PROPOSE_AFTER]).book;
            1 in b.settlements && b.settlements[1].status.Pending? && OpenFor(b, 1, 1)
  {
    AfterInitialize();
    RaiseAheadStep();
    AfterBookCall([INITIALIZE], RAISE, EMPTY_BOOK, OnlyDisputed());
    ProposeAfterStep();
    RunSnoc([INITIALIZE] + [RAISE], PROPOSE_AFTER);
    assert [INITIALIZE] + [RAISE] + [PROPOSE_AFTER] == [INITIALIZE, RAISE, PROPOSE_AFTER];
  }

  // ----- the execution deadline -----

  const PROPOSE_SOON: Event := Event(20, ToBook(Approving(CallPropose(SIGNER, MERCHANT, 100, None, 25, true))))
  const BATCH_LATE: Event := Event(30, ToBook(Paying(CallBatchExecute(ADMIN, [1], TOKEN))))

  function Soon(): Book {
    OnePending().(settlements := map[1 := Proposed([SIGNER], 3, Pending).(executionDeadline := 25)])
  }

  lemma ProposeSoonStep()
    ensures BookStep(AfterInit(), map[], EMPTY_BOOK, 20, PROPOSE_SOON.call.book) == Ok(Soon())
  {
    assert [] + [SIGNER] == [SIGNER] && EMPTY_BOOK.pendingIndex + [1] == [1];
  }

  /** A batch pays a settlement after its execution deadline. */
  lemma PaidAfterDeadline()
    ensures var b := Run([INITIALIZE, PROPOSE_SOON, BATCH_LATE]).book;
            && 1 in b.settlements && b.settlements[1].executionDeadline == 25 && b.settlements[1].status.Executed?
            && |b.payouts| == 1 && b.payouts[0].at == 30
  {
    AfterInitialize();
    ProposeSoonStep();
    AfterBookCall([INITIALIZE], PROPOSE_SOON, EMPTY_BOOK, Soon());
    RunSnoc([INITIALIZE] + [PROPOSE_SOON], BATCH_LATE);
    assert [INITIALIZE] + [PROPOSE_SOON] + [BATCH_LATE] == [INITIALIZE, PROPOSE_SOON, BATCH_LATE];
    var one: seq<nat> := [1];
    assert one[..|one| - 1] == [];
    assert ExecuteEach(Soon(), 30, 2, TOKEN, one) == ExecuteIfReady(Soon(), 30, 2, TOKEN, 1);
  }
}
