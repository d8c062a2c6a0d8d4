/** Runs of the invoice contract: any sequence of timed calls from empty storage; a failing call changes nothing. */
module InvoiceRuns {
  import opened Common
  import opened BasisPoints
  import opened InvoiceSpec
  import opened InvoiceSafety
  import opened InvoiceHistory
  import opened InvoiceKeeper

  datatype Event = Event(now: u64, call: Call)

  function Step(s: Ledger, e: Event): Ledger {
    match CallStep(s, e.now, e.call)
    case Ok(s') => s'
    case Err(_) => s
  }

  function Run(es: seq<Event>): Ledger {
    if es == [] then EMPTY_LEDGER else Step(Run(es[..|es| - 1]), es[|es| - 1])
  }

  lemma RunSnoc(es: seq<Event>, e: Event)
    ensures Run(es + [e]) == Step(Run(es), e)
  {
    assert (es + [e])[..|es + [e]| - 1] == es;
  }

  ghost predicate Chronological(es: seq<Event>) {
    forall i, j :: 0 <= i < j < |es| ==> es[i].now <= es[j].now
  }

  ghost function LastTime(es: seq<Event>): int {
    if es == [] then 0 else es[|es| - 1].now
  }

  /** No invoice existed when `initialize` set the invoice counter to zero. */
  ghost predicate InitializedFirst(es: seq<Event>) {
    forall i :: 0 <= i < |es| && Initializes(es[i].call) && CallStep(Run(es[..i]), es[i].now, es[i].call).Ok? ==>
      Run(es[..i]).count == 0
  }

  lemma InitializedFirstPrefix(es: seq<Event>, i: nat)
    requires InitializedFirst(es) && i <= |es|
    ensures InitializedFirst(es[..i])
  {
    forall j | 0 <= j < i && Initializes(es[..i][j].call)
             && CallStep(Run(es[..i][..j]), es[..i][j].now, es[..i][j].call).Ok?
      ensures Run(es[..i][..j]).count == 0
    {
      assert es[..i][..j] == es[..j];
    }
  }

  lemma StepKeeps(s: Ledger, e: Event)
    requires Sound(s) && (Initializes(e.call) && CallStep(s, e.now, e.call).Ok? ==> s.count == 0)
    ensures Sound(Step(s, e)) && Evolves(s, Step(s, e))
  {
    if CallStep(s, e.now, e.call).Ok? { CallStepKeeps(s, e.now, e.call); }
  }

  lemma EmptyIsSound()
    ensures Sound(EMPTY_LEDGER)
  {
    assert forall id :: InvoiceOk(EMPTY_LEDGER, id);
    assert forall m :: MerchantOk(EMPTY_LEDGER, m);
  }

  lemma {:induction false} RunIsSound(es: seq<Event>)
    requires InitializedFirst(es)
    ensures Sound(Run(es))
  {
    if es == [] {
      EmptyIsSound();
    } else {
      InitializedFirstPrefix(es, |es| - 1);
      RunIsSound(es[..|es| - 1]);
      StepKeeps(Run(es[..|es| - 1]), es[|es| - 1]);
    }
  }

  // ----- indexes -----

  /** In every run the pending index and each merchant index are the ascending filters over all ids. */
  lemma IndexesAreFilters(es: seq<Event>, m: Address)
    requires InitializedFirst(es)
    ensures var s := Run(es);
            && s.pendingIndex == Filter(Ids(s.count), IsPending(s)) && Ascending(s.pendingIndex)
            && Lookup(s.merchantCount, m, 0) == |MerchantScan(s, m)| && Ascending(MerchantScan(s, m))
            && forall k :: 0 <= k < |MerchantScan(s, m)| ==>
                 (m, k) in s.merchantIndex && s.merchantIndex[(m, k)] == MerchantScan(s, m)[k]
  {
    RunIsSound(es);
    var s := Run(es);
    assert MerchantOk(s, m);
    FilterAscending(Ids(s.count), IsPending(s));
    FilterAscending(Ids(s.count), OwnedBy(s, m));
  }

  /** Two invoices of one merchant never share a non-zero nonce. */
  lemma NoncesAreUnique(es: seq<Event>, i: nat, j: nat)
    requires InitializedFirst(es) && i in Run(es).invoices && j in Run(es).invoices && i != j
    requires Run(es).invoices[i].merchant == Run(es).invoices[j].merchant && Run(es).invoices[i].nonce != 0
    ensures Run(es).invoices[i].nonce != Run(es).invoices[j].nonce
  {
    RunIsSound(es);
    assert !SameNonce(Run(es), i, j);
  }

  /** Invoices evolve monotonically between any two points of a run. */
  lemma {:induction false} RunEvolves(es: seq<Event>, i: nat)
    requires InitializedFirst(es) && i <= |es|
    ensures Evolves(Run(es[..i]), Run(es))
  {
    if i == |es| {
      assert es[..i] == es;
      assert forall id :: Kept(Run(es), Run(es), id);
    } else {
      var front := es[..|es| - 1];
      assert front[..i] == es[..i];
      InitializedFirstPrefix(es, |es| - 1);
      RunEvolves(front, i);
      RunIsSound(front);
      StepKeeps(Run(front), es[|es| - 1]);
      EvolvesTrans(Run(es[..i]), Run(front), Run(es));
    }
  }

  /** An invoice in a terminal status is the same at every later point of the run. */
  lemma TerminalStays(es: seq<Event>, i: nat, id: nat)
    requires InitializedFirst(es) && i <= |es| && id in Run(es[..i]).invoices
    ensures id in Run(es).invoices
    ensures IsTerminal(Run(es[..i]).invoices[id].status) ==> Run(es).invoices[id] == Run(es[..i]).invoices[id]
  {
    RunEvolves(es, i);
    assert Kept(Run(es[..i]), Run(es), id);
  }

  // ----- payment evidence -----

  /**
   In every run a payer and a payment time are recorded exactly in the paid statuses, and the amounts stay in range.
   */
  lemma PaymentEvidence(es: seq<Event>, id: nat)
    requires InitializedFirst(es) && id in Run(es).invoices
    ensures var x := Run(es).invoices[id];
            && (x.paidAt.Some? <==>
                  x.status.Paid? || x.status.RefundRequested? || x.status.Released? || x.status.Refunded?)
            && (x.payer.Some? <==> x.paidAt.Some?)
            && USDC_FACTOR <= x.amount <= x.gross
  {
    RunIsSound(es);
    assert InvoiceOk(Run(es), id);
  }

  /** No call in any run ever fails with an inconsistent payment state. */
  lemma NeverInconsistent(es: seq<Event>, now: u64, call: Call)
    requires InitializedFirst(es)
    ensures CallStep(Run(es), now, call) != Err(PaymentStateInconsistent)
  {
    RunIsSound(es);
    SoundNeverInconsistent(Run(es), now, call);
  }

  lemma SoundNeverInconsistent(s: Ledger, now: u64, call: Call)
    requires Sound(s)
    ensures CallStep(s, now, call) != Err(PaymentStateInconsistent)
  {
    match call
    case Refunding(c) => RefundNeverInconsistent(s, now, c);
    case Creating(c) => CreateNeverInconsistent(s, now, c);
    case Moving(c) => StatusNeverInconsistent(s, now, c);
    case Editing(c) => EditNeverInconsistent(s, now, c);
    case Managing(c) => AdminNeverInconsistent(s, c);
  }

  lemma AdminNeverInconsistent(s: Ledger, c: AdminCall)
    ensures AdminStep(s, c) != Err(PaymentStateInconsistent)
  {
  }

  lemma RefundNeverInconsistent(s: Ledger, now: u64, c: RefundCall)
    requires Sound(s)
    ensures RefundStep(s, now, c) != Err(PaymentStateInconsistent)
  {
    assert InvoiceOk(s, c.id);
    assert c.id in s.invoices && s.invoices[c.id].status.RefundRequested? ==>
           VerifyPaymentState(s.invoices[c.id]).Pass?;
  }

  lemma EditNeverInconsistent(s: Ledger, now: u64, c: EditCall)
    ensures EditStep(s, now, c) != Err(PaymentStateInconsistent)
  {
  }

  lemma {:induction false} CreateEachNeverInconsistent(s: Ledger, now: u64, m: Address, ps: seq<Params>)
    ensures CreateEach(s, now, m, ps) != Err(PaymentStateInconsistent)
    ensures ValidateEach(s, m, ps) != Fail(PaymentStateInconsistent)
  {
    if ps != [] { CreateEachNeverInconsistent(s, now, m, ps[..|ps| - 1]); }
  }

  lemma {:induction false} RunEachNeverInconsistent(s: Ledger, now: u64, ids: seq<nat>)
    ensures RunEach(s, now, ids) != Err(PaymentStateInconsistent)
  {
    if ids != [] { RunEachNeverInconsistent(s, now, ids[..|ids| - 1]); }
  }

  lemma CreateNeverInconsistent(s: Ledger, now: u64, c: CreateCall)
    ensures CreateStep(s, now, c) != Err(PaymentStateInconsistent)
  {
    match c
    case CallBatchCreate(m, ps) => CreateEachNeverInconsistent(s, now, m, ps);
    case CallGenerateDue(ids) => RunEachNeverInconsistent(s, now, ids);
    case CallCreate(_, _) =>
    case CallGenerate(_, _) =>
  }

  lemma {:induction false} CheckEachNeverInconsistent(s: Ledger, m: Address, ids: seq<nat>)
    ensures CheckEach(s, m, ids) != Fail(PaymentStateInconsistent)
  {
    if ids != [] { CheckEachNeverInconsistent(s, m, ids[..|ids| - 1]); }
  }

  lemma StatusNeverInconsistent(s: Ledger, now: u64, c: StatusCall)
    ensures StatusStep(s, now, c) != Err(PaymentStateInconsistent)
  {
    if c.CallBatchCancel? { CheckEachNeverInconsistent(s, c.merchant, c.ids); }
  }

  // ----- the audit log -----

  ghost predicate DistinctCancels(es: seq<Event>) {
    forall i :: 0 <= i < |es| && es[i].call.Moving? && es[i].call.move.CallBatchCancel? ==> NoDup(es[i].call.move.ids)
  }

  lemma {:induction false} RunIsAudited(es: seq<Event>)
    requires InitializedFirst(es) && Chronological(es) && DistinctCancels(es)
    ensures Audited(Run(es), LastTime(es))
  {
    if es == [] {
      assert forall id :: LogOk(EMPTY_LEDGER, id, 0);
    } else {
      var front, e := es[..|es| - 1], es[|es| - 1];
      InitializedFirstPrefix(es, |es| - 1);
      RunIsAudited(front);
      RunIsSound(front);
      var s := Run(front);
      assert LastTime(front) <= e.now;
      if CallStep(s, e.now, e.call).Ok? {
        CallStepAudits(s, LastTime(front), e.now, e.call);
      } else {
        SameStatusesAudit(s, s, LastTime(front), e.now);
      }
    }
  }

  /**
   Every history starts at Pending, each entry continues the one before, later ones are not earlier, the last
   is the status.
   */
  lemma AuditLogExplains(es: seq<Event>, id: nat)
    requires InitializedFirst(es) && Chronological(es) && DistinctCancels(es) && id in Run(es).invoices
    ensures var h := LogOf(Run(es), id);
            && (if h == [] then Run(es).invoices[id].status.Pending?
                else h[0].from.Pending? && h[|h| - 1].to == Run(es).invoices[id].status)
            && (forall k :: 0 <= k < |h| ==> LegalMove(h[k].from, h[k].to) && h[k].at <= LastTime(es))
            && (forall k :: 0 <= k < |h| - 1 ==> h[k].to == h[k + 1].from && h[k].at <= h[k + 1].at)
  {
    RunIsAudited(es);
    var s := Run(es);
    assert LogOk(s, id, LastTime(es));
    LogTimes(LogOf(s, id), s.invoices[id].status, LastTime(es));
  }

  lemma LogTimes(h: seq<Transition>, status: InvoiceStatus, now: int)
    requires Explains(h, status, now)
    ensures forall k :: 0 <= k < |h| ==> h[k].at <= now
  {
    var i := |h|;
    while i > 0
      invariant 0 <= i <= |h|
      invariant forall k :: i <= k < |h| ==> h[k].at <= now
    {
      i := i - 1;
      assert i < |h| - 1 ==> h[i].at <= h[i + 1].at;
    }
  }

  /** No invoice is ever both released and refunded. */
  lemma NeverReleasedAndRefunded(es: seq<Event>, id: nat, i: nat, j: nat)
    requires InitializedFirst(es) && Chronological(es) && DistinctCancels(es) && id in Run(es).invoices
    requires i < |LogOf(Run(es), id)| && j < |LogOf(Run(es), id)| && LogOf(Run(es), id)[i].to.Released?
    ensures !LogOf(Run(es), id)[j].to.Refunded?
  {
    RunIsAudited(es);
    var s := Run(es);
    assert LogOk(s, id, LastTime(es));
    TerminalIsLast(LogOf(s, id), s.invoices[id].status, LastTime(es), i);
    if LogOf(s, id)[j].to.Refunded? {
      TerminalIsLast(LogOf(s, id), s.invoices[id].status, LastTime(es), j);
      assert false;
    }
  }

  // ----- the keeper -----

  lemma {:induction false} RunIsScheduled(es: seq<Event>)
    requires Chronological(es)
    ensures Scheduled(Run(es), LastTime(es))
  {
    if es == [] {
      assert forall id :: ScheduleOk(EMPTY_LEDGER, id, 0);
    } else {
      var front, e := es[..|es| - 1], es[|es| - 1];
      RunIsScheduled(front);
      var s := Run(front);
      assert LastTime(front) <= e.now;
      if CallStep(s, e.now, e.call).Ok? {
        CallStepSchedules(s, LastTime(front), e.now, e.call);
      } else {
        ScheduleLater(s, s, LastTime(front), e.now);
      }
    }
  }

  /** In every run the keeper has made at most one invoice per whole period since the template was created. */
  lemma KeeperIsBounded(es: seq<Event>, id: nat)
    requires Chronological(es) && id in Run(es).templates
    ensures var s := Run(es);
            var t, c := s.templates[id], CreatedAt(s.events, id);
            && KeeperCount(s.events, id) <= (LastTime(es) - c) / PeriodSeconds(t.interval)
            && (t.nextRunAt == U64_MAX
                || exists k: nat :: AtPoint(c, PeriodSeconds(t.interval), t.nextRunAt, KeeperCount(s.events, id), k))
  {
    RunIsScheduled(es);
    assert ScheduleOk(Run(es), id, LastTime(es));
    CountIsBounded(Run(es), id, LastTime(es));
  }

  // ----- where a promise fails -----

  const MERCHANT: Address := Account(1)
  const ADMIN: Address := Account(2)

  const TEN_USDC: Params := Params(100_000_000, 100_000_000, 60, None, None, 0, None)

  const EARLY_RUN: seq<Event> := [
    Event(5, Creating(CallCreate(MERCHANT, TEN_USDC))),
    Event(6, Managing(CallInitialize(ADMIN))),
    Event(7, Creating(CallCreate(ADMIN, TEN_USDC)))
  ]

  lemma EarlyInvoice()
    ensures EARLY_RUN[..1] == [EARLY_RUN[0]]
    ensures var s := Run([EARLY_RUN[0]]);
            && 1 in s.invoices && s.invoices[1].merchant == MERCHANT && s.count == 1 && s.pendingIndex == [1]
            && s.admin == None && !s.paused && s.nonces == {} && s.merchantCount == map[MERCHANT := 1]
  {
    RunSnoc([], EARLY_RUN[0]);
    assert [] + [EARLY_RUN[0]] == [EARLY_RUN[0]];
  }

  /** An invoice created before `initialize` is overwritten by the next one and its id is indexed twice. */
  lemma EarlyInvoiceIsOverwritten()
    ensures var s := Run(EARLY_RUN);
            && 1 in s.invoices && s.invoices[1].merchant == ADMIN && s.count == 1 && s.pendingIndex == [1, 1]
    ensures var s := Run(EARLY_RUN[..1]); 1 in s.invoices && s.invoices[1].merchant == MERCHANT
    ensures !InitializedFirst(EARLY_RUN)
  {
    var e1, e2, e3 := EARLY_RUN[0], EARLY_RUN[1], EARLY_RUN[2];
    EarlyInvoice();
    RunSnoc([e1], e2);
    RunSnoc([e1, e2], e3);
    assert EARLY_RUN == [e1, e2] + [e3] && [e1] + [e2] == [e1, e2];
    var s1 := Run([e1]);
    assert Run([e1, e2]) == s1.(admin := Some(ADMIN), count := 0);
    assert Initializes(EARLY_RUN[1].call) && CallStep(Run(EARLY_RUN[..1]), 6, EARLY_RUN[1].call).Ok?;
  }

  const TWICE_RUN: seq<Event> := [
    Event(5, Creating(CallCreate(MERCHANT, TEN_USDC))),
    Event(6, Moving(CallBatchCancel(MERCHANT, [1, 1])))
  ]

  lemma CancelTwice(s: Ledger)
    requires 1 in s.invoices && s.invoices[1].merchant == MERCHANT && s.invoices[1].status.Pending? && !s.paused
    requires LogOf(s, 1) == []
    ensures BatchCancel(s, 6, MERCHANT, [1, 1]).Ok?
    ensures LogOf(BatchCancel(s, 6, MERCHANT, [1, 1]).value, 1)
            == [Transition(Pending, Cancelled, 6), Transition(Pending, Cancelled, 6)]
  {
    var once: seq<nat>, twice: seq<nat> := [1], [1, 1];
    assert once[..|once| - 1] == [] && twice[..|twice| - 1] == once;
    assert CheckEach(s, MERCHANT, once).Pass?;
    assert CheckEach(s, MERCHANT, twice).Pass?;
    CancelEachLogs(s, 6, twice, 1);
    assert Occurrences(once, 1) == 1;
    assert Occurrences(twice, 1) == 2;
  }

  /** A batch that names an invoice twice logs its cancellation twice. */
  lemma RepeatedCancelLogsTwice()
    ensures LogOf(Run(TWICE_RUN), 1) == [Transition(Pending, Cancelled, 6), Transition(Pending, Cancelled, 6)]
    ensures !DistinctCancels(TWICE_RUN)
  {
    var e1, e2 := TWICE_RUN[0], TWICE_RUN[1];
    RunSnoc([], e1);
    RunSnoc([e1], e2);
    assert [] + [e1] == [e1] && [e1] + [e2] == TWICE_RUN;
    CancelTwice(Run([e1]));
    assert !NoDup(TWICE_RUN[1].call.move.ids);
  }
}
