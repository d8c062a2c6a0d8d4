/**
 Refund breakdowns over runs: the rate of the call that refunded the invoice, and the network fee set last before it.
 */
module RefundRuns {
  import opened Common
  import opened BasisPoints
  import opened InvoiceSpec
  import opened InvoiceSafety
  import opened InvoiceCreation
  import opened InvoiceCalls
  import opened InvoiceRuns

  // ----- the network fee -----

  ghost predicate SetsFee(s: Ledger, e: Event) {
    e.call.Managing? && e.call.manage.CallSetNetworkFee? && CallStep(s, e.now, e.call).Ok?
  }

  /** The network fee set last, or 100 if none was set. */
  ghost function LastFee(es: seq<Event>): int {
    if es == [] then 100
    else if SetsFee(Run(es[..|es| - 1]), es[|es| - 1]) then es[|es| - 1].call.manage.fee
    else LastFee(es[..|es| - 1])
  }

  ghost predicate SameFees(s: Ledger, s': Ledger) { s'.networkFee == s.networkFee && s'.breakdowns == s.breakdowns }

  lemma {:induction false} CreateEachLeavesFees(s: Ledger, now: u64, merchant: Address, ps: seq<Params>)
    requires CreateEach(s, now, merchant, ps).Ok?
    ensures SameFees(s, CreateEach(s, now, merchant, ps).value)
  {
    if ps != [] { CreateEachLeavesFees(s, now, merchant, ps[..|ps| - 1]); }
  }

  lemma {:induction false} RunEachLeavesFees(s: Ledger, now: u64, ids: seq<nat>)
    requires RunEach(s, now, ids).Ok?
    ensures SameFees(s, RunEach(s, now, ids).value)
  {
    if ids != [] { RunEachLeavesFees(s, now, ids[..|ids| - 1]); }
  }

  lemma CreateStepLeavesFees(s: Ledger, now: u64, call: CreateCall)
    requires CreateStep(s, now, call).Ok?
    ensures SameFees(s, CreateStep(s, now, call).value)
  {
    match call
    case CallBatchCreate(merchant, ps) => CreateEachLeavesFees(s, now, merchant, ps);
    case CallGenerateDue(ids) => RunEachLeavesFees(s, now, ids);
    case CallCreate(_, _) =>
    case CallGenerate(_, _) =>
  }

  lemma OtherStepsLeaveFees(s: Ledger, now: u64, call: Call)
    requires CallStep(s, now, call).Ok? && !call.Refunding? && !call.Managing?
    ensures SameFees(s, CallStep(s, now, call).value)
  {
    match call
    case Creating(c) => CreateStepLeavesFees(s, now, c);
    case Moving(c) => StatusStepSets(s, now, c, 0);
    case Editing(c) => EditStepSets(s, now, c, 0);
  }

  lemma RefundsKeepFee(s: Ledger, now: u64, call: RefundCall)
    requires RefundStep(s, now, call).Ok?
    ensures FeeInForce(RefundStep(s, now, call).value) == FeeInForce(s)
  {
    RefundStepSets(s, now, call);
  }

  lemma AdminSetsFee(s: Ledger, call: AdminCall)
    requires AdminStep(s, call).Ok?
    ensures FeeInForce(AdminStep(s, call).value) == if call.CallSetNetworkFee? then call.fee else FeeInForce(s)
  {
    AdminStepSets(s, call);
  }

  lemma StepSetsFee(s: Ledger, e: Event)
    ensures FeeInForce(Step(s, e)) == if SetsFee(s, e) then e.call.manage.fee else FeeInForce(s)
  {
    if CallStep(s, e.now, e.call).Ok? {
      match e.call
      case Refunding(c) => RefundsKeepFee(s, e.now, c);
      case Managing(c) => AdminSetsFee(s, c);
      case _ => OtherStepsLeaveFees(s, e.now, e.call);
    }
  }

  /** In every run the network fee in force is the one set last, and lies within its bounds. */
  lemma {:induction false} FeeIsTheLast(es: seq<Event>)
    ensures FeeInForce(Run(es)) == LastFee(es) && 0 <= LastFee(es) <= 100_000_000
  {
    if es != [] {
      var s, e := Run(es[..|es| - 1]), es[|es| - 1];
      FeeIsTheLast(es[..|es| - 1]);
      StepSetsFee(s, e);
      if SetsFee(s, e) { AdminStepSets(s, e.call.manage); }
    }
  }

  // ----- breakdowns -----

  datatype Terms = Terms(bps: int, fee: int)

  ghost predicate Processes(s: Ledger, e: Event, id: nat) {
    && e.call.Refunding? && e.call.refund.CallProcessRefund? && e.call.refund.id == id
    && CallStep(s, e.now, e.call).Ok?
  }

  /** The rate of the last call that processed a refund of invoice `id`, and the network fee set last before it. */
  ghost function RefundTerms(es: seq<Event>, id: nat): Option<Terms> {
    if es == [] then None
    else
      var front, e := es[..|es| - 1], es[|es| - 1];
      if Processes(Run(front), e, id) then Some(Terms(e.call.refund.bps, LastFee(front))) else RefundTerms(front, id)
  }

  /** What is stored about a refund of `id`, given its terms. */
  ghost predicate RefundedAt(s: Ledger, id: nat, terms: Option<Terms>) {
    match terms
    case None => id !in s.breakdowns
    case Some(t) =>
      && id in s.breakdowns && id in s.invoices && s.invoices[id].status.Refunded?
      && 0 <= t.bps <= 10_000 && t.fee >= 0 && Breaks(s.breakdowns[id], s.invoices[id].amount, t.bps, t.fee)
  }

  lemma ProcessedIsRefunded(s: Ledger, e: Event, id: nat, fee: int)
    requires Sound(s) && Processes(s, e, id) && FeeInForce(s) == fee
    ensures RefundedAt(Step(s, e), id, Some(Terms(e.call.refund.bps, fee)))
  {
    RefundStepOkIff(s, e.now, e.call.refund);
    RefundStepSets(s, e.now, e.call.refund);
  }

  lemma OthersKeepBreakdown(s: Ledger, e: Event, id: nat)
    requires !Processes(s, e, id)
    ensures (id in Step(s, e).breakdowns <==> id in s.breakdowns)
    ensures id in s.breakdowns ==> Step(s, e).breakdowns[id] == s.breakdowns[id]
  {
    if CallStep(s, e.now, e.call).Ok? {
      match e.call
      case Refunding(c) => RefundStepSets(s, e.now, c);
      case Managing(c) => AdminStepSets(s, c);
      case _ => OtherStepsLeaveFees(s, e.now, e.call);
    }
  }

  lemma RefundedStays(s: Ledger, e: Event, id: nat, terms: Option<Terms>)
    requires Sound(s) && RefundedAt(s, id, terms) && !Processes(s, e, id)
    requires Initializes(e.call) && CallStep(s, e.now, e.call).Ok? ==> s.count == 0
    ensures RefundedAt(Step(s, e), id, terms)
  {
    OthersKeepBreakdown(s, e, id);
    if terms.Some? { StepKeepsOne(s, e, id); }
  }

  lemma StepKeepsOne(s: Ledger, e: Event, id: nat)
    requires Sound(s) && (Initializes(e.call) && CallStep(s, e.now, e.call).Ok? ==> s.count == 0)
    ensures Kept(s, Step(s, e), id)
  {
    StepKeeps(s, e);
  }

  lemma {:induction false} RefundIsByItsTerms(es: seq<Event>, id: nat)
    requires InitializedFirst(es)
    ensures RefundedAt(Run(es), id, RefundTerms(es, id))
  {
    if es != [] {
      var front, e := es[..|es| - 1], es[|es| - 1];
      InitializedFirstPrefix(es, |es| - 1);
      RefundIsByItsTerms(front, id);
      RunIsSound(front);
      FeeIsTheLast(front);
      if Processes(Run(front), e, id) {
        ProcessedIsRefunded(Run(front), e, id, LastFee(front));
      } else {
        RefundedStays(Run(front), e, id, RefundTerms(front, id));
      }
    }
  }

  /**
   A stored breakdown belongs to a refunded invoice and breaks down its amount at the rate of the call that refunded it
   and the network fee set last before that call; it never pays more than the amount.
   */
  lemma BreakdownPays(es: seq<Event>, id: nat)
    requires InitializedFirst(es) && id in Run(es).breakdowns
    ensures var s := Run(es);
            && RefundTerms(es, id).Some? && id in s.invoices && s.invoices[id].status.Refunded?
            && var t, amount := RefundTerms(es, id).value, s.invoices[id].amount;
            && Breaks(s.breakdowns[id], amount, t.bps, t.fee) && 0 <= s.breakdowns[id].netAmount <= amount
  {
    RunIsSound(es);
    assert InvoiceOk(Run(es), id);
    RefundIsByItsTerms(es, id);
    ShareBounds(Run(es).invoices[id].amount, RefundTerms(es, id).value.bps);
  }
}
