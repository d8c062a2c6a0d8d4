/** Which call on an existing invoice succeeds, and what it changes, invoice by invoice. */
module InvoiceCalls {
  import opened Common
  import opened BasisPoints
  import opened InvoiceSpec
  import opened InvoiceSafety
  import opened InvoiceCreation

  ghost predicate ByAdmin(s: Ledger, caller: Address) { s.admin == Some(caller) }

  ghost predicate InStatus(s: Ledger, id: nat, status: InvoiceStatus) {
    id in s.invoices && s.invoices[id].status == status
  }

  // ----- moving between statuses -----

  /** Payment is accepted before the expiry plus the grace window, or before the expiry if that sum overflows. */
  ghost predicate BeforeDeadline(s: Ledger, now: int, x: Invoice) {
    if x.expiresAt + s.graceWindow <= U64_MAX then now < x.expiresAt + s.graceWindow else now < x.expiresAt
  }

  ghost predicate StatusEnabled(s: Ledger, now: u64, call: StatusCall) {
    && !s.paused
    && match call
       case CallMarkPaid(caller, id, payer, hash, token) =>
         && ByAdmin(s, caller) && InStatus(s, id, Pending)
         && var x := s.invoices[id];
         && payer != x.merchant && (hash.Some? ==> hash == x.metadataHash) && (x.token.Some? ==> token == x.token)
         && BeforeDeadline(s, now, x)
       case CallRelease(caller, id) => ByAdmin(s, caller) && InStatus(s, id, Paid)
       case CallCancel(caller, id) =>
         InStatus(s, id, Pending) && (caller == s.invoices[id].merchant || ByAdmin(s, caller))
       case CallBatchExpire(caller, ids) => ByAdmin(s, caller) && |ids| <= 100
       case CallBatchCancel(merchant, ids) =>
         |ids| <= 50 && forall i :: 0 <= i < |ids| ==> Cancellable(s, merchant, ids[i])
  }

  ghost predicate Cancellable(s: Ledger, merchant: Address, id: nat) {
    InStatus(s, id, Pending) && s.invoices[id].merchant == merchant
  }

  lemma {:induction false} CheckEachIff(s: Ledger, merchant: Address, ids: seq<nat>)
    ensures CheckEach(s, merchant, ids).Pass? <==> forall i :: 0 <= i < |ids| ==> Cancellable(s, merchant, ids[i])
  {
    if ids != [] {
      var front, last := ids[..|ids| - 1], ids[|ids| - 1];
      CheckEachIff(s, merchant, front);
      assert CheckEach(s, merchant, ids).Pass? <==>
             CheckEach(s, merchant, front).Pass? && Cancellable(s, merchant, last);
      assert forall i :: 0 <= i < |front| ==> front[i] == ids[i];
    }
  }

  lemma StatusStepOkIff(s: Ledger, now: u64, call: StatusCall)
    ensures StatusStep(s, now, call).Ok? <==> StatusEnabled(s, now, call)
  {
    match call
    case CallBatchCancel(merchant, ids) => CheckEachIff(s, merchant, ids);
    case CallMarkPaid(_, _, _, _, _) =>
    case CallRelease(_, _) =>
    case CallCancel(_, _) =>
    case CallBatchExpire(_, _) =>
  }

  /** What becomes of the stored invoice `x`, number `id`, when `call` succeeds. */
  ghost function StatusAfter(x: Invoice, id: nat, now: u64, call: StatusCall): Invoice {
    match call
    case CallMarkPaid(_, n, payer, _, _) =>
      if n == id then x.(status := Paid, paidAt := Some(now), payer := Some(payer)) else x
    case CallRelease(_, n) => if n == id then x.(status := Released) else x
    case CallCancel(_, n) => if n == id then x.(status := Cancelled) else x
    case CallBatchExpire(_, ids) =>
      if id in ids && x.status.Pending? && now >= x.expiresAt then x.(status := Expired) else x
    case CallBatchCancel(_, ids) => if id in ids then x.(status := Cancelled) else x
  }

  lemma {:induction false} ExpireEachSets(s: Ledger, now: u64, ids: seq<nat>, id: nat, caller: Address)
    ensures var s' := ExpireEach(s, now, ids);
            && (id in s'.invoices <==> id in s.invoices)
            && (id in s.invoices ==>
                  s'.invoices[id] == StatusAfter(s.invoices[id], id, now, CallBatchExpire(caller, ids)))
            && s'.breakdowns == s.breakdowns && s'.networkFee == s.networkFee
  {
    if ids != [] {
      var front, last := ids[..|ids| - 1], ids[|ids| - 1];
      ExpireEachSets(s, now, front, id, caller);
      assert id in ids <==> id in front || id == last by { assert ids == front + [last]; }
    }
  }

  lemma {:induction false} CancelEachLeavesFees(s: Ledger, now: u64, ids: seq<nat>)
    requires forall i :: 0 <= i < |ids| ==> ids[i] in s.invoices
    ensures var s' := CancelEach(s, now, ids); s'.breakdowns == s.breakdowns && s'.networkFee == s.networkFee
  {
    if ids != [] { CancelEachLeavesFees(s, now, ids[..|ids| - 1]); }
  }

  /**
   A successful status call does to every invoice exactly what the table says, and leaves fees and breakdowns alone.
   */
  lemma StatusStepSets(s: Ledger, now: u64, call: StatusCall, id: nat)
    requires StatusStep(s, now, call).Ok?
    ensures var s' := StatusStep(s, now, call).value;
            && (id in s'.invoices <==> id in s.invoices)
            && (id in s.invoices ==> s'.invoices[id] == StatusAfter(s.invoices[id], id, now, call))
            && s'.breakdowns == s.breakdowns && s'.networkFee == s.networkFee
  {
    match call
    case CallBatchExpire(caller, ids) => ExpireEachSets(s, now, ids, id, caller);
    case CallBatchCancel(merchant, ids) =>
      CheckedAreStored(s, merchant, ids);
      CancelEachAt(s, now, ids, id);
      CancelEachLeavesFees(s, now, ids);
    case CallMarkPaid(_, _, _, _, _) =>
    case CallRelease(_, _) =>
    case CallCancel(_, _) =>
  }

  // ----- refunds -----

  /** The network fee in force: the one stored, or 100. */
  ghost function FeeInForce(s: Ledger): int { if s.networkFee.Some? then s.networkFee.value else 100 }

  ghost predicate RefundEnabled(s: Ledger, now: u64, call: RefundCall) {
    && !s.paused
    && match call
       case CallRequestRefund(payer, id) =>
         && InStatus(s, id, Paid) && s.invoices[id].payer == Some(payer)
         && (s.refundWindow > 0 && s.invoices[id].paidAt.Some? ==>
               now < Min(s.invoices[id].paidAt.value + s.refundWindow, U64_MAX))
       case CallApproveRefund(caller, id) => ByAdmin(s, caller) && InStatus(s, id, RefundRequested)
       case CallProcessRefund(caller, id, bps, sent) =>
         && ByAdmin(s, caller) && InStatus(s, id, RefundRequested)
         && s.invoices[id].token.Some? && bps <= 10_000 && FeeInForce(s) >= 0 && sent
       case CallRejectRefund(caller, id) => ByAdmin(s, caller) && InStatus(s, id, RefundRequested)
  }

  /** In a sound ledger a refund call succeeds exactly when it is enabled. */
  lemma RefundStepOkIff(s: Ledger, now: u64, call: RefundCall)
    requires Sound(s)
    ensures RefundStep(s, now, call).Ok? <==> RefundEnabled(s, now, call)
  {
    assert InvoiceOk(s, call.id);
    if call.CallProcessRefund? && call.id in s.invoices {
      NetRefundIsExact(s.invoices[call.id].amount, call.bps, NetworkFee(s));
    }
  }

  ghost function RefundedStatus(call: RefundCall): InvoiceStatus {
    match call
    case CallRequestRefund(_, _) => RefundRequested
    case CallApproveRefund(_, _) => Refunded
    case CallProcessRefund(_, _, _, _) => Refunded
    case CallRejectRefund(_, _) => Paid
  }

  /** `r` is the breakdown of `amount` at `bps` with network fee `fee`: floored share, capped fee, and what is left. */
  ghost predicate Breaks(r: NetRefund, amount: int, bps: int, fee: int) {
    && r.grossAmount == amount && r.processingFee == amount * bps / 10_000 && r.networkFee == Min(amount, fee)
    && r.netAmount == Max(0, amount - amount * bps / 10_000 - Min(amount, fee))
  }

  /**
   What a successful refund call stores: the new status of its invoice, the request time, the breakdown at its rate.
   */
  lemma RefundStepSets(s: Ledger, now: u64, call: RefundCall)
    requires RefundStep(s, now, call).Ok?
    ensures var s' := RefundStep(s, now, call).value;
            && call.id in s.invoices
            && s'.invoices == s.invoices[call.id := s.invoices[call.id].(status := RefundedStatus(call))]
            && s'.requestedAt == (if call.CallRequestRefund? then s.requestedAt[call.id := now] else s.requestedAt)
            && s'.networkFee == s.networkFee
            && (if call.CallProcessRefund?
                then call.id in s'.breakdowns && s'.breakdowns == s.breakdowns[call.id := s'.breakdowns[call.id]]
                     && Breaks(s'.breakdowns[call.id], s.invoices[call.id].amount, call.bps, FeeInForce(s))
                else s'.breakdowns == s.breakdowns)
  {
    if call.CallProcessRefund? { NetRefundIsExact(s.invoices[call.id].amount, call.bps, NetworkFee(s)); }
  }

  /** A rate above 100% is refused as such once everything before it is in order. */
  lemma RateTooHighIsRefused(s: Ledger, now: u64, caller: Address, id: nat, bps: u32, sent: bool)
    requires Sound(s) && ByAdmin(s, caller) && !s.paused && InStatus(s, id, RefundRequested)
             && s.invoices[id].token.Some?
    requires FeeInForce(s) >= 0 && bps > 10_000
    ensures ProcessRefund(s, now, caller, id, bps, sent) == Err(RefundFeeTooHigh)
  {
    assert InvoiceOk(s, id);
  }

  // ----- editing -----

  ghost predicate Amounts(amount: int, gross: int) { 10_000_000 <= amount <= gross }

  ghost predicate EditEnabled(s: Ledger, now: u64, call: EditCall) {
    match call
    case CallAmend(merchant, id, amount, gross, expiresIn) =>
      && !s.paused && Amounts(amount, gross) && 0 < expiresIn <= 5 * 365 * 86_400 && now + expiresIn <= U64_MAX
      && InStatus(s, id, Pending) && s.invoices[id].merchant == merchant
    case CallExtendExpiry(caller, id, seconds) =>
      ByAdmin(s, caller) && InStatus(s, id, Pending) && seconds > 0 && s.invoices[id].expiresAt + seconds <= U64_MAX
    case CallTransfer(from, id, to) =>
      !s.paused && InStatus(s, id, Paid) && s.invoices[id].payer == Some(from) && from != to
    case CallCreateTemplate(_, p, interval) =>
      !s.paused && ValidParams(p) && s.templateCount < U64_MAX && now + Period(interval) <= U64_MAX
    case CallSetTemplateActive(caller, id, _) =>
      id in s.templates && (caller == s.templates[id].merchant || ByAdmin(s, caller))
  }

  /** A day, a week or thirty days, in seconds. */
  ghost function Period(i: Interval): int {
    match i
    case Daily => 86_400
    case Weekly => 7 * 86_400
    case Monthly => 30 * 86_400
  }

  lemma EditStepOkIff(s: Ledger, now: u64, call: EditCall)
    ensures EditStep(s, now, call).Ok? <==> EditEnabled(s, now, call)
  {
    match call
    case CallAmend(_, _, _, _, _) =>
    case CallExtendExpiry(_, _, _) =>
    case CallTransfer(_, _, _) =>
    case CallCreateTemplate(_, p, _) => ValidateIff(p);
    case CallSetTemplateActive(_, _, _) =>
  }

  ghost function EditAfter(x: Invoice, id: nat, now: u64, call: EditCall): Invoice
    requires call.CallAmend? ==> now + call.expiresIn <= U64_MAX
    requires call.CallExtendExpiry? && call.id == id ==> x.expiresAt + call.seconds <= U64_MAX
  {
    match call
    case CallAmend(_, n, amount, gross, expiresIn) =>
      if n == id then x.(amount := amount, gross := gross, expiresAt := now + expiresIn) else x
    case CallExtendExpiry(_, n, seconds) => if n == id then x.(expiresAt := x.expiresAt + seconds) else x
    case CallTransfer(_, n, to) => if n == id then x.(payer := Some(to)) else x
    case _ => x
  }

  /** A successful edit does to every invoice exactly what the table says, and leaves fees and breakdowns alone. */
  lemma EditStepSets(s: Ledger, now: u64, call: EditCall, id: nat)
    requires EditStep(s, now, call).Ok?
    ensures var s' := EditStep(s, now, call).value;
            && EditEnabled(s, now, call)
            && (id in s'.invoices <==> id in s.invoices)
            && (id in s.invoices ==> s'.invoices[id] == EditAfter(s.invoices[id], id, now, call))
            && s'.breakdowns == s.breakdowns && s'.networkFee == s.networkFee
  {
    EditStepOkIff(s, now, call);
  }

  /** A new template gets the next number, is active, holds what was asked for and is due one period later. */
  lemma TemplateStores(s: Ledger, now: u64, merchant: Address, p: Params, interval: Interval)
    requires CreateTemplate(s, now, merchant, p, interval).Ok?
    ensures var s' := CreateTemplate(s, now, merchant, p, interval).value;
            && s'.templateCount == s.templateCount + 1 && s'.templateCount in s'.templates
            && s'.templates == s.templates[s'.templateCount := s'.templates[s'.templateCount]]
            && var t := s'.templates[s'.templateCount];
            && t.id == s'.templateCount && t.merchant == merchant && t.amount == p.amount && t.gross == p.gross
            && t.interval == interval && t.expiresIn == p.expiresIn && t.metadataHash == p.metadataHash
            && t.linkHash == p.linkHash && t.active && t.nextRunAt == now + Period(interval)
            && merchant in s'.merchantTemplates
            && s'.merchantTemplates[merchant] == Lookup(s.merchantTemplates, merchant, []) + [t.id]
  {
  }

  // ----- administration -----

  ghost predicate AdminEnabled(s: Ledger, call: AdminCall) {
    match call
    case CallInitialize(_) => s.admin.None?
    case CallSetPaused(caller, _) => ByAdmin(s, caller)
    case CallSetGraceWindow(caller, _) => ByAdmin(s, caller)
    case CallSetRefundWindow(caller, _) => ByAdmin(s, caller)
    case CallSetNetworkFee(caller, fee) => ByAdmin(s, caller) && 0 <= fee <= 100_000_000
  }

  /** A successful administrative call sets its own setting and no other; initialising also restarts the counter. */
  lemma AdminStepSets(s: Ledger, call: AdminCall)
    ensures AdminStep(s, call).Ok? <==> AdminEnabled(s, call)
    ensures AdminStep(s, call).Ok? ==>
              var s' := AdminStep(s, call).value;
              match call
              case CallInitialize(admin) => s' == s.(admin := Some(admin), count := 0, paused := false)
              case CallSetPaused(_, paused) => s' == s.(paused := paused)
              case CallSetGraceWindow(_, seconds) => s' == s.(graceWindow := seconds)
              case CallSetRefundWindow(_, seconds) => s' == s.(refundWindow := seconds)
              case CallSetNetworkFee(_, fee) => s' == s.(networkFee := Some(fee))
  {
  }
}
