/** The audit log: every invoice's history is a legal path from Pending to its current status. */
module InvoiceHistory {
  import opened Common
  import opened InvoiceSpec
  import opened InvoiceSafety

  function LogOf(s: Ledger, id: nat): seq<Transition> { Lookup(s.history, id, []) }

  /** `h` leads from Pending to `status` along the status graph, in time order up to `now`. */
  ghost predicate Explains(h: seq<Transition>, status: InvoiceStatus, now: int) {
    && (h == [] ==> status.Pending?)
    && (h != [] ==> h[0].from.Pending? && h[|h| - 1].to == status && h[|h| - 1].at <= now)
    && (forall k :: 0 <= k < |h| ==> LegalMove(h[k].from, h[k].to))
    && (forall k :: 0 <= k < |h| - 1 ==> h[k].to == h[k + 1].from && h[k].at <= h[k + 1].at)
  }

  ghost predicate LogOk(s: Ledger, id: nat, now: int) {
    if id in s.invoices then Explains(LogOf(s, id), s.invoices[id].status, now) else LogOf(s, id) == []
  }

  ghost predicate Audited(s: Ledger, now: int) { forall id :: LogOk(s, id, now) }

  lemma ExplainsSnoc(h: seq<Transition>, from: InvoiceStatus, to: InvoiceStatus, earlier: int, now: u64)
    requires Explains(h, from, earlier) && earlier <= now && LegalMove(from, to)
    ensures Explains(h + [Transition(from, to, now)], to, now)
  {
  }

  lemma MoveAudits(s: Ledger, earlier: int, now: u64, id: nat, from: InvoiceStatus, x: Invoice)
    requires Audited(s, earlier) && earlier <= now
    requires id in s.invoices && s.invoices[id].status == from && LegalMove(from, x.status)
    ensures Audited(MoveTo(s, now, id, from, x), now)
  {
    var s' := MoveTo(s, now, id, from, x);
    assert LogOk(s, id, earlier);
    ExplainsSnoc(LogOf(s, id), from, x.status, earlier, now);
    forall k ensures LogOk(s', k, now) { assert LogOk(s, k, earlier); }
  }

  /** No status moved and no entry was logged. */
  ghost predicate SameStatuses(s: Ledger, s': Ledger) {
    && s'.history == s.history && s'.invoices.Keys == s.invoices.Keys
    && forall id :: id in s.invoices ==> s'.invoices[id].status == s.invoices[id].status
  }

  lemma SameStatusesAudit(s: Ledger, s': Ledger, earlier: int, now: int)
    requires Audited(s, earlier) && earlier <= now && SameStatuses(s, s')
    ensures Audited(s', now)
  {
    forall id ensures LogOk(s', id, now) { assert LogOk(s, id, earlier); }
  }

  // ----- creating -----

  lemma CreateRecordAudits(s: Ledger, earlier: int, now: u64, merchant: Address, p: Params)
    requires Audited(s, earlier) && earlier <= now && CreateRecord(s, now, merchant, p).Ok?
             && s.count + 1 !in s.invoices
    ensures Audited(CreateRecord(s, now, merchant, p).value, now)
  {
    var s' := CreateRecord(s, now, merchant, p).value;
    CreateRecordAdds(s, now, merchant, p);
    assert s'.history == s.history && s'.invoices[s'.count].status.Pending?;
    forall id ensures LogOk(s', id, now) { assert LogOk(s, id, earlier); }
  }

  lemma {:induction false} CreateEachAudits(s: Ledger, earlier: int, now: u64, merchant: Address, ps: seq<Params>)
    requires Sound(s) && Audited(s, earlier) && earlier <= now
    requires ValidateEach(s, merchant, ps).Pass? && CreateEach(s, now, merchant, ps).Ok?
    ensures Audited(CreateEach(s, now, merchant, ps).value, now)
  {
    if ps == [] {
      SameStatusesAudit(s, s, earlier, now);
    } else {
      var front := ps[..|ps| - 1];
      CreateEachAudits(s, earlier, now, merchant, front);
      CreateEachKeeps(s, now, merchant, front);
      var mid := CreateEach(s, now, merchant, front).value;
      assert InvoiceOk(mid, mid.count + 1);
      CreateRecordAudits(mid, now, now, merchant, ps[|ps| - 1]);
    }
  }

  lemma RunIfDueAudits(s: Ledger, earlier: int, now: u64, id: nat)
    requires Sound(s) && Audited(s, earlier) && earlier <= now && RunIfDue(s, now, id).Ok?
    ensures Audited(RunIfDue(s, now, id).value, now)
  {
    var s' := RunIfDue(s, now, id).value;
    if id in s.templates && s.templates[id].active && now >= s.templates[id].nextRunAt {
      var t := s.templates[id];
      assert InvoiceOk(s, s.count + 1);
      CreateRecordAudits(s, earlier, now, t.merchant, TemplateParams(t));
      SameStatusesAudit(CreateRecord(s, now, t.merchant, TemplateParams(t)).value, s', now, now);
    } else {
      SameStatusesAudit(s, s', earlier, now);
    }
  }

  lemma {:induction false} RunEachAudits(s: Ledger, earlier: int, now: u64, ids: seq<nat>)
    requires Sound(s) && Audited(s, earlier) && earlier <= now && RunEach(s, now, ids).Ok?
    ensures Audited(RunEach(s, now, ids).value, now)
  {
    if ids == [] {
      SameStatusesAudit(s, s, earlier, now);
    } else {
      RunEachAudits(s, earlier, now, ids[..|ids| - 1]);
      RunEachKeeps(s, now, ids[..|ids| - 1]);
      RunIfDueAudits(RunEach(s, now, ids[..|ids| - 1]).value, now, now, ids[|ids| - 1]);
    }
  }

  lemma GenerateAudits(s: Ledger, earlier: int, now: u64, merchant: Address, id: nat)
    requires Sound(s) && Audited(s, earlier) && earlier <= now && GenerateFromTemplate(s, now, merchant, id).Ok?
    ensures Audited(GenerateFromTemplate(s, now, merchant, id).value, now)
  {
    var t := s.templates[id];
    assert InvoiceOk(s, s.count + 1);
    CreateRecordAudits(s, earlier, now, t.merchant, TemplateParams(t));
    SameStatusesAudit(CreateRecord(s, now, t.merchant, TemplateParams(t)).value,
                      GenerateFromTemplate(s, now, merchant, id).value, now, now);
  }

  lemma CreateStepAudits(s: Ledger, earlier: int, now: u64, call: CreateCall)
    requires Sound(s) && Audited(s, earlier) && earlier <= now && CreateStep(s, now, call).Ok?
    ensures Audited(CreateStep(s, now, call).value, now)
  {
    match call
    case CallCreate(merchant, p) =>
      assert InvoiceOk(s, s.count + 1);
      CreateRecordAudits(s, earlier, now, merchant, p);
    case CallBatchCreate(merchant, ps) => CreateEachAudits(s, earlier, now, merchant, ps);
    case CallGenerate(merchant, id) => GenerateAudits(s, earlier, now, merchant, id);
    case CallGenerateDue(ids) => RunEachAudits(s, earlier, now, ids);
  }

  // ----- batch cancellation -----

  function Occurrences(ids: seq<nat>, k: nat): nat {
    if ids == [] then 0 else Occurrences(ids[..|ids| - 1], k) + (if ids[|ids| - 1] == k then 1 else 0)
  }

  lemma {:induction false} OccursInSeq(ids: seq<nat>, k: nat)
    ensures k in ids <==> Occurrences(ids, k) > 0
  {
    if ids != [] {
      OccursInSeq(ids[..|ids| - 1], k);
      assert ids == ids[..|ids| - 1] + [ids[|ids| - 1]];
    }
  }

  ghost predicate AtMostOnce(ids: seq<nat>, k: nat) { Occurrences(ids, k) <= 1 }

  lemma {:induction false} NoDupIffOnce(ids: seq<nat>)
    ensures NoDup(ids) <==> forall k :: AtMostOnce(ids, k)
  {
    if ids != [] {
      var front, last := ids[..|ids| - 1], ids[|ids| - 1];
      NoDupIffOnce(front);
      OccursInSeq(front, last);
      assert NoDup(ids) <==> NoDup(front) && last !in front;
      forall k ensures AtMostOnce(ids, k) <==> AtMostOnce(front, k) && (k == last ==> k !in front) {}
      assert AtMostOnce(ids, last) ==> last !in front;
    }
  }

  function Repeat(t: Transition, n: nat): seq<Transition> { seq(n, _ => t) }

  /** Each occurrence of an id in the batch logs one more move out of Pending. */
  lemma {:induction false} CancelEachLogs(s: Ledger, now: u64, ids: seq<nat>, k: nat)
    requires forall i :: 0 <= i < |ids| ==> ids[i] in s.invoices
    ensures LogOf(CancelEach(s, now, ids), k) ==
            LogOf(s, k) + Repeat(Transition(Pending, Cancelled, now), Occurrences(ids, k))
  {
    if ids != [] { CancelEachLogs(s, now, ids[..|ids| - 1], k); }
  }

  /** A batch cancellation keeps the audit log right exactly when it names no invoice twice. */
  lemma BatchCancelAuditsIff(s: Ledger, earlier: int, now: u64, merchant: Address, ids: seq<nat>)
    requires Audited(s, earlier) && earlier <= now && BatchCancel(s, now, merchant, ids).Ok?
    ensures Audited(BatchCancel(s, now, merchant, ids).value, now) <==> NoDup(ids)
  {
    CheckedAreStored(s, merchant, ids);
    var s' := CancelEach(s, now, ids);
    NoDupIffOnce(ids);
    if NoDup(ids) {
      forall k ensures LogOk(s', k, now) { assert AtMostOnce(ids, k); CancelledOnce(s, earlier, now, ids, k); }
    } else {
      var k :| !AtMostOnce(ids, k);
      CancelledTwice(s, now, ids, k);
    }
  }

  lemma CancelledOnce(s: Ledger, earlier: int, now: u64, ids: seq<nat>, k: nat)
    requires LogOk(s, k, earlier) && earlier <= now && Occurrences(ids, k) <= 1
    requires forall i :: 0 <= i < |ids| ==> ids[i] in s.invoices && s.invoices[ids[i]].status.Pending?
    ensures LogOk(CancelEach(s, now, ids), k, now)
  {
    CancelEachLogs(s, now, ids, k);
    CancelEachAt(s, now, ids, k);
    OccursInSeq(ids, k);
    LoggedAtMostOnce(s, CancelEach(s, now, ids), k, Occurrences(ids, k), earlier, now);
  }

  lemma LoggedAtMostOnce(s: Ledger, s': Ledger, k: nat, n: nat, earlier: int, now: u64)
    requires LogOk(s, k, earlier) && earlier <= now && n <= 1 && (k in s'.invoices <==> k in s.invoices)
    requires LogOf(s', k) == LogOf(s, k) + Repeat(Transition(Pending, Cancelled, now), n)
    requires k in s.invoices && n == 0 ==> s'.invoices[k].status == s.invoices[k].status
    requires n == 1 ==> k in s.invoices && s.invoices[k].status.Pending? && s'.invoices[k].status.Cancelled?
    ensures LogOk(s', k, now)
  {
    var entry := Transition(Pending, Cancelled, now);
    if n == 1 {
      assert Repeat(entry, 1) == [entry];
      ExplainsSnoc(LogOf(s, k), Pending, Cancelled, earlier, now);
    } else {
      assert LogOf(s, k) + Repeat(entry, 0) == LogOf(s, k);
    }
  }

  lemma CancelledTwice(s: Ledger, now: u64, ids: seq<nat>, k: nat)
    requires forall i :: 0 <= i < |ids| ==> ids[i] in s.invoices
    requires Occurrences(ids, k) > 1
    ensures !LogOk(CancelEach(s, now, ids), k, now)
  {
    OccursInSeq(ids, k);
    CancelEachAt(s, now, ids, k);
    CancelEachLogs(s, now, ids, k);
    var h, n := LogOf(CancelEach(s, now, ids), k), |LogOf(s, k)|;
    assert h[n] == h[n + 1] == Transition(Pending, Cancelled, now);
  }

  lemma {:induction false} ExpireEachAudits(s: Ledger, earlier: int, now: u64, ids: seq<nat>)
    requires Audited(s, earlier) && earlier <= now
    ensures Audited(ExpireEach(s, now, ids), now)
  {
    if ids == [] {
      SameStatusesAudit(s, s, earlier, now);
    } else {
      ExpireEachAudits(s, earlier, now, ids[..|ids| - 1]);
      var mid, id := ExpireEach(s, now, ids[..|ids| - 1]), ids[|ids| - 1];
      if id in mid.invoices && mid.invoices[id].status.Pending? && now >= mid.invoices[id].expiresAt {
        MoveAudits(mid, now, now, id, Pending, mid.invoices[id].(status := Expired));
      }
    }
  }

  lemma StatusStepAudits(s: Ledger, earlier: int, now: u64, call: StatusCall)
    requires Audited(s, earlier) && earlier <= now && StatusStep(s, now, call).Ok?
    requires call.CallBatchCancel? ==> NoDup(call.ids)
    ensures Audited(StatusStep(s, now, call).value, now)
  {
    match call
    case CallMarkPaid(caller, id, payer, hash, token) =>
      MarkPaidMoves(s, now, caller, id, payer, hash, token);
      MoveAudits(s, earlier, now, id, Pending,
                 s.invoices[id].(status := Paid, paidAt := Some(now), payer := Some(payer)));
    case CallRelease(_, id) => MoveAudits(s, earlier, now, id, Paid, s.invoices[id].(status := Released));
    case CallCancel(_, id) => MoveAudits(s, earlier, now, id, Pending, s.invoices[id].(status := Cancelled));
    case CallBatchExpire(_, ids) => ExpireEachAudits(s, earlier, now, ids);
    case CallBatchCancel(merchant, ids) => BatchCancelAuditsIff(s, earlier, now, merchant, ids);
  }

  lemma RequestAudits(s: Ledger, earlier: int, now: u64, payer: Address, id: nat)
    requires Audited(s, earlier) && earlier <= now && RequestRefund(s, now, payer, id).Ok?
    ensures Audited(RequestRefund(s, now, payer, id).value, now)
  {
    var x := s.invoices[id].(status := RefundRequested);
    MoveAudits(s, earlier, now, id, Paid, x);
    SameStatusesAudit(MoveTo(s, now, id, Paid, x), RequestRefund(s, now, payer, id).value, now, now);
  }

  lemma ProcessAudits(s: Ledger, earlier: int, now: u64, caller: Address, id: nat, bps: u32, sent: bool)
    requires Audited(s, earlier) && earlier <= now && ProcessRefund(s, now, caller, id, bps, sent).Ok?
    ensures Audited(ProcessRefund(s, now, caller, id, bps, sent).value, now)
  {
    var x := s.invoices[id].(status := Refunded);
    MoveAudits(s, earlier, now, id, RefundRequested, x);
    SameStatusesAudit(MoveTo(s, now, id, RefundRequested, x), ProcessRefund(s, now, caller, id, bps, sent).value, now,
                      now);
  }

  lemma RefundStepAudits(s: Ledger, earlier: int, now: u64, call: RefundCall)
    requires Audited(s, earlier) && earlier <= now && RefundStep(s, now, call).Ok?
    ensures Audited(RefundStep(s, now, call).value, now)
  {
    match call
    case CallRequestRefund(payer, id) => RequestAudits(s, earlier, now, payer, id);
    case CallApproveRefund(_, id) =>
      MoveAudits(s, earlier, now, id, RefundRequested, s.invoices[id].(status := Refunded));
    case CallProcessRefund(caller, id, bps, sent) => ProcessAudits(s, earlier, now, caller, id, bps, sent);
    case CallRejectRefund(_, id) => MoveAudits(s, earlier, now, id, RefundRequested, s.invoices[id].(status := Paid));
  }

  lemma EditStepAudits(s: Ledger, earlier: int, now: u64, call: EditCall)
    requires Audited(s, earlier) && earlier <= now && EditStep(s, now, call).Ok?
    ensures Audited(EditStep(s, now, call).value, now)
  {
    SameStatusesAudit(s, EditStep(s, now, call).value, earlier, now);
  }

  lemma AdminStepAudits(s: Ledger, earlier: int, now: int, call: AdminCall)
    requires Audited(s, earlier) && earlier <= now && AdminStep(s, call).Ok?
    ensures Audited(AdminStep(s, call).value, now)
  {
    SameStatusesAudit(s, AdminStep(s, call).value, earlier, now);
  }

  /** One call keeps the audit log right, unless it is a batch cancellation that repeats an id. */
  lemma CallStepAudits(s: Ledger, earlier: int, now: u64, call: Call)
    requires Sound(s) && Audited(s, earlier) && earlier <= now && CallStep(s, now, call).Ok?
    requires call.Moving? && call.move.CallBatchCancel? ==> NoDup(call.move.ids)
    ensures Audited(CallStep(s, now, call).value, now)
  {
    match call
    case Creating(c) => CreateStepAudits(s, earlier, now, c);
    case Moving(c) => StatusStepAudits(s, earlier, now, c);
    case Refunding(c) => RefundStepAudits(s, earlier, now, c);
    case Editing(c) => EditStepAudits(s, earlier, now, c);
    case Managing(c) => AdminStepAudits(s, earlier, now, c);
  }

  /** A path along the status graph visits a terminal status only at its end. */
  lemma TerminalIsLast(h: seq<Transition>, status: InvoiceStatus, now: int, k: nat)
    requires Explains(h, status, now) && k < |h| && IsTerminal(h[k].to)
    ensures k == |h| - 1
  {
    forall j | 0 <= j < |h| - 1 ensures !IsTerminal(h[j].to) {
      assert LegalMove(h[j + 1].from, h[j + 1].to) && h[j].to == h[j + 1].from;
    }
  }
}
