/** The recurring-template keeper: its schedule, and how many invoices it can make. */
module InvoiceKeeper {
  import opened Common
  import opened InvoiceSpec

  // ----- one advance of the schedule -----

  /** Unless it saturates, the new run time is the first point of the old schedule after `now`. */
  lemma AdvanceIsLeast(next: u64, interval: Interval, now: u64)
    requires next <= now
    ensures var p := PeriodSeconds(interval);
            var q := (now - next) / p;
            && now < next + (q + 1) * p <= now + p
            && (Advance(next, p, now) == U64_MAX || Advance(next, p, now) == next + (q + 1) * p)
            && (now + p <= U64_MAX ==> Advance(next, p, now) == next + (q + 1) * p)
  {
    match interval
    case Daily =>
    case Weekly =>
    case Monthly =>
  }

  // ----- what the event log says about a template -----

  /** The invoices the keeper has made for template `id`. */
  ghost function KeeperCount(events: seq<TemplateEvent>, id: nat): nat {
    if events == [] then 0
    else
      var e := events[|events| - 1];
      KeeperCount(events[..|events| - 1], id) + (if e.TemplateGenerated? && e.template == id && e.keeper then 1 else 0)
  }

  ghost function CreatedAt(events: seq<TemplateEvent>, id: nat): u64 {
    if events == [] then 0
    else
      var e := events[|events| - 1];
      if e.TemplateCreated? && e.template == id then e.at else CreatedAt(events[..|events| - 1], id)
  }

  lemma EventSnoc(events: seq<TemplateEvent>, e: TemplateEvent, id: nat)
    ensures KeeperCount(events + [e], id) ==
            KeeperCount(events, id) + (if e.TemplateGenerated? && e.template == id && e.keeper then 1 else 0)
    ensures CreatedAt(events + [e], id)
            == if e.TemplateCreated? && e.template == id then e.at else CreatedAt(events, id)
  {
    assert (events + [e])[..|events + [e]| - 1] == events;
  }

  // ----- the invariant -----

  /** `next` is a point of the schedule c + p, c + 2p, ... later than the `n` already used. */
  ghost predicate OnSchedule(c: int, p: int, next: int, n: nat) {
    exists k: nat :: AtPoint(c, p, next, n, k)
  }

  ghost predicate AtPoint(c: int, p: int, next: int, n: nat, k: nat) {
    k > n && next == c + k * p
  }

  ghost predicate ScheduleOk(s: Ledger, id: nat, now: int) {
    var n, c := KeeperCount(s.events, id), CreatedAt(s.events, id);
    if id in s.templates then
      var t := s.templates[id];
      var p := PeriodSeconds(t.interval);
      && 1 <= id <= s.templateCount && t.expiresIn > 0 && c <= now && n * p <= now - c
      && (t.nextRunAt == U64_MAX || OnSchedule(c, p, t.nextRunAt, n))
    else n == 0
  }

  ghost predicate Scheduled(s: Ledger, now: int) { forall id :: ScheduleOk(s, id, now) }

  lemma ScheduleLater(s: Ledger, s': Ledger, earlier: int, now: int)
    requires Scheduled(s, earlier) && earlier <= now
    requires s'.events == s.events && s'.templateCount == s.templateCount && s'.templates.Keys == s.templates.Keys
    requires forall id :: id in s.templates ==> s'.templates[id] == s.templates[id].(active := s'.templates[id].active)
    ensures Scheduled(s', now)
  {
    forall id ensures ScheduleOk(s', id, now) { assert ScheduleOk(s, id, earlier); }
  }

  /** The keeper fires for a due template: one more invoice, and the schedule moves past `now`. */
  lemma FireKeepsSchedule(c: int, interval: Interval, next: u64, n: nat, now: u64)
    requires OnSchedule(c, PeriodSeconds(interval), next, n) && next <= now
    ensures var p := PeriodSeconds(interval);
            var next' := Advance(next, p, now);
            (n + 1) * p <= now - c && (next' == U64_MAX || OnSchedule(c, p, next', n + 1))
  {
    var p := PeriodSeconds(interval);
    var k: nat :| AtPoint(c, p, next, n, k);
    var q := (now - next) / p;
    AdvanceIsLeast(next, interval, now);
    assert q >= 0 by { match interval case Daily => case Weekly => case Monthly => }
    assert (n + 1) * p <= k * p by { match interval case Daily => case Weekly => case Monthly => }
    assert next + (q + 1) * p == c + (k + q + 1) * p by { match interval case Daily => case Weekly => case Monthly => }
    assert Advance(next, p, now) != U64_MAX ==> AtPoint(c, p, Advance(next, p, now), n + 1, k + q + 1);
  }

  lemma RunIfDueSchedules(s: Ledger, earlier: int, now: u64, id: nat)
    requires Scheduled(s, earlier) && earlier <= now && RunIfDue(s, now, id).Ok?
    ensures Scheduled(RunIfDue(s, now, id).value, now)
  {
    var s' := RunIfDue(s, now, id).value;
    if id in s.templates && s.templates[id].active && now >= s.templates[id].nextRunAt {
      assert ScheduleOk(s, id, earlier);
      FiredSchedules(s, s', earlier, now, id);
    } else {
      ScheduleLater(s, s', earlier, now);
    }
  }

  lemma FiredSchedules(s: Ledger, s': Ledger, earlier: int, now: u64, id: nat)
    requires Scheduled(s, earlier) && earlier <= now && id in s.templates && s.templates[id].nextRunAt <= now
    requires s'.templateCount == s.templateCount && s'.events == s.events + [TemplateGenerated(id, s'.count, now, true)]
    requires var t := s.templates[id];
             && s'.templates == s.templates[id := t.(nextRunAt := Advance(t.nextRunAt, PeriodSeconds(t.interval), now))]
             && now < U64_MAX
    ensures Scheduled(s', now)
  {
    var t := s.templates[id];
    var e := TemplateGenerated(id, s'.count, now, true);
    assert ScheduleOk(s, id, earlier);
    FireKeepsSchedule(CreatedAt(s.events, id), t.interval, t.nextRunAt, KeeperCount(s.events, id), now);
    forall k ensures ScheduleOk(s', k, now) {
      assert ScheduleOk(s, k, earlier);
      EventSnoc(s.events, e, k);
    }
  }

  lemma {:induction false} RunEachSchedules(s: Ledger, earlier: int, now: u64, ids: seq<nat>)
    requires Scheduled(s, earlier) && earlier <= now && RunEach(s, now, ids).Ok?
    ensures Scheduled(RunEach(s, now, ids).value, now)
  {
    if ids == [] {
      ScheduleLater(s, s, earlier, now);
    } else {
      RunEachSchedules(s, earlier, now, ids[..|ids| - 1]);
      RunIfDueSchedules(RunEach(s, now, ids[..|ids| - 1]).value, now, now, ids[|ids| - 1]);
    }
  }

  lemma GenerateSchedules(s: Ledger, earlier: int, now: u64, merchant: Address, id: nat)
    requires Scheduled(s, earlier) && earlier <= now && GenerateFromTemplate(s, now, merchant, id).Ok?
    ensures Scheduled(GenerateFromTemplate(s, now, merchant, id).value, now)
  {
    var s' := GenerateFromTemplate(s, now, merchant, id).value;
    var e := TemplateGenerated(id, s'.count, now, false);
    assert s'.events == s.events + [e] && s'.templates == s.templates && s'.templateCount == s.templateCount;
    forall k ensures ScheduleOk(s', k, now) {
      assert ScheduleOk(s, k, earlier);
      EventSnoc(s.events, e, k);
    }
  }

  lemma {:induction false} CreateEachLeavesTemplates(s: Ledger, now: u64, merchant: Address, ps: seq<Params>)
    requires CreateEach(s, now, merchant, ps).Ok?
    ensures var s' := CreateEach(s, now, merchant, ps).value;
            s'.templates == s.templates && s'.templateCount == s.templateCount && s'.events == s.events
  {
    if ps != [] { CreateEachLeavesTemplates(s, now, merchant, ps[..|ps| - 1]); }
  }

  lemma CreateStepSchedules(s: Ledger, earlier: int, now: u64, call: CreateCall)
    requires Scheduled(s, earlier) && earlier <= now && CreateStep(s, now, call).Ok?
    ensures Scheduled(CreateStep(s, now, call).value, now)
  {
    match call
    case CallCreate(merchant, p) => ScheduleLater(s, CreateRecord(s, now, merchant, p).value, earlier, now);
    case CallBatchCreate(merchant, ps) =>
      CreateEachLeavesTemplates(s, now, merchant, ps);
      ScheduleLater(s, CreateEach(s, now, merchant, ps).value, earlier, now);
    case CallGenerate(merchant, id) => GenerateSchedules(s, earlier, now, merchant, id);
    case CallGenerateDue(ids) => RunEachSchedules(s, earlier, now, ids);
  }

  lemma CreateTemplateSchedules(s: Ledger, earlier: int, now: u64, merchant: Address, p: Params, interval: Interval)
    requires Scheduled(s, earlier) && earlier <= now && CreateTemplate(s, now, merchant, p, interval).Ok?
    ensures Scheduled(CreateTemplate(s, now, merchant, p, interval).value, now)
  {
    var s' := CreateTemplate(s, now, merchant, p, interval).value;
    var id := s'.templateCount;
    var e := TemplateCreated(id, now);
    assert ScheduleOk(s, id, earlier);
    assert AtPoint(now, PeriodSeconds(interval), s'.templates[id].nextRunAt, 0, 1);
    forall k ensures ScheduleOk(s', k, now) {
      assert ScheduleOk(s, k, earlier);
      EventSnoc(s.events, e, k);
    }
  }

  lemma EditStepSchedules(s: Ledger, earlier: int, now: u64, call: EditCall)
    requires Scheduled(s, earlier) && earlier <= now && EditStep(s, now, call).Ok?
    ensures Scheduled(EditStep(s, now, call).value, now)
  {
    if call.CallCreateTemplate? {
      CreateTemplateSchedules(s, earlier, now, call.merchant, call.params, call.interval);
    } else {
      ScheduleLater(s, EditStep(s, now, call).value, earlier, now);
    }
  }

  lemma {:induction false} ExpireEachLeavesTemplates(s: Ledger, now: u64, ids: seq<nat>)
    ensures var s' := ExpireEach(s, now, ids);
            s'.templates == s.templates && s'.templateCount == s.templateCount && s'.events == s.events
  {
    if ids != [] { ExpireEachLeavesTemplates(s, now, ids[..|ids| - 1]); }
  }

  lemma {:induction false} CancelEachLeavesTemplates(s: Ledger, now: u64, ids: seq<nat>)
    requires forall i :: 0 <= i < |ids| ==> ids[i] in s.invoices
    ensures var s' := CancelEach(s, now, ids);
            s'.templates == s.templates && s'.templateCount == s.templateCount && s'.events == s.events
  {
    if ids != [] { CancelEachLeavesTemplates(s, now, ids[..|ids| - 1]); }
  }

  lemma StatusStepSchedules(s: Ledger, earlier: int, now: u64, call: StatusCall)
    requires Scheduled(s, earlier) && earlier <= now && StatusStep(s, now, call).Ok?
    ensures Scheduled(StatusStep(s, now, call).value, now)
  {
    if call.CallBatchExpire? {
      ExpireEachLeavesTemplates(s, now, call.ids);
    } else if call.CallBatchCancel? {
      CheckedAreStored(s, call.merchant, call.ids);
      CancelEachLeavesTemplates(s, now, call.ids);
    }
    ScheduleLater(s, StatusStep(s, now, call).value, earlier, now);
  }

  lemma RefundStepSchedules(s: Ledger, earlier: int, now: u64, call: RefundCall)
    requires Scheduled(s, earlier) && earlier <= now && RefundStep(s, now, call).Ok?
    ensures Scheduled(RefundStep(s, now, call).value, now)
  {
    ScheduleLater(s, RefundStep(s, now, call).value, earlier, now);
  }

  lemma AdminStepSchedules(s: Ledger, earlier: int, now: int, call: AdminCall)
    requires Scheduled(s, earlier) && earlier <= now && AdminStep(s, call).Ok?
    ensures Scheduled(AdminStep(s, call).value, now)
  {
    ScheduleLater(s, AdminStep(s, call).value, earlier, now);
  }

  /** One call keeps every schedule: a saturated run time is never reached, since an invoice must expire after `now`. */
  lemma CallStepSchedules(s: Ledger, earlier: int, now: u64, call: Call)
    requires Scheduled(s, earlier) && earlier <= now && CallStep(s, now, call).Ok?
    ensures Scheduled(CallStep(s, now, call).value, now)
  {
    match call
    case Creating(c) => CreateStepSchedules(s, earlier, now, c);
    case Moving(c) => StatusStepSchedules(s, earlier, now, c);
    case Refunding(c) => RefundStepSchedules(s, earlier, now, c);
    case Editing(c) => EditStepSchedules(s, earlier, now, c);
    case Managing(c) => AdminStepSchedules(s, earlier, now, c);
  }

  /** The invariant bounds the keeper by the number of whole periods since creation. */
  lemma CountIsBounded(s: Ledger, id: nat, now: int)
    requires ScheduleOk(s, id, now) && id in s.templates
    ensures KeeperCount(s.events, id) <= (now - CreatedAt(s.events, id)) / PeriodSeconds(s.templates[id].interval)
  {
    match s.templates[id].interval
    case Daily =>
    case Weekly =>
    case Monthly =>
  }
}
