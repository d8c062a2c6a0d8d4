/** Which templates the keeper runs, what it makes of them, and that it leaves deactivated ones alone. */
module KeeperRuns {
  import opened Common
  import opened InvoiceSpec
  import opened InvoiceSafety
  import opened InvoiceKeeper
  import opened InvoiceCreation
  import opened InvoiceRuns

  /** Stored, active and due. */
  ghost predicate Due(s: Ledger, now: u64, id: nat) {
    id in s.templates && s.templates[id].active && s.templates[id].nextRunAt <= now
  }

  /** Every stored template gives its invoices some time. */
  ghost predicate Durable(s: Ledger) {
    forall id :: id in s.templates ==> s.templates[id].expiresIn > 0
  }

  lemma ScheduledIsDurable(s: Ledger, now: int)
    requires Scheduled(s, now)
    ensures Durable(s)
  {
    forall id | id in s.templates ensures s.templates[id].expiresIn > 0 { assert ScheduleOk(s, id, now); }
  }

  /** Template `id` is the same, but for its next run. */
  ghost predicate SameTemplate(s: Ledger, s': Ledger, id: nat) {
    && (id in s'.templates <==> id in s.templates)
    && (id in s.templates ==> s'.templates[id] == s.templates[id].(nextRunAt := s'.templates[id].nextRunAt))
  }

  lemma RunIfDueAt(s: Ledger, now: u64, x: nat, id: nat)
    requires Durable(s) && RunIfDue(s, now, x).Ok?
    ensures var s' := RunIfDue(s, now, x).value;
            && Durable(s') && SameTemplate(s, s', id)
            && KeeperCount(s'.events, id) == KeeperCount(s.events, id) + (if id == x && Due(s, now, x) then 1 else 0)
            && (Due(s', now, id) <==> Due(s, now, id) && id != x)
  {
    if Due(s, now, x) {
      var t, s' := s.templates[x], RunIfDue(s, now, x).value;
      AdvanceIsLeast(t.nextRunAt, t.interval, now);
      EventSnoc(s.events, TemplateGenerated(x, s'.count, now, true), id);
    }
  }

  lemma {:induction false} RunEachCounts(s: Ledger, now: u64, ids: seq<nat>, id: nat)
    requires Durable(s) && RunEach(s, now, ids).Ok?
    ensures var s' := RunEach(s, now, ids).value;
            && Durable(s') && SameTemplate(s, s', id)
            && KeeperCount(s'.events, id) == KeeperCount(s.events, id) + (if id in ids && Due(s, now, id) then 1 else 0)
            && (Due(s', now, id) <==> Due(s, now, id) && id !in ids)
  {
    if ids != [] {
      var front, last := ids[..|ids| - 1], ids[|ids| - 1];
      RunEachCounts(s, now, front, id);
      RunIfDueAt(RunEach(s, now, front).value, now, last, id);
      assert id in ids <==> id in front || id == last by { assert ids == front + [last]; }
    }
  }

  /** A keeper call makes one invoice for each named template that is stored, active and due, and none for any other. */
  lemma KeeperRunsExactlyTheDue(s: Ledger, now: u64, ids: seq<nat>, id: nat)
    requires Durable(s) && GenerateDue(s, now, ids).Ok?
    ensures var s' := GenerateDue(s, now, ids).value;
            && KeeperCount(s'.events, id) == KeeperCount(s.events, id) + (if id in ids && Due(s, now, id) then 1 else 0)
            && SameTemplate(s, s', id) && !(id in ids && Due(s', now, id))
  {
    RunEachCounts(s, now, ids, id);
  }

  // ----- what is made -----

  /** Event `e` reports a new invoice of `s'` with the terms of its template in `s`. */
  ghost predicate MadeFrom(s: Ledger, s': Ledger, now: u64, e: TemplateEvent) {
    && e.TemplateGenerated? && e.at == now && e.template in s.templates
    && s.count < e.invoice <= s'.count && e.invoice in s'.invoices
    && var t := s.templates[e.template];
    AsAsked(s'.invoices[e.invoice], e.invoice, now, t.merchant,
            Params(t.amount, t.gross, t.expiresIn, t.metadataHash, t.linkHash, 0, None))
  }

  lemma {:induction false} RunEachMakes(s: Ledger, now: u64, ids: seq<nat>)
    requires RunEach(s, now, ids).Ok?
    ensures var s' := RunEach(s, now, ids).value;
            && SameUpTo(s, s', s.count) && s.events <= s'.events
            && s'.count - s.count == |s'.events| - |s.events| && (forall id :: SameTemplate(s, s', id))
            && forall k :: |s.events| <= k < |s'.events| ==>
                 && MadeFrom(s, s', now, s'.events[k]) && s'.events[k].keeper && s'.events[k].template in ids
                 && s'.events[k].invoice == s.count + 1 + k - |s.events|
  {
    if ids != [] {
      var front, last := ids[..|ids| - 1], ids[|ids| - 1];
      RunEachMakes(s, now, front);
      var mid, s' := RunEach(s, now, front).value, RunEach(s, now, ids).value;
      assert ids == front + [last];
      assert SameTemplate(s, mid, last);
      if Due(mid, now, last) {
        var t := mid.templates[last];
        CreateRecordStores(mid, now, t.merchant, TemplateParams(t));
      }
      forall id ensures SameTemplate(s, s', id) { assert SameTemplate(s, mid, id); }
      forall k | |s.events| <= k < |s'.events|
        ensures && MadeFrom(s, s', now, s'.events[k]) && s'.events[k].keeper && s'.events[k].template in ids
                && s'.events[k].invoice == s.count + 1 + k - |s.events|
      {
        if k < |mid.events| {
          assert s'.events[k] == mid.events[k];
          assert MadeFrom(s, mid, now, mid.events[k]) && mid.events[k].template in front;
        }
      }
    }
  }

  /**
   The keeper makes one invoice per event, numbered in turn, and no other; each has its template's merchant, amounts,
   hashes and duration, no nonce and no token.
   */
  lemma KeeperMakesAsAsked(s: Ledger, now: u64, ids: seq<nat>, k: nat)
    requires GenerateDue(s, now, ids).Ok? && |s.events| <= k < |GenerateDue(s, now, ids).value.events|
    ensures var s' := GenerateDue(s, now, ids).value;
            && s.events <= s'.events && MadeFrom(s, s', now, s'.events[k])
            && s'.events[k].keeper && s'.events[k].template in ids
            && s'.count - s.count == |s'.events| - |s.events| && s'.events[k].invoice == s.count + 1 + k - |s.events|
  {
    RunEachMakes(s, now, ids);
  }

  /** On demand, a merchant gets one invoice of its own active template, whose schedule stays as it is. */
  lemma OnDemandMakesAsAsked(s: Ledger, now: u64, merchant: Address, id: nat)
    requires GenerateFromTemplate(s, now, merchant, id).Ok?
    ensures var s' := GenerateFromTemplate(s, now, merchant, id).value;
            && id in s.templates && s.templates[id].active && s.templates[id].merchant == merchant && !s.paused
            && s'.templates == s.templates && |s'.events| == |s.events| + 1 && s'.count == s.count + 1
            && MadeFrom(s, s', now, s'.events[|s.events|])
            && s'.events[|s.events|] == TemplateGenerated(id, s'.count, now, false)
  {
    CreateRecordStores(s, now, merchant, TemplateParams(s.templates[id]));
  }

  // ----- when it succeeds -----

  lemma RunIfDueOkIff(s: Ledger, now: u64, id: nat)
    requires Sound(s)
    ensures RunIfDue(s, now, id).Ok? <==>
              (Due(s, now, id) ==> s.count < U64_MAX && now + s.templates[id].expiresIn <= U64_MAX)
  {
    if Due(s, now, id) { CreateRecordOkIff(s, now, s.templates[id].merchant, TemplateParams(s.templates[id])); }
  }

  function IsDue(s: Ledger, now: u64): nat -> bool {
    (id: nat) => id in s.templates && s.templates[id].active && s.templates[id].nextRunAt <= now
  }

  /** The named templates to run, each once. */
  ghost function ToRun(s: Ledger, now: u64, ids: seq<nat>): seq<nat> { FirstOccurrences(Filter(ids, IsDue(s, now))) }

  lemma ToRunSnoc(s: Ledger, now: u64, ids: seq<nat>, id: nat)
    ensures ToRun(s, now, ids + [id]) == ToRun(s, now, ids) + (if Due(s, now, id) && id !in ids then [id] else [])
  {
    FirstPassing(ids, id, IsDue(s, now));
  }

  ghost predicate RoomFor(s: Ledger, now: u64, ids: seq<nat>) {
    && s.count + |ToRun(s, now, ids)| <= U64_MAX
    && forall i :: 0 <= i < |ids| && Due(s, now, ids[i]) ==> now + s.templates[ids[i]].expiresIn <= U64_MAX
  }

  lemma RoomSnoc(s: Ledger, now: u64, ids: seq<nat>)
    requires ids != []
    ensures var front, last := ids[..|ids| - 1], ids[|ids| - 1];
            RoomFor(s, now, ids) <==>
              && RoomFor(s, now, front)
              && (Due(s, now, last) && last !in front ==>
                    s.count + |ToRun(s, now, front)| < U64_MAX && now + s.templates[last].expiresIn <= U64_MAX)
  {
    var front, last := ids[..|ids| - 1], ids[|ids| - 1];
    ToRunSnoc(s, now, front, last);
    assert ids == front + [last];
    if Due(s, now, last) && last in front {
      var i :| 0 <= i < |front| && front[i] == last;
      assert RoomFor(s, now, front) ==> now + s.templates[front[i]].expiresIn <= U64_MAX;
    }
  }

  lemma LastRuns(s: Ledger, mid: Ledger, now: u64, front: seq<nat>, last: nat)
    requires Durable(s) && RunEach(s, now, front) == Ok(mid) && Sound(mid)
    requires mid.count == s.count + |ToRun(s, now, front)|
    ensures RunIfDue(mid, now, last).Ok? <==>
              (Due(s, now, last) && last !in front ==>
               mid.count < U64_MAX && now + s.templates[last].expiresIn <= U64_MAX)
    ensures RunIfDue(mid, now, last).Ok? ==>
              RunIfDue(mid, now, last).value.count == mid.count + (if Due(s, now, last) && last !in front then 1 else 0)
  {
    RunEachCounts(s, now, front, last);
    RunIfDueOkIff(mid, now, last);
  }

  lemma {:induction false} RunEachOkIff(s: Ledger, now: u64, ids: seq<nat>)
    requires Sound(s) && Durable(s)
    ensures RunEach(s, now, ids).Ok? <==> RoomFor(s, now, ids)
    ensures RunEach(s, now, ids).Ok? ==> RunEach(s, now, ids).value.count == s.count + |ToRun(s, now, ids)|
  {
    if ids != [] {
      var front, last := ids[..|ids| - 1], ids[|ids| - 1];
      RunEachOkIff(s, now, front);
      RoomSnoc(s, now, ids);
      if RunEach(s, now, front).Ok? {
        RunEachKeeps(s, now, front);
        LastRuns(s, RunEach(s, now, front).value, now, front, last);
        ToRunSnoc(s, now, front, last);
        assert ids == front + [last];
      }
    }
  }

  /** A keeper call succeeds exactly on an unpaused contract, for up to 20 ids, when the invoices to make have room. */
  lemma KeeperOkIff(s: Ledger, now: u64, ids: seq<nat>)
    requires Sound(s) && Durable(s)
    ensures GenerateDue(s, now, ids).Ok? <==> !s.paused && |ids| <= 20 && RoomFor(s, now, ids)
  {
    RunEachOkIff(s, now, ids);
  }

  // ----- deactivated templates -----

  /** The call switches template `id` on. */
  ghost predicate Activates(s: Ledger, e: Event, id: nat) {
    && e.call.Editing? && e.call.edit.CallSetTemplateActive? && e.call.edit.id == id && e.call.edit.active
    && CallStep(s, e.now, e.call).Ok?
  }

  /** Switching a template sets its flag and nothing else; only its merchant and the admin may. */
  lemma SwitchSets(s: Ledger, caller: Address, id: nat, active: bool)
    ensures SetTemplateActive(s, caller, id, active).Ok? <==>
              id in s.templates && (caller == s.templates[id].merchant || s.admin == Some(caller))
    ensures SetTemplateActive(s, caller, id, active).Ok? ==>
              var s' := SetTemplateActive(s, caller, id, active).value;
              s' == s.(templates := s'.templates)
                && s'.templates == s.templates[id := s.templates[id].(active := active)]
  {
  }

  /** Template `id` is stored and off, and the keeper has made `n` invoices of it. */
  ghost predicate Off(s: Ledger, id: nat, n: nat) {
    id in s.templates && !s.templates[id].active && KeeperCount(s.events, id) == n
  }

  lemma {:induction false} CreateEachLeavesOff(s: Ledger, now: u64, merchant: Address, ps: seq<Params>, id: nat, n: nat)
    requires Off(s, id, n) && CreateEach(s, now, merchant, ps).Ok?
    ensures Off(CreateEach(s, now, merchant, ps).value, id, n)
  {
    CreateEachLeavesTemplates(s, now, merchant, ps);
  }

  lemma CreateStepLeavesOff(s: Ledger, now: u64, call: CreateCall, id: nat, n: nat)
    requires Off(s, id, n) && Durable(s) && CreateStep(s, now, call).Ok?
    ensures Off(CreateStep(s, now, call).value, id, n)
  {
    match call
    case CallCreate(merchant, p) => CreateRecordStores(s, now, merchant, p);
    case CallBatchCreate(merchant, ps) => CreateEachLeavesOff(s, now, merchant, ps, id, n);
    case CallGenerate(merchant, t) =>
      EventSnoc(s.events, TemplateGenerated(t, s.count + 1, now, false), id);
    case CallGenerateDue(ids) => RunEachCounts(s, now, ids, id);
  }

  lemma StatusStepLeavesOff(s: Ledger, now: u64, call: StatusCall, id: nat, n: nat)
    requires Off(s, id, n) && StatusStep(s, now, call).Ok?
    ensures Off(StatusStep(s, now, call).value, id, n)
  {
    match call
    case CallBatchExpire(_, ids) => ExpireEachLeavesTemplates(s, now, ids);
    case CallBatchCancel(merchant, ids) =>
      CheckedAreStored(s, merchant, ids);
      CancelEachLeavesTemplates(s, now, ids);
    case CallMarkPaid(_, _, _, _, _) =>
    case CallRelease(_, _) =>
    case CallCancel(_, _) =>
  }

  /** The call touches neither templates nor template events. */
  ghost predicate SameTemplates(s: Ledger, s': Ledger) {
    s'.templates == s.templates && s'.events == s.events
  }

  lemma FieldEditsLeaveTemplates(s: Ledger, now: u64, call: EditCall)
    requires EditStep(s, now, call).Ok? && (call.CallAmend? || call.CallExtendExpiry? || call.CallTransfer?)
    ensures SameTemplates(s, EditStep(s, now, call).value)
  {
  }

  lemma NewTemplateLeavesOff(s: Ledger, now: u64, merchant: Address, p: Params, interval: Interval, id: nat, n: nat)
    requires Off(s, id, n) && id <= s.templateCount && CreateTemplate(s, now, merchant, p, interval).Ok?
    ensures Off(CreateTemplate(s, now, merchant, p, interval).value, id, n)
  {
    EventSnoc(s.events, TemplateCreated(s.templateCount + 1, now), id);
  }

  lemma EditStepLeavesOff(s: Ledger, now: u64, call: EditCall, id: nat, n: nat)
    requires Off(s, id, n) && id <= s.templateCount && EditStep(s, now, call).Ok?
    requires !(call.CallSetTemplateActive? && call.id == id && call.active)
    ensures Off(EditStep(s, now, call).value, id, n)
  {
    match call
    case CallCreateTemplate(merchant, p, interval) => NewTemplateLeavesOff(s, now, merchant, p, interval, id, n);
    case CallSetTemplateActive(caller, t, active) => SwitchSets(s, caller, t, active);
    case _ => FieldEditsLeaveTemplates(s, now, call);
  }

  lemma RefundsLeaveTemplates(s: Ledger, now: u64, call: RefundCall)
    requires RefundStep(s, now, call).Ok?
    ensures SameTemplates(s, RefundStep(s, now, call).value)
  {
  }

  lemma AdminLeavesTemplates(s: Ledger, call: AdminCall)
    requires AdminStep(s, call).Ok?
    ensures SameTemplates(s, AdminStep(s, call).value)
  {
  }

  lemma StepLeavesOff(s: Ledger, e: Event, earlier: int, id: nat, n: nat)
    requires Off(s, id, n) && Scheduled(s, earlier) && !Activates(s, e, id)
    ensures Off(Step(s, e), id, n)
  {
    ScheduledIsDurable(s, earlier);
    assert ScheduleOk(s, id, earlier);
    if CallStep(s, e.now, e.call).Ok? {
      match e.call
      case Creating(c) => CreateStepLeavesOff(s, e.now, c, id, n);
      case Moving(c) => StatusStepLeavesOff(s, e.now, c, id, n);
      case Editing(c) => EditStepLeavesOff(s, e.now, c, id, n);
      case Refunding(c) => RefundsLeaveTemplates(s, e.now, c);
      case Managing(c) => AdminLeavesTemplates(s, c);
    }
  }

  /** From a point of a run at which a template is off until it is switched on, the keeper makes no invoice of it. */
  lemma {:induction false} DeactivatedIsLeftAlone(es: seq<Event>, i: nat, id: nat)
    requires Chronological(es) && i <= |es| && id in Run(es[..i]).templates && !Run(es[..i]).templates[id].active
    requires forall j :: i <= j < |es| ==> !Activates(Run(es[..j]), es[j], id)
    ensures id in Run(es).templates && !Run(es).templates[id].active
    ensures KeeperCount(Run(es).events, id) == KeeperCount(Run(es[..i]).events, id)
  {
    if i == |es| {
      assert es[..i] == es;
    } else {
      var front := es[..|es| - 1];
      assert front[..i] == es[..i];
      forall j | i <= j < |front| ensures !Activates(Run(front[..j]), front[j], id) { assert front[..j] == es[..j]; }
      DeactivatedIsLeftAlone(front, i, id);
      RunIsScheduled(front);
      assert es[..|es| - 1] == front;
      StepLeavesOff(Run(front), es[|es| - 1], LastTime(front), id, KeeperCount(Run(es[..i]).events, id));
    }
  }

  /** After any chronological run, a keeper call runs exactly the named templates that are stored, active and due. */
  lemma KeeperRunsExactlyTheDueOfRuns(es: seq<Event>, now: u64, ids: seq<nat>, id: nat)
    requires Chronological(es) && GenerateDue(Run(es), now, ids).Ok?
    ensures var s, s' := Run(es), GenerateDue(Run(es), now, ids).value;
            KeeperCount(s'.events, id) == KeeperCount(s.events, id) + (if id in ids && Due(s, now, id) then 1 else 0)
  {
    RunIsScheduled(es);
    ScheduledIsDurable(Run(es), LastTime(es));
    KeeperRunsExactlyTheDue(Run(es), now, ids, id);
  }
}
