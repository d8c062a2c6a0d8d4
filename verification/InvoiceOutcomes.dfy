/** After any run: exactly which calls on the invoice contract succeed. */
module InvoiceOutcomes {
  import opened Common
  import opened InvoiceSpec
  import opened InvoiceSafety
  import opened InvoiceCreation
  import opened InvoiceCalls
  import opened InvoiceRuns
  import KeeperRuns

  ghost predicate CreateEnabled(s: Ledger, now: u64, call: CreateCall) {
    && !s.paused
    && match call
       case CallCreate(merchant, p) =>
         && ValidParams(p) && (p.nonce != 0 ==> (merchant, p.nonce) !in s.nonces)
         && s.count < U64_MAX && now + p.expiresIn <= U64_MAX
       case CallBatchCreate(merchant, ps) =>
         ValidBatch(s, merchant, ps) && s.count + |ps| <= U64_MAX && AllExpire(now, ps)
       case CallGenerate(merchant, id) =>
         && id in s.templates && s.templates[id].merchant == merchant && s.templates[id].active
         && s.count < U64_MAX && now + s.templates[id].expiresIn <= U64_MAX
       case CallGenerateDue(ids) => |ids| <= 20 && KeeperRuns.RoomFor(s, now, ids)
  }

  ghost predicate Enabled(s: Ledger, now: u64, call: Call) {
    match call
    case Creating(c) => CreateEnabled(s, now, c)
    case Moving(c) => StatusEnabled(s, now, c)
    case Refunding(c) => RefundEnabled(s, now, c)
    case Editing(c) => EditEnabled(s, now, c)
    case Managing(c) => AdminEnabled(s, c)
  }

  lemma CreateStepOkIff(s: Ledger, now: u64, call: CreateCall)
    requires Sound(s) && KeeperRuns.Durable(s)
    ensures CreateStep(s, now, call).Ok? <==> CreateEnabled(s, now, call)
  {
    match call
    case CallCreate(merchant, p) => CreateOkIff(s, now, merchant, p);
    case CallBatchCreate(merchant, ps) => BatchCreateOkIff(s, now, merchant, ps);
    case CallGenerate(_, id) =>
      if id in s.templates { CreateRecordOkIff(s, now, s.templates[id].merchant, TemplateParams(s.templates[id])); }
    case CallGenerateDue(ids) => KeeperRuns.KeeperOkIff(s, now, ids);
  }

  /** After any chronological run initialised first, a call succeeds exactly when it is enabled. */
  lemma CallOkIff(es: seq<Event>, now: u64, call: Call)
    requires InitializedFirst(es) && Chronological(es)
    ensures CallStep(Run(es), now, call).Ok? <==> Enabled(Run(es), now, call)
  {
    RunIsSound(es);
    RunIsScheduled(es);
    KeeperRuns.ScheduledIsDurable(Run(es), LastTime(es));
    match call
    case Creating(c) => CreateStepOkIff(Run(es), now, c);
    case Moving(c) => StatusStepOkIff(Run(es), now, c);
    case Refunding(c) => RefundStepOkIff(Run(es), now, c);
    case Editing(c) => EditStepOkIff(Run(es), now, c);
    case Managing(c) => AdminStepSets(Run(es), c);
  }
}
