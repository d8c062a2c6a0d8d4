/** The payer of an invoice and its merchant: different until a transfer makes them equal. */
module InvoicePayer {
  import opened Common
  import opened InvoiceSpec
  import opened InvoiceSafety
  import opened InvoiceRuns

  /** The merchant has not paid invoice `id` itself. */
  ghost predicate PayerOk(s: Ledger, id: nat) {
    id in s.invoices ==> s.invoices[id].payer != Some(s.invoices[id].merchant)
  }

  ghost predicate PaidByOthers(s: Ledger) { forall id :: PayerOk(s, id) }

  /** Invoice `id` has no payer, or the payer and the merchant it had before. */
  ghost predicate PayerKept(s: Ledger, s': Ledger, id: nat) {
    id in s'.invoices ==>
      || s'.invoices[id].payer.None?
      || (id in s.invoices && s'.invoices[id].payer == s.invoices[id].payer
          && s'.invoices[id].merchant == s.invoices[id].merchant)
  }

  lemma {:induction false} CreateEachKeepsPayers(s: Ledger, now: u64, merchant: Address, ps: seq<Params>, id: nat)
    requires CreateEach(s, now, merchant, ps).Ok?
    ensures PayerKept(s, CreateEach(s, now, merchant, ps).value, id)
  {
    if ps != [] { CreateEachKeepsPayers(s, now, merchant, ps[..|ps| - 1], id); }
  }

  lemma {:induction false} RunEachKeepsPayers(s: Ledger, now: u64, ids: seq<nat>, id: nat)
    requires RunEach(s, now, ids).Ok?
    ensures PayerKept(s, RunEach(s, now, ids).value, id)
  {
    if ids != [] { RunEachKeepsPayers(s, now, ids[..|ids| - 1], id); }
  }

  lemma {:induction false} ExpireEachKeepsPayers(s: Ledger, now: u64, ids: seq<nat>, id: nat)
    ensures PayerKept(s, ExpireEach(s, now, ids), id)
  {
    if ids != [] { ExpireEachKeepsPayers(s, now, ids[..|ids| - 1], id); }
  }

  lemma CreateStepKeepsPayers(s: Ledger, now: u64, call: CreateCall, id: nat)
    requires CreateStep(s, now, call).Ok?
    ensures PayerKept(s, CreateStep(s, now, call).value, id)
  {
    match call
    case CallBatchCreate(merchant, ps) => CreateEachKeepsPayers(s, now, merchant, ps, id);
    case CallGenerateDue(ids) => RunEachKeepsPayers(s, now, ids, id);
    case CallCreate(_, _) =>
    case CallGenerate(_, _) =>
  }

  lemma StatusStepKeepsPayers(s: Ledger, now: u64, call: StatusCall, id: nat)
    requires StatusStep(s, now, call).Ok?
    ensures PayerOk(s, id) ==> PayerOk(StatusStep(s, now, call).value, id)
  {
    match call
    case CallBatchExpire(_, ids) => ExpireEachKeepsPayers(s, now, ids, id);
    case CallBatchCancel(merchant, ids) =>
      CheckedAreStored(s, merchant, ids);
      CancelEachAt(s, now, ids, id);
    case CallMarkPaid(_, _, _, _, _) =>
    case CallRelease(_, _) =>
    case CallCancel(_, _) =>
  }

  lemma RefundStepKeepsPayers(s: Ledger, now: u64, call: RefundCall, id: nat)
    requires RefundStep(s, now, call).Ok?
    ensures PayerKept(s, RefundStep(s, now, call).value, id)
  {
  }

  /** Handing an invoice over keeps payer and merchant different exactly when it does not go to the merchant. */
  lemma TransferKeepsPayersIff(s: Ledger, from: Address, id: nat, to: Address)
    requires PaidByOthers(s) && Transfer(s, from, id, to).Ok?
    ensures PaidByOthers(Transfer(s, from, id, to).value) <==> to != s.invoices[id].merchant
  {
    var s' := Transfer(s, from, id, to).value;
    if to == s.invoices[id].merchant {
      assert !PayerOk(s', id);
    } else {
      forall k ensures PayerOk(s', k) { assert PayerOk(s, k); }
    }
  }

  lemma EditStepKeepsPayers(s: Ledger, now: u64, call: EditCall)
    requires PaidByOthers(s) && EditStep(s, now, call).Ok?
    requires call.CallTransfer? && call.id in s.invoices ==> call.to != s.invoices[call.id].merchant
    ensures PaidByOthers(EditStep(s, now, call).value)
  {
    if call.CallTransfer? {
      TransferKeepsPayersIff(s, call.from, call.id, call.to);
    } else {
      var s' := EditStep(s, now, call).value;
      forall k ensures PayerOk(s', k) { assert PayerOk(s, k); }
    }
  }

  /** The call hands an invoice over to its merchant. */
  ghost predicate ToMerchant(s: Ledger, call: Call) {
    && call.Editing? && call.edit.CallTransfer?
    && call.edit.id in s.invoices && call.edit.to == s.invoices[call.edit.id].merchant
  }

  lemma OtherStepKeepsPayers(s: Ledger, now: u64, call: Call, id: nat)
    requires PayerOk(s, id) && CallStep(s, now, call).Ok? && !call.Editing?
    ensures PayerOk(CallStep(s, now, call).value, id)
  {
    match call
    case Creating(c) => CreateStepKeepsPayers(s, now, c, id);
    case Moving(c) => StatusStepKeepsPayers(s, now, c, id);
    case Refunding(c) => RefundStepKeepsPayers(s, now, c, id);
    case Managing(c) => AdminStepKeepsPayers(s, c, id);
  }

  lemma AdminStepKeepsPayers(s: Ledger, call: AdminCall, id: nat)
    requires AdminStep(s, call).Ok?
    ensures PayerKept(s, AdminStep(s, call).value, id)
  {
  }

  lemma CallStepKeepsPayers(s: Ledger, now: u64, call: Call)
    requires PaidByOthers(s) && CallStep(s, now, call).Ok? && !ToMerchant(s, call)
    ensures PaidByOthers(CallStep(s, now, call).value)
  {
    if call.Editing? {
      EditStepKeepsPayers(s, now, call.edit);
    } else {
      forall id ensures PayerOk(CallStep(s, now, call).value, id) {
        assert PayerOk(s, id);
        OtherStepKeepsPayers(s, now, call, id);
      }
    }
  }

  /** No call of the run hands an invoice over to its merchant. */
  ghost predicate NeverToMerchant(es: seq<Event>) {
    forall i :: 0 <= i < |es| ==> !ToMerchant(Run(es[..i]), es[i].call)
  }

  /** In every such run no invoice is recorded as paid by its own merchant. */
  lemma {:induction false} MerchantNeverPays(es: seq<Event>)
    requires NeverToMerchant(es)
    ensures PaidByOthers(Run(es))
  {
    if es == [] {
      assert forall id :: PayerOk(EMPTY_LEDGER, id);
    } else {
      var front, e := es[..|es| - 1], es[|es| - 1];
      assert NeverToMerchant(front) by {
        forall i | 0 <= i < |front| ensures !ToMerchant(Run(front[..i]), front[i].call) {
          assert front[..i] == es[..i] && !ToMerchant(Run(es[..i]), es[i].call);
        }
      }
      MerchantNeverPays(front);
      assert es[..|es| - 1] == front && !ToMerchant(Run(front), e.call);
      if CallStep(Run(front), e.now, e.call).Ok? { CallStepKeepsPayers(Run(front), e.now, e.call); }
    }
  }

  const BUYER: Address := Account(3)

  const HANDED_OVER: seq<Event> := [
    Event(5, Managing(CallInitialize(ADMIN))),
    Event(6, Creating(CallCreate(MERCHANT, TEN_USDC))),
    Event(7, Moving(CallMarkPaid(ADMIN, 1, BUYER, None, None))),
    Event(8, Editing(CallTransfer(BUYER, 1, MERCHANT)))
  ]

  /** What the last two calls do to a ledger with the one pending invoice. */
  lemma PaidThenHandedOver(s: Ledger)
    requires s.admin == Some(ADMIN) && !s.paused && 1 in s.invoices
             && s.invoices[1] == NewInvoice(1, 6, MERCHANT, TEN_USDC)
    ensures MarkPaid(s, 7, ADMIN, 1, BUYER, None, None).Ok?
    ensures var paid := MarkPaid(s, 7, ADMIN, 1, BUYER, None, None).value;
            && Transfer(paid, BUYER, 1, MERCHANT).Ok?
            && var x := Transfer(paid, BUYER, 1, MERCHANT).value;
            && 1 in x.invoices && x.invoices[1].status.Paid? && x.invoices[1].payer == Some(MERCHANT)
            && x.invoices[1].merchant == MERCHANT
  {
  }

  lemma AfterCreation()
    ensures var s := Run([HANDED_OVER[0], HANDED_OVER[1]]);
            && s.admin == Some(ADMIN) && !s.paused
            && 1 in s.invoices && s.invoices[1] == NewInvoice(1, 6, MERCHANT, TEN_USDC)
  {
    var e1, e2 := HANDED_OVER[0], HANDED_OVER[1];
    RunSnoc([], e1);
    RunSnoc([e1], e2);
    assert [] + [e1] == [e1] && [e1] + [e2] == [e1, e2];
    assert Run([e1]) == EMPTY_LEDGER.(admin := Some(ADMIN));
  }

  /** An invoice handed over to its merchant is recorded as paid by the merchant. */
  lemma HandedToMerchant()
    ensures var s := Run(HANDED_OVER);
            1 in s.invoices && s.invoices[1].status.Paid? && s.invoices[1].payer == Some(s.invoices[1].merchant)
  {
    var e1, e2, e3, e4 := HANDED_OVER[0], HANDED_OVER[1], HANDED_OVER[2], HANDED_OVER[3];
    AfterCreation();
    PaidThenHandedOver(Run([e1, e2]));
    RunSnoc([e1, e2], e3);
    RunSnoc([e1, e2, e3], e4);
    assert [e1, e2] + [e3] == [e1, e2, e3] && [e1, e2, e3] + [e4] == HANDED_OVER;
  }
}
