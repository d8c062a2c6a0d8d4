/**
 The invoice contract as an object that updates its storage in place, with the loops of the source.
 Each entrypoint is proved to do exactly what its specification function says.
 */
module InvoiceContract {
  import opened Common
  import opened BasisPoints
  import opened InvoiceSpec
  import opened InvoiceSafety
  import InvoiceKeeper

  class Invoices {
    var store: Ledger

    constructor ()
      ensures store == EMPTY_LEDGER
    {
      store := EMPTY_LEDGER;
    }

    // ----- lib.rs -----

    method PendingIndexAdd(id: nat)
      modifies this`store
      ensures store == old(store).(pendingIndex := old(store).pendingIndex + [id])
    {
      store := store.(pendingIndex := store.pendingIndex + [id]);
    }

    method MerchantIndexAdd(merchant: Address, position: u64, id: nat)
      requires position < U64_MAX
      modifies this`store
      ensures store == old(store).(merchantIndex := old(store).merchantIndex[(merchant, position) := id],
                                   merchantCount := old(store).merchantCount[merchant := position + 1])
    {
      store := store.(merchantIndex := store.merchantIndex[(merchant, position) := id]);
      store := store.(merchantCount := store.merchantCount[merchant := position + 1]);
    }

    method PendingIndexRemove(id: nat)
      modifies this`store
      ensures store == old(store).(pendingIndex := Without(old(store).pendingIndex, id))
    {
      var ids, updated := store.pendingIndex, [];
      for i := 0 to |ids|
        invariant updated == Without(ids[..i], id)
      {
        assert ids[..i + 1][..i] == ids[..i];
        if ids[i] != id { updated := updated + [ids[i]]; }
      }
      assert ids[..|ids|] == ids;
      store := store.(pendingIndex := updated);
    }

    method AppendHistory(now: u64, id: nat, from: InvoiceStatus, to: InvoiceStatus)
      modifies this`store
      ensures store == old(store).(history := Logged(old(store), id, from, to, now))
    {
      var history := Lookup(store.history, id, []);
      history := history + [Transition(from, to, now)];
      store := store.(history := store.history[id := history]);
    }

    /** The writes every status change makes, in the order of the source. */
    method StoreMoved(now: u64, id: nat, from: InvoiceStatus, invoice: Invoice)
      modifies this`store
      ensures store == MoveTo(old(store), now, id, from, invoice)
    {
      store := store.(invoices := store.invoices[id := invoice]);
      if from.Pending? { PendingIndexRemove(id); }
      AppendHistory(now, id, from, invoice.status);
    }

    // ----- lifecycle.rs -----

    /** The writes creation makes once its checks have passed. */
    method StoreNew(id: u64, position: u64, x: Invoice)
      requires position < U64_MAX
      modifies this`store
      ensures store == Recorded(old(store), id, position, x)
    {
      if x.nonce != 0 { store := store.(nonces := store.nonces + {(x.merchant, x.nonce)}); }
      store := store.(invoices := store.invoices[id := x], count := id);
      MerchantIndexAdd(x.merchant, position, id);
      PendingIndexAdd(id);
    }

    method CreateInvoiceRecord(now: u64, merchant: Address, p: Params) returns (r: Result<nat, InvoiceError>)
      modifies this`store
      ensures Commits(r, CreateRecord(old(store), now, merchant, p), old(store), store)
      ensures r.Ok? ==> r.value == store.count
    {
      var _ :- Need(store.count < U64_MAX, InvoiceCountOverflow);
      var id := store.count + 1;
      var _ :- Need(now + p.expiresIn <= U64_MAX, ExpiryOverflow);
      var position := Lookup(store.merchantCount, merchant, 0);
      var _ :- Need(position < U64_MAX, ArithmeticOverflow);
      StoreNew(id, position, NewInvoice(id, now, merchant, p));
      return Ok(id);
    }

    method CreateInvoice(now: u64, merchant: Address, p: Params) returns (r: Result<nat, InvoiceError>)
      modifies this`store
      ensures Commits(r, Create(old(store), now, merchant, p), old(store), store)
      ensures r.Ok? ==> r.value == store.count == old(store).count + 1
    {
      var _ :- RequireNotPaused(store);
      var _ :- Validate(p);
      var _ :- Need(!NonceUsed(store, merchant, p.nonce), DuplicateNonce);
      r := CreateInvoiceRecord(now, merchant, p);
    }

    method MarkInvoicePaid(now: u64, caller: Address, id: nat, payer: Address, metadataHash: Option<Bytes>,
                           paymentToken: Option<Address>) returns (r: Result<Unit, InvoiceError>)
      modifies this`store
      ensures Commits(r, MarkPaid(old(store), now, caller, id, payer, metadataHash, paymentToken), old(store), store)
    {
      var _ :- RequireAdmin(store, caller);
      var _ :- RequireNotPaused(store);
      var invoice :- Find(store, id);
      var _ :- Need(invoice.status.Pending?, NotPending);
      var _ :- Need(payer != invoice.merchant, SelfPayNotAllowed);
      var _ :- Need(metadataHash.None? || metadataHash == invoice.metadataHash, MetadataMismatch);
      var _ :- Need(invoice.token.None? || paymentToken == invoice.token, TokenMismatch);
      var _ :- Need(now < EffectiveDeadline(store, invoice), PastDeadline);
      StoreMoved(now, id, Pending, invoice.(status := Paid, paidAt := Some(now), payer := Some(payer)));
      return Ok(Done);
    }

    method ReleaseEscrow(now: u64, caller: Address, id: nat) returns (r: Result<Unit, InvoiceError>)
      modifies this`store
      ensures Commits(r, Release(old(store), now, caller, id), old(store), store)
    {
      var _ :- RequireAdmin(store, caller);
      var _ :- RequireNotPaused(store);
      var invoice :- Find(store, id);
      var _ :- Need(invoice.status.Paid?, NotPaid);
      StoreMoved(now, id, Paid, invoice.(status := Released));
      return Ok(Done);
    }

    method CancelInvoice(now: u64, caller: Address, id: nat) returns (r: Result<Unit, InvoiceError>)
      modifies this`store
      ensures Commits(r, Cancel(old(store), now, caller, id), old(store), store)
    {
      var _ :- RequireNotPaused(store);
      var invoice :- Find(store, id);
      var _ :- Need(caller == invoice.merchant || store.admin == Some(caller), Unauthorized);
      var _ :- Need(invoice.status.Pending?, NotPending);
      StoreMoved(now, id, Pending, invoice.(status := Cancelled));
      return Ok(Done);
    }

    method AmendInvoice(now: u64, merchant: Address, id: nat, amount: i128, gross: i128, expiresIn: u64)
      returns (r: Result<Unit, InvoiceError>)
      modifies this`store
      ensures Commits(r, Amend(old(store), now, merchant, id, amount, gross, expiresIn), old(store), store)
    {
      var _ :- RequireNotPaused(store);
      var _ :- RequireAmounts(amount, gross);
      var _ :- RequireDuration(expiresIn);
      var invoice :- Find(store, id);
      var _ :- Need(invoice.merchant == merchant, Unauthorized);
      var _ :- Need(invoice.status.Pending?, NotPending);
      var _ :- Need(now + expiresIn <= U64_MAX, ExpiryOverflow);
      invoice := invoice.(amount := amount, gross := gross, expiresAt := now + expiresIn);
      store := store.(invoices := store.invoices[id := invoice]);
      return Ok(Done);
    }

    /** A page of the merchant's ids is the slice of the ids a scan over all invoices would find. */
    method GetInvoicesByMerchant(m: Address, start: u32, limit: u32) returns (page: seq<nat>)
      ensures MerchantOk(store, m) ==>
                var scan := MerchantScan(store, m);
                var lo := Min(start, |scan|);
                page == scan[lo..Min(lo + limit, |scan|)]
    {
      var total := Lookup(store.merchantCount, m, 0);
      var lo := Min(start, total);
      var hi := Min(lo + limit, total);
      page := [];
      for i := lo to hi
        invariant MerchantOk(store, m) ==> page == MerchantScan(store, m)[lo..i]
      {
        if (m, i) in store.merchantIndex { page := page + [store.merchantIndex[(m, i)]]; }
        assert MerchantOk(store, m) ==>
               MerchantScan(store, m)[lo..i + 1] == MerchantScan(store, m)[lo..i] + [MerchantScan(store, m)[i]];
      }
    }

    // ----- batch.rs -----

    /** The pass that checks a whole batch before anything is written, remembering the nonces it has seen. */
    method CheckBatch(merchant: Address, params: seq<Params>) returns (r: Guard<InvoiceError>)
      ensures r == ValidateEach(store, merchant, params)
    {
      var nonces: seq<u64> := [];
      for i := 0 to |params|
        invariant ValidateEach(store, merchant, params[..i]).Pass? && nonces == BatchNonces(params[..i])
      {
        var p := params[i];
        assert params[..i + 1][..i] == params[..i];
        var valid := Validate(p);
        if valid.Fail? {
          ValidateEachFails(store, merchant, params, i + 1);
          return valid;
        }
        if p.nonce != 0 {
          if (merchant, p.nonce) in store.nonces || p.nonce in nonces {
            ValidateEachFails(store, merchant, params, i + 1);
            return Fail(DuplicateNonce);
          }
          nonces := nonces + [p.nonce];
        }
      }
      assert params[..|params|] == params;
      return Pass;
    }

    /** The batch loop's own copy of the writes, with the nonce recorded after the invoice. */
    method StoreBatchElement(id: u64, position: u64, x: Invoice)
      requires position < U64_MAX
      modifies this`store
      ensures store == Recorded(old(store), id, position, x)
    {
      store := store.(invoices := store.invoices[id := x]);
      store := store.(count := id);
      if x.nonce != 0 { store := store.(nonces := store.nonces + {(x.merchant, x.nonce)}); }
      MerchantIndexAdd(x.merchant, position, id);
      PendingIndexAdd(id);
    }

    method CreateBatchElement(now: u64, merchant: Address, p: Params) returns (r: Result<nat, InvoiceError>)
      modifies this`store
      ensures Commits(r, CreateRecord(old(store), now, merchant, p), old(store), store)
      ensures r.Ok? ==> r.value == store.count
    {
      var count := store.count;
      var _ :- Need(count < U64_MAX, InvoiceCountOverflow);
      var _ :- Need(now + p.expiresIn <= U64_MAX, ExpiryOverflow);
      var invoice := NewInvoice(count + 1, now, merchant, p);
      var position := Lookup(store.merchantCount, merchant, 0);
      var _ :- Need(position < U64_MAX, ArithmeticOverflow);
      StoreBatchElement(count + 1, position, invoice);
      return Ok(count + 1);
    }

    method BatchCreateInvoice(now: u64, merchant: Address, params: seq<Params>)
      returns (r: Result<seq<nat>, InvoiceError>)
      modifies this`store
      ensures Commits(r, BatchCreate(old(store), now, merchant, params), old(store), store)
      ensures r.Ok? ==> |r.value| == |params|
      ensures r.Ok? ==> forall i :: 0 <= i < |params| ==> r.value[i] == old(store).count + i + 1
    {
      var _ :- RequireNotPaused(store);
      var valid := CheckBatch(merchant, params);
      var _ :- valid;
      var _ :- Need(store.count + |params| <= U64_MAX, InvoiceCountOverflow);
      var ids, before := [], store;
      for i := 0 to |params|
        invariant CreateEach(before, now, merchant, params[..i]) == Ok(store)
        invariant |ids| == i && store.count == before.count + i
        invariant forall k :: 0 <= k < i ==> ids[k] == before.count + k + 1
      {
        assert params[..i + 1][..i] == params[..i];
        var created := CreateBatchElement(now, merchant, params[i]);
        if created.Err? {
          CreateEachFails(before, now, merchant, params, i + 1, created.error);
          store := before;
          return Err(created.error);
        }
        ids := ids + [created.value];
      }
      assert params[..|params|] == params;
      return Ok(ids);
    }

    method ExpireElement(now: u64, id: nat) returns (done: bool)
      modifies this`store
      ensures store == ExpireIfDue(old(store), now, id) && done == IsDueIn(old(store), now)(id)
    {
      done := false;
      if id in store.invoices {
        var invoice := store.invoices[id];
        if invoice.status.Pending? && now >= invoice.expiresAt {
          StoreMoved(now, id, Pending, invoice.(status := Expired));
          done := true;
        }
      }
    }

    /** Returns how many invoices it expired: the named ones that were due, each once. */
    method BatchExpireInvoices(now: u64, caller: Address, ids: seq<nat>) returns (r: Result<nat, InvoiceError>)
      modifies this`store
      ensures Commits(r, BatchExpire(old(store), now, caller, ids), old(store), store)
      ensures r.Ok? ==> r.value == |FirstOccurrences(Filter(ids, IsDueIn(old(store), now)))|
    {
      var _ :- RequireAdmin(store, caller);
      var _ :- RequireNotPaused(store);
      var _ :- Need(|ids| <= MAX_BATCH_EXPIRE, BatchTooLarge);
      var expired := 0;
      for i := 0 to |ids|
        invariant store == ExpireEach(old(store), now, ids[..i])
        invariant expired == |FirstOccurrences(Filter(ids[..i], IsDueIn(old(store), now)))|
      {
        assert ids[..i + 1] == ids[..i] + [ids[i]] && ids[..i + 1][..i] == ids[..i];
        ExpiredNext(old(store), now, ids[..i], ids[i]);
        var done := ExpireElement(now, ids[i]);
        if done { expired := expired + 1; }
      }
      assert ids[..|ids|] == ids;
      return Ok(expired);
    }

    /** The first pass of a batch cancellation reads every record before any is written. */
    method ReadPending(merchant: Address, ids: seq<nat>) returns (r: Result<seq<Invoice>, InvoiceError>)
      ensures CheckEach(store, merchant, ids) == if r.Ok? then Pass else Fail(r.error)
      ensures r.Ok? ==> |r.value| == |ids|
      ensures r.Ok? ==>
                forall k :: 0 <= k < |ids| ==> ids[k] in store.invoices && r.value[k] == store.invoices[ids[k]]
    {
      var invoices: seq<Invoice> := [];
      for i := 0 to |ids|
        invariant CheckEach(store, merchant, ids[..i]).Pass? && |invoices| == i
        invariant forall k :: 0 <= k < i ==> ids[k] in store.invoices && invoices[k] == store.invoices[ids[k]]
      {
        var id := ids[i];
        assert ids[..i + 1][..i] == ids[..i];
        if id !in store.invoices {
          CheckEachFails(store, merchant, ids, i + 1);
          return Err(NotFound);
        }
        var invoice := store.invoices[id];
        if invoice.merchant != merchant {
          CheckEachFails(store, merchant, ids, i + 1);
          return Err(Unauthorized);
        }
        if !invoice.status.Pending? {
          CheckEachFails(store, merchant, ids, i + 1);
          return Err(NotPending);
        }
        invoices := invoices + [invoice];
      }
      assert ids[..|ids|] == ids;
      return Ok(invoices);
    }

    method BatchCancelInvoices(now: u64, merchant: Address, ids: seq<nat>) returns (r: Result<Unit, InvoiceError>)
      modifies this`store
      ensures Commits(r, BatchCancel(old(store), now, merchant, ids), old(store), store)
    {
      var _ :- RequireNotPaused(store);
      var _ :- Need(|ids| <= MAX_BATCH_SIZE, BatchTooLarge);
      var invoices :- ReadPending(merchant, ids);
      for i := 0 to |ids|
        invariant store == CancelEach(old(store), now, ids[..i])
      {
        assert ids[..i + 1][..i] == ids[..i];
        StoreMoved(now, ids[i], Pending, invoices[i].(status := Cancelled));
      }
      assert ids[..|ids|] == ids;
      return Ok(Done);
    }

    // ----- admin.rs and transfer.rs -----

    method ExtendInvoiceExpiry(caller: Address, id: nat, seconds: u64) returns (r: Result<Unit, InvoiceError>)
      modifies this`store
      ensures Commits(r, ExtendExpiry(old(store), caller, id, seconds), old(store), store)
    {
      var _ :- RequireAdmin(store, caller);
      var invoice :- Find(store, id);
      var _ :- Need(invoice.status.Pending?, NotPending);
      var expiresAt := invoice.expiresAt + seconds;
      var _ :- Need(expiresAt <= U64_MAX && expiresAt > invoice.expiresAt, ExpiryOverflow);
      store := store.(invoices := store.invoices[id := invoice.(expiresAt := expiresAt)]);
      return Ok(Done);
    }

    method TransferInvoice(from: Address, id: nat, to: Address) returns (r: Result<Unit, InvoiceError>)
      modifies this`store
      ensures Commits(r, Transfer(old(store), from, id, to), old(store), store)
    {
      var _ :- RequireNotPaused(store);
      var invoice :- Find(store, id);
      var _ :- Need(invoice.payer == Some(from), Unauthorized);
      var _ :- Need(invoice.status.Paid?, NotPaid);
      var _ :- Need(from != to, InvalidAmount);
      store := store.(invoices := store.invoices[id := invoice.(payer := Some(to))]);
      return Ok(Done);
    }

    // ----- refund.rs -----

    method RequestInvoiceRefund(now: u64, payer: Address, id: nat) returns (r: Result<Unit, InvoiceError>)
      modifies this`store
      ensures Commits(r, RequestRefund(old(store), now, payer, id), old(store), store)
    {
      var _ :- RequireNotPaused(store);
      var invoice :- Find(store, id);
      var _ :- Need(invoice.status.Paid?, NotPaid);
      var _ :- Need(invoice.payer == Some(payer), Unauthorized);
      if store.refundWindow > 0 && invoice.paidAt.Some? {
        var deadline := Min(invoice.paidAt.value + store.refundWindow, U64_MAX);
        var _ :- Need(now < deadline, RefundWindowClosed);
      }
      store := store.(requestedAt := store.requestedAt[id := now]);
      StoreMoved(now, id, Paid, invoice.(status := RefundRequested));
      return Ok(Done);
    }

    method ApproveInvoiceRefund(now: u64, caller: Address, id: nat) returns (r: Result<Unit, InvoiceError>)
      modifies this`store
      ensures Commits(r, ApproveRefund(old(store), now, caller, id), old(store), store)
    {
      var _ :- RequireAdmin(store, caller);
      var _ :- RequireNotPaused(store);
      var invoice :- FindRequested(store, id);
      StoreMoved(now, id, RefundRequested, invoice.(status := Refunded));
      return Ok(Done);
    }

    method ProcessInvoiceRefund(now: u64, caller: Address, id: nat, bps: u32, sent: bool)
      returns (r: Result<NetRefund, InvoiceError>)
      modifies this`store
      ensures Commits(r, ProcessRefund(old(store), now, caller, id, bps, sent), old(store), store)
      ensures r.Ok? ==> id in store.breakdowns && r.value == store.breakdowns[id]
    {
      var _ :- RequireAdmin(store, caller);
      var _ :- RequireNotPaused(store);
      var invoice :- FindRequested(store, id);
      var _ :- Need(invoice.token.Some?, RefundTokenNotSet);
      var refund :- RefundOf(invoice.amount, bps, NetworkFee(store));
      var _ :- Need(sent, RefundTransferFailed);
      store := store.(breakdowns := store.breakdowns[id := refund]);
      StoreMoved(now, id, RefundRequested, invoice.(status := Refunded));
      return Ok(refund);
    }

    method RejectInvoiceRefund(now: u64, caller: Address, id: nat) returns (r: Result<Unit, InvoiceError>)
      modifies this`store
      ensures Commits(r, RejectRefund(old(store), now, caller, id), old(store), store)
    {
      var _ :- RequireAdmin(store, caller);
      var _ :- RequireNotPaused(store);
      var invoice :- FindRequested(store, id);
      StoreMoved(now, id, RefundRequested, invoice.(status := Paid));
      return Ok(Done);
    }

    // ----- template.rs -----

    method RegisterTemplate(now: u64, merchant: Address, p: Params, interval: Interval)
      returns (r: Result<nat, InvoiceError>)
      modifies this`store
      ensures Commits(r, CreateTemplate(old(store), now, merchant, p, interval), old(store), store)
      ensures r.Ok? ==> r.value == store.templateCount == old(store).templateCount + 1
    {
      var _ :- RequireNotPaused(store);
      var _ :- Validate(p);
      var _ :- Need(store.templateCount < U64_MAX, InvoiceCountOverflow);
      var id := store.templateCount + 1;
      var next := now + PeriodSeconds(interval);
      var _ :- Need(next <= U64_MAX, ExpiryOverflow);
      var t := Template(id, merchant, p.amount, p.gross, interval, p.expiresIn, p.metadataHash, p.linkHash, true, next);
      store := store.(templates := store.templates[id := t], templateCount := id);
      var ids := Lookup(store.merchantTemplates, merchant, []) + [id];
      store := store.(merchantTemplates := store.merchantTemplates[merchant := ids]);
      store := store.(events := store.events + [TemplateCreated(id, now)]);
      return Ok(id);
    }

    method GenerateOnDemand(now: u64, merchant: Address, id: nat) returns (r: Result<nat, InvoiceError>)
      modifies this`store
      ensures Commits(r, GenerateFromTemplate(old(store), now, merchant, id), old(store), store)
      ensures r.Ok? ==> r.value == store.count == old(store).count + 1
    {
      var _ :- RequireNotPaused(store);
      var _ :- Need(id in store.templates, NotFound);
      var t := store.templates[id];
      var _ :- Need(t.merchant == merchant, Unauthorized);
      var _ :- Need(t.active, TemplateDisabled);
      r := CreateInvoiceRecord(now, t.merchant, TemplateParams(t));
      if r.Ok? { store := store.(events := store.events + [TemplateGenerated(id, r.value, now, false)]); }
    }

    /** The permissionless keeper, with its inner loop that advances the schedule past `now`. */
    method GenerateDueInvoices(now: u64, ids: seq<nat>) returns (r: Result<nat, InvoiceError>)
      modifies this`store
      ensures Commits(r, GenerateDue(old(store), now, ids), old(store), store)
      ensures r.Ok? ==> store.count == old(store).count + r.value
    {
      var _ :- Need(|ids| <= KEEPER_BATCH_SIZE, BatchTooLarge);
      var _ :- RequireNotPaused(store);
      var generated, before := 0, store;
      for i := 0 to |ids|
        invariant RunEach(before, now, ids[..i]) == Ok(store) && store.count == before.count + generated
      {
        var id := ids[i];
        assert ids[..i + 1][..i] == ids[..i];
        if id in store.templates && store.templates[id].active && now >= store.templates[id].nextRunAt {
          var t := store.templates[id];
          var created := CreateInvoiceRecord(now, t.merchant, TemplateParams(t));
          if created.Err? {
            RunEachFails(before, now, ids, i + 1, created.error);
            store := before;
            return Err(created.error);
          }
          var next := AdvanceSchedule(t.nextRunAt, t.interval, now);
          store := store.(templates := store.templates[id := t.(nextRunAt := next)]);
          store := store.(events := store.events + [TemplateGenerated(id, created.value, now, true)]);
          generated := generated + 1;
        }
      }
      assert ids[..|ids|] == ids;
      return Ok(generated);
    }
  }

  function IsDueIn(s: Ledger, now: u64): nat -> bool {
    (id: nat) => id in s.invoices && s.invoices[id].status.Pending? && now >= s.invoices[id].expiresAt
  }

  lemma {:induction false} ExpireEachAt(s: Ledger, now: u64, ids: seq<nat>, id: nat)
    ensures IsDueIn(ExpireEach(s, now, ids), now)(id) <==> IsDueIn(s, now)(id) && id !in ids
  {
    if ids != [] {
      var front, last := ids[..|ids| - 1], ids[|ids| - 1];
      ExpireEachAt(s, now, front, id);
      assert id in ids <==> id in front || id == last by { assert ids == front + [last]; }
    }
  }

  /** The next id is due exactly when it was due at the start and has not been expired. */
  lemma ExpiredNext(s: Ledger, now: u64, ids: seq<nat>, id: nat)
    ensures var due := IsDueIn(s, now);
            FirstOccurrences(Filter(ids + [id], due))
            == FirstOccurrences(Filter(ids, due)) + (if IsDueIn(ExpireEach(s, now, ids), now)(id) then [id] else [])
  {
    ExpireEachAt(s, now, ids, id);
    FirstPassing(ids, id, IsDueIn(s, now));
  }

  /** Adds the period until the run time is after `now`, stopping at the largest time when the addition overflows. */
  method AdvanceSchedule(start: u64, interval: Interval, now: u64) returns (next: u64)
    requires start <= now
    ensures next == Advance(start, PeriodSeconds(interval), now)
    ensures next > now || next == U64_MAX
  {
    var period := PeriodSeconds(interval);
    InvoiceKeeper.AdvanceIsLeast(start, interval, now);
    next := start;
    ghost var k := 0;
    while next <= now
      invariant next == start + k * period && k <= (now - start) / period + 1
      decreases now + period - next
    {
      WholeSteps(start, interval, now, k);
      if next + period > U64_MAX {
        next := U64_MAX;
        return;
      }
      next := next + period;
      k := k + 1;
    }
    WholeSteps(start, interval, now, k);
  }

  /** Stepping from `start`, the first point after `now` is reached after (now - start) / period + 1 steps. */
  lemma WholeSteps(start: u64, interval: Interval, now: u64, k: nat)
    requires start <= now && k <= (now - start) / PeriodSeconds(interval) + 1
    ensures var p := PeriodSeconds(interval);
            && (k + 1) * p == k * p + p
            && (start + k * p <= now <==> k <= (now - start) / p)
            && (start + k * p <= now && start + k * p + p > U64_MAX ==> k == (now - start) / p)
  {
    match interval
    case Daily =>
    case Weekly =>
    case Monthly =>
  }

  lemma {:induction false} ValidateEachFails(s: Ledger, merchant: Address, ps: seq<Params>, n: nat)
    requires n <= |ps| && ValidateEach(s, merchant, ps[..n]).Fail?
    ensures ValidateEach(s, merchant, ps) == ValidateEach(s, merchant, ps[..n])
  {
    if n == |ps| {
      assert ps[..n] == ps;
    } else {
      assert ps[..|ps| - 1][..n] == ps[..n];
      ValidateEachFails(s, merchant, ps[..|ps| - 1], n);
    }
  }

  lemma {:induction false} CheckEachFails(s: Ledger, merchant: Address, ids: seq<nat>, n: nat)
    requires n <= |ids| && CheckEach(s, merchant, ids[..n]).Fail?
    ensures CheckEach(s, merchant, ids) == CheckEach(s, merchant, ids[..n])
  {
    if n == |ids| {
      assert ids[..n] == ids;
    } else {
      assert ids[..|ids| - 1][..n] == ids[..n];
      CheckEachFails(s, merchant, ids[..|ids| - 1], n);
    }
  }

  lemma {:induction false} CreateEachFails(s: Ledger, now: u64, merchant: Address, ps: seq<Params>, n: nat,
                                           e: InvoiceError)
    requires n <= |ps| && CreateEach(s, now, merchant, ps[..n]) == Err(e)
    ensures CreateEach(s, now, merchant, ps) == Err(e)
  {
    if n == |ps| {
      assert ps[..n] == ps;
    } else {
      assert ps[..|ps| - 1][..n] == ps[..n];
      CreateEachFails(s, now, merchant, ps[..|ps| - 1], n, e);
    }
  }

  lemma {:induction false} RunEachFails(s: Ledger, now: u64, ids: seq<nat>, n: nat, e: InvoiceError)
    requires n <= |ids| && RunEach(s, now, ids[..n]) == Err(e)
    ensures RunEach(s, now, ids) == Err(e)
  {
    if n == |ids| {
      assert ids[..n] == ids;
    } else {
      assert ids[..|ids| - 1][..n] == ids[..n];
      RunEachFails(s, now, ids[..|ids| - 1], n, e);
    }
  }
}
