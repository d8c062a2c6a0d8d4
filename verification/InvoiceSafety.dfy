/**
 What every invoice call keeps: the pending and merchant indexes are filters over all invoices, payment
 evidence is present exactly in the paid statuses, nonces are unique per merchant, and terminal invoices
 never change.
 */
module InvoiceSafety {
  import opened Common
  import opened BasisPoints
  import opened InvoiceSpec

  // ----- the invariant -----

  predicate HasPayment(status: InvoiceStatus) {
    status.Paid? || status.RefundRequested? || status.Released? || status.Refunded?
  }

  /** The status graph: every move the contract may make. */
  predicate LegalMove(from: InvoiceStatus, to: InvoiceStatus) {
    match from
    case Pending => to.Paid? || to.Expired? || to.Cancelled?
    case Paid => to.RefundRequested? || to.Released?
    case RefundRequested => to.Paid? || to.Refunded?
    case _ => false
  }

  ghost predicate AmountsOk(amount: int, gross: int) { USDC_FACTOR <= amount <= gross }

  ghost predicate RecordOk(s: Ledger, x: Invoice) {
    && AmountsOk(x.amount, x.gross)
    && (x.paidAt.Some? <==> HasPayment(x.status)) && (x.payer.Some? <==> HasPayment(x.status))
    && (x.nonce != 0 ==> (x.merchant, x.nonce) in s.nonces)
  }

  ghost predicate InvoiceOk(s: Ledger, id: nat) {
    && (id in s.invoices <==> 1 <= id <= s.count)
    && (id in s.invoices ==> s.invoices[id].id == id && RecordOk(s, s.invoices[id]))
  }

  function IsPending(s: Ledger): nat -> bool {
    (id: nat) => id in s.invoices && s.invoices[id].status.Pending?
  }

  function OwnedBy(s: Ledger, m: Address): nat -> bool {
    (id: nat) => id in s.invoices && s.invoices[id].merchant == m
  }

  /** All pending ids, and all ids of one merchant, by scanning every id handed out. */
  function PendingScan(s: Ledger): seq<nat> { Filter(Ids(s.count), IsPending(s)) }

  function MerchantScan(s: Ledger, m: Address): seq<nat> { Filter(Ids(s.count), OwnedBy(s, m)) }

  ghost predicate MerchantOk(s: Ledger, m: Address) {
    var scan := MerchantScan(s, m);
    Lookup(s.merchantCount, m, 0) == |scan| && Holds(s.merchantIndex, m, scan)
  }

  ghost predicate SameNonce(s: Ledger, i: nat, j: nat) {
    && i in s.invoices && j in s.invoices
    && s.invoices[i].merchant == s.invoices[j].merchant
    && s.invoices[i].nonce == s.invoices[j].nonce != 0
  }

  ghost predicate NoncesOk(s: Ledger) {
    forall i, j :: i != j ==> !SameNonce(s, i, j)
  }

  /** `r` is a refund breakdown of an invoice of that amount. */
  ghost predicate RefundsFrom(r: NetRefund, amount: i128) {
    exists bps: u32, fee: i128 :: NetRefundOf(amount, bps, fee) == Ok(r)
  }

  ghost predicate BreakdownOk(s: Ledger, id: nat) {
    id in s.breakdowns ==>
      && id in s.invoices && s.invoices[id].status.Refunded?
      && RefundsFrom(s.breakdowns[id], s.invoices[id].amount)
  }

  ghost predicate TemplateOk(s: Ledger, id: nat) {
    && (id in s.templates ==> 1 <= id <= s.templateCount && AmountsOk(s.templates[id].amount, s.templates[id].gross))
  }

  ghost predicate Sound(s: Ledger) {
    && (forall id :: InvoiceOk(s, id))
    && s.pendingIndex == PendingScan(s)
    && (forall m :: MerchantOk(s, m))
    && NoncesOk(s)
    && (forall id :: BreakdownOk(s, id))
    && (forall id :: TemplateOk(s, id))
  }

  /** An invoice keeps its merchant and nonce, and one in a terminal status never changes. */
  ghost predicate Kept(s: Ledger, s': Ledger, id: nat) {
    id in s.invoices ==>
      && id in s'.invoices
      && s'.invoices[id].merchant == s.invoices[id].merchant && s'.invoices[id].nonce == s.invoices[id].nonce
      && (IsTerminal(s.invoices[id].status) ==> s'.invoices[id] == s.invoices[id])
  }

  ghost predicate Evolves(s: Ledger, s': Ledger) { forall id :: Kept(s, s', id) }

  lemma EvolvesTrans(a: Ledger, b: Ledger, c: Ledger)
    requires Evolves(a, b) && Evolves(b, c)
    ensures Evolves(a, c)
  {
    forall id ensures Kept(a, c, id) { assert Kept(a, b, id) && Kept(b, c, id); }
  }

  /** The parts of the ledger the invariant reads. */
  ghost predicate SameInvoices(s: Ledger, s': Ledger) {
    && s'.invoices == s.invoices && s'.count == s.count && s'.nonces == s.nonces
    && s'.merchantCount == s.merchantCount && s'.merchantIndex == s.merchantIndex
    && s'.pendingIndex == s.pendingIndex && s'.breakdowns == s.breakdowns
  }

  lemma SameInvoicesKeeps(s: Ledger, s': Ledger)
    requires Sound(s) && SameInvoices(s, s') && (forall id :: TemplateOk(s', id))
    ensures Sound(s') && Evolves(s, s')
  {
    forall id ensures InvoiceOk(s', id) && BreakdownOk(s', id) && Kept(s, s', id) {
      assert InvoiceOk(s, id) && BreakdownOk(s, id);
    }
    FilterExt(Ids(s.count), IsPending(s), IsPending(s'));
    forall m ensures MerchantOk(s', m) {
      assert MerchantOk(s, m);
      FilterExt(Ids(s.count), OwnedBy(s, m), OwnedBy(s', m));
    }
    forall i, j | i != j ensures !SameNonce(s', i, j) { assert !SameNonce(s, i, j); }
  }

  // ----- creating -----

  lemma ScanSnoc(n: nat, p: nat -> bool, q: nat -> bool)
    requires forall id :: 1 <= id <= n ==> p(id) == q(id)
    ensures Filter<nat>(Ids(n + 1), q) == if q(n + 1) then Filter<nat>(Ids(n), p) + [n + 1] else Filter<nat>(Ids(n), p)
  {
    assert Ids(n + 1)[..n] == Ids(n);
    FilterExt(Ids(n), p, q);
  }

  /** The positions of one merchant hold `scan`. */
  ghost predicate Holds(index: map<(Address, nat), nat>, m: Address, scan: seq<nat>) {
    forall k :: 0 <= k < |scan| ==> (m, k) in index && index[(m, k)] == scan[k]
  }

  lemma HoldsSnoc(index: map<(Address, nat), nat>, m: Address, scan: seq<nat>, id: nat)
    requires Holds(index, m, scan)
    ensures Holds(index[(m, |scan|) := id], m, scan + [id])
  {
  }

  lemma HoldsOther(index: map<(Address, nat), nat>, m: Address, scan: seq<nat>, other: Address, k: nat, id: nat)
    requires Holds(index, m, scan) && other != m
    ensures Holds(index[(other, k) := id], m, scan)
  {
  }

  /** A new invoice of `merchant` takes the next id and the next position of its merchant. */
  lemma MerchantSnoc(s: Ledger, s': Ledger, merchant: Address, m: Address)
    requires MerchantOk(s, m) && MerchantOk(s, merchant) && s'.count == s.count + 1
    requires forall id :: 1 <= id <= s.count ==> OwnedBy(s, m)(id) == OwnedBy(s', m)(id)
    requires OwnedBy(s', m)(s'.count) <==> m == merchant
    requires s'.merchantIndex == s.merchantIndex[(merchant, Lookup(s.merchantCount, merchant, 0)) := s'.count]
    requires Lookup(s'.merchantCount, m, 0) as int
             == Lookup(s.merchantCount, m, 0) as int + (if m == merchant then 1 else 0)
    ensures MerchantOk(s', m)
  {
    ScanSnoc(s.count, OwnedBy(s, m), OwnedBy(s', m));
    var scan := MerchantScan(s, m);
    if m == merchant {
      HoldsSnoc(s.merchantIndex, m, scan, s'.count);
    } else {
      HoldsOther(s.merchantIndex, m, scan, merchant, Lookup(s.merchantCount, merchant, 0), s'.count);
    }
  }

  lemma CreateRecordAdds(s: Ledger, now: u64, merchant: Address, p: Params)
    requires CreateRecord(s, now, merchant, p).Ok?
    ensures var s' := CreateRecord(s, now, merchant, p).value;
            && s'.count == s.count + 1 && s'.count in s'.invoices
            && s'.invoices == s.invoices[s'.count := s'.invoices[s'.count]]
            && s'.invoices[s'.count].status.Pending? && s'.invoices[s'.count].merchant == merchant
            && s'.pendingIndex == s.pendingIndex + [s'.count]
  {
  }

  lemma CreateRecordPending(s: Ledger, now: u64, merchant: Address, p: Params)
    requires Sound(s) && CreateRecord(s, now, merchant, p).Ok?
    ensures var s' := CreateRecord(s, now, merchant, p).value; s'.pendingIndex == PendingScan(s')
  {
    CreateRecordAdds(s, now, merchant, p);
    assert InvoiceOk(s, s.count + 1);
    ScanSnoc(s.count, IsPending(s), IsPending(CreateRecord(s, now, merchant, p).value));
  }

  lemma CreateRecordMerchant(s: Ledger, now: u64, merchant: Address, p: Params, m: Address)
    requires Sound(s) && CreateRecord(s, now, merchant, p).Ok?
    ensures MerchantOk(CreateRecord(s, now, merchant, p).value, m)
  {
    CreateRecordAdds(s, now, merchant, p);
    assert InvoiceOk(s, s.count + 1);
    assert MerchantOk(s, m) && MerchantOk(s, merchant);
    MerchantSnoc(s, CreateRecord(s, now, merchant, p).value, merchant, m);
  }

  lemma CreateRecordKeeps(s: Ledger, now: u64, merchant: Address, p: Params)
    requires Sound(s) && CreateRecord(s, now, merchant, p).Ok?
    requires AmountsOk(p.amount, p.gross) && !NonceUsed(s, merchant, p.nonce)
    ensures var s' := CreateRecord(s, now, merchant, p).value; Sound(s') && Evolves(s, s')
  {
    var s' := CreateRecord(s, now, merchant, p).value;
    CreateRecordPending(s, now, merchant, p);
    forall m ensures MerchantOk(s', m) { CreateRecordMerchant(s, now, merchant, p, m); }
    assert InvoiceOk(s, s.count + 1);
    forall id ensures InvoiceOk(s', id) && BreakdownOk(s', id) && TemplateOk(s', id) && Kept(s, s', id) {
      assert InvoiceOk(s, id) && BreakdownOk(s, id) && TemplateOk(s, id);
    }
    forall i, j | i != j ensures !SameNonce(s', i, j) {
      assert !SameNonce(s, i, j) && InvoiceOk(s, i) && InvoiceOk(s, j);
    }
  }

  lemma ValidAmounts(p: Params)
    requires Validate(p).Pass?
    ensures AmountsOk(p.amount, p.gross)
  {
  }

  /** The nonces recorded by a batch are those of the ledger and of its own elements. */
  lemma {:induction false} CreateEachNonces(s: Ledger, now: u64, merchant: Address, ps: seq<Params>, n: u64)
    requires CreateEach(s, now, merchant, ps).Ok?
    ensures NonceUsed(CreateEach(s, now, merchant, ps).value, merchant, n) <==>
              NonceUsed(s, merchant, n) || (n != 0 && n in BatchNonces(ps))
  {
    if ps != [] { CreateEachNonces(s, now, merchant, ps[..|ps| - 1], n); }
  }

  lemma {:induction false} CreateEachKeeps(s: Ledger, now: u64, merchant: Address, ps: seq<Params>)
    requires Sound(s) && ValidateEach(s, merchant, ps).Pass? && CreateEach(s, now, merchant, ps).Ok?
    ensures var s' := CreateEach(s, now, merchant, ps).value; Sound(s') && Evolves(s, s')
  {
    if ps != [] {
      var front, p := ps[..|ps| - 1], ps[|ps| - 1];
      CreateEachKeeps(s, now, merchant, front);
      var mid := CreateEach(s, now, merchant, front).value;
      CreateEachNonces(s, now, merchant, front, p.nonce);
      ValidAmounts(p);
      CreateRecordKeeps(mid, now, merchant, p);
      EvolvesTrans(s, mid, CreateEach(s, now, merchant, ps).value);
    }
  }

  /** An invoice made from template `id`, whose schedule moves to `next`. */
  lemma TemplateRunKeeps(s: Ledger, now: u64, id: nat, next: u64, events: seq<TemplateEvent>)
    requires Sound(s) && id in s.templates
    requires CreateRecord(s, now, s.templates[id].merchant, TemplateParams(s.templates[id])).Ok?
    ensures var c := CreateRecord(s, now, s.templates[id].merchant, TemplateParams(s.templates[id])).value;
            var s' := c.(templates := s.templates[id := s.templates[id].(nextRunAt := next)], events := events);
            Sound(s') && Evolves(s, s')
  {
    var t := s.templates[id];
    var c := CreateRecord(s, now, t.merchant, TemplateParams(t)).value;
    var s' := c.(templates := s.templates[id := t.(nextRunAt := next)], events := events);
    assert TemplateOk(s, id);
    CreateRecordKeeps(s, now, t.merchant, TemplateParams(t));
    forall k ensures TemplateOk(s', k) { assert TemplateOk(s, k); }
    SameInvoicesKeeps(c, s');
    EvolvesTrans(s, c, s');
  }

  lemma RunIfDueKeeps(s: Ledger, now: u64, id: nat)
    requires Sound(s) && RunIfDue(s, now, id).Ok?
    ensures Sound(RunIfDue(s, now, id).value) && Evolves(s, RunIfDue(s, now, id).value)
  {
    if id in s.templates && s.templates[id].active && now >= s.templates[id].nextRunAt {
      var s' := RunIfDue(s, now, id).value;
      TemplateRunKeeps(s, now, id, s'.templates[id].nextRunAt, s'.events);
    }
  }

  lemma GenerateKeeps(s: Ledger, now: u64, merchant: Address, id: nat)
    requires Sound(s) && GenerateFromTemplate(s, now, merchant, id).Ok?
    ensures var s' := GenerateFromTemplate(s, now, merchant, id).value; Sound(s') && Evolves(s, s')
  {
    var s' := GenerateFromTemplate(s, now, merchant, id).value;
    TemplateRunKeeps(s, now, id, s.templates[id].nextRunAt, s'.events);
    assert s.templates[id := s.templates[id]] == s.templates;
  }

  lemma {:induction false} RunEachKeeps(s: Ledger, now: u64, ids: seq<nat>)
    requires Sound(s) && RunEach(s, now, ids).Ok?
    ensures Sound(RunEach(s, now, ids).value) && Evolves(s, RunEach(s, now, ids).value)
  {
    if ids != [] {
      RunEachKeeps(s, now, ids[..|ids| - 1]);
      var mid := RunEach(s, now, ids[..|ids| - 1]).value;
      RunIfDueKeeps(mid, now, ids[|ids| - 1]);
      EvolvesTrans(s, mid, RunEach(s, now, ids).value);
    }
  }

  lemma CreateStepKeeps(s: Ledger, now: u64, call: CreateCall)
    requires Sound(s) && CreateStep(s, now, call).Ok?
    ensures Sound(CreateStep(s, now, call).value) && Evolves(s, CreateStep(s, now, call).value)
  {
    match call
    case CallCreate(merchant, p) => ValidAmounts(p); CreateRecordKeeps(s, now, merchant, p);
    case CallBatchCreate(merchant, ps) => CreateEachKeeps(s, now, merchant, ps);
    case CallGenerate(merchant, id) => GenerateKeeps(s, now, merchant, id);
    case CallGenerateDue(ids) => RunEachKeeps(s, now, ids);
  }

  // ----- rewriting one invoice -----

  ghost predicate SameOrigin(x: Invoice, y: Invoice) {
    y.id == x.id && y.merchant == x.merchant && y.nonce == x.nonce
  }

  /** Invoice `id`, not terminal, is replaced by `x`; the pending index follows its status. */
  lemma RewriteKeeps(s: Ledger, s': Ledger, id: nat, x: Invoice)
    requires Sound(s) && id in s.invoices && !IsTerminal(s.invoices[id].status)
    requires SameOrigin(s.invoices[id], x) && RecordOk(s, x)
    requires x.status == s.invoices[id].status || !x.status.Pending?
    requires s'.invoices == s.invoices[id := x] && s'.count == s.count && s'.nonces == s.nonces
    requires s'.merchantCount == s.merchantCount && s'.merchantIndex == s.merchantIndex && s'.templates == s.templates
    requires s'.templateCount == s.templateCount
    requires s'.pendingIndex == if s.invoices[id].status.Pending? && !x.status.Pending?
                                then Without(s.pendingIndex, id) else s.pendingIndex
    requires forall k :: BreakdownOk(s', k)
    ensures Sound(s') && Evolves(s, s')
  {
    forall k ensures InvoiceOk(s', k) && TemplateOk(s', k) && Kept(s, s', k) {
      assert InvoiceOk(s, k) && TemplateOk(s, k);
    }
    forall m ensures MerchantOk(s', m) {
      assert MerchantOk(s, m);
      RewriteOwners(s, s', id, x, m);
    }
    forall i, j | i != j ensures !SameNonce(s', i, j) { assert !SameNonce(s, i, j); }
    RewritePending(s, s', id, x);
  }

  lemma RewriteOwners(s: Ledger, s': Ledger, id: nat, x: Invoice, m: Address)
    requires id in s.invoices && SameOrigin(s.invoices[id], x) && s'.invoices == s.invoices[id := x]
             && s'.count == s.count
    ensures MerchantScan(s', m) == MerchantScan(s, m)
  {
    FilterExt(Ids(s.count), OwnedBy(s, m), OwnedBy(s', m));
  }

  lemma RewritePending(s: Ledger, s': Ledger, id: nat, x: Invoice)
    requires s.pendingIndex == PendingScan(s) && id in s.invoices
    requires x.status == s.invoices[id].status || !x.status.Pending?
    requires s'.invoices == s.invoices[id := x] && s'.count == s.count
    requires s'.pendingIndex == if s.invoices[id].status.Pending? && !x.status.Pending?
                                then Without(s.pendingIndex, id) else s.pendingIndex
    ensures s'.pendingIndex == PendingScan(s')
  {
    var ids := Ids(s.count);
    if s.invoices[id].status.Pending? && !x.status.Pending? {
      FilterTwice(ids, IsPending(s), Differs(id));
      FilterExt(ids, Both(IsPending(s), Differs(id)), IsPending(s'));
    } else {
      FilterExt(ids, IsPending(s), IsPending(s'));
    }
  }

  /** A logged move along the status graph. */
  lemma MoveKeeps(s: Ledger, now: u64, id: nat, from: InvoiceStatus, x: Invoice)
    requires Sound(s) && id in s.invoices && s.invoices[id].status == from && LegalMove(from, x.status)
    requires SameOrigin(s.invoices[id], x) && x.amount == s.invoices[id].amount && x.gross == s.invoices[id].gross
    requires (x.paidAt.Some? <==> HasPayment(x.status)) && (x.payer.Some? <==> HasPayment(x.status))
    ensures var s' := MoveTo(s, now, id, from, x); Sound(s') && Evolves(s, s')
  {
    var s' := MoveTo(s, now, id, from, x);
    assert InvoiceOk(s, id);
    forall k ensures BreakdownOk(s', k) { assert BreakdownOk(s, k); }
    RewriteKeeps(s, s', id, x);
  }

  /** The status of invoice `id` changes and nothing else about it. */
  lemma StatusKeeps(s: Ledger, now: u64, id: nat, from: InvoiceStatus, status: InvoiceStatus)
    requires Sound(s) && id in s.invoices && s.invoices[id].status == from && LegalMove(from, status)
    requires HasPayment(from) == HasPayment(status)
    ensures var s' := MoveTo(s, now, id, from, s.invoices[id].(status := status)); Sound(s') && Evolves(s, s')
  {
    assert InvoiceOk(s, id);
    MoveKeeps(s, now, id, from, s.invoices[id].(status := status));
  }

  lemma {:induction false} ExpireEachKeeps(s: Ledger, now: u64, ids: seq<nat>)
    requires Sound(s)
    ensures Sound(ExpireEach(s, now, ids)) && Evolves(s, ExpireEach(s, now, ids))
  {
    if ids != [] {
      ExpireEachKeeps(s, now, ids[..|ids| - 1]);
      var mid, id := ExpireEach(s, now, ids[..|ids| - 1]), ids[|ids| - 1];
      if id in mid.invoices && mid.invoices[id].status.Pending? && now >= mid.invoices[id].expiresAt {
        StatusKeeps(mid, now, id, Pending, Expired);
        EvolvesTrans(s, mid, ExpireEach(s, now, ids));
      }
    }
  }

  /** What a batch cancellation has done to each invoice: those listed are cancelled, the others untouched. */
  lemma {:induction false} CancelEachAt(s: Ledger, now: u64, ids: seq<nat>, k: nat)
    requires forall i :: 0 <= i < |ids| ==> ids[i] in s.invoices
    ensures var s' := CancelEach(s, now, ids);
            && (k in s'.invoices <==> k in s.invoices)
            && (k in s.invoices ==>
                  s'.invoices[k] == if k in ids then s.invoices[k].(status := Cancelled) else s.invoices[k])
  {
    if ids != [] {
      var front, id := ids[..|ids| - 1], ids[|ids| - 1];
      CancelEachAt(s, now, front, k);
      assert k in ids <==> k in front || k == id by { assert ids == front + [id]; }
    }
  }

  /** Cancelling again an invoice the batch has already cancelled changes only its history. */
  lemma CancelAgain(s: Ledger, now: u64, id: nat, x: Invoice)
    requires Sound(s) && id in s.invoices && s.invoices[id] == x && x.status.Cancelled?
    ensures var s' := MoveTo(s, now, id, Pending, x);
            s' == s.(history := s'.history) && Sound(s') && Evolves(s, s')
  {
    var s' := MoveTo(s, now, id, Pending, x);
    FilterMembers(Ids(s.count), IsPending(s));
    assert forall i :: 0 <= i < |s.pendingIndex| ==> s.pendingIndex[i] in PendingScan(s);
    FilterAll(s.pendingIndex, Differs(id));
    assert s'.invoices == s.invoices;
    forall k ensures TemplateOk(s', k) { assert TemplateOk(s, k); }
    SameInvoicesKeeps(s, s');
  }

  lemma {:induction false} CancelEachKeeps(s: Ledger, now: u64, ids: seq<nat>)
    requires Sound(s)
    requires forall i :: 0 <= i < |ids| ==> ids[i] in s.invoices && s.invoices[ids[i]].status.Pending?
    ensures Sound(CancelEach(s, now, ids)) && Evolves(s, CancelEach(s, now, ids))
  {
    if ids != [] {
      var front, id := ids[..|ids| - 1], ids[|ids| - 1];
      CancelEachKeeps(s, now, front);
      CancelEachAt(s, now, front, id);
      var mid := CancelEach(s, now, front);
      if id in front {
        CancelAgain(mid, now, id, s.invoices[id].(status := Cancelled));
      } else {
        StatusKeeps(mid, now, id, Pending, Cancelled);
      }
      EvolvesTrans(s, mid, CancelEach(s, now, ids));
    }
  }

  lemma MarkPaidMoves(s: Ledger, now: u64, caller: Address, id: nat, payer: Address, hash: Option<Bytes>,
                      token: Option<Address>)
    requires MarkPaid(s, now, caller, id, payer, hash, token).Ok?
    ensures id in s.invoices && s.invoices[id].status.Pending?
    ensures MarkPaid(s, now, caller, id, payer, hash, token).value ==
            MoveTo(s, now, id, Pending, s.invoices[id].(status := Paid, paidAt := Some(now), payer := Some(payer)))
  {
  }

  lemma MarkPaidKeeps(s: Ledger, now: u64, caller: Address, id: nat, payer: Address, hash: Option<Bytes>,
                      token: Option<Address>)
    requires Sound(s) && MarkPaid(s, now, caller, id, payer, hash, token).Ok?
    ensures var s' := MarkPaid(s, now, caller, id, payer, hash, token).value; Sound(s') && Evolves(s, s')
  {
    var x := s.invoices[id].(status := Paid, paidAt := Some(now), payer := Some(payer));
    MarkPaidMoves(s, now, caller, id, payer, hash, token);
    MoveKeeps(s, now, id, Pending, x);
  }

  lemma RequestKeeps(s: Ledger, now: u64, payer: Address, id: nat)
    requires Sound(s) && RequestRefund(s, now, payer, id).Ok?
    ensures var s' := RequestRefund(s, now, payer, id).value; Sound(s') && Evolves(s, s')
  {
    var s' := RequestRefund(s, now, payer, id).value;
    StatusKeeps(s, now, id, Paid, RefundRequested);
    var mid := MoveTo(s, now, id, Paid, s.invoices[id].(status := RefundRequested));
    forall k ensures TemplateOk(s', k) { assert TemplateOk(mid, k); }
    SameInvoicesKeeps(mid, s');
    EvolvesTrans(s, mid, s');
  }

  lemma ProcessKeeps(s: Ledger, now: u64, caller: Address, id: nat, bps: u32, sent: bool)
    requires Sound(s) && ProcessRefund(s, now, caller, id, bps, sent).Ok?
    ensures var s' := ProcessRefund(s, now, caller, id, bps, sent).value; Sound(s') && Evolves(s, s')
  {
    var s' := ProcessRefund(s, now, caller, id, bps, sent).value;
    assert InvoiceOk(s, id);
    forall k ensures BreakdownOk(s', k) {
      assert BreakdownOk(s, k);
      if k == id { assert NetRefundOf(s.invoices[id].amount, bps, NetworkFee(s)) == Ok(s'.breakdowns[id]); }
    }
    RewriteKeeps(s, s', id, s.invoices[id].(status := Refunded));
  }

  lemma StatusStepKeeps(s: Ledger, now: u64, call: StatusCall)
    requires Sound(s) && StatusStep(s, now, call).Ok?
    ensures Sound(StatusStep(s, now, call).value) && Evolves(s, StatusStep(s, now, call).value)
  {
    match call
    case CallMarkPaid(caller, id, payer, hash, token) => MarkPaidKeeps(s, now, caller, id, payer, hash, token);
    case CallRelease(_, id) => StatusKeeps(s, now, id, Paid, Released);
    case CallCancel(_, id) => StatusKeeps(s, now, id, Pending, Cancelled);
    case CallBatchExpire(_, ids) => ExpireEachKeeps(s, now, ids);
    case CallBatchCancel(merchant, ids) => CheckedAreStored(s, merchant, ids); CancelEachKeeps(s, now, ids);
  }

  lemma RefundStepKeeps(s: Ledger, now: u64, call: RefundCall)
    requires Sound(s) && RefundStep(s, now, call).Ok?
    ensures Sound(RefundStep(s, now, call).value) && Evolves(s, RefundStep(s, now, call).value)
  {
    match call
    case CallRequestRefund(payer, id) => RequestKeeps(s, now, payer, id);
    case CallApproveRefund(_, id) => StatusKeeps(s, now, id, RefundRequested, Refunded);
    case CallProcessRefund(caller, id, bps, sent) => ProcessKeeps(s, now, caller, id, bps, sent);
    case CallRejectRefund(_, id) => StatusKeeps(s, now, id, RefundRequested, Paid);
  }

  // ----- editing -----

  /** Amount, expiry or payer of an invoice that is not terminal. */
  lemma FieldsKeep(s: Ledger, id: nat, x: Invoice)
    requires Sound(s) && id in s.invoices && !IsTerminal(s.invoices[id].status)
    requires SameOrigin(s.invoices[id], x) && x.status == s.invoices[id].status && AmountsOk(x.amount, x.gross)
    requires x.paidAt == s.invoices[id].paidAt && (x.payer.Some? <==> s.invoices[id].payer.Some?)
    ensures var s' := s.(invoices := s.invoices[id := x]); Sound(s') && Evolves(s, s')
  {
    var s' := s.(invoices := s.invoices[id := x]);
    assert InvoiceOk(s, id);
    forall k ensures BreakdownOk(s', k) { assert BreakdownOk(s, k); }
    RewriteKeeps(s, s', id, x);
  }

  lemma TemplateEditKeeps(s: Ledger, now: u64, call: EditCall)
    requires Sound(s) && EditStep(s, now, call).Ok? && (call.CallCreateTemplate? || call.CallSetTemplateActive?)
    ensures Sound(EditStep(s, now, call).value) && Evolves(s, EditStep(s, now, call).value)
  {
    var s' := EditStep(s, now, call).value;
    if call.CallCreateTemplate? { ValidAmounts(call.params); }
    forall k ensures TemplateOk(s', k) { assert TemplateOk(s, k); }
    SameInvoicesKeeps(s, s');
  }

  /** Initialising keeps the invariant exactly when no invoice had been created before. */
  lemma InitializeKeepsIff(s: Ledger, admin: Address)
    requires Sound(s) && Initialize(s, admin).Ok?
    ensures Sound(Initialize(s, admin).value) <==> s.count == 0
    ensures s.count == 0 ==> Evolves(s, Initialize(s, admin).value)
  {
    var s' := Initialize(s, admin).value;
    if s.count == 0 {
      forall k ensures TemplateOk(s', k) { assert TemplateOk(s, k); }
      SameInvoicesKeeps(s, s');
    } else {
      assert InvoiceOk(s, 1);
      assert !InvoiceOk(s', 1);
    }
  }

  lemma AmendKeeps(s: Ledger, now: u64, merchant: Address, id: nat, amount: i128, gross: i128, expiresIn: u64)
    requires Sound(s) && Amend(s, now, merchant, id, amount, gross, expiresIn).Ok?
    ensures var s' := Amend(s, now, merchant, id, amount, gross, expiresIn).value; Sound(s') && Evolves(s, s')
  {
    FieldsKeep(s, id, s.invoices[id].(amount := amount, gross := gross, expiresAt := now + expiresIn));
  }

  lemma ExtendKeeps(s: Ledger, caller: Address, id: nat, seconds: u64)
    requires Sound(s) && ExtendExpiry(s, caller, id, seconds).Ok?
    ensures var s' := ExtendExpiry(s, caller, id, seconds).value; Sound(s') && Evolves(s, s')
  {
    assert InvoiceOk(s, id);
    FieldsKeep(s, id, s.invoices[id].(expiresAt := s.invoices[id].expiresAt + seconds));
  }

  lemma TransferKeeps(s: Ledger, from: Address, id: nat, to: Address)
    requires Sound(s) && Transfer(s, from, id, to).Ok?
    ensures var s' := Transfer(s, from, id, to).value; Sound(s') && Evolves(s, s')
  {
    assert InvoiceOk(s, id);
    FieldsKeep(s, id, s.invoices[id].(payer := Some(to)));
  }

  lemma EditStepKeeps(s: Ledger, now: u64, call: EditCall)
    requires Sound(s) && EditStep(s, now, call).Ok?
    ensures Sound(EditStep(s, now, call).value) && Evolves(s, EditStep(s, now, call).value)
  {
    match call
    case CallAmend(merchant, id, amount, gross, expiresIn) =>
      AmendKeeps(s, now, merchant, id, amount, gross, expiresIn);
    case CallExtendExpiry(caller, id, seconds) => ExtendKeeps(s, caller, id, seconds);
    case CallTransfer(from, id, to) => TransferKeeps(s, from, id, to);
    case CallCreateTemplate(_, _, _) => TemplateEditKeeps(s, now, call);
    case CallSetTemplateActive(_, _, _) => TemplateEditKeeps(s, now, call);
  }

  lemma AdminStepKeeps(s: Ledger, call: AdminCall)
    requires Sound(s) && AdminStep(s, call).Ok?
    requires call.CallInitialize? ==> s.count == 0
    ensures Sound(AdminStep(s, call).value) && Evolves(s, AdminStep(s, call).value)
  {
    if call.CallInitialize? {
      InitializeKeepsIff(s, call.admin);
    } else {
      SettingKeeps(s, AdminStep(s, call).value);
    }
  }

  lemma SettingKeeps(s: Ledger, s': Ledger)
    requires Sound(s) && s' == s.(paused := s'.paused, graceWindow := s'.graceWindow, refundWindow := s'.refundWindow,
                                  networkFee := s'.networkFee)
    ensures Sound(s') && Evolves(s, s')
  {
    forall k ensures TemplateOk(s', k) { assert TemplateOk(s, k); }
    SameInvoicesKeeps(s, s');
  }

  /** The call resets the invoice counter. */
  predicate Initializes(call: Call) { call.Managing? && call.manage.CallInitialize? }

  /** One call, other than an initialisation that would reset a counter in use, keeps everything above. */
  lemma CallStepKeeps(s: Ledger, now: u64, call: Call)
    requires Sound(s) && CallStep(s, now, call).Ok?
    requires Initializes(call) ==> s.count == 0
    ensures Sound(CallStep(s, now, call).value) && Evolves(s, CallStep(s, now, call).value)
  {
    match call
    case Creating(c) => CreateStepKeeps(s, now, c);
    case Moving(c) => StatusStepKeeps(s, now, c);
    case Refunding(c) => RefundStepKeeps(s, now, c);
    case Editing(c) => EditStepKeeps(s, now, c);
    case Managing(c) => AdminStepKeeps(s, c);
  }
}
