/**
 The invoice contract (contracts/invoice/src): records, guards and one function per entrypoint.
 `Err` means that the call rolled back. The payer index is not part of this model.
 */
module InvoiceSpec {
  import opened Common
  import opened BasisPoints

  type Bytes = seq<bv8>

  datatype InvoiceError =
    | AlreadyInitialized | Unauthorized | ContractPaused | InvalidAmount | AmountPrecision | HashTooLong
    | InvalidPaymentLinkHash | ZeroDuration | ExpiryTooLong | DuplicateNonce | InvoiceCountOverflow | ExpiryOverflow
    | NotFound | NotPending | SelfPayNotAllowed | MetadataMismatch | TokenMismatch | PastDeadline | NotPaid
    | BatchTooLarge | RefundWindowClosed | NotRefundRequested | PaymentStateInconsistent | RefundTokenNotSet
    | RefundFeeTooHigh | ArithmeticOverflow | RefundTransferFailed | TemplateDisabled

  datatype InvoiceStatus = Pending | Paid | Expired | Cancelled | RefundRequested | Released | Refunded

  predicate IsTerminal(status: InvoiceStatus) {
    match status
    case Pending => false
    case Paid => false
    case Expired => true
    case Cancelled => true
    case RefundRequested => false
    case Released => true
    case Refunded => true
  }

  datatype Invoice = Invoice(
    id: nat, merchant: Address, amount: i128, gross: i128, status: InvoiceStatus, expiresAt: u64,
    paidAt: Option<u64>, payer: Option<Address>, metadataHash: Option<Bytes>, linkHash: Option<Bytes>,
    nonce: u64, token: Option<Address>)

  datatype Params = Params(
    amount: i128, gross: i128, expiresIn: u64, metadataHash: Option<Bytes>, linkHash: Option<Bytes>,
    nonce: u64, token: Option<Address>)

  datatype Transition = Transition(from: InvoiceStatus, to: InvoiceStatus, at: u64)

  datatype Interval = Daily | Weekly | Monthly

  function PeriodSeconds(i: Interval): u64 {
    match i
    case Daily => 86_400
    case Weekly => 604_800
    case Monthly => 2_592_000
  }

  datatype Template = Template(
    id: nat, merchant: Address, amount: i128, gross: i128, interval: Interval, expiresIn: u64,
    metadataHash: Option<Bytes>, linkHash: Option<Bytes>, active: bool, nextRunAt: u64)

  /** The template events the contract publishes; `keeper` tells the scheduled runs from those on demand. */
  datatype TemplateEvent =
    | TemplateCreated(template: nat, at: u64)
    | TemplateGenerated(template: nat, invoice: nat, at: u64, keeper: bool)

  /** Merchant entries are keyed by (merchant, position). */
  datatype Ledger = Ledger(
    admin: Option<Address>, paused: bool, graceWindow: u64, refundWindow: u64, networkFee: Option<i128>,
    invoices: map<nat, Invoice>, count: u64, nonces: set<(Address, u64)>,
    merchantCount: map<Address, u64>, merchantIndex: map<(Address, nat), nat>, pendingIndex: seq<nat>,
    history: map<nat, seq<Transition>>, breakdowns: map<nat, NetRefund>, requestedAt: map<nat, u64>,
    templates: map<nat, Template>, templateCount: u64, merchantTemplates: map<Address, seq<nat>>,
    events: seq<TemplateEvent>)

  const EMPTY_LEDGER: Ledger :=
    Ledger(None, false, 0, 0, None, map[], 0, {}, map[], map[], [], map[], map[], map[], map[], 0, map[], [])

  const USDC_FACTOR: i128 := 10_000_000
  const MAX_HASH_BYTES: nat := 64
  const MAX_EXPIRY_SECONDS: u64 := 5 * 365 * 24 * 60 * 60
  const MAX_BATCH_SIZE: nat := 50
  const MAX_BATCH_EXPIRE: nat := 100
  const KEEPER_BATCH_SIZE: nat := 20
  const REFUND_NETWORK_FEE: i128 := 100
  const MAX_REFUND_NETWORK_FEE: i128 := 100_000_000

  type Outcome = Result<Ledger, InvoiceError>

  // ----- guards -----

  function RequireAdmin(s: Ledger, caller: Address): Guard<InvoiceError> {
    Need(s.admin == Some(caller), Unauthorized)
  }

  function RequireNotPaused(s: Ledger): Guard<InvoiceError> { Need(!s.paused, ContractPaused) }

  function RequireAmounts(amount: i128, gross: i128): Guard<InvoiceError> {
    if amount <= 0 || gross < amount then Fail(InvalidAmount)
    else Need(amount >= USDC_FACTOR && gross >= USDC_FACTOR, AmountPrecision)
  }

  function RequireHashes(metadataHash: Option<Bytes>, linkHash: Option<Bytes>): Guard<InvoiceError> {
    if metadataHash.Some? && |metadataHash.value| > MAX_HASH_BYTES then Fail(HashTooLong)
    else if linkHash.Some? && |linkHash.value| > MAX_HASH_BYTES then Fail(HashTooLong)
    else Need(linkHash.Some? ==> |linkHash.value| == 32, InvalidPaymentLinkHash)
  }

  function RequireDuration(expiresIn: u64): Guard<InvoiceError> {
    if expiresIn == 0 then Fail(ZeroDuration) else Need(expiresIn <= MAX_EXPIRY_SECONDS, ExpiryTooLong)
  }

  /** The parameter checks shared by single, batch and template creation. */
  function Validate(p: Params): Guard<InvoiceError> {
    if RequireAmounts(p.amount, p.gross).Fail? then RequireAmounts(p.amount, p.gross)
    else if RequireHashes(p.metadataHash, p.linkHash).Fail? then RequireHashes(p.metadataHash, p.linkHash)
    else RequireDuration(p.expiresIn)
  }

  function Find(s: Ledger, id: nat): Result<Invoice, InvoiceError> {
    if id in s.invoices then Ok(s.invoices[id]) else Err(NotFound)
  }

  // ----- creating -----

  /** The invoice record that creation number `id` makes. */
  function NewInvoice(id: nat, now: u64, merchant: Address, p: Params): Invoice
    requires now + p.expiresIn <= U64_MAX
  {
    Invoice(id, merchant, p.amount, p.gross, Pending, now + p.expiresIn, None, None,
            p.metadataHash, p.linkHash, p.nonce, p.token)
  }

  /** The ledger after a new invoice is written: nonce, record, counter, merchant index, pending index. */
  function Recorded(s: Ledger, id: u64, position: u64, x: Invoice): Ledger
    requires position < U64_MAX
  {
    s.(nonces := if x.nonce != 0 then s.nonces + {(x.merchant, x.nonce)} else s.nonces,
       invoices := s.invoices[id := x], count := id,
       merchantIndex := s.merchantIndex[(x.merchant, position) := id],
       merchantCount := s.merchantCount[x.merchant := position + 1],
       pendingIndex := s.pendingIndex + [id])
  }

  function CreateRecord(s: Ledger, now: u64, merchant: Address, p: Params): Outcome {
    var _ :- Need(s.count < U64_MAX, InvoiceCountOverflow);
    var id := s.count + 1;
    var _ :- Need(now + p.expiresIn <= U64_MAX, ExpiryOverflow);
    var position := Lookup(s.merchantCount, merchant, 0);
    var _ :- Need(position < U64_MAX, ArithmeticOverflow);
    Ok(Recorded(s, id, position, NewInvoice(id, now, merchant, p)))
  }

  predicate NonceUsed(s: Ledger, merchant: Address, nonce: u64) { nonce != 0 && (merchant, nonce) in s.nonces }

  function Create(s: Ledger, now: u64, merchant: Address, p: Params): Outcome {
    var _ :- RequireNotPaused(s);
    var _ :- Validate(p);
    var _ :- Need(!NonceUsed(s, merchant, p.nonce), DuplicateNonce);
    CreateRecord(s, now, merchant, p)
  }

  /** The non-zero nonces of a batch, in order. */
  function BatchNonces(ps: seq<Params>): seq<u64> {
    if ps == [] then []
    else
      var front := BatchNonces(ps[..|ps| - 1]);
      if ps[|ps| - 1].nonce != 0 then front + [ps[|ps| - 1].nonce] else front
  }

  /** The first pass of a batch: every element is checked before anything is written. */
  function ValidateEach(s: Ledger, merchant: Address, ps: seq<Params>): Guard<InvoiceError> {
    if ps == [] then Pass
    else
      var front, p := ps[..|ps| - 1], ps[|ps| - 1];
      if ValidateEach(s, merchant, front).Fail? then ValidateEach(s, merchant, front)
      else if Validate(p).Fail? then Validate(p)
      else Need(!NonceUsed(s, merchant, p.nonce) && (p.nonce != 0 ==> p.nonce !in BatchNonces(front)), DuplicateNonce)
  }

  function CreateEach(s: Ledger, now: u64, merchant: Address, ps: seq<Params>): Outcome {
    if ps == [] then Ok(s)
    else
      var s' :- CreateEach(s, now, merchant, ps[..|ps| - 1]);
      CreateRecord(s', now, merchant, ps[|ps| - 1])
  }

  function BatchCreate(s: Ledger, now: u64, merchant: Address, ps: seq<Params>): Outcome {
    var _ :- RequireNotPaused(s);
    var _ :- ValidateEach(s, merchant, ps);
    var _ :- Need(s.count + |ps| <= U64_MAX, InvoiceCountOverflow);
    CreateEach(s, now, merchant, ps)
  }

  // ----- moving between statuses -----

  function WithoutEntry(s: Ledger, id: nat): seq<nat> { Without(s.pendingIndex, id) }

  function Logged(s: Ledger, id: nat, from: InvoiceStatus, to: InvoiceStatus, now: u64): map<nat, seq<Transition>> {
    s.history[id := Lookup(s.history, id, []) + [Transition(from, to, now)]]
  }

  /** Stores `invoice` under `id`, logs the move, and drops the id from the pending index when it leaves Pending. */
  function MoveTo(s: Ledger, now: u64, id: nat, from: InvoiceStatus, invoice: Invoice): Ledger {
    s.(invoices := s.invoices[id := invoice],
       pendingIndex := if from.Pending? then WithoutEntry(s, id) else s.pendingIndex,
       history := Logged(s, id, from, invoice.status, now))
  }

  function EffectiveDeadline(s: Ledger, invoice: Invoice): u64 {
    if invoice.expiresAt + s.graceWindow <= U64_MAX then invoice.expiresAt + s.graceWindow else invoice.expiresAt
  }

  function MarkPaid(s: Ledger, now: u64, caller: Address, id: nat, payer: Address,
                    metadataHash: Option<Bytes>, paymentToken: Option<Address>): Outcome {
    var _ :- RequireAdmin(s, caller);
    var _ :- RequireNotPaused(s);
    var invoice :- Find(s, id);
    var _ :- Need(invoice.status.Pending?, NotPending);
    var _ :- Need(payer != invoice.merchant, SelfPayNotAllowed);
    var _ :- Need(metadataHash.None? || metadataHash == invoice.metadataHash, MetadataMismatch);
    var _ :- Need(invoice.token.None? || paymentToken == invoice.token, TokenMismatch);
    var _ :- Need(now < EffectiveDeadline(s, invoice), PastDeadline);
    Ok(MoveTo(s, now, id, Pending, invoice.(status := Paid, paidAt := Some(now), payer := Some(payer))))
  }

  function Release(s: Ledger, now: u64, caller: Address, id: nat): Outcome {
    var _ :- RequireAdmin(s, caller);
    var _ :- RequireNotPaused(s);
    var invoice :- Find(s, id);
    var _ :- Need(invoice.status.Paid?, NotPaid);
    Ok(MoveTo(s, now, id, Paid, invoice.(status := Released)))
  }

  function Cancel(s: Ledger, now: u64, caller: Address, id: nat): Outcome {
    var _ :- RequireNotPaused(s);
    var invoice :- Find(s, id);
    var _ :- Need(caller == invoice.merchant || s.admin == Some(caller), Unauthorized);
    var _ :- Need(invoice.status.Pending?, NotPending);
    Ok(MoveTo(s, now, id, Pending, invoice.(status := Cancelled)))
  }

  function Amend(s: Ledger, now: u64, merchant: Address, id: nat, amount: i128, gross: i128, expiresIn: u64): Outcome {
    var _ :- RequireNotPaused(s);
    var _ :- RequireAmounts(amount, gross);
    var _ :- RequireDuration(expiresIn);
    var invoice :- Find(s, id);
    var _ :- Need(invoice.merchant == merchant, Unauthorized);
    var _ :- Need(invoice.status.Pending?, NotPending);
    var _ :- Need(now + expiresIn <= U64_MAX, ExpiryOverflow);
    Ok(s.(invoices := s.invoices[id := invoice.(amount := amount, gross := gross, expiresAt := now + expiresIn)]))
  }

  function ExtendExpiry(s: Ledger, caller: Address, id: nat, seconds: u64): Outcome {
    var _ :- RequireAdmin(s, caller);
    var invoice :- Find(s, id);
    var _ :- Need(invoice.status.Pending?, NotPending);
    var _ :- Need(seconds > 0 && invoice.expiresAt + seconds <= U64_MAX, ExpiryOverflow);
    Ok(s.(invoices := s.invoices[id := invoice.(expiresAt := invoice.expiresAt + seconds)]))
  }

  function Transfer(s: Ledger, from: Address, id: nat, to: Address): Outcome {
    var _ :- RequireNotPaused(s);
    var invoice :- Find(s, id);
    var _ :- Need(invoice.payer == Some(from), Unauthorized);
    var _ :- Need(invoice.status.Paid?, NotPaid);
    var _ :- Need(from != to, InvalidAmount);
    Ok(s.(invoices := s.invoices[id := invoice.(payer := Some(to))]))
  }

  function ExpireIfDue(s: Ledger, now: u64, id: nat): Ledger {
    if id in s.invoices && s.invoices[id].status.Pending? && now >= s.invoices[id].expiresAt then
      MoveTo(s, now, id, Pending, s.invoices[id].(status := Expired))
    else s
  }

  function ExpireEach(s: Ledger, now: u64, ids: seq<nat>): Ledger {
    if ids == [] then s else ExpireIfDue(ExpireEach(s, now, ids[..|ids| - 1]), now, ids[|ids| - 1])
  }

  function BatchExpire(s: Ledger, now: u64, caller: Address, ids: seq<nat>): Outcome {
    var _ :- RequireAdmin(s, caller);
    var _ :- RequireNotPaused(s);
    var _ :- Need(|ids| <= MAX_BATCH_EXPIRE, BatchTooLarge);
    Ok(ExpireEach(s, now, ids))
  }

  /** The first pass of a batch cancellation: every id must be the merchant's and pending. */
  function CheckEach(s: Ledger, merchant: Address, ids: seq<nat>): Guard<InvoiceError> {
    if ids == [] then Pass
    else
      var front, id := ids[..|ids| - 1], ids[|ids| - 1];
      if CheckEach(s, merchant, front).Fail? then CheckEach(s, merchant, front)
      else if id !in s.invoices then Fail(NotFound)
      else if s.invoices[id].merchant != merchant then Fail(Unauthorized)
      else Need(s.invoices[id].status.Pending?, NotPending)
  }

  /** The second pass writes the records read in the first one, each logged as leaving Pending. */
  function CancelEach(s: Ledger, now: u64, ids: seq<nat>): Ledger
    requires forall i :: 0 <= i < |ids| ==> ids[i] in s.invoices
  {
    if ids == [] then s
    else
      MoveTo(CancelEach(s, now, ids[..|ids| - 1]), now, ids[|ids| - 1], Pending,
             s.invoices[ids[|ids| - 1]].(status := Cancelled))
  }

  lemma {:induction false} CheckedAreStored(s: Ledger, merchant: Address, ids: seq<nat>)
    requires CheckEach(s, merchant, ids).Pass?
    ensures forall i :: 0 <= i < |ids| ==>
              ids[i] in s.invoices && s.invoices[ids[i]].merchant == merchant && s.invoices[ids[i]].status.Pending?
  {
    if ids != [] { CheckedAreStored(s, merchant, ids[..|ids| - 1]); }
  }

  function BatchCancel(s: Ledger, now: u64, merchant: Address, ids: seq<nat>): Outcome {
    var _ :- RequireNotPaused(s);
    var _ :- Need(|ids| <= MAX_BATCH_SIZE, BatchTooLarge);
    if CheckEach(s, merchant, ids).Fail? then Err(CheckEach(s, merchant, ids).error)
    else
      CheckedAreStored(s, merchant, ids);
      Ok(CancelEach(s, now, ids))
  }

  // ----- refunds -----

  function NetworkFee(s: Ledger): i128 { s.networkFee.GetOr(REFUND_NETWORK_FEE) }

  function VerifyPaymentState(invoice: Invoice): Guard<InvoiceError> {
    Need(invoice.paidAt.Some? && invoice.payer.Some? && invoice.amount > 0 && invoice.gross >= invoice.amount,
         PaymentStateInconsistent)
  }

  function FindRequested(s: Ledger, id: nat): Result<Invoice, InvoiceError> {
    var invoice :- Find(s, id);
    var _ :- Need(invoice.status.RefundRequested?, NotRefundRequested);
    var _ :- VerifyPaymentState(invoice);
    Ok(invoice)
  }

  function RequestRefund(s: Ledger, now: u64, payer: Address, id: nat): Outcome {
    var _ :- RequireNotPaused(s);
    var invoice :- Find(s, id);
    var _ :- Need(invoice.status.Paid?, NotPaid);
    var _ :- Need(invoice.payer == Some(payer), Unauthorized);
    var _ :- Need(s.refundWindow > 0 && invoice.paidAt.Some? ==>
                  now < Min(invoice.paidAt.value + s.refundWindow, U64_MAX),
            RefundWindowClosed);
    var s' := MoveTo(s, now, id, Paid, invoice.(status := RefundRequested));
    Ok(s'.(requestedAt := s.requestedAt[id := now]))
  }

  function ApproveRefund(s: Ledger, now: u64, caller: Address, id: nat): Outcome {
    var _ :- RequireAdmin(s, caller);
    var _ :- RequireNotPaused(s);
    var invoice :- FindRequested(s, id);
    Ok(MoveTo(s, now, id, RefundRequested, invoice.(status := Refunded)))
  }

  function RefundOf(gross: i128, bps: u32, fee: i128): Result<NetRefund, InvoiceError> {
    match NetRefundOf(gross, bps, fee)
    case Ok(r) => Ok(r)
    case Err(BadAmount) => Err(InvalidAmount)
    case Err(FeeTooHigh) => Err(RefundFeeTooHigh)
    case Err(FeeOverflow) => Err(ArithmeticOverflow)
  }

  /** `sent` tells whether the token contract made the transfer. */
  function ProcessRefund(s: Ledger, now: u64, caller: Address, id: nat, bps: u32, sent: bool): Outcome {
    var _ :- RequireAdmin(s, caller);
    var _ :- RequireNotPaused(s);
    var invoice :- FindRequested(s, id);
    var _ :- Need(invoice.token.Some?, RefundTokenNotSet);
    var refund :- RefundOf(invoice.amount, bps, NetworkFee(s));
    var _ :- Need(sent, RefundTransferFailed);
    var s' := MoveTo(s, now, id, RefundRequested, invoice.(status := Refunded));
    Ok(s'.(breakdowns := s.breakdowns[id := refund]))
  }

  function RejectRefund(s: Ledger, now: u64, caller: Address, id: nat): Outcome {
    var _ :- RequireAdmin(s, caller);
    var _ :- RequireNotPaused(s);
    var invoice :- FindRequested(s, id);
    Ok(MoveTo(s, now, id, RefundRequested, invoice.(status := Paid)))
  }

  // ----- templates -----

  function TemplateParams(t: Template): Params {
    Params(t.amount, t.gross, t.expiresIn, t.metadataHash, t.linkHash, 0, None)
  }

  function CreateTemplate(s: Ledger, now: u64, merchant: Address, p: Params, interval: Interval): Outcome {
    var _ :- RequireNotPaused(s);
    var _ :- Validate(p);
    var _ :- Need(s.templateCount < U64_MAX, InvoiceCountOverflow);
    var id := s.templateCount + 1;
    var _ :- Need(now + PeriodSeconds(interval) <= U64_MAX, ExpiryOverflow);
    var t := Template(id, merchant, p.amount, p.gross, interval, p.expiresIn, p.metadataHash, p.linkHash, true,
                      now + PeriodSeconds(interval));
    Ok(s.(templates := s.templates[id := t], templateCount := id,
          merchantTemplates := s.merchantTemplates[merchant := Lookup(s.merchantTemplates, merchant, []) + [id]],
          events := s.events + [TemplateCreated(id, now)]))
  }

  function SetTemplateActive(s: Ledger, caller: Address, id: nat, active: bool): Outcome {
    var _ :- Need(id in s.templates, NotFound);
    var t := s.templates[id];
    var _ :- Need(caller == t.merchant || s.admin == Some(caller), Unauthorized);
    Ok(s.(templates := s.templates[id := t.(active := active)]))
  }

  function GenerateFromTemplate(s: Ledger, now: u64, merchant: Address, id: nat): Outcome {
    var _ :- RequireNotPaused(s);
    var _ :- Need(id in s.templates, NotFound);
    var t := s.templates[id];
    var _ :- Need(t.merchant == merchant, Unauthorized);
    var _ :- Need(t.active, TemplateDisabled);
    var s' :- CreateRecord(s, now, t.merchant, TemplateParams(t));
    Ok(s'.(events := s.events + [TemplateGenerated(id, s'.count, now, false)]))
  }

  /** The first point of the schedule after `now`, or the largest time when it does not fit. */
  function Advance(next: u64, period: u64, now: u64): u64
    requires period > 0 && next <= now
  {
    var after := next + ((now - next) / period + 1) * period;
    if 0 <= after <= U64_MAX then after else U64_MAX
  }

  /** One template of a keeper call: unknown, inactive and not yet due ones are skipped. */
  function RunIfDue(s: Ledger, now: u64, id: nat): Outcome {
    if id !in s.templates || !s.templates[id].active || now < s.templates[id].nextRunAt then Ok(s)
    else
      var t := s.templates[id];
      var s' :- CreateRecord(s, now, t.merchant, TemplateParams(t));
      Ok(s'.(templates := s.templates[id := t.(nextRunAt := Advance(t.nextRunAt, PeriodSeconds(t.interval), now))],
             events := s.events + [TemplateGenerated(id, s'.count, now, true)]))
  }

  function RunEach(s: Ledger, now: u64, ids: seq<nat>): Outcome {
    if ids == [] then Ok(s)
    else
      var s' :- RunEach(s, now, ids[..|ids| - 1]);
      RunIfDue(s', now, ids[|ids| - 1])
  }

  function GenerateDue(s: Ledger, now: u64, ids: seq<nat>): Outcome {
    var _ :- Need(|ids| <= KEEPER_BATCH_SIZE, BatchTooLarge);
    var _ :- RequireNotPaused(s);
    RunEach(s, now, ids)
  }

  // ----- administration -----

  /** Also sets the invoice counter to zero. */
  function Initialize(s: Ledger, admin: Address): Outcome {
    var _ :- Need(s.admin.None?, AlreadyInitialized);
    Ok(s.(admin := Some(admin), count := 0, paused := false))
  }

  function SetPaused(s: Ledger, caller: Address, paused: bool): Outcome {
    var _ :- RequireAdmin(s, caller);
    Ok(s.(paused := paused))
  }

  function SetGraceWindow(s: Ledger, caller: Address, seconds: u64): Outcome {
    var _ :- RequireAdmin(s, caller);
    Ok(s.(graceWindow := seconds))
  }

  function SetRefundWindow(s: Ledger, caller: Address, seconds: u64): Outcome {
    var _ :- RequireAdmin(s, caller);
    Ok(s.(refundWindow := seconds))
  }

  function SetNetworkFee(s: Ledger, caller: Address, fee: i128): Outcome {
    var _ :- RequireAdmin(s, caller);
    var _ :- Need(0 <= fee <= MAX_REFUND_NETWORK_FEE, InvalidAmount);
    Ok(s.(networkFee := Some(fee)))
  }

  // ----- calls -----

  datatype CreateCall =
    | CallCreate(merchant: Address, params: Params)
    | CallBatchCreate(merchant: Address, batch: seq<Params>)
    | CallGenerate(merchant: Address, template: nat)
    | CallGenerateDue(ids: seq<nat>)

  function CreateStep(s: Ledger, now: u64, call: CreateCall): Outcome {
    match call
    case CallCreate(merchant, p) => Create(s, now, merchant, p)
    case CallBatchCreate(merchant, ps) => BatchCreate(s, now, merchant, ps)
    case CallGenerate(merchant, id) => GenerateFromTemplate(s, now, merchant, id)
    case CallGenerateDue(ids) => GenerateDue(s, now, ids)
  }

  datatype StatusCall =
    | CallMarkPaid(caller: Address, id: nat, payer: Address, metadataHash: Option<Bytes>, paymentToken: Option<Address>)
    | CallRelease(caller: Address, id: nat)
    | CallCancel(caller: Address, id: nat)
    | CallBatchExpire(caller: Address, ids: seq<nat>)
    | CallBatchCancel(merchant: Address, ids: seq<nat>)

  function StatusStep(s: Ledger, now: u64, call: StatusCall): Outcome {
    match call
    case CallMarkPaid(caller, id, payer, metadataHash, token) =>
      MarkPaid(s, now, caller, id, payer, metadataHash, token)
    case CallRelease(caller, id) => Release(s, now, caller, id)
    case CallCancel(caller, id) => Cancel(s, now, caller, id)
    case CallBatchExpire(caller, ids) => BatchExpire(s, now, caller, ids)
    case CallBatchCancel(merchant, ids) => BatchCancel(s, now, merchant, ids)
  }

  datatype RefundCall =
    | CallRequestRefund(payer: Address, id: nat)
    | CallApproveRefund(caller: Address, id: nat)
    | CallProcessRefund(caller: Address, id: nat, bps: u32, sent: bool)
    | CallRejectRefund(caller: Address, id: nat)

  function RefundStep(s: Ledger, now: u64, call: RefundCall): Outcome {
    match call
    case CallRequestRefund(payer, id) => RequestRefund(s, now, payer, id)
    case CallApproveRefund(caller, id) => ApproveRefund(s, now, caller, id)
    case CallProcessRefund(caller, id, bps, sent) => ProcessRefund(s, now, caller, id, bps, sent)
    case CallRejectRefund(caller, id) => RejectRefund(s, now, caller, id)
  }

  datatype EditCall =
    | CallAmend(merchant: Address, id: nat, amount: i128, gross: i128, expiresIn: u64)
    | CallExtendExpiry(caller: Address, id: nat, seconds: u64)
    | CallTransfer(from: Address, id: nat, to: Address)
    | CallCreateTemplate(merchant: Address, params: Params, interval: Interval)
    | CallSetTemplateActive(caller: Address, id: nat, active: bool)

  function EditStep(s: Ledger, now: u64, call: EditCall): Outcome {
    match call
    case CallAmend(merchant, id, amount, gross, expiresIn) => Amend(s, now, merchant, id, amount, gross, expiresIn)
    case CallExtendExpiry(caller, id, seconds) => ExtendExpiry(s, caller, id, seconds)
    case CallTransfer(from, id, to) => Transfer(s, from, id, to)
    case CallCreateTemplate(merchant, p, interval) => CreateTemplate(s, now, merchant, p, interval)
    case CallSetTemplateActive(caller, id, active) => SetTemplateActive(s, caller, id, active)
  }

  datatype AdminCall =
    | CallInitialize(admin: Address)
    | CallSetPaused(caller: Address, paused: bool)
    | CallSetGraceWindow(caller: Address, seconds: u64)
    | CallSetRefundWindow(caller: Address, seconds: u64)
    | CallSetNetworkFee(caller: Address, fee: i128)

  function AdminStep(s: Ledger, call: AdminCall): Outcome {
    match call
    case CallInitialize(admin) => Initialize(s, admin)
    case CallSetPaused(caller, paused) => SetPaused(s, caller, paused)
    case CallSetGraceWindow(caller, seconds) => SetGraceWindow(s, caller, seconds)
    case CallSetRefundWindow(caller, seconds) => SetRefundWindow(s, caller, seconds)
    case CallSetNetworkFee(caller, fee) => SetNetworkFee(s, caller, fee)
  }

  datatype Call =
    | Creating(create: CreateCall)
    | Moving(move: StatusCall)
    | Refunding(refund: RefundCall)
    | Editing(edit: EditCall)
    | Managing(manage: AdminCall)

  function CallStep(s: Ledger, now: u64, call: Call): Outcome {
    match call
    case Creating(c) => CreateStep(s, now, c)
    case Moving(c) => StatusStep(s, now, c)
    case Refunding(c) => RefundStep(s, now, c)
    case Editing(c) => EditStep(s, now, c)
    case Managing(c) => AdminStep(s, c)
  }
}
