/** Every transfer made for a settlement, told by the calls of the run: to whom, in which token, how much and when. */
module PayoutRecipients {
  import opened Common
  import opened TreasuryTypes
  import opened SettlementSpec
  import opened TreasuryRuns
  import SettlementSafety
  import DisputeSafety
  import QuorumSteps

  // ----- payout addresses -----

  /** The call, if it succeeds, sets the payout address of `merchant`. */
  ghost predicate Redirects(s: State, e: Event, merchant: Address) {
    && e.call.ToBook? && e.call.book.Setting? && e.call.book.setting.CallSetPayoutAddress?
    && e.call.book.setting.merchant == merchant
    && BookStep(s.gov, s.vault.totals, s.book, e.now, e.call.book).Ok?
  }

  /** The payout address that `merchant` set last. */
  ghost function LastAddress(es: seq<Event>, merchant: Address): Option<Address> {
    if es == [] then None
    else
      var front, e := es[..|es| - 1], es[|es| - 1];
      if Redirects(Run(front), e, merchant) then Some(e.call.book.setting.to) else LastAddress(front, merchant)
  }

  lemma {:induction false} ApproveEachKeepsAddresses(g: Governance, b: Book, signer: Address, ids: seq<nat>)
    requires ApproveEach(g, b, signer, ids).Ok?
    ensures ApproveEach(g, b, signer, ids).value.payoutAddress == b.payoutAddress
  {
    if ids != [] { ApproveEachKeepsAddresses(g, b, signer, ids[..|ids| - 1]); }
  }

  lemma {:induction false} CancelEachKeepsAddresses(b: Book, ids: seq<nat>)
    ensures CancelEach(b, ids).payoutAddress == b.payoutAddress
  {
    if ids != [] { CancelEachKeepsAddresses(b, ids[..|ids| - 1]); }
  }

  lemma {:induction false} ExecuteEachKeepsAddresses(b: Book, now: u64, threshold: u32, token: Address, ids: seq<nat>)
    ensures ExecuteEach(b, now, threshold, token, ids).payoutAddress == b.payoutAddress
  {
    if ids != [] { ExecuteEachKeepsAddresses(b, now, threshold, token, ids[..|ids| - 1]); }
  }

  lemma ApprovalKeepsAddresses(g: Governance, b: Book, now: u64, call: ApprovalCall)
    requires ApprovalStep(g, b, now, call).Ok?
    ensures ApprovalStep(g, b, now, call).value.payoutAddress == b.payoutAddress
  {
    if call.CallBatchApprove? { ApproveEachKeepsAddresses(g, b, call.signer, call.ids); }
  }

  lemma PayoutKeepsAddresses(g: Governance, b: Book, now: u64, call: PayoutCall)
    requires PayoutStep(g, b, now, call).Ok?
    ensures PayoutStep(g, b, now, call).value.payoutAddress == b.payoutAddress
  {
    if call.CallBatchExecute? { ExecuteEachKeepsAddresses(b, now, g.threshold.value, call.token, call.ids); }
  }

  lemma StatusKeepsAddresses(g: Governance, b: Book, now: u64, call: StatusCall)
    requires StatusStep(g, b, now, call).Ok?
    ensures StatusStep(g, b, now, call).value.payoutAddress == b.payoutAddress
  {
    if call.CallBatchCancel? { CancelEachKeepsAddresses(b, call.ids); }
  }

  lemma DisputeKeepsAddresses(g: Governance, b: Book, now: u64, call: DisputeCall)
    requires DisputeStep(g, b, now, call).Ok?
    ensures DisputeStep(g, b, now, call).value.payoutAddress == b.payoutAddress
  {
    if DisputeSafety.Closing(call) { DisputeSafety.CloseShape(g, b, now, call); }
  }

  lemma SettingKeepsAddresses(g: Governance, totals: map<Address, i128>, b: Book, call: SettingCall)
    requires SettingStep(g, totals, b, call).Ok? && !call.CallSetPayoutAddress?
    ensures SettingStep(g, totals, b, call).value.payoutAddress == b.payoutAddress
  {
  }

  lemma OthersKeepAddresses(g: Governance, totals: map<Address, i128>, b: Book, now: u64, call: BookCall)
    requires BookStep(g, totals, b, now, call).Ok? && !(call.Setting? && call.setting.CallSetPayoutAddress?)
    ensures BookStep(g, totals, b, now, call).value.payoutAddress == b.payoutAddress
  {
    match call
    case Approving(c) => ApprovalKeepsAddresses(g, b, now, c);
    case Paying(c) => PayoutKeepsAddresses(g, b, now, c);
    case Moving(c) => StatusKeepsAddresses(g, b, now, c);
    case Disputing(c) => DisputeKeepsAddresses(g, b, now, c);
    case Setting(c) => SettingKeepsAddresses(g, totals, b, c);
  }

  ghost predicate SameAddress(b: Book, b': Book, merchant: Address) {
    && (merchant in b'.payoutAddress <==> merchant in b.payoutAddress)
    && (merchant in b'.payoutAddress ==> b'.payoutAddress[merchant] == b.payoutAddress[merchant])
  }

  lemma RedirectionSets(s: State, e: Event, merchant: Address)
    requires Redirects(s, e, merchant)
    ensures var b' := Step(s, e).book;
            merchant in b'.payoutAddress && b'.payoutAddress[merchant] == e.call.book.setting.to
  {
  }

  lemma OtherStepsKeepAddress(s: State, e: Event, merchant: Address)
    requires !Redirects(s, e, merchant)
    ensures SameAddress(s.book, Step(s, e).book, merchant)
  {
    if e.call.ToBook? && BookStep(s.gov, s.vault.totals, s.book, e.now, e.call.book).Ok? {
      if !(e.call.book.Setting? && e.call.book.setting.CallSetPayoutAddress?) {
        OthersKeepAddresses(s.gov, s.vault.totals, s.book, e.now, e.call.book);
      }
    }
  }

  /** In every run a merchant's stored payout address is the one it set last. */
  lemma {:induction false} AddressIsTheLast(es: seq<Event>, merchant: Address)
    ensures match LastAddress(es, merchant)
            case Some(to) => merchant in Run(es).book.payoutAddress && Run(es).book.payoutAddress[merchant] == to
            case None => merchant !in Run(es).book.payoutAddress
  {
    if es != [] {
      var s, e := Run(es[..|es| - 1]), es[|es| - 1];
      AddressIsTheLast(es[..|es| - 1], merchant);
      if Redirects(s, e, merchant) { RedirectionSets(s, e, merchant); } else { OtherStepsKeepAddress(s, e, merchant); }
    }
  }

  // ----- transfers -----

  /** Where a full or batched payment to `merchant` goes, given its payout address. */
  ghost predicate SentTo(b: Book, merchant: Address, to: Address) {
    if merchant in b.payoutAddress then to == b.payoutAddress[merchant] else to == merchant
  }

  /** `p` is the transfer `call` makes for a settlement of book `b`. */
  ghost predicate MadeBy(b: Book, now: u64, call: PayoutCall, p: Payout) {
    && p.id in b.settlements && p.at == now && p.token == call.token
    && var st := b.settlements[p.id];
    match call
    case CallExecute(_, id, _, _) => p.kind.Full? && p.id == id && p.amount == st.amount && SentTo(b, st.merchant, p.to)
    case CallBatchExecute(_, ids, _) =>
      p.kind.Batched? && p.id in ids && p.amount == st.amount && SentTo(b, st.merchant, p.to)
    case CallExecutePartially(_, id, part, _) =>
      p.kind.Partial? && p.id == id && p.amount == part && p.to == st.merchant
  }

  ghost predicate SameTerms(b: Book, b': Book) {
    && b'.payoutAddress == b.payoutAddress && b'.settlements.Keys == b.settlements.Keys
    && forall id :: id in b.settlements ==>
         b'.settlements[id].amount == b.settlements[id].amount
           && b'.settlements[id].merchant == b.settlements[id].merchant
  }

  lemma {:induction false} ExecuteEachMakes(b: Book, now: u64, threshold: u32, token: Address, ids: seq<nat>,
                                            signer: Address)
    ensures var b' := ExecuteEach(b, now, threshold, token, ids);
            && SameTerms(b, b') && b.payouts <= b'.payouts
            && forall k :: |b.payouts| <= k < |b'.payouts| ==>
                 MadeBy(b, now, CallBatchExecute(signer, ids, token), b'.payouts[k])
  {
    if ids != [] {
      var front, id := ids[..|ids| - 1], ids[|ids| - 1];
      ExecuteEachMakes(b, now, threshold, token, front, signer);
      var mid, b' := ExecuteEach(b, now, threshold, token, front), ExecuteEach(b, now, threshold, token, ids);
      assert ids == front + [id];
      forall k | |b.payouts| <= k < |b'.payouts|
        ensures MadeBy(b, now, CallBatchExecute(signer, ids, token), b'.payouts[k])
      {
        if k < |mid.payouts| {
          assert b'.payouts[k] == mid.payouts[k];
          assert MadeBy(b, now, CallBatchExecute(signer, front, token), mid.payouts[k]);
        }
      }
    }
  }

  lemma PayoutStepMakes(g: Governance, b: Book, now: u64, call: PayoutCall, k: nat)
    requires PayoutStep(g, b, now, call).Ok? && |b.payouts| <= k < |PayoutStep(g, b, now, call).value.payouts|
    ensures MadeBy(b, now, call, PayoutStep(g, b, now, call).value.payouts[k])
  {
    if call.CallBatchExecute? {
      ExecuteEachMakes(b, now, g.threshold.value, call.token, call.ids, call.signer);
    }
  }

  lemma OnlyPayoutsPay(s: State, e: Event)
    requires |Step(s, e).book.payouts| > |s.book.payouts|
    ensures e.call.ToBook? && e.call.book.Paying? && PayoutStep(s.gov, s.book, e.now, e.call.book.payout).Ok?
  {
    if e.call.ToBook? && BookStep(s.gov, s.vault.totals, s.book, e.now, e.call.book).Ok? {
      match e.call.book
      case Approving(c) => QuorumSteps.ApprovalStepPaysNothing(s.gov, s.book, e.now, c);
      case Paying(c) =>
      case Moving(c) => QuorumSteps.StatusStepPaysNothing(s.gov, s.book, e.now, c);
      case Disputing(c) => QuorumSteps.DisputeStepKeepsTally(s.gov, s.book, e.now, c, 0);
      case Setting(c) => SettlementSafety.SettingTouchesSettings(s.gov, s.vault.totals, s.book, c);
    }
  }

  /**
   Every transfer made for a settlement, at any step of any run: a full or batched one sends the whole amount to the
   address the merchant set last before, or to the merchant if it set none; a partial one sends the asked part to the
   merchant; each in the token and at the time of its call.
   */
  lemma PayoutGoesToTheMerchant(es: seq<Event>, i: nat, k: nat)
    requires i < |es| && |Run(es[..i]).book.payouts| <= k < |Run(es[..i + 1]).book.payouts|
    ensures var s, e, p := Run(es[..i]), es[i], Run(es[..i + 1]).book.payouts[k];
            && e.call.ToBook? && e.call.book.Paying? && p.id in s.book.settlements
            && p.at == e.now && p.token == e.call.book.payout.token
            && var st := s.book.settlements[p.id];
            if e.call.book.payout.CallExecutePartially?
            then p.kind.Partial? && p.to == st.merchant && p.amount == e.call.book.payout.part
            else && p.kind == (if e.call.book.payout.CallExecute? then Full else Batched)
                 && p.to == LastAddress(es[..i], st.merchant).GetOr(st.merchant) && p.amount == st.amount
  {
    var s, e := Run(es[..i]), es[i];
    RunPrefix(es, i);
    OnlyPayoutsPay(s, e);
    PayoutStepMakes(s.gov, s.book, e.now, e.call.book.payout, k);
    AddressIsTheLast(es[..i], s.book.settlements[Run(es[..i + 1]).book.payouts[k].id].merchant);
  }
}
