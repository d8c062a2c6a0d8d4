/**
 The treasury contract as an object that updates its storage in place, with the loops of the source.
 Each entrypoint is proved to do exactly what its specification function says, and to leave the
 storage as it was when it fails.
 */
module TreasuryContract {
  import opened Common
  import opened BasisPoints
  import opened TreasuryTypes
  import opened Multisig
  import opened GovernanceSpec
  import opened SettlementSpec
  import opened VaultSpec
  import opened TreasuryRuns
  import opened DisputeHolds
  import GovernanceSafety
  import SettlementSafety

  /** The stored settlements behind a list of ids, missing ones skipped. */
  function Records(b: Book, ids: seq<nat>): seq<Settlement> {
    if ids == [] then []
    else
      var front := Records(b, ids[..|ids| - 1]);
      if ids[|ids| - 1] in b.settlements then front + [b.settlements[ids[|ids| - 1]]] else front
  }

  function RecordOf(b: Book, id: nat): Option<Settlement> {
    if id in b.settlements then Some(b.settlements[id]) else None
  }

  function DisputeRecords(b: Book, ids: seq<nat>): seq<Dispute> {
    if ids == [] then []
    else
      var front := DisputeRecords(b, ids[..|ids| - 1]);
      if ids[|ids| - 1] in b.disputes then front + [b.disputes[ids[|ids| - 1]]] else front
  }

  /** One row of the pending metrics. */
  datatype Bucket = Bucket(token: Option<Address>, count: nat, total: i128)

  ghost function Group(b: Book, ids: seq<nat>, token: Option<Address>): seq<nat> {
    Filter(ids, TokenIs(b, token))
  }

  ghost function GroupTotal(b: Book, ids: seq<nat>, token: Option<Address>): int {
    Sum(Group(b, ids, token), AmountIn(b))
  }

  /** One bucket per token that occurs among `ids`, with its count and its sum. */
  ghost predicate Groups(b: Book, ids: seq<nat>, buckets: seq<Bucket>) {
    && (forall i, j :: 0 <= i < j < |buckets| ==> buckets[i].token != buckets[j].token)
    && (forall i :: 0 <= i < |buckets| ==> BucketOk(b, ids, buckets[i]))
    && (forall token :: Group(b, ids, token) != [] ==> HasBucket(buckets, token))
  }

  ghost predicate HasBucket(buckets: seq<Bucket>, token: Option<Address>) {
    exists i :: 0 <= i < |buckets| && buckets[i].token == token
  }

  ghost predicate BucketOk(b: Book, ids: seq<nat>, bucket: Bucket) {
    && bucket.count == |Group(b, ids, bucket.token)| > 0
    && bucket.total == GroupTotal(b, ids, bucket.token)
  }

  lemma GroupSnoc(b: Book, ids: seq<nat>, i: nat, token: Option<Address>)
    requires i < |ids|
    ensures var id := ids[i];
            var joins := id in b.settlements && b.settlements[id].token == token;
            && Group(b, ids[..i + 1], token) == Group(b, ids[..i], token) + (if joins then [id] else [])
            && GroupTotal(b, ids[..i + 1], token)
               == GroupTotal(b, ids[..i], token) + (if joins then b.settlements[id].amount else 0)
  {
    assert ids[..i + 1][..i] == ids[..i];
    SumConcat(Group(b, ids[..i], token), [ids[i]], AmountIn(b));
    assert [ids[i]][..0] == [];
    assert Sum([ids[i]], AmountIn(b)) == AmountIn(b)(ids[i]);
    assert Group(b, ids[..i], token) + [] == Group(b, ids[..i], token);
  }

  /** Group sums of positive amounts only grow along the list. */
  lemma GroupTotalGrows(b: Book, ids: seq<nat>, i: nat, token: Option<Address>)
    requires i <= |ids| && forall id :: id in b.settlements ==> b.settlements[id].amount > 0
    ensures GroupTotal(b, ids[..i], token) <= GroupTotal(b, ids, token)
    decreases |ids| - i
  {
    if i == |ids| {
      assert ids[..i] == ids;
    } else {
      GroupSnoc(b, ids, i, token);
      GroupTotalGrows(b, ids, i + 1, token);
    }
  }

  lemma NoBucketNoGroup(b: Book, ids: seq<nat>, buckets: seq<Bucket>, token: Option<Address>)
    requires Groups(b, ids, buckets) && forall j :: 0 <= j < |buckets| ==> buckets[j].token != token
    ensures Group(b, ids, token) == [] && GroupTotal(b, ids, token) == 0
  {
  }

  lemma TotalsFit(b: Book, ids: seq<nat>, buckets: seq<Bucket>)
    requires Groups(b, ids, buckets)
    ensures forall token :: GroupTotal(b, ids, token) <= I128_MAX
  {
    forall token ensures GroupTotal(b, ids, token) <= I128_MAX {
      if j :| 0 <= j < |buckets| && buckets[j].token == token {
        assert BucketOk(b, ids, buckets[j]);
      } else {
        NoBucketNoGroup(b, ids, buckets, token);
      }
    }
  }

  lemma GroupsSkip(b: Book, ids: seq<nat>, i: nat, buckets: seq<Bucket>)
    requires i < |ids| && ids[i] !in b.settlements && Groups(b, ids[..i], buckets)
    ensures Groups(b, ids[..i + 1], buckets)
  {
    forall token ensures Group(b, ids[..i + 1], token) == Group(b, ids[..i], token)
                      && GroupTotal(b, ids[..i + 1], token) == GroupTotal(b, ids[..i], token)
    {
      GroupSnoc(b, ids, i, token);
    }
    forall j | 0 <= j < |buckets| ensures BucketOk(b, ids[..i + 1], buckets[j]) {
      assert BucketOk(b, ids[..i], buckets[j]);
    }
    forall token | Group(b, ids[..i + 1], token) != [] ensures HasBucket(buckets, token) {
      assert Group(b, ids[..i], token) != [];
    }
  }

  /** Bucket `at` is the one of the new settlement's token, grown or freshly appended. */
  lemma GroupsGrow(b: Book, ids: seq<nat>, i: nat, old_: seq<Bucket>, new_: seq<Bucket>, at: nat)
    requires i < |ids| && ids[i] in b.settlements && Groups(b, ids[..i], old_)
    requires var st := b.settlements[ids[i]];
             && |old_| <= |new_| <= |old_| + 1 && at < |new_| && (|new_| > |old_| ==> at == |old_|)
             && (forall j :: 0 <= j < |old_| && j != at ==> new_[j] == old_[j])
             && new_[at].token == st.token
             && (if at < |old_| then new_[at] == Bucket(old_[at].token, old_[at].count + 1, new_[at].total)
                                     && new_[at].total == old_[at].total + st.amount
                 else new_[at] == Bucket(st.token, 1, st.amount)
                      && forall j :: 0 <= j < |old_| ==> old_[j].token != st.token)
    ensures Groups(b, ids[..i + 1], new_)
  {
    var st, before, after := b.settlements[ids[i]], ids[..i], ids[..i + 1];
    GroupSnoc(b, ids, i, st.token);
    if at == |old_| { NoBucketNoGroup(b, before, old_, st.token); } else { assert BucketOk(b, before, old_[at]); }
    assert BucketOk(b, after, new_[at]);
    forall j | 0 <= j < |new_| ensures BucketOk(b, after, new_[j]) {
      if j != at {
        assert BucketOk(b, before, old_[j]);
        assert new_[j].token != st.token;
        GroupSnoc(b, ids, i, new_[j].token);
      }
    }
    forall token | Group(b, after, token) != [] ensures HasBucket(new_, token) {
      GroupSnoc(b, ids, i, token);
      if token == st.token {
        assert new_[at].token == token;
      } else {
        assert HasBucket(old_, token);
        var j :| 0 <= j < |old_| && old_[j].token == token;
        assert new_[j].token == token;
      }
    }
  }

  /** `page` holds the records of the changes `ids`, in order. */
  ghost predicate Lists(g: Governance, ids: seq<nat>, page: seq<SignerChange>) {
    |page| == |ids| && forall k :: 0 <= k < |ids| ==> ids[k] in g.changes && page[k] == g.changes[ids[k]]
  }

  method Drop(list: seq<Address>, a: Address) returns (updated: seq<Address>)
    ensures updated == Without(list, a)
  {
    updated := [];
    for i := 0 to |list|
      invariant updated == Without(list[..i], a)
    {
      assert list[..i + 1][..i] == list[..i];
      if list[i] != a { updated := updated + [list[i]]; }
    }
    assert list[..|list|] == list;
  }

  class Treasury {
    var gov: Governance
    var book: Book
    var vault: Vault

    constructor ()
      ensures State(gov, book, vault) == EMPTY_STATE
    {
      gov, book, vault := EMPTY_GOVERNANCE, EMPTY_BOOK, EMPTY_VAULT;
    }

    // ----- lib.rs -----

    method Initialize(admin: Address, threshold: u32, signers: seq<(Address, u32)>)
      returns (r: Result<Unit, TreasuryError>)
      modifies this`gov, this`book
      ensures Commits(r, GovernanceSpec.Initialize(old(gov), admin, threshold, signers), old(gov), gov)
      ensures book == if r.Ok? then ResetBook(old(book)) else old(book)
    {
      var _ :- Need(gov.admin.None?, AlreadyInitialized);
      var _ :- Need(threshold != 0, ZeroThreshold);
      book := book.(settlementCount := 0, disputeCount := 0, expirySecs := DEFAULT_EXPIRY);
      gov := gov.(admin := Some(admin), threshold := Some(threshold), paused := false,
                  weights := gov.weights[admin := 1], signerList := [admin]);
      ghost var start := gov;
      for i := 0 to |signers|
        invariant gov == Enrol(start, signers[..i])
        invariant book == ResetBook(old(book))
      {
        var (a, w) := signers[i];
        assert signers[..i + 1][..i] == signers[..i];
        gov := gov.(weights := gov.weights[a := w]);
        if w > 0 && a !in gov.signerList { gov := gov.(signerList := gov.signerList + [a]); }
      }
      assert signers[..|signers|] == signers;
      return Ok(Done);
    }

    method WriteSettlement(id: nat, st: Settlement)
      modifies this`book
      ensures book == SettlementSpec.WriteSettlement(old(book), id, st)
    {
      book := book.(settlements := book.settlements[id := st]);
      var index := book.pendingIndex;
      if ClearsHold(st.status) { book := book.(holdExpiry := book.holdExpiry - {id}); }
      if st.status.Pending? && id !in index {
        book := book.(pendingIndex := index + [id]);
      } else if !st.status.Pending? && id in index {
        var updated := [];
        for i := 0 to |index|
          invariant updated == Without(index[..i], id)
        {
          assert index[..i + 1][..i] == index[..i];
          if index[i] != id { updated := updated + [index[i]]; }
        }
        assert index[..|index|] == index;
        book := book.(pendingIndex := updated);
      }
    }

    // ----- settlements.rs -----

    method ProposeSettlement(now: u64, signer: Address, merchant: Address, amount: i128, token: Option<Address>,
                             deadline: u64, cleared: bool) returns (r: Result<nat, TreasuryError>)
      modifies this`book
      ensures Commits(r, Propose(gov, old(book), now, signer, merchant, amount, token, deadline, cleared), old(book),
                      book)
      ensures r.Ok? ==> r.value == book.settlementCount == old(book).settlementCount + 1
    {
      var _ :- RequireNotPaused(gov);
      var _ :- RequireSigner(gov, signer);
      var _ :- Need(amount > 0, InvalidAmount);
      var _ :- Need(cleared, ComplianceCheckFailed);
      var id :- CheckedSucc(book.settlementCount);
      var t :- RecordApproval(gov, Tally([], 0), signer);
      WriteSettlement(id, Settlement(id, merchant, amount, t.approvals, t.weight, Pending, NoHold, now, deadline,
                                     token));
      book := book.(settlementCount := id);
      return Ok(id);
    }

    method ApproveSettlement(signer: Address, id: nat) returns (r: Result<Settlement, TreasuryError>)
      modifies this`book
      ensures Commits(r, Approve(gov, old(book), signer, id), old(book), book)
      ensures r.Ok? ==> id in book.settlements && r.value == book.settlements[id]
    {
      var _ :- RequireNotPaused(gov);
      var _ :- RequireSigner(gov, signer);
      var st :- FindPending(book, id, AlreadyExecuted);
      var t :- RecordApproval(gov, TallyOf(st), signer);
      st := WithTally(st, t);
      WriteSettlement(id, st);
      return Ok(st);
    }

    method RevokeSettlementApproval(signer: Address, id: nat) returns (r: Result<Settlement, TreasuryError>)
      modifies this`book
      ensures Commits(r, Revoke(gov, old(book), signer, id), old(book), book)
      ensures r.Ok? ==> id in book.settlements && r.value == book.settlements[id]
    {
      var _ :- RequireNotPaused(gov);
      var _ :- RequireSigner(gov, signer);
      var st :- FindPending(book, id, AlreadyExecuted);
      var revoked := RevokeApproval(gov, TallyOf(st), signer);
      if revoked.None? { return Err(ApprovalNotFound); }
      st := WithTally(st, revoked.value);
      WriteSettlement(id, st);
      return Ok(st);
    }

    /** One element of a batch approval: the updated record, or None for an id that is skipped. */
    method ApproveElement(signer: Address, id: nat) returns (r: Result<Option<Settlement>, TreasuryError>)
      modifies this`book
      ensures Commits(r, ApproveIfPending(gov, old(book), signer, id), old(book), book)
      ensures r.Ok? ==> r.value == if IsPendingIn(old(book))(id) then RecordOf(book, id) else None
    {
      if id !in book.settlements || !book.settlements[id].status.Pending? { return Ok(None); }
      var st, weight := book.settlements[id], SignerWeight(gov, signer);
      if signer !in st.approvals {
        var _ :- Need(st.approvalWeight + weight <= U32_MAX, WeightOverflow);
        st := st.(approvalWeight := st.approvalWeight + weight, approvals := st.approvals + [signer]);
      }
      WriteSettlement(id, st);
      return Ok(Some(st));
    }

    /** Returns the updated record of every named settlement that was pending. */
    method BatchApproveSettlements(signer: Address, ids: seq<nat>) returns (r: Result<seq<Settlement>, TreasuryError>)
      modifies this`book
      ensures Commits(r, BatchApprove(gov, old(book), signer, ids), old(book), book)
      ensures r.Ok? ==> r.value == Records(book, Filter(ids, IsPendingIn(old(book))))
    {
      var _ :- RequireNotPaused(gov);
      var _ :- RequireSigner(gov, signer);
      var _ :- Need(|ids| <= MAX_BATCH_SIZE, BatchTooLarge);
      var before, approved := book, [];
      for i := 0 to |ids|
        invariant ApproveEach(gov, before, signer, ids[..i]) == Ok(book)
        invariant approved == Records(book, Filter(ids[..i], IsPendingIn(before)))
      {
        assert ids[..i + 1] == ids[..i] + [ids[i]] && ids[..i + 1][..i] == ids[..i];
        var one := ApproveElement(signer, ids[i]);
        if one.Err? {
          ApproveEachFails(gov, before, signer, ids, i + 1, one.error);
          book := before;
          return Err(one.error);
        }
        ApprovedNext(gov, before, signer, ids[..i], ids[i]);
        if one.value.Some? { approved := approved + [one.value.value]; }
      }
      assert ids[..|ids|] == ids;
      return Ok(approved);
    }

    method ApprovePartialSettlement(signer: Address, id: nat, part: i128) returns (r: Result<Settlement, TreasuryError>)
      modifies this`book
      ensures Commits(r, ApprovePartial(gov, old(book), signer, id, part), old(book), book)
      ensures r.Ok? ==> id in book.settlements && r.value == book.settlements[id]
    {
      var _ :- RequireNotPaused(gov);
      var _ :- RequireSigner(gov, signer);
      var st :- FindPending(book, id, AlreadyExecuted);
      var _ :- Need(0 < part < st.amount, InvalidAmount);
      var total := Lookup(book.partialApproved, id, 0) + part;
      var _ :- Need(total <= I128_MAX, ArithmeticOverflow);
      var _ :- Need(I128_MIN <= total <= st.amount, InvalidAmount);
      var t :- RecordApproval(gov, TallyOf(st), signer);
      book := book.(partialApproved := book.partialApproved[id := total]);
      st := WithTally(st, t);
      WriteSettlement(id, st);
      return Ok(st);
    }

    method ExecuteSettlement(now: u64, signer: Address, id: nat, token: Address, cleared: bool)
      returns (r: Result<Unit, TreasuryError>)
      modifies this`book
      ensures Commits(r, Execute(gov, old(book), now, signer, id, token, cleared), old(book), book)
    {
      var _ :- RequireNotPaused(gov);
      var _ :- RequireSigner(gov, signer);
      var st :- Find(book, id);
      if st.status.OnHold? { var _ :- Need(HoldLapsed(book, id, now), SettlementOnHold); }
      var _ :- Need(Live(st.status), AlreadyExecuted);
      var _ :- RequireQuorum(gov, st);
      var _ :- Need(!(st.executionDeadline > 0 && now > st.executionDeadline), ExecutionDeadlineExceeded);
      var _ :- RequireToken(book, token);
      var _ :- Need(cleared, ComplianceCheckFailed);
      var payout := Payout(Full, id, token, PayoutAddress(book, st.merchant), st.amount, now);
      book := book.(payouts := book.payouts + [payout]);
      WriteSettlement(id, st.(status := Executed));
      return Ok(Done);
    }

    /** One element of a batch execution: the paid record, or None for an id that is skipped. */
    method ExecuteElement(now: u64, threshold: u32, token: Address, id: nat) returns (paid: Option<Settlement>)
      modifies this`book
      ensures book == ExecuteIfReady(old(book), now, threshold, token, id)
      ensures paid == if IsReadyIn(old(book), threshold)(id) then RecordOf(book, id) else None
    {
      paid := None;
      if id in book.settlements {
        var st := book.settlements[id];
        if st.status.Pending? && MeetsThreshold(st.approvalWeight, threshold) {
          var payout := Payout(Batched, id, token, PayoutAddress(book, st.merchant), st.amount, now);
          st := st.(status := Executed);
          book := book.(payouts := book.payouts + [payout]);
          book := book.(settlements := book.settlements[id := st]);
          paid := Some(st);
        }
      }
    }

    /** The loop of a batch execution: the record of every settlement paid, once each, in the order of the ids. */
    method ExecuteElements(now: u64, threshold: u32, token: Address, ids: seq<nat>) returns (executed: seq<Settlement>)
      modifies this`book
      ensures book == ExecuteEach(old(book), now, threshold, token, ids)
      ensures executed == Records(book, FirstOccurrences(Filter(ids, IsReadyIn(old(book), threshold))))
    {
      executed := [];
      for i := 0 to |ids|
        invariant book == ExecuteEach(old(book), now, threshold, token, ids[..i])
        invariant executed == Records(book, FirstOccurrences(Filter(ids[..i], IsReadyIn(old(book), threshold))))
      {
        assert ids[..i + 1] == ids[..i] + [ids[i]] && ids[..i + 1][..i] == ids[..i];
        var paid := ExecuteElement(now, threshold, token, ids[i]);
        PaidNext(old(book), now, threshold, token, ids[..i], ids[i]);
        if paid.Some? { executed := executed + [paid.value]; }
      }
      assert ids[..|ids|] == ids;
    }

    method BatchExecuteSettlements(now: u64, signer: Address, ids: seq<nat>, token: Address)
      returns (r: Result<seq<Settlement>, TreasuryError>)
      modifies this`book
      ensures Commits(r, BatchExecute(gov, old(book), now, signer, ids, token), old(book), book)
      ensures r.Ok? ==>
                r.value == Records(book, FirstOccurrences(Filter(ids, IsReadyIn(old(book), gov.threshold.GetOr(0)))))
    {
      var _ :- RequireNotPaused(gov);
      var _ :- RequireSigner(gov, signer);
      var _ :- Need(|ids| <= MAX_BATCH_SIZE, BatchTooLarge);
      var _ :- Need(gov.threshold.GetOr(0) != 0, ThresholdNotConfigured);
      var _ :- RequireToken(book, token);
      var executed := ExecuteElements(now, gov.threshold.value, token, ids);
      return Ok(executed);
    }

    method PartiallyExecuteSettlement(now: u64, signer: Address, id: nat, part: i128, token: Address)
      returns (r: Result<Unit, TreasuryError>)
      modifies this`book
      ensures Commits(r, ExecutePartially(gov, old(book), now, signer, id, part, token), old(book), book)
    {
      var _ :- RequireNotPaused(gov);
      var _ :- RequireSigner(gov, signer);
      var st :- FindPending(book, id, AlreadyExecuted);
      var _ :- Need(0 < part < st.amount, InvalidAmount);
      var _ :- RequireQuorum(gov, st);
      var _ :- Need(token != TREASURY, InvalidTokenContract);
      var total := Lookup(book.partialExecuted, id, 0) + part;
      var _ :- Need(I128_MIN <= total <= I128_MAX, ArithmeticOverflow);
      var _ :- Need(total <= st.amount, InvalidAmount);
      book := book.(partialExecuted := book.partialExecuted[id := total]);
      book := book.(payouts := book.payouts + [Payout(Partial, id, token, st.merchant, part, now)]);
      WriteSettlement(id, st.(status := PartiallyExecuted));
      return Ok(Done);
    }

    method CancelSettlement(signer: Address, id: nat) returns (r: Result<Unit, TreasuryError>)
      modifies this`book
      ensures Commits(r, Cancel(gov, old(book), signer, id), old(book), book)
    {
      var _ :- RequireNotPaused(gov);
      var _ :- RequireSigner(gov, signer);
      var st :- FindPending(book, id, SettlementNotCancellable);
      WriteSettlement(id, st.(status := Cancelled));
      return Ok(Done);
    }

    method CancelElement(id: nat) returns (done: bool)
      modifies this`book
      ensures book == CancelIfPending(old(book), id) && done == IsPendingIn(old(book))(id)
    {
      done := id in book.settlements && book.settlements[id].status.Pending?;
      if done { WriteSettlement(id, book.settlements[id].(status := Cancelled)); }
    }

    /** Returns the ids it cancelled: the named ones that were pending, once each, in order. */
    method BatchCancelSettlements(caller: Address, ids: seq<nat>) returns (r: Result<seq<nat>, TreasuryError>)
      modifies this`book
      ensures Commits(r, BatchCancel(gov, old(book), caller, ids), old(book), book)
      ensures r.Ok? ==> r.value == FirstOccurrences(Filter(ids, IsPendingIn(old(book))))
    {
      var _ :- RequireAdmin(gov, caller);
      var before := book;
      var cancelled: seq<nat> := [];
      for i := 0 to |ids|
        invariant book == CancelEach(before, ids[..i])
        invariant cancelled == FirstOccurrences(Filter(ids[..i], IsPendingIn(before)))
      {
        assert ids[..i + 1] == ids[..i] + [ids[i]] && ids[..i + 1][..i] == ids[..i];
        CancelledNext(before, ids[..i], ids[i]);
        var done := CancelElement(ids[i]);
        if done { cancelled := cancelled + [ids[i]]; }
      }
      assert ids[..|ids|] == ids;
      return Ok(cancelled);
    }

    method ForceCancelSettlement(caller: Address, id: nat) returns (r: Result<Unit, TreasuryError>)
      modifies this`book
      ensures Commits(r, ForceCancel(gov, old(book), caller, id), old(book), book)
    {
      var _ :- RequireAdmin(gov, caller);
      var st :- Find(book, id);
      var _ :- Need(Live(st.status), ForceCancelNotAllowed);
      WriteSettlement(id, st.(status := Cancelled));
      return Ok(Done);
    }

    method ExpireSettlement(now: u64, caller: Address, id: nat) returns (r: Result<Unit, TreasuryError>)
      modifies this`book
      ensures Commits(r, Expire(gov, old(book), now, caller, id), old(book), book)
    {
      var _ :- RequireAdmin(gov, caller);
      var st :- FindPending(book, id, AlreadyExecuted);
      var _ :- Need(st.proposedAt + book.expirySecs <= U64_MAX, ArithmeticOverflow);
      var _ :- Need(now > st.proposedAt + book.expirySecs, TtlNotElapsed);
      WriteSettlement(id, st.(status := Expired));
      return Ok(Done);
    }

    /** The records behind the pending index. */
    method GetPendingSettlements() returns (pending: seq<Settlement>)
      ensures pending == Records(book, book.pendingIndex)
    {
      pending := [];
      var index := book.pendingIndex;
      for i := 0 to |index|
        invariant pending == Records(book, index[..i])
      {
        assert index[..i + 1][..i] == index[..i];
        if index[i] in book.settlements { pending := pending + [book.settlements[index[i]]]; }
      }
      assert index[..|index|] == index;
    }

    /** Adds the settlement at position `i` of the index to the bucket of its token, or opens a bucket for it. */
    method AddToBuckets(index: seq<nat>, i: nat, buckets: seq<Bucket>) returns (r: Result<seq<Bucket>, TreasuryError>)
      requires i < |index| && index[i] in book.settlements && Groups(book, index[..i], buckets)
      ensures r.Ok? ==> Groups(book, index[..i + 1], r.value)
      ensures r.Err? && SettlementSafety.Sound(book) ==>
                GroupTotal(book, index, book.settlements[index[i]].token) > I128_MAX
    {
      var st, j := book.settlements[index[i]], 0;
      while j < |buckets| && buckets[j].token != st.token
        invariant 0 <= j <= |buckets| && forall k :: 0 <= k < j ==> buckets[k].token != st.token
      {
        j := j + 1;
      }
      GroupSnoc(book, index, i, st.token);
      var grown: seq<Bucket>;
      if j < |buckets| {
        assert BucketOk(book, index[..i], buckets[j]);
        var total := buckets[j].total + st.amount;
        if !(I128_MIN <= total <= I128_MAX) {
          if SettlementSafety.Sound(book) { OverflowIsReal(book, index, i + 1, st.token); }
          return Err(ArithmeticOverflow);
        }
        grown := buckets[j := Bucket(buckets[j].token, buckets[j].count + 1, total)];
      } else {
        grown := buckets + [Bucket(st.token, 1, st.amount)];
      }
      GroupsGrow(book, index, i, buckets, grown, j);
      return Ok(grown);
    }

    /** Count and sum of the indexed settlements per token; fails exactly when some token's sum overflows. */
    method GetPendingMetrics() returns (r: Result<seq<Bucket>, TreasuryError>)
      ensures r.Ok? ==> Groups(book, book.pendingIndex, r.value)
      ensures SettlementSafety.Sound(book) ==>
                (r.Ok? <==> forall token :: GroupTotal(book, book.pendingIndex, token) <= I128_MAX)
    {
      var buckets: seq<Bucket> := [];
      var index := book.pendingIndex;
      assert index[..0] == [];
      for i := 0 to |index|
        invariant Groups(book, index[..i], buckets)
      {
        if index[i] in book.settlements {
          buckets :- AddToBuckets(index, i, buckets);
        } else {
          GroupsSkip(book, index, i, buckets);
        }
      }
      assert index[..|index|] == index;
      TotalsFit(book, index, buckets);
      return Ok(buckets);
    }

    // ----- holds.rs -----

    method HoldSettlement(now: u64, caller: Address, id: nat, reason: HoldReason, until: Option<u64>)
      returns (r: Result<Unit, TreasuryError>)
      modifies this`book
      ensures Commits(r, Hold(gov, old(book), now, caller, id, reason, until), old(book), book)
    {
      var _ :- RequireAdmin(gov, caller);
      var st :- Find(book, id);
      var _ :- Need(!(st.status.OnHold? && HoldActive(book, id, now)), AlreadyOnHold);
      var _ :- Need(Live(st.status), AlreadyExecuted);
      WriteSettlement(id, st.(status := OnHold, holdReason := reason));
      if until.Some? {
        book := book.(holdExpiry := book.holdExpiry[id := until.value]);
      } else {
        book := book.(holdExpiry := book.holdExpiry - {id});
      }
      return Ok(Done);
    }

    method ReleaseSettlementHold(caller: Address, id: nat) returns (r: Result<Unit, TreasuryError>)
      modifies this`book
      ensures Commits(r, ReleaseHold(gov, old(book), caller, id), old(book), book)
    {
      var _ :- RequireAdmin(gov, caller);
      var st :- Find(book, id);
      var _ :- Need(st.status.OnHold?, NotOnHold);
      WriteSettlement(id, st.(status := Pending, holdReason := NoHold));
      book := book.(holdExpiry := book.holdExpiry - {id});
      return Ok(Done);
    }

    // ----- disputes.rs -----

    /** Scans the disputes in id order and stops at the first open one. */
    method FindOpenDispute(sid: nat) returns (found: bool)
      ensures found <==> HasOpenDispute(book, sid)
    {
      found := false;
      var d := 1;
      while d <= book.disputeCount && !found
        invariant 1 <= d <= book.disputeCount + 1
        invariant !found ==> forall k: nat :: 1 <= k < d ==> !OpenFor(book, k, sid)
        invariant found ==> HasOpenDispute(book, sid)
        decreases book.disputeCount - d, !found
      {
        if d in book.disputes && book.disputes[d].settlementId == sid && book.disputes[d].status.Raised? {
          assert OpenFor(book, d, sid);
          found := true;
        } else {
          d := d + 1;
        }
      }
    }

    method ReleaseHoldIfNoOpenDisputes(sid: nat)
      modifies this`book
      ensures book == ReleaseIfUndisputed(old(book), sid)
    {
      if sid in book.settlements && book.settlements[sid].status.OnHold? {
        var open := FindOpenDispute(sid);
        if !open {
          WriteSettlement(sid, book.settlements[sid].(status := Pending, holdReason := NoHold));
        }
      }
    }

    method RaiseSettlementDispute(claimant: Address, sid: nat, counterparty: Address, amount: i128, expiresAt: u64)
      returns (r: Result<nat, TreasuryError>)
      modifies this`book
      ensures Commits(r, RaiseDispute(gov, old(book), claimant, sid, counterparty, amount, expiresAt), old(book), book)
      ensures r.Ok? ==> r.value == book.disputeCount == old(book).disputeCount + 1
    {
      var _ :- RequireNotPaused(gov);
      var _ :- Need(amount > 0, InvalidAmount);
      var before := book;
      if sid in book.settlements && book.settlements[sid].status.Pending? {
        WriteSettlement(sid, book.settlements[sid].(status := OnHold));
      }
      if book.disputeCount == U64_MAX {
        book := before;
        return Err(ArithmeticOverflow);
      }
      var id := book.disputeCount + 1;
      var d := Dispute(id, sid, claimant, counterparty, amount, Raised, [], 0, false, expiresAt, 0);
      book := book.(disputes := book.disputes[id := d], disputeCount := id);
      var listed := Lookup(book.settlementDisputes, sid, []) + [id];
      book := book.(settlementDisputes := book.settlementDisputes[sid := listed]);
      return Ok(id);
    }

    method ExpireSettlementDispute(now: u64, caller: Address, id: nat) returns (r: Result<Unit, TreasuryError>)
      modifies this`book
      ensures Commits(r, ExpireDispute(gov, old(book), now, caller, id), old(book), book)
    {
      var _ :- RequireAdmin(gov, caller);
      var d :- FindRaised(book, id);
      var _ :- Need(now >= d.expiresAt, DisputeNotExpired);
      book := book.(disputes := book.disputes[id := d.(status := DisputeExpired)]);
      ReleaseHoldIfNoOpenDisputes(d.settlementId);
      return Ok(Done);
    }

    method ResolveSettlementDispute(caller: Address, id: nat, forClaimant: bool)
      returns (r: Result<Unit, TreasuryError>)
      modifies this`book
      ensures Commits(r, ResolveDispute(gov, old(book), caller, id, forClaimant), old(book), book)
    {
      var _ :- RequireAdmin(gov, caller);
      var _ :- RequireNotPaused(gov);
      var d :- FindRaised(book, id);
      var closed := d.(status := if forClaimant then ResolvedClaimant else ResolvedCounterparty);
      book := book.(disputes := book.disputes[id := closed]);
      ReleaseHoldIfNoOpenDisputes(d.settlementId);
      return Ok(Done);
    }

    method ResolveDisputeSplit(caller: Address, id: nat, bps: u32, token: Address)
      returns (r: Result<Unit, TreasuryError>)
      modifies this`book
      ensures Commits(r, ResolveSplit(gov, old(book), caller, id, bps, token), old(book), book)
    {
      var _ :- RequireAdmin(gov, caller);
      var _ :- RequireNotPaused(gov);
      var _ :- Need(IsValidBps(bps), InvalidSplitRatio);
      var d :- FindRaised(book, id);
      var split := SplitBps(d.amount, bps);
      if split.None? { return Err(ArithmeticOverflow); }
      var (share, rest) := split.value;
      var made: seq<SplitPayment> := [];
      if share > 0 { made := made + [SplitPayment(id, token, d.claimant, share)]; }
      if rest > 0 { made := made + [SplitPayment(id, token, d.counterparty, rest)]; }
      assert made == SplitPayments(id, d, token, share, rest);
      book := book.(splits := book.splits + made);
      book := book.(disputes := book.disputes[id := d.(status := ResolvedSplit, claimantBps := bps)]);
      ReleaseHoldIfNoOpenDisputes(d.settlementId);
      return Ok(Done);
    }

    method VoteDisputeResolution(signer: Address, id: nat, forClaimant: bool) returns (r: Result<Unit, TreasuryError>)
      modifies this`book
      ensures Commits(r, Vote(gov, old(book), signer, id, forClaimant), old(book), book)
    {
      var _ :- RequireNotPaused(gov);
      var _ :- RequireSigner(gov, signer);
      var d :- FindRaised(book, id);
      var _ :- Need(signer !in d.approvals, DuplicateVote);
      if d.weight == 0 {
        d := d.(forClaimant := forClaimant);
      } else if d.forClaimant != forClaimant {
        return Err(ResolutionDirectionMismatch);
      }
      var t :- RecordApproval(gov, Tally(d.approvals, d.weight), signer);
      d := d.(approvals := t.approvals, weight := t.weight);
      var _ :- Need(gov.threshold.Some?, ThresholdNotConfigured);
      if MeetsThreshold(d.weight, gov.threshold.value) {
        d := d.(status := if d.forClaimant then ResolvedClaimant else ResolvedCounterparty);
      }
      book := book.(disputes := book.disputes[id := d]);
      return Ok(Done);
    }

    method GetDisputesBySettlement(sid: nat) returns (disputes: seq<Dispute>)
      ensures disputes == DisputeRecords(book, Lookup(book.settlementDisputes, sid, []))
    {
      disputes := [];
      var ids := Lookup(book.settlementDisputes, sid, []);
      for i := 0 to |ids|
        invariant disputes == DisputeRecords(book, ids[..i])
      {
        assert ids[..i + 1][..i] == ids[..i];
        if ids[i] in book.disputes { disputes := disputes + [book.disputes[ids[i]]]; }
      }
      assert ids[..|ids|] == ids;
    }

    // ----- deposits.rs -----

    method EnforceWithdrawalLimit(a: Address, amount: i128, now: u64) returns (r: Result<Unit, TreasuryError>)
      modifies this`vault
      ensures Commits(r, ChargeWindow(old(vault), a, amount, now), old(vault), vault)
    {
      if vault.limit <= 0 { return Ok(Done); }
      var start, prior := WindowStartOf(vault, a), UsedBy(vault, a);
      if vault.windowSecs == 0 || Max(0, now - start) >= vault.windowSecs {
        start, prior := now, 0;
      }
      var used :- Add(prior, amount);
      var _ :- Need(used <= vault.limit, WithdrawalLimitExceeded);
      vault := vault.(windowStart := vault.windowStart[a := start]);
      vault := vault.(used := vault.used[a := used]);
      return Ok(Done);
    }

    method DepositTokens(from: Address, token: Address, amount: i128) returns (r: Result<Unit, TreasuryError>)
      modifies this`vault
      ensures Commits(r, Deposit(gov, old(vault), from, token, amount), old(vault), vault)
    {
      var _ :- RequireNotPaused(gov);
      var _ :- Need(amount > 0, InvalidAmount);
      var balance :- Add(BalanceOf(vault, from, token), amount);
      var total :- Add(TotalOf(vault, token), amount);
      vault := vault.(balances := vault.balances[(from, token) := balance]);
      vault := vault.(totals := vault.totals[token := total]);
      return Ok(Done);
    }

    method BatchDepositTokens(from: Address, deposits: seq<(Address, i128)>) returns (r: Result<Unit, TreasuryError>)
      modifies this`vault
      ensures Commits(r, BatchDeposit(gov, old(vault), from, deposits), old(vault), vault)
    {
      var _ :- RequireNotPaused(gov);
      var before := vault;
      for i := 0 to |deposits|
        invariant DepositEach(old(vault), from, deposits[..i]) == Ok(vault)
      {
        assert deposits[..i + 1][..i] == deposits[..i];
        var one := DepositTokens(from, deposits[i].0, deposits[i].1);
        if one.Err? {
          DepositEachFails(old(vault), from, deposits, i + 1, one.error);
          vault := before;
          return Err(one.error);
        }
      }
      assert deposits[..|deposits|] == deposits;
      return Ok(Done);
    }

    method WithdrawTokens(now: u64, to: Address, token: Address, amount: i128) returns (r: Result<Unit, TreasuryError>)
      modifies this`vault
      ensures Commits(r, Withdraw(gov, old(vault), now, to, token, amount), old(vault), vault)
    {
      var _ :- RequireNotPaused(gov);
      var _ :- Need(amount > 0, InvalidAmount);
      var _ :- Need(vault.destinations == [] || to in vault.destinations, DestinationNotAllowed);
      var balance := BalanceOf(vault, to, token);
      var _ :- Need(balance >= amount, InsufficientBalance);
      var before := vault;
      var charged := EnforceWithdrawalLimit(to, amount, now);
      if charged.Err? { return Err(charged.error); }
      var left := CheckedSub(balance, amount);
      var total := CheckedSub(TotalOf(vault, token), amount);
      if left.None? || total.None? {
        vault := before;
        return Err(ArithmeticOverflow);
      }
      vault := vault.(balances := vault.balances[(to, token) := left.value],
                      totals := vault.totals[token := total.value]);
      vault := vault.(outflows := vault.outflows + [Outflow(to, token, amount, now)]);
      return Ok(Done);
    }

    method DrainTokens(now: u64, caller: Address, token: Address, recipient: Address, held: i128)
      returns (r: Result<Unit, TreasuryError>)
      modifies this`vault
      ensures Commits(r, WithdrawAll(gov, old(vault), now, caller, token, recipient, held), old(vault), vault)
    {
      var _ :- RequireAdmin(gov, caller);
      var _ :- Need(gov.paused, NotPaused);
      if held > 0 {
        var charged := EnforceWithdrawalLimit(recipient, held, now);
        if charged.Err? { return Err(charged.error); }
        vault := vault.(outflows := vault.outflows + [Outflow(recipient, token, held, now)]);
      }
      return Ok(Done);
    }

    /** The amount sent to the recovery address once every listed signer with weight is among `signers`. */
    method EmergencyWithdraw(signers: seq<Address>, held: i128) returns (r: Result<i128, TreasuryError>)
      ensures r == EmergencyPayout(gov, signers, held)
    {
      var _ :- Need(gov.paused, NotPaused);
      var list := gov.signerList;
      for i := 0 to |list|
        invariant forall k :: 0 <= k < i && SignerWeight(gov, list[k]) > 0 ==> list[k] in signers
      {
        if SignerWeight(gov, list[i]) == 0 { continue; }
        var _ :- Need(list[i] in signers, UnauthorizedSigner);
      }
      return Ok(if held > 0 then held else 0);
    }

    // ----- signers.rs and admin.rs -----

    method SetSignerWeight(caller: Address, a: Address, w: u32) returns (r: Result<Unit, TreasuryError>)
      modifies this`gov
      ensures Commits(r, SetSigner(old(gov), caller, a, w), old(gov), gov)
    {
      var _ :- RequireAdmin(gov, caller);
      var _ :- Need(w != 0, InvalidAmount);
      gov := gov.(weights := gov.weights[a := w]);
      if a !in gov.signerList { gov := gov.(signerList := gov.signerList + [a]); }
      return Ok(Done);
    }

    method RemoveRegisteredSigner(caller: Address, a: Address) returns (r: Result<Unit, TreasuryError>)
      modifies this`gov
      ensures Commits(r, RemoveSigner(old(gov), caller, a), old(gov), gov)
    {
      var _ :- RequireAdmin(gov, caller);
      var list, total: u32 := gov.signerList, 0;
      for i := 0 to |list|
        invariant total == Min(Sum(list[..i], WeightIn(gov)), U32_MAX)
        invariant Sum(list[..i], WeightIn(gov)) >= 0
      {
        assert list[..i + 1][..i] == list[..i];
        total := Min(total + SignerWeight(gov, list[i]), U32_MAX);
      }
      assert list[..|list|] == list;
      var _ :- Need(Max(0, total - SignerWeight(gov, a)) >= gov.threshold.GetOr(0), QuorumBreak);
      var updated := Drop(list, a);
      gov := gov.(weights := gov.weights - {a}, signerList := updated);
      return Ok(Done);
    }

    /** The `u32` sum of all listed weights, failing when it overflows. */
    method SumListedWeights() returns (r: Result<u32, TreasuryError>)
      ensures r == CheckedTotal(gov)
    {
      var list, total: u32 := gov.signerList, 0;
      for i := 0 to |list|
        invariant total == Sum(list[..i], WeightIn(gov))
      {
        assert list[..i + 1][..i] == list[..i];
        if total + SignerWeight(gov, list[i]) > U32_MAX {
          assert list == list[..i + 1] + list[i + 1..];
          SumConcat(list[..i + 1], list[i + 1..], WeightIn(gov));
          SumNonNegative(list[i + 1..], WeightIn(gov));
          return Err(ArithmeticOverflow);
        }
        total := total + SignerWeight(gov, list[i]);
      }
      assert list[..|list|] == list;
      return Ok(total);
    }

    method StoreThreshold(threshold: u32) returns (r: Result<Unit, TreasuryError>)
      modifies this`gov
      ensures Commits(r, PutThreshold(old(gov), threshold), old(gov), gov)
    {
      var _ :- Need(threshold != 0, ZeroThreshold);
      var total :- SumListedWeights();
      var _ :- Need(threshold <= total, ThresholdUnreachable);
      gov := gov.(threshold := Some(threshold));
      return Ok(Done);
    }

    method ChangeThreshold(caller: Address, threshold: u32) returns (r: Result<Unit, TreasuryError>)
      modifies this`gov
      ensures Commits(r, UpdateThreshold(old(gov), caller, threshold), old(gov), gov)
    {
      var _ :- RequireAdmin(gov, caller);
      r := StoreThreshold(threshold);
    }

    method ProposeSignerRotation(now: u64, caller: Address, oldSigner: Address, newSigner: Address)
      returns (r: Result<nat, TreasuryError>)
      modifies this`gov
      ensures Commits(r, ProposeRotation(old(gov), now, caller, oldSigner, newSigner), old(gov), gov)
      ensures r.Ok? ==> r.value == gov.rotationCount == old(gov).rotationCount + 1
    {
      var _ :- RequireSigner(gov, caller);
      if caller in gov.lastRotation {
        var _ :- Need(now >= Min(gov.lastRotation[caller] + ROTATION_COOLDOWN, U64_MAX), RotationProposalCooldown);
      }
      var id :- CheckedSucc(gov.rotationCount);
      var t :- RecordApproval(gov, Tally([], 0), caller);
      var rotation := Rotation(oldSigner, newSigner, t.approvals, t.weight, RotationPending,
                               SignerWeight(gov, oldSigner));
      gov := gov.(lastRotation := gov.lastRotation[caller := now]);
      gov := gov.(rotations := gov.rotations[id := rotation], rotationCount := id);
      return Ok(id);
    }

    method CancelSignerRotation(caller: Address, id: nat) returns (r: Result<Unit, TreasuryError>)
      modifies this`gov
      ensures Commits(r, CancelRotation(old(gov), caller, id), old(gov), gov)
    {
      var _ :- RequireAdmin(gov, caller);
      var _ :- Need(id in gov.rotations, RotationNotFound);
      var rotation := gov.rotations[id];
      var _ :- Need(rotation.status.RotationPending?, RotationAlreadyExecuted);
      gov := gov.(rotations := gov.rotations[id := rotation.(status := RotationCancelled)]);
      return Ok(Done);
    }

    method ApproveSignerRotation(caller: Address, id: nat) returns (r: Result<Unit, TreasuryError>)
      modifies this`gov
      ensures Commits(r, ApproveRotation(old(gov), caller, id), old(gov), gov)
    {
      var _ :- RequireSigner(gov, caller);
      var _ :- Need(id in gov.rotations, RotationNotFound);
      var rotation := gov.rotations[id];
      var _ :- Need(rotation.status.RotationPending?, RotationAlreadyExecuted);
      var t :- RecordApproval(gov, Tally(rotation.approvals, rotation.approvalWeight), caller);
      rotation := rotation.(approvals := t.approvals, approvalWeight := t.weight);
      if MeetsThreshold(rotation.approvalWeight, gov.threshold.GetOr(1)) {
        gov := gov.(weights := gov.weights[rotation.newSigner := rotation.capturedOldWeight]);
        gov := gov.(weights := gov.weights[rotation.oldSigner := 0]);
        rotation := rotation.(status := RotationExecuted);
        gov := gov.(journal := gov.journal + [Rotated(id)]);
      }
      gov := gov.(rotations := gov.rotations[id := rotation]);
      return Ok(Done);
    }

    // ----- timelock.rs -----

    method ProposeSignerChange(now: u64, caller: Address, kind: ChangeKind) returns (r: Result<nat, TreasuryError>)
      modifies this`gov
      ensures Commits(r, ProposeChange(old(gov), now, caller, kind), old(gov), gov)
      ensures r.Ok? ==> r.value == gov.changeCount == old(gov).changeCount + 1
    {
      var _ :- RequireAdmin(gov, caller);
      var id :- CheckedSucc(gov.changeCount);
      if kind.SetDelay? { var _ :- Need(ValidDelay(kind.seconds), InvalidTimelockDelay); }
      var delay := CurrentDelay(gov);
      var _ :- Need(now + delay <= U64_MAX, ArithmeticOverflow);
      gov := gov.(changes := gov.changes[id := SignerChange(id, kind, now, now + delay, ChangePending)]);
      gov := gov.(changeCount := id, journal := gov.journal + [Queued(id, now, delay)]);
      return Ok(id);
    }

    method ExecuteSignerChange(now: u64, caller: Address, id: nat) returns (r: Result<Unit, TreasuryError>)
      modifies this`gov
      ensures Commits(r, ExecuteChange(old(gov), now, caller, id), old(gov), gov)
    {
      var _ :- RequireAdmin(gov, caller);
      var _ :- Need(id in gov.changes, SignerChangeNotFound);
      var change := gov.changes[id];
      var _ :- Need(change.status.ChangePending?, SignerChangeAlreadyFinalised);
      var _ :- Need(now >= change.executableAt, SignerChangeTooEarly);
      match change.kind {
        case SetWeight(a, w) =>
          gov := gov.(weights := gov.weights[a := w]);
          if w > 0 {
            if a !in gov.signerList { gov := gov.(signerList := gov.signerList + [a]); }
          } else {
            var updated := Drop(gov.signerList, a);
            gov := gov.(signerList := updated);
          }
        case DropSigner(a) =>
          var updated := Drop(gov.signerList, a);
          gov := gov.(weights := gov.weights - {a}, signerList := updated);
        case SetThreshold(t) =>
          var stored := StoreThreshold(t);
          if stored.Err? { return Err(stored.error); }
        case SetDelay(seconds) =>
          var _ :- Need(ValidDelay(seconds), InvalidTimelockDelay);
          gov := gov.(delaySecs := Some(seconds));
      }
      gov := gov.(changes := gov.changes[id := change.(status := ChangeExecuted)],
                  journal := gov.journal + [Applied(id, now)]);
      return Ok(Done);
    }

    /** One page of pending changes in id order. */
    method ListPendingSignerChanges(startAfter: u64, limit: u32) returns (page: seq<SignerChange>)
      ensures Lists(gov, GovernanceSafety.PageIds(gov, startAfter, limit), page)
    {
      var g := gov;
      var capped := if limit > MAX_CHANGE_PAGE then MAX_CHANGE_PAGE else limit;
      var from := Min(startAfter + 1, U64_MAX) - 1;
      page := [];
      if from >= g.changeCount { return; }
      ghost var ids: seq<nat> := [];
      var id := from + 1;
      while id <= g.changeCount && |page| < capped
        invariant from < id <= g.changeCount + 1
        invariant |page| == |ids| <= capped && ids == GovernanceSafety.Scanned(g, from, id - 1)
        invariant Lists(g, ids, page)
        decreases g.changeCount + 1 - id
      {
        GovernanceSafety.ScannedStep(g, from, id);
        if id in g.changes && g.changes[id].status.ChangePending? {
          page := page + [g.changes[id]];
          ids := ids + [id];
        }
        id := id + 1;
      }
      GovernanceSafety.ScannedIsPage(g, startAfter, limit, id - 1);
    }

    method CancelSignerChange(caller: Address, id: nat) returns (r: Result<Unit, TreasuryError>)
      modifies this`gov
      ensures Commits(r, CancelChange(old(gov), caller, id), old(gov), gov)
    {
      var _ :- RequireAdmin(gov, caller);
      var _ :- Need(id in gov.changes, SignerChangeNotFound);
      var change := gov.changes[id];
      var _ :- Need(change.status.ChangePending?, SignerChangeAlreadyFinalised);
      gov := gov.(changes := gov.changes[id := change.(status := ChangeCancelled)],
                  journal := gov.journal + [Withdrawn(id)]);
      return Ok(Done);
    }
  }

  // ----- what the batches return -----

  function IsReadyIn(b: Book, threshold: u32): nat -> bool {
    (id: nat) => id in b.settlements && b.settlements[id].status.Pending?
      && b.settlements[id].approvalWeight >= threshold
  }

  lemma {:induction false} RecordsSame(b: Book, b': Book, ids: seq<nat>)
    requires forall i :: 0 <= i < |ids| ==> SameRecord(b, b', ids[i])
    ensures Records(b', ids) == Records(b, ids)
  {
    if ids != [] {
      assert SameRecord(b, b', ids[|ids| - 1]);
      RecordsSame(b, b', ids[..|ids| - 1]);
    }
  }

  ghost predicate SameRecord(b: Book, b': Book, id: nat) {
    (id in b'.settlements <==> id in b.settlements) && (id in b.settlements ==> b'.settlements[id] == b.settlements[id])
  }

  /**
   What a batch approval has done to settlement `k`: named and pending ones carry the approval, others are untouched.
   */
  lemma {:induction false} ApproveEachAt(g: Governance, b: Book, signer: Address, ids: seq<nat>, k: nat)
    requires ApproveEach(g, b, signer, ids).Ok?
    ensures var b' := ApproveEach(g, b, signer, ids).value;
            && (k in b'.settlements <==> k in b.settlements)
            && (k in b.settlements ==> b'.settlements[k].status == b.settlements[k].status)
            && (k in ids && k in b.settlements && b.settlements[k].status.Pending? ==>
                signer in b'.settlements[k].approvals)
  {
    if ids != [] {
      var front, last := ids[..|ids| - 1], ids[|ids| - 1];
      ApproveEachAt(g, b, signer, front, k);
      ApproveOneAt(g, ApproveEach(g, b, signer, front).value, signer, last, k);
      assert k in ids <==> k in front || k == last by { assert ids == front + [last]; }
    }
  }

  lemma ApproveOneAt(g: Governance, b: Book, signer: Address, id: nat, k: nat)
    requires ApproveIfPending(g, b, signer, id).Ok?
    ensures var b' := ApproveIfPending(g, b, signer, id).value;
            && (k in b'.settlements <==> k in b.settlements)
            && (k in b.settlements ==>
                  && b'.settlements[k].status == b.settlements[k].status
                  && b.settlements[k].approvals <= b'.settlements[k].approvals)
            && (k == id && k in b.settlements && b.settlements[k].status.Pending? ==>
                signer in b'.settlements[k].approvals)
  {
  }

  ghost function ApprovedRecords(g: Governance, b: Book, signer: Address, ids: seq<nat>): seq<Settlement>
    requires ApproveEach(g, b, signer, ids).Ok?
  {
    Records(ApproveEach(g, b, signer, ids).value, Filter(ids, IsPendingIn(b)))
  }

  /** One more element: a pending one is listed with its updated record, and the records listed before stay the same. */
  lemma ApprovedNext(g: Governance, b: Book, signer: Address, ids: seq<nat>, id: nat)
    requires ApproveEach(g, b, signer, ids + [id]).Ok? && ApproveEach(g, b, signer, ids).Ok?
    requires ApproveIfPending(g, ApproveEach(g, b, signer, ids).value, signer, id)
             == ApproveEach(g, b, signer, ids + [id])
    ensures var mid, b' := ApproveEach(g, b, signer, ids).value, ApproveEach(g, b, signer, ids + [id]).value;
            && (id in b'.settlements <==> id in mid.settlements)
            && ApprovedRecords(g, b, signer, ids + [id])
               == ApprovedRecords(g, b, signer, ids) + (if IsPendingIn(mid)(id) then [b'.settlements[id]] else [])
  {
    var mid, b' := ApproveEach(g, b, signer, ids).value, ApproveEach(g, b, signer, ids + [id]).value;
    var listed := Filter(ids, IsPendingIn(b));
    ApproveEachAt(g, b, signer, ids, id);
    FilterConcat(ids, [id], IsPendingIn(b));
    FilterMembers(ids, IsPendingIn(b));
    forall i | 0 <= i < |listed| ensures SameRecord(mid, b', listed[i]) {
      assert listed[i] in listed;
      ApproveEachAt(g, b, signer, ids, listed[i]);
    }
    RecordsSame(mid, b', listed);
    RecordsConcat(b', listed, [id]);
  }

  /** The next id is ready exactly when it was ready at the start and has not been paid; then it is listed. */
  lemma ReadyNext(b: Book, now: u64, threshold: u32, token: Address, ids: seq<nat>, id: nat)
    ensures var mid, ready := ExecuteEach(b, now, threshold, token, ids), IsReadyIn(b, threshold);
            var paid := FirstOccurrences(Filter(ids, ready));
            && (IsReadyIn(mid, threshold)(id) ==> id !in paid)
            && FirstOccurrences(Filter(ids + [id], ready))
               == paid + (if IsReadyIn(mid, threshold)(id) then [id] else [])
  {
    ExecuteEachAt(b, now, threshold, token, ids, id);
    FirstPassing(ids, id, IsReadyIn(b, threshold));
  }

  lemma RecordsNext(b: Book, now: u64, threshold: u32, token: Address, paid: seq<nat>, id: nat)
    requires IsReadyIn(b, threshold)(id) ==> id !in paid
    ensures var b' := ExecuteIfReady(b, now, threshold, token, id);
            && (id in b'.settlements <==> id in b.settlements)
            && Records(b', paid + (if IsReadyIn(b, threshold)(id) then [id] else []))
               == Records(b, paid) + (if IsReadyIn(b, threshold)(id) then [b'.settlements[id]] else [])
  {
    var b' := ExecuteIfReady(b, now, threshold, token, id);
    RecordsSame(b, b', paid);
    RecordsConcat(b', paid, [id]);
    assert paid + [] == paid;
  }

  /** One more element: a ready one not paid yet is listed, and the records listed before stay the same. */
  lemma PaidNext(b: Book, now: u64, threshold: u32, token: Address, ids: seq<nat>, id: nat)
    ensures var mid := ExecuteEach(b, now, threshold, token, ids);
            var b' := ExecuteIfReady(mid, now, threshold, token, id);
            && (id in b'.settlements <==> id in mid.settlements)
            && Records(b', FirstOccurrences(Filter(ids + [id], IsReadyIn(b, threshold))))
               == Records(mid, FirstOccurrences(Filter(ids, IsReadyIn(b, threshold))))
                  + (if IsReadyIn(mid, threshold)(id) then [b'.settlements[id]] else [])
  {
    ReadyNext(b, now, threshold, token, ids, id);
    RecordsNext(ExecuteEach(b, now, threshold, token, ids), now, threshold, token,
                FirstOccurrences(Filter(ids, IsReadyIn(b, threshold))), id);
  }

  lemma {:induction false} CancelEachAt(b: Book, ids: seq<nat>, id: nat)
    ensures IsPendingIn(CancelEach(b, ids))(id) <==> IsPendingIn(b)(id) && id !in ids
  {
    if ids != [] {
      var front, last := ids[..|ids| - 1], ids[|ids| - 1];
      CancelEachAt(b, front, id);
      assert id in ids <==> id in front || id == last by { assert ids == front + [last]; }
    }
  }

  /** The next id is pending exactly when it was pending at the start and has not been cancelled; then it is listed. */
  lemma CancelledNext(b: Book, ids: seq<nat>, id: nat)
    ensures var pending := IsPendingIn(b);
            FirstOccurrences(Filter(ids + [id], pending))
            == FirstOccurrences(Filter(ids, pending)) + (if IsPendingIn(CancelEach(b, ids))(id) then [id] else [])
  {
    CancelEachAt(b, ids, id);
    FirstPassing(ids, id, IsPendingIn(b));
  }

  // ----- the reads and the scan -----

  /** On a run without batch execution the buckets are the group-by of all pending settlements. */
  lemma MetricsAreTheScan(es: seq<Event>, buckets: seq<Bucket>)
    requires BatchFree(es)
    ensures Groups(Run(es).book, Run(es).book.pendingIndex, buckets)
       <==> Groups(Run(es).book, PendingScan(Run(es).book), buckets)
  {
    var b := Run(es).book;
    forall token
      ensures |Group(b, b.pendingIndex, token)| == |Group(b, PendingScan(b), token)|
      ensures GroupTotal(b, b.pendingIndex, token) == GroupTotal(b, PendingScan(b), token)
    {
      IndexGroupsLikeTheScan(es, token);
    }
    SameGroups(b, b.pendingIndex, PendingScan(b), buckets);
  }

  lemma SameGroups(b: Book, ids: seq<nat>, scan: seq<nat>, buckets: seq<Bucket>)
    requires forall token :: |Group(b, ids, token)| == |Group(b, scan, token)|
                          && GroupTotal(b, ids, token) == GroupTotal(b, scan, token)
    ensures Groups(b, ids, buckets) <==> Groups(b, scan, buckets)
  {
    forall i | 0 <= i < |buckets| ensures BucketOk(b, ids, buckets[i]) <==> BucketOk(b, scan, buckets[i]) {
      assert |Group(b, ids, buckets[i].token)| == |Group(b, scan, buckets[i].token)|;
    }
    forall token ensures Group(b, ids, token) != [] <==> Group(b, scan, token) != [] {
      assert |Group(b, ids, token)| == |Group(b, scan, token)|;
    }
  }

  lemma {:induction false} RecordsConcat(b: Book, xs: seq<nat>, ys: seq<nat>)
    ensures Records(b, xs + ys) == Records(b, xs) + Records(b, ys)
  {
    if ys == [] {
      assert xs + ys == xs;
    } else {
      RecordsConcat(b, xs, ys[..|ys| - 1]);
      assert (xs + ys)[..|xs + ys| - 1] == xs + ys[..|ys| - 1];
    }
  }

  lemma RecordsRemove(b: Book, ids: seq<nat>, i: nat)
    requires i < |ids|
    ensures multiset(Records(b, ids)) == multiset(Records(b, ids[..i] + ids[i + 1..])) + multiset(Records(b, [ids[i]]))
  {
    assert ids == ids[..i] + [ids[i]] + ids[i + 1..];
    RecordsConcat(b, ids[..i] + [ids[i]], ids[i + 1..]);
    RecordsConcat(b, ids[..i], [ids[i]]);
    RecordsConcat(b, ids[..i], ids[i + 1..]);
  }

  lemma {:induction false} RecordsSameElements(b: Book, xs: seq<nat>, ys: seq<nat>)
    requires NoDup(xs) && NoDup(ys) && forall x :: x in xs <==> x in ys
    ensures multiset(Records(b, xs)) == multiset(Records(b, ys))
  {
    assert forall i :: 0 <= i < |ys| ==> ys[i] in xs;
    if xs != [] {
      var x := xs[|xs| - 1];
      assert x in ys;
      var i :| 0 <= i < |ys| && ys[i] == x;
      var front, rest := xs[..|xs| - 1], ys[..i] + ys[i + 1..];
      RemoveAt(ys, i);
      forall y ensures y in front <==> y in rest {
        assert xs == front + [x];
        if y in front { assert y in xs && y != x; }
        if y in rest { assert y in ys && y != x; }
      }
      RecordsSameElements(b, front, rest);
      RecordsConcat(b, front, [x]);
      assert xs == front + [x];
      RecordsRemove(b, ys, i);
    }
  }

  /** On a run without batch execution the records returned are, up to order, those of the scan of all settlements. */
  lemma PendingReadIsTheScan(es: seq<Event>)
    requires BatchFree(es)
    ensures var b := Run(es).book; multiset(Records(b, b.pendingIndex)) == multiset(Records(b, PendingScan(b)))
  {
    IndexIsTheScan(es);
    var b := Run(es).book;
    FilterNoDup(Ids(b.settlementCount), IsPendingIn(b));
    RecordsSameElements(b, b.pendingIndex, PendingScan(b));
  }

  lemma OverflowIsReal(b: Book, ids: seq<nat>, i: nat, token: Option<Address>)
    requires SettlementSafety.Sound(b) && i <= |ids|
    ensures GroupTotal(b, ids[..i], token) <= GroupTotal(b, ids, token)
    ensures GroupTotal(b, ids[..i], token) >= 0
  {
    forall id | id in b.settlements ensures b.settlements[id].amount > 0 { assert SettlementSafety.RecordOk(b, id); }
    GroupTotalGrows(b, ids, i, token);
    assert ids[..i][..0] == [];
    GroupTotalGrows(b, ids[..i], 0, token);
  }

  lemma {:induction false} ApproveEachFails(g: Governance, b: Book, signer: Address, ids: seq<nat>, n: nat,
                                            e: TreasuryError)
    requires n <= |ids| && ApproveEach(g, b, signer, ids[..n]) == Err(e)
    ensures ApproveEach(g, b, signer, ids) == Err(e)
  {
    if n == |ids| {
      assert ids[..n] == ids;
    } else {
      assert ids[..|ids| - 1][..n] == ids[..n];
      ApproveEachFails(g, b, signer, ids[..|ids| - 1], n, e);
    }
  }

  lemma {:induction false} DepositEachFails(v: Vault, from: Address, deposits: seq<(Address, i128)>, n: nat,
                                            e: TreasuryError)
    requires n <= |deposits| && DepositEach(v, from, deposits[..n]) == Err(e)
    ensures DepositEach(v, from, deposits) == Err(e)
  {
    if n == |deposits| {
      assert deposits[..n] == deposits;
    } else {
      assert deposits[..|deposits| - 1][..n] == deposits[..n];
      DepositEachFails(v, from, deposits[..|deposits| - 1], n, e);
    }
  }
}
