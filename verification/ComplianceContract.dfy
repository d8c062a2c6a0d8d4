/**
 The compliance contract as an object that updates its storage in place, with the loops of the source.
 Each entrypoint is proved to do exactly what its specification function says.
 */
module ComplianceContract {
  import opened Common
  import opened ComplianceSpec
  import opened ComplianceIndex
  import BlocklistProof

  class Compliance {
    var store: Registry

    constructor ()
      ensures store == EMPTY_REGISTRY
    {
      store := EMPTY_REGISTRY;
    }

    // ----- the index -----

    method TrackAddress(a: Address) returns (r: Result<Unit, ComplianceError>)
      modifies this`store
      ensures match Track(old(store).index, a)
              case Ok(x) => r.Ok? && store == old(store).(index := x)
              case Err(e) => r == Err(e) && store == old(store)
    {
      var x := store.index;
      if a in x.tracked { return Ok(Done); }
      var _ :- Need(x.count < MAX_TRACKED_ADDRESSES, AddressIndexFull);
      var p := x.count / PAGE_SIZE;
      var page := Page(x.pages, p) + [a];
      store := store.(index := Index(x.pages[p := page], x.count + 1, x.tracked + {a}));
      return Ok(Done);
    }

    /** Rebuilds the flat index, page by page. */
    method ReadIndex() returns (all: seq<Address>)
      ensures all == AddressIndex(store.index)
    {
      all := [];
      var pages := store.index.pages;
      for p := 0 to PagesFor(store.index.count)
        invariant all == Concatenated(pages, p)
      {
        var page, before := Page(pages, p), all;
        for i := 0 to |page|
          invariant all == before + page[..i]
        {
          all := all + [page[i]];
        }
        assert page[..|page|] == page;
      }
    }

    // ----- the history -----

    method AppendStatusHistory(a: Address, e: StatusEntry)
      modifies this`store
      ensures store == Remember(old(store), a, e)
    {
      var stored := Lookup(store.history, a, []);
      var history := stored;
      while |history| >= MAX_STATUS_HISTORY
        invariant |history| <= |stored| && history == stored[|stored| - |history|..]
        invariant |history| >= Min(|stored|, MAX_STATUS_HISTORY - 1)
      {
        history := history[1..];
      }
      history := history + [e];
      store := store.(history := store.history[a := history], log := store.log + [Change(a, e)]);
    }

    /** Stores new marks, logs the change and gives the address its slot; a full index undoes all three. */
    method StoreMarks(m: Marks, a: Address, status: AddressState, now: u64, actor: Address)
      returns (r: Result<Unit, ComplianceError>)
      modifies this`store
      ensures Commits(r, Record(old(store), m, a, status, now, actor), old(store), store)
    {
      var before := store;
      store := store.(marks := m);
      AppendStatusHistory(a, StatusEntry(status, now, actor));
      r := TrackAddress(a);
      if r.Err? { store := before; }
    }

    // ----- allowing and blocking -----

    method Allow(now: u64, caller: Address, a: Address) returns (r: Result<Unit, ComplianceError>)
      modifies this`store
      ensures Commits(r, AllowAddress(old(store), now, caller, a), old(store), store)
    {
      var _ :- RequireAdmin(store, caller);
      var _ :- RequireNotPaused(store);
      r := StoreMarks(AllowMarked(store.marks, a, None, true), a, Allowed, now, caller);
    }

    method AllowTier(now: u64, caller: Address, a: Address, tier: u32) returns (r: Result<Unit, ComplianceError>)
      modifies this`store
      ensures Commits(r, AllowWithTier(old(store), now, caller, a, tier), old(store), store)
    {
      var _ :- RequireAdmin(store, caller);
      var _ :- RequireNotPaused(store);
      r := StoreMarks(TierMarked(store.marks, a, tier), a, Allowed, now, caller);
    }

    method AllowTemporarily(now: u64, caller: Address, a: Address, until: u64)
      returns (r: Result<Unit, ComplianceError>)
      modifies this`store
      ensures Commits(r, AllowUntil(old(store), now, caller, a, until), old(store), store)
    {
      var _ :- RequireAdmin(store, caller);
      var _ :- RequireNotPaused(store);
      r := StoreMarks(AllowMarked(store.marks, a, Some(until), false), a, Allowed, now, caller);
    }

    method BulkAllowAddresses(now: u64, caller: Address, batch: seq<Address>) returns (r: Result<Unit, ComplianceError>)
      modifies this`store
      ensures Commits(r, BulkAllow(old(store), now, caller, batch), old(store), store)
    {
      var _ :- RequireAdmin(store, caller);
      var _ :- RequireNotPaused(store);
      var _ :- CheckCooldown(store.roles.lastBulkAllow, caller, now);
      var _ :- Need(|batch| <= MAX_BATCH_SIZE, BatchTooLarge);
      var before := store;
      store := store.(roles := store.roles.(lastBulkAllow := store.roles.lastBulkAllow[caller := now]));
      ghost var start := store;
      for i := 0 to |batch|
        invariant AllowEach(start, now, caller, batch[..i]) == Ok(store)
      {
        assert batch[..i + 1][..i] == batch[..i];
        r := StoreMarks(AllowMarked(store.marks, batch[i], None, true), batch[i], Allowed, now, caller);
        if r.Err? {
          AllowEachFails(start, now, caller, batch, i + 1);
          store := before;
          return;
        }
      }
      assert batch[..|batch|] == batch;
      return Ok(Done);
    }

    method Block(now: u64, caller: Address, a: Address, until: Option<u64>) returns (r: Result<Unit, ComplianceError>)
      modifies this`store
      ensures Commits(r, BlockAddress(old(store), now, caller, a, until), old(store), store)
    {
      var allowed := MayOperate(caller);
      var _ :- Need(allowed, Unauthorized);
      r := StoreMarks(BlockMarked(store.marks, a, until, caller), a, Blocked, now, caller);
    }

    method BulkBlockAddresses(now: u64, caller: Address, batch: seq<Address>) returns (r: Result<Unit, ComplianceError>)
      modifies this`store
      ensures Commits(r, BulkBlock(old(store), now, caller, batch), old(store), store)
    {
      var _ :- RequireAdmin(store, caller);
      var _ :- CheckCooldown(store.roles.lastBulkBlock, caller, now);
      var _ :- Need(|batch| <= MAX_BATCH_SIZE, BatchTooLarge);
      var before := store;
      store := store.(roles := store.roles.(lastBulkBlock := store.roles.lastBulkBlock[caller := now]));
      ghost var start := store;
      for i := 0 to |batch|
        invariant BlockEach(start, now, caller, batch[..i]) == Ok(store)
      {
        assert batch[..i + 1][..i] == batch[..i];
        r := StoreMarks(BlockMarked(store.marks, batch[i], None, caller), batch[i], Blocked, now, caller);
        if r.Err? {
          BlockEachFails(start, now, caller, batch, i + 1);
          store := before;
          return;
        }
      }
      assert batch[..|batch|] == batch;
      return Ok(Done);
    }

    method Clear(now: u64, caller: Address, a: Address) returns (r: Result<Unit, ComplianceError>)
      modifies this`store
      ensures Commits(r, ClearAddress(old(store), now, caller, a), old(store), store)
    {
      var allowed := MayOperate(caller);
      var _ :- Need(allowed, Unauthorized);
      var _ :- RequireMayClear(store, caller, a);
      r := StoreMarks(ClearMarked(store.marks, a), a, Allowed, now, caller);
    }

    method Revoke(now: u64, caller: Address, a: Address) returns (r: Result<Unit, ComplianceError>)
      modifies this`store
      ensures Commits(r, RevokeAllow(old(store), now, caller, a), old(store), store)
    {
      var _ :- RequireAdmin(store, caller);
      var _ :- RequireNotPaused(store);
      r := StoreMarks(RevokeMarked(store.marks, a), a, Blocked, now, caller);
    }

    // ----- roles -----

    /** Admin, one of the operator set, or the single legacy operator. */
    method MayOperate(caller: Address) returns (yes: bool)
      ensures yes <==> RequireAdminOrOperator(store, caller).Pass?
    {
      if store.roles.admin == Some(caller) { return true; }
      var operators := store.roles.operators;
      for i := 0 to |operators|
        invariant caller !in operators[..i]
      {
        if operators[i] == caller { return true; }
      }
      assert operators[..|operators|] == operators;
      return store.roles.operator == Some(caller);
    }

    method EnrollOperator(caller: Address, operator: Address) returns (r: Result<Unit, ComplianceError>)
      modifies this`store
      ensures Commits(r, CallStep(old(store), 0, Managing(CallAddOperator(caller, operator))), old(store), store)
    {
      var _ :- RequireAdmin(store, caller);
      var operators := store.roles.operators;
      for i := 0 to |operators|
        invariant store == old(store) && operator !in operators[..i]
      {
        if operators[i] == operator { return Ok(Done); }
      }
      assert operators[..|operators|] == operators;
      var _ :- Need(|operators| < MAX_OPERATORS, OperatorSetFull);
      store := store.(roles := store.roles.(operators := operators + [operator]));
      return Ok(Done);
    }

    method DismissOperator(caller: Address, operator: Address) returns (r: Result<Unit, ComplianceError>)
      modifies this`store
      ensures Commits(r, CallStep(old(store), 0, Managing(CallRemoveOperator(caller, operator))), old(store), store)
    {
      var _ :- RequireAdmin(store, caller);
      var operators, kept, found := store.roles.operators, [], false;
      for i := 0 to |operators|
        invariant store == old(store) && kept == Without(operators[..i], operator)
        invariant !found ==> kept == operators[..i]
      {
        assert operators[..i + 1][..i] == operators[..i];
        if operators[i] == operator { found := true; } else { kept := kept + [operators[i]]; }
      }
      assert operators[..|operators|] == operators;
      if found { store := store.(roles := store.roles.(operators := kept)); }
      return Ok(Done);
    }

    // ----- sweeping -----

    /** Returns how many lapsed allows were cleared; stops early once a positive limit is reached. */
    method SweepLapsed(now: u64, caller: Address, limit: u32) returns (r: Result<nat, ComplianceError>)
      modifies this`store
      ensures match SweepExpired(old(store), now, caller, limit)
              case Ok(w) => r == Ok(w.number) && store == w.state
              case Err(e) => r == Err(e) && store == old(store)
    {
      var allowed := MayOperate(caller);
      var _ :- Need(allowed, Unauthorized);
      var index := ReadIndex();
      var swept: nat := 0;
      for i := 0 to |index|
        invariant SweepEach(old(store), now, caller, index[..i], limit) == Swept(store, swept)
      {
        assert index[..i + 1][..i] == index[..i];
        if limit > 0 && swept >= limit {
          SweepStops(old(store), now, caller, index, limit, i);
          return Ok(swept);
        }
        var a, m := index[i], store.marks;
        if Flag(m.allowed, a) && a in m.allowedUntil && now >= m.allowedUntil[a] {
          store := store.(marks := ExpireMarked(m, a));
          AppendStatusHistory(a, StatusEntry(Expired, now, caller));
          swept := swept + 1;
        }
      }
      assert index[..|index|] == index;
      return Ok(swept);
    }

    // ----- reading -----

    method BulkCheckAddresses(now: u64, batch: seq<Address>) returns (r: Result<seq<bool>, ComplianceError>)
      ensures r.Err? <==> |batch| > MAX_BATCH_SIZE
      ensures r.Ok? ==> |r.value| == |batch|
      ensures r.Ok? ==> forall i :: 0 <= i < |batch| ==> r.value[i] == IsAllowedAt(store.marks, batch[i], now)
    {
      var _ :- Need(|batch| <= MAX_BATCH_SIZE, BatchTooLarge);
      var answers: seq<bool> := [];
      for i := 0 to |batch|
        invariant |answers| == i && forall k :: 0 <= k < i ==> answers[k] == IsAllowedAt(store.marks, batch[k], now)
      {
        answers := answers + [IsAllowedAt(store.marks, batch[i], now)];
      }
      return Ok(answers);
    }

    /** A page of the snapshot is the requested slice of the flat index with each address's state, filtered by `state`.
        The precondition holds in every run: without it the source's unchecked page read would trap. */
    method ExportSnapshotPage(now: u64, caller: Address, start: u64, limit: u64, state: Option<AddressState>)
      returns (r: Result<seq<Entry>, ComplianceError>)
      requires Paged(store.index)
      ensures r == if store.roles.admin != Some(caller) then Err(Unauthorized)
                   else Ok(Snapshot(store.marks, Window(AddressIndex(store.index), start, limit), now, state))
    {
      var _ :- RequireAdmin(store, caller);
      var m, x := store.marks, store.index;
      IndexLength(x);
      ghost var all := AddressIndex(x);
      if limit == 0 || start >= x.count {
        return Ok([]);
      }
      var end := Min(Min(start + limit, U64_MAX), x.count);
      var result: seq<Entry>, i := [], start;
      assert all[start..start] == [];
      while i < end
        invariant start <= i <= end && result == Snapshot(m, all[start..i], now, state)
      {
        var p := i / PAGE_SIZE;
        var page, pageEnd := Page(x.pages, p), Min((p + 1) * PAGE_SIZE, end);
        ghost var first := i;
        SamePage(first, i);
        while i < pageEnd
          invariant first <= i <= pageEnd && result == Snapshot(m, all[start..i], now, state)
        {
          SamePage(first, i);
          NextSlot(x, m, now, state, start, i);
          var a := page[i % PAGE_SIZE];
          var entry := Entry(a, StateAt(m, a, now));
          if state.None? || state.value == entry.state { result := result + [entry]; }
          i := i + 1;
        }
      }
      return Ok(result);
    }

    /** `h` stands for the host's SHA-256 of an encoded address and of two concatenated digests. */
    method CheckBlocklist(h: BlocklistProof.Hash, a: Address, proof: seq<Digest>) returns (yes: bool)
      ensures yes <==> BlocklistProof.IsBlockedWithProof(store, h, a, proof)
    {
      if Flag(store.marks.blocked, a) { return true; }
      if store.roles.root.None? { return false; }
      var node := h.leaf(a);
      for i := 0 to |proof|
        invariant node == BlocklistProof.Climb(h, h.leaf(a), proof[..i])
      {
        assert proof[..i + 1][..i] == proof[..i];
        var low, high := if node <= proof[i] then node else proof[i], if node <= proof[i] then proof[i] else node;
        node := h.node(low, high);
      }
      assert proof[..|proof|] == proof;
      return node == store.roles.root.value;
    }
  }

  /** Up to the end of its page, every slot lies on the page of the first one. */
  lemma SamePage(first: nat, i: nat)
    requires first <= i
    ensures first < (first / PAGE_SIZE + 1) * PAGE_SIZE
    ensures i < (first / PAGE_SIZE + 1) * PAGE_SIZE ==> i / PAGE_SIZE == first / PAGE_SIZE
  {
  }

  /** The address that the page arithmetic finds next extends the snapshot of the slice read so far. */
  lemma NextSlot(x: Index, m: Marks, now: u64, state: Option<AddressState>, start: nat, i: nat)
    requires Paged(x) && start <= i < x.count
    ensures |AddressIndex(x)| == x.count && i % PAGE_SIZE < |Page(x.pages, i / PAGE_SIZE)|
    ensures var a := Page(x.pages, i / PAGE_SIZE)[i % PAGE_SIZE];
            var e := Entry(a, StateAt(m, a, now));
            Snapshot(m, AddressIndex(x)[start..i + 1], now, state)
            == Snapshot(m, AddressIndex(x)[start..i], now, state) + if Wanted(state)(e) then [e] else []
  {
    IndexLength(x);
    SlotAt(x, PagesFor(x.count), i);
    var all := AddressIndex(x);
    SnapshotSnoc(m, all[start..i], all[i], now, state);
    assert all[start..i] + [all[i]] == all[start..i + 1];
  }

  lemma {:induction false} AllowEachFails(s: Registry, now: u64, actor: Address, batch: seq<Address>, n: nat)
    requires n <= |batch| && AllowEach(s, now, actor, batch[..n]).Err?
    ensures AllowEach(s, now, actor, batch) == AllowEach(s, now, actor, batch[..n])
  {
    if n == |batch| {
      assert batch[..n] == batch;
    } else {
      assert batch[..|batch| - 1][..n] == batch[..n];
      AllowEachFails(s, now, actor, batch[..|batch| - 1], n);
    }
  }

  lemma {:induction false} BlockEachFails(s: Registry, now: u64, actor: Address, batch: seq<Address>, n: nat)
    requires n <= |batch| && BlockEach(s, now, actor, batch[..n]).Err?
    ensures BlockEach(s, now, actor, batch) == BlockEach(s, now, actor, batch[..n])
  {
    if n == |batch| {
      assert batch[..n] == batch;
    } else {
      assert batch[..|batch| - 1][..n] == batch[..n];
      BlockEachFails(s, now, actor, batch[..|batch| - 1], n);
    }
  }

  /** Once the limit is reached the rest of the index is not touched. */
  lemma {:induction false} SweepStops(s: Registry, now: u64, actor: Address, index: seq<Address>, limit: u32, n: nat)
    requires n <= |index| && limit > 0 && SweepEach(s, now, actor, index[..n], limit).number >= limit
    ensures SweepEach(s, now, actor, index, limit) == SweepEach(s, now, actor, index[..n], limit)
  {
    if n == |index| {
      assert index[..n] == index;
    } else {
      assert index[..|index| - 1][..n] == index[..n];
      SweepStops(s, now, actor, index[..|index| - 1], limit, n);
    }
  }
}
