/** The paged address index as a flat append-only sequence, and the bounded history as the tail of a full log. */
module ComplianceIndex {
  import opened Common
  import opened ComplianceSpec

  // ----- pages -----

  /** How many of the first `count` slots lie on page `p`. */
  function PageLength(count: nat, p: nat): nat {
    if count <= p * PAGE_SIZE then 0 else Min(PAGE_SIZE, count - p * PAGE_SIZE)
  }

  ghost predicate PageOk(x: Index, p: nat) { |Page(x.pages, p)| == PageLength(x.count, p) }

  /** Every page before the last is full and the last holds the rest. */
  ghost predicate Paged(x: Index) { forall p: nat :: PageOk(x, p) }

  lemma {:induction false} ConcatenatedLength(x: Index, n: nat)
    requires Paged(x)
    ensures |Concatenated(x.pages, n)| == Min(x.count, n * PAGE_SIZE)
  {
    if n > 0 {
      ConcatenatedLength(x, n - 1);
      assert PageOk(x, n - 1);
    }
  }

  lemma IndexLength(x: Index)
    requires Paged(x)
    ensures |AddressIndex(x)| == x.count
  {
    ConcatenatedLength(x, PagesFor(x.count));
  }

  /** Slot `i` of the index is on page i / 25, at i % 25. */
  lemma {:induction false} SlotAt(x: Index, n: nat, i: nat)
    requires Paged(x) && i < x.count && i < n * PAGE_SIZE
    ensures i % PAGE_SIZE < |Page(x.pages, i / PAGE_SIZE)|
    ensures i < |Concatenated(x.pages, n)| && Concatenated(x.pages, n)[i] == Page(x.pages, i / PAGE_SIZE)[i % PAGE_SIZE]
  {
    ConcatenatedLength(x, n);
    ConcatenatedLength(x, n - 1);
    assert PageOk(x, i / PAGE_SIZE);
    if i < (n - 1) * PAGE_SIZE {
      SlotAt(x, n - 1, i);
    }
  }

  lemma {:induction false} ConcatenatedSame(p: map<nat, seq<Address>>, q: map<nat, seq<Address>>, n: nat)
    requires forall k: nat :: k < n ==> Page(p, k) == Page(q, k)
    ensures Concatenated(p, n) == Concatenated(q, n)
  {
    if n > 0 {
      ConcatenatedSame(p, q, n - 1);
      assert Page(p, n - 1) == Page(q, n - 1);
    }
  }

  lemma TrackKeepsPages(x: Index, a: Address)
    requires Paged(x) && a !in x.tracked && Track(x, a).Ok?
    ensures Paged(Track(x, a).value)
  {
    var x' := Track(x, a).value;
    forall p: nat ensures PageOk(x', p) { assert PageOk(x, p); }
  }

  /** Tracking a new address appends it to the flat index. */
  lemma TrackAppends(x: Index, a: Address)
    requires Paged(x) && a !in x.tracked && Track(x, a).Ok?
    ensures AddressIndex(Track(x, a).value) == AddressIndex(x) + [a]
  {
    var x' := Track(x, a).value;
    var p := x.count / PAGE_SIZE;
    ConcatenatedSame(x.pages, x'.pages, p);
    assert PagesFor(x'.count) == p + 1;
    assert PageOk(x, p);
    if x.count % PAGE_SIZE == 0 {
      assert Page(x.pages, p) == [];
    }
    assert AddressIndex(x) == Concatenated(x.pages, p) + Page(x.pages, p);
  }

  ghost predicate Indexed(x: Index) {
    && Paged(x) && NoDup(AddressIndex(x)) && x.count <= MAX_TRACKED_ADDRESSES
    && forall a :: a in x.tracked <==> a in AddressIndex(x)
  }

  lemma TrackKeepsIndexed(x: Index, a: Address)
    requires Indexed(x) && Track(x, a).Ok?
    ensures var x' := Track(x, a).value;
            && Indexed(x') && AddressIndex(x) <= AddressIndex(x') && x'.tracked == x.tracked + {a}
  {
    if a !in x.tracked {
      TrackKeepsPages(x, a);
      TrackAppends(x, a);
    }
  }

  // ----- snapshots -----

  datatype Entry = Entry(address: Address, state: AddressState)

  function EntryOf(m: Marks, a: Address, now: u64): Entry { Entry(a, StateAt(m, a, now)) }

  function Described(m: Marks, xs: seq<Address>, now: u64): seq<Entry> {
    seq(|xs|, i requires 0 <= i < |xs| => EntryOf(m, xs[i], now))
  }

  function Wanted(state: Option<AddressState>): Entry -> bool { (e: Entry) => state.None? || e.state == state.value }

  /** At most `limit` elements after the first `start`. */
  function Window(xs: seq<Address>, start: nat, limit: nat): seq<Address> {
    var lo := Min(start, |xs|);
    xs[lo..Min(start + limit, |xs|)]
  }

  /** The addresses `xs` with their states, those in the wanted state only. */
  function Snapshot(m: Marks, xs: seq<Address>, now: u64, state: Option<AddressState>): seq<Entry> {
    Filter(Described(m, xs, now), Wanted(state))
  }

  lemma DescribedConcat(m: Marks, xs: seq<Address>, ys: seq<Address>, now: u64)
    ensures Described(m, xs + ys, now) == Described(m, xs, now) + Described(m, ys, now)
  {
  }

  lemma SnapshotSnoc(m: Marks, xs: seq<Address>, a: Address, now: u64, state: Option<AddressState>)
    ensures var e := Entry(a, StateAt(m, a, now));
            Snapshot(m, xs + [a], now, state) == Snapshot(m, xs, now, state) + if Wanted(state)(e) then [e] else []
  {
    DescribedConcat(m, xs, [a], now);
    assert Described(m, [a], now) == [EntryOf(m, a, now)];
    FilterConcat(Described(m, xs, now), [EntryOf(m, a, now)], Wanted(state));
  }

  /** Reading on from where a page ended gives what one longer page would have given. */
  lemma PagesTile(m: Marks, xs: seq<Address>, now: u64, state: Option<AddressState>, start: nat, limit: nat, more: nat)
    ensures Snapshot(m, Window(xs, start, limit), now, state) + Snapshot(m, Window(xs, start + limit, more), now, state)
         == Snapshot(m, Window(xs, start, limit + more), now, state)
  {
    var left, right := Window(xs, start, limit), Window(xs, start + limit, more);
    assert Window(xs, start, limit + more) == left + right;
    DescribedConcat(m, left, right, now);
    FilterConcat(Described(m, left, now), Described(m, right, now), Wanted(state));
  }

  // ----- history -----

  ghost function EntriesOf(log: seq<Change>, a: Address): seq<StatusEntry> {
    if log == [] then []
    else
      var front, c := EntriesOf(log[..|log| - 1], a), log[|log| - 1];
      if c.address == a then front + [c.entry] else front
  }

  ghost function Newest(h: seq<StatusEntry>): seq<StatusEntry> {
    if |h| <= MAX_STATUS_HISTORY then h else h[|h| - MAX_STATUS_HISTORY..]
  }

  /** The stored history of `a` is the newest part of everything ever recorded about it. */
  ghost predicate RingOk(s: Registry, a: Address) {
    && Lookup(s.history, a, []) == Newest(EntriesOf(s.log, a))
    && (a in s.history <==> EntriesOf(s.log, a) != [])
  }

  lemma RememberKeepsRing(s: Registry, a: Address, e: StatusEntry, b: Address)
    requires RingOk(s, b)
    ensures RingOk(Remember(s, a, e), b)
  {
    var s' := Remember(s, a, e);
    assert s'.log[..|s'.log| - 1] == s.log;
  }

  // ----- the invariant -----

  /** Every address that was ever flagged, dated or tiered is in `known`. */
  ghost predicate Within(m: Marks, known: set<Address>) {
    && m.allowed.Keys <= known && m.blocked.Keys <= known && m.allowedUntil.Keys <= known
    && m.blockedUntil.Keys <= known && m.tier.Keys <= known
  }

  ghost predicate Sound(s: Registry) {
    && Indexed(s.index) && Within(s.marks, s.index.tracked) && s.history.Keys == s.index.tracked
    && forall a :: RingOk(s, a)
  }

  /** The index and the log only grow, and what is logged carries the time of the call. */
  ghost predicate Evolves(s: Registry, s': Registry, now: u64) {
    && AddressIndex(s.index) <= AddressIndex(s'.index) && s.log <= s'.log
    && forall i :: |s.log| <= i < |s'.log| ==> s'.log[i].entry.at == now
  }

  lemma RecordKeeps(s: Registry, m: Marks, a: Address, status: AddressState, now: u64, actor: Address)
    requires Sound(s) && Within(m, s.index.tracked + {a}) && Record(s, m, a, status, now, actor).Ok?
    ensures var s' := Record(s, m, a, status, now, actor).value;
            Sound(s') && Evolves(s, s', now)
  {
    var e := StatusEntry(status, now, actor);
    var s' := Record(s, m, a, status, now, actor).value;
    TrackKeepsIndexed(s.index, a);
    forall b ensures RingOk(s', b) {
      assert RingOk(s, b);
      RememberKeepsRing(s, a, e, b);
    }
  }

  lemma ExpireKeeps(s: Registry, now: u64, actor: Address, a: Address)
    requires Sound(s) && a in s.index.tracked
    ensures Sound(Expire(s, now, actor, a)) && Evolves(s, Expire(s, now, actor, a), now)
  {
    RecordKeeps(s, ExpireMarked(s.marks, a), a, Expired, now, actor);
  }

  lemma EvolvesTwice(s: Registry, t: Registry, u: Registry, now: u64)
    requires Evolves(s, t, now) && Evolves(t, u, now)
    ensures Evolves(s, u, now)
  {
  }

  lemma AllowWithin(m: Marks, known: set<Address>, a: Address, until: Option<u64>, counted: bool)
    requires Within(m, known)
    ensures Within(AllowMarked(m, a, until, counted), known + {a})
  {
  }

  lemma TierWithin(m: Marks, known: set<Address>, a: Address, tier: u32)
    requires Within(m, known)
    ensures Within(TierMarked(m, a, tier), known + {a})
  {
  }

  lemma BlockWithin(m: Marks, known: set<Address>, a: Address, until: Option<u64>, placer: Address)
    requires Within(m, known)
    ensures Within(BlockMarked(m, a, until, placer), known + {a})
  {
  }

  lemma ClearWithin(m: Marks, known: set<Address>, a: Address)
    requires Within(m, known)
    ensures Within(ClearMarked(m, a), known + {a})
  {
  }

  lemma RevokeWithin(m: Marks, known: set<Address>, a: Address)
    requires Within(m, known)
    ensures Within(RevokeMarked(m, a), known + {a})
  {
  }

  lemma MarkStepKeeps(s: Registry, now: u64, call: MarkCall)
    requires Sound(s) && MarkStep(s, now, call).Ok?
    ensures Sound(MarkStep(s, now, call).value) && Evolves(s, MarkStep(s, now, call).value, now)
  {
    var m, known := s.marks, s.index.tracked;
    match call
    case CallAllow(caller, a) =>
      AllowWithin(m, known, a, None, true);
      RecordKeeps(s, AllowMarked(m, a, None, true), a, Allowed, now, caller);
    case CallAllowWithTier(caller, a, tier) =>
      TierWithin(m, known, a, tier);
      RecordKeeps(s, TierMarked(m, a, tier), a, Allowed, now, caller);
    case CallAllowUntil(caller, a, at) =>
      AllowWithin(m, known, a, Some(at), false);
      RecordKeeps(s, AllowMarked(m, a, Some(at), false), a, Allowed, now, caller);
    case CallBlock(caller, a, until) =>
      BlockWithin(m, known, a, until, caller);
      RecordKeeps(s, BlockMarked(m, a, until, caller), a, Blocked, now, caller);
    case CallClear(caller, a) =>
      ClearWithin(m, known, a);
      RecordKeeps(s, ClearMarked(m, a), a, Allowed, now, caller);
    case CallRevoke(caller, a) =>
      RevokeWithin(m, known, a);
      RecordKeeps(s, RevokeMarked(m, a), a, Blocked, now, caller);
  }

  /** Roles and settings are no part of the invariant. */
  lemma RolesKeep(s: Registry, roles: Roles, now: u64)
    requires Sound(s)
    ensures Sound(s.(roles := roles)) && Evolves(s, s.(roles := roles), now)
  {
    forall a ensures RingOk(s.(roles := roles), a) { assert RingOk(s, a); }
  }

  lemma {:induction false} AllowEachKeeps(s: Registry, now: u64, actor: Address, batch: seq<Address>)
    requires Sound(s) && AllowEach(s, now, actor, batch).Ok?
    ensures Sound(AllowEach(s, now, actor, batch).value) && Evolves(s, AllowEach(s, now, actor, batch).value, now)
  {
    if batch != [] {
      var front, a := batch[..|batch| - 1], batch[|batch| - 1];
      AllowEachKeeps(s, now, actor, front);
      var t := AllowEach(s, now, actor, front).value;
      RecordKeeps(t, AllowMarked(t.marks, a, None, true), a, Allowed, now, actor);
      EvolvesTwice(s, t, AllowOne(t, now, actor, a).value, now);
    }
  }

  lemma {:induction false} BlockEachKeeps(s: Registry, now: u64, actor: Address, batch: seq<Address>)
    requires Sound(s) && BlockEach(s, now, actor, batch).Ok?
    ensures Sound(BlockEach(s, now, actor, batch).value) && Evolves(s, BlockEach(s, now, actor, batch).value, now)
  {
    if batch != [] {
      var front, a := batch[..|batch| - 1], batch[|batch| - 1];
      BlockEachKeeps(s, now, actor, front);
      var t := BlockEach(s, now, actor, front).value;
      RecordKeeps(t, BlockMarked(t.marks, a, None, actor), a, Blocked, now, actor);
      EvolvesTwice(s, t, BlockOne(t, now, actor, a, None).value, now);
    }
  }

  lemma {:induction false} SweepEachKeeps(s: Registry, now: u64, actor: Address, index: seq<Address>, limit: u32)
    requires Sound(s)
    ensures Sound(SweepEach(s, now, actor, index, limit).state)
            && Evolves(s, SweepEach(s, now, actor, index, limit).state, now)
  {
    if index != [] {
      SweepEachKeeps(s, now, actor, index[..|index| - 1], limit);
      var w, a := SweepEach(s, now, actor, index[..|index| - 1], limit), index[|index| - 1];
      if Lapsed(w.state.marks, a, now) {
        ExpireKeeps(w.state, now, actor, a);
        EvolvesTwice(s, w.state, Expire(w.state, now, actor, a), now);
      }
    }
  }

  /** Every call keeps the invariant, and only extends the index and the log. */
  lemma CallStepKeeps(s: Registry, now: u64, call: Call)
    requires Sound(s) && CallStep(s, now, call).Ok?
    ensures Sound(CallStep(s, now, call).value) && Evolves(s, CallStep(s, now, call).value, now)
  {
    var s' := CallStep(s, now, call).value;
    match call
    case Marking(c) => MarkStepKeeps(s, now, c);
    case BulkAllowing(caller, batch) =>
      var roles := s.roles.(lastBulkAllow := s.roles.lastBulkAllow[caller := now]);
      RolesKeep(s, roles, now);
      AllowEachKeeps(s.(roles := roles), now, caller, batch);
      EvolvesTwice(s, s.(roles := roles), s', now);
    case BulkBlocking(caller, batch) =>
      var roles := s.roles.(lastBulkBlock := s.roles.lastBulkBlock[caller := now]);
      RolesKeep(s, roles, now);
      BlockEachKeeps(s.(roles := roles), now, caller, batch);
      EvolvesTwice(s, s.(roles := roles), s', now);
    case Sweeping(caller, limit) => SweepEachKeeps(s, now, caller, AddressIndex(s.index), limit);
    case Managing(c) => RolesKeep(s, s'.roles, now);
  }
}
