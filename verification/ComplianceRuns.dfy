/** Runs of the compliance contract: any sequence of timed calls from empty storage; a failing call changes nothing. */
module ComplianceRuns {
  import opened Common
  import opened ComplianceSpec
  import opened ComplianceIndex
  import opened ComplianceSweep

  datatype Event = Event(now: u64, call: Call)

  function Step(s: Registry, e: Event): Registry {
    match CallStep(s, e.now, e.call)
    case Ok(s') => s'
    case Err(_) => s
  }

  function Run(es: seq<Event>): Registry {
    if es == [] then EMPTY_REGISTRY else Step(Run(es[..|es| - 1]), es[|es| - 1])
  }

  lemma RunSnoc(es: seq<Event>, e: Event)
    ensures Run(es + [e]) == Step(Run(es), e)
  {
    assert (es + [e])[..|es + [e]| - 1] == es;
  }

  ghost predicate Chronological(es: seq<Event>) {
    forall i, j :: 0 <= i < j < |es| ==> es[i].now <= es[j].now
  }

  ghost function LastTime(es: seq<Event>): u64 {
    if es == [] then 0 else es[|es| - 1].now
  }

  lemma StepKeeps(s: Registry, e: Event)
    requires Sound(s)
    ensures Sound(Step(s, e)) && Evolves(s, Step(s, e), e.now)
  {
    if CallStep(s, e.now, e.call).Ok? { CallStepKeeps(s, e.now, e.call); }
  }

  lemma EmptyIsSound()
    ensures Sound(EMPTY_REGISTRY)
  {
    assert forall p: nat :: PageOk(EMPTY_REGISTRY.index, p);
    assert AddressIndex(EMPTY_REGISTRY.index) == [];
    assert forall a :: RingOk(EMPTY_REGISTRY, a);
  }

  lemma {:induction false} RunIsSound(es: seq<Event>)
    ensures Sound(Run(es))
  {
    if es == [] {
      EmptyIsSound();
    } else {
      RunIsSound(es[..|es| - 1]);
      StepKeeps(Run(es[..|es| - 1]), es[|es| - 1]);
    }
  }

  // ----- the index -----

  /** In every run the pages spell out a duplicate-free list of at most 2000 addresses: the slot of each is where
      arithmetic puts it, pages before the last are full, and the markers are exactly its elements. */
  lemma IndexIsFlat(es: seq<Event>, i: nat)
    ensures var x := Run(es).index;
            && |AddressIndex(x)| == x.count <= MAX_TRACKED_ADDRESSES && NoDup(AddressIndex(x))
            && (forall a :: a in x.tracked <==> a in AddressIndex(x))
            && |Page(x.pages, i / PAGE_SIZE)| == PageLength(x.count, i / PAGE_SIZE)
            && (i < x.count ==> i % PAGE_SIZE < |Page(x.pages, i / PAGE_SIZE)|
                                && AddressIndex(x)[i] == Page(x.pages, i / PAGE_SIZE)[i % PAGE_SIZE])
  {
    RunIsSound(es);
    var x := Run(es).index;
    IndexLength(x);
    assert PageOk(x, i / PAGE_SIZE);
    if i < x.count { SlotAt(x, PagesFor(x.count), i); }
  }

  /** The index is append-only: an earlier one is a prefix of every later one. */
  lemma {:induction false} IndexOnlyGrows(es: seq<Event>, i: nat)
    requires i <= |es|
    ensures AddressIndex(Run(es[..i]).index) <= AddressIndex(Run(es).index)
  {
    if i == |es| {
      assert es[..i] == es;
    } else {
      var front := es[..|es| - 1];
      assert front[..i] == es[..i];
      IndexOnlyGrows(front, i);
      RunIsSound(front);
      StepKeeps(Run(front), es[|es| - 1]);
    }
  }

  /**
   Every address that is flagged, dated, tiered or has a history is tracked, and a tracked one always has a history.
   */
  lemma FlaggedAreTracked(es: seq<Event>, a: Address)
    ensures var s := Run(es);
            && (a in s.marks.allowed || a in s.marks.allowedUntil || a in s.marks.tier ==> a in AddressIndex(s.index))
            && (a in s.marks.blocked || a in s.marks.blockedUntil ==> a in AddressIndex(s.index))
            && (a in s.history <==> a in AddressIndex(s.index))
            && (a in s.history ==> 0 < |s.history[a]| <= MAX_STATUS_HISTORY)
  {
    RunIsSound(es);
    assert RingOk(Run(es), a);
  }

  // ----- the history -----

  ghost predicate LogUpTo(log: seq<Change>, now: int) {
    && (forall i :: 0 <= i < |log| ==> log[i].entry.at <= now)
    && forall i, j :: 0 <= i < j < |log| ==> log[i].entry.at <= log[j].entry.at
  }

  /** The times in the log never decrease along a chronological run. */
  lemma {:induction false} LogIsChronological(es: seq<Event>)
    requires Chronological(es)
    ensures LogUpTo(Run(es).log, LastTime(es))
  {
    if es != [] {
      var front := es[..|es| - 1];
      LogIsChronological(front);
      RunIsSound(front);
      StepKeeps(Run(front), es[|es| - 1]);
      assert LastTime(front) <= LastTime(es);
      LogGrows(Run(front).log, Run(es).log, LastTime(front), LastTime(es));
    }
  }

  lemma LogGrows(log: seq<Change>, log': seq<Change>, earlier: int, now: int)
    requires LogUpTo(log, earlier) && earlier <= now && log <= log'
    requires forall i :: |log| <= i < |log'| ==> log'[i].entry.at == now
    ensures LogUpTo(log', now)
  {
    assert forall i :: 0 <= i < |log| ==> log'[i] == log[i];
  }

  ghost predicate TimesUpTo(h: seq<StatusEntry>, now: int) {
    && (forall i :: 0 <= i < |h| ==> h[i].at <= now)
    && forall i, j :: 0 <= i < j < |h| ==> h[i].at <= h[j].at
  }

  lemma {:induction false} EntriesInOrder(log: seq<Change>, a: Address, now: int)
    requires LogUpTo(log, now)
    ensures TimesUpTo(EntriesOf(log, a), now)
  {
    if log != [] {
      EntriesInOrder(log[..|log| - 1], a, log[|log| - 1].entry.at);
    }
  }

  /** The stored history of an address is the newest ten of all its changes, oldest first, in time order. */
  lemma HistoryIsNewest(es: seq<Event>, a: Address)
    requires Chronological(es)
    ensures var h := Lookup(Run(es).history, a, []);
            && h == Newest(EntriesOf(Run(es).log, a)) && TimesUpTo(h, LastTime(es))
  {
    RunIsSound(es);
    assert RingOk(Run(es), a);
    LogIsChronological(es);
    EntriesInOrder(Run(es).log, a, LastTime(es));
  }

  // ----- runs without their sweeps -----

  function WithoutSweeps(es: seq<Event>): seq<Event> {
    if es == [] then []
    else
      var front, e := WithoutSweeps(es[..|es| - 1]), es[|es| - 1];
      if e.call.Sweeping? then front else front + [e]
  }

  /** The allow of `a` is the same in both, or it has lapsed in `u` and was swept in `m`. */
  ghost predicate AlikeAt(m: Marks, u: Marks, a: Address, now: u64) {
    SameAllow(m, u, a) || (Lapsed(u, a, now) && !Flag(m.allowed, a) && a !in m.allowedUntil)
  }

  ghost predicate Alike(s: Registry, u: Registry, now: u64) {
    && s.roles == u.roles && s.index == u.index
    && s.marks.blocked == u.marks.blocked && s.marks.blockedUntil == u.marks.blockedUntil
    && s.marks.blockedBy == u.marks.blockedBy
    && forall a :: AlikeAt(s.marks, u.marks, a, now)
  }

  lemma AlikeLater(s: Registry, u: Registry, earlier: u64, now: u64)
    requires Alike(s, u, earlier) && earlier <= now
    ensures Alike(s, u, now)
  {
    forall a ensures AlikeAt(s.marks, u.marks, a, now) { assert AlikeAt(s.marks, u.marks, a, earlier); }
  }

  lemma AlikeDecides(s: Registry, u: Registry, now: u64, a: Address, t: u64)
    requires Alike(s, u, now) && t >= now
    ensures IsAllowedAt(s.marks, a, t) == IsAllowedAt(u.marks, a, t)
  {
    assert AlikeAt(s.marks, u.marks, a, now);
  }

  /** A sweep of one of two alike states leaves them alike. */
  lemma SweepKeepsAlike(s: Registry, u: Registry, now: u64, caller: Address, limit: u32)
    requires Sound(s) && Alike(s, u, now) && Sweep(s, now, caller, limit).Ok?
    ensures Alike(Sweep(s, now, caller, limit).value, u, now)
  {
    var s' := Sweep(s, now, caller, limit).value;
    SweepClearsTheFirst(s, now, caller, limit);
    ExpireAllOnlyMarks(s, now, caller, First(LapsedIn(s, now), limit));
    forall a ensures AlikeAt(s'.marks, u.marks, a, now) {
      assert AlikeAt(s.marks, u.marks, a, now);
      SweepLeavesTheRest(s, now, caller, limit, a);
    }
    SweepLeavesTheRest(s, now, caller, limit, caller);
  }

  ghost predicate BothOrNeither(r: Outcome, q: Outcome, now: u64) {
    if r.Ok? then q.Ok? && Alike(r.value, q.value, now) else r == Err(r.error) && q == Err(r.error)
  }

  ghost predicate SameElsewhere(m: Marks, m': Marks, a: Address) {
    forall b :: b != a ==> SameAllow(m, m', b)
  }

  /** The same marks put on alike states: what is written about `a` agrees, the rest is as before. */
  lemma RecordAlike(s: Registry, u: Registry, m: Marks, k: Marks, a: Address, status: AddressState, now: u64,
                    actor: Address)
    requires Alike(s, u, now) && AlikeAt(m, k, a, now)
    requires m.blocked == k.blocked && m.blockedUntil == k.blockedUntil && m.blockedBy == k.blockedBy
    requires SameElsewhere(s.marks, m, a) && SameElsewhere(u.marks, k, a)
    ensures BothOrNeither(Record(s, m, a, status, now, actor), Record(u, k, a, status, now, actor), now)
  {
    forall b ensures AlikeAt(m, k, b, now) {
      assert AlikeAt(s.marks, u.marks, b, now);
      assert b != a ==> SameAllow(s.marks, m, b) && SameAllow(u.marks, k, b);
    }
  }

  lemma AllowAlike(s: Registry, u: Registry, now: u64, actor: Address, a: Address, until: Option<u64>, counted: bool)
    requires Alike(s, u, now)
    ensures BothOrNeither(Record(s, AllowMarked(s.marks, a, until, counted), a, Allowed, now, actor),
                          Record(u, AllowMarked(u.marks, a, until, counted), a, Allowed, now, actor), now)
  {
    RecordAlike(s, u, AllowMarked(s.marks, a, until, counted), AllowMarked(u.marks, a, until, counted), a, Allowed,
                now, actor);
  }

  lemma TierAlike(s: Registry, u: Registry, now: u64, actor: Address, a: Address, tier: u32)
    requires Alike(s, u, now)
    ensures BothOrNeither(Record(s, TierMarked(s.marks, a, tier), a, Allowed, now, actor),
                          Record(u, TierMarked(u.marks, a, tier), a, Allowed, now, actor), now)
  {
    RecordAlike(s, u, TierMarked(s.marks, a, tier), TierMarked(u.marks, a, tier), a, Allowed, now, actor);
  }

  lemma BlockAlike(s: Registry, u: Registry, now: u64, actor: Address, a: Address, until: Option<u64>)
    requires Alike(s, u, now)
    ensures BothOrNeither(BlockOne(s, now, actor, a, until), BlockOne(u, now, actor, a, until), now)
  {
    assert AlikeAt(s.marks, u.marks, a, now);
    RecordAlike(s, u, BlockMarked(s.marks, a, until, actor), BlockMarked(u.marks, a, until, actor), a, Blocked, now,
                actor);
  }

  lemma ClearAlike(s: Registry, u: Registry, now: u64, caller: Address, a: Address)
    requires Alike(s, u, now)
    ensures BothOrNeither(ClearAddress(s, now, caller, a), ClearAddress(u, now, caller, a), now)
  {
    RecordAlike(s, u, ClearMarked(s.marks, a), ClearMarked(u.marks, a), a, Allowed, now, caller);
  }

  lemma RevokeAlike(s: Registry, u: Registry, now: u64, caller: Address, a: Address)
    requires Alike(s, u, now)
    ensures BothOrNeither(RevokeAllow(s, now, caller, a), RevokeAllow(u, now, caller, a), now)
  {
    RecordAlike(s, u, RevokeMarked(s.marks, a), RevokeMarked(u.marks, a), a, Blocked, now, caller);
  }

  lemma MarkStepAlike(s: Registry, u: Registry, now: u64, call: MarkCall)
    requires Alike(s, u, now)
    ensures BothOrNeither(MarkStep(s, now, call), MarkStep(u, now, call), now)
  {
    match call
    case CallAllow(caller, a) => AllowAlike(s, u, now, caller, a, None, true);
    case CallAllowWithTier(caller, a, tier) => TierAlike(s, u, now, caller, a, tier);
    case CallAllowUntil(caller, a, at) => AllowAlike(s, u, now, caller, a, Some(at), false);
    case CallBlock(caller, a, until) => BlockAlike(s, u, now, caller, a, until);
    case CallClear(caller, a) => ClearAlike(s, u, now, caller, a);
    case CallRevoke(caller, a) => RevokeAlike(s, u, now, caller, a);
  }

  lemma {:induction false} AllowEachAlike(s: Registry, u: Registry, now: u64, actor: Address, batch: seq<Address>)
    requires Alike(s, u, now)
    ensures BothOrNeither(AllowEach(s, now, actor, batch), AllowEach(u, now, actor, batch), now)
  {
    if batch != [] {
      var front, a := batch[..|batch| - 1], batch[|batch| - 1];
      AllowEachAlike(s, u, now, actor, front);
      if AllowEach(s, now, actor, front).Ok? {
        var t, v := AllowEach(s, now, actor, front).value, AllowEach(u, now, actor, front).value;
        AllowAlike(t, v, now, actor, a, None, true);
      }
    }
  }

  lemma {:induction false} BlockEachAlike(s: Registry, u: Registry, now: u64, actor: Address, batch: seq<Address>)
    requires Alike(s, u, now)
    ensures BothOrNeither(BlockEach(s, now, actor, batch), BlockEach(u, now, actor, batch), now)
  {
    if batch != [] {
      var front, a := batch[..|batch| - 1], batch[|batch| - 1];
      BlockEachAlike(s, u, now, actor, front);
      if BlockEach(s, now, actor, front).Ok? {
        var t, v := BlockEach(s, now, actor, front).value, BlockEach(u, now, actor, front).value;
        BlockAlike(t, v, now, actor, a, None);
      }
    }
  }

  lemma RolesAlike(s: Registry, u: Registry, roles: Roles, now: u64)
    requires Alike(s, u, now)
    ensures Alike(s.(roles := roles), u.(roles := roles), now)
  {
    forall a ensures AlikeAt(s.(roles := roles).marks, u.(roles := roles).marks, a, now) {
      assert AlikeAt(s.marks, u.marks, a, now);
    }
  }

  /** Any call but a sweep succeeds in both of two alike states or fails in both, and leaves them alike. */
  lemma CallStepAlike(s: Registry, u: Registry, now: u64, call: Call)
    requires Alike(s, u, now) && !call.Sweeping?
    ensures BothOrNeither(CallStep(s, now, call), CallStep(u, now, call), now)
  {
    match call
    case Marking(c) => MarkStepAlike(s, u, now, c);
    case BulkAllowing(caller, batch) =>
      var roles := s.roles.(lastBulkAllow := s.roles.lastBulkAllow[caller := now]);
      RolesAlike(s, u, roles, now);
      AllowEachAlike(s.(roles := roles), u.(roles := roles), now, caller, batch);
    case BulkBlocking(caller, batch) =>
      var roles := s.roles.(lastBulkBlock := s.roles.lastBulkBlock[caller := now]);
      RolesAlike(s, u, roles, now);
      BlockEachAlike(s.(roles := roles), u.(roles := roles), now, caller, batch);
    case Managing(c) =>
      if RoleStep(s.roles, c).Ok? { RolesAlike(s, u, RoleStep(s.roles, c).value, now); }
  }

  lemma {:induction false} RunsAlike(es: seq<Event>)
    requires Chronological(es)
    ensures Alike(Run(es), Run(WithoutSweeps(es)), LastTime(es))
  {
    if es == [] {
      assert forall a :: AlikeAt(EMPTY_REGISTRY.marks, EMPTY_REGISTRY.marks, a, 0);
    } else {
      var front, e := es[..|es| - 1], es[|es| - 1];
      RunsAlike(front);
      RunIsSound(front);
      var s, u := Run(front), Run(WithoutSweeps(front));
      assert LastTime(front) <= e.now;
      AlikeLater(s, u, LastTime(front), e.now);
      if e.call.Sweeping? {
        if CallStep(s, e.now, e.call).Ok? { SweepKeepsAlike(s, u, e.now, e.call.caller, e.call.limit); }
      } else {
        CallStepAlike(s, u, e.now, e.call);
        assert (WithoutSweeps(front) + [e])[..|WithoutSweeps(front)|] == WithoutSweeps(front);
      }
    }
  }

  /** Taking every sweep out of a run, whatever else it does, changes no later answer of the allow check. */
  lemma SweepsAreInvisible(es: seq<Event>, a: Address, t: u64)
    requires Chronological(es) && t >= LastTime(es)
    ensures IsAllowedAt(Run(es).marks, a, t) == IsAllowedAt(Run(WithoutSweeps(es)).marks, a, t)
  {
    RunsAlike(es);
    AlikeDecides(Run(es), Run(WithoutSweeps(es)), LastTime(es), a, t);
  }

  // ----- where a promise fails -----

  const ADMIN: Address := Account(1)
  const TRADER: Address := Account(2)

  const ALLOWED_THEN_BLOCKED: seq<Event> := [
    Event(1, Managing(CallInitialize(ADMIN))),
    Event(2, Marking(CallAllow(ADMIN, TRADER))),
    Event(3, Marking(CallBlock(ADMIN, TRADER, Some(10)))),
    Event(20, Marking(CallBlock(ADMIN, TRADER, None)))
  ]

  /** A block without expiry placed after a temporary one has lapsed keeps the old expiry and refuses nothing. */
  lemma StaleExpiryLiftsBlock()
    ensures var m := Run(ALLOWED_THEN_BLOCKED).marks;
            Flag(m.blocked, TRADER) && IsAllowedAt(m, TRADER, 20)
  {
    var es := ALLOWED_THEN_BLOCKED;
    var e1, e2, e3, e4 := es[0], es[1], es[2], es[3];
    RunSnoc([], e1);
    RunSnoc([e1], e2);
    RunSnoc([e1, e2], e3);
    RunSnoc([e1, e2, e3], e4);
    assert [] + [e1] == [e1] && [e1] + [e2] == [e1, e2] && [e1, e2] + [e3] == [e1, e2, e3];
    assert [e1, e2, e3] + [e4] == ALLOWED_THEN_BLOCKED;
    var s1, s2, s3 := Run([e1]), Run([e1, e2]), Run([e1, e2, e3]);
    assert s1 == EMPTY_REGISTRY.(roles := EMPTY_REGISTRY.roles.(admin := Some(ADMIN)));
    assert s2.roles == s1.roles && s2.marks == AllowMarked(s1.marks, TRADER, None, true) && s2.index.count == 1;
    assert s3.roles == s1.roles && s3.marks == BlockMarked(s2.marks, TRADER, Some(10), ADMIN) && s3.index == s2.index;
    assert Run(ALLOWED_THEN_BLOCKED).marks == BlockMarked(s3.marks, TRADER, None, ADMIN);
  }
}
