/** What a sweep clears, that nobody can observe it, and that limited sweeps add up to an unlimited one. */
module ComplianceSweep {
  import opened Common
  import opened ComplianceSpec
  import opened ComplianceIndex

  function IsLapsed(s: Registry, now: u64): Address -> bool { a => Lapsed(s.marks, a, now) }

  /** The lapsed allows, in index order. */
  function LapsedIn(s: Registry, now: u64): seq<Address> { Filter(AddressIndex(s.index), IsLapsed(s, now)) }

  function ExpireBy(now: u64, actor: Address): (Registry, Address) -> Registry { (s, a) => Expire(s, now, actor, a) }

  function ExpireAll(s: Registry, now: u64, actor: Address, batch: seq<Address>): Registry {
    Fold(ExpireBy(now, actor), s, batch)
  }

  /** How many of `n` lapsed allows one sweep clears. */
  function Quota(limit: u32, n: nat): nat { if limit == 0 then n else Min(limit, n) }

  // ----- what expiring a batch does to one address -----

  lemma {:induction false} ExpireAllAt(s: Registry, now: u64, actor: Address, batch: seq<Address>, a: Address)
    ensures var t := ExpireAll(s, now, actor, batch);
            && Flag(t.marks.allowed, a) == (Flag(s.marks.allowed, a) && a !in batch)
            && (a in t.marks.allowedUntil <==> a in s.marks.allowedUntil && a !in batch)
            && (a in t.marks.allowedUntil ==> t.marks.allowedUntil[a] == s.marks.allowedUntil[a])
            && t.marks.blocked == s.marks.blocked && t.marks.blockedUntil == s.marks.blockedUntil
            && t.index == s.index
  {
    if batch != [] {
      var front, last := batch[..|batch| - 1], batch[|batch| - 1];
      ExpireAllAt(s, now, actor, front, a);
      assert ExpireAll(s, now, actor, batch) == Expire(ExpireAll(s, now, actor, front), now, actor, last);
      assert a in batch <==> a in front || a == last by { assert batch == front + [last]; }
    }
  }

  // ----- one sweep -----

  /** The part of the lapsed allows that one sweep takes. */
  function First(xs: seq<Address>, limit: u32): (r: seq<Address>)
    ensures |r| == Quota(limit, |xs|)
  {
    xs[..Quota(limit, |xs|)]
  }

  lemma FirstSnoc(xs: seq<Address>, a: Address, limit: u32)
    ensures limit > 0 && |xs| >= limit ==> First(xs + [a], limit) == First(xs, limit)
    ensures limit == 0 || |xs| < limit ==> First(xs, limit) == xs && First(xs + [a], limit) == xs + [a]
  {
  }

  lemma ExpireAllSnoc(s: Registry, now: u64, actor: Address, xs: seq<Address>, a: Address)
    ensures ExpireAll(s, now, actor, xs + [a]) == Expire(ExpireAll(s, now, actor, xs), now, actor, a)
  {
    assert (xs + [a])[..|xs + [a]| - 1] == xs;
  }

  /** A walk over any duplicate-free list clears exactly its first lapsed allows, up to the limit. */
  lemma {:induction false} SweepEachClears(s: Registry, now: u64, actor: Address, index: seq<Address>, limit: u32)
    requires NoDup(index)
    ensures var batch := First(Filter(index, IsLapsed(s, now)), limit);
            SweepEach(s, now, actor, index, limit) == Swept(ExpireAll(s, now, actor, batch), |batch|)
  {
    if index != [] {
      var front, a := index[..|index| - 1], index[|index| - 1];
      SweepEachClears(s, now, actor, front, limit);
      var before := Filter(front, IsLapsed(s, now));
      FilterMember(front, IsLapsed(s, now), a);
      assert a !in front;
      ExpireAllAt(s, now, actor, First(before, limit), a);
      FirstSnoc(before, a, limit);
      ExpireAllSnoc(s, now, actor, before, a);
    }
  }

  lemma SweepTakesFirst(s: Registry, now: u64, caller: Address, limit: u32)
    requires NoDup(AddressIndex(s.index)) && RequireAdminOrOperator(s, caller).Pass?
    ensures var batch := First(LapsedIn(s, now), limit);
            SweepExpired(s, now, caller, limit) == Ok(Swept(ExpireAll(s, now, caller, batch), |batch|))
  {
    SweepEachClears(s, now, caller, AddressIndex(s.index), limit);
  }

  /**
   A sweep clears exactly the first min(limit, n) of the n lapsed allows in index order, all of them when the
   limit is 0.
   */
  lemma SweepClearsTheFirst(s: Registry, now: u64, caller: Address, limit: u32)
    requires Sound(s) && SweepExpired(s, now, caller, limit).Ok?
    ensures var lapsed := LapsedIn(s, now);
            && SweepExpired(s, now, caller, limit).value
               == Swept(ExpireAll(s, now, caller, First(lapsed, limit)), |First(lapsed, limit)|)
            && NoDup(lapsed) && forall a :: a in lapsed <==> Lapsed(s.marks, a, now)
  {
    SweepTakesFirst(s, now, caller, limit);
    FilterNoDup(AddressIndex(s.index), IsLapsed(s, now));
    FilterMembers(AddressIndex(s.index), IsLapsed(s, now));
  }

  ghost predicate SameAllow(m: Marks, m': Marks, a: Address) {
    && Flag(m'.allowed, a) == Flag(m.allowed, a)
    && (a in m'.allowedUntil <==> a in m.allowedUntil)
    && (a in m.allowedUntil ==> m'.allowedUntil[a] == m.allowedUntil[a])
  }

  /** The flags after a sweep: the swept allows are off, everything else is as before. */
  lemma SweepLeavesTheRest(s: Registry, now: u64, caller: Address, limit: u32, a: Address)
    requires Sound(s) && Sweep(s, now, caller, limit).Ok?
    ensures var s' := Sweep(s, now, caller, limit).value;
            var swept := First(LapsedIn(s, now), limit);
            && (a in swept ==> Lapsed(s.marks, a, now) && !Flag(s'.marks.allowed, a) && a !in s'.marks.allowedUntil)
            && (a !in swept ==> SameAllow(s.marks, s'.marks, a))
            && s'.marks.blocked == s.marks.blocked && s'.marks.blockedUntil == s.marks.blockedUntil
            && AddressIndex(s'.index) == AddressIndex(s.index)
  {
    SweepClearsTheFirst(s, now, caller, limit);
    var swept := First(LapsedIn(s, now), limit);
    ExpireAllAt(s, now, caller, swept, a);
    assert a in swept ==> a in LapsedIn(s, now);
  }

  /** No one can tell, now or later, whether a sweep has run. */
  lemma SweepIsUnobservable(s: Registry, now: u64, caller: Address, limit: u32, a: Address, t: u64)
    requires Sound(s) && Sweep(s, now, caller, limit).Ok? && t >= now
    ensures IsAllowedAt(Sweep(s, now, caller, limit).value.marks, a, t) == IsAllowedAt(s.marks, a, t)
  {
    SweepLeavesTheRest(s, now, caller, limit, a);
  }

  /** After an unlimited sweep no lapsed allow is left anywhere, tracked or not. */
  lemma UnlimitedSweepIsComplete(s: Registry, now: u64, caller: Address, a: Address)
    requires Sound(s) && Sweep(s, now, caller, 0).Ok?
    ensures !Lapsed(Sweep(s, now, caller, 0).value.marks, a, now)
  {
    SweepClearsTheFirst(s, now, caller, 0);
    SweepLeavesTheRest(s, now, caller, 0, a);
    assert LapsedIn(s, now)[..|LapsedIn(s, now)|] == LapsedIn(s, now);
  }

  // ----- sweeps in a row -----

  function OutOf(batch: seq<Address>): Address -> bool { a => a !in batch }

  lemma {:induction false} FilterOutPrefix(xs: seq<Address>, k: nat)
    requires NoDup(xs) && k <= |xs|
    ensures Filter(xs, OutOf(xs[..k])) == xs[k..]
  {
    assert xs == xs[..k] + xs[k..];
    FilterConcat(xs[..k], xs[k..], OutOf(xs[..k]));
    FilterNone(xs[..k], OutOf(xs[..k]));
    FilterAll(xs[k..], OutOf(xs[..k]));
  }

  lemma {:induction false} FilterNone(xs: seq<Address>, p: Address -> bool)
    requires forall i :: 0 <= i < |xs| ==> !p(xs[i])
    ensures Filter(xs, p) == []
  {
    if xs != [] { FilterNone(xs[..|xs| - 1], p); }
  }

  /** Expiring the first `k` lapsed allows leaves the others, in the same order. */
  lemma LapsedAfter(s: Registry, now: u64, actor: Address, k: nat)
    requires NoDup(AddressIndex(s.index)) && k <= |LapsedIn(s, now)|
    ensures LapsedIn(ExpireAll(s, now, actor, LapsedIn(s, now)[..k]), now) == LapsedIn(s, now)[k..]
  {
    var index, lapsed := AddressIndex(s.index), LapsedIn(s, now);
    var batch := lapsed[..k];
    var t := ExpireAll(s, now, actor, batch);
    forall a ensures IsLapsed(t, now)(a) == Both(IsLapsed(s, now), OutOf(batch))(a) && t.index == s.index {
      ExpireAllAt(s, now, actor, batch, a);
    }
    FilterExt(index, IsLapsed(t, now), Both(IsLapsed(s, now), OutOf(batch)));
    FilterTwice(index, IsLapsed(s, now), OutOf(batch));
    FilterNoDup(index, IsLapsed(s, now));
    FilterOutPrefix(lapsed, k);
    ExpireAllAt(s, now, actor, batch, Account(0));
  }

  /** Sweeps made one after the other at the same time by the same caller. */
  function Sweeps(s: Registry, now: u64, caller: Address, limits: seq<u32>): Outcome {
    if limits == [] then Ok(s)
    else
      var t :- Sweeps(s, now, caller, limits[..|limits| - 1]);
      Sweep(t, now, caller, limits[|limits| - 1])
  }

  function Total(limits: seq<u32>): nat {
    if limits == [] then 0 else Total(limits[..|limits| - 1]) + limits[|limits| - 1]
  }

  lemma {:induction false} ExpireAllOnlyMarks(s: Registry, now: u64, actor: Address, batch: seq<Address>)
    ensures var t := ExpireAll(s, now, actor, batch);
            t.roles == s.roles && t.index == s.index && t.marks.blockedBy == s.marks.blockedBy
  {
    if batch != [] {
      var front := batch[..|batch| - 1];
      ExpireAllOnlyMarks(s, now, actor, front);
      assert ExpireAll(s, now, actor, batch) == Expire(ExpireAll(s, now, actor, front), now, actor, batch[|batch| - 1]);
    }
  }

  lemma FirstJoins(xs: seq<Address>, m: nat, limit: u32)
    requires m <= |xs|
    ensures xs[..m] + First(xs[m..], limit) == xs[..m + Quota(limit, |xs| - m)]
  {
  }

  /** Expiring the first `m` and then the next ones a limit allows. */
  lemma ExpireGoesOn(s: Registry, now: u64, actor: Address, xs: seq<Address>, m: nat, limit: u32)
    requires m <= |xs|
    ensures ExpireAll(ExpireAll(s, now, actor, xs[..m]), now, actor, First(xs[m..], limit))
         == ExpireAll(s, now, actor, xs[..m + Quota(limit, |xs| - m)])
  {
    FoldConcat(ExpireBy(now, actor), s, xs[..m], First(xs[m..], limit));
    FirstJoins(xs, m, limit);
  }

  /** A sweep after the first `m` lapsed allows were cleared goes on where they end. */
  lemma SweepGoesOn(s: Registry, now: u64, caller: Address, m: nat, limit: u32)
    requires NoDup(AddressIndex(s.index)) && RequireAdminOrOperator(s, caller).Pass? && m <= |LapsedIn(s, now)|
    ensures var lapsed := LapsedIn(s, now);
            var k := Quota(limit, |lapsed| - m);
            SweepExpired(ExpireAll(s, now, caller, lapsed[..m]), now, caller, limit)
            == Ok(Swept(ExpireAll(s, now, caller, lapsed[..m + k]), k))
  {
    var lapsed := LapsedIn(s, now);
    LapsedAfter(s, now, caller, m);
    ExpireAllOnlyMarks(s, now, caller, lapsed[..m]);
    SweepOfRest(s, ExpireAll(s, now, caller, lapsed[..m]), now, caller, lapsed, m, limit);
  }

  lemma SweepOfRest(s: Registry, t: Registry, now: u64, caller: Address, xs: seq<Address>, m: nat, limit: u32)
    requires NoDup(AddressIndex(t.index)) && RequireAdminOrOperator(t, caller).Pass? && m <= |xs|
    requires t == ExpireAll(s, now, caller, xs[..m]) && LapsedIn(t, now) == xs[m..]
    ensures var k := Quota(limit, |xs| - m);
            SweepExpired(t, now, caller, limit) == Ok(Swept(ExpireAll(s, now, caller, xs[..m + k]), k))
  {
    SweepTakesFirst(t, now, caller, limit);
    ExpireGoesOn(s, now, caller, xs, m, limit);
  }

  /** The registry once the first `n` of `xs` (or all, if there are fewer) are cleared. */
  function Cleared(s: Registry, now: u64, caller: Address, xs: seq<Address>, n: nat): Registry {
    ExpireAll(s, now, caller, xs[..Min(|xs|, n)])
  }

  /** With the first `n` of `xs` cleared, a positive limit clears that many more. */
  ghost predicate Adds(s: Registry, now: u64, caller: Address, xs: seq<Address>, n: nat, limit: u32) {
    Sweep(Cleared(s, now, caller, xs, n), now, caller, limit) == Ok(Cleared(s, now, caller, xs, n + limit))
  }

  lemma SweepAdds(s: Registry, now: u64, caller: Address, n: nat, limit: u32)
    requires NoDup(AddressIndex(s.index)) && RequireAdminOrOperator(s, caller).Pass? && limit > 0
    ensures Adds(s, now, caller, LapsedIn(s, now), n, limit)
  {
    var lapsed := LapsedIn(s, now);
    var m := Min(|lapsed|, n);
    LapsedAfter(s, now, caller, m);
    ExpireAllOnlyMarks(s, now, caller, lapsed[..m]);
    RestAdds(s, ExpireAll(s, now, caller, lapsed[..m]), now, caller, lapsed, n, limit);
  }

  lemma RestAdds(s: Registry, t: Registry, now: u64, caller: Address, xs: seq<Address>, n: nat, limit: u32)
    requires NoDup(AddressIndex(t.index)) && RequireAdminOrOperator(t, caller).Pass? && limit > 0
    requires t == Cleared(s, now, caller, xs, n) && LapsedIn(t, now) == xs[Min(|xs|, n)..]
    ensures Adds(s, now, caller, xs, n, limit)
  {
    SweepTakesFirst(t, now, caller, limit);
    ClearedGrows(s, now, caller, xs, n, limit);
  }

  lemma ClearedGrows(s: Registry, now: u64, caller: Address, xs: seq<Address>, n: nat, limit: u32)
    requires limit > 0
    ensures ExpireAll(Cleared(s, now, caller, xs, n), now, caller, First(xs[Min(|xs|, n)..], limit))
         == Cleared(s, now, caller, xs, n + limit)
  {
    ExpireGoesOn(s, now, caller, xs, Min(|xs|, n), limit);
    QuotaAdds(|xs|, n, limit);
  }

  lemma QuotaAdds(length: nat, n: nat, limit: u32)
    requires limit > 0
    ensures Min(length, n) + Quota(limit, length - Min(length, n)) == Min(length, n + limit)
  {
  }

  lemma {:induction false} AddsUp(s: Registry, now: u64, caller: Address, xs: seq<Address>, limits: seq<u32>)
    requires forall n: nat, limit: u32 :: limit > 0 ==> Adds(s, now, caller, xs, n, limit)
    requires forall i :: 0 <= i < |limits| ==> limits[i] > 0
    ensures Sweeps(s, now, caller, limits) == Ok(Cleared(s, now, caller, xs, Total(limits)))
  {
    if limits == [] {
      assert xs[..0] == [];
    } else {
      AddsUp(s, now, caller, xs, limits[..|limits| - 1]);
      OneMoreAdds(s, now, caller, xs, limits);
    }
  }

  lemma OneMoreAdds(s: Registry, now: u64, caller: Address, xs: seq<Address>, limits: seq<u32>)
    requires limits != [] && Adds(s, now, caller, xs, Total(limits[..|limits| - 1]), limits[|limits| - 1])
    requires Sweeps(s, now, caller, limits[..|limits| - 1])
             == Ok(Cleared(s, now, caller, xs, Total(limits[..|limits| - 1])))
    ensures Sweeps(s, now, caller, limits) == Ok(Cleared(s, now, caller, xs, Total(limits)))
  {
  }

  /** Limited sweeps in a row clear, together, the first `Total(limits)` lapsed allows. */
  lemma SweepsAddUp(s: Registry, now: u64, caller: Address, limits: seq<u32>)
    requires NoDup(AddressIndex(s.index)) && RequireAdminOrOperator(s, caller).Pass?
    requires forall i :: 0 <= i < |limits| ==> limits[i] > 0
    ensures Sweeps(s, now, caller, limits) == Ok(Cleared(s, now, caller, LapsedIn(s, now), Total(limits)))
  {
    forall n: nat, limit: u32 | limit > 0 ensures Adds(s, now, caller, LapsedIn(s, now), n, limit) {
      SweepAdds(s, now, caller, n, limit);
    }
    AddsUp(s, now, caller, LapsedIn(s, now), limits);
  }

  /** Clearing the first `n` clears everything exactly when there are no more than `n`. */
  lemma ClearedAllIff(s: Registry, now: u64, caller: Address, n: nat)
    requires Sound(s)
    ensures Cleared(s, now, caller, LapsedIn(s, now), n) == ExpireAll(s, now, caller, LapsedIn(s, now)) <==>
            n >= |LapsedIn(s, now)|
  {
    var lapsed := LapsedIn(s, now);
    if n >= |lapsed| {
      assert lapsed[..|lapsed|] == lapsed;
    } else {
      FilterNoDup(AddressIndex(s.index), IsLapsed(s, now));
      FilterMember(AddressIndex(s.index), IsLapsed(s, now), lapsed[n]);
      ClearedTooFew(s, now, caller, lapsed, n);
    }
  }

  lemma ClearedTooFew(s: Registry, now: u64, caller: Address, lapsed: seq<Address>, n: nat)
    requires n < |lapsed| && NoDup(lapsed) && Lapsed(s.marks, lapsed[n], now)
    ensures ExpireAll(s, now, caller, lapsed[..n]) != ExpireAll(s, now, caller, lapsed)
  {
    var a := lapsed[n];
    ExpireAllAt(s, now, caller, lapsed[..n], a);
    ExpireAllAt(s, now, caller, lapsed, a);
    assert a in lapsed && a !in lapsed[..n];
  }

  lemma UnlimitedClearsAll(s: Registry, now: u64, caller: Address)
    requires NoDup(AddressIndex(s.index)) && RequireAdminOrOperator(s, caller).Pass?
    ensures Sweep(s, now, caller, 0) == Ok(ExpireAll(s, now, caller, LapsedIn(s, now)))
  {
    SweepTakesFirst(s, now, caller, 0);
    assert First(LapsedIn(s, now), 0) == LapsedIn(s, now);
  }

  /** Limited sweeps end in exactly the state of one unlimited sweep as soon as their limits cover the lapsed allows. */
  lemma LimitedSweepsReachUnlimited(s: Registry, now: u64, caller: Address, limits: seq<u32>)
    requires Sound(s) && RequireAdminOrOperator(s, caller).Pass? && forall i :: 0 <= i < |limits| ==> limits[i] > 0
    ensures Total(limits) >= |LapsedIn(s, now)| <==> Sweeps(s, now, caller, limits) == Sweep(s, now, caller, 0)
  {
    SweepsAddUp(s, now, caller, limits);
    UnlimitedClearsAll(s, now, caller);
    ClearedAllIff(s, now, caller, Total(limits));
  }

  /** The documented loop: once a limited sweep clears nothing, the state is that of one unlimited sweep. */
  lemma ZeroMeansDone(s: Registry, now: u64, caller: Address, limits: seq<u32>, limit: u32)
    requires Sound(s) && RequireAdminOrOperator(s, caller).Pass? && limit > 0
    requires forall i :: 0 <= i < |limits| ==> limits[i] > 0
    requires Sweeps(s, now, caller, limits).Ok?
    requires var w := SweepExpired(Sweeps(s, now, caller, limits).value, now, caller, limit);
             w.Ok? && w.value.number == 0
    ensures Sweeps(s, now, caller, limits) == Sweep(s, now, caller, 0)
  {
    SweepsAddUp(s, now, caller, limits);
    var lapsed := LapsedIn(s, now);
    SweepGoesOn(s, now, caller, Min(|lapsed|, Total(limits)), limit);
    LimitedSweepsReachUnlimited(s, now, caller, limits);
  }

  // ----- the allow decision -----

  /** The documented order, block first: a live block refuses, then a missing allow, then a lapsed one. */
  predicate BlockFirst(m: Marks, a: Address, now: u64) {
    var liveBlock := Flag(m.blocked, a) && (a in m.blockedUntil ==> now < m.blockedUntil[a]);
    var liveAllow := Flag(m.allowed, a) && (a in m.allowedUntil ==> now < m.allowedUntil[a]);
    !liveBlock && liveAllow
  }

  /**
   Reading the allow flag first gives the same answer, and a snapshot says Allowed exactly when there is also
   no block flag.
   */
  lemma DecisionsAgree(m: Marks, a: Address, now: u64)
    ensures IsAllowedAt(m, a, now) == BlockFirst(m, a, now)
    ensures StateAt(m, a, now).Allowed? <==> IsAllowedAt(m, a, now) && !Flag(m.blocked, a)
    ensures StateAt(m, a, now).Expired? <==> !Flag(m.blocked, a) && Lapsed(m, a, now)
  {
  }

  /** A block without an expiry shuts the address out for good exactly when no earlier block's expiry is still stored,
      the address has no allow, or the allow ends first. */
  lemma BlockHoldsIff(s: Registry, now: u64, caller: Address, a: Address)
    requires BlockAddress(s, now, caller, a, None).Ok?
    ensures var s' := BlockAddress(s, now, caller, a, None).value;
            (forall t: u64 :: !IsAllowedAt(s'.marks, a, t)) <==>
            (a !in s.marks.blockedUntil || !Flag(s.marks.allowed, a)
             || (a in s.marks.allowedUntil && s.marks.allowedUntil[a] <= s.marks.blockedUntil[a]))
  {
    var s' := BlockAddress(s, now, caller, a, None).value;
    assert s'.marks.allowed == s.marks.allowed && s'.marks.allowedUntil == s.marks.allowedUntil
           && s'.marks.blockedUntil == s.marks.blockedUntil;
    if a in s.marks.blockedUntil {
      var t: u64 := s.marks.blockedUntil[a];
      assert IsAllowedAt(s'.marks, a, t) <==>
             Flag(s.marks.allowed, a) && (a in s.marks.allowedUntil ==> t < s.marks.allowedUntil[a]);
    }
  }
}
