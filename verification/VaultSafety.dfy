/** What every vault call keeps: depositor balances add up to the token totals, and the outflow stays capped. */
module VaultSafety {
  import opened Common
  import opened TreasuryTypes
  import opened VaultSpec

  // ----- conservation -----

  type Balances = map<(Address, Address), i128>

  ghost function Share(m: Balances, k: (Address, Address), token: Address): int
    requires k in m
  {
    if k.1 == token then m[k] else 0
  }

  /** The balances of all holders of `token`, added up. */
  ghost function Holdings(m: Balances, token: Address): int
    decreases |m|
  {
    if m.Keys == {} then 0 else Share(m, AnyKey(m), token) + Holdings(m - {AnyKey(m)}, token)
  }

  ghost function AnyKey(m: Balances): (k: (Address, Address))
    requires m.Keys != {}
    ensures k in m
  {
    var k :| k in m.Keys; k
  }

  lemma {:induction false} HoldingsAt(m: Balances, k: (Address, Address), token: Address)
    requires k in m
    ensures Holdings(m, token) == Share(m, k, token) + Holdings(m - {k}, token)
    decreases |m|
  {
    var k0 := AnyKey(m);
    if k0 != k {
      HoldingsAt(m - {k0}, k, token);
      HoldingsAt(m - {k}, k0, token);
      assert m - {k0} - {k} == m - {k} - {k0};
    }
  }

  lemma HoldingsPut(m: Balances, k: (Address, Address), x: i128, token: Address)
    ensures Holdings(m[k := x], token) ==
            Holdings(m, token) + (if k.1 == token then x - Lookup(m, k, 0) else 0)
  {
    HoldingsAt(m[k := x], k, token);
    if k in m {
      HoldingsAt(m, k, token);
      assert m[k := x] - {k} == m - {k};
    } else {
      assert m[k := x] - {k} == m;
    }
  }

  ghost predicate Conserved(v: Vault) {
    && (forall token :: TotalOf(v, token) == Holdings(v.balances, token))
    && (forall k :: k in v.balances ==> v.balances[k] >= 0)
  }

  lemma MoveConserves(v: Vault, v': Vault, holder: Address, token: Address, balance: i128, total: i128)
    requires Conserved(v) && balance >= 0
    requires v'.balances == v.balances[(holder, token) := balance] && v'.totals == v.totals[token := total]
    requires total - TotalOf(v, token) == balance - BalanceOf(v, holder, token)
    ensures Conserved(v')
  {
    forall t ensures TotalOf(v', t) == Holdings(v'.balances, t) {
      HoldingsPut(v.balances, (holder, token), balance, t);
    }
  }

  lemma DepositConserves(v: Vault, from: Address, token: Address, amount: i128)
    requires Conserved(v) && DepositOne(v, from, token, amount).Ok?
    ensures Conserved(DepositOne(v, from, token, amount).value)
  {
    var v' := DepositOne(v, from, token, amount).value;
    MoveConserves(v, v', from, token, v'.balances[(from, token)], v'.totals[token]);
  }

  lemma {:induction false} DepositEachConserves(v: Vault, from: Address, deposits: seq<(Address, i128)>)
    requires Conserved(v) && DepositEach(v, from, deposits).Ok?
    ensures Conserved(DepositEach(v, from, deposits).value)
  {
    if deposits != [] {
      DepositEachConserves(v, from, deposits[..|deposits| - 1]);
      var mid := DepositEach(v, from, deposits[..|deposits| - 1]).value;
      DepositConserves(mid, from, deposits[|deposits| - 1].0, deposits[|deposits| - 1].1);
    }
  }

  /** One call: for every token, the recorded total is still the sum of all balances, none of them negative. */
  lemma VaultStepConserves(g: Governance, v: Vault, now: u64, call: VaultCall)
    requires Conserved(v) && VaultStep(g, v, now, call).Ok?
    ensures Conserved(VaultStep(g, v, now, call).value)
  {
    var v' := VaultStep(g, v, now, call).value;
    match call
    case CallDeposit(from, token, amount) => DepositConserves(v, from, token, amount);
    case CallBatchDeposit(from, deposits) => DepositEachConserves(v, from, deposits);
    case CallWithdraw(to, token, amount) =>
      MoveConserves(v, v', to, token, v'.balances[(to, token)], v'.totals[token]);
    case CallWithdrawAll(_, _, _, _) => assert forall t :: TotalOf(v', t) == TotalOf(v, t);
    case CallSetWithdrawalLimit(_, _, _) => assert forall t :: TotalOf(v', t) == TotalOf(v, t);
  }

  // ----- amounts withdrawn in a time interval -----

  ghost predicate Counts(e: Outflow, a: Address, lo: int, hi: int) {
    e.to == a && lo <= e.at < hi
  }

  /** What `log` sends to `a` at times in [lo, hi). */
  ghost function Sent(log: seq<Outflow>, a: Address, lo: int, hi: int): int {
    if log == [] then 0
    else Sent(log[..|log| - 1], a, lo, hi) + (if Counts(log[|log| - 1], a, lo, hi) then log[|log| - 1].amount else 0)
  }

  lemma SentSnoc(log: seq<Outflow>, e: Outflow, a: Address, lo: int, hi: int)
    ensures Sent(log + [e], a, lo, hi) == Sent(log, a, lo, hi) + (if Counts(e, a, lo, hi) then e.amount else 0)
  {
    assert (log + [e])[..|log + [e]| - 1] == log;
  }

  lemma SentOther(log: seq<Outflow>, e: Outflow, a: Address, lo: int, hi: int)
    requires e.to != a
    ensures Sent(log + [e], a, lo, hi) == Sent(log, a, lo, hi)
  {
    SentSnoc(log, e, a, lo, hi);
  }

  lemma {:induction false} SentSplits(log: seq<Outflow>, a: Address, lo: int, mid: int, hi: int)
    requires lo <= mid <= hi
    ensures Sent(log, a, lo, hi) == Sent(log, a, lo, mid) + Sent(log, a, mid, hi)
  {
    if log != [] { SentSplits(log[..|log| - 1], a, lo, mid, hi); }
  }

  ghost predicate Positive(log: seq<Outflow>) {
    forall k :: 0 <= k < |log| ==> log[k].amount > 0
  }

  lemma {:induction false} SentNonNegative(log: seq<Outflow>, a: Address, lo: int, hi: int)
    requires Positive(log)
    ensures Sent(log, a, lo, hi) >= 0
  {
    if log != [] { SentNonNegative(log[..|log| - 1], a, lo, hi); }
  }

  /** Everything sent to `a` in `log` happened before `end`. */
  ghost predicate Before(log: seq<Outflow>, a: Address, end: int) {
    forall k :: 0 <= k < |log| && log[k].to == a ==> log[k].at < end
  }

  lemma {:induction false} SentAfterEnd(log: seq<Outflow>, a: Address, lo: int, hi: int)
    requires Before(log, a, lo)
    ensures Sent(log, a, lo, hi) == 0
  {
    if log != [] { SentAfterEnd(log[..|log| - 1], a, lo, hi); }
  }

  /** A narrower start, and any end beyond the last event, never counts more. */
  lemma SentShrinks(log: seq<Outflow>, a: Address, lo: int, lo': int, hi: int, end: int)
    requires Positive(log) && lo <= lo' && Before(log, a, end)
    ensures Sent(log, a, lo', hi) <= Sent(log, a, lo, end)
  {
    if lo' >= end {
      SentAfterEnd(log, a, lo', hi);
      SentNonNegative(log, a, lo, end);
    } else {
      SentSplits(log, a, lo, lo', end);
      SentNonNegative(log, a, lo, lo');
      var cut := Max(lo', Min(hi, end));
      SentSplits(log, a, lo', cut, end);
      SentNonNegative(log, a, cut, end);
      if hi > end {
        SentSplits(log, a, lo', end, hi);
        SentAfterEnd(log, a, end, hi);
      } else if hi < lo' {
        SentEmpty(log, a, lo', hi);
        SentNonNegative(log, a, lo', end);
      }
    }
  }

  lemma {:induction false} SentEmpty(log: seq<Outflow>, a: Address, lo: int, hi: int)
    requires hi <= lo
    ensures Sent(log, a, lo, hi) == 0
  {
    if log != [] { SentEmpty(log[..|log| - 1], a, lo, hi); }
  }

  // ----- the window bound -----

  /** The outflows recorded since position `from`. */
  ghost function Since(v: Vault, from: nat): seq<Outflow>
    requires from <= |v.outflows|
  {
    v.outflows[from..]
  }

  /** The log of one stretch and the window of `a`: its start, what it used, its length W and the limit L. */
  ghost predicate CappedLog(log: seq<Outflow>, a: Address, start: int, used: int, W: int, L: int) {
    && Positive(log) && Before(log, a, start + W)
    && Sent(log, a, start, start + W) <= Min(used, L)
    && (forall t: int :: LeadsIn(log, a, t, start, W, L))
    && (forall t: int :: TwiceAtMost(log, a, t, W, L))
  }

  /** The stretch of an interval [t, t + W) that lies before the window start counts at most one limit. */
  ghost predicate LeadsIn(log: seq<Outflow>, a: Address, t: int, start: int, W: int, L: int) {
    t + W > start ==> Sent(log, a, t, start) <= L
  }

  ghost predicate TwiceAtMost(log: seq<Outflow>, a: Address, t: int, W: int, L: int) {
    Sent(log, a, t, t + W) <= 2 * L
  }

  /**
   The window of `a` after a stretch of calls, begun at log position `from`, during which the limit
   and the window length stayed the same; `now` is the time of the last call.
   */
  ghost predicate Capped(v: Vault, from: nat, a: Address, now: int) {
    && from <= |v.outflows| && v.limit > 0 && v.windowSecs > 0
    && UsedBy(v, a) >= 0 && WindowStartOf(v, a) <= now
    && CappedLog(Since(v, from), a, WindowStartOf(v, a), UsedBy(v, a), v.windowSecs, v.limit)
  }

  lemma CappedStart(v: Vault, a: Address, now: int)
    requires v.limit > 0 && v.windowSecs > 0 && UsedBy(v, a) >= 0 && WindowStartOf(v, a) <= now
    ensures Capped(v, |v.outflows|, a, now)
  {
    assert Since(v, |v.outflows|) == [];
  }

  /** The charge fell into the recorded window. */
  lemma ChargeInWindow(log: seq<Outflow>, e: Outflow, a: Address, start: int, used: int, W: int, L: int)
    requires CappedLog(log, a, start, used, W, L) && e.to == a && e.amount > 0
    requires start <= e.at < start + W && 0 <= used && used + e.amount <= L
    ensures CappedLog(log + [e], a, start, used + e.amount, W, L)
  {
    SentSnoc(log, e, a, start, start + W);
    forall t: int ensures LeadsIn(log + [e], a, t, start, W, L) {
      assert LeadsIn(log, a, t, start, W, L);
      SentSnoc(log, e, a, t, start);
    }
    forall t: int ensures TwiceAtMost(log + [e], a, t, W, L) {
      assert TwiceAtMost(log, a, t, W, L) && LeadsIn(log, a, t, start, W, L);
      SentSnoc(log, e, a, t, t + W);
      if t <= e.at < t + W {
        if t < start {
          SentSplits(log, a, t, start, t + W);
          SentShrinks(log, a, start, start, t + W, start + W);
        } else {
          SentShrinks(log, a, start, t, t + W, start + W);
        }
      }
    }
  }

  /** The charge opened a fresh window. */
  lemma ChargeFresh(log: seq<Outflow>, e: Outflow, a: Address, start: int, used: int, W: int, L: int)
    requires CappedLog(log, a, start, used, W, L) && W > 0 && e.to == a
    requires start + W <= e.at && 0 < e.amount <= L
    ensures CappedLog(log + [e], a, e.at, e.amount, W, L)
  {
    var now := e.at;
    SentSnoc(log, e, a, now, now + W);
    SentAfterEnd(log, a, now, now + W);
    forall t: int ensures LeadsIn(log + [e], a, t, now, W, L) && LeadsIn(log, a, t, now, W, L) {
      SentSnoc(log, e, a, t, now);
      if t + W > now { SentShrinks(log, a, start, t, now, start + W); }
    }
    forall t: int ensures TwiceAtMost(log + [e], a, t, W, L) {
      assert TwiceAtMost(log, a, t, W, L) && LeadsIn(log, a, t, now, W, L);
      SentSnoc(log, e, a, t, t + W);
      if t <= now < t + W {
        SentSplits(log, a, t, now, t + W);
        SentAfterEnd(log, a, now, t + W);
      }
    }
  }

  /** An outflow to somebody else. */
  lemma OtherOutflow(log: seq<Outflow>, e: Outflow, a: Address, start: int, used: int, W: int, L: int)
    requires CappedLog(log, a, start, used, W, L) && e.to != a && e.amount > 0
    ensures CappedLog(log + [e], a, start, used, W, L)
  {
    SentOther(log, e, a, start, start + W);
    forall t: int ensures LeadsIn(log + [e], a, t, start, W, L) {
      assert LeadsIn(log, a, t, start, W, L);
      SentOther(log, e, a, t, start);
    }
    forall t: int ensures TwiceAtMost(log + [e], a, t, W, L) {
      assert TwiceAtMost(log, a, t, W, L);
      SentOther(log, e, a, t, t + W);
    }
  }

  /** The window of `a` after a charge to `to`: untouched, opened at `now`, or charged further. */
  lemma ChargedWindow(v: Vault, to: Address, amount: i128, now: u64, a: Address)
    requires v.limit > 0 && ChargeWindow(v, to, amount, now).Ok?
    ensures var c := ChargeWindow(v, to, amount, now).value;
            var elapsed := WindowElapsed(v, a, now);
            if to != a then WindowStartOf(c, a) == WindowStartOf(v, a) && UsedBy(c, a) == UsedBy(v, a)
            else && WindowStartOf(c, a) == (if elapsed then now else WindowStartOf(v, a))
                 && UsedBy(c, a) == (if elapsed then amount else UsedBy(v, a) + amount) <= v.limit
  {
  }

  /** One more outflow, given what it did to the window of `a`. */
  lemma OutflowCapped(log: seq<Outflow>, e: Outflow, a: Address, start: int, used: int, start': int, used': int,
                      W: int, L: int)
    requires CappedLog(log, a, start, used, W, L) && W > 0 && 0 <= used && e.amount > 0
    requires || (e.to != a && start' == start && used' == used)
             || (e.to == a && e.at >= start + W && start' == e.at && used' == e.amount <= L)
             || (e.to == a && start <= e.at < start + W && start' == start && used' == used + e.amount <= L)
    ensures CappedLog(log + [e], a, start', used', W, L)
  {
    if e.to != a {
      OtherOutflow(log, e, a, start, used, W, L);
    } else if e.at >= start + W {
      ChargeFresh(log, e, a, start, used, W, L);
    } else {
      ChargeInWindow(log, e, a, start, used, W, L);
    }
  }

  lemma OutflowKeeps(v: Vault, v': Vault, from: nat, a: Address, earlier: int, now: u64, e: Outflow)
    requires Capped(v, from, a, earlier) && earlier <= now && e.at == now && e.amount > 0
    requires ChargeWindow(v, e.to, e.amount, now).Ok?
    requires var c := ChargeWindow(v, e.to, e.amount, now).value;
             v'.windowStart == c.windowStart && v'.used == c.used
    requires v'.outflows == v.outflows + [e] && v'.limit == v.limit && v'.windowSecs == v.windowSecs
    ensures Capped(v', from, a, now)
  {
    var log := Since(v, from);
    assert Since(v', from) == log + [e];
    ChargedWindow(v, e.to, e.amount, now, a);
    OutflowCapped(log, e, a, WindowStartOf(v, a), UsedBy(v, a), WindowStartOf(v', a), UsedBy(v', a), v.windowSecs,
                  v.limit);
  }

  lemma {:induction false} DepositEachKeepsWindows(v: Vault, from: Address, deposits: seq<(Address, i128)>)
    requires DepositEach(v, from, deposits).Ok?
    ensures var v' := DepositEach(v, from, deposits).value;
            v' == v.(balances := v'.balances, totals := v'.totals)
  {
    if deposits != [] { DepositEachKeepsWindows(v, from, deposits[..|deposits| - 1]); }
  }

  /** One call other than a limit change: every window bound survives, whoever withdrew. */
  lemma VaultStepCaps(g: Governance, v: Vault, now: u64, call: VaultCall, from: nat, a: Address, earlier: int)
    requires Capped(v, from, a, earlier) && earlier <= now
    requires VaultStep(g, v, now, call).Ok? && !call.CallSetWithdrawalLimit?
    ensures Capped(VaultStep(g, v, now, call).value, from, a, now)
  {
    var v' := VaultStep(g, v, now, call).value;
    match call
    case CallDeposit(who, token, amount) =>
      DepositEachKeepsWindows(v, who, []);
      assert Since(v', from) == Since(v, from);
    case CallBatchDeposit(who, deposits) =>
      DepositEachKeepsWindows(v, who, deposits);
      assert Since(v', from) == Since(v, from);
    case CallWithdraw(to, token, amount) =>
      OutflowKeeps(v, v', from, a, earlier, now, Outflow(to, token, amount, now));
    case CallWithdrawAll(_, token, to, held) =>
      if held > 0 { OutflowKeeps(v, v', from, a, earlier, now, Outflow(to, token, held, now)); }
  }

  // ----- facts every reachable vault has -----

  ghost predicate Ordered(v: Vault, now: int) {
    && (forall a :: WindowStartOf(v, a) <= now)
    && (forall a :: UsedBy(v, a) >= 0)
    && Positive(v.outflows)
  }

  lemma VaultStepOrders(g: Governance, v: Vault, earlier: int, now: u64, call: VaultCall)
    requires Ordered(v, earlier) && earlier <= now && VaultStep(g, v, now, call).Ok?
    ensures Ordered(VaultStep(g, v, now, call).value, now)
    ensures v.outflows <= VaultStep(g, v, now, call).value.outflows
  {
    var v' := VaultStep(g, v, now, call).value;
    match call
    case CallDeposit(who, token, amount) => OrderedKept(v, v', earlier, now);
    case CallBatchDeposit(who, deposits) => DepositEachKeepsWindows(v, who, deposits); OrderedKept(v, v', earlier, now);
    case CallWithdraw(to, token, amount) => ChargeOrders(v, v', to, amount, earlier, now);
    case CallWithdrawAll(_, token, to, held) =>
      if held > 0 { ChargeOrders(v, v', to, held, earlier, now); } else { OrderedKept(v, v', earlier, now); }
    case CallSetWithdrawalLimit(_, _, _) => OrderedKept(v, v', earlier, now);
  }

  lemma OrderedKept(v: Vault, v': Vault, earlier: int, now: int)
    requires Ordered(v, earlier) && earlier <= now
    requires v'.windowStart == v.windowStart && v'.used == v.used && v'.outflows == v.outflows
    ensures Ordered(v', now)
  {
    forall a ensures WindowStartOf(v', a) <= now && UsedBy(v', a) >= 0 {
      assert WindowStartOf(v, a) <= earlier && UsedBy(v, a) >= 0;
    }
  }

  lemma ChargeOrders(v: Vault, v': Vault, to: Address, amount: i128, earlier: int, now: u64)
    requires Ordered(v, earlier) && earlier <= now && amount > 0 && ChargeWindow(v, to, amount, now).Ok?
    requires var c := ChargeWindow(v, to, amount, now).value; v'.windowStart == c.windowStart && v'.used == c.used
    requires |v'.outflows| == |v.outflows| + 1 && v.outflows <= v'.outflows && v'.outflows[|v.outflows|].amount > 0
    ensures Ordered(v', now)
  {
    forall a ensures WindowStartOf(v', a) <= now && UsedBy(v', a) >= 0 {
      assert WindowStartOf(v, a) <= earlier && UsedBy(v, a) >= 0;
    }
  }
}
