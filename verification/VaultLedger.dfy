/** Every balance told by the calls of the run: what its holder deposited minus what was withdrawn to it. */
module VaultLedger {
  import opened Common
  import opened BasisPoints
  import opened TreasuryTypes
  import opened VaultSpec
  import opened VaultSafety
  import opened TreasuryRuns

  // ----- one call -----

  /** What a list of deposits puts into `token`. */
  ghost function Paid(deposits: seq<(Address, i128)>, token: Address): int {
    if deposits == [] then 0
    else
      var (t, amount) := deposits[|deposits| - 1];
      Paid(deposits[..|deposits| - 1], token) + (if t == token then amount else 0)
  }

  /** What a successful call adds to the balance of `holder` in `token`. */
  ghost function Credit(call: VaultCall, holder: Address, token: Address): int {
    match call
    case CallDeposit(from, t, amount) => if from == holder && t == token then amount else 0
    case CallBatchDeposit(from, deposits) => if from == holder then Paid(deposits, token) else 0
    case _ => 0
  }

  /** What a successful call takes off the balance of `holder` in `token`. */
  ghost function Debit(call: VaultCall, holder: Address, token: Address): int {
    match call
    case CallWithdraw(to, t, amount) => if to == holder && t == token then amount else 0
    case _ => 0
  }

  lemma {:induction false} DepositEachCredits(v: Vault, from: Address, deposits: seq<(Address, i128)>, holder: Address,
                                              token: Address)
    requires DepositEach(v, from, deposits).Ok?
    ensures var v' := DepositEach(v, from, deposits).value;
            && BalanceOf(v', holder, token)
               == BalanceOf(v, holder, token) + (if from == holder then Paid(deposits, token) else 0)
            && TotalOf(v', token) == TotalOf(v, token) + Paid(deposits, token)
  {
    if deposits != [] { DepositEachCredits(v, from, deposits[..|deposits| - 1], holder, token); }
  }

  /** What a successful call adds to the recorded total of `token`. */
  ghost function TotalChange(call: VaultCall, token: Address): int {
    match call
    case CallDeposit(_, t, amount) => if t == token then amount else 0
    case CallBatchDeposit(_, deposits) => Paid(deposits, token)
    case CallWithdraw(_, t, amount) => if t == token then -(amount as int) else 0
    case _ => 0
  }

  /** A successful call changes each balance by exactly its credit less its debit, and each total accordingly. */
  lemma VaultStepMoves(g: Governance, v: Vault, now: u64, call: VaultCall, holder: Address, token: Address)
    requires VaultStep(g, v, now, call).Ok?
    ensures var v' := VaultStep(g, v, now, call).value;
            && BalanceOf(v', holder, token)
               == BalanceOf(v, holder, token) + Credit(call, holder, token) - Debit(call, holder, token)
            && TotalOf(v', token) == TotalOf(v, token) + TotalChange(call, token)
            && v'.destinations == v.destinations
            && (if call.CallSetWithdrawalLimit? then v'.limit == call.limit && v'.windowSecs == call.windowSecs
                else v'.limit == v.limit && v'.windowSecs == v.windowSecs)
  {
    if call.CallBatchDeposit? {
      DepositEachCredits(v, call.from, call.deposits, holder, token);
      DepositEachKeepsWindows(v, call.from, call.deposits);
    }
  }

  /** The transfer that a successful call makes, if it makes one: to whom, in what, how much and when. */
  lemma VaultStepSends(g: Governance, v: Vault, now: u64, call: VaultCall)
    requires VaultStep(g, v, now, call).Ok?
    ensures var v' := VaultStep(g, v, now, call).value;
            match call
            case CallWithdraw(to, token, amount) => v'.outflows == v.outflows + [Outflow(to, token, amount, now)]
            case CallWithdrawAll(_, token, to, held) =>
              v'.outflows == v.outflows + if held > 0 then [Outflow(to, token, held, now)] else []
            case _ => v'.outflows == v.outflows
  {
    if call.CallBatchDeposit? { DepositEachKeepsWindows(v, call.from, call.deposits); }
  }

  // ----- when a call succeeds -----

  /** Under a limit, the amount still fits into the window of `a`. */
  ghost predicate FitsWindow(v: Vault, a: Address, amount: int, now: int) {
    v.limit > 0 ==>
      (if v.windowSecs == 0 || now - WindowStartOf(v, a) >= v.windowSecs then 0 else UsedBy(v, a)) + amount <= v.limit
  }

  ghost predicate VaultEnabled(g: Governance, v: Vault, now: u64, call: VaultCall) {
    match call
    case CallDeposit(_, token, amount) => !g.paused && amount > 0 && TotalOf(v, token) + amount <= I128_MAX
    case CallBatchDeposit(_, deposits) =>
      && !g.paused && (forall i :: 0 <= i < |deposits| ==> deposits[i].1 > 0)
      && forall token :: TotalOf(v, token) + Paid(deposits, token) <= I128_MAX
    case CallWithdraw(to, token, amount) =>
      && !g.paused && 0 < amount <= BalanceOf(v, to, token) && (v.destinations == [] || to in v.destinations)
      && FitsWindow(v, to, amount, now)
    case CallWithdrawAll(caller, _, to, held) =>
      g.admin == Some(caller) && g.paused && (held > 0 ==> FitsWindow(v, to, held, now))
    case CallSetWithdrawalLimit(caller, _, _) => g.admin == Some(caller)
  }

  lemma {:induction false} HoldingsNonNegative(m: Balances, token: Address)
    requires forall k :: k in m ==> m[k] >= 0
    ensures Holdings(m, token) >= 0
    decreases |m|
  {
    if m.Keys != {} { HoldingsNonNegative(m - {AnyKey(m)}, token); }
  }

  lemma BalanceWithinTotal(v: Vault, holder: Address, token: Address)
    requires Conserved(v)
    ensures 0 <= BalanceOf(v, holder, token) <= TotalOf(v, token)
  {
    if (holder, token) in v.balances {
      HoldingsAt(v.balances, (holder, token), token);
      HoldingsNonNegative(v.balances - {(holder, token)}, token);
    } else {
      HoldingsNonNegative(v.balances, token);
    }
  }

  lemma ChargeOkIff(v: Vault, a: Address, amount: i128, now: u64)
    requires amount > 0 && WindowStartOf(v, a) <= now && UsedBy(v, a) >= 0
    ensures ChargeWindow(v, a, amount, now).Ok? <==> FitsWindow(v, a, amount, now)
  {
  }

  lemma DepositOneOkIff(v: Vault, from: Address, token: Address, amount: i128)
    requires Conserved(v)
    ensures DepositOne(v, from, token, amount).Ok? <==> amount > 0 && TotalOf(v, token) + amount <= I128_MAX
  {
    BalanceWithinTotal(v, from, token);
  }

  ghost predicate Fits(v: Vault, deposits: seq<(Address, i128)>) {
    && (forall i :: 0 <= i < |deposits| ==> deposits[i].1 > 0)
    && forall token :: TotalOf(v, token) + Paid(deposits, token) <= I128_MAX
  }

  /** A batch fits exactly when its front fits and then its last element does. */
  lemma FitsSnoc(v: Vault, mid: Vault, deposits: seq<(Address, i128)>)
    requires deposits != []
    requires forall token :: TotalOf(mid, token) == TotalOf(v, token) + Paid(deposits[..|deposits| - 1], token)
    requires Fits(v, deposits[..|deposits| - 1])
    ensures var (token, amount) := deposits[|deposits| - 1];
            Fits(v, deposits) <==> amount > 0 && TotalOf(mid, token) + amount <= I128_MAX
  {
    var front := deposits[..|deposits| - 1];
    var (token, amount) := deposits[|deposits| - 1];
    if amount > 0 && TotalOf(mid, token) + amount <= I128_MAX {
      forall i | 0 <= i < |deposits| ensures deposits[i].1 > 0 { if i < |front| { assert front[i] == deposits[i]; } }
      forall t ensures TotalOf(v, t) + Paid(deposits, t) <= I128_MAX {
        assert TotalOf(v, t) + Paid(front, t) <= I128_MAX;
      }
    } else {
      assert TotalOf(v, token) + Paid(deposits, token) == TotalOf(mid, token) + amount;
    }
  }

  lemma FitsFront(v: Vault, deposits: seq<(Address, i128)>)
    requires deposits != [] && Fits(v, deposits)
    ensures Fits(v, deposits[..|deposits| - 1])
  {
    var front := deposits[..|deposits| - 1];
    assert deposits[|deposits| - 1].1 > 0;
    forall t ensures TotalOf(v, t) + Paid(front, t) <= I128_MAX {
      assert TotalOf(v, t) + Paid(deposits, t) <= I128_MAX;
    }
  }

  lemma {:induction false} DepositEachOkIff(v: Vault, from: Address, deposits: seq<(Address, i128)>)
    requires Conserved(v)
    ensures DepositEach(v, from, deposits).Ok? <==> Fits(v, deposits)
  {
    if deposits == [] {
      forall t ensures TotalOf(v, t) + Paid(deposits, t) <= I128_MAX {}
    } else {
      var front, last := deposits[..|deposits| - 1], deposits[|deposits| - 1];
      DepositEachOkIff(v, from, front);
      if Fits(v, deposits) { FitsFront(v, deposits); }
      if DepositEach(v, from, front).Ok? {
        var mid := DepositEach(v, from, front).value;
        DepositEachConserves(v, from, front);
        forall t ensures TotalOf(mid, t)
          == TotalOf(v, t) + Paid(front, t) { DepositEachCredits(v, from, front, from, t); }
        DepositOneOkIff(mid, from, last.0, last.1);
        FitsSnoc(v, mid, deposits);
      }
    }
  }

  /** In a state that runs reach, a call succeeds exactly when it is enabled: no arithmetic error is left over. */
  lemma VaultStepOkIff(g: Governance, v: Vault, earlier: int, now: u64, call: VaultCall)
    requires Conserved(v) && Ordered(v, earlier) && earlier <= now
    ensures VaultStep(g, v, now, call).Ok? <==> VaultEnabled(g, v, now, call)
  {
    match call
    case CallDeposit(from, token, amount) => DepositOneOkIff(v, from, token, amount);
    case CallBatchDeposit(from, deposits) => DepositEachOkIff(v, from, deposits);
    case CallWithdraw(to, token, amount) =>
      BalanceWithinTotal(v, to, token);
      if amount > 0 { ChargeOkIff(v, to, amount, now); }
    case CallWithdrawAll(_, _, to, held) => if held > 0 { ChargeOkIff(v, to, held, now); }
    case CallSetWithdrawalLimit(_, _, _) =>
  }

  // ----- runs -----

  ghost predicate Succeeds(s: State, e: Event) {
    e.call.ToVault? && VaultStep(s.gov, s.vault, e.now, e.call.vault).Ok?
  }

  /** Everything `holder` has deposited in `token`, by the successful calls of the run. */
  ghost function Deposited(es: seq<Event>, holder: Address, token: Address): int {
    if es == [] then 0
    else
      var front, e := es[..|es| - 1], es[|es| - 1];
      Deposited(front, holder, token) + if Succeeds(Run(front), e) then Credit(e.call.vault, holder, token) else 0
  }

  /** Everything `withdraw` has sent to `holder` in `token`, by the successful calls of the run. */
  ghost function Withdrawn(es: seq<Event>, holder: Address, token: Address): int {
    if es == [] then 0
    else
      var front, e := es[..|es| - 1], es[|es| - 1];
      Withdrawn(front, holder, token) + if Succeeds(Run(front), e) then Debit(e.call.vault, holder, token) else 0
  }

  lemma StepMovesBalance(s: State, e: Event, holder: Address, token: Address)
    ensures BalanceOf(Step(s, e).vault, holder, token) == BalanceOf(s.vault, holder, token) +
              (if Succeeds(s, e) then Credit(e.call.vault, holder, token) - Debit(e.call.vault, holder, token) else 0)
  {
    if Succeeds(s, e) { VaultStepMoves(s.gov, s.vault, e.now, e.call.vault, holder, token); }
  }

  /** In every run each balance is what its holder deposited minus what was withdrawn to it. */
  lemma {:induction false} BalanceIsDepositsLessWithdrawals(es: seq<Event>, holder: Address, token: Address)
    ensures BalanceOf(Run(es).vault, holder, token) == Deposited(es, holder, token) - Withdrawn(es, holder, token)
  {
    if es != [] {
      BalanceIsDepositsLessWithdrawals(es[..|es| - 1], holder, token);
      StepMovesBalance(Run(es[..|es| - 1]), es[|es| - 1], holder, token);
    }
  }

  /** Nobody withdraws more of a token than it has deposited. */
  lemma NobodyOverdraws(es: seq<Event>, holder: Address, token: Address)
    ensures 0 <= Withdrawn(es, holder, token) <= Deposited(es, holder, token)
  {
    BalanceIsDepositsLessWithdrawals(es, holder, token);
    RunIsSound(es);
    BalanceWithinTotal(Run(es).vault, holder, token);
    WithdrawnNonNegative(es, holder, token);
  }

  lemma {:induction false} WithdrawnNonNegative(es: seq<Event>, holder: Address, token: Address)
    ensures Withdrawn(es, holder, token) >= 0
  {
    if es != [] { WithdrawnNonNegative(es[..|es| - 1], holder, token); }
  }

  /** After any chronological run, a vault call at or after its last time succeeds exactly when it is enabled. */
  lemma VaultCallOkIff(es: seq<Event>, now: u64, call: VaultCall)
    requires Chronological(es) && LastTime(es) <= now
    ensures VaultStep(Run(es).gov, Run(es).vault, now, call).Ok? <==>
            VaultEnabled(Run(es).gov, Run(es).vault, now, call)
  {
    RunIsSound(es);
    RunIsOrdered(es);
    VaultStepOkIff(Run(es).gov, Run(es).vault, LastTime(es), now, call);
  }

  // ----- the withdrawal window -----

  /** The limit in force and the window of one address. */
  datatype Meter = Meter(limit: int, length: int, start: int, used: int)

  ghost function MeterIn(v: Vault, a: Address): Meter {
    Meter(v.limit, v.windowSecs, WindowStartOf(v, a), UsedBy(v, a))
  }

  /** What a successful call sends to `a`. */
  ghost function SentTo(call: VaultCall, a: Address): int {
    match call
    case CallWithdraw(to, _, amount) => if to == a then amount else 0
    case CallWithdrawAll(_, _, to, held) => if to == a then Max(0, held) else 0
    case _ => 0
  }

  /** Under a positive limit what is sent counts in the running window, or opens one when that has run out. */
  ghost function MeterAfter(m: Meter, call: VaultCall, now: int, a: Address): Meter {
    if call.CallSetWithdrawalLimit? then m.(limit := call.limit, length := call.windowSecs)
    else if m.limit <= 0 || SentTo(call, a) == 0 then m
    else if now >= m.start + m.length then m.(start := now, used := SentTo(call, a))
    else m.(used := m.used + SentTo(call, a))
  }

  lemma WithdrawCharges(g: Governance, v: Vault, now: u64, call: VaultCall, a: Address)
    requires (call.CallWithdraw? || call.CallWithdrawAll?) && VaultStep(g, v, now, call).Ok?
    requires WindowStartOf(v, a) <= now
    ensures MeterIn(VaultStep(g, v, now, call).value, a) == MeterAfter(MeterIn(v, a), call, now, a)
  {
    if v.limit > 0 {
      match call
      case CallWithdraw(to, _, amount) => ChargedWindow(v, to, amount, now, a);
      case CallWithdrawAll(_, _, to, held) => if held > 0 { ChargedWindow(v, to, held, now, a); }
    }
  }

  lemma VaultStepCharges(g: Governance, v: Vault, now: u64, call: VaultCall, a: Address)
    requires VaultStep(g, v, now, call).Ok? && WindowStartOf(v, a) <= now
    ensures MeterIn(VaultStep(g, v, now, call).value, a) == MeterAfter(MeterIn(v, a), call, now, a)
  {
    match call
    case CallBatchDeposit(from, deposits) => DepositEachKeepsWindows(v, from, deposits);
    case CallDeposit(_, _, _) =>
    case CallSetWithdrawalLimit(_, _, _) =>
    case _ => WithdrawCharges(g, v, now, call, a);
  }

  ghost function MeterBy(es: seq<Event>, a: Address): Meter {
    if es == [] then Meter(0, 0, 0, 0)
    else
      var front, e := es[..|es| - 1], es[|es| - 1];
      if Succeeds(Run(front), e) then MeterAfter(MeterBy(front, a), e.call.vault, e.now, a) else MeterBy(front, a)
  }

  /** In every chronological run the limit is the one set last, and each window has used exactly what was sent in it. */
  lemma {:induction false} MeterIsByTheCalls(es: seq<Event>, a: Address)
    requires Chronological(es)
    ensures MeterIn(Run(es).vault, a) == MeterBy(es, a)
  {
    if es != [] {
      var front, e := es[..|es| - 1], es[|es| - 1];
      var s := Run(front);
      MeterIsByTheCalls(front, a);
      RunIsOrdered(front);
      assert LastTime(front) <= e.now;
      if Succeeds(s, e) { VaultStepCharges(s.gov, s.vault, e.now, e.call.vault, a); }
    }
  }
}
