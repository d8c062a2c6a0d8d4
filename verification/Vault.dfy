/** Deposits, withdrawals and the withdrawal window (contracts/treasury/src/deposits.rs). */
module VaultSpec {
  import opened Common
  import opened BasisPoints
  import opened TreasuryTypes

  type Outcome = Result<Vault, TreasuryError>

  function BalanceOf(v: Vault, holder: Address, token: Address): i128 { Lookup(v.balances, (holder, token), 0) }

  function TotalOf(v: Vault, token: Address): i128 { Lookup(v.totals, token, 0) }

  function Add(a: i128, b: i128): Result<i128, TreasuryError> {
    if CheckedAdd(a, b).Some? then Ok(a + b) else Err(ArithmeticOverflow)
  }

  function Sub(a: i128, b: i128): Result<i128, TreasuryError> {
    if CheckedSub(a, b).Some? then Ok(a - b) else Err(ArithmeticOverflow)
  }

  function DepositOne(v: Vault, from: Address, token: Address, amount: i128): Outcome {
    var _ :- Need(amount > 0, InvalidAmount);
    var balance :- Add(BalanceOf(v, from, token), amount);
    var total :- Add(TotalOf(v, token), amount);
    Ok(v.(balances := v.balances[(from, token) := balance], totals := v.totals[token := total]))
  }

  function DepositEach(v: Vault, from: Address, deposits: seq<(Address, i128)>): Outcome {
    if deposits == [] then Ok(v)
    else
      var v' :- DepositEach(v, from, deposits[..|deposits| - 1]);
      DepositOne(v', from, deposits[|deposits| - 1].0, deposits[|deposits| - 1].1)
  }

  function Deposit(g: Governance, v: Vault, from: Address, token: Address, amount: i128): Outcome {
    var _ :- RequireNotPaused(g);
    DepositOne(v, from, token, amount)
  }

  function BatchDeposit(g: Governance, v: Vault, from: Address, deposits: seq<(Address, i128)>): Outcome {
    var _ :- RequireNotPaused(g);
    DepositEach(v, from, deposits)
  }

  function WindowStartOf(v: Vault, a: Address): u64 { Lookup(v.windowStart, a, 0) }

  function UsedBy(v: Vault, a: Address): i128 { Lookup(v.used, a, 0) }

  predicate WindowElapsed(v: Vault, a: Address, now: u64) {
    v.windowSecs == 0 || Max(0, now - WindowStartOf(v, a)) >= v.windowSecs
  }

  /** Charges `amount` to the window of `a`, opening a fresh window when the recorded one has elapsed. */
  function ChargeWindow(v: Vault, a: Address, amount: i128, now: u64): Outcome {
    if v.limit <= 0 then Ok(v)
    else
      var elapsed := WindowElapsed(v, a, now);
      var used :- Add(if elapsed then 0 else UsedBy(v, a), amount);
      var _ :- Need(used <= v.limit, WithdrawalLimitExceeded);
      Ok(v.(windowStart := v.windowStart[a := if elapsed then now else WindowStartOf(v, a)], used := v.used[a := used]))
  }

  function Withdraw(g: Governance, v: Vault, now: u64, to: Address, token: Address, amount: i128): Outcome {
    var _ :- RequireNotPaused(g);
    var _ :- Need(amount > 0, InvalidAmount);
    var _ :- Need(v.destinations == [] || to in v.destinations, DestinationNotAllowed);
    var _ :- Need(BalanceOf(v, to, token) >= amount, InsufficientBalance);
    var v' :- ChargeWindow(v, to, amount, now);
    var balance :- Sub(BalanceOf(v, to, token), amount);
    var total :- Sub(TotalOf(v, token), amount);
    Ok(v'.(balances := v.balances[(to, token) := balance], totals := v.totals[token := total],
           outflows := v.outflows + [Outflow(to, token, amount, now)]))
  }

  /** `held` is the token balance the token contract reports for the treasury. */
  function WithdrawAll(g: Governance, v: Vault, now: u64, caller: Address, token: Address, recipient: Address,
                       held: i128): Outcome {
    var _ :- RequireAdmin(g, caller);
    var _ :- Need(g.paused, NotPaused);
    if held > 0 then
      var v' :- ChargeWindow(v, recipient, held, now);
      Ok(v'.(outflows := v.outflows + [Outflow(recipient, token, held, now)]))
    else Ok(v)
  }

  function SetWithdrawalLimit(g: Governance, v: Vault, caller: Address, limit: i128, windowSecs: u64): Outcome {
    var _ :- RequireAdmin(g, caller);
    Ok(v.(limit := limit, windowSecs := windowSecs))
  }

  datatype VaultCall =
    | CallDeposit(from: Address, token: Address, amount: i128)
    | CallBatchDeposit(from: Address, deposits: seq<(Address, i128)>)
    | CallWithdraw(to: Address, token: Address, amount: i128)
    | CallWithdrawAll(caller: Address, token: Address, to: Address, held: i128)
    | CallSetWithdrawalLimit(caller: Address, limit: i128, windowSecs: u64)

  function VaultStep(g: Governance, v: Vault, now: u64, call: VaultCall): Outcome {
    match call
    case CallDeposit(from, token, amount) => Deposit(g, v, from, token, amount)
    case CallBatchDeposit(from, deposits) => BatchDeposit(g, v, from, deposits)
    case CallWithdraw(to, token, amount) => Withdraw(g, v, now, to, token, amount)
    case CallWithdrawAll(caller, token, to, held) => WithdrawAll(g, v, now, caller, token, to, held)
    case CallSetWithdrawalLimit(caller, limit, windowSecs) => SetWithdrawalLimit(g, v, caller, limit, windowSecs)
  }
}
