/**
 The compliance contract (contracts/compliance/src/lib.rs): the allow and block flags, the paged address
 index, the status history and one function per entrypoint. `Err` means that the call rolled back.
 */
module ComplianceSpec {
  import opened Common

  datatype ComplianceError =
    | AlreadyInitialized | Unauthorized | ContractPaused | AddressIndexFull | BatchTooLarge
    | BulkOperationCooldown | OperatorSetFull | OperatorCannotClearAdminBlock

  datatype AddressState = Allowed | Blocked | Expired

  datatype StatusEntry = StatusEntry(status: AddressState, at: u64, actor: Address)

  /** A status change as published, in order, for every address. */
  datatype Change = Change(address: Address, entry: StatusEntry)

  /** A 32-byte digest, read as a big-endian number: comparing byte arrays compares these. */
  type Digest = nat

  /** Who may act, the pause flag, the bulk cooldowns and the blocklist root. */
  datatype Roles = Roles(
    admin: Option<Address>, operator: Option<Address>, operators: seq<Address>, paused: bool,
    lastBulkAllow: map<Address, u64>, lastBulkBlock: map<Address, u64>, root: Option<Digest>)

  /** What is stored about single addresses. */
  datatype Marks = Marks(
    allowed: map<Address, bool>, allowedUntil: map<Address, u64>,
    blocked: map<Address, bool>, blockedUntil: map<Address, u64>, blockedBy: map<Address, Address>,
    tier: map<Address, u32>, allowCount: u64)

  /** The paged address index: its pages, the number of slots in use and the membership markers. */
  datatype Index = Index(pages: map<nat, seq<Address>>, count: u32, tracked: set<Address>)

  datatype Registry = Registry(roles: Roles, marks: Marks, index: Index, history: map<Address, seq<StatusEntry>>,
                               log: seq<Change>)

  const EMPTY_REGISTRY: Registry :=
    Registry(Roles(None, None, [], false, map[], map[], None), Marks(map[], map[], map[], map[], map[], map[], 0),
             Index(map[], 0, {}), map[], [])

  const MAX_TRACKED_ADDRESSES: u32 := 2_000
  const PAGE_SIZE: u32 := 25
  const MAX_BATCH_SIZE: nat := 50
  const BULK_OP_COOLDOWN: u64 := 60
  const MAX_OPERATORS: nat := 10
  const MAX_STATUS_HISTORY: nat := 10

  type Outcome = Result<Registry, ComplianceError>

  // ----- guards -----

  function RequireAdmin(s: Registry, caller: Address): Guard<ComplianceError> {
    Need(s.roles.admin == Some(caller), Unauthorized)
  }

  function RequireNotPaused(s: Registry): Guard<ComplianceError> { Need(!s.roles.paused, ContractPaused) }

  function RequireAdminOrOperator(s: Registry, caller: Address): Guard<ComplianceError> {
    Need(s.roles.admin == Some(caller) || caller in s.roles.operators || s.roles.operator == Some(caller), Unauthorized)
  }

  function CheckCooldown(last: map<Address, u64>, caller: Address, now: u64): Guard<ComplianceError> {
    Need(caller in last ==> now >= Min(last[caller] + BULK_OP_COOLDOWN, U64_MAX), BulkOperationCooldown)
  }

  // ----- decisions -----

  predicate Flag(flags: map<Address, bool>, a: Address) { Lookup(flags, a, false) }

  predicate IsAllowedAt(m: Marks, a: Address, now: u64) {
    if !Flag(m.allowed, a) then false
    else if Flag(m.blocked, a) && !(a in m.blockedUntil && now >= m.blockedUntil[a]) then false
    else if a in m.allowedUntil then now < m.allowedUntil[a]
    else true
  }

  function StateAt(m: Marks, a: Address, now: u64): AddressState {
    if Flag(m.blocked, a) || !Flag(m.allowed, a) then Blocked
    else if a in m.allowedUntil then (if now < m.allowedUntil[a] then Allowed else Expired)
    else Allowed
  }

  // ----- the paged index -----

  function Page(pages: map<nat, seq<Address>>, p: nat): seq<Address> { Lookup<nat, seq<Address>>(pages, p, []) }

  function Track(x: Index, a: Address): Result<Index, ComplianceError> {
    if a in x.tracked then Ok(x)
    else
      var _ :- Need(x.count < MAX_TRACKED_ADDRESSES, AddressIndexFull);
      var p := x.count / PAGE_SIZE;
      Ok(Index(x.pages[p := Page(x.pages, p) + [a]], x.count + 1, x.tracked + {a}))
  }

  /** The first `n` pages, concatenated. */
  function Concatenated(pages: map<nat, seq<Address>>, n: nat): seq<Address> {
    if n == 0 then [] else Concatenated(pages, n - 1) + Page(pages, n - 1)
  }

  function PagesFor(count: nat): nat { (count + PAGE_SIZE - 1) / PAGE_SIZE }

  function AddressIndex(x: Index): seq<Address> { Concatenated(x.pages, PagesFor(x.count)) }

  // ----- the status history -----

  /** The bounded log after one more entry: the oldest ones make room. */
  function Pushed(h: seq<StatusEntry>, e: StatusEntry): seq<StatusEntry> {
    (if |h| >= MAX_STATUS_HISTORY then h[|h| - MAX_STATUS_HISTORY + 1..] else h) + [e]
  }

  function Remember(s: Registry, a: Address, e: StatusEntry): Registry {
    s.(history := s.history[a := Pushed(Lookup(s.history, a, []), e)], log := s.log + [Change(a, e)])
  }

  /** A status change: the new marks, one history entry, and a slot in the index. */
  function Record(s: Registry, m: Marks, a: Address, status: AddressState, now: u64, actor: Address): Outcome {
    var index :- Track(s.index, a);
    Ok(Remember(s, a, StatusEntry(status, now, actor)).(marks := m, index := index))
  }

  // ----- allowing -----

  /** The flag writes of an allow; `counted` tells whether the entrypoint keeps the allow counter. */
  function AllowMarked(m: Marks, a: Address, until: Option<u64>, counted: bool): Marks {
    m.(allowed := m.allowed[a := true],
       allowedUntil := if until.Some? then m.allowedUntil[a := until.value] else m.allowedUntil - {a},
       allowCount := if counted && !Flag(m.allowed, a) then Min(m.allowCount + 1, U64_MAX) else m.allowCount)
  }

  function AllowOne(s: Registry, now: u64, actor: Address, a: Address): Outcome {
    Record(s, AllowMarked(s.marks, a, None, true), a, Allowed, now, actor)
  }

  function AllowAddress(s: Registry, now: u64, caller: Address, a: Address): Outcome {
    var _ :- RequireAdmin(s, caller);
    var _ :- RequireNotPaused(s);
    AllowOne(s, now, caller, a)
  }

  function TierMarked(m: Marks, a: Address, tier: u32): Marks {
    AllowMarked(m, a, None, false).(tier := m.tier[a := tier])
  }

  function AllowWithTier(s: Registry, now: u64, caller: Address, a: Address, tier: u32): Outcome {
    var _ :- RequireAdmin(s, caller);
    var _ :- RequireNotPaused(s);
    Record(s, TierMarked(s.marks, a, tier), a, Allowed, now, caller)
  }

  function AllowUntil(s: Registry, now: u64, caller: Address, a: Address, until: u64): Outcome {
    var _ :- RequireAdmin(s, caller);
    var _ :- RequireNotPaused(s);
    Record(s, AllowMarked(s.marks, a, Some(until), false), a, Allowed, now, caller)
  }

  function AllowEach(s: Registry, now: u64, actor: Address, batch: seq<Address>): Outcome {
    if batch == [] then Ok(s)
    else
      var s' :- AllowEach(s, now, actor, batch[..|batch| - 1]);
      AllowOne(s', now, actor, batch[|batch| - 1])
  }

  function BulkAllow(s: Registry, now: u64, caller: Address, batch: seq<Address>): Outcome {
    var _ :- RequireAdmin(s, caller);
    var _ :- RequireNotPaused(s);
    var _ :- CheckCooldown(s.roles.lastBulkAllow, caller, now);
    var _ :- Need(|batch| <= MAX_BATCH_SIZE, BatchTooLarge);
    AllowEach(s.(roles := s.roles.(lastBulkAllow := s.roles.lastBulkAllow[caller := now])), now, caller, batch)
  }

  // ----- blocking -----

  /** Without an expiry of its own the block leaves a stored expiry as it is. */
  function BlockMarked(m: Marks, a: Address, until: Option<u64>, placer: Address): Marks {
    m.(blocked := m.blocked[a := true],
       blockedUntil := if until.Some? then m.blockedUntil[a := until.value] else m.blockedUntil,
       blockedBy := m.blockedBy[a := placer])
  }

  function BlockOne(s: Registry, now: u64, actor: Address, a: Address, until: Option<u64>): Outcome {
    Record(s, BlockMarked(s.marks, a, until, actor), a, Blocked, now, actor)
  }

  /** `block_address` when `until` is None, otherwise `block_address_until`. */
  function BlockAddress(s: Registry, now: u64, caller: Address, a: Address, until: Option<u64>): Outcome {
    var _ :- RequireAdminOrOperator(s, caller);
    BlockOne(s, now, caller, a, until)
  }

  function BlockEach(s: Registry, now: u64, actor: Address, batch: seq<Address>): Outcome {
    if batch == [] then Ok(s)
    else
      var s' :- BlockEach(s, now, actor, batch[..|batch| - 1]);
      BlockOne(s', now, actor, batch[|batch| - 1], None)
  }

  function BulkBlock(s: Registry, now: u64, caller: Address, batch: seq<Address>): Outcome {
    var _ :- RequireAdmin(s, caller);
    var _ :- CheckCooldown(s.roles.lastBulkBlock, caller, now);
    var _ :- Need(|batch| <= MAX_BATCH_SIZE, BatchTooLarge);
    BlockEach(s.(roles := s.roles.(lastBulkBlock := s.roles.lastBulkBlock[caller := now])), now, caller, batch)
  }

  // ----- clearing and revoking -----

  function BlockPlacer(s: Registry, a: Address): Option<Address> {
    if !Flag(s.marks.blocked, a) then None
    else if a in s.marks.blockedBy then Some(s.marks.blockedBy[a])
    else s.roles.admin
  }

  /** An operator may only undo a block of its own. */
  function RequireMayClear(s: Registry, caller: Address, a: Address): Guard<ComplianceError> {
    if s.roles.admin == Some(caller) then Pass
    else match BlockPlacer(s, a)
      case Some(placer) => Need(placer == caller, OperatorCannotClearAdminBlock)
      case None => Fail(Unauthorized)
  }

  function ClearMarked(m: Marks, a: Address): Marks {
    AllowMarked(m, a, None, true).(blocked := m.blocked[a := false], blockedUntil := m.blockedUntil - {a},
                                   blockedBy := m.blockedBy - {a}, tier := m.tier - {a})
  }

  function ClearAddress(s: Registry, now: u64, caller: Address, a: Address): Outcome {
    var _ :- RequireAdminOrOperator(s, caller);
    var _ :- RequireMayClear(s, caller, a);
    Record(s, ClearMarked(s.marks, a), a, Allowed, now, caller)
  }

  function RevokeMarked(m: Marks, a: Address): Marks {
    m.(allowed := m.allowed - {a}, allowedUntil := m.allowedUntil - {a})
  }

  function RevokeAllow(s: Registry, now: u64, caller: Address, a: Address): Outcome {
    var _ :- RequireAdmin(s, caller);
    var _ :- RequireNotPaused(s);
    Record(s, RevokeMarked(s.marks, a), a, Blocked, now, caller)
  }

  // ----- sweeping -----

  predicate Lapsed(m: Marks, a: Address, now: u64) {
    Flag(m.allowed, a) && a in m.allowedUntil && now >= m.allowedUntil[a]
  }

  function ExpireMarked(m: Marks, a: Address): Marks {
    m.(allowed := m.allowed[a := false], allowedUntil := m.allowedUntil - {a}, allowCount := Max(m.allowCount - 1, 0))
  }

  /** Turns a lapsed allow into a cleared one. */
  function Expire(s: Registry, now: u64, actor: Address, a: Address): Registry {
    Remember(s, a, StatusEntry(Expired, now, actor)).(marks := ExpireMarked(s.marks, a))
  }

  datatype Swept = Swept(state: Registry, number: nat)

  /** Walks the index in order and stops expiring once `limit` (unless zero) entries were expired. */
  function SweepEach(s: Registry, now: u64, actor: Address, index: seq<Address>, limit: u32): Swept {
    if index == [] then Swept(s, 0)
    else
      var w := SweepEach(s, now, actor, index[..|index| - 1], limit);
      var a := index[|index| - 1];
      if (limit > 0 && w.number >= limit) || !Lapsed(w.state.marks, a, now) then w
      else Swept(Expire(w.state, now, actor, a), w.number + 1)
  }

  function SweepExpired(s: Registry, now: u64, caller: Address, limit: u32): Result<Swept, ComplianceError> {
    var _ :- RequireAdminOrOperator(s, caller);
    Ok(SweepEach(s, now, caller, AddressIndex(s.index), limit))
  }

  function Sweep(s: Registry, now: u64, caller: Address, limit: u32): Outcome {
    var w :- SweepExpired(s, now, caller, limit);
    Ok(w.state)
  }

  // ----- calls -----

  datatype MarkCall =
    | CallAllow(caller: Address, address: Address)
    | CallAllowWithTier(caller: Address, address: Address, tier: u32)
    | CallAllowUntil(caller: Address, address: Address, at: u64)
    | CallBlock(caller: Address, address: Address, until: Option<u64>)
    | CallClear(caller: Address, address: Address)
    | CallRevoke(caller: Address, address: Address)

  function MarkStep(s: Registry, now: u64, call: MarkCall): Outcome {
    match call
    case CallAllow(caller, a) => AllowAddress(s, now, caller, a)
    case CallAllowWithTier(caller, a, tier) => AllowWithTier(s, now, caller, a, tier)
    case CallAllowUntil(caller, a, at) => AllowUntil(s, now, caller, a, at)
    case CallBlock(caller, a, until) => BlockAddress(s, now, caller, a, until)
    case CallClear(caller, a) => ClearAddress(s, now, caller, a)
    case CallRevoke(caller, a) => RevokeAllow(s, now, caller, a)
  }

  datatype RoleCall =
    | CallInitialize(admin: Address)
    | CallSetPaused(caller: Address, paused: bool)
    | CallSetOperator(caller: Address, operator: Address)
    | CallAddOperator(caller: Address, operator: Address)
    | CallRemoveOperator(caller: Address, operator: Address)
    | CallSetRoot(caller: Address, root: Digest)

  /** The administrative calls only change roles and settings. */
  function RoleStep(r: Roles, call: RoleCall): Result<Roles, ComplianceError> {
    match call
    case CallInitialize(admin) =>
      var _ :- Need(r.admin.None?, AlreadyInitialized);
      Ok(r.(admin := Some(admin), paused := false))
    case CallSetPaused(caller, paused) =>
      var _ :- Need(r.admin == Some(caller), Unauthorized);
      Ok(r.(paused := paused))
    case CallSetOperator(caller, operator) =>
      var _ :- Need(r.admin == Some(caller), Unauthorized);
      Ok(r.(operator := Some(operator)))
    case CallAddOperator(caller, operator) =>
      var _ :- Need(r.admin == Some(caller), Unauthorized);
      if operator in r.operators then Ok(r)
      else
        var _ :- Need(|r.operators| < MAX_OPERATORS, OperatorSetFull);
        Ok(r.(operators := r.operators + [operator]))
    case CallRemoveOperator(caller, operator) =>
      var _ :- Need(r.admin == Some(caller), Unauthorized);
      Ok(r.(operators := Without(r.operators, operator)))
    case CallSetRoot(caller, root) =>
      var _ :- Need(r.admin == Some(caller), Unauthorized);
      Ok(r.(root := Some(root)))
  }

  datatype Call =
    | Marking(mark: MarkCall)
    | BulkAllowing(caller: Address, batch: seq<Address>)
    | BulkBlocking(caller: Address, batch: seq<Address>)
    | Sweeping(caller: Address, limit: u32)
    | Managing(role: RoleCall)

  function CallStep(s: Registry, now: u64, call: Call): Outcome {
    match call
    case Marking(c) => MarkStep(s, now, c)
    case BulkAllowing(caller, batch) => BulkAllow(s, now, caller, batch)
    case BulkBlocking(caller, batch) => BulkBlock(s, now, caller, batch)
    case Sweeping(caller, limit) => Sweep(s, now, caller, limit)
    case Managing(c) =>
      var roles :- RoleStep(s.roles, c);
      Ok(s.(roles := roles))
  }
}
