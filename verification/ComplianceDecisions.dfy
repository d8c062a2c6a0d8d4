/** The allow decision told by the calls that name an address, and exactly which calls succeed. */
module ComplianceDecisions {
  import opened Common
  import opened ComplianceSpec
  import opened ComplianceIndex
  import opened ComplianceSweep
  import opened ComplianceRuns

  // ----- one address -----

  datatype Allowance = Off | Forever | Till(at: u64)

  /** Everything stored about the standing of one address. */
  datatype Standing = Standing(
    allowance: Allowance, blocked: bool, unblockAt: Option<u64>, placer: Option<Address>, tier: Option<u32>)

  const UNKNOWN: Standing := Standing(Off, false, None, None, None)

  ghost function Stored<T>(m: map<Address, T>, a: Address): Option<T> { if a in m then Some(m[a]) else None }

  ghost function StandingOf(m: Marks, a: Address): Standing {
    Standing(if !Flag(m.allowed, a) then Off else if a in m.allowedUntil then Till(m.allowedUntil[a]) else Forever,
             Flag(m.blocked, a), Stored(m.blockedUntil, a), Stored(m.blockedBy, a), Stored(m.tier, a))
  }

  /** A sweep looks for exactly the allowances that have run out. */
  lemma LapsedIsRunOut(m: Marks, a: Address, now: u64)
    ensures Lapsed(m, a, now) <==> StandingOf(m, a).allowance.Till? && StandingOf(m, a).allowance.at <= now
  {
  }

  /** Allowed: an allowance that has not run out, and no block that still stands. */
  ghost predicate Decides(x: Standing, t: int) {
    && (match x.allowance case Off => false case Forever => true case Till(at) => t < at)
    && !(x.blocked && (x.unblockAt.Some? ==> t < x.unblockAt.value))
  }

  lemma DecisionIsTheStanding(m: Marks, a: Address, t: u64)
    ensures IsAllowedAt(m, a, t) <==> Decides(StandingOf(m, a), t)
  {
  }

  /** The standing of `a` after a successful call that is not a sweep. */
  ghost function After(x: Standing, call: Call, a: Address): Standing {
    match call
    case Marking(c) => if c.address == a then Marked(x, c) else x
    case BulkAllowing(_, batch) => if a in batch then x.(allowance := Forever) else x
    case BulkBlocking(caller, batch) => if a in batch then x.(blocked := true, placer := Some(caller)) else x
    case Sweeping(_, _) => x
    case Managing(_) => x
  }

  ghost function Marked(x: Standing, call: MarkCall): Standing {
    match call
    case CallAllow(_, _) => x.(allowance := Forever)
    case CallAllowWithTier(_, _, tier) => x.(allowance := Forever, tier := Some(tier))
    case CallAllowUntil(_, _, at) => x.(allowance := Till(at))
    case CallBlock(caller, _, until) =>
      x.(blocked := true, unblockAt := if until.Some? then until else x.unblockAt, placer := Some(caller))
    case CallClear(_, _) => Standing(Forever, false, None, None, None)
    case CallRevoke(_, _) => x.(allowance := Off)
  }

  // ----- one call -----

  lemma AllowStands(m: Marks, a: Address, until: Option<u64>, counted: bool, b: Address)
    ensures StandingOf(AllowMarked(m, a, until, counted), b)
            == if b != a then StandingOf(m, b)
               else StandingOf(m, a).(allowance := if until.Some? then Till(until.value) else Forever)
  {
  }

  lemma TierStands(m: Marks, a: Address, tier: u32, b: Address)
    ensures StandingOf(TierMarked(m, a, tier), b)
            == if b != a then StandingOf(m, b) else StandingOf(m, a).(allowance := Forever, tier := Some(tier))
  {
    AllowStands(m, a, None, false, b);
  }

  lemma BlockStands(m: Marks, a: Address, until: Option<u64>, placer: Address, b: Address)
    ensures StandingOf(BlockMarked(m, a, until, placer), b)
            == if b != a then StandingOf(m, b)
               else StandingOf(m, a).(blocked := true, placer := Some(placer),
                                      unblockAt := if until.Some? then until else StandingOf(m, a).unblockAt)
  {
  }

  lemma ClearStands(m: Marks, a: Address, b: Address)
    ensures StandingOf(ClearMarked(m, a), b)
            == if b != a then StandingOf(m, b) else Standing(Forever, false, None, None, None)
  {
  }

  lemma RevokeStands(m: Marks, a: Address, b: Address)
    ensures StandingOf(RevokeMarked(m, a), b)
            == if b != a then StandingOf(m, b) else StandingOf(m, a).(allowance := Off)
  {
  }

  lemma MarkStepSets(s: Registry, now: u64, call: MarkCall, a: Address)
    requires MarkStep(s, now, call).Ok?
    ensures StandingOf(MarkStep(s, now, call).value.marks, a) == After(StandingOf(s.marks, a), Marking(call), a)
  {
    match call
    case CallAllow(_, x) => AllowStands(s.marks, x, None, true, a);
    case CallAllowWithTier(_, x, tier) => TierStands(s.marks, x, tier, a);
    case CallAllowUntil(_, x, at) => AllowStands(s.marks, x, Some(at), false, a);
    case CallBlock(caller, x, until) => BlockStands(s.marks, x, until, caller, a);
    case CallClear(_, x) => ClearStands(s.marks, x, a);
    case CallRevoke(_, x) => RevokeStands(s.marks, x, a);
  }

  lemma {:induction false} AllowEachSets(s: Registry, now: u64, actor: Address, batch: seq<Address>, a: Address)
    requires AllowEach(s, now, actor, batch).Ok?
    ensures StandingOf(AllowEach(s, now, actor, batch).value.marks, a)
            == After(StandingOf(s.marks, a), BulkAllowing(actor, batch), a)
  {
    if batch != [] {
      var front, last := batch[..|batch| - 1], batch[|batch| - 1];
      AllowEachSets(s, now, actor, front, a);
      AllowStands(AllowEach(s, now, actor, front).value.marks, last, None, true, a);
      assert a in batch <==> a in front || a == last by { assert batch == front + [last]; }
    }
  }

  lemma {:induction false} BlockEachSets(s: Registry, now: u64, actor: Address, batch: seq<Address>, a: Address)
    requires BlockEach(s, now, actor, batch).Ok?
    ensures StandingOf(BlockEach(s, now, actor, batch).value.marks, a)
            == After(StandingOf(s.marks, a), BulkBlocking(actor, batch), a)
  {
    if batch != [] {
      var front, last := batch[..|batch| - 1], batch[|batch| - 1];
      BlockEachSets(s, now, actor, front, a);
      BlockStands(BlockEach(s, now, actor, front).value.marks, last, None, actor, a);
      assert a in batch <==> a in front || a == last by { assert batch == front + [last]; }
    }
  }

  /**
   A successful call other than a sweep changes the standing of each address it names as the table says, and no other.
   */
  lemma CallStepSets(s: Registry, now: u64, call: Call, a: Address)
    requires CallStep(s, now, call).Ok? && !call.Sweeping?
    ensures StandingOf(CallStep(s, now, call).value.marks, a) == After(StandingOf(s.marks, a), call, a)
  {
    match call
    case Marking(c) => MarkStepSets(s, now, c, a);
    case BulkAllowing(caller, batch) =>
      AllowEachSets(s.(roles := s.roles.(lastBulkAllow := s.roles.lastBulkAllow[caller := now])), now, caller, batch,
                    a);
    case BulkBlocking(caller, batch) =>
      BlockEachSets(s.(roles := s.roles.(lastBulkBlock := s.roles.lastBulkBlock[caller := now])), now, caller, batch,
                    a);
    case Managing(_) =>
  }

  lemma {:induction false} ExpireAllLeaves(s: Registry, now: u64, actor: Address, batch: seq<Address>)
    ensures var m, m' := s.marks, ExpireAll(s, now, actor, batch).marks;
            m'.blockedBy == m.blockedBy && m'.tier == m.tier
  {
    if batch != [] {
      var front := batch[..|batch| - 1];
      ExpireAllLeaves(s, now, actor, front);
      assert ExpireAll(s, now, actor, batch) == Expire(ExpireAll(s, now, actor, front), now, actor, batch[|batch| - 1]);
    }
  }

  /** A sweep takes the allowance of some addresses whose allowance has run out, and changes nothing else. */
  lemma SweepSets(s: Registry, now: u64, caller: Address, limit: u32, a: Address)
    requires Sound(s) && Sweep(s, now, caller, limit).Ok?
    ensures var x, x' := StandingOf(s.marks, a), StandingOf(Sweep(s, now, caller, limit).value.marks, a);
            x' == x || (x.allowance.Till? && x.allowance.at <= now && x' == x.(allowance := Off))
  {
    SweepClearsTheFirst(s, now, caller, limit);
    SweepLeavesTheRest(s, now, caller, limit, a);
    ExpireAllLeaves(s, now, caller, First(LapsedIn(s, now), limit));
  }

  // ----- runs -----

  ghost predicate Succeeds(s: Registry, e: Event) { CallStep(s, e.now, e.call).Ok? }

  /** The standing of `a` by the successful calls of the run that name it; sweeps play no part. */
  ghost function StandingBy(es: seq<Event>, a: Address): Standing {
    if es == [] then UNKNOWN
    else
      var front, e := es[..|es| - 1], es[|es| - 1];
      if Succeeds(Run(front), e) then After(StandingBy(front, a), e.call, a) else StandingBy(front, a)
  }

  /** `y` is `x`, except that an allowance which has run out may be gone. */
  ghost predicate UpToSweeps(x: Standing, y: Standing, now: int) {
    y == x || (x.allowance.Till? && x.allowance.at <= now && y == x.(allowance := Off))
  }

  lemma StepStands(s: Registry, e: Event, x: Standing, earlier: u64, a: Address)
    requires Sound(s) && UpToSweeps(x, StandingOf(s.marks, a), earlier) && earlier <= e.now
    ensures UpToSweeps(if Succeeds(s, e) then After(x, e.call, a) else x, StandingOf(Step(s, e).marks, a), e.now)
  {
    if Succeeds(s, e) {
      if e.call.Sweeping? {
        SweepSets(s, e.now, e.call.caller, e.call.limit, a);
      } else {
        CallStepSets(s, e.now, e.call, a);
      }
    }
  }

  lemma {:induction false} RunStands(es: seq<Event>, a: Address)
    requires Chronological(es)
    ensures UpToSweeps(StandingBy(es, a), StandingOf(Run(es).marks, a), LastTime(es))
  {
    if es != [] {
      var front := es[..|es| - 1];
      RunStands(front, a);
      RunIsSound(front);
      assert LastTime(front) <= LastTime(es);
      StepStands(Run(front), es[|es| - 1], StandingBy(front, a), LastTime(front), a);
    }
  }

  /** After any chronological run, now or later, the decision for an address is that of the calls that named it. */
  lemma DecisionIsByTheCalls(es: seq<Event>, a: Address, t: u64)
    requires Chronological(es) && LastTime(es) <= t
    ensures IsAllowedAt(Run(es).marks, a, t) <==> Decides(StandingBy(es, a), t)
  {
    RunStands(es, a);
    DecisionIsTheStanding(Run(es).marks, a, t);
  }

  ghost predicate Names(call: Call, a: Address) {
    match call
    case Marking(c) => c.address == a
    case BulkAllowing(_, batch) => a in batch
    case BulkBlocking(_, batch) => a in batch
    case _ => false
  }

  /** The call at `i` succeeds, and no later successful one names `a`. */
  ghost predicate LastNamed(es: seq<Event>, i: nat, a: Address)
    requires i < |es|
  {
    && Succeeds(Run(es[..i]), es[i])
    && forall j :: i < j < |es| && Succeeds(Run(es[..j]), es[j]) ==> !Names(es[j].call, a)
  }

  /** Only calls that name an address matter to its standing: it stays what the last such call made it. */
  lemma {:induction false} LastNamingCallDecides(es: seq<Event>, i: nat, a: Address)
    requires i < |es| && LastNamed(es, i, a)
    ensures StandingBy(es, a) == After(StandingBy(es[..i], a), es[i].call, a)
  {
    var front := es[..|es| - 1];
    if i < |es| - 1 {
      assert front[..i] == es[..i];
      forall j | i < j < |front| && Succeeds(Run(front[..j]), front[j]) ensures !Names(front[j].call, a) {
        assert front[..j] == es[..j];
      }
      LastNamingCallDecides(front, i, a);
      assert front == es[..|es| - 1];
    }
  }

  lemma DecisionIsByTheLast(es: seq<Event>, i: nat, a: Address, t: u64)
    requires Chronological(es) && LastTime(es) <= t && i < |es| && LastNamed(es, i, a)
    ensures IsAllowedAt(Run(es).marks, a, t) <==> Decides(After(StandingBy(es[..i], a), es[i].call, a), t)
  {
    LastNamingCallDecides(es, i, a);
    DecisionIsByTheCalls(es, a, t);
  }

  /** An address whose last naming call revoked its allowance is refused from then on. */
  lemma RevokedIsRefused(es: seq<Event>, i: nat, a: Address, t: u64)
    requires Chronological(es) && LastTime(es) <= t && i < |es| && LastNamed(es, i, a)
    requires es[i].call.Marking? && es[i].call.mark.CallRevoke? && es[i].call.mark.address == a
    ensures !IsAllowedAt(Run(es).marks, a, t)
  {
    DecisionIsByTheLast(es, i, a, t);
  }

  /** An address whose last naming call cleared it is allowed from then on. */
  lemma ClearedIsAllowed(es: seq<Event>, i: nat, a: Address, t: u64)
    requires Chronological(es) && LastTime(es) <= t && i < |es| && LastNamed(es, i, a)
    requires es[i].call.Marking? && es[i].call.mark.CallClear? && es[i].call.mark.address == a
    ensures IsAllowedAt(Run(es).marks, a, t)
  {
    DecisionIsByTheLast(es, i, a, t);
  }

  // ----- which calls succeed -----

  ghost predicate Operates(s: Registry, caller: Address) {
    s.roles.admin == Some(caller) || s.roles.operator == Some(caller) || caller in s.roles.operators
  }

  ghost predicate HasSlot(s: Registry, a: Address) { a in s.index.tracked || s.index.count < 2_000 }

  /** The admin may clear any address; an operator only one it blocked itself. */
  ghost predicate MayClear(s: Registry, caller: Address, a: Address) {
    || s.roles.admin == Some(caller)
    || (Operates(s, caller) && StandingOf(s.marks, a).blocked && StandingOf(s.marks, a).placer == Some(caller))
  }

  ghost predicate MarkEnabled(s: Registry, call: MarkCall) {
    && HasSlot(s, call.address)
    && match call
       case CallBlock(caller, _, _) => Operates(s, caller)
       case CallClear(caller, a) => MayClear(s, caller, a)
       case _ => s.roles.admin == Some(call.caller) && !s.roles.paused
  }

  lemma MarkStepOkIff(s: Registry, now: u64, call: MarkCall)
    ensures MarkStep(s, now, call).Ok? <==> MarkEnabled(s, call)
  {
    match call
    case CallAllow(_, _) =>
    case CallAllowWithTier(_, _, _) =>
    case CallAllowUntil(_, _, _) =>
    case CallBlock(_, _, _) =>
    case CallClear(_, _) =>
    case CallRevoke(_, _) =>
  }

  function IsNew(s: Registry): Address -> bool { a => a !in s.index.tracked }

  /** The addresses of a batch that need a new slot, each once. */
  ghost function Newcomers(s: Registry, batch: seq<Address>): seq<Address> { FirstOccurrences(Filter(batch, IsNew(s))) }

  lemma NewcomersSnoc(s: Registry, batch: seq<Address>, a: Address)
    ensures Newcomers(s, batch + [a])
            == Newcomers(s, batch) + (if a !in s.index.tracked && a !in batch then [a] else [])
  {
    FirstPassing(batch, a, IsNew(s));
  }

  /** The index after a batch: each newcomer has a slot. */
  ghost predicate Indexes(s: Registry, s': Registry, batch: seq<Address>) {
    && s'.index.count == s.index.count + |Newcomers(s, batch)|
    && forall a :: a in s'.index.tracked <==> a in s.index.tracked || a in batch
  }

  lemma IndexesSnoc(s: Registry, mid: Registry, s': Registry, batch: seq<Address>, a: Address)
    requires Indexes(s, mid, batch) && Track(mid.index, a) == Ok(s'.index)
    ensures Indexes(s, s', batch + [a])
  {
    NewcomersSnoc(s, batch, a);
  }

  lemma {:induction false} AllowEachOkIff(s: Registry, now: u64, actor: Address, batch: seq<Address>)
    requires s.index.count <= 2_000
    ensures AllowEach(s, now, actor, batch).Ok? <==> s.index.count + |Newcomers(s, batch)| <= 2_000
    ensures AllowEach(s, now, actor, batch).Ok? ==> Indexes(s, AllowEach(s, now, actor, batch).value, batch)
  {
    if batch != [] {
      var front, last := batch[..|batch| - 1], batch[|batch| - 1];
      AllowEachOkIff(s, now, actor, front);
      NewcomersSnoc(s, front, last);
      assert batch == front + [last];
      if AllowEach(s, now, actor, batch).Ok? {
        IndexesSnoc(s, AllowEach(s, now, actor, front).value, AllowEach(s, now, actor, batch).value, front, last);
      }
    }
  }

  lemma {:induction false} BlockEachOkIff(s: Registry, now: u64, actor: Address, batch: seq<Address>)
    requires s.index.count <= 2_000
    ensures BlockEach(s, now, actor, batch).Ok? <==> s.index.count + |Newcomers(s, batch)| <= 2_000
    ensures BlockEach(s, now, actor, batch).Ok? ==> Indexes(s, BlockEach(s, now, actor, batch).value, batch)
  {
    if batch != [] {
      var front, last := batch[..|batch| - 1], batch[|batch| - 1];
      BlockEachOkIff(s, now, actor, front);
      NewcomersSnoc(s, front, last);
      assert batch == front + [last];
      if BlockEach(s, now, actor, batch).Ok? {
        IndexesSnoc(s, BlockEach(s, now, actor, front).value, BlockEach(s, now, actor, batch).value, front, last);
      }
    }
  }

  /** A minute has passed since the caller's last call of the kind (or time has reached its end). */
  ghost predicate Rested(last: map<Address, u64>, caller: Address, now: u64) {
    caller in last ==> now - last[caller] >= 60 || now == U64_MAX
  }

  ghost predicate RoleEnabled(r: Roles, call: RoleCall) {
    match call
    case CallInitialize(_) => r.admin.None?
    case CallAddOperator(caller, operator) => r.admin == Some(caller) && (operator in r.operators || |r.operators| < 10)
    case _ => r.admin == Some(call.caller)
  }

  ghost predicate Enabled(s: Registry, now: u64, call: Call) {
    match call
    case Marking(c) => MarkEnabled(s, c)
    case BulkAllowing(caller, batch) =>
      && s.roles.admin == Some(caller) && !s.roles.paused && Rested(s.roles.lastBulkAllow, caller, now)
      && |batch| <= 50 && s.index.count + |Newcomers(s, batch)| <= 2_000
    case BulkBlocking(caller, batch) =>
      && s.roles.admin == Some(caller) && Rested(s.roles.lastBulkBlock, caller, now)
      && |batch| <= 50 && s.index.count + |Newcomers(s, batch)| <= 2_000
    case Sweeping(caller, _) => Operates(s, caller)
    case Managing(c) => RoleEnabled(s.roles, c)
  }

  lemma CallStepOkIff(s: Registry, now: u64, call: Call)
    requires s.index.count <= 2_000
    ensures CallStep(s, now, call).Ok? <==> Enabled(s, now, call)
  {
    match call
    case Marking(c) => MarkStepOkIff(s, now, c);
    case BulkAllowing(caller, batch) =>
      AllowEachOkIff(s.(roles := s.roles.(lastBulkAllow := s.roles.lastBulkAllow[caller := now])), now, caller, batch);
    case BulkBlocking(caller, batch) =>
      BlockEachOkIff(s.(roles := s.roles.(lastBulkBlock := s.roles.lastBulkBlock[caller := now])), now, caller, batch);
    case Sweeping(_, _) =>
    case Managing(_) =>
  }

  /** After any run a call succeeds exactly when it is enabled. */
  lemma CallOkIff(es: seq<Event>, now: u64, call: Call)
    ensures CallStep(Run(es), now, call).Ok? <==> Enabled(Run(es), now, call)
  {
    RunIsSound(es);
    CallStepOkIff(Run(es), now, call);
  }

  // ----- what is logged, and roles -----

  ghost function LoggedAs(call: MarkCall): AddressState {
    match call
    case CallBlock(_, _, _) => Blocked
    case CallRevoke(_, _) => Blocked
    case _ => Allowed
  }

  ghost function Entries(batch: seq<Address>, status: AddressState, now: u64, actor: Address): seq<Change> {
    seq(|batch|, i requires 0 <= i < |batch| => Change(batch[i], StatusEntry(status, now, actor)))
  }

  lemma EntriesSnoc(batch: seq<Address>, status: AddressState, now: u64, actor: Address)
    requires batch != []
    ensures Entries(batch, status, now, actor) == Entries(batch[..|batch| - 1], status, now, actor)
                                                  + [Change(batch[|batch| - 1], StatusEntry(status, now, actor))]
  {
  }

  lemma {:induction false} AllowEachLogs(s: Registry, now: u64, actor: Address, batch: seq<Address>)
    requires AllowEach(s, now, actor, batch).Ok?
    ensures AllowEach(s, now, actor, batch).value.log == s.log + Entries(batch, Allowed, now, actor)
  {
    if batch != [] {
      AllowEachLogs(s, now, actor, batch[..|batch| - 1]);
      EntriesSnoc(batch, Allowed, now, actor);
    }
  }

  lemma {:induction false} BlockEachLogs(s: Registry, now: u64, actor: Address, batch: seq<Address>)
    requires BlockEach(s, now, actor, batch).Ok?
    ensures BlockEach(s, now, actor, batch).value.log == s.log + Entries(batch, Blocked, now, actor)
  {
    if batch != [] {
      BlockEachLogs(s, now, actor, batch[..|batch| - 1]);
      EntriesSnoc(batch, Blocked, now, actor);
    }
  }

  lemma {:induction false} ExpireAllLogs(s: Registry, now: u64, actor: Address, batch: seq<Address>)
    ensures ExpireAll(s, now, actor, batch).log == s.log + Entries(batch, Expired, now, actor)
  {
    if batch != [] {
      var front := batch[..|batch| - 1];
      ExpireAllLogs(s, now, actor, front);
      EntriesSnoc(batch, Expired, now, actor);
      assert ExpireAll(s, now, actor, batch) == Expire(ExpireAll(s, now, actor, front), now, actor, batch[|batch| - 1]);
    }
  }

  /** A successful call logs one change per address it marks, in order, with its status, time and caller. */
  lemma CallStepLogs(s: Registry, now: u64, call: Call)
    requires Sound(s) && CallStep(s, now, call).Ok?
    ensures CallStep(s, now, call).value.log == s.log +
              match call
              case Marking(c) => Entries([c.address], LoggedAs(c), now, c.caller)
              case BulkAllowing(caller, batch) => Entries(batch, Allowed, now, caller)
              case BulkBlocking(caller, batch) => Entries(batch, Blocked, now, caller)
              case Sweeping(caller, limit) => Entries(First(LapsedIn(s, now), limit), Expired, now, caller)
              case Managing(_) => []
  {
    match call
    case Marking(c) =>
      assert Entries([c.address], LoggedAs(c), now, c.caller)
             == [Change(c.address, StatusEntry(LoggedAs(c), now, c.caller))];
    case BulkAllowing(caller, batch) =>
      AllowEachLogs(s.(roles := s.roles.(lastBulkAllow := s.roles.lastBulkAllow[caller := now])), now, caller, batch);
    case BulkBlocking(caller, batch) =>
      BlockEachLogs(s.(roles := s.roles.(lastBulkBlock := s.roles.lastBulkBlock[caller := now])), now, caller, batch);
    case Sweeping(caller, limit) =>
      SweepClearsTheFirst(s, now, caller, limit);
      ExpireAllLogs(s, now, caller, First(LapsedIn(s, now), limit));
    case Managing(_) =>
  }

  /**
   The counter counts plain allows and clears of addresses not yet allowed, up to its maximum; other marks leave it.
   */
  lemma MarkStepCounts(s: Registry, now: u64, call: MarkCall)
    requires MarkStep(s, now, call).Ok?
    ensures MarkStep(s, now, call).value.marks.allowCount ==
              if (call.CallAllow? || call.CallClear?) && StandingOf(s.marks, call.address).allowance.Off?
              then Min(s.marks.allowCount + 1, U64_MAX) else s.marks.allowCount
  {
    match call
    case CallAllow(_, _) =>
    case CallAllowWithTier(_, _, _) =>
    case CallAllowUntil(_, _, _) =>
    case CallBlock(_, _, _) =>
    case CallClear(_, _) =>
    case CallRevoke(_, _) =>
  }

  /** A successful role call sets its own setting and no other. */
  lemma RoleStepSets(r: Roles, call: RoleCall)
    requires RoleStep(r, call).Ok?
    ensures var r' := RoleStep(r, call).value;
            match call
            case CallInitialize(admin) => r' == r.(admin := Some(admin), paused := false)
            case CallSetPaused(_, paused) => r' == r.(paused := paused)
            case CallSetOperator(_, operator) => r' == r.(operator := Some(operator))
            case CallSetRoot(_, root) => r' == r.(root := Some(root))
            case CallAddOperator(_, operator) =>
              r' == r.(operators := r'.operators)
                && (forall a :: a in r'.operators <==> a in r.operators || a == operator)
            case CallRemoveOperator(_, operator) =>
              r' == r.(operators := r'.operators)
                && (forall a :: a in r'.operators <==> a in r.operators && a != operator)
  {
    if call.CallRemoveOperator? { WithoutMembers(r.operators, call.operator); }
  }
}
