/** What every governance call keeps: the timelock rules, the signer registry and a reachable threshold. */
module GovernanceSafety {
  import opened Common
  import opened TreasuryTypes
  import opened GovernanceSpec

  // ----- timelock -----

  /** The journal entry at `k`, if it applies a change, follows the entry that queued it by at least its delay. */
  ghost predicate Timely(journal: seq<GovEvent>, k: nat)
    requires k < |journal|
  {
    journal[k].Applied? ==>
      exists i :: 0 <= i < k && QueuedInTime(journal[i], journal[k])
  }

  ghost predicate QueuedInTime(queued: GovEvent, applied: GovEvent) {
    && queued.Queued? && applied.Applied? && queued.id == applied.id
    && ValidDelay(queued.delay) && applied.at >= queued.at + queued.delay
  }

  /** What the journal says about one change, given its record. */
  ghost predicate EntryOk(g: Governance, k: nat)
    requires k < |g.journal|
  {
    match g.journal[k]
    case Queued(id, at, delay) => id in g.changes
    case Applied(id, at) => id in g.changes && g.changes[id].status.ChangeExecuted?
    case Withdrawn(id) => id in g.changes && g.changes[id].status.ChangeCancelled?
    case Rotated(_) => true
  }

  ghost predicate QueuedAs(e: GovEvent, c: SignerChange) {
    e.Queued? && e.id == c.id && e.at == c.proposedAt && ValidDelay(e.delay) && c.executableAt == e.at + e.delay
  }

  ghost predicate ChangeOk(g: Governance, id: nat) {
    && (id in g.changes <==> 1 <= id <= g.changeCount)
    && (id in g.changes ==>
          g.changes[id].id == id && exists i :: 0 <= i < |g.journal| && QueuedAs(g.journal[i], g.changes[id]))
  }

  ghost predicate SameKind(e: GovEvent, f: GovEvent) {
    (e.Queued? && f.Queued? && e.id == f.id) || (e.Applied? && f.Applied? && e.id == f.id)
  }

  ghost predicate Timelocked(g: Governance) {
    && ValidDelay(CurrentDelay(g))
    && (forall id :: ChangeOk(g, id))
    && (forall k :: 0 <= k < |g.journal| ==> EntryOk(g, k))
    && (forall k :: 0 <= k < |g.journal| ==> Timely(g.journal, k))
    && (forall i, j :: 0 <= i < j < |g.journal| ==> !SameKind(g.journal[i], g.journal[j]))
  }

  // ----- registry -----

  ghost predicate Registered(g: Governance) {
    forall a :: SignerWeight(g, a) > 0 ==> a in g.signerList
  }

  ghost predicate RotationFree(g: Governance) {
    forall k :: 0 <= k < |g.journal| ==> !g.journal[k].Rotated?
  }

  ghost predicate Sound(g: Governance) {
    && (g.admin.None? ==> g == EMPTY_GOVERNANCE.(paused := g.paused))
    && NoDup(g.signerList)
    && (RotationFree(g) ==> Registered(g))
    && Timelocked(g)
  }

  lemma EmptyIsSound()
    ensures Sound(EMPTY_GOVERNANCE)
  {
    assert forall id :: ChangeOk(EMPTY_GOVERNANCE, id);
  }

  // ----- calls -----

  ghost predicate SameTimelock(g: Governance, g': Governance) {
    g'.changes == g.changes && g'.changeCount == g.changeCount && g'.delaySecs == g.delaySecs && g'.journal == g.journal
  }

  lemma SameTimelockKeeps(g: Governance, g': Governance)
    requires Timelocked(g) && SameTimelock(g, g')
    ensures Timelocked(g')
  {
    forall id ensures ChangeOk(g', id) { assert ChangeOk(g, id); }
    forall k | 0 <= k < |g'.journal| ensures EntryOk(g', k) { assert EntryOk(g, k); }
  }

  /** An event is appended and at most the record of one change is rewritten with a later status. */
  lemma AppendKeeps(g: Governance, g': Governance, e: GovEvent)
    requires Timelocked(g)
    requires g'.journal == g.journal + [e] && ValidDelay(CurrentDelay(g'))
    requires forall id :: ChangeOk(g', id)
    requires forall k :: 0 <= k < |g.journal| ==> EntryOk(g', k)
    requires EntryOk(g', |g.journal|) && Timely(g'.journal, |g.journal|)
    requires forall i :: 0 <= i < |g.journal| ==> !SameKind(g.journal[i], e)
    ensures Timelocked(g')
  {
    forall k | 0 <= k < |g'.journal| ensures Timely(g'.journal, k) {
      if k < |g.journal| {
        assert Timely(g.journal, k);
        if g.journal[k].Applied? {
          var i :| 0 <= i < k && QueuedInTime(g.journal[i], g.journal[k]);
          assert QueuedInTime(g'.journal[i], g'.journal[k]);
        }
      }
    }
  }

  lemma RotatedKeeps(g: Governance, g': Governance, id: nat)
    requires Timelocked(g) && SameTimelock(g, g'.(journal := g.journal)) && g'.journal == g.journal + [Rotated(id)]
    ensures Timelocked(g')
  {
    forall c ensures ChangeOk(g', c) { WitnessKept(g, g', c); }
    forall k | 0 <= k < |g.journal| ensures EntryOk(g', k) { assert EntryOk(g, k); }
    AppendKeeps(g, g', Rotated(id));
  }

  /** A change whose record keeps its schedule still has its queueing event in a longer journal. */
  lemma WitnessKept(g: Governance, g': Governance, c: nat)
    requires ChangeOk(g, c) && g.journal <= g'.journal && g'.changeCount == g.changeCount
    requires c in g'.changes <==> c in g.changes
    requires c in g.changes ==> g'.changes[c] == g.changes[c].(status := g'.changes[c].status)
    ensures ChangeOk(g', c)
  {
    if c in g.changes {
      var i :| 0 <= i < |g.journal| && QueuedAs(g.journal[i], g.changes[c]);
      assert QueuedAs(g'.journal[i], g'.changes[c]);
    }
  }

  lemma ProposeChangeKeeps(g: Governance, now: u64, caller: Address, kind: ChangeKind)
    requires Timelocked(g) && ProposeChange(g, now, caller, kind).Ok?
    ensures Timelocked(ProposeChange(g, now, caller, kind).value)
  {
    var g' := ProposeChange(g, now, caller, kind).value;
    var id := g.changeCount + 1;
    assert ChangeOk(g, id);
    assert QueuedAs(g'.journal[|g.journal|], g'.changes[id]);
    forall c ensures ChangeOk(g', c) {
      assert ChangeOk(g, c);
      if c in g.changes {
        var i :| 0 <= i < |g.journal| && QueuedAs(g.journal[i], g.changes[c]);
        assert QueuedAs(g'.journal[i], g'.changes[c]);
      }
    }
    forall k | 0 <= k < |g.journal| ensures EntryOk(g', k) && !SameKind(g.journal[k], g'.journal[|g.journal|]) {
      assert EntryOk(g, k);
    }
    AppendKeeps(g, g', Queued(id, now, CurrentDelay(g)));
  }

  /** The record of a pending change is finalised as `status` and event `e` is published. */
  lemma FinaliseKeeps(g: Governance, g': Governance, id: nat, status: ChangeStatus, e: GovEvent)
    requires Timelocked(g) && id in g.changes && g.changes[id].status.ChangePending?
    requires g'.changes == g.changes[id := g.changes[id].(status := status)] && g'.changeCount == g.changeCount
    requires g'.journal == g.journal + [e] && ValidDelay(CurrentDelay(g'))
    requires (e == Withdrawn(id) && status.ChangeCancelled?)
          || (e.Applied? && e.id == id && status.ChangeExecuted? && e.at >= g.changes[id].executableAt)
    ensures Timelocked(g')
  {
    assert ChangeOk(g, id);
    forall c ensures ChangeOk(g', c) { assert ChangeOk(g, c); WitnessKept(g, g', c); }
    forall k | 0 <= k < |g.journal| ensures EntryOk(g', k) && !SameKind(g.journal[k], e) { assert EntryOk(g, k); }
    var i :| 0 <= i < |g.journal| && QueuedAs(g.journal[i], g.changes[id]);
    assert e.Applied? ==> QueuedInTime(g'.journal[i], g'.journal[|g.journal|]);
    AppendKeeps(g, g', e);
  }

  lemma ListSignerKeeps(g: Governance, a: Address, w: u32)
    requires NoDup(g.signerList)
    ensures var g' := ListSigner(g, a, w); NoDup(g'.signerList) && (Registered(g) ==> Registered(g'))
  {
  }

  /** A signer that lost its weight, by zeroing or removal, is taken off the list. */
  lemma UnlistKeeps(g: Governance, g': Governance, a: Address)
    requires NoDup(g.signerList) && g'.signerList == Without(g.signerList, a)
    requires forall x :: SignerWeight(g', x) == if x == a then 0 else SignerWeight(g, x)
    ensures NoDup(g'.signerList) && (Registered(g) ==> Registered(g'))
  {
    WithoutMembers(g.signerList, a);
  }

  lemma ApplyChangeKeeps(g: Governance, kind: ChangeKind)
    requires Sound(g) && g.admin.Some? && ApplyChange(g, kind).Ok?
    ensures var g' := ApplyChange(g, kind).value;
            && g'.admin == g.admin && g'.changes == g.changes && g'.changeCount == g.changeCount
            && g'.journal == g.journal && ValidDelay(CurrentDelay(g'))
            && NoDup(g'.signerList) && (RotationFree(g') ==> Registered(g'))
  {
    match kind
    case SetWeight(a, w) =>
      if w > 0 { ListSignerKeeps(g, a, w); } else { UnlistKeeps(g, ApplyChange(g, kind).value, a); }
    case DropSigner(a) => UnlistKeeps(g, DelistSigner(g, a), a);
    case SetThreshold(t) => assert forall a :: SignerWeight(ApplyChange(g, kind).value, a) == SignerWeight(g, a);
    case SetDelay(seconds) => assert forall a :: SignerWeight(ApplyChange(g, kind).value, a) == SignerWeight(g, a);
  }

  lemma ExecuteChangeKeeps(g: Governance, now: u64, caller: Address, id: nat)
    requires Sound(g) && ExecuteChange(g, now, caller, id).Ok?
    ensures Sound(ExecuteChange(g, now, caller, id).value)
  {
    var g' := ExecuteChange(g, now, caller, id).value;
    var mid := ApplyChange(g, g.changes[id].kind).value;
    ApplyChangeKeeps(g, g.changes[id].kind);
    FinaliseKeeps(g, g', id, ChangeExecuted, Applied(id, now));
    RotationFreeSnoc(g, g', Applied(id, now));
    assert Registered(mid) ==> Registered(g') by {
      assert forall a :: SignerWeight(g', a) == SignerWeight(mid, a);
    }
    assert RotationFree(g) ==> RotationFree(mid);
  }

  lemma RotationFreeSnoc(g: Governance, g': Governance, e: GovEvent)
    requires g'.journal == g.journal + [e]
    ensures RotationFree(g') <==> RotationFree(g) && !e.Rotated?
  {
    if RotationFree(g') {
      forall k | 0 <= k < |g.journal| ensures !g.journal[k].Rotated? { assert g'.journal[k] == g.journal[k]; }
      assert g'.journal[|g.journal|] == e;
    }
  }

  lemma TimelockCallKeeps(g: Governance, now: u64, call: GovCall)
    requires Sound(g) && GovStep(g, now, call).Ok?
    requires call.CallProposeChange? || call.CallExecuteChange? || call.CallCancelChange?
    ensures Sound(GovStep(g, now, call).value)
  {
    var g' := GovStep(g, now, call).value;
    match call
    case CallProposeChange(caller, kind) =>
      ProposeChangeKeeps(g, now, caller, kind);
      RotationFreeSnoc(g, g', Queued(g.changeCount + 1, now, CurrentDelay(g)));
      assert forall a :: SignerWeight(g', a) == SignerWeight(g, a);
    case CallExecuteChange(caller, id) => ExecuteChangeKeeps(g, now, caller, id);
    case CallCancelChange(caller, id) =>
      FinaliseKeeps(g, g', id, ChangeCancelled, Withdrawn(id));
      RotationFreeSnoc(g, g', Withdrawn(id));
      assert forall a :: SignerWeight(g', a) == SignerWeight(g, a);
  }

  lemma {:induction false} EnrolKeeps(g: Governance, signers: seq<(Address, u32)>)
    requires NoDup(g.signerList) && Registered(g) && g.admin.Some?
    ensures var g' := Enrol(g, signers);
            NoDup(g'.signerList) && Registered(g') && g'.admin == g.admin && SameTimelock(g, g')
  {
    if signers != [] { EnrolKeeps(g, signers[..|signers| - 1]); }
  }

  lemma InitializeKeeps(g: Governance, admin: Address, threshold: u32, signers: seq<(Address, u32)>)
    requires Sound(g) && Initialize(g, admin, threshold, signers).Ok?
    ensures Sound(Initialize(g, admin, threshold, signers).value)
  {
    var start := g.(admin := Some(admin), threshold := Some(threshold), paused := false,
                    weights := g.weights[admin := 1], signerList := [admin]);
    EnrolKeeps(start, signers);
    SameTimelockKeeps(g, Enrol(start, signers));
  }

  lemma RotationCallKeeps(g: Governance, now: u64, call: GovCall)
    requires Sound(g) && GovStep(g, now, call).Ok?
    requires call.CallProposeRotation? || call.CallApproveRotation? || call.CallCancelRotation?
    ensures Sound(GovStep(g, now, call).value)
  {
    var g' := GovStep(g, now, call).value;
    assert g.admin.Some?;
    if g'.journal == g.journal {
      SameTimelockKeeps(g, g');
      assert forall a :: SignerWeight(g', a) == SignerWeight(g, a);
    } else {
      RotatedKeeps(g, g', call.id);
      RotationFreeSnoc(g, g', Rotated(call.id));
    }
  }

  lemma DirectCallKeeps(g: Governance, now: u64, call: GovCall)
    requires Sound(g) && GovStep(g, now, call).Ok?
    requires call.CallSetPaused? || call.CallUpdateThreshold? || call.CallSetSigner? || call.CallRemoveSigner?
    ensures Sound(GovStep(g, now, call).value)
  {
    var g' := GovStep(g, now, call).value;
    SameTimelockKeeps(g, g');
    assert RotationFree(g) <==> RotationFree(g');
    match call
    case CallRemoveSigner(_, a) => UnlistKeeps(g, g', a);
    case CallSetSigner(_, a, w) => ListSignerKeeps(g, a, w);
    case CallSetPaused(_, _) => assert forall a :: SignerWeight(g', a) == SignerWeight(g, a);
    case CallUpdateThreshold(_, _) => assert forall a :: SignerWeight(g', a) == SignerWeight(g, a);
  }

  /** One governance call keeps every rule above. */
  lemma GovStepKeeps(g: Governance, now: u64, call: GovCall)
    requires Sound(g) && GovStep(g, now, call).Ok?
    ensures Sound(GovStep(g, now, call).value) && g.journal <= GovStep(g, now, call).value.journal
  {
    JournalGrows(g, now, call);
    if call.CallInitialize? {
      InitializeKeeps(g, call.admin, call.threshold, call.signers);
    } else if call.CallProposeChange? || call.CallExecuteChange? || call.CallCancelChange? {
      TimelockCallKeeps(g, now, call);
    } else if call.CallProposeRotation? || call.CallApproveRotation? || call.CallCancelRotation? {
      RotationCallKeeps(g, now, call);
    } else {
      DirectCallKeeps(g, now, call);
    }
  }

  lemma JournalGrows(g: Governance, now: u64, call: GovCall)
    requires Sound(g) && GovStep(g, now, call).Ok?
    ensures g.journal <= GovStep(g, now, call).value.journal
  {
    if call.CallInitialize? {
      EnrolKeeps(g.(admin := Some(call.admin), threshold := Some(call.threshold), paused := false,
                    weights := g.weights[call.admin := 1], signerList := [call.admin]), call.signers);
    } else if call.CallExecuteChange? {
      ApplyChangeKeeps(g, g.changes[call.id].kind);
    }
  }

  /** A queueing entry records the time of the call and the delay in force before it. */
  lemma QueuedEntries(g: Governance, now: u64, call: GovCall, k: nat)
    requires Sound(g) && GovStep(g, now, call).Ok?
    requires |g.journal| <= k < |GovStep(g, now, call).value.journal| && GovStep(g, now, call).value.journal[k].Queued?
    ensures var e := GovStep(g, now, call).value.journal[k]; e.delay == CurrentDelay(g) && e.at == now
  {
    if call.CallInitialize? {
      EnrolKeeps(g.(admin := Some(call.admin), threshold := Some(call.threshold), paused := false,
                    weights := g.weights[call.admin := 1], signerList := [call.admin]), call.signers);
    } else if call.CallExecuteChange? {
      ApplyChangeKeeps(g, g.changes[call.id].kind);
    }
  }

  // ----- the threshold stays reachable -----

  lemma {:induction false} SumWithout<T>(s: seq<T>, x: T, f: T -> int, f': T -> int)
    requires NoDup(s) && forall i :: 0 <= i < |s| && s[i] != x ==> f'(s[i]) == f(s[i])
    ensures Sum(Without(s, x), f') == Sum(s, f) - (if x in s then f(x) else 0)
  {
    if s != [] {
      var front := s[..|s| - 1];
      SumWithout(front, x, f, f');
      assert x in s <==> x in front || s[|s| - 1] == x by { assert s == front + [s[|s| - 1]]; }
      assert x == s[|s| - 1] ==> x !in front;
      assert Differs(x)(s[|s| - 1]) <==> s[|s| - 1] != x;
    }
  }

  lemma ListedWeightNonNegative(g: Governance)
    ensures ListedWeight(g) >= 0
  {
    SumNonNegative(g.signerList, WeightIn(g));
  }

  /** Delisting a signer takes exactly its weight off the listed total, if it was listed. */
  lemma DelistedWeight(g: Governance, a: Address)
    requires NoDup(g.signerList)
    ensures ListedWeight(DelistSigner(g, a)) == ListedWeight(g) - (if a in g.signerList then SignerWeight(g, a) else 0)
  {
    var g' := DelistSigner(g, a);
    SumWithout(g.signerList, a, WeightIn(g), WeightIn(g'));
  }

  ghost predicate Reachable(g: Governance) {
    ListedWeight(g) >= g.threshold.GetOr(0)
  }

  /** Although the removal check saturates, the weights left listed always reach the threshold. */
  lemma RemovalLeavesQuorum(g: Governance, caller: Address, a: Address)
    requires NoDup(g.signerList) && RemoveSigner(g, caller, a).Ok?
    ensures Reachable(RemoveSigner(g, caller, a).value)
  {
    DelistedWeight(g, a);
    ListedWeightNonNegative(DelistSigner(g, a));
  }

  /** A new threshold, set directly or through the timelock, is never above the listed weight. */
  lemma ThresholdIsReachable(g: Governance, now: u64, call: GovCall)
    requires GovStep(g, now, call).Ok?
    requires call.CallUpdateThreshold?
          || (call.CallExecuteChange? && call.id in g.changes && g.changes[call.id].kind.SetThreshold?)
    ensures Reachable(GovStep(g, now, call).value) && GovStep(g, now, call).value.threshold.GetOr(0) > 0
  {
    var g' := GovStep(g, now, call).value;
    SumExt(g.signerList, WeightIn(g), WeightIn(g'));
  }

  // ----- changes made without that check -----

  /** The listed weight once `a` weighs `w`, listed or not as its weight says, and nobody else changed. */
  function ReweighedTotal(g: Governance, a: Address, w: u32): int {
    ListedWeight(g) - ListedShare(g, a) + w
  }

  /** What a signer contributes to the listed total. */
  function ListedShare(g: Governance, a: Address): int { if a in g.signerList then SignerWeight(g, a) else 0 }

  lemma ShareMoves(g: Governance, g': Governance, a: Address)
    requires NoDup(g.signerList) && g'.signerList == g.signerList
    requires forall b :: b != a ==> SignerWeight(g', b) == SignerWeight(g, b)
    ensures ListedWeight(g') == ListedWeight(g) - ListedShare(g, a) + ListedShare(g', a)
  {
    SumWithout(g.signerList, a, WeightIn(g), WeightIn(g'));
    SumWithout(g.signerList, a, WeightIn(g'), WeightIn(g'));
  }

  lemma ListedTotal(g: Governance, a: Address, w: u32)
    requires NoDup(g.signerList)
    ensures ListedWeight(ListSigner(g, a, w)) == ReweighedTotal(g, a, w)
  {
    var g' := ListSigner(g, a, w);
    if a in g.signerList {
      ShareMoves(g, g', a);
    } else {
      SumSnoc(g.signerList, a, WeightIn(g'));
      SumExt(g.signerList, WeightIn(g), WeightIn(g'));
    }
  }

  lemma UnlistedTotal(g: Governance, g': Governance, a: Address)
    requires NoDup(g.signerList) && g'.signerList == Without(g.signerList, a)
    requires forall b :: b != a ==> SignerWeight(g', b) == SignerWeight(g, b)
    ensures ListedWeight(g') == ReweighedTotal(g, a, 0)
  {
    SumWithout(g.signerList, a, WeightIn(g), WeightIn(g'));
  }

  /** Setting a weight directly leaves the threshold reachable exactly when the new listed total reaches it. */
  lemma SetSignerReachableIff(g: Governance, caller: Address, a: Address, w: u32)
    requires NoDup(g.signerList) && SetSigner(g, caller, a, w).Ok?
    ensures Reachable(SetSigner(g, caller, a, w).value) <==> ReweighedTotal(g, a, w) >= g.threshold.GetOr(0)
  {
    ListedTotal(g, a, w);
  }

  /** The weight a queued change gives its signer: zero when it removes it. */
  function QueuedWeight(kind: ChangeKind): u32
    requires kind.SetWeight? || kind.DropSigner?
  {
    if kind.SetWeight? then kind.weight else 0
  }

  /**
   A timelocked weight change or removal, which makes no quorum check, leaves the threshold reachable exactly when the
   new listed total reaches it.
   */
  lemma QueuedChangeReachableIff(g: Governance, now: u64, caller: Address, id: nat)
    requires NoDup(g.signerList) && ExecuteChange(g, now, caller, id).Ok?
    requires g.changes[id].kind.SetWeight? || g.changes[id].kind.DropSigner?
    ensures var kind := g.changes[id].kind;
            Reachable(ExecuteChange(g, now, caller, id).value) <==>
              ReweighedTotal(g, kind.signer, QueuedWeight(kind)) >= g.threshold.GetOr(0)
  {
    var kind, g' := g.changes[id].kind, ExecuteChange(g, now, caller, id).value;
    if QueuedWeight(kind) > 0 {
      ListedTotal(g, kind.signer, kind.weight);
      SumExt(g'.signerList, WeightIn(g'), WeightIn(ListSigner(g, kind.signer, kind.weight)));
    } else {
      UnlistedTotal(g, g', kind.signer);
    }
  }

  /** The listed weight after a swap: the old signer's share goes, a listed new one has the captured weight. */
  function SwappedTotal(g: Governance, r: Rotation): int {
    ListedWeight(g) - ListedShare(g, r.oldSigner) +
    (if r.newSigner in g.signerList && r.newSigner != r.oldSigner
     then r.capturedOldWeight as int - SignerWeight(g, r.newSigner) as int else 0)
  }

  lemma SwappedWeight(g: Governance, r: Rotation)
    requires NoDup(g.signerList)
    ensures ListedWeight(Swap(g, r)) == SwappedTotal(g, r)
  {
    var mid, g' := g.(weights := g.weights[r.newSigner := r.capturedOldWeight]), Swap(g, r);
    ShareMoves(g, mid, r.newSigner);
    ShareMoves(mid, g', r.oldSigner);
  }

  /** An executed rotation leaves the threshold reachable exactly when the swapped total reaches it. */
  lemma SwapReachableIff(g: Governance, r: Rotation)
    requires NoDup(g.signerList)
    ensures Reachable(Swap(g, r)) <==> SwappedTotal(g, r) >= g.threshold.GetOr(0)
  {
    SwappedWeight(g, r);
  }

  /** A swap keeps the registry complete exactly when the new signer has nothing to gain or is listed already. */
  lemma SwapKeepsRegistryIff(g: Governance, r: Rotation)
    requires Registered(g)
    ensures Registered(Swap(g, r)) <==>
              r.capturedOldWeight == 0 || r.newSigner in g.signerList || r.newSigner == r.oldSigner
  {
    var g' := Swap(g, r);
    if r.capturedOldWeight != 0 && r.newSigner !in g.signerList && r.newSigner != r.oldSigner {
      assert SignerWeight(g', r.newSigner) > 0;
    } else {
      forall a | SignerWeight(g', a) > 0 ensures a in g'.signerList {
        if a != r.newSigner { assert SignerWeight(g, a) > 0; }
      }
    }
  }

  ghost predicate Everyone(g: Governance, signers: seq<Address>) {
    forall a :: SignerWeight(g, a) > 0 ==> a in signers
  }

  /** An emergency withdrawal needs every signer with weight exactly when the signer list is complete. */
  lemma EmergencyNeedsEveryoneIff(g: Governance)
    ensures (forall signers, held :: EmergencyPayout(g, signers, held).Ok? ==> Everyone(g, signers)) <==>
              Registered(g) || !g.paused
  {
    if g.paused && !Registered(g) {
      assert EmergencyPayout(g, g.signerList, 0).Ok?;
      assert !Everyone(g, g.signerList);
    }
    if Registered(g) {
      forall signers, held | EmergencyPayout(g, signers, held).Ok? ensures Everyone(g, signers) {
        forall a | SignerWeight(g, a) > 0 ensures a in signers {
          assert a in g.signerList;
        }
      }
    }
  }

  // ----- paging through the pending changes -----

  function IsPendingChange(g: Governance): nat -> bool {
    (id: nat) => id in g.changes && g.changes[id].status.ChangePending?
  }

  /** The pending change ids above `after`, in ascending order. */
  function PendingAbove(g: Governance, after: nat): seq<nat> {
    if after >= g.changeCount then [] else Filter(Ids(g.changeCount)[after..], IsPendingChange(g))
  }

  function PageSize(limit: nat): nat { Min(limit, MAX_CHANGE_PAGE) }

  /** One page: the first ids above `startAfter`, at most `limit` and at most the cap. */
  function PageIds(g: Governance, startAfter: u64, limit: u32): seq<nat> {
    var all := PendingAbove(g, Min(startAfter, U64_MAX - 1));
    all[..Min(PageSize(limit), |all|)]
  }

  lemma PendingAboveSplits(g: Governance, after: nat, m: nat)
    requires 0 < m <= |PendingAbove(g, after)|
    ensures var all := PendingAbove(g, after);
            after < all[m - 1] <= g.changeCount && PendingAbove(g, all[m - 1]) == all[m..]
  {
    var above := Ids(g.changeCount)[after..];
    var k := FilterSplit(above, IsPendingChange(g), m);
    assert above[k] == after + k + 1 && above[k + 1..] == Ids(g.changeCount)[after + k + 1..];
  }

  /** The pending ids in (from, upTo]: what a scan has collected on reaching `upTo`. */
  function Scanned(g: Governance, from: nat, upTo: nat): seq<nat>
    requires from <= upTo <= g.changeCount
  {
    Filter(Ids(g.changeCount)[from..upTo], IsPendingChange(g))
  }

  lemma ScannedStep(g: Governance, from: nat, id: nat)
    requires from < id <= g.changeCount
    ensures Scanned(g, from, id) == Scanned(g, from, id - 1) + (if IsPendingChange(g)(id) then [id] else [])
  {
    var part := Ids(g.changeCount)[from..id];
    assert part[..|part| - 1] == Ids(g.changeCount)[from..id - 1] && part[|part| - 1] == id;
  }

  /** A scan that stopped, because it ran out of ids or filled its page, collected the page. */
  lemma ScannedIsPage(g: Governance, startAfter: u64, limit: u32, upTo: nat)
    requires var from := Min(startAfter, U64_MAX - 1);
             && from <= upTo <= g.changeCount && from < g.changeCount
             && |Scanned(g, from, upTo)| <= PageSize(limit)
             && (upTo == g.changeCount || |Scanned(g, from, upTo)| == PageSize(limit))
    ensures Scanned(g, Min(startAfter, U64_MAX - 1), upTo) == PageIds(g, startAfter, limit)
  {
    var ids, from := Ids(g.changeCount), Min(startAfter, U64_MAX - 1);
    assert ids[from..] == ids[from..upTo] + ids[upTo..];
    FilterConcat(ids[from..upTo], ids[upTo..], IsPendingChange(g));
  }

  /** All pages, each starting after the last id of the one before. */
  ghost function Chain(g: Governance, startAfter: u64, limit: u32): seq<nat>
    requires g.changeCount < U64_MAX && limit > 0
    decreases g.changeCount - startAfter
  {
    var page := PageIds(g, startAfter, limit);
    if page == [] then []
    else
      PendingAboveSplits(g, startAfter, |page|);
      page + Chain(g, page[|page| - 1], limit)
  }

  /** Chaining pages from the start lists every pending change exactly once, in id order. */
  lemma {:induction false} ChainListsAll(g: Governance, startAfter: u64, limit: u32)
    requires g.changeCount < U64_MAX && limit > 0
    ensures Chain(g, startAfter, limit) == PendingAbove(g, startAfter)
    decreases g.changeCount - startAfter
  {
    var page := PageIds(g, startAfter, limit);
    var all := PendingAbove(g, startAfter);
    if page != [] {
      PendingAboveSplits(g, startAfter, |page|);
      ChainListsAll(g, page[|page| - 1], limit);
      assert page == all[..|page|] && all == all[..|page|] + all[|page|..];
    }
  }

  lemma ChainFromStart(g: Governance, limit: u32)
    requires g.changeCount < U64_MAX && limit > 0
    ensures Chain(g, 0, limit) == Filter(Ids(g.changeCount), IsPendingChange(g))
    ensures Ascending(Chain(g, 0, limit))
  {
    ChainListsAll(g, 0, limit);
    assert Ids(g.changeCount)[0..] == Ids(g.changeCount);
    FilterAscending(Ids(g.changeCount), IsPendingChange(g));
  }
}
