/**
 The registry and the rules of the treasury, told by the calls of the run: what each change and each rotation was asked
 to do, and whose word last set a signer's weight, the list, the threshold, the delay and the pause.
 */
module GovernanceOutcomes {
  import opened Common
  import opened TreasuryTypes
  import opened GovernanceSpec
  import opened TreasuryRuns
  import VoteBacking

  ghost predicate Succeeds(s: State, e: Event) { e.call.ToGovernance? && GovStep(s.gov, e.now, e.call.gov).Ok? }

  // ----- queued changes -----

  /** What a successful `propose` asked for, when, and the delay in force. */
  datatype Request = Request(kind: ChangeKind, at: u64, delay: u64)

  /** The successful requests; the one at `id - 1` is change `id`. */
  ghost function Requests(es: seq<Event>): seq<Request> {
    if es == [] then []
    else
      var front, e := es[..|es| - 1], es[|es| - 1];
      if Succeeds(Run(front), e) && e.call.gov.CallProposeChange? then
        Requests(front) + [Request(e.call.gov.kind, e.now, Run(front).gov.delaySecs.GetOr(86_400))]
      else Requests(front)
  }

  ghost function ChangeStatusAfter(status: ChangeStatus, call: GovCall, id: nat): ChangeStatus {
    if call.CallExecuteChange? && call.id == id then ChangeExecuted
    else if call.CallCancelChange? && call.id == id then ChangeCancelled
    else status
  }

  ghost function ChangeStatusBy(es: seq<Event>, id: nat): ChangeStatus {
    if es == [] then ChangePending
    else
      var front, e := es[..|es| - 1], es[|es| - 1];
      if Succeeds(Run(front), e) then ChangeStatusAfter(ChangeStatusBy(front, id), e.call.gov, id)
      else ChangeStatusBy(front, id)
  }

  ghost predicate ChangeTold(g: Governance, rs: seq<Request>, status: ChangeStatus, id: nat) {
    && (id in g.changes <==> 1 <= id <= |rs|)
    && (id !in g.changes ==> status == ChangePending)
    && (id in g.changes ==>
          var c, q := g.changes[id], rs[id - 1];
          && c.id == id && c.kind == q.kind && c.proposedAt == q.at && c.executableAt == q.at + q.delay
          && c.status == status)
  }

  lemma {:induction false} EnrolLeavesChanges(g: Governance, signers: seq<(Address, u32)>)
    ensures var g' := Enrol(g, signers);
            g'.changes == g.changes && g'.changeCount == g.changeCount && g'.lastRotation == g.lastRotation
  {
    if signers != [] { EnrolLeavesChanges(g, signers[..|signers| - 1]); }
  }

  /** The state in which `initialize` starts to register signers. */
  ghost function Founded(g: Governance, call: GovCall): Governance
    requires call.CallInitialize?
  {
    g.(admin := Some(call.admin), threshold := Some(call.threshold), paused := false,
       weights := g.weights[call.admin := 1], signerList := [call.admin])
  }

  ghost predicate OnChanges(call: GovCall) {
    call.CallProposeChange? || call.CallExecuteChange? || call.CallCancelChange?
  }

  lemma OthersLeaveChanges(g: Governance, now: u64, call: GovCall)
    requires GovStep(g, now, call).Ok? && !OnChanges(call)
    ensures var g' := GovStep(g, now, call).value; g'.changes == g.changes && g'.changeCount == g.changeCount
  {
    if call.CallInitialize? { EnrolLeavesChanges(Founded(g, call), call.signers); }
  }

  lemma RequestStores(g: Governance, now: u64, call: GovCall, id: nat)
    requires GovStep(g, now, call).Ok? && call.CallProposeChange?
    ensures var g' := GovStep(g, now, call).value;
            && g'.changeCount == g.changeCount + 1
            && (id in g'.changes <==> id in g.changes || id == g'.changeCount)
            && (id in g.changes && id != g'.changeCount ==> g'.changes[id] == g.changes[id])
            && var delay := g.delaySecs.GetOr(86_400);
            g'.changes[g'.changeCount] == SignerChange(g'.changeCount, call.kind, now, now + delay, ChangePending)
  {
  }

  lemma FinishSets(g: Governance, now: u64, call: GovCall, id: nat)
    requires GovStep(g, now, call).Ok? && (call.CallExecuteChange? || call.CallCancelChange?)
    ensures var g' := GovStep(g, now, call).value;
            && g'.changeCount == g.changeCount && call.id in g.changes && (id in g'.changes <==> id in g.changes)
            && (id in g.changes ==>
                  g'.changes[id] == g.changes[id].(status := ChangeStatusAfter(g.changes[id].status, call, id)))
  {
    match call
    case CallExecuteChange(_, n) => AppliedLeavesChanges(g, g.changes[n].kind);
    case CallCancelChange(_, _) =>
  }

  lemma AppliedLeavesChanges(g: Governance, kind: ChangeKind)
    requires ApplyChange(g, kind).Ok?
    ensures var g' := ApplyChange(g, kind).value;
            g'.changes == g.changes && g'.changeCount == g.changeCount && g'.lastRotation == g.lastRotation
  {
  }

  lemma ChangeStepIsTold(g: Governance, now: u64, call: GovCall, rs: seq<Request>, status: ChangeStatus, id: nat)
    requires GovStep(g, now, call).Ok? && g.changeCount == |rs| && ChangeTold(g, rs, status, id)
    ensures var g' := GovStep(g, now, call).value;
            var rs' := if call.CallProposeChange? then rs + [Request(call.kind, now, g.delaySecs.GetOr(86_400))]
              else rs;
            g'.changeCount == |rs'| && ChangeTold(g', rs', ChangeStatusAfter(status, call, id), id)
  {
    if call.CallProposeChange? {
      RequestStores(g, now, call, id);
    } else if OnChanges(call) {
      FinishSets(g, now, call, id);
    } else {
      OthersLeaveChanges(g, now, call);
    }
  }

  /**
   In every run change `id` is what the `id`-th request asked for, due one delay in force after it; and it is executed
   or cancelled exactly when a call did so.
   */
  lemma {:induction false} ChangeIsByTheCalls(es: seq<Event>, id: nat)
    ensures Run(es).gov.changeCount == |Requests(es)|
    ensures ChangeTold(Run(es).gov, Requests(es), ChangeStatusBy(es, id), id)
  {
    if es != [] {
      var front, e := es[..|es| - 1], es[|es| - 1];
      ChangeIsByTheCalls(front, id);
      if Succeeds(Run(front), e) {
        ChangeStepIsTold(Run(front).gov, e.now, e.call.gov, Requests(front), ChangeStatusBy(front, id), id);
      }
    }
  }

  // ----- rotations -----

  /** What a successful rotation proposal asked for, with the weight of the old signer at that time. */
  datatype Handover = Handover(oldSigner: Address, newSigner: Address, weight: u32)

  datatype Backing = Backing(backers: seq<Address>, weight: int, status: RotationStatus)

  const UNBACKED: Backing := Backing([], 0, RotationPending)

  /** The successful proposals; the one at `id - 1` is rotation `id`. */
  ghost function Handovers(es: seq<Event>): seq<Handover> {
    if es == [] then []
    else
      var front, e := es[..|es| - 1], es[|es| - 1];
      if Succeeds(Run(front), e) then HandoversAfter(Handovers(front), Run(front).gov, e.call.gov) else Handovers(front)
  }

  ghost function HandoversAfter(hs: seq<Handover>, g: Governance, call: GovCall): seq<Handover> {
    if call.CallProposeRotation? then hs + [Handover(call.oldSigner, call.newSigner, SignerWeight(g, call.oldSigner))]
    else hs
  }

  /** The backing of a rotation once `a` has approved it. */
  ghost function BackedBy(b: Backing, g: Governance, a: Address): Backing {
    if a in b.backers then b else Backing(b.backers + [a], b.weight + SignerWeight(g, a), b.status)
  }

  /** `count` rotations had been proposed before the call. */
  ghost function BackingAfter(b: Backing, g: Governance, call: GovCall, count: nat, id: nat): Backing {
    if call.CallProposeRotation? && id == count + 1 then BackedBy(UNBACKED, g, call.caller)
    else if call.CallApproveRotation? && call.id == id then
      var b' := BackedBy(b, g, call.caller);
      if b'.weight >= g.threshold.GetOr(1) then b'.(status := RotationExecuted) else b'
    else if call.CallCancelRotation? && call.id == id then b.(status := RotationCancelled)
    else b
  }

  ghost function BackingBy(es: seq<Event>, id: nat): Backing {
    if es == [] then UNBACKED
    else
      var front, e := es[..|es| - 1], es[|es| - 1];
      if Succeeds(Run(front), e)
      then BackingAfter(BackingBy(front, id), Run(front).gov, e.call.gov, |Handovers(front)|, id)
      else BackingBy(front, id)
  }

  ghost predicate RotationTold(g: Governance, hs: seq<Handover>, b: Backing, id: nat) {
    && (id in g.rotations <==> 1 <= id <= |hs|)
    && (id !in g.rotations ==> b == UNBACKED)
    && (id in g.rotations ==>
          var r, h := g.rotations[id], hs[id - 1];
          && r.oldSigner == h.oldSigner && r.newSigner == h.newSigner && r.capturedOldWeight == h.weight
          && r.approvals == b.backers && r.approvalWeight == b.weight && r.status == b.status)
  }

  ghost predicate OnRotations(call: GovCall) {
    call.CallProposeRotation? || call.CallApproveRotation? || call.CallCancelRotation?
  }

  lemma ProposalIsTold(g: Governance, now: u64, call: GovCall, hs: seq<Handover>, b: Backing, id: nat)
    requires GovStep(g, now, call).Ok? && call.CallProposeRotation?
    requires g.rotationCount == |hs| && RotationTold(g, hs, b, id)
    ensures var g' := GovStep(g, now, call).value;
            && g'.rotationCount == |HandoversAfter(hs, g, call)|
            && RotationTold(g', HandoversAfter(hs, g, call), BackingAfter(b, g, call, |hs|, id), id)
  {
  }

  lemma ApprovalIsTold(g: Governance, now: u64, call: GovCall, hs: seq<Handover>, b: Backing, id: nat)
    requires GovStep(g, now, call).Ok? && (call.CallApproveRotation? || call.CallCancelRotation?)
    requires RotationTold(g, hs, b, id)
    ensures var g' := GovStep(g, now, call).value;
            g'.rotationCount == g.rotationCount && RotationTold(g', hs, BackingAfter(b, g, call, |hs|, id), id)
  {
    match call
    case CallApproveRotation(_, _) =>
    case CallCancelRotation(_, _) =>
  }

  lemma RotationCallIsTold(g: Governance, now: u64, call: GovCall, hs: seq<Handover>, b: Backing, id: nat)
    requires GovStep(g, now, call).Ok? && OnRotations(call)
    requires g.rotationCount == |hs| && RotationTold(g, hs, b, id)
    ensures var g' := GovStep(g, now, call).value;
            && g'.rotationCount == |HandoversAfter(hs, g, call)|
            && RotationTold(g', HandoversAfter(hs, g, call), BackingAfter(b, g, call, |hs|, id), id)
  {
    if call.CallProposeRotation? {
      ProposalIsTold(g, now, call, hs, b, id);
    } else {
      ApprovalIsTold(g, now, call, hs, b, id);
    }
  }

  /**
   In every run rotation `id` is what the `id`-th proposal asked for, with the weight its old signer had then; its
   backers, their weight and its end are what the calls on it made of it.
   */
  lemma {:induction false} RotationIsByTheCalls(es: seq<Event>, id: nat)
    ensures Run(es).gov.rotationCount == |Handovers(es)|
    ensures RotationTold(Run(es).gov, Handovers(es), BackingBy(es, id), id)
  {
    if es != [] {
      var front, e := es[..|es| - 1], es[|es| - 1];
      var g := Run(front).gov;
      RotationIsByTheCalls(front, id);
      if Succeeds(Run(front), e) {
        if OnRotations(e.call.gov) {
          RotationCallIsTold(g, e.now, e.call.gov, Handovers(front), BackingBy(front, id), id);
        } else {
          VoteBacking.OtherCallsLeaveRotations(g, e.now, e.call.gov);
        }
      }
    }
  }

  // ----- signers and rules -----

  /** What a call does beyond its own arguments: it carries out a queued change or completes a rotation. */
  datatype Effect = Direct | Applies(kind: ChangeKind) | HandsOver(handover: Handover)

  datatype Standing = Standing(weight: int, listed: bool)

  datatype Rules = Rules(admin: Option<Address>, threshold: Option<u32>, paused: bool, delay: Option<u64>)

  ghost function StandingIn(g: Governance, a: Address): Standing { Standing(SignerWeight(g, a), a in g.signerList) }

  ghost function RulesIn(g: Governance): Rules { Rules(g.admin, g.threshold, g.paused, g.delaySecs) }

  /** The weight `initialize` gives last to `a`, if any. */
  ghost function LastGiven(signers: seq<(Address, u32)>, a: Address): Option<u32> {
    if signers == [] then None
    else if signers[|signers| - 1].0 == a then Some(signers[|signers| - 1].1)
    else LastGiven(signers[..|signers| - 1], a)
  }

  ghost predicate GivenWeight(signers: seq<(Address, u32)>, a: Address) {
    exists i :: 0 <= i < |signers| && signers[i].0 == a && signers[i].1 > 0
  }

  ghost function StandingAfter(x: Standing, call: GovCall, effect: Effect, a: Address): Standing {
    match call
    case CallInitialize(admin, _, signers) =>
      var before := if a == admin then Standing(1, true) else Standing(x.weight, false);
      Standing(match LastGiven(signers, a) case Some(w) => w case None => before.weight,
               before.listed || GivenWeight(signers, a))
    case CallSetSigner(_, n, w) => if n == a then Standing(w, true) else x
    case CallRemoveSigner(_, n) => if n == a then Standing(0, false) else x
    case _ =>
      if effect.Applies? && effect.kind.SetWeight? && effect.kind.signer == a then
        Standing(effect.kind.weight, effect.kind.weight > 0)
      else if effect.Applies? && effect.kind.DropSigner? && effect.kind.signer == a then Standing(0, false)
      else if effect.HandsOver? && effect.handover.oldSigner == a then x.(weight := 0)
      else if effect.HandsOver? && effect.handover.newSigner == a then x.(weight := effect.handover.weight)
      else x
  }

  ghost function RulesAfter(r: Rules, call: GovCall, effect: Effect): Rules {
    match call
    case CallInitialize(admin, threshold, _) =>
      r.(admin := Some(admin), threshold := Some(threshold), paused := false)
    case CallSetPaused(_, paused) => r.(paused := paused)
    case CallUpdateThreshold(_, threshold) => r.(threshold := Some(threshold))
    case _ =>
      if effect.Applies? && effect.kind.SetThreshold? then r.(threshold := Some(effect.kind.threshold))
      else if effect.Applies? && effect.kind.SetDelay? then r.(delay := Some(effect.kind.seconds))
      else r
  }

  /** The effect of a call, read from the records. */
  ghost function EffectIn(g: Governance, call: GovCall): Effect {
    if call.CallExecuteChange? && call.id in g.changes then Applies(g.changes[call.id].kind)
    else if call.CallApproveRotation? && call.id in g.rotations then
      var r := g.rotations[call.id];
      if BackedBy(Backing(r.approvals, r.approvalWeight, r.status), g, call.caller).weight >= g.threshold.GetOr(1)
      then HandsOver(Handover(r.oldSigner, r.newSigner, r.capturedOldWeight)) else Direct
    else Direct
  }

  lemma {:induction false} EnrolSets(g: Governance, signers: seq<(Address, u32)>, a: Address)
    ensures var g' := Enrol(g, signers);
            && RulesIn(g') == RulesIn(g)
            && StandingIn(g', a) == Standing(match LastGiven(signers, a)
                                             case Some(w) => w
                                             case None => SignerWeight(g, a),
                                             a in g.signerList || GivenWeight(signers, a))
  {
    if signers != [] {
      var front, last := signers[..|signers| - 1], signers[|signers| - 1];
      EnrolSets(g, front, a);
      assert signers == front + [last];
      assert GivenWeight(signers, a) <==> GivenWeight(front, a) || (last.0 == a && last.1 > 0) by {
        GivenSnoc(front, last, a);
      }
    }
  }

  lemma GivenSnoc(front: seq<(Address, u32)>, last: (Address, u32), a: Address)
    ensures GivenWeight(front + [last], a) <==> GivenWeight(front, a) || (last.0 == a && last.1 > 0)
  {
    var all := front + [last];
    if i :| 0 <= i < |front| && front[i].0 == a && front[i].1 > 0 { assert all[i] == front[i]; }
    if last.0 == a && last.1 > 0 { assert all[|front|] == last; }
  }

  ghost predicate Sets(g: Governance, g': Governance, call: GovCall, a: Address) {
    && StandingIn(g', a) == StandingAfter(StandingIn(g, a), call, EffectIn(g, call), a)
    && RulesIn(g') == RulesAfter(RulesIn(g), call, EffectIn(g, call))
  }

  lemma DirectCallSets(g: Governance, now: u64, call: GovCall, a: Address)
    requires GovStep(g, now, call).Ok? && !OnRotations(call) && !OnChanges(call)
    ensures Sets(g, GovStep(g, now, call).value, call, a)
  {
    match call
    case CallInitialize(_, _, signers) => EnrolSets(Founded(g, call), signers, a);
    case CallRemoveSigner(_, n) => WithoutMembers(g.signerList, n);
    case CallSetPaused(_, _) =>
    case CallUpdateThreshold(_, _) =>
    case CallSetSigner(_, _, _) =>
  }

  lemma SwapSets(g: Governance, r: Rotation, a: Address)
    ensures var g' := Swap(g, r);
            && RulesIn(g') == RulesIn(g) && g'.signerList == g.signerList
            && SignerWeight(g', a) == if a == r.oldSigner then 0
                                      else if a == r.newSigner then r.capturedOldWeight else SignerWeight(g, a)
  {
  }

  lemma ApprovalSets(g: Governance, now: u64, caller: Address, id: nat, a: Address)
    requires GovStep(g, now, CallApproveRotation(caller, id)).Ok?
    ensures Sets(g, GovStep(g, now, CallApproveRotation(caller, id)).value, CallApproveRotation(caller, id), a)
  {
    SwapSets(g, g.rotations[id], a);
  }

  lemma RotationCallSets(g: Governance, now: u64, call: GovCall, a: Address)
    requires GovStep(g, now, call).Ok? && OnRotations(call)
    ensures Sets(g, GovStep(g, now, call).value, call, a)
  {
    match call
    case CallApproveRotation(caller, id) => ApprovalSets(g, now, caller, id, a);
    case CallProposeRotation(_, _, _) =>
    case CallCancelRotation(_, _) =>
  }

  lemma AppliedSets(g: Governance, kind: ChangeKind, a: Address, call: GovCall)
    requires ApplyChange(g, kind).Ok? && call.CallExecuteChange?
    ensures var g' := ApplyChange(g, kind).value;
            && StandingIn(g', a) == StandingAfter(StandingIn(g, a), call, Applies(kind), a)
            && RulesIn(g') == RulesAfter(RulesIn(g), call, Applies(kind))
  {
    match kind
    case SetWeight(n, _) => WithoutMembers(g.signerList, n);
    case DropSigner(n) => WithoutMembers(g.signerList, n);
    case SetThreshold(_) =>
    case SetDelay(_) =>
  }

  lemma ChangeCallSets(g: Governance, now: u64, call: GovCall, a: Address)
    requires GovStep(g, now, call).Ok? && OnChanges(call)
    ensures Sets(g, GovStep(g, now, call).value, call, a)
  {
    match call
    case CallProposeChange(_, _) =>
    case CallCancelChange(_, _) =>
    case CallExecuteChange(_, id) => AppliedSets(g, g.changes[id].kind, a, call);
  }

  /** A successful governance call sets every signer's standing and every rule as the tables say. */
  lemma GovStepSets(g: Governance, now: u64, call: GovCall, a: Address)
    requires GovStep(g, now, call).Ok?
    ensures Sets(g, GovStep(g, now, call).value, call, a)
  {
    if OnRotations(call) {
      RotationCallSets(g, now, call, a);
    } else if OnChanges(call) {
      ChangeCallSets(g, now, call, a);
    } else {
      DirectCallSets(g, now, call, a);
    }
  }

  /** The effect of a call, read from what the calls before it asked for. */
  ghost function EffectOf(g: Governance, call: GovCall, rs: seq<Request>, hs: seq<Handover>, b: Backing): Effect {
    if call.CallExecuteChange? && 1 <= call.id <= |rs| then Applies(rs[call.id - 1].kind)
    else if call.CallApproveRotation? && 1 <= call.id <= |hs| then
      if BackedBy(b, g, call.caller).weight >= g.threshold.GetOr(1) then HandsOver(hs[call.id - 1]) else Direct
    else Direct
  }

  lemma ChangeEffect(g: Governance, call: GovCall, rs: seq<Request>, status: ChangeStatus)
    requires call.CallExecuteChange? && ChangeTold(g, rs, status, call.id)
    ensures forall hs, b :: EffectOf(g, call, rs, hs, b) == EffectIn(g, call)
  {
  }

  lemma RotationEffect(g: Governance, call: GovCall, hs: seq<Handover>, b: Backing)
    requires call.CallApproveRotation? && RotationTold(g, hs, b, call.id)
    ensures forall rs :: EffectOf(g, call, rs, hs, b) == EffectIn(g, call)
  {
  }

  ghost function EffectBy(es: seq<Event>, call: GovCall): Effect {
    EffectOf(Run(es).gov, call, Requests(es), Handovers(es),
             if call.CallApproveRotation? then BackingBy(es, call.id) else UNBACKED)
  }

  lemma EffectIsByTheCalls(es: seq<Event>, call: GovCall)
    ensures EffectBy(es, call) == EffectIn(Run(es).gov, call)
  {
    if call.CallExecuteChange? {
      ChangeIsByTheCalls(es, call.id);
      ChangeEffect(Run(es).gov, call, Requests(es), ChangeStatusBy(es, call.id));
    } else if call.CallApproveRotation? {
      RotationIsByTheCalls(es, call.id);
      RotationEffect(Run(es).gov, call, Handovers(es), BackingBy(es, call.id));
    }
  }

  ghost function StandingBy(es: seq<Event>, a: Address): Standing {
    if es == [] then Standing(0, false)
    else
      var front, e := es[..|es| - 1], es[|es| - 1];
      if Succeeds(Run(front), e) then StandingAfter(StandingBy(front, a), e.call.gov, EffectBy(front, e.call.gov), a)
      else StandingBy(front, a)
  }

  ghost function RulesBy(es: seq<Event>): Rules {
    if es == [] then Rules(None, None, false, None)
    else
      var front, e := es[..|es| - 1], es[|es| - 1];
      if Succeeds(Run(front), e) then RulesAfter(RulesBy(front), e.call.gov, EffectBy(front, e.call.gov))
      else RulesBy(front)
  }

  /**
   In every run a signer's weight and listing, the admin, the threshold, the pause and the delay are what the last
   successful call about them made them: an executed change does what its request asked, and a completed rotation hands
   over the weight the old signer had when it was proposed.
   */
  lemma {:induction false} RegistryIsByTheCalls(es: seq<Event>, a: Address)
    ensures StandingIn(Run(es).gov, a) == StandingBy(es, a)
    ensures RulesIn(Run(es).gov) == RulesBy(es)
  {
    if es != [] {
      var front, e := es[..|es| - 1], es[|es| - 1];
      RegistryIsByTheCalls(front, a);
      if Succeeds(Run(front), e) {
        EffectIsByTheCalls(front, e.call.gov);
        GovStepSets(Run(front).gov, e.now, e.call.gov, a);
      }
    }
  }

  // ----- the cooldown -----

  /** When `a` last proposed a rotation. */
  ghost function LastProposal(es: seq<Event>, a: Address): Option<u64> {
    if es == [] then None
    else
      var front, e := es[..|es| - 1], es[|es| - 1];
      if Succeeds(Run(front), e) && e.call.gov.CallProposeRotation? && e.call.gov.caller == a then Some(e.now)
      else LastProposal(front, a)
  }

  ghost predicate CooldownTold(g: Governance, a: Address, last: Option<u64>) {
    match last
    case Some(at) => a in g.lastRotation && g.lastRotation[a] == at
    case None => a !in g.lastRotation
  }

  lemma OnlyProposalsCool(g: Governance, now: u64, call: GovCall)
    requires GovStep(g, now, call).Ok?
    ensures GovStep(g, now, call).value.lastRotation ==
              if call.CallProposeRotation? then g.lastRotation[call.caller := now] else g.lastRotation
  {
    match call
    case CallInitialize(_, _, signers) => EnrolLeavesChanges(Founded(g, call), signers);
    case CallExecuteChange(_, id) => AppliedLeavesChanges(g, g.changes[id].kind);
    case _ =>
  }

  lemma {:induction false} CooldownIsByTheCalls(es: seq<Event>, a: Address)
    ensures CooldownTold(Run(es).gov, a, LastProposal(es, a))
  {
    if es != [] {
      var front, e := es[..|es| - 1], es[|es| - 1];
      CooldownIsByTheCalls(front, a);
      if Succeeds(Run(front), e) { OnlyProposalsCool(Run(front).gov, e.now, e.call.gov); }
    }
  }

  /** Between two successful rotation proposals of one signer an hour passes, unless time has run out. */
  lemma ProposalsAreAnHourApart(es: seq<Event>, e: Event)
    requires Succeeds(Run(es), e) && e.call.gov.CallProposeRotation? && LastProposal(es, e.call.gov.caller).Some?
    ensures e.now >= LastProposal(es, e.call.gov.caller).value + 3_600 || e.now == U64_MAX
  {
    CooldownIsByTheCalls(es, e.call.gov.caller);
  }
}
