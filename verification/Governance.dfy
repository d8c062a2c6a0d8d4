/**
 Signer registry, threshold, rotations and timelocked changes
 (contracts/treasury/src/signers.rs, admin.rs, timelock.rs and `initialize` in lib.rs).
 Every function is one call: `Err` means the call rolled back.
 */
module GovernanceSpec {
  import opened Common
  import opened TreasuryTypes
  import opened Multisig

  type Outcome = Result<Governance, TreasuryError>

  /** The weight of all listed signers, with no width limit. */
  function ListedWeight(g: Governance): int {
    Sum(g.signerList, WeightIn(g))
  }

  function WeightIn(g: Governance): Address -> int {
    (a: Address) => SignerWeight(g, a)
  }

  /** Registers the given weights one by one; a positive weight also lists the signer once. */
  function Enrol(g: Governance, signers: seq<(Address, u32)>): Governance {
    if signers == [] then g
    else
      var g' := Enrol(g, signers[..|signers| - 1]);
      var (a, w) := signers[|signers| - 1];
      g'.(weights := g'.weights[a := w],
          signerList := if w > 0 && a !in g'.signerList then g'.signerList + [a] else g'.signerList)
  }

  function Initialize(g: Governance, admin: Address, threshold: u32, signers: seq<(Address, u32)>): Outcome {
    var _ :- Need(g.admin.None?, AlreadyInitialized);
    var _ :- Need(threshold != 0, ZeroThreshold);
    Ok(Enrol(g.(admin := Some(admin), threshold := Some(threshold), paused := false,
                weights := g.weights[admin := 1], signerList := [admin]), signers))
  }

  function SetPaused(g: Governance, caller: Address, paused: bool): Outcome {
    var _ :- RequireAdmin(g, caller);
    Ok(g.(paused := paused))
  }

  /** The listed weight as a checked `u32` sum. */
  function CheckedTotal(g: Governance): Result<u32, TreasuryError> {
    if 0 <= ListedWeight(g) <= U32_MAX then Ok(ListedWeight(g)) else Err(ArithmeticOverflow)
  }

  function PutThreshold(g: Governance, threshold: u32): Outcome {
    var _ :- Need(threshold != 0, ZeroThreshold);
    var total :- CheckedTotal(g);
    var _ :- Need(threshold <= total, ThresholdUnreachable);
    Ok(g.(threshold := Some(threshold)))
  }

  function UpdateThreshold(g: Governance, caller: Address, threshold: u32): Outcome {
    var _ :- RequireAdmin(g, caller);
    PutThreshold(g, threshold)
  }

  function ListSigner(g: Governance, a: Address, w: u32): Governance {
    g.(weights := g.weights[a := w],
       signerList := if a in g.signerList then g.signerList else g.signerList + [a])
  }

  function DelistSigner(g: Governance, a: Address): Governance {
    g.(weights := g.weights - {a}, signerList := Without(g.signerList, a))
  }

  function SetSigner(g: Governance, caller: Address, a: Address, w: u32): Outcome {
    var _ :- RequireAdmin(g, caller);
    var _ :- Need(w != 0, InvalidAmount);
    Ok(ListSigner(g, a, w))
  }

  function RemoveSigner(g: Governance, caller: Address, a: Address): Outcome {
    var _ :- RequireAdmin(g, caller);
    var total := Min(ListedWeight(g), U32_MAX);
    var _ :- Need(Max(0, total - SignerWeight(g, a)) >= g.threshold.GetOr(0), QuorumBreak);
    Ok(DelistSigner(g, a))
  }

  // ----- the emergency quorum -----

  /** Every listed signer with weight takes part. */
  predicate FullQuorum(g: Governance, signers: seq<Address>) {
    forall i :: 0 <= i < |g.signerList| && SignerWeight(g, g.signerList[i]) > 0 ==> g.signerList[i] in signers
  }

  /** What `emergency_withdraw` sends when the token contract reports `held`; it writes no storage. */
  function EmergencyPayout(g: Governance, signers: seq<Address>, held: i128): Result<i128, TreasuryError> {
    var _ :- Need(g.paused, NotPaused);
    var _ :- Need(FullQuorum(g, signers), UnauthorizedSigner);
    Ok(if held > 0 then held else 0)
  }

  // ----- rotations -----

  function ProposeRotation(g: Governance, now: u64, caller: Address, oldSigner: Address, newSigner: Address): Outcome {
    var _ :- RequireSigner(g, caller);
    var _ :- Need(caller in g.lastRotation ==> now >= Min(g.lastRotation[caller] + ROTATION_COOLDOWN, U64_MAX),
            RotationProposalCooldown);
    var id :- CheckedSucc(g.rotationCount);
    var t :- RecordApproval(g, Tally([], 0), caller);
    var r := Rotation(oldSigner, newSigner, t.approvals, t.weight, RotationPending, SignerWeight(g, oldSigner));
    Ok(g.(lastRotation := g.lastRotation[caller := now], rotations := g.rotations[id := r], rotationCount := id))
  }

  /** The swap: the new signer gets the captured weight, then the old one is zeroed. The list is not touched. */
  function Swap(g: Governance, r: Rotation): Governance {
    g.(weights := g.weights[r.newSigner := r.capturedOldWeight][r.oldSigner := 0])
  }

  function ApproveRotation(g: Governance, caller: Address, id: nat): Outcome {
    var _ :- RequireSigner(g, caller);
    var _ :- Need(id in g.rotations, RotationNotFound);
    var r := g.rotations[id];
    var _ :- Need(r.status.RotationPending?, RotationAlreadyExecuted);
    var t :- RecordApproval(g, Tally(r.approvals, r.approvalWeight), caller);
    var r' := r.(approvals := t.approvals, approvalWeight := t.weight);
    if MeetsThreshold(t.weight, g.threshold.GetOr(1)) then
      var done := r'.(status := RotationExecuted);
      Ok(Swap(g, r').(rotations := g.rotations[id := done], journal := g.journal + [Rotated(id)]))
    else
      Ok(g.(rotations := g.rotations[id := r']))
  }

  function CancelRotation(g: Governance, caller: Address, id: nat): Outcome {
    var _ :- RequireAdmin(g, caller);
    var _ :- Need(id in g.rotations, RotationNotFound);
    var _ :- Need(g.rotations[id].status.RotationPending?, RotationAlreadyExecuted);
    Ok(g.(rotations := g.rotations[id := g.rotations[id].(status := RotationCancelled)]))
  }

  // ----- timelock -----

  function CurrentDelay(g: Governance): u64 { g.delaySecs.GetOr(DEFAULT_TIMELOCK) }

  predicate ValidDelay(seconds: u64) { MIN_TIMELOCK <= seconds <= MAX_TIMELOCK }

  function ProposeChange(g: Governance, now: u64, caller: Address, kind: ChangeKind): Outcome {
    var _ :- RequireAdmin(g, caller);
    var id :- CheckedSucc(g.changeCount);
    var _ :- Need(kind.SetDelay? ==> ValidDelay(kind.seconds), InvalidTimelockDelay);
    var _ :- Need(now + CurrentDelay(g) <= U64_MAX, ArithmeticOverflow);
    var change := SignerChange(id, kind, now, now + CurrentDelay(g), ChangePending);
    Ok(g.(changes := g.changes[id := change], changeCount := id,
          journal := g.journal + [Queued(id, now, CurrentDelay(g))]))
  }

  function ApplyChange(g: Governance, kind: ChangeKind): Outcome {
    match kind
    case SetWeight(a, w) =>
      Ok(if w > 0 then ListSigner(g, a, w)
         else g.(weights := g.weights[a := w], signerList := Without(g.signerList, a)))
    case DropSigner(a) => Ok(DelistSigner(g, a))
    case SetThreshold(t) => PutThreshold(g, t)
    case SetDelay(seconds) =>
      var _ :- Need(ValidDelay(seconds), InvalidTimelockDelay);
      Ok(g.(delaySecs := Some(seconds)))
  }

  function ExecuteChange(g: Governance, now: u64, caller: Address, id: nat): Outcome {
    var _ :- RequireAdmin(g, caller);
    var _ :- Need(id in g.changes, SignerChangeNotFound);
    var change := g.changes[id];
    var _ :- Need(change.status.ChangePending?, SignerChangeAlreadyFinalised);
    var _ :- Need(now >= change.executableAt, SignerChangeTooEarly);
    var g' :- ApplyChange(g, change.kind);
    Ok(g'.(changes := g.changes[id := change.(status := ChangeExecuted)], journal := g.journal + [Applied(id, now)]))
  }

  function CancelChange(g: Governance, caller: Address, id: nat): Outcome {
    var _ :- RequireAdmin(g, caller);
    var _ :- Need(id in g.changes, SignerChangeNotFound);
    var _ :- Need(g.changes[id].status.ChangePending?, SignerChangeAlreadyFinalised);
    Ok(g.(changes := g.changes[id := g.changes[id].(status := ChangeCancelled)],
          journal := g.journal + [Withdrawn(id)]))
  }

  // ----- calls -----

  datatype GovCall =
    | CallInitialize(admin: Address, threshold: u32, signers: seq<(Address, u32)>)
    | CallSetPaused(caller: Address, paused: bool)
    | CallUpdateThreshold(caller: Address, threshold: u32)
    | CallSetSigner(caller: Address, signer: Address, weight: u32)
    | CallRemoveSigner(caller: Address, signer: Address)
    | CallProposeRotation(caller: Address, oldSigner: Address, newSigner: Address)
    | CallApproveRotation(caller: Address, id: nat)
    | CallCancelRotation(caller: Address, id: nat)
    | CallProposeChange(caller: Address, kind: ChangeKind)
    | CallExecuteChange(caller: Address, id: nat)
    | CallCancelChange(caller: Address, id: nat)

  function GovStep(g: Governance, now: u64, call: GovCall): Outcome {
    match call
    case CallInitialize(admin, threshold, signers) => Initialize(g, admin, threshold, signers)
    case CallSetPaused(caller, paused) => SetPaused(g, caller, paused)
    case CallUpdateThreshold(caller, threshold) => UpdateThreshold(g, caller, threshold)
    case CallSetSigner(caller, signer, weight) => SetSigner(g, caller, signer, weight)
    case CallRemoveSigner(caller, signer) => RemoveSigner(g, caller, signer)
    case CallProposeRotation(caller, oldSigner, newSigner) => ProposeRotation(g, now, caller, oldSigner, newSigner)
    case CallApproveRotation(caller, id) => ApproveRotation(g, caller, id)
    case CallCancelRotation(caller, id) => CancelRotation(g, caller, id)
    case CallProposeChange(caller, kind) => ProposeChange(g, now, caller, kind)
    case CallExecuteChange(caller, id) => ExecuteChange(g, now, caller, id)
    case CallCancelChange(caller, id) => CancelChange(g, caller, id)
  }
}
