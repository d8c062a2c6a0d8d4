/** The quorum primitives of crates/multisig: record, revoke and count weighted approvals. */
module Multisig {
  import opened Common
  import opened TreasuryTypes

  datatype Tally = Tally(approvals: seq<Address>, weight: u32)

  function RecordApproval(g: Governance, t: Tally, signer: Address): Result<Tally, TreasuryError> {
    if signer in t.approvals then Ok(t)
    else if t.weight + SignerWeight(g, signer) > U32_MAX then Err(WeightOverflow)
    else Ok(Tally(t.approvals + [signer], t.weight + SignerWeight(g, signer)))
  }

  function FirstIndexOf<T(==)>(s: seq<T>, x: T): (i: nat)
    requires x in s
    ensures i < |s| && s[i] == x && x !in s[..i]
  {
    if s[0] == x then 0 else 1 + FirstIndexOf(s[1..], x)
  }

  /** `None` when the signer has not approved; otherwise the signer's *current* weight is taken off, saturating. */
  function RevokeApproval(g: Governance, t: Tally, signer: Address): Option<Tally> {
    if signer !in t.approvals then None
    else
      var i := FirstIndexOf(t.approvals, signer);
      Some(Tally(t.approvals[..i] + t.approvals[i + 1..], Max(0, t.weight - SignerWeight(g, signer))))
  }

  predicate MeetsThreshold(weight: u32, threshold: u32) { weight >= threshold }

  /** Recording then revoking with an unchanged weight restores the tally: the two are inverses. */
  lemma RevokeUndoesRecord(g: Governance, t: Tally, signer: Address)
    requires signer !in t.approvals && RecordApproval(g, t, signer).Ok?
    ensures RevokeApproval(g, RecordApproval(g, t, signer).value, signer) == Some(t)
  {
    var t' := RecordApproval(g, t, signer).value;
    var i := FirstIndexOf(t'.approvals, signer);
    assert forall j :: 0 <= j < |t.approvals| ==> t'.approvals[j] == t.approvals[j];
    assert t'.approvals[..i] + t'.approvals[i + 1..] == t.approvals;
  }
}
