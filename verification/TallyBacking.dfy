/** A tally that only grows: what its weight is backed by, whatever happens to the signers' weights later. */
module TallyBacking {
  import opened Common
  import opened Multisig

  /** What `a` weighed when it joined the approvers it is still among after `n` calls. */
  ghost function GrantedAt(tally: nat -> Tally, weigh: (nat, Address) -> nat, n: nat, a: Address): nat {
    if n == 0 then 0
    else if a in tally(n).approvals && a !in tally(n - 1).approvals then weigh(n - 1, a)
    else GrantedAt(tally, weigh, n - 1, a)
  }

  ghost function GrantedAfter(tally: nat -> Tally, weigh: (nat, Address) -> nat, n: nat): Address -> int {
    a => GrantedAt(tally, weigh, n, a)
  }

  ghost predicate JoinsAt(tally: nat -> Tally, weigh: (nat, Address) -> nat, n: nat, a: Address)
    requires n > 0
  {
    var t := tally(n - 1);
    && a !in t.approvals && weigh(n - 1, a) > 0
    && tally(n).approvals == t.approvals + [a] && tally(n).weight == t.weight + weigh(n - 1, a)
  }

  /** The n-th call leaves the tally alone, starts it anew, or lets one signer join with its weight. */
  ghost predicate GrowsAt(tally: nat -> Tally, weigh: (nat, Address) -> nat, n: nat)
    requires n > 0
  {
    tally(n) == tally(n - 1) || tally(n) == Tally([], 0) || exists a :: JoinsAt(tally, weigh, n, a)
  }

  ghost predicate Grows(tally: nat -> Tally, weigh: (nat, Address) -> nat, n: nat) {
    tally(0) == Tally([], 0) && forall k :: 0 < k <= n ==> GrowsAt(tally, weigh, k)
  }

  ghost predicate BackedAt(tally: nat -> Tally, weigh: (nat, Address) -> nat, n: nat) {
    && NoDup(tally(n).approvals)
    && tally(n).weight == Sum(tally(n).approvals, GrantedAfter(tally, weigh, n))
    && forall a :: a in tally(n).approvals ==> GrantedAt(tally, weigh, n, a) > 0
  }

  lemma KeptBacking(tally: nat -> Tally, weigh: (nat, Address) -> nat, n: nat)
    requires n > 0 && tally(n - 1).approvals <= tally(n).approvals
    ensures Sum(tally(n - 1).approvals, GrantedAfter(tally, weigh, n))
            == Sum(tally(n - 1).approvals, GrantedAfter(tally, weigh, n - 1))
    ensures forall a :: a in tally(n - 1).approvals ==>
            GrantedAt(tally, weigh, n, a) == GrantedAt(tally, weigh, n - 1, a)
  {
    var before := tally(n - 1).approvals;
    SumExt(before, GrantedAfter(tally, weigh, n), GrantedAfter(tally, weigh, n - 1));
  }

  lemma JoinGranted(tally: nat -> Tally, weigh: (nat, Address) -> nat, n: nat, a: Address)
    requires n > 0 && JoinsAt(tally, weigh, n, a)
    ensures GrantedAt(tally, weigh, n, a) == weigh(n - 1, a)
    ensures forall b :: b in tally(n).approvals <==> b in tally(n - 1).approvals || b == a
  {
    assert tally(n).approvals[|tally(n - 1).approvals|] == a;
  }

  lemma JoinBacked(tally: nat -> Tally, weigh: (nat, Address) -> nat, n: nat, a: Address)
    requires n > 0 && BackedAt(tally, weigh, n - 1) && JoinsAt(tally, weigh, n, a)
    ensures BackedAt(tally, weigh, n)
  {
    var before := tally(n - 1).approvals;
    KeptBacking(tally, weigh, n);
    JoinGranted(tally, weigh, n, a);
    NoDupSnoc(before, a);
    SumJoined(before, a, GrantedAfter(tally, weigh, n), GrantedAfter(tally, weigh, n - 1));
  }

  /**
   A growing tally is always backed: distinct approvers, each of positive weight, whose weights add up to its weight.
   */
  lemma {:induction false} GrowingIsBacked(tally: nat -> Tally, weigh: (nat, Address) -> nat, n: nat)
    requires Grows(tally, weigh, n)
    ensures BackedAt(tally, weigh, n)
  {
    if n > 0 {
      GrowingIsBacked(tally, weigh, n - 1);
      assert GrowsAt(tally, weigh, n);
      if tally(n) == tally(n - 1) {
        KeptBacking(tally, weigh, n);
      } else if a :| JoinsAt(tally, weigh, n, a) {
        JoinBacked(tally, weigh, n, a);
      }
    }
  }
}
