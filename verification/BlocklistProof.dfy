/** The sorted-pair Merkle check of the bulk blocklist, for any hash. */
module BlocklistProof {
  import opened Common
  import opened ComplianceSpec

  /** The hash of an address and the hash of two concatenated digests. */
  datatype Hash = Hash(leaf: Address -> Digest, node: (Digest, Digest) -> Digest)

  /** Pairs are sorted before they are hashed, so a proof carries no left or right. */
  function Combine(h: Hash, x: Digest, y: Digest): Digest {
    if x <= y then h.node(x, y) else h.node(y, x)
  }

  /** The smaller digest is hashed first, so the two sides of a node may be swapped. */
  lemma CombineSorts(h: Hash, x: Digest, y: Digest)
    ensures Combine(h, x, y) == h.node(Min(x, y), Max(x, y)) == Combine(h, y, x)
  {
  }

  function Climb(h: Hash, start: Digest, proof: seq<Digest>): Digest {
    if proof == [] then start else Combine(h, Climb(h, start, proof[..|proof| - 1]), proof[|proof| - 1])
  }

  predicate IsBlockedWithProof(s: Registry, h: Hash, a: Address, proof: seq<Digest>) {
    Flag(s.marks.blocked, a) || (s.roles.root.Some? && Climb(h, h.leaf(a), proof) == s.roles.root.value)
  }

  // ----- the list behind a root -----

  datatype Tree = Leaf(address: Address) | Branch(left: Tree, right: Tree)

  function Root(h: Hash, t: Tree): Digest {
    match t
    case Leaf(a) => h.leaf(a)
    case Branch(l, r) => Combine(h, Root(h, l), Root(h, r))
  }

  function Members(t: Tree): set<Address> {
    match t
    case Leaf(a) => {a}
    case Branch(l, r) => Members(l) + Members(r)
  }

  /** The siblings on the way from the leaf of `a` up to the root. */
  function ProofFor(h: Hash, t: Tree, a: Address): seq<Digest>
    requires a in Members(t)
  {
    match t
    case Leaf(_) => []
    case Branch(l, r) => if a in Members(l) then ProofFor(h, l, a) + [Root(h, r)] else ProofFor(h, r, a) + [Root(h, l)]
  }

  /** Every listed address has a proof that the contract accepts, whatever the hash and the shape of the tree. */
  lemma {:induction false} ListedIsAccepted(h: Hash, t: Tree, a: Address)
    requires a in Members(t)
    ensures Climb(h, h.leaf(a), ProofFor(h, t, a)) == Root(h, t)
  {
    if t.Branch? {
      var near := if a in Members(t.left) then t.left else t.right;
      var far := if a in Members(t.left) then t.right else t.left;
      ListedIsAccepted(h, near, a);
      var proof := ProofFor(h, t, a);
      assert proof[..|proof| - 1] == ProofFor(h, near, a) && proof[|proof| - 1] == Root(h, far);
    }
  }

  /** No two different inputs are hashed to the same digest. */
  ghost predicate CollisionFree(h: Hash) {
    && (forall a, b :: h.leaf(a) == h.leaf(b) ==> a == b)
    && (forall p, q, r, s :: h.node(p, q) == h.node(r, s) ==> p == r && q == s)
    && (forall a, p, q :: h.leaf(a) != h.node(p, q))
  }

  /** Without collisions an accepted proof belongs to a listed address. */
  lemma {:induction false} AcceptedIsListed(h: Hash, t: Tree, a: Address, proof: seq<Digest>)
    requires CollisionFree(h) && Climb(h, h.leaf(a), proof) == Root(h, t)
    ensures a in Members(t)
    decreases t
  {
    if t.Branch? && proof != [] {
      var front := proof[..|proof| - 1];
      var child := Climb(h, h.leaf(a), front);
      assert child == Root(h, t.left) || child == Root(h, t.right);
      if child == Root(h, t.left) {
        AcceptedIsListed(h, t.left, a, front);
      } else {
        AcceptedIsListed(h, t.right, a, front);
      }
    }
  }

  /** With the root of a list committed, some proof gets an address refused exactly when it is flagged or listed. */
  lemma BlockedIffListed(s: Registry, h: Hash, t: Tree, a: Address)
    requires CollisionFree(h) && s.roles.root == Some(Root(h, t))
    ensures (exists proof :: IsBlockedWithProof(s, h, a, proof)) <==> Flag(s.marks.blocked, a) || a in Members(t)
  {
    if a in Members(t) {
      ListedIsAccepted(h, t, a);
      assert IsBlockedWithProof(s, h, a, ProofFor(h, t, a));
    } else if Flag(s.marks.blocked, a) {
      assert IsBlockedWithProof(s, h, a, []);
    } else if proof :| IsBlockedWithProof(s, h, a, proof) {
      AcceptedIsListed(h, t, a, proof);
    }
  }
}
