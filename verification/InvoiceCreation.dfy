/** What a creating call stores, field by field, and exactly when it succeeds. */
module InvoiceCreation {
  import opened Common
  import opened InvoiceSpec
  import opened InvoiceSafety

  // ----- what is stored -----

  /** `x` is the pending invoice number `id` that `merchant` asked for with `p` at `now`. */
  ghost predicate AsAsked(x: Invoice, id: nat, now: u64, merchant: Address, p: Params) {
    && x.id == id && x.merchant == merchant && x.amount == p.amount && x.gross == p.gross
    && x.status.Pending? && x.expiresAt == now + p.expiresIn && x.paidAt.None? && x.payer.None?
    && x.metadataHash == p.metadataHash && x.linkHash == p.linkHash && x.nonce == p.nonce && x.token == p.token
  }

  /** Invoices up to number `n` are as before. */
  ghost predicate SameUpTo(s: Ledger, s': Ledger, n: nat) {
    forall id :: id <= n ==> (id in s'.invoices <==> id in s.invoices)
                             && (id in s.invoices ==> s'.invoices[id] == s.invoices[id])
  }

  lemma CreateRecordStores(s: Ledger, now: u64, merchant: Address, p: Params)
    requires CreateRecord(s, now, merchant, p).Ok?
    ensures var s' := CreateRecord(s, now, merchant, p).value;
            && s'.count == s.count + 1 && SameUpTo(s, s', s.count)
            && s'.count in s'.invoices && AsAsked(s'.invoices[s'.count], s'.count, now, merchant, p)
            && s'.nonces == s.nonces + (if p.nonce == 0 then {} else {(merchant, p.nonce)})
            && s'.events == s.events && s'.templates == s.templates
  {
  }

  /** A created invoice gets the next number and holds what was asked for; no other invoice changes. */
  lemma CreateStores(s: Ledger, now: u64, merchant: Address, p: Params)
    requires Create(s, now, merchant, p).Ok?
    ensures var s' := Create(s, now, merchant, p).value;
            && s'.count == s.count + 1 && SameUpTo(s, s', s.count)
            && s'.count in s'.invoices && AsAsked(s'.invoices[s'.count], s'.count, now, merchant, p)
            && s'.nonces == s.nonces + (if p.nonce == 0 then {} else {(merchant, p.nonce)})
  {
    CreateRecordStores(s, now, merchant, p);
  }

  /** Invoice number `base` + i + 1 is the i-th one asked for. */
  ghost predicate ElementStored(s: Ledger, base: nat, now: u64, merchant: Address, ps: seq<Params>, i: nat)
    requires i < |ps|
  {
    base + i + 1 in s.invoices && AsAsked(s.invoices[base + i + 1], base + i + 1, now, merchant, ps[i])
  }

  /** The i-th element of a batch gets the i-th next number and holds what was asked for. */
  lemma {:induction false} CreateEachStores(s: Ledger, now: u64, merchant: Address, ps: seq<Params>)
    requires CreateEach(s, now, merchant, ps).Ok?
    ensures var s' := CreateEach(s, now, merchant, ps).value;
            && s'.count == s.count + |ps| && SameUpTo(s, s', s.count)
            && forall i :: 0 <= i < |ps| ==> ElementStored(s', s.count, now, merchant, ps, i)
  {
    if ps != [] {
      var front := ps[..|ps| - 1];
      CreateEachStores(s, now, merchant, front);
      var mid, s' := CreateEach(s, now, merchant, front).value, CreateEach(s, now, merchant, ps).value;
      CreateRecordStores(mid, now, merchant, ps[|ps| - 1]);
      forall i | 0 <= i < |ps| ensures ElementStored(s', s.count, now, merchant, ps, i) {
        if i < |front| { EarlierStays(s, mid, s', now, merchant, ps, i); }
      }
    }
  }

  lemma EarlierStays(s: Ledger, mid: Ledger, s': Ledger, now: u64, merchant: Address, ps: seq<Params>, i: nat)
    requires i < |ps| - 1 && mid.count == s.count + |ps| - 1 && SameUpTo(mid, s', mid.count)
    requires ElementStored(mid, s.count, now, merchant, ps[..|ps| - 1], i)
    ensures ElementStored(s', s.count, now, merchant, ps, i)
  {
    assert s.count + i + 1 <= mid.count;
  }

  // ----- when it succeeds -----

  /**
   1 USDC <= amount <= gross, hashes of at most 64 bytes (32 for a payment link), and a duration of up to five years.
   */
  ghost predicate ValidParams(p: Params) {
    && 10_000_000 <= p.amount <= p.gross && 0 < p.expiresIn <= 5 * 365 * 86_400
    && (p.metadataHash.Some? ==> |p.metadataHash.value| <= 64)
    && (p.linkHash.Some? ==> |p.linkHash.value| == 32)
  }

  lemma ValidateIff(p: Params)
    ensures Validate(p).Pass? <==> ValidParams(p)
  {
  }

  lemma MerchantCountBounded(s: Ledger, m: Address)
    requires Sound(s)
    ensures Lookup(s.merchantCount, m, 0) <= s.count
  {
    assert MerchantOk(s, m);
    FilterShrinks(Ids(s.count), OwnedBy(s, m));
  }

  lemma {:induction false} FilterShrinks<T>(xs: seq<T>, p: T -> bool)
    ensures |Filter(xs, p)| <= |xs|
  {
    if xs != [] { FilterShrinks(xs[..|xs| - 1], p); }
  }

  lemma CreateRecordOkIff(s: Ledger, now: u64, merchant: Address, p: Params)
    requires Sound(s)
    ensures CreateRecord(s, now, merchant, p).Ok? <==> s.count < U64_MAX && now + p.expiresIn <= U64_MAX
  {
    MerchantCountBounded(s, merchant);
  }

  /**
   Creation succeeds exactly for valid parameters with an unused nonce on an unpaused contract with room in its
   counters.
   */
  lemma CreateOkIff(s: Ledger, now: u64, merchant: Address, p: Params)
    requires Sound(s)
    ensures Create(s, now, merchant, p).Ok? <==>
              && !s.paused && ValidParams(p) && (p.nonce != 0 ==> (merchant, p.nonce) !in s.nonces)
              && s.count < U64_MAX && now + p.expiresIn <= U64_MAX
  {
    ValidateIff(p);
    CreateRecordOkIff(s, now, merchant, p);
  }

  /** Valid elements with unused non-zero nonces, no two of them equal. */
  ghost predicate ValidBatch(s: Ledger, merchant: Address, ps: seq<Params>) {
    && (forall i :: 0 <= i < |ps| ==> ValidParams(ps[i]) && (ps[i].nonce != 0 ==> (merchant, ps[i].nonce) !in s.nonces))
    && forall i, j :: 0 <= i < j < |ps| && ps[i].nonce != 0 ==> ps[i].nonce != ps[j].nonce
  }

  lemma {:induction false} BatchNoncesMember(ps: seq<Params>, n: u64)
    ensures n in BatchNonces(ps) <==> n != 0 && exists i :: 0 <= i < |ps| && ps[i].nonce == n
  {
    if ps != [] {
      var front := ps[..|ps| - 1];
      BatchNoncesMember(front, n);
      if i :| 0 <= i < |ps| && ps[i].nonce == n { assert i < |front| ==> front[i].nonce == n; }
      if i :| 0 <= i < |front| && front[i].nonce == n { assert ps[i].nonce == n; }
    }
  }

  lemma {:induction false} ValidateEachIff(s: Ledger, merchant: Address, ps: seq<Params>)
    ensures ValidateEach(s, merchant, ps).Pass? <==> ValidBatch(s, merchant, ps)
  {
    if ps != [] {
      var front, p := ps[..|ps| - 1], ps[|ps| - 1];
      ValidateEachIff(s, merchant, front);
      ValidateIff(p);
      BatchNoncesMember(front, p.nonce);
      ValidBatchSnoc(s, merchant, front, p);
      assert ps == front + [p];
    }
  }

  lemma ValidBatchSnoc(s: Ledger, merchant: Address, front: seq<Params>, p: Params)
    ensures ValidBatch(s, merchant, front + [p]) <==>
              && ValidBatch(s, merchant, front) && ValidParams(p) && (p.nonce != 0 ==> (merchant, p.nonce) !in s.nonces)
              && (p.nonce != 0 ==> forall i :: 0 <= i < |front| ==> front[i].nonce != p.nonce)
  {
    var ps := front + [p];
    if ValidBatch(s, merchant, ps) {
      forall i | 0 <= i < |front|
        ensures ValidParams(front[i]) && (front[i].nonce != 0 ==> (merchant, front[i].nonce) !in s.nonces)
        ensures p.nonce != 0 ==> front[i].nonce != p.nonce
      {
        assert ps[i] == front[i] && ps[|front|] == p;
      }
      forall i, j | 0 <= i < j < |front| && front[i].nonce != 0 ensures front[i].nonce != front[j].nonce {
        assert ps[i] == front[i] && ps[j] == front[j];
      }
      assert ps[|front|] == p;
    }
  }

  lemma {:induction false} CreateEachOkIff(s: Ledger, now: u64, merchant: Address, ps: seq<Params>)
    requires Sound(s) && ValidateEach(s, merchant, ps).Pass? && s.count + |ps| <= U64_MAX
    ensures CreateEach(s, now, merchant, ps).Ok? <==> AllExpire(now, ps)
  {
    if ps != [] {
      var front := ps[..|ps| - 1];
      CreateEachOkIff(s, now, merchant, front);
      AllExpireSnoc(now, ps);
      if CreateEach(s, now, merchant, front).Ok? {
        CreateEachKeeps(s, now, merchant, front);
        LastOkIff(s, CreateEach(s, now, merchant, front).value, now, merchant, ps);
      }
    }
  }

  ghost predicate AllExpire(now: u64, ps: seq<Params>) {
    forall i :: 0 <= i < |ps| ==> now + ps[i].expiresIn <= U64_MAX
  }

  lemma AllExpireSnoc(now: u64, ps: seq<Params>)
    requires ps != []
    ensures AllExpire(now, ps) <==> AllExpire(now, ps[..|ps| - 1]) && now + ps[|ps| - 1].expiresIn <= U64_MAX
  {
    assert ps == ps[..|ps| - 1] + [ps[|ps| - 1]];
  }

  lemma LastOkIff(s: Ledger, mid: Ledger, now: u64, merchant: Address, ps: seq<Params>)
    requires ps != [] && s.count + |ps| <= U64_MAX
    requires CreateEach(s, now, merchant, ps[..|ps| - 1]) == Ok(mid) && Sound(mid)
    ensures CreateEach(s, now, merchant, ps).Ok? <==> now + ps[|ps| - 1].expiresIn <= U64_MAX
  {
    CreateEachStores(s, now, merchant, ps[..|ps| - 1]);
    CreateRecordOkIff(mid, now, merchant, ps[|ps| - 1]);
  }

  /**
   A batch succeeds exactly when every element is valid, the nonces are new and distinct, and the counters have room.
   */
  lemma BatchCreateOkIff(s: Ledger, now: u64, merchant: Address, ps: seq<Params>)
    requires Sound(s)
    ensures BatchCreate(s, now, merchant, ps).Ok? <==>
              && !s.paused && ValidBatch(s, merchant, ps) && s.count + |ps| <= U64_MAX
              && AllExpire(now, ps)
  {
    ValidateEachIff(s, merchant, ps);
    if ValidateEach(s, merchant, ps).Pass? && s.count + |ps| <= U64_MAX { CreateEachOkIff(s, now, merchant, ps); }
  }
}
