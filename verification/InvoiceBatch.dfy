/** Creating a batch is creating its elements one after the other. */
module InvoiceBatch {
  import opened Common
  import opened InvoiceSpec
  import opened InvoiceSafety

  /** `create_invoice` called for each element in order, stopping at the first error. */
  function CreateOneByOne(s: Ledger, now: u64, merchant: Address, ps: seq<Params>): Outcome {
    if ps == [] then Ok(s)
    else
      var s' :- CreateOneByOne(s, now, merchant, ps[..|ps| - 1]);
      Create(s', now, merchant, ps[|ps| - 1])
  }

  lemma {:induction false} CreateEachCounts(s: Ledger, now: u64, merchant: Address, ps: seq<Params>)
    requires CreateEach(s, now, merchant, ps).Ok?
    ensures CreateEach(s, now, merchant, ps).value.count == s.count + |ps|
    ensures CreateEach(s, now, merchant, ps).value.paused == s.paused
  {
    if ps != [] { CreateEachCounts(s, now, merchant, ps[..|ps| - 1]); }
  }

  /** Checking first and writing afterwards succeeds on the same batches, with the same result. */
  lemma {:induction false} PassesAgree(s: Ledger, now: u64, merchant: Address, ps: seq<Params>)
    requires !s.paused
    ensures CreateOneByOne(s, now, merchant, ps).Ok? <==>
              ValidateEach(s, merchant, ps).Pass? && CreateEach(s, now, merchant, ps).Ok?
    ensures CreateOneByOne(s, now, merchant, ps).Ok? ==>
              CreateOneByOne(s, now, merchant, ps) == CreateEach(s, now, merchant, ps)
  {
    if ps != [] {
      var front, p := ps[..|ps| - 1], ps[|ps| - 1];
      PassesAgree(s, now, merchant, front);
      if CreateEach(s, now, merchant, front).Ok? {
        CreateEachCounts(s, now, merchant, front);
        CreateEachNonces(s, now, merchant, front, p.nonce);
      }
    }
  }

  /** A batch succeeds exactly when the contract is not paused and each creation in turn would, with equal effect. */
  lemma BatchEqualsSequence(s: Ledger, now: u64, merchant: Address, ps: seq<Params>)
    ensures BatchCreate(s, now, merchant, ps).Ok? <==> !s.paused && CreateOneByOne(s, now, merchant, ps).Ok?
    ensures BatchCreate(s, now, merchant, ps).Ok? ==>
              BatchCreate(s, now, merchant, ps) == CreateOneByOne(s, now, merchant, ps)
  {
    if !s.paused {
      PassesAgree(s, now, merchant, ps);
      if CreateEach(s, now, merchant, ps).Ok? { CreateEachCounts(s, now, merchant, ps); }
    }
  }

  /** On a paused contract a non-empty sequence of creations fails as the batch does. */
  lemma {:induction false} PausedSequenceFails(s: Ledger, now: u64, merchant: Address, ps: seq<Params>)
    requires s.paused && ps != []
    ensures CreateOneByOne(s, now, merchant, ps) == Err(ContractPaused) == BatchCreate(s, now, merchant, ps)
  {
    if |ps| > 1 { PausedSequenceFails(s, now, merchant, ps[..|ps| - 1]); }
  }
}
