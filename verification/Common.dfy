/**
 Vocabulary shared by the contract models: the integer widths of the contracts,
 results that carry an error code, and the sequence facts that the index proofs use.
 */
module Common {

  const U32_MAX: int := 0xFFFF_FFFF
  const U64_MAX: int := 0xFFFF_FFFF_FFFF_FFFF
  const I128_MAX: int := 0x7FFF_FFFF_FFFF_FFFF_FFFF_FFFF_FFFF_FFFF
  const I128_MIN: int := -I128_MAX - 1

  type u32 = x: int | 0 <= x <= U32_MAX
  type u64 = x: int | 0 <= x <= U64_MAX
  type i128 = x: int | I128_MIN <= x <= I128_MAX

  /** An account or contract address; only equality is ever used. */
  datatype Address = Account(key: nat)

  datatype Option<+T> = None | Some(value: T) {
    function GetOr(default: T): T {
      if Some? then value else default
    }
  }

  /** What a call returns. An `Err` stands for a returned error and for a panic alike: both roll back. */
  datatype Result<+T, +E> = Ok(value: T) | Err(error: E) {
    predicate IsFailure() { Err? }
    function PropagateFailure<U>(): Result<U, E> requires Err? { Err(error) }
    function Extract(): T requires Ok? { value }
  }

  /** The call did what `spec` says: on success the storage is `spec`'s, on failure it is untouched. */
  ghost predicate Commits<S(!new), T(!new), E(!new)>(r: Result<T, E>, spec: Result<S, E>, before: S, after: S) {
    match spec
    case Ok(s) => r.Ok? && after == s
    case Err(e) => r == Err(e) && after == before
  }

  /** A guard that carries no value. */
  datatype Guard<+E> = Pass | Fail(error: E) {
    predicate IsFailure() { Fail? }
    function PropagateFailure<U>(): Result<U, E> requires Fail? { Err(error) }
    function Extract(): Unit requires Pass? { Done }
  }

  function Need<E>(condition: bool, error: E): Guard<E> {
    if condition then Pass else Fail(error)
  }

  datatype Unit = Done

  function Lookup<K, V>(m: map<K, V>, k: K, default: V): V {
    if k in m then m[k] else default
  }

  function Min(a: int, b: int): int { if a <= b then a else b }
  function Max(a: int, b: int): int { if a >= b then a else b }

  // ----- sequences -----

  ghost predicate NoDup<T>(s: seq<T>) {
    forall i, j :: 0 <= i < j < |s| ==> s[i] != s[j]
  }

  ghost predicate Ascending(s: seq<nat>) {
    forall i, j :: 0 <= i < j < |s| ==> s[i] < s[j]
  }

  /** The elements of `s` that satisfy `p`, in order. */
  function Filter<T>(s: seq<T>, p: T -> bool): seq<T> {
    if s == [] then []
    else
      var front := Filter(s[..|s| - 1], p);
      if p(s[|s| - 1]) then front + [s[|s| - 1]] else front
  }

  /** `s` with every occurrence of `x` dropped. */
  function Without<T(==)>(s: seq<T>, x: T): seq<T> {
    Filter(s, Differs(x))
  }

  function Differs<T(==)>(x: T): T -> bool {
    y => y != x
  }

  /** `s` with every later repetition dropped. */
  function FirstOccurrences<T(==)>(s: seq<T>): seq<T> {
    if s == [] then []
    else
      var front := FirstOccurrences(s[..|s| - 1]);
      if s[|s| - 1] in front then front else front + [s[|s| - 1]]
  }

  lemma {:induction false} FirstOccurrencesMember<T>(s: seq<T>, x: T)
    ensures x in FirstOccurrences(s) <==> x in s
  {
    if s != [] {
      FirstOccurrencesMember(s[..|s| - 1], x);
      assert s == s[..|s| - 1] + [s[|s| - 1]];
    }
  }

  /** The identifiers 1, 2, ..., n, in the order in which a counter hands them out. */
  function Ids(n: nat): (r: seq<nat>)
    ensures |r| == n && forall i :: 0 <= i < n ==> r[i] == i + 1
  {
    seq(n, i => i + 1)
  }

  function Sum<T>(s: seq<T>, f: T -> int): int {
    if s == [] then 0 else Sum(s[..|s| - 1], f) + f(s[|s| - 1])
  }

  /** `s` after one step for every element of `xs`, in order. */
  function Fold<S, T>(step: (S, T) -> S, s: S, xs: seq<T>): S {
    if xs == [] then s else step(Fold(step, s, xs[..|xs| - 1]), xs[|xs| - 1])
  }

  lemma {:induction false} FoldConcat<S, T>(step: (S, T) -> S, s: S, xs: seq<T>, ys: seq<T>)
    ensures Fold(step, s, xs + ys) == Fold(step, Fold(step, s, xs), ys)
  {
    if ys == [] {
      assert xs + ys == xs;
    } else {
      FoldConcat(step, s, xs, ys[..|ys| - 1]);
      assert (xs + ys)[..|xs + ys| - 1] == xs + ys[..|ys| - 1];
    }
  }

  lemma {:induction false} FilterMember<T>(s: seq<T>, p: T -> bool, x: T)
    ensures x in Filter(s, p) <==> x in s && p(x)
  {
    if s != [] {
      FilterMember(s[..|s| - 1], p, x);
      assert s == s[..|s| - 1] + [s[|s| - 1]];
    }
  }

  lemma FilterMembers<T(!new)>(s: seq<T>, p: T -> bool)
    ensures forall x :: x in Filter(s, p) <==> x in s && p(x)
  {
    forall x ensures x in Filter(s, p) <==> x in s && p(x) { FilterMember(s, p, x); }
  }

  lemma {:induction false} FilterExt<T>(s: seq<T>, p: T -> bool, q: T -> bool)
    requires forall i :: 0 <= i < |s| ==> p(s[i]) == q(s[i])
    ensures Filter(s, p) == Filter(s, q)
  {
    if s != [] { FilterExt(s[..|s| - 1], p, q); }
  }

  lemma {:induction false} FilterAll<T>(s: seq<T>, p: T -> bool)
    requires forall i :: 0 <= i < |s| ==> p(s[i])
    ensures Filter(s, p) == s
  {
    if s != [] {
      FilterAll(s[..|s| - 1], p);
      assert s == s[..|s| - 1] + [s[|s| - 1]];
    }
  }

  lemma {:induction false} FilterConcat<T>(s: seq<T>, t: seq<T>, p: T -> bool)
    ensures Filter(s + t, p) == Filter(s, p) + Filter(t, p)
  {
    if t == [] {
      assert s + t == s;
    } else {
      FilterConcat(s, t[..|t| - 1], p);
      assert (s + t)[..|s + t| - 1] == s + t[..|t| - 1];
    }
  }

  /** One more element is listed exactly when it passes and has not occurred. */
  lemma FirstPassing<T>(s: seq<T>, x: T, p: T -> bool)
    ensures FirstOccurrences(Filter(s + [x], p))
            == FirstOccurrences(Filter(s, p)) + (if p(x) && x !in s then [x] else [])
    ensures x in FirstOccurrences(Filter(s, p)) <==> p(x) && x in s
  {
    var named := Filter(s, p);
    FirstOccurrencesMember(named, x);
    FilterMember(s, p, x);
    assert (s + [x])[..|s + [x]| - 1] == s;
    assert (named + [x])[..|named + [x]| - 1] == named;
  }

  function Both<T>(p: T -> bool, q: T -> bool): T -> bool {
    x => p(x) && q(x)
  }

  lemma {:induction false} FilterTwice<T>(s: seq<T>, p: T -> bool, q: T -> bool)
    ensures Filter(Filter(s, p), q) == Filter(s, Both(p, q))
  {
    if s != [] {
      var front := s[..|s| - 1];
      FilterTwice(front, p, q);
      if p(s[|s| - 1]) {
        FilterConcat(Filter(front, p), [s[|s| - 1]], q);
      }
    }
  }

  lemma {:induction false} FilterNoDup<T(!new)>(s: seq<T>, p: T -> bool)
    requires NoDup(s)
    ensures NoDup(Filter(s, p))
  {
    if s != [] {
      var front := s[..|s| - 1];
      FilterNoDup(front, p);
      FilterMembers(front, p);
    }
  }

  /** The element of `s` that is the m-th to pass, and what passes after it. */
  lemma {:induction false} FilterSplit<T>(s: seq<T>, p: T -> bool, m: nat) returns (k: nat)
    requires 0 < m <= |Filter(s, p)|
    ensures k < |s| && s[k] == Filter(s, p)[m - 1] && Filter(s[k + 1..], p) == Filter(s, p)[m..]
  {
    var front, last := s[..|s| - 1], s[|s| - 1];
    if m <= |Filter(front, p)| {
      k := FilterSplit(front, p, m);
      assert s[k + 1..] == front[k + 1..] + [last];
      FilterConcat(front[k + 1..], [last], p);
    } else {
      k := |s| - 1;
    }
  }

  lemma {:induction false} FilterAscending(s: seq<nat>, p: nat -> bool)
    requires Ascending(s)
    ensures Ascending(Filter(s, p))
  {
    if s != [] {
      var front := s[..|s| - 1];
      FilterAscending(front, p);
      FilterMembers(front, p);
      assert forall i :: 0 <= i < |Filter(front, p)| ==> Filter(front, p)[i] in front;
    }
  }

  lemma WithoutMembers<T(!new)>(s: seq<T>, x: T)
    ensures forall y :: y in Without(s, x) <==> y in s && y != x
    ensures NoDup(s) ==> NoDup(Without(s, x))
  {
    FilterMembers(s, Differs(x));
    if NoDup(s) { FilterNoDup(s, Differs(x)); }
  }

  lemma IdsMember(n: nat, x: nat)
    ensures x in Ids(n) <==> 1 <= x <= n
  {
    if 1 <= x <= n { assert Ids(n)[x - 1] == x; }
  }

  lemma {:induction false} SumExt<T>(s: seq<T>, f: T -> int, g: T -> int)
    requires forall i :: 0 <= i < |s| ==> f(s[i]) == g(s[i])
    ensures Sum(s, f) == Sum(s, g)
  {
    if s != [] { SumExt(s[..|s| - 1], f, g); }
  }

  lemma {:induction false} SumConcat<T>(s: seq<T>, t: seq<T>, f: T -> int)
    ensures Sum(s + t, f) == Sum(s, f) + Sum(t, f)
  {
    if t == [] {
      assert s + t == s;
    } else {
      SumConcat(s, t[..|t| - 1], f);
      assert (s + t)[..|s + t| - 1] == s + t[..|t| - 1];
    }
  }

  lemma SumSnoc<T>(s: seq<T>, x: T, f: T -> int)
    ensures Sum(s + [x], f) == Sum(s, f) + f(x)
  {
    assert (s + [x])[..|s + [x]| - 1] == s;
  }

  /** One more element, when the values of the others are counted by `g`. */
  lemma SumJoined<T>(s: seq<T>, x: T, f: T -> int, g: T -> int)
    requires forall i :: 0 <= i < |s| ==> f(s[i]) == g(s[i])
    ensures Sum(s + [x], f) == Sum(s, g) + f(x)
  {
    SumSnoc(s, x, f);
    SumExt(s, f, g);
  }

  lemma NoDupSnoc<T>(s: seq<T>, x: T)
    requires NoDup(s) && x !in s
    ensures NoDup(s + [x])
  {
  }

  lemma SumRemove<T>(s: seq<T>, i: nat, f: T -> int)
    requires i < |s|
    ensures Sum(s[..i] + s[i + 1..], f) == Sum(s, f) - f(s[i])
  {
    var low, high := s[..i], s[i + 1..];
    SumConcat(low, high, f);
    SumConcat(s[..i + 1], high, f);
    assert s == s[..i + 1] + high;
    assert s[..i + 1][..i] == low;
  }

  lemma {:induction false} SumNonNegative<T>(s: seq<T>, f: T -> int)
    requires forall i :: 0 <= i < |s| ==> f(s[i]) >= 0
    ensures Sum(s, f) >= 0
  {
    if s != [] { SumNonNegative(s[..|s| - 1], f); }
  }

  /** A sum over a duplicate-free sequence depends only on which elements it has. */
  lemma {:induction false} SumSameElements<T(!new)>(s: seq<T>, t: seq<T>, f: T -> int)
    requires NoDup(s) && NoDup(t)
    requires forall x :: x in s <==> x in t
    ensures Sum(s, f) == Sum(t, f) && |s| == |t|
  {
    assert forall i :: 0 <= i < |t| ==> t[i] in s;
    if s != [] {
      var x := s[|s| - 1];
      assert x in t;
      var i :| 0 <= i < |t| && t[i] == x;
      var front, rest := s[..|s| - 1], t[..i] + t[i + 1..];
      forall y ensures y in front <==> y in rest {
        if y in front { assert y in s && y != x; assert y in t; }
        if y in rest { assert y in t && y != x; assert y in s; }
      }
      SumSameElements(front, rest, f);
      SumRemove(t, i, f);
    }
  }

  /** Removing the one occurrence at index `i` of a duplicate-free sequence. */
  lemma RemoveAt<T(!new)>(s: seq<T>, i: nat)
    requires i < |s| && NoDup(s)
    ensures NoDup(s[..i] + s[i + 1..])
    ensures forall x :: x in s[..i] + s[i + 1..] <==> x in s && x != s[i]
  {
    var r := s[..i] + s[i + 1..];
    forall x ensures x in r <==> x in s && x != s[i] {
      if x in s && x != s[i] {
        var j :| 0 <= j < |s| && s[j] == x;
        assert r[if j < i then j else j - 1] == x;
      }
    }
  }
}
