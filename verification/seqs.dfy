/** Generic sequence and arithmetic helpers shared by the scoring engine model. */
module Seqs {

  /** Sum of a sequence of reals, folded from the left like `reduce((a, b) => a + b, 0)`. */
  function Sum(xs: seq<real>): real
  {
    if xs == [] then 0.0 else Sum(xs[..|xs| - 1]) + xs[|xs| - 1]
  }

  lemma SumAppend(xs: seq<real>, x: real)
    ensures Sum(xs + [x]) == Sum(xs) + x
  {
    assert (xs + [x])[..|xs|] == xs;
  }

  /** A sum of non-negative terms is non-negative. */
  lemma {:induction false} SumNonNegative(xs: seq<real>)
    requires forall i :: 0 <= i < |xs| ==> xs[i] >= 0.0
    ensures Sum(xs) >= 0.0
  {
    if xs != [] {
      SumNonNegative(xs[..|xs| - 1]);
    }
  }

  /** A sum of zeros is zero. */
  lemma {:induction false} SumZeros(xs: seq<real>)
    requires forall i :: 0 <= i < |xs| ==> xs[i] == 0.0
    ensures Sum(xs) == 0.0
  {
    if xs != [] {
      SumZeros(xs[..|xs| - 1]);
    }
  }

  /** `a` is obtained from `b` by deleting elements, keeping the order of the rest. */
  ghost predicate IsSubsequence<T>(a: seq<T>, b: seq<T>)
    decreases |b|
  {
    if a == [] then true
    else if b == [] then false
    else (a[|a| - 1] == b[|b| - 1] && IsSubsequence(a[..|a| - 1], b[..|b| - 1]))
         || IsSubsequence(a, b[..|b| - 1])
  }

  /** Appending the same element to both sides keeps a subsequence. */
  lemma SubsequenceSnocBoth<T>(a: seq<T>, b: seq<T>, x: T)
    requires IsSubsequence(a, b)
    ensures IsSubsequence(a + [x], b + [x])
  {
    assert (a + [x])[..|a|] == a;
    assert (b + [x])[..|b|] == b;
  }

  /** Appending an element to the full sequence only keeps a subsequence. */
  lemma SubsequenceSnocRight<T>(a: seq<T>, b: seq<T>, x: T)
    requires IsSubsequence(a, b)
    ensures IsSubsequence(a, b + [x])
  {
    assert (b + [x])[..|b|] == b;
  }

  /** Every element of a subsequence occurs in the full sequence. */
  lemma {:induction false} SubsequenceMembers<T>(a: seq<T>, b: seq<T>, x: T)
    requires IsSubsequence(a, b)
    requires x in a
    ensures x in b
    decreases |b|
  {
    if b != [] {
      if a[|a| - 1] == b[|b| - 1] && IsSubsequence(a[..|a| - 1], b[..|b| - 1]) {
        if x == a[|a| - 1] {
          assert b[|b| - 1] == x;
        } else {
          assert a == a[..|a| - 1] + [a[|a| - 1]];
          SubsequenceMembers(a[..|a| - 1], b[..|b| - 1], x);
        }
      } else {
        SubsequenceMembers(a, b[..|b| - 1], x);
      }
      assert b == b[..|b| - 1] + [b[|b| - 1]];
    }
  }

  /** The sign of a factor follows the sign of its product with a positive number. */
  lemma SignOfProduct(x: real, m: real)
    requires m > 0.0
    ensures x * m >= 0.0 ==> x >= 0.0
    ensures x * m <= 0.0 ==> x <= 0.0
  {
  }

  /** The first `m` elements, or all of them: JavaScript's `slice(0, m)` for `m >= 0`. */
  function Take<T>(s: seq<T>, m: nat): (r: seq<T>)
    ensures |r| == if m <= |s| then m else |s|
    ensures r <= s
  {
    if m <= |s| then s[..m] else s
  }
}
