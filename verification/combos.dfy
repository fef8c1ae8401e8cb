/**
  Basket enumeration. The filtered enumerators `computeTwoETFCombos`/`computeThreeETFCombos`
  (src/App.tsx:892-937) keep the combinations whose pairwise stage overlap is at most 1; the
  nested loop inside `App` (src/App.tsx:1611-1618) enumerates every pair and triple.
  Both are specified through the lexicographic lists of index pairs and triples.
*/
module Combos {
  import opened Domain
  import opened Seqs
  import opened Overlap

  /** A basket: the ETFs of one combination, in enumeration order. */
  type Basket = seq<ETF>

  // ---------------------------------------------------------------
  // Index enumerations, built in the order of the nested loops
  // ---------------------------------------------------------------

  /** The pairs (i, j') with i < j' < j, in increasing j'. */
  function Row2(i: nat, j: nat): seq<(nat, nat)>
    decreases j
  {
    if j <= i + 1 then [] else Row2(i, j - 1) + [(i, j - 1)]
  }

  /** The pairs whose first index is below i, in lexicographic order. */
  function Pairs2(i: nat, n: nat): seq<(nat, nat)>
  {
    if i == 0 then [] else Pairs2(i - 1, n) + Row2(i - 1, n)
  }

  /** All index pairs i < j < n, in lexicographic order. */
  function Pairs(n: nat): seq<(nat, nat)>
  {
    Pairs2(n, n)
  }

  /** The triples (i, j, k') with j < k' < k, in increasing k'. */
  function Row3(i: nat, j: nat, k: nat): seq<(nat, nat, nat)>
    decreases k
  {
    if k <= j + 1 then [] else Row3(i, j, k - 1) + [(i, j, k - 1)]
  }

  /** The triples with first index i and middle index below j. */
  function Plane3(i: nat, j: nat, n: nat): seq<(nat, nat, nat)>
    decreases j
  {
    if j <= i + 1 then [] else Plane3(i, j - 1, n) + Row3(i, j - 1, n)
  }

  /** The triples whose first index is below i, in lexicographic order. */
  function Triples3(i: nat, n: nat): seq<(nat, nat, nat)>
  {
    if i == 0 then [] else Triples3(i - 1, n) + Plane3(i - 1, n, n)
  }

  /** All index triples i < j < k < n, in lexicographic order. */
  function Triples(n: nat): seq<(nat, nat, nat)>
  {
    Triples3(n, n)
  }

  /** Every pair is increasing and below n. */
  predicate PairsValid(ps: seq<(nat, nat)>, n: nat)
  {
    forall t :: 0 <= t < |ps| ==> ps[t].0 < ps[t].1 < n
  }

  /** Every triple is increasing and below n. */
  predicate TriplesValid(ts: seq<(nat, nat, nat)>, n: nat)
  {
    forall t :: 0 <= t < |ts| ==> ts[t].0 < ts[t].1 < ts[t].2 < n
  }

  predicate LexLess2(p: (nat, nat), q: (nat, nat))
  {
    p.0 < q.0 || (p.0 == q.0 && p.1 < q.1)
  }

  predicate LexLess3(p: (nat, nat, nat), q: (nat, nat, nat))
  {
    p.0 < q.0 || (p.0 == q.0 && (p.1 < q.1 || (p.1 == q.1 && p.2 < q.2)))
  }

  predicate LexIncreasing2(ps: seq<(nat, nat)>)
  {
    forall s, t :: 0 <= s < t < |ps| ==> LexLess2(ps[s], ps[t])
  }

  predicate LexIncreasing3(ts: seq<(nat, nat, nat)>)
  {
    forall s, t :: 0 <= s < t < |ts| ==> LexLess3(ts[s], ts[t])
  }

  // ---------------------------------------------------------------
  // From indices to baskets, and the overlap filter
  // ---------------------------------------------------------------

  /** The basket `[etfs[i], etfs[j]]` of an index pair; an index past the end gives no ETFs. */
  function PairBasket(etfs: seq<ETF>, p: (nat, nat)): Basket
  {
    if p.0 < |etfs| && p.1 < |etfs| then [etfs[p.0], etfs[p.1]] else []
  }

  /** The basket `[etfs[i], etfs[j], etfs[k]]` of an index triple; an index past the end gives no ETFs. */
  function TripleBasket(etfs: seq<ETF>, p: (nat, nat, nat)): Basket
  {
    if p.0 < |etfs| && p.1 < |etfs| && p.2 < |etfs| then [etfs[p.0], etfs[p.1], etfs[p.2]] else []
  }

  /** The baskets of the listed pairs, in order. */
  function Lift2(etfs: seq<ETF>, ps: seq<(nat, nat)>): (r: seq<Basket>)
    ensures |r| == |ps|
    ensures forall t :: 0 <= t < |ps| ==> r[t] == PairBasket(etfs, ps[t])
  {
    seq(|ps|, t requires 0 <= t < |ps| => PairBasket(etfs, ps[t]))
  }

  /** The baskets of the listed triples, in order. */
  function Lift3(etfs: seq<ETF>, ts: seq<(nat, nat, nat)>): (r: seq<Basket>)
    ensures |r| == |ts|
    ensures forall t :: 0 <= t < |ts| ==> r[t] == TripleBasket(etfs, ts[t])
  {
    seq(|ts|, t requires 0 <= t < |ts| => TripleBasket(etfs, ts[t]))
  }

  /** The soft-overlap test of `computeTwoETFCombos`, on indices within the list. */
  predicate SoftPair(etfs: seq<ETF>, p: (nat, nat))
  {
    p.0 < |etfs| && p.1 < |etfs| && StageOverlap(etfs[p.0], etfs[p.1]) <= 1
  }

  /** The soft-overlap test of `computeThreeETFCombos`: every one of the three pairs. */
  predicate SoftTriple(etfs: seq<ETF>, p: (nat, nat, nat))
  {
    p.0 < |etfs| && p.1 < |etfs| && p.2 < |etfs| &&
    StageOverlap(etfs[p.0], etfs[p.1]) <= 1 &&
    StageOverlap(etfs[p.0], etfs[p.2]) <= 1 &&
    StageOverlap(etfs[p.1], etfs[p.2]) <= 1
  }

  /** The listed pairs that pass the soft-overlap test, in order. */
  function SoftPairs(etfs: seq<ETF>, ps: seq<(nat, nat)>): seq<(nat, nat)>
  {
    if ps == [] then []
    else
      var last := ps[|ps| - 1];
      SoftPairs(etfs, ps[..|ps| - 1]) + (if SoftPair(etfs, last) then [last] else [])
  }

  /** The listed triples that pass the soft-overlap test, in order. */
  function SoftTriples(etfs: seq<ETF>, ts: seq<(nat, nat, nat)>): seq<(nat, nat, nat)>
  {
    if ts == [] then []
    else
      var last := ts[|ts| - 1];
      SoftTriples(etfs, ts[..|ts| - 1]) + (if SoftTriple(etfs, last) then [last] else [])
  }

  /** The listed pairs an enumerator keeps: those passing the soft-overlap test, or all of them. */
  function KeptPairs(etfs: seq<ETF>, ps: seq<(nat, nat)>, filtered: bool): seq<(nat, nat)>
  {
    if filtered then SoftPairs(etfs, ps) else ps
  }

  /** The listed triples an enumerator keeps: those passing the soft-overlap test, or all of them. */
  function KeptTriples(etfs: seq<ETF>, ts: seq<(nat, nat, nat)>, filtered: bool): seq<(nat, nat, nat)>
  {
    if filtered then SoftTriples(etfs, ts) else ts
  }

  // ---------------------------------------------------------------
  // Appending to index lists
  // ---------------------------------------------------------------

  lemma ConcatAssoc<T>(a: seq<T>, b: seq<T>, c: seq<T>)
    ensures a + (b + c) == a + b + c
  {
  }

  lemma Lift2Snoc(etfs: seq<ETF>, ps: seq<(nat, nat)>, p: (nat, nat))
    ensures Lift2(etfs, ps + [p]) == Lift2(etfs, ps) + [PairBasket(etfs, p)]
  {
  }

  lemma Lift3Snoc(etfs: seq<ETF>, ts: seq<(nat, nat, nat)>, p: (nat, nat, nat))
    ensures Lift3(etfs, ts + [p]) == Lift3(etfs, ts) + [TripleBasket(etfs, p)]
  {
  }

  lemma Lift2Append(etfs: seq<ETF>, a: seq<(nat, nat)>, b: seq<(nat, nat)>)
    ensures Lift2(etfs, a + b) == Lift2(etfs, a) + Lift2(etfs, b)
  {
  }

  lemma Lift3Append(etfs: seq<ETF>, a: seq<(nat, nat, nat)>, b: seq<(nat, nat, nat)>)
    ensures Lift3(etfs, a + b) == Lift3(etfs, a) + Lift3(etfs, b)
  {
  }

  lemma SoftPairsSnoc(etfs: seq<ETF>, ps: seq<(nat, nat)>, p: (nat, nat))
    ensures SoftPairs(etfs, ps + [p]) == SoftPairs(etfs, ps) + (if SoftPair(etfs, p) then [p] else [])
  {
    assert (ps + [p])[..|ps|] == ps;
  }

  lemma SoftTriplesSnoc(etfs: seq<ETF>, ts: seq<(nat, nat, nat)>, p: (nat, nat, nat))
    ensures SoftTriples(etfs, ts + [p]) == SoftTriples(etfs, ts) + (if SoftTriple(etfs, p) then [p] else [])
  {
    assert (ts + [p])[..|ts|] == ts;
  }

  /** Filtering distributes over concatenation. */
  lemma {:induction false} SoftPairsAppend(etfs: seq<ETF>, a: seq<(nat, nat)>, b: seq<(nat, nat)>)
    ensures SoftPairs(etfs, a + b) == SoftPairs(etfs, a) + SoftPairs(etfs, b)
    decreases |b|
  {
    if b == [] {
      assert a + b == a;
    } else {
      var init, last := b[..|b| - 1], b[|b| - 1];
      assert b == init + [last];
      SoftPairsAppend(etfs, a, init);
      ConcatAssoc(a, init, [last]);
      SoftPairsSnoc(etfs, a + init, last);
      SoftPairsSnoc(etfs, init, last);
      ConcatAssoc(SoftPairs(etfs, a), SoftPairs(etfs, init), if SoftPair(etfs, last) then [last] else []);
    }
  }

  /** Filtering distributes over concatenation. */
  lemma {:induction false} SoftTriplesAppend(etfs: seq<ETF>, a: seq<(nat, nat, nat)>, b: seq<(nat, nat, nat)>)
    ensures SoftTriples(etfs, a + b) == SoftTriples(etfs, a) + SoftTriples(etfs, b)
    decreases |b|
  {
    if b == [] {
      assert a + b == a;
    } else {
      var init, last := b[..|b| - 1], b[|b| - 1];
      assert b == init + [last];
      SoftTriplesAppend(etfs, a, init);
      ConcatAssoc(a, init, [last]);
      SoftTriplesSnoc(etfs, a + init, last);
      SoftTriplesSnoc(etfs, init, last);
      ConcatAssoc(SoftTriples(etfs, a), SoftTriples(etfs, init), if SoftTriple(etfs, last) then [last] else []);
    }
  }

  /** Appending one index pair extends the lifted kept pairs by its basket, if kept. */
  lemma KeptPairsSnoc(etfs: seq<ETF>, ps: seq<(nat, nat)>, p: (nat, nat), filtered: bool, prev: seq<Basket>)
    requires prev == Lift2(etfs, KeptPairs(etfs, ps, filtered))
    ensures Lift2(etfs, KeptPairs(etfs, ps + [p], filtered)) ==
      prev + (if !filtered || SoftPair(etfs, p) then [PairBasket(etfs, p)] else [])
  {
    SoftPairsSnoc(etfs, ps, p);
    if !filtered || SoftPair(etfs, p) {
      Lift2Snoc(etfs, KeptPairs(etfs, ps, filtered), p);
    }
  }

  /** Appending one index triple extends the lifted kept triples by its basket, if kept. */
  lemma KeptTriplesSnoc(etfs: seq<ETF>, ts: seq<(nat, nat, nat)>, p: (nat, nat, nat), filtered: bool, prev: seq<Basket>)
    requires prev == Lift3(etfs, KeptTriples(etfs, ts, filtered))
    ensures Lift3(etfs, KeptTriples(etfs, ts + [p], filtered)) ==
      prev + (if !filtered || SoftTriple(etfs, p) then [TripleBasket(etfs, p)] else [])
  {
    SoftTriplesSnoc(etfs, ts, p);
    if !filtered || SoftTriple(etfs, p) {
      Lift3Snoc(etfs, KeptTriples(etfs, ts, filtered), p);
    }
  }

  /** Lifting the kept pairs of a concatenation concatenates the lifted parts. */
  lemma KeptPairsAppend(etfs: seq<ETF>, a: seq<(nat, nat)>, b: seq<(nat, nat)>, filtered: bool,
                        liftedA: seq<Basket>, liftedB: seq<Basket>)
    requires liftedA == Lift2(etfs, KeptPairs(etfs, a, filtered))
    requires liftedB == Lift2(etfs, KeptPairs(etfs, b, filtered))
    ensures Lift2(etfs, KeptPairs(etfs, a + b, filtered)) == liftedA + liftedB
  {
    SoftPairsAppend(etfs, a, b);
    Lift2Append(etfs, KeptPairs(etfs, a, filtered), KeptPairs(etfs, b, filtered));
  }

  /** Lifting the kept triples of a concatenation concatenates the lifted parts. */
  lemma KeptTriplesAppend(etfs: seq<ETF>, a: seq<(nat, nat, nat)>, b: seq<(nat, nat, nat)>, filtered: bool,
                          liftedA: seq<Basket>, liftedB: seq<Basket>)
    requires liftedA == Lift3(etfs, KeptTriples(etfs, a, filtered))
    requires liftedB == Lift3(etfs, KeptTriples(etfs, b, filtered))
    ensures Lift3(etfs, KeptTriples(etfs, a + b, filtered)) == liftedA + liftedB
  {
    SoftTriplesAppend(etfs, a, b);
    Lift3Append(etfs, KeptTriples(etfs, a, filtered), KeptTriples(etfs, b, filtered));
  }

  lemma KeptPairsEmpty(etfs: seq<ETF>, filtered: bool)
    ensures Lift2(etfs, KeptPairs(etfs, [], filtered)) == []
  {
    assert KeptPairs(etfs, [], filtered) == [];
  }

  lemma KeptTriplesEmpty(etfs: seq<ETF>, filtered: bool)
    ensures Lift3(etfs, KeptTriples(etfs, [], filtered)) == []
  {
    assert KeptTriples(etfs, [], filtered) == [];
  }

  // ---------------------------------------------------------------
  // The baskets the nested loops have produced, loop level by loop level
  // ---------------------------------------------------------------

  /** The baskets of pairs (i, j') with i < j' < j; only the soft ones when filtered. */
  function PairRowBaskets(etfs: seq<ETF>, i: nat, j: nat, filtered: bool): seq<Basket>
    requires i < |etfs| && j <= |etfs|
    decreases j
  {
    if j <= i + 1 then []
    else
      PairRowBaskets(etfs, i, j - 1, filtered) +
      (if !filtered || SoftPair(etfs, (i, j - 1)) then [[etfs[i], etfs[j - 1]]] else [])
  }

  /** The baskets of pairs whose first index is below i. */
  function PairBaskets(etfs: seq<ETF>, i: nat, filtered: bool): seq<Basket>
    requires i <= |etfs|
  {
    if i == 0 then [] else PairBaskets(etfs, i - 1, filtered) + PairRowBaskets(etfs, i - 1, |etfs|, filtered)
  }

  /** The baskets of triples (i, j, k') with j < k' < k. */
  function TripleRowBaskets(etfs: seq<ETF>, i: nat, j: nat, k: nat, filtered: bool): seq<Basket>
    requires i < j < |etfs| && k <= |etfs|
    decreases k
  {
    if k <= j + 1 then []
    else
      TripleRowBaskets(etfs, i, j, k - 1, filtered) +
      (if !filtered || SoftTriple(etfs, (i, j, k - 1)) then [[etfs[i], etfs[j], etfs[k - 1]]] else [])
  }

  /** The baskets of triples with first index i and middle index below j. */
  function TriplePlaneBaskets(etfs: seq<ETF>, i: nat, j: nat, filtered: bool): seq<Basket>
    requires i < |etfs| && j <= |etfs|
    decreases j
  {
    if j <= i + 1 then []
    else TriplePlaneBaskets(etfs, i, j - 1, filtered) + TripleRowBaskets(etfs, i, j - 1, |etfs|, filtered)
  }

  /** The baskets of triples whose first index is below i. */
  function TripleBaskets(etfs: seq<ETF>, i: nat, filtered: bool): seq<Basket>
    requires i <= |etfs|
  {
    if i == 0 then [] else TripleBaskets(etfs, i - 1, filtered) + TriplePlaneBaskets(etfs, i - 1, |etfs|, filtered)
  }

  // One more iteration of each loop, in the form the loop invariants use.

  lemma PairRowNext(etfs: seq<ETF>, i: nat, j: nat, filtered: bool)
    requires i < j < |etfs|
    ensures PairRowBaskets(etfs, i, j + 1, filtered) ==
      PairRowBaskets(etfs, i, j, filtered) + (if !filtered || SoftPair(etfs, (i, j)) then [[etfs[i], etfs[j]]] else [])
  {
  }

  lemma PairBasketsNext(etfs: seq<ETF>, i: nat, filtered: bool)
    requires i < |etfs|
    ensures PairBaskets(etfs, i + 1, filtered) == PairBaskets(etfs, i, filtered) + PairRowBaskets(etfs, i, |etfs|, filtered)
  {
  }

  lemma TripleRowNext(etfs: seq<ETF>, i: nat, j: nat, k: nat, filtered: bool)
    requires i < j < k < |etfs|
    ensures TripleRowBaskets(etfs, i, j, k + 1, filtered) ==
      TripleRowBaskets(etfs, i, j, k, filtered) +
      (if !filtered || SoftTriple(etfs, (i, j, k)) then [[etfs[i], etfs[j], etfs[k]]] else [])
  {
  }

  lemma TriplePlaneNext(etfs: seq<ETF>, i: nat, j: nat, filtered: bool)
    requires i < j < |etfs|
    ensures TriplePlaneBaskets(etfs, i, j + 1, filtered) ==
      TriplePlaneBaskets(etfs, i, j, filtered) + TripleRowBaskets(etfs, i, j, |etfs|, filtered)
  {
  }

  lemma TripleBasketsNext(etfs: seq<ETF>, i: nat, filtered: bool)
    requires i < |etfs|
    ensures TripleBaskets(etfs, i + 1, filtered) ==
      TripleBaskets(etfs, i, filtered) + TriplePlaneBaskets(etfs, i, |etfs|, filtered)
  {
  }

  // The empty cases of the correspondences below.

  lemma PairRowBasketsNone(etfs: seq<ETF>, i: nat, j: nat, filtered: bool)
    requires i < |etfs| && j <= i + 1
    ensures PairRowBaskets(etfs, i, j, filtered) == Lift2(etfs, KeptPairs(etfs, Row2(i, j), filtered))
  {
    KeptPairsEmpty(etfs, filtered);
  }

  lemma PairBasketsNone(etfs: seq<ETF>, filtered: bool)
    ensures PairBaskets(etfs, 0, filtered) == Lift2(etfs, KeptPairs(etfs, Pairs2(0, |etfs|), filtered))
  {
    KeptPairsEmpty(etfs, filtered);
  }

  lemma TripleRowBasketsNone(etfs: seq<ETF>, i: nat, j: nat, k: nat, filtered: bool)
    requires i < j < |etfs| && k <= j + 1
    ensures TripleRowBaskets(etfs, i, j, k, filtered) == Lift3(etfs, KeptTriples(etfs, Row3(i, j, k), filtered))
  {
    KeptTriplesEmpty(etfs, filtered);
  }

  lemma TriplePlaneBasketsNone(etfs: seq<ETF>, i: nat, j: nat, filtered: bool)
    requires i < |etfs| && j <= i + 1
    ensures TriplePlaneBaskets(etfs, i, j, filtered) ==
      Lift3(etfs, KeptTriples(etfs, Plane3(i, j, |etfs|), filtered))
  {
    KeptTriplesEmpty(etfs, filtered);
  }

  lemma TripleBasketsNone(etfs: seq<ETF>, filtered: bool)
    ensures TripleBaskets(etfs, 0, filtered) == Lift3(etfs, KeptTriples(etfs, Triples3(0, |etfs|), filtered))
  {
    KeptTriplesEmpty(etfs, filtered);
  }

  /** One more pair of the row keeps the row of baskets equal to the lifted kept pairs. */
  lemma PairRowLiftStep(etfs: seq<ETF>, i: nat, j: nat, filtered: bool)
    requires i + 1 < j <= |etfs|
    ensures PairRowBaskets(etfs, i, j, filtered) == Lift2(etfs, KeptPairs(etfs, Row2(i, j), filtered))
    decreases j, 0
  {
    PairRowBasketsLifted(etfs, i, j - 1, filtered);
    KeptPairsSnoc(etfs, Row2(i, j - 1), (i, j - 1), filtered, PairRowBaskets(etfs, i, j - 1, filtered));
  }

  /** A row of pair baskets is the lifted row of kept index pairs. */
  lemma {:induction false} PairRowBasketsLifted(etfs: seq<ETF>, i: nat, j: nat, filtered: bool)
    requires i < |etfs| && j <= |etfs|
    ensures PairRowBaskets(etfs, i, j, filtered) == Lift2(etfs, KeptPairs(etfs, Row2(i, j), filtered))
    decreases j, 1
  {
    if j > i + 1 {
      PairRowLiftStep(etfs, i, j, filtered);
    } else {
      PairRowBasketsNone(etfs, i, j, filtered);
    }
  }

  /** One more row keeps the pair baskets equal to the lifted kept pairs. */
  lemma PairLiftStep(etfs: seq<ETF>, i: nat, filtered: bool)
    requires 0 < i <= |etfs|
    ensures PairBaskets(etfs, i, filtered) == Lift2(etfs, KeptPairs(etfs, Pairs2(i, |etfs|), filtered))
    decreases i, 0
  {
    var m: nat, n: nat := i - 1, |etfs|;
    PairBasketsLifted(etfs, m, filtered);
    PairRowBasketsLifted(etfs, m, n, filtered);
    KeptPairsAppend(etfs, Pairs2(m, n), Row2(m, n), filtered, PairBaskets(etfs, m, filtered), PairRowBaskets(etfs, m, n, filtered));
  }

  /** The pair baskets below row i are the lifted kept pairs below row i. */
  lemma {:induction false} PairBasketsLifted(etfs: seq<ETF>, i: nat, filtered: bool)
    requires i <= |etfs|
    ensures PairBaskets(etfs, i, filtered) == Lift2(etfs, KeptPairs(etfs, Pairs2(i, |etfs|), filtered))
    decreases i, 1
  {
    if i > 0 {
      PairLiftStep(etfs, i, filtered);
    } else {
      PairBasketsNone(etfs, filtered);
    }
  }

  /** One more triple of the row keeps the row of baskets equal to the lifted kept triples. */
  lemma TripleRowLiftStep(etfs: seq<ETF>, i: nat, j: nat, k: nat, filtered: bool)
    requires i < j && j + 1 < k <= |etfs|
    ensures TripleRowBaskets(etfs, i, j, k, filtered) == Lift3(etfs, KeptTriples(etfs, Row3(i, j, k), filtered))
    decreases k, 0
  {
    TripleRowBasketsLifted(etfs, i, j, k - 1, filtered);
    KeptTriplesSnoc(etfs, Row3(i, j, k - 1), (i, j, k - 1), filtered, TripleRowBaskets(etfs, i, j, k - 1, filtered));
  }

  /** A row of triple baskets is the lifted row of kept index triples. */
  lemma {:induction false} TripleRowBasketsLifted(etfs: seq<ETF>, i: nat, j: nat, k: nat, filtered: bool)
    requires i < j < |etfs| && k <= |etfs|
    ensures TripleRowBaskets(etfs, i, j, k, filtered) == Lift3(etfs, KeptTriples(etfs, Row3(i, j, k), filtered))
    decreases k, 1
  {
    if k > j + 1 {
      TripleRowLiftStep(etfs, i, j, k, filtered);
    } else {
      TripleRowBasketsNone(etfs, i, j, k, filtered);
    }
  }

  /** One more row keeps the plane of triple baskets equal to the lifted kept triples. */
  lemma TriplePlaneLiftStep(etfs: seq<ETF>, i: nat, j: nat, filtered: bool)
    requires i + 1 < j <= |etfs|
    ensures TriplePlaneBaskets(etfs, i, j, filtered) ==
      Lift3(etfs, KeptTriples(etfs, Plane3(i, j, |etfs|), filtered))
    decreases j, 0
  {
    var m: nat, n: nat := j - 1, |etfs|;
    TriplePlaneBasketsLifted(etfs, i, m, filtered);
    TripleRowBasketsLifted(etfs, i, m, n, filtered);
    KeptTriplesAppend(etfs, Plane3(i, m, n), Row3(i, m, n), filtered,
      TriplePlaneBaskets(etfs, i, m, filtered), TripleRowBaskets(etfs, i, m, n, filtered));
  }

  /** A plane of triple baskets is the lifted plane of kept index triples. */
  lemma {:induction false} TriplePlaneBasketsLifted(etfs: seq<ETF>, i: nat, j: nat, filtered: bool)
    requires i < |etfs| && j <= |etfs|
    ensures TriplePlaneBaskets(etfs, i, j, filtered) ==
      Lift3(etfs, KeptTriples(etfs, Plane3(i, j, |etfs|), filtered))
    decreases j, 1
  {
    if j > i + 1 {
      TriplePlaneLiftStep(etfs, i, j, filtered);
    } else {
      TriplePlaneBasketsNone(etfs, i, j, filtered);
    }
  }

  /** One more plane keeps the triple baskets equal to the lifted kept triples. */
  lemma TripleLiftStep(etfs: seq<ETF>, i: nat, filtered: bool)
    requires 0 < i <= |etfs|
    ensures TripleBaskets(etfs, i, filtered) == Lift3(etfs, KeptTriples(etfs, Triples3(i, |etfs|), filtered))
    decreases i, 0
  {
    var m: nat, n: nat := i - 1, |etfs|;
    TripleBasketsLifted(etfs, m, filtered);
    TriplePlaneBasketsLifted(etfs, m, n, filtered);
    KeptTriplesAppend(etfs, Triples3(m, n), Plane3(m, n, n), filtered,
      TripleBaskets(etfs, m, filtered), TriplePlaneBaskets(etfs, m, n, filtered));
  }

  /** The triple baskets below plane i are the lifted kept triples below plane i. */
  lemma {:induction false} TripleBasketsLifted(etfs: seq<ETF>, i: nat, filtered: bool)
    requires i <= |etfs|
    ensures TripleBaskets(etfs, i, filtered) == Lift3(etfs, KeptTriples(etfs, Triples3(i, |etfs|), filtered))
    decreases i, 1
  {
    if i > 0 {
      TripleLiftStep(etfs, i, filtered);
    } else {
      TripleBasketsNone(etfs, filtered);
    }
  }

  // ---------------------------------------------------------------
  // The three enumerators
  // ---------------------------------------------------------------

  /** `computeTwoETFCombos`: the soft pairs, in lexicographic index order. */
  method ComputeTwoETFCombos(etfs: seq<ETF>) returns (combos: seq<Basket>)
    ensures combos == Lift2(etfs, SoftPairs(etfs, Pairs(|etfs|)))
  {
    var n: nat := |etfs|;
    combos := [];
    for i: nat := 0 to n
      invariant combos == PairBaskets(etfs, i, true)
    {
      combos := SoftPairsRow(etfs, i, combos);
      PairBasketsNext(etfs, i, true);
    }
    PairBasketsLifted(etfs, n, true);
  }

  /** The inner loop of `computeTwoETFCombos`: the second index runs over i + 1 .. n - 1. */
  method SoftPairsRow(etfs: seq<ETF>, i: nat, combos0: seq<Basket>) returns (combos: seq<Basket>)
    requires i < |etfs|
    ensures combos == combos0 + PairRowBaskets(etfs, i, |etfs|, true)
  {
    var n: nat := |etfs|;
    combos := combos0;
    for j: nat := i + 1 to n
      invariant combos == combos0 + PairRowBaskets(etfs, i, j, true)
    {
      PairRowNext(etfs, i, j, true);
      var a := etfs[i];
      var b := etfs[j];
      if StageOverlap(a, b) <= 1 {
        ConcatAssoc(combos0, PairRowBaskets(etfs, i, j, true), [[a, b]]);
        combos := combos + [[a, b]];
      }
    }
  }

  /** `computeThreeETFCombos`: the soft triples, in lexicographic index order. */
  method ComputeThreeETFCombos(etfs: seq<ETF>) returns (combos: seq<Basket>)
    ensures combos == Lift3(etfs, SoftTriples(etfs, Triples(|etfs|)))
  {
    var n: nat := |etfs|;
    combos := [];
    for i: nat := 0 to n
      invariant combos == TripleBaskets(etfs, i, true)
    {
      for j: nat := i + 1 to n
        invariant combos == TripleBaskets(etfs, i, true) + TriplePlaneBaskets(etfs, i, j, true)
      {
        TriplePlaneNext(etfs, i, j, true);
        ConcatAssoc(TripleBaskets(etfs, i, true), TriplePlaneBaskets(etfs, i, j, true),
          TripleRowBaskets(etfs, i, j, n, true));
        combos := SoftTriplesRow(etfs, i, j, combos);
      }
      TripleBasketsNext(etfs, i, true);
    }
    TripleBasketsLifted(etfs, n, true);
  }

  /** The innermost loop of `computeThreeETFCombos`: the third index runs over j + 1 .. n - 1. */
  method SoftTriplesRow(etfs: seq<ETF>, i: nat, j: nat, combos0: seq<Basket>) returns (combos: seq<Basket>)
    requires i < j < |etfs|
    ensures combos == combos0 + TripleRowBaskets(etfs, i, j, |etfs|, true)
  {
    var n: nat := |etfs|;
    combos := combos0;
    for k: nat := j + 1 to n
      invariant combos == combos0 + TripleRowBaskets(etfs, i, j, k, true)
    {
      TripleRowNext(etfs, i, j, k, true);
      var a := etfs[i];
      var b := etfs[j];
      var c := etfs[k];
      if StageOverlap(a, b) <= 1 && StageOverlap(a, c) <= 1 && StageOverlap(b, c) <= 1 {
        ConcatAssoc(combos0, TripleRowBaskets(etfs, i, j, k, true), [[a, b, c]]);
        combos := combos + [[a, b, c]];
      }
    }
  }

  /**
    The loop inside `App`: every pair, and every triple right after its first two members'
    pair, without any overlap filter.
  */
  method EnumerateBaskets(topETFs: seq<ETF>) returns (twoETFCombos: seq<Basket>, threeETFCombos: seq<Basket>)
    ensures twoETFCombos == Lift2(topETFs, Pairs(|topETFs|))
    ensures threeETFCombos == Lift3(topETFs, Triples(|topETFs|))
  {
    var n: nat := |topETFs|;
    twoETFCombos, threeETFCombos := [], [];
    for i: nat := 0 to n
      invariant twoETFCombos == PairBaskets(topETFs, i, false)
      invariant threeETFCombos == TripleBaskets(topETFs, i, false)
    {
      twoETFCombos, threeETFCombos := BasketsFrom(topETFs, i, twoETFCombos, threeETFCombos);
    }
    PairBasketsLifted(topETFs, n, false);
    TripleBasketsLifted(topETFs, n, false);
  }

  /** The middle loop inside `App`: the pairs and triples whose first index is i. */
  method BasketsFrom(topETFs: seq<ETF>, i: nat, two0: seq<Basket>, three0: seq<Basket>)
    returns (twoETFCombos: seq<Basket>, threeETFCombos: seq<Basket>)
    requires i < |topETFs|
    requires two0 == PairBaskets(topETFs, i, false) && three0 == TripleBaskets(topETFs, i, false)
    ensures twoETFCombos == PairBaskets(topETFs, i + 1, false)
    ensures threeETFCombos == TripleBaskets(topETFs, i + 1, false)
  {
    var n: nat := |topETFs|;
    twoETFCombos, threeETFCombos := two0, three0;
    for j: nat := i + 1 to n
      invariant twoETFCombos == two0 + PairRowBaskets(topETFs, i, j, false)
      invariant threeETFCombos == three0 + TriplePlaneBaskets(topETFs, i, j, false)
    {
      PairRowNext(topETFs, i, j, false);
      TriplePlaneNext(topETFs, i, j, false);
      ConcatAssoc(two0, PairRowBaskets(topETFs, i, j, false), [[topETFs[i], topETFs[j]]]);
      twoETFCombos := twoETFCombos + [[topETFs[i], topETFs[j]]];
      ConcatAssoc(three0, TriplePlaneBaskets(topETFs, i, j, false), TripleRowBaskets(topETFs, i, j, n, false));
      threeETFCombos := TriplesRow(topETFs, i, j, threeETFCombos);
    }
    PairBasketsNext(topETFs, i, false);
    TripleBasketsNext(topETFs, i, false);
  }

  /** The innermost loop inside `App`: every triple (i, j, k) for k in j + 1 .. n - 1. */
  method TriplesRow(topETFs: seq<ETF>, i: nat, j: nat, three0: seq<Basket>) returns (threeETFCombos: seq<Basket>)
    requires i < j < |topETFs|
    ensures threeETFCombos == three0 + TripleRowBaskets(topETFs, i, j, |topETFs|, false)
  {
    var n: nat := |topETFs|;
    threeETFCombos := three0;
    for k: nat := j + 1 to n
      invariant threeETFCombos == three0 + TripleRowBaskets(topETFs, i, j, k, false)
    {
      TripleRowNext(topETFs, i, j, k, false);
      ConcatAssoc(three0, TripleRowBaskets(topETFs, i, j, k, false), [[topETFs[i], topETFs[j], topETFs[k]]]);
      threeETFCombos := threeETFCombos + [[topETFs[i], topETFs[j], topETFs[k]]];
    }
  }

  // ---------------------------------------------------------------
  // Shape of the index enumerations
  // ---------------------------------------------------------------

  /** Row (i, j) lists (i, i + 1), ..., (i, j - 1). */
  lemma {:induction false} Row2Shape(i: nat, j: nat)
    ensures |Row2(i, j)| == if j > i + 1 then j - i - 1 else 0
    ensures forall t :: 0 <= t < |Row2(i, j)| ==> Row2(i, j)[t] == (i, i + 1 + t)
    decreases j
  {
    if j > i + 1 {
      Row2Shape(i, j - 1);
    }
  }

  /** The pairs below row i are valid, start below i, and come in strictly increasing lexicographic order. */
  lemma {:induction false} Pairs2Ordered(i: nat, n: nat)
    requires i <= n
    ensures PairsValid(Pairs2(i, n), n)
    ensures forall t :: 0 <= t < |Pairs2(i, n)| ==> Pairs2(i, n)[t].0 < i
    ensures LexIncreasing2(Pairs2(i, n))
  {
    if i > 0 {
      Pairs2Ordered(i - 1, n);
      Row2Shape(i - 1, n);
      var a, b := Pairs2(i - 1, n), Row2(i - 1, n);
      assert Pairs2(i, n) == a + b;
      forall s, t | 0 <= s < t < |a + b|
        ensures LexLess2((a + b)[s], (a + b)[t])
      {
        if t < |a| {
          assert LexLess2(a[s], a[t]);
        } else if s < |a| {
          assert a[s].0 < i - 1 && b[t - |a|].0 == i - 1;
        } else {
          assert b[s - |a|].1 < b[t - |a|].1;
        }
      }
    }
  }

  /** Every pair a < b < n with a below i occurs among the pairs below row i. */
  lemma {:induction false} Pairs2Complete(i: nat, n: nat, a: nat, b: nat)
    requires a < i && a < b < n
    ensures (a, b) in Pairs2(i, n)
  {
    if a == i - 1 {
      Row2Shape(i - 1, n);
      assert Row2(i - 1, n)[b - i] == (a, b);
    } else {
      Pairs2Complete(i - 1, n, a, b);
    }
  }

  /** The number of pairs below row i. */
  lemma {:induction false} Pairs2Length(i: nat, n: nat)
    requires i <= n
    ensures 2 * |Pairs2(i, n)| == i * (2 * n - i - 1)
  {
    if i > 0 {
      Pairs2Length(i - 1, n);
      Row2Shape(i - 1, n);
      assert |Pairs2(i, n)| == |Pairs2(i - 1, n)| + (n - i);
      PairsStepArith(i, n);
    }
  }

  lemma PairsStepArith(i: int, n: int)
    ensures (i - 1) * (2 * n - i) + 2 * (n - i) == i * (2 * n - i - 1)
  {
  }

  lemma PairsListValid(n: nat)
    ensures PairsValid(Pairs(n), n)
  {
    Pairs2Ordered(n, n);
  }

  /**
    The pair enumeration lists exactly the index pairs i < j < n, each once, in strictly
    increasing lexicographic order, and there are n(n - 1)/2 of them.
  */
  lemma PairsEnumeration(n: nat)
    ensures PairsValid(Pairs(n), n) && LexIncreasing2(Pairs(n))
    ensures forall a: nat, b: nat :: a < b < n ==> (a, b) in Pairs(n)
    ensures 2 * |Pairs(n)| == n * (n - 1)
  {
    Pairs2Ordered(n, n);
    Pairs2Length(n, n);
    forall a: nat, b: nat | a < b < n
      ensures (a, b) in Pairs(n)
    {
      Pairs2Complete(n, n, a, b);
    }
  }

  /** Row (i, j) up to k lists (i, j, j + 1), ..., (i, j, k - 1). */
  lemma {:induction false} Row3Shape(i: nat, j: nat, k: nat)
    ensures |Row3(i, j, k)| == if k > j + 1 then k - j - 1 else 0
    ensures forall t :: 0 <= t < |Row3(i, j, k)| ==> Row3(i, j, k)[t] == (i, j, j + 1 + t)
    decreases k
  {
    if k > j + 1 {
      Row3Shape(i, j, k - 1);
    }
  }

  /** Plane i up to middle index j: valid triples with first index i and middle index below j, in order. */
  lemma {:induction false} Plane3Ordered(i: nat, j: nat, n: nat)
    requires j <= n
    ensures TriplesValid(Plane3(i, j, n), n)
    ensures forall t :: 0 <= t < |Plane3(i, j, n)| ==> Plane3(i, j, n)[t].0 == i && Plane3(i, j, n)[t].1 < j
    ensures LexIncreasing3(Plane3(i, j, n))
    decreases j
  {
    if j > i + 1 {
      Plane3Ordered(i, j - 1, n);
      Row3Shape(i, j - 1, n);
      var a, b := Plane3(i, j - 1, n), Row3(i, j - 1, n);
      assert Plane3(i, j, n) == a + b;
      forall s, t | 0 <= s < t < |a + b|
        ensures LexLess3((a + b)[s], (a + b)[t])
      {
        if t < |a| {
          assert LexLess3(a[s], a[t]);
        } else if s < |a| {
          assert a[s].0 == i && a[s].1 < j - 1 && b[t - |a|].0 == i && b[t - |a|].1 == j - 1;
        } else {
          assert b[s - |a|].2 < b[t - |a|].2;
        }
      }
    }
  }

  /** Every triple (i, b, c) with i < b < j and b < c < n occurs in plane i up to j. */
  lemma {:induction false} Plane3Complete(i: nat, j: nat, n: nat, b: nat, c: nat)
    requires i < b < j && b < c < n
    ensures (i, b, c) in Plane3(i, j, n)
    decreases j
  {
    if b == j - 1 {
      Row3Shape(i, j - 1, n);
      assert Row3(i, j - 1, n)[c - j] == (i, b, c);
    } else {
      Plane3Complete(i, j - 1, n, b, c);
    }
  }

  /** The size of plane i up to middle index j. */
  lemma {:induction false} Plane3Length(i: nat, j: nat, n: nat)
    requires i < j <= n
    ensures 2 * |Plane3(i, j, n)| == (j - i - 1) * (2 * (n - i - 2) - (j - i - 2))
    decreases j
  {
    if j > i + 1 {
      Plane3Length(i, j - 1, n);
      Row3Shape(i, j - 1, n);
      assert |Row3(i, j - 1, n)| == n - j;
      PlaneStepArith(j - i - 2, n - i - 2);
    }
  }

  lemma PlaneStepArith(m: int, a: int)
    ensures m * (2 * a - (m - 1)) + 2 * (a - m) == (m + 1) * (2 * a - m)
  {
  }

  /** The triples below plane i: valid, starting below i, in strictly increasing lexicographic order. */
  lemma {:induction false} Triples3Ordered(i: nat, n: nat)
    requires i <= n
    ensures TriplesValid(Triples3(i, n), n)
    ensures forall t :: 0 <= t < |Triples3(i, n)| ==> Triples3(i, n)[t].0 < i
    ensures LexIncreasing3(Triples3(i, n))
  {
    if i > 0 {
      Triples3Ordered(i - 1, n);
      Plane3Ordered(i - 1, n, n);
      var a, b := Triples3(i - 1, n), Plane3(i - 1, n, n);
      assert Triples3(i, n) == a + b;
      forall s, t | 0 <= s < t < |a + b|
        ensures LexLess3((a + b)[s], (a + b)[t])
      {
        if t < |a| {
          assert LexLess3(a[s], a[t]);
        } else if s < |a| {
          assert a[s].0 < i - 1 && b[t - |a|].0 == i - 1;
        } else {
          assert LexLess3(b[s - |a|], b[t - |a|]);
        }
      }
    }
  }

  /** Every triple a < b < c < n with a below i occurs among the triples below plane i. */
  lemma {:induction false} Triples3Complete(i: nat, n: nat, a: nat, b: nat, c: nat)
    requires a < i && a < b < c < n
    ensures (a, b, c) in Triples3(i, n)
  {
    if a == i - 1 {
      Plane3Complete(a, n, n, b, c);
    } else {
      Triples3Complete(i - 1, n, a, b, c);
    }
  }

  /** The number of triples below plane i. */
  lemma {:induction false} Triples3Length(i: nat, n: nat)
    requires i <= n
    ensures 6 * |Triples3(i, n)| == n * (n - 1) * (n - 2) - (n - i) * (n - i - 1) * (n - i - 2)
  {
    if i > 0 {
      Triples3Length(i - 1, n);
      Plane3Length(i - 1, n, n);
      TriplesStepArith(n - i);
    }
  }

  lemma TriplesStepArith(m: int)
    ensures m * (2 * (m - 1) - (m - 1)) == m * (m - 1)
    ensures (m + 1) * m * (m - 1) - 3 * (m * (m - 1)) == m * (m - 1) * (m - 2)
  {
  }

  lemma TriplesListValid(n: nat)
    ensures TriplesValid(Triples(n), n)
  {
    Triples3Ordered(n, n);
  }

  /**
    The triple enumeration lists exactly the index triples i < j < k < n, each once, in strictly
    increasing lexicographic order, and there are n(n - 1)(n - 2)/6 of them.
  */
  lemma TriplesEnumeration(n: nat)
    ensures TriplesValid(Triples(n), n) && LexIncreasing3(Triples(n))
    ensures forall a: nat, b: nat, c: nat :: a < b < c < n ==> (a, b, c) in Triples(n)
    ensures 6 * |Triples(n)| == n * (n - 1) * (n - 2)
  {
    Triples3Ordered(n, n);
    Triples3Length(n, n);
    forall a: nat, b: nat, c: nat | a < b < c < n
      ensures (a, b, c) in Triples(n)
    {
      Triples3Complete(n, n, a, b, c);
    }
  }

  // ---------------------------------------------------------------
  // The overlap filter
  // ---------------------------------------------------------------

  /** A pair survives the filter exactly when it is listed and passes the soft-overlap test. */
  lemma {:induction false} SoftPairsMembers(etfs: seq<ETF>, ps: seq<(nat, nat)>, p: (nat, nat))
    ensures p in SoftPairs(etfs, ps) <==> p in ps && SoftPair(etfs, p)
  {
    if ps != [] {
      var init := ps[..|ps| - 1];
      SoftPairsMembers(etfs, init, p);
      assert ps == init + [ps[|ps| - 1]];
    }
  }

  /** A triple survives the filter exactly when it is listed and passes the soft-overlap test. */
  lemma {:induction false} SoftTriplesMembers(etfs: seq<ETF>, ts: seq<(nat, nat, nat)>, p: (nat, nat, nat))
    ensures p in SoftTriples(etfs, ts) <==> p in ts && SoftTriple(etfs, p)
  {
    if ts != [] {
      var init := ts[..|ts| - 1];
      SoftTriplesMembers(etfs, init, p);
      assert ts == init + [ts[|ts| - 1]];
    }
  }

  /** Filtering keeps strictly increasing lexicographic order. */
  lemma {:induction false} SoftPairsOrdered(etfs: seq<ETF>, ps: seq<(nat, nat)>)
    requires LexIncreasing2(ps)
    ensures LexIncreasing2(SoftPairs(etfs, ps))
  {
    if ps != [] {
      var init, last := ps[..|ps| - 1], ps[|ps| - 1];
      SoftPairsOrdered(etfs, init);
      var r := SoftPairs(etfs, init);
      forall s | 0 <= s < |r|
        ensures LexLess2(r[s], last)
      {
        SoftPairsMembers(etfs, init, r[s]);
        var t :| 0 <= t < |init| && init[t] == r[s];
        assert ps[t] == r[s];
      }
    }
  }

  /** Filtering keeps strictly increasing lexicographic order. */
  lemma {:induction false} SoftTriplesOrdered(etfs: seq<ETF>, ts: seq<(nat, nat, nat)>)
    requires LexIncreasing3(ts)
    ensures LexIncreasing3(SoftTriples(etfs, ts))
  {
    if ts != [] {
      var init, last := ts[..|ts| - 1], ts[|ts| - 1];
      SoftTriplesOrdered(etfs, init);
      var r := SoftTriples(etfs, init);
      forall s | 0 <= s < |r|
        ensures LexLess3(r[s], last)
      {
        SoftTriplesMembers(etfs, init, r[s]);
        var t :| 0 <= t < |init| && init[t] == r[s];
        assert ts[t] == r[s];
      }
    }
  }

  /** The filtered baskets are a subsequence of the unfiltered ones. */
  lemma {:induction false} SoftPairsSubsequence(etfs: seq<ETF>, ps: seq<(nat, nat)>)
    ensures IsSubsequence(Lift2(etfs, SoftPairs(etfs, ps)), Lift2(etfs, ps))
    decreases |ps|
  {
    if ps != [] {
      var init, last := ps[..|ps| - 1], ps[|ps| - 1];
      assert ps == init + [last];
      SoftPairsSubsequence(etfs, init);
      Lift2Snoc(etfs, init, last);
      SoftPairsSnoc(etfs, init, last);
      if SoftPair(etfs, last) {
        Lift2Snoc(etfs, SoftPairs(etfs, init), last);
        SubsequenceSnocBoth(Lift2(etfs, SoftPairs(etfs, init)), Lift2(etfs, init), PairBasket(etfs, last));
      } else {
        assert SoftPairs(etfs, init) + [] == SoftPairs(etfs, init);
        SubsequenceSnocRight(Lift2(etfs, SoftPairs(etfs, init)), Lift2(etfs, init), PairBasket(etfs, last));
      }
    }
  }

  /** The filtered baskets are a subsequence of the unfiltered ones. */
  lemma {:induction false} SoftTriplesSubsequence(etfs: seq<ETF>, ts: seq<(nat, nat, nat)>)
    ensures IsSubsequence(Lift3(etfs, SoftTriples(etfs, ts)), Lift3(etfs, ts))
    decreases |ts|
  {
    if ts != [] {
      var init, last := ts[..|ts| - 1], ts[|ts| - 1];
      assert ts == init + [last];
      SoftTriplesSubsequence(etfs, init);
      Lift3Snoc(etfs, init, last);
      SoftTriplesSnoc(etfs, init, last);
      if SoftTriple(etfs, last) {
        Lift3Snoc(etfs, SoftTriples(etfs, init), last);
        SubsequenceSnocBoth(Lift3(etfs, SoftTriples(etfs, init)), Lift3(etfs, init), TripleBasket(etfs, last));
      } else {
        assert SoftTriples(etfs, init) + [] == SoftTriples(etfs, init);
        SubsequenceSnocRight(Lift3(etfs, SoftTriples(etfs, init)), Lift3(etfs, init), TripleBasket(etfs, last));
      }
    }
  }

  // ---------------------------------------------------------------
  // What the enumerators return
  // ---------------------------------------------------------------

  /** Every unfiltered pair basket holds two ETFs of the list, at indices i < j. */
  lemma PairBasketsWellFormed(etfs: seq<ETF>, t: nat)
    requires t < |Pairs(|etfs|)|
    ensures var p := Pairs(|etfs|)[t];
      p.0 < p.1 < |etfs| && Lift2(etfs, Pairs(|etfs|))[t] == [etfs[p.0], etfs[p.1]]
  {
    PairsListValid(|etfs|);
  }

  /** Every unfiltered triple basket holds three ETFs of the list, at indices i < j < k. */
  lemma TripleBasketsWellFormed(etfs: seq<ETF>, t: nat)
    requires t < |Triples(|etfs|)|
    ensures var p := Triples(|etfs|)[t];
      p.0 < p.1 < p.2 < |etfs| && Lift3(etfs, Triples(|etfs|))[t] == [etfs[p.0], etfs[p.1], etfs[p.2]]
  {
    TriplesListValid(|etfs|);
  }

  /** A basket of the filtered pairs comes from a listed pair i < j whose overlap is at most 1. */
  lemma SoftPairBasketOrigin(etfs: seq<ETF>, b: Basket) returns (i: nat, j: nat)
    requires b in Lift2(etfs, SoftPairs(etfs, Pairs(|etfs|)))
    ensures i < j < |etfs| && b == [etfs[i], etfs[j]] && StageOverlap(etfs[i], etfs[j]) <= 1
  {
    var ps := SoftPairs(etfs, Pairs(|etfs|));
    var t :| 0 <= t < |ps| && Lift2(etfs, ps)[t] == b;
    SoftPairsMembers(etfs, Pairs(|etfs|), ps[t]);
    PairsListValid(|etfs|);
    i, j := ps[t].0, ps[t].1;
  }

  /** Every pair i < j with overlap at most 1 yields a basket of the filtered pairs. */
  lemma SoftPairBasketPresent(etfs: seq<ETF>, i: nat, j: nat)
    requires i < j < |etfs| && StageOverlap(etfs[i], etfs[j]) <= 1
    ensures [etfs[i], etfs[j]] in Lift2(etfs, SoftPairs(etfs, Pairs(|etfs|)))
  {
    Pairs2Complete(|etfs|, |etfs|, i, j);
    var ps := SoftPairs(etfs, Pairs(|etfs|));
    assert SoftPair(etfs, (i, j));
    SoftPairsMembers(etfs, Pairs(|etfs|), (i, j));
    assert (i, j) in ps;
    var t :| 0 <= t < |ps| && ps[t] == (i, j);
    assert Lift2(etfs, ps)[t] == [etfs[i], etfs[j]];
  }

  /** A basket of the filtered triples comes from a listed triple whose three overlaps are at most 1. */
  lemma SoftTripleBasketOrigin(etfs: seq<ETF>, b: Basket) returns (i: nat, j: nat, k: nat)
    requires b in Lift3(etfs, SoftTriples(etfs, Triples(|etfs|)))
    ensures i < j < k < |etfs| && b == [etfs[i], etfs[j], etfs[k]]
    ensures StageOverlap(etfs[i], etfs[j]) <= 1 && StageOverlap(etfs[i], etfs[k]) <= 1 &&
            StageOverlap(etfs[j], etfs[k]) <= 1
  {
    var ts := SoftTriples(etfs, Triples(|etfs|));
    var t :| 0 <= t < |ts| && Lift3(etfs, ts)[t] == b;
    SoftTriplesMembers(etfs, Triples(|etfs|), ts[t]);
    TriplesListValid(|etfs|);
    i, j, k := ts[t].0, ts[t].1, ts[t].2;
  }

  /** Every triple i < j < k whose three overlaps are at most 1 yields a basket of the filtered triples. */
  lemma SoftTripleBasketPresent(etfs: seq<ETF>, i: nat, j: nat, k: nat)
    requires i < j < k < |etfs|
    requires StageOverlap(etfs[i], etfs[j]) <= 1 && StageOverlap(etfs[i], etfs[k]) <= 1 &&
             StageOverlap(etfs[j], etfs[k]) <= 1
    ensures [etfs[i], etfs[j], etfs[k]] in Lift3(etfs, SoftTriples(etfs, Triples(|etfs|)))
  {
    Triples3Complete(|etfs|, |etfs|, i, j, k);
    var ts := SoftTriples(etfs, Triples(|etfs|));
    assert SoftTriple(etfs, (i, j, k));
    SoftTriplesMembers(etfs, Triples(|etfs|), (i, j, k));
    assert (i, j, k) in ts;
    var t :| 0 <= t < |ts| && ts[t] == (i, j, k);
    assert Lift3(etfs, ts)[t] == [etfs[i], etfs[j], etfs[k]];
  }

  /**
    `computeTwoETFCombos` returns only baskets the unfiltered enumeration also produces, in
    the same order, and its index pairs come in strictly increasing lexicographic order.
  */
  lemma TwoETFCombosOrdered(etfs: seq<ETF>)
    ensures LexIncreasing2(SoftPairs(etfs, Pairs(|etfs|)))
    ensures IsSubsequence(Lift2(etfs, SoftPairs(etfs, Pairs(|etfs|))), Lift2(etfs, Pairs(|etfs|)))
  {
    Pairs2Ordered(|etfs|, |etfs|);
    SoftPairsOrdered(etfs, Pairs(|etfs|));
    SoftPairsSubsequence(etfs, Pairs(|etfs|));
  }

  /**
    `computeThreeETFCombos` returns only baskets the unfiltered enumeration also produces, in
    the same order, and its index triples come in strictly increasing lexicographic order.
  */
  lemma ThreeETFCombosOrdered(etfs: seq<ETF>)
    ensures LexIncreasing3(SoftTriples(etfs, Triples(|etfs|)))
    ensures IsSubsequence(Lift3(etfs, SoftTriples(etfs, Triples(|etfs|))), Lift3(etfs, Triples(|etfs|)))
  {
    Triples3Ordered(|etfs|, |etfs|);
    SoftTriplesOrdered(etfs, Triples(|etfs|));
    SoftTriplesSubsequence(etfs, Triples(|etfs|));
  }
}
