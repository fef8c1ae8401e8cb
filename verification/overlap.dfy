/**
  Stage overlap between ETFs: `stageOverlap`/`stageOverlap3` (src/App.tsx:880-886), the
  symmetric overlap matrix `computeOverlapMatrix` (src/App.tsx:728-742) and the diagnostic
  overlap record `computeOverlap` (src/App.tsx:858-874).
*/
module Overlap {
  import opened Domain

  /** `xs.filter((s) => ys.includes(s)).length`: repeated stages of `xs` are counted each time. */
  function CountIn(xs: seq<Stage>, ys: seq<Stage>): (r: nat)
    ensures r <= |xs|
  {
    if xs == [] then 0 else (if xs[0] in ys then 1 else 0) + CountIn(xs[1..], ys)
  }

  /** `stageOverlap(a, b)`: how many entries of `a.stages` also occur in `b.stages`. */
  function StageOverlap(a: ETF, b: ETF): (r: nat)
    ensures r <= |a.stages|
  {
    CountIn(a.stages, b.stages)
  }

  /** `stageOverlap3(a, b, c)`: the sum of the three pairwise overlaps. */
  function StageOverlap3(a: ETF, b: ETF, c: ETF): nat
  {
    StageOverlap(a, b) + StageOverlap(a, c) + StageOverlap(b, c)
  }

  /** On a duplicate-free list the count is the number of distinct shared stages. */
  lemma {:induction false} CountInIsSharedStages(xs: seq<Stage>, ys: seq<Stage>)
    requires NoDuplicates(xs)
    ensures CountIn(xs, ys) == |StageSet(xs) * StageSet(ys)|
  {
    if xs == [] {
      assert StageSet(xs) * StageSet(ys) == {};
    } else {
      var rest := xs[1..];
      assert NoDuplicates(rest);
      CountInIsSharedStages(rest, ys);
      StageSetCons(xs);
      var head: set<Stage> := if xs[0] in ys then {xs[0]} else {};
      assert xs[0] in ys <==> xs[0] in StageSet(ys);
      IntersectCons(xs[0], StageSet(rest), StageSet(ys), head);
    }
  }

  lemma StageSetCons(xs: seq<Stage>)
    requires xs != [] && NoDuplicates(xs)
    ensures StageSet(xs) == {xs[0]} + StageSet(xs[1..])
    ensures xs[0] !in StageSet(xs[1..])
  {
    assert xs == [xs[0]] + xs[1..];
  }

  lemma IntersectCons(x: Stage, r: set<Stage>, y: set<Stage>, head: set<Stage>)
    requires x !in r
    requires head == if x in y then {x} else {}
    ensures |({x} + r) * y| == |head| + |r * y|
  {
    assert ({x} + r) * y == head + r * y;
    DisjointUnionSize(head, r * y);
  }

  lemma DisjointUnionSize(a: set<Stage>, b: set<Stage>)
    requires a * b == {}
    ensures |a + b| == |a| + |b|
  {
  }

  /** Overlap is symmetric when neither ETF lists a stage twice. */
  lemma StageOverlapSymmetric(a: ETF, b: ETF)
    requires NoDuplicates(a.stages) && NoDuplicates(b.stages)
    ensures StageOverlap(a, b) == StageOverlap(b, a)
  {
    CountInIsSharedStages(a.stages, b.stages);
    CountInIsSharedStages(b.stages, a.stages);
    assert StageSet(a.stages) * StageSet(b.stages) == StageSet(b.stages) * StageSet(a.stages);
  }

  /** Without that precondition symmetry fails: a repeated stage is counted twice on one side only. */
  lemma StageOverlapAsymmetricWithDuplicates()
    ensures var a := ETF("A", "A", [Mining, Mining], false, Low, Low);
            var b := ETF("B", "B", [Mining], false, Low, Low);
            StageOverlap(a, b) == 2 && StageOverlap(b, a) == 1
  {
    var a := ETF("A", "A", [Mining, Mining], false, Low, Low);
    var b := ETF("B", "B", [Mining], false, Low, Low);
    assert a.stages[1..] == [Mining];
    assert a.stages[1..][1..] == [];
    assert b.stages[1..] == [];
  }

  /** Entry (i, j) of the overlap matrix: the overlap of the earlier ETF with the later one, 0 on the diagonal. */
  function OverlapEntry(etfs: seq<ETF>, i: nat, j: nat): nat
    requires i < |etfs| && j < |etfs|
  {
    if i < j then StageOverlap(etfs[i], etfs[j])
    else if j < i then StageOverlap(etfs[j], etfs[i])
    else 0
  }

  /** The matrix `computeOverlapMatrix` returns, as a value. */
  function OverlapMatrix(etfs: seq<ETF>): (m: seq<seq<int>>)
    ensures |m| == |etfs|
    ensures forall i :: 0 <= i < |m| ==> |m[i]| == |etfs|
    ensures forall i, j :: 0 <= i < |etfs| && 0 <= j < |etfs| ==> m[i][j] == OverlapEntry(etfs, i, j)
  {
    seq(|etfs|, i requires 0 <= i < |etfs| =>
      seq(|etfs|, j requires 0 <= j < |etfs| => OverlapEntry(etfs, i, j) as int))
  }

  /** The matrix is square, symmetric, non-negative, zero on the diagonal, and holds stageOverlap above it. */
  lemma OverlapMatrixShape(etfs: seq<ETF>)
    ensures var m := OverlapMatrix(etfs);
      && (forall i :: 0 <= i < |etfs| ==> m[i][i] == 0)
      && (forall i, j :: 0 <= i < |etfs| && 0 <= j < |etfs| ==> m[i][j] == m[j][i] && m[i][j] >= 0)
      && (forall i, j :: 0 <= i < j < |etfs| ==> m[i][j] == StageOverlap(etfs[i], etfs[j]))
  {
  }

  /** `computeOverlapMatrix`: fills the upper triangle row by row and mirrors each entry. */
  method ComputeOverlapMatrix(etfs: seq<ETF>) returns (matrix: array2<int>)
    ensures fresh(matrix)
    ensures matrix.Length0 == |etfs| && matrix.Length1 == |etfs|
    ensures forall i, j :: 0 <= i < |etfs| && 0 <= j < |etfs| ==> matrix[i, j] == OverlapMatrix(etfs)[i][j]
  {
    var n := |etfs|;
    matrix := new int[n, n]((i, j) => 0);
    for i := 0 to n
      invariant forall p, q :: 0 <= p < n && 0 <= q < n ==>
        matrix[p, q] == if p != q && (if p < q then p else q) < i then OverlapEntry(etfs, p, q) as int else 0
    {
      for j := i + 1 to n
        invariant forall p, q :: 0 <= p < n && 0 <= q < n ==>
          matrix[p, q] ==
            if p != q && ((if p < q then p else q) < i ||
                          ((if p < q then p else q) == i && (if p < q then q else p) < j))
            then OverlapEntry(etfs, p, q) as int else 0
      {
        var overlap := StageOverlap(etfs[i], etfs[j]);
        matrix[i, j] := overlap;
        matrix[j, i] := overlap;
      }
    }
  }

  /** The record key `${a.ticker}-${b.ticker}`. */
  function PairKey(a: ETF, b: ETF): string
  {
    a.ticker + "-" + b.ticker
  }

  /** No ticker contains the separator of the record key. */
  predicate TickersWithoutDash(etfs: seq<ETF>)
  {
    forall i :: 0 <= i < |etfs| ==> '-' !in etfs[i].ticker
  }

  /** When tickers contain no '-', a record key determines both tickers. */
  lemma PairKeyInjective(a: ETF, b: ETF, c: ETF, d: ETF)
    requires '-' !in a.ticker && '-' !in b.ticker && '-' !in c.ticker && '-' !in d.ticker
    requires PairKey(a, b) == PairKey(c, d)
    ensures a.ticker == c.ticker && b.ticker == d.ticker
  {
    var k := PairKey(a, b);
    var la := |a.ticker|;
    var lc := |c.ticker|;
    assert k[la] == '-' && k[lc] == '-';
    assert forall t :: 0 <= t < lc ==> k[t] == c.ticker[t] != '-';
    assert forall t :: 0 <= t < la ==> k[t] == a.ticker[t] != '-';
    assert a.ticker == k[..la] == c.ticker;
    assert b.ticker == k[la + 1..] == d.ticker;
  }

  /** Pair (p, q) comes before (i, j) in the order of the two nested `forEach` loops. */
  predicate Visited(i: int, j: int, p: int, q: int)
  {
    p < i || (p == i && q < j)
  }

  /**
    `computeOverlap`: for every ordered pair of ETFs with different tickers, the key
    "A-B" maps to their stage overlap. A later pair with the same key overwrites an earlier one,
    so each value is the overlap of the last pair in loop order with that key; with unique
    tickers free of '-', it is the overlap of the one pair.
  */
  method ComputeOverlap(selected: seq<ETF>) returns (overlap: map<string, int>)
    ensures forall i, j ::
      (0 <= i < |selected| && 0 <= j < |selected| && selected[i].ticker != selected[j].ticker) ==>
      PairKey(selected[i], selected[j]) in overlap
    ensures forall k :: k in overlap ==> exists i, j ::
      0 <= i < |selected| && 0 <= j < |selected| && selected[i].ticker != selected[j].ticker &&
      PairKey(selected[i], selected[j]) == k && overlap[k] == StageOverlap(selected[i], selected[j]) &&
      LastWithKey(selected, k, i, j)
    ensures UniqueTickers(selected) && TickersWithoutDash(selected) ==>
      forall i, j :: 0 <= i < |selected| && 0 <= j < |selected| && i != j ==>
        overlap[PairKey(selected[i], selected[j])] == StageOverlap(selected[i], selected[j])
  {
    var n := |selected|;
    overlap := map[];
    // for each key, the pair that wrote it last
    ghost var writer: map<string, (nat, nat)> := map[];
    for i := 0 to n
      invariant Covered(selected, overlap, i, 0)
      invariant WrittenBy(selected, overlap, writer)
      invariant LastWriter(selected, writer, i, 0)
    {
      var etfA := selected[i];
      for j := 0 to n
        invariant Covered(selected, overlap, i, j)
        invariant WrittenBy(selected, overlap, writer)
        invariant LastWriter(selected, writer, i, j)
      {
        var etfB := selected[j];
        ghost var before, writerBefore := overlap, writer;
        if etfA.ticker != etfB.ticker {
          var key := PairKey(etfA, etfB);
          WrittenByUpdate(selected, overlap, writer, i, j);
          overlap := overlap[key := StageOverlap(etfA, etfB)];
          writer := writer[key := (i, j)];
        }
        CoveredStep(selected, before, overlap, i, j);
        LastWriterStep(selected, writerBefore, writer, i, j);
      }
      CoveredRowEnd(selected, overlap, i);
      LastWriterRowEnd(selected, writer, i);
    }
    CoveredAll(selected, overlap);
    WrittenByLast(selected, overlap, writer);
    if UniqueTickers(selected) && TickersWithoutDash(selected) {
      WrittenByOwnPair(selected, overlap, writer);
    }
  }

  /** Every pair visited before (i, j) with different tickers has its key in the record. */
  ghost predicate Covered(selected: seq<ETF>, overlap: map<string, int>, i: int, j: int)
  {
    forall p, q ::
      (0 <= p < |selected| && 0 <= q < |selected| && Visited(i, j, p, q) && selected[p].ticker != selected[q].ticker) ==>
      PairKey(selected[p], selected[q]) in overlap
  }

  /** Visiting (i, j) extends the covered pairs by (i, j). */
  lemma CoveredStep(selected: seq<ETF>, overlap: map<string, int>, overlap': map<string, int>, i: nat, j: nat)
    requires i < |selected| && j < |selected|
    requires Covered(selected, overlap, i, j)
    requires overlap.Keys <= overlap'.Keys
    requires selected[i].ticker != selected[j].ticker ==> PairKey(selected[i], selected[j]) in overlap'
    ensures Covered(selected, overlap', i, j + 1)
  {
    forall p, q | 0 <= p < |selected| && 0 <= q < |selected| && Visited(i, j + 1, p, q) && selected[p].ticker != selected[q].ticker
      ensures PairKey(selected[p], selected[q]) in overlap'
    {
      if Visited(i, j, p, q) {
        assert PairKey(selected[p], selected[q]) in overlap;
      }
    }
  }

  /** The end of row i is the start of row i + 1. */
  lemma CoveredRowEnd(selected: seq<ETF>, overlap: map<string, int>, i: nat)
    requires Covered(selected, overlap, i, |selected|)
    ensures Covered(selected, overlap, i + 1, 0)
  {
    forall p, q | 0 <= p < |selected| && 0 <= q < |selected| && Visited(i + 1, 0, p, q) && selected[p].ticker != selected[q].ticker
      ensures PairKey(selected[p], selected[q]) in overlap
    {
      assert Visited(i, |selected|, p, q);
    }
  }

  /** After the last row every pair with different tickers is covered. */
  lemma CoveredAll(selected: seq<ETF>, overlap: map<string, int>)
    requires Covered(selected, overlap, |selected|, 0)
    ensures forall i, j ::
      (0 <= i < |selected| && 0 <= j < |selected| && selected[i].ticker != selected[j].ticker) ==>
      PairKey(selected[i], selected[j]) in overlap
  {
    forall i, j | 0 <= i < |selected| && 0 <= j < |selected| && selected[i].ticker != selected[j].ticker
      ensures PairKey(selected[i], selected[j]) in overlap
    {
      assert Visited(|selected|, 0, i, j);
    }
  }

  /** Writing the key of (i, j) with its overlap keeps the writer record accurate. */
  lemma WrittenByUpdate(selected: seq<ETF>, overlap: map<string, int>, writer: map<string, (nat, nat)>, i: nat, j: nat)
    requires WrittenBy(selected, overlap, writer)
    requires i < |selected| && j < |selected| && selected[i].ticker != selected[j].ticker
    ensures var key := PairKey(selected[i], selected[j]);
      WrittenBy(selected, overlap[key := StageOverlap(selected[i], selected[j])], writer[key := (i, j)])
  {
  }

  /** No pair after (i, j) in loop order, with different tickers, has the key k. */
  ghost predicate LastWithKey(selected: seq<ETF>, k: string, i: int, j: int)
  {
    forall p, q ::
      (0 <= p < |selected| && 0 <= q < |selected| && Visited(p, q, i, j) && selected[p].ticker != selected[q].ticker) ==>
      PairKey(selected[p], selected[q]) != k
  }

  /** No pair visited before (i, j) and after the recorded writer of a key has that key. */
  ghost predicate LastWriter(selected: seq<ETF>, writer: map<string, (nat, nat)>, i: int, j: int)
  {
    forall k, p, q ::
      (k in writer && 0 <= p < |selected| && 0 <= q < |selected| && Visited(i, j, p, q) &&
       Visited(p, q, writer[k].0, writer[k].1) && selected[p].ticker != selected[q].ticker) ==>
      PairKey(selected[p], selected[q]) != k
  }

  /** Visiting (i, j), and recording it as the writer of its key when it writes, keeps the writers last. */
  lemma LastWriterStep(selected: seq<ETF>, writer: map<string, (nat, nat)>, writer': map<string, (nat, nat)>, i: nat, j: nat)
    requires i < |selected| && j < |selected|
    requires LastWriter(selected, writer, i, j)
    requires selected[i].ticker != selected[j].ticker ==> writer' == writer[PairKey(selected[i], selected[j]) := (i, j)]
    requires selected[i].ticker == selected[j].ticker ==> writer' == writer
    ensures LastWriter(selected, writer', i, j + 1)
  {
    forall k, p, q |
      k in writer' && 0 <= p < |selected| && 0 <= q < |selected| && Visited(i, j + 1, p, q) &&
      Visited(p, q, writer'[k].0, writer'[k].1) && selected[p].ticker != selected[q].ticker
      ensures PairKey(selected[p], selected[q]) != k
    {
      if !(selected[i].ticker != selected[j].ticker && k == PairKey(selected[i], selected[j])) {
        if p == i && q == j {
          assert PairKey(selected[p], selected[q]) == PairKey(selected[i], selected[j]);
        } else {
          assert writer'[k] == writer[k] && Visited(i, j, p, q);
        }
      }
    }
  }

  /** The end of row i is the start of row i + 1. */
  lemma LastWriterRowEnd(selected: seq<ETF>, writer: map<string, (nat, nat)>, i: nat)
    requires LastWriter(selected, writer, i, |selected|)
    ensures LastWriter(selected, writer, i + 1, 0)
  {
    forall k, p, q |
      k in writer && 0 <= p < |selected| && 0 <= q < |selected| && Visited(i + 1, 0, p, q) &&
      Visited(p, q, writer[k].0, writer[k].1) && selected[p].ticker != selected[q].ticker
      ensures PairKey(selected[p], selected[q]) != k
    {
      assert Visited(i, |selected|, p, q);
    }
  }

  /** After the last row, the recorded writer of a key is the last pair in loop order with it. */
  lemma LastWriterAtEnd(selected: seq<ETF>, writer: map<string, (nat, nat)>, k: string)
    requires LastWriter(selected, writer, |selected|, 0)
    requires k in writer
    ensures LastWithKey(selected, k, writer[k].0, writer[k].1)
  {
    forall p, q |
      0 <= p < |selected| && 0 <= q < |selected| && Visited(p, q, writer[k].0, writer[k].1) &&
      selected[p].ticker != selected[q].ticker
      ensures PairKey(selected[p], selected[q]) != k
    {
      assert Visited(|selected|, 0, p, q);
    }
  }

  /** After the last row, every key holds the overlap of the last pair in loop order that has it. */
  lemma WrittenByLast(selected: seq<ETF>, overlap: map<string, int>, writer: map<string, (nat, nat)>)
    requires WrittenBy(selected, overlap, writer)
    requires LastWriter(selected, writer, |selected|, 0)
    ensures forall k :: k in overlap ==> exists i, j ::
      0 <= i < |selected| && 0 <= j < |selected| && selected[i].ticker != selected[j].ticker &&
      PairKey(selected[i], selected[j]) == k && overlap[k] == StageOverlap(selected[i], selected[j]) &&
      LastWithKey(selected, k, i, j)
  {
    forall k | k in overlap
      ensures exists i, j ::
        0 <= i < |selected| && 0 <= j < |selected| && selected[i].ticker != selected[j].ticker &&
        PairKey(selected[i], selected[j]) == k && overlap[k] == StageOverlap(selected[i], selected[j]) &&
        LastWithKey(selected, k, i, j)
    {
      LastWriterAtEnd(selected, writer, k);
      var (i, j) := writer[k];
      assert LastWithKey(selected, k, i, j);
    }
  }

  /** With unique tickers free of '-', the writer of a pair's key is that pair itself. */
  lemma WrittenByOwnPair(selected: seq<ETF>, overlap: map<string, int>, writer: map<string, (nat, nat)>)
    requires WrittenBy(selected, overlap, writer)
    requires UniqueTickers(selected) && TickersWithoutDash(selected)
    ensures forall i, j ::
      (0 <= i < |selected| && 0 <= j < |selected| && i != j && PairKey(selected[i], selected[j]) in overlap) ==>
      overlap[PairKey(selected[i], selected[j])] == StageOverlap(selected[i], selected[j])
  {
    forall i, j | 0 <= i < |selected| && 0 <= j < |selected| && i != j && PairKey(selected[i], selected[j]) in overlap
      ensures overlap[PairKey(selected[i], selected[j])] == StageOverlap(selected[i], selected[j])
    {
      var k := PairKey(selected[i], selected[j]);
      var (p, q) := writer[k];
      PairKeyInjective(selected[p], selected[q], selected[i], selected[j]);
      assert p == i && q == j;
    }
  }

  /** Every key of the record was written by the recorded pair, with that pair's overlap. */
  ghost predicate WrittenBy(selected: seq<ETF>, overlap: map<string, int>, writer: map<string, (nat, nat)>)
  {
    forall k :: k in overlap ==>
      && k in writer
      && writer[k].0 < |selected| && writer[k].1 < |selected|
      && selected[writer[k].0].ticker != selected[writer[k].1].ticker
      && PairKey(selected[writer[k].0], selected[writer[k].1]) == k
      && overlap[k] == StageOverlap(selected[writer[k].0], selected[writer[k].1])
  }
}
