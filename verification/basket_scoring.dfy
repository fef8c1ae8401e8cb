/**
  Basket scoring: `breakdownBasket` (src/App.tsx:747-800), the blend the app ranks baskets by,
  and the legacy `scoreBasket` (src/App.tsx:943-948).
*/
module BasketScoring {
  import opened Domain
  import opened Seqs
  import opened Overlap

  /** `BasketBreakdown`: the intermediate quantities and the final score of one basket. */
  datatype BasketBreakdown = BasketBreakdown(
    baseScore: real,
    overlapMatrix: seq<seq<int>>,
    totalOverlap: int,
    diversification: real,
    stageCoverage: nat,
    evRatio: real,
    chinaAlignment: real,
    riskBalance: real,
    finalScore: real)

  // ---------------------------------------------------------------
  // Base score
  // ---------------------------------------------------------------

  /** Every ETF of the basket has an entry in the score record. */
  predicate Scored(etfs: seq<ETF>, etfScores: map<string, real>)
  {
    forall i :: 0 <= i < |etfs| ==> etfs[i].ticker in etfScores
  }

  /** The base score: each ETF's score weighted by its allocation percentage, folded from the left. */
  function BaseScore(etfs: seq<ETF>, etfScores: map<string, real>, allocations: map<string, real>): real
    requires Scored(etfs, etfScores)
  {
    if etfs == [] then 0.0
    else
      var last := etfs[|etfs| - 1];
      BaseScore(etfs[..|etfs| - 1], etfScores, allocations) +
        etfScores[last.ticker] * (AllocationOf(allocations, last.ticker) / 100.0)
  }

  /** The allocation percentages of the basket's ETFs, added up in the same order. */
  function AllocatedTotal(etfs: seq<ETF>, allocations: map<string, real>): real
  {
    if etfs == [] then 0.0
    else AllocatedTotal(etfs[..|etfs| - 1], allocations) + AllocationOf(allocations, etfs[|etfs| - 1].ticker)
  }

  /** A ticker missing from the allocation record contributes exactly as an allocation of 0 does. */
  lemma {:induction false} MissingAllocationCountsAsZero(
    etfs: seq<ETF>, etfScores: map<string, real>, allocations: map<string, real>, ticker: string)
    requires Scored(etfs, etfScores)
    requires ticker !in allocations
    ensures BaseScore(etfs, etfScores, allocations) == BaseScore(etfs, etfScores, allocations[ticker := 0.0])
  {
    if etfs != [] {
      MissingAllocationCountsAsZero(etfs[..|etfs| - 1], etfScores, allocations, ticker);
      var t := etfs[|etfs| - 1].ticker;
      assert AllocationOf(allocations, t) == AllocationOf(allocations[ticker := 0.0], t);
    }
  }

  /**
    With scores between 0 and `top` and non-negative allocations, the base score lies between 0
    and `top` times the allocated fraction; with allocations adding up to 100 it is at most `top`.
  */
  lemma {:induction false} BaseScoreBounds(
    etfs: seq<ETF>, etfScores: map<string, real>, allocations: map<string, real>, top: real)
    requires Scored(etfs, etfScores)
    requires forall i :: 0 <= i < |etfs| ==> 0.0 <= etfScores[etfs[i].ticker] <= top
    requires forall t :: t in allocations ==> allocations[t] >= 0.0
    ensures 0.0 <= BaseScore(etfs, etfScores, allocations)
    ensures BaseScore(etfs, etfScores, allocations) * 100.0 <= top * AllocatedTotal(etfs, allocations)
  {
    if etfs != [] {
      var init, last := etfs[..|etfs| - 1], etfs[|etfs| - 1];
      BaseScoreBounds(init, etfScores, allocations, top);
      var s, a := etfScores[last.ticker], AllocationOf(allocations, last.ticker);
      ProductBounds(s, a, top);
      var b0, t0 := BaseScore(init, etfScores, allocations), AllocatedTotal(init, allocations);
      assert BaseScore(etfs, etfScores, allocations) == b0 + s * (a / 100.0);
      assert AllocatedTotal(etfs, allocations) == t0 + a;
      assert (b0 + s * (a / 100.0)) * 100.0 == b0 * 100.0 + s * (a / 100.0) * 100.0;
      assert top * (t0 + a) == top * t0 + top * a;
    }
  }

  /** 0 <= s <= top and a >= 0 give 0 <= s * (a / 100) and 100 * s * (a / 100) <= top * a. */
  lemma ProductBounds(s: real, a: real, top: real)
    requires 0.0 <= s <= top && a >= 0.0
    ensures 0.0 <= s * (a / 100.0)
    ensures s * (a / 100.0) * 100.0 <= top * a
  {
    assert s * (a / 100.0) * 100.0 == s * a;
    assert s * a <= top * a;
  }

  // ---------------------------------------------------------------
  // Total overlap
  // ---------------------------------------------------------------

  /** `reduce((a, b) => a + b, 0)` over integers. */
  function IntSum(xs: seq<int>): int
  {
    if xs == [] then 0 else IntSum(xs[..|xs| - 1]) + xs[|xs| - 1]
  }

  /** `matrix.flat().reduce((a, b) => a + b, 0)`: the row sums, added up row by row. */
  function FlatSum(m: seq<seq<int>>): int
  {
    if m == [] then 0 else FlatSum(m[..|m| - 1]) + IntSum(m[|m| - 1])
  }

  /** The independent reference: every ETF's overlap with each earlier ETF, summed. */
  function PairOverlapSum(etfs: seq<ETF>, k: nat): int
    requires k <= |etfs|
  {
    if k == 0 then 0 else PairOverlapSum(etfs, k - 1) + ColumnSum(etfs, k - 1, k - 1)
  }

  /** Entries 0 .. r - 1 of column c of the overlap matrix. */
  function ColumnSum(etfs: seq<ETF>, c: nat, r: nat): int
    requires c < |etfs| && r <= |etfs|
  {
    if r == 0 then 0 else ColumnSum(etfs, c, r - 1) + OverlapEntry(etfs, r - 1, c)
  }

  /** Entries 0 .. c - 1 of row i of the overlap matrix. */
  function RowSum(etfs: seq<ETF>, i: nat, c: nat): int
    requires i < |etfs| && c <= |etfs|
  {
    if c == 0 then 0 else RowSum(etfs, i, c - 1) + OverlapEntry(etfs, i, c - 1)
  }

  /** The top-left r-by-c block of the overlap matrix, summed. */
  function BlockSum(etfs: seq<ETF>, r: nat, c: nat): int
    requires r <= |etfs| && c <= |etfs|
  {
    if r == 0 then 0 else BlockSum(etfs, r - 1, c) + RowSum(etfs, r - 1, c)
  }

  lemma {:induction false} BlockAddColumn(etfs: seq<ETF>, r: nat, c: nat)
    requires r <= |etfs| && c < |etfs|
    ensures BlockSum(etfs, r, c + 1) == BlockSum(etfs, r, c) + ColumnSum(etfs, c, r)
  {
    if r > 0 {
      BlockAddColumn(etfs, r - 1, c);
    }
  }

  /** By symmetry of the matrix, a row prefix sums to the matching column prefix. */
  lemma {:induction false} RowEqualsColumn(etfs: seq<ETF>, k: nat, c: nat)
    requires k < |etfs| && c <= |etfs|
    ensures RowSum(etfs, k, c) == ColumnSum(etfs, k, c)
  {
    if c > 0 {
      RowEqualsColumn(etfs, k, c - 1);
    }
  }

  /** The k-by-k block counts every pair below k twice. */
  lemma {:induction false} BlockIsTwicePairs(etfs: seq<ETF>, k: nat)
    requires k <= |etfs|
    ensures BlockSum(etfs, k, k) == 2 * PairOverlapSum(etfs, k)
  {
    if k > 0 {
      BlockIsTwicePairs(etfs, k - 1);
      BlockAddColumn(etfs, k - 1, k - 1);
      RowEqualsColumn(etfs, k - 1, k - 1);
      assert RowSum(etfs, k - 1, k) == RowSum(etfs, k - 1, k - 1);
    }
  }

  lemma {:induction false} MatrixRowSum(etfs: seq<ETF>, i: nat, c: nat)
    requires i < |etfs| && c <= |etfs|
    ensures IntSum(OverlapMatrix(etfs)[i][..c]) == RowSum(etfs, i, c)
  {
    if c > 0 {
      MatrixRowSum(etfs, i, c - 1);
      assert OverlapMatrix(etfs)[i][..c][..c - 1] == OverlapMatrix(etfs)[i][..c - 1];
    }
  }

  lemma {:induction false} MatrixFlatSum(etfs: seq<ETF>, r: nat)
    requires r <= |etfs|
    ensures FlatSum(OverlapMatrix(etfs)[..r]) == BlockSum(etfs, r, |etfs|)
  {
    if r > 0 {
      var m := OverlapMatrix(etfs);
      MatrixFlatSum(etfs, r - 1);
      assert m[..r][..r - 1] == m[..r - 1];
      MatrixRowSum(etfs, r - 1, |etfs|);
      assert m[r - 1][..|etfs|] == m[r - 1];
    }
  }

  /** `totalOverlap` is twice the sum of the pairwise stage overlaps. */
  lemma TotalOverlapIsTwicePairSum(etfs: seq<ETF>)
    ensures FlatSum(OverlapMatrix(etfs)) == 2 * PairOverlapSum(etfs, |etfs|)
  {
    MatrixFlatSum(etfs, |etfs|);
    assert OverlapMatrix(etfs)[..|etfs|] == OverlapMatrix(etfs);
    BlockIsTwicePairs(etfs, |etfs|);
  }

  /** The pair sum of a two-ETF basket is its one overlap; of a three-ETF basket, `stageOverlap3`. */
  lemma PairOverlapSumSmall(etfs: seq<ETF>)
    ensures |etfs| == 2 ==> PairOverlapSum(etfs, 2) == StageOverlap(etfs[0], etfs[1])
    ensures |etfs| == 3 ==> PairOverlapSum(etfs, 3) == StageOverlap3(etfs[0], etfs[1], etfs[2])
  {
    if |etfs| >= 2 {
      assert PairOverlapSum(etfs, 1) == 0;
      assert ColumnSum(etfs, 1, 1) == OverlapEntry(etfs, 0, 1);
    }
    if |etfs| == 3 {
      assert ColumnSum(etfs, 2, 1) == OverlapEntry(etfs, 0, 2);
      assert ColumnSum(etfs, 2, 2) == OverlapEntry(etfs, 0, 2) + OverlapEntry(etfs, 1, 2);
    }
  }

  /** The pair sum is never negative. */
  lemma {:induction false} PairOverlapSumNonNegative(etfs: seq<ETF>, k: nat)
    requires k <= |etfs|
    ensures PairOverlapSum(etfs, k) >= 0
  {
    if k > 0 {
      PairOverlapSumNonNegative(etfs, k - 1);
      ColumnSumNonNegative(etfs, k - 1, k - 1);
    }
  }

  lemma {:induction false} ColumnSumNonNegative(etfs: seq<ETF>, c: nat, r: nat)
    requires c < |etfs| && r <= |etfs|
    ensures ColumnSum(etfs, c, r) >= 0
  {
    if r > 0 {
      ColumnSumNonNegative(etfs, c, r - 1);
    }
  }

  // ---------------------------------------------------------------
  // The other components
  // ---------------------------------------------------------------

  /** `1 / (1 + totalOverlap)`: in (0, 1], and 1 exactly for a basket without overlap. */
  function Diversification(totalOverlap: int): (d: real)
    requires totalOverlap >= 0
    ensures d * (1.0 + totalOverlap as real) == 1.0
    ensures 0.0 < d <= 1.0
    ensures d == 1.0 <==> totalOverlap == 0
  {
    var t := 1.0 + totalOverlap as real;
    var d := 1.0 / t;
    assert d * t == 1.0;
    assert (d - 1.0) * t == 1.0 - t;
    SignOfProduct(d, t);
    SignOfProduct(d - 1.0, t);
    d
  }

  /** More overlap never helps: diversification strictly decreases with the total overlap. */
  lemma DiversificationDecreasing(s: int, t: int)
    requires 0 <= s < t
    ensures Diversification(t) < Diversification(s)
  {
    var ds, dt := Diversification(s), Diversification(t);
    var ps, pt := 1.0 + s as real, 1.0 + t as real;
    assert ds * ps == 1.0 && dt * pt == 1.0;
    assert dt * (pt - ps) > 0.0;
    assert (ds - dt) * ps == 1.0 - dt * ps == dt * (pt - ps);
    SignOfProduct(ds - dt, ps);
  }

  /** `etfs.flatMap((e) => e.stages)` */
  function BasketStages(etfs: seq<ETF>): seq<Stage>
  {
    if etfs == [] then [] else BasketStages(etfs[..|etfs| - 1]) + etfs[|etfs| - 1].stages
  }

  /** `new Set(etfs.flatMap((e) => e.stages)).size`: at most the five stages. */
  function StageCoverage(etfs: seq<ETF>): (c: nat)
    ensures c <= 5
  {
    StageSetAtMostFive(StageSet(BasketStages(etfs)));
    |StageSet(BasketStages(etfs))|
  }

  /** A stage is covered exactly when some ETF of the basket has it. */
  lemma {:induction false} BasketStagesMembers(etfs: seq<ETF>, s: Stage)
    ensures s in BasketStages(etfs) <==> exists e :: e in etfs && s in e.stages
  {
    if etfs != [] {
      var init := etfs[..|etfs| - 1];
      BasketStagesMembers(init, s);
      assert etfs == init + [etfs[|etfs| - 1]];
    }
  }

  /** `etfs.filter(keep).length` */
  function CountIf(etfs: seq<ETF>, keep: ETF -> bool): (c: nat)
    ensures c <= |etfs|
  {
    if etfs == [] then 0
    else CountIf(etfs[..|etfs| - 1], keep) + (if keep(etfs[|etfs| - 1]) then 1 else 0)
  }

  /** `k / n` for a count k of n: a ratio in [0, 1]. */
  function Ratio(k: nat, n: nat): (r: real)
    requires 0 < n && k <= n
    ensures r * n as real == k as real
    ensures 0.0 <= r <= 1.0
  {
    var r := k as real / n as real;
    assert r * n as real == k as real;
    assert (r - 1.0) * n as real == k as real - n as real;
    SignOfProduct(r, n as real);
    SignOfProduct(r - 1.0, n as real);
    r
  }


  /** The distinct risk tiers of the basket. */
  function RiskLevels(etfs: seq<ETF>): set<Level>
  {
    set e | e in etfs :: e.riskLevel
  }

  /** `new Set(riskLevels).size / 3`: one, two or three thirds for a non-empty basket. */
  function RiskBalance(etfs: seq<ETF>): (r: real)
    requires |etfs| > 0
    ensures r == 1.0 / 3.0 || r == 2.0 / 3.0 || r == 1.0
  {
    LevelSetAtMostThree(RiskLevels(etfs));
    assert etfs[0].riskLevel in RiskLevels(etfs);
    |RiskLevels(etfs)| as real / 3.0
  }

  /** The quant blend that ranks baskets. */
  function FinalScore(
    baseScore: real, diversification: real, stageCoverage: nat,
    evRatio: real, chinaAlignment: real, riskBalance: real): real
  {
    baseScore * diversification + stageCoverage as real * 2.0 + evRatio * 5.0 +
    chinaAlignment * 5.0 + riskBalance * 3.0
  }

  predicate IsEv(e: ETF) { e.evBatteryTheme }

  predicate IsLowChina(e: ETF) { e.chinaExposure == Low }

  /**
    `breakdownBasket`. The source divides by `etfs.length` and reads `etfScores` without a
    guard, so the basket must be non-empty and every ETF scored.
  */
  function BreakdownBasket(etfs: seq<ETF>, etfScores: map<string, real>, allocations: map<string, real>)
    : (r: BasketBreakdown)
    requires |etfs| > 0
    requires Scored(etfs, etfScores)
    ensures r.baseScore == BaseScore(etfs, etfScores, allocations)
    ensures r.overlapMatrix == OverlapMatrix(etfs)
    ensures r.totalOverlap == 2 * PairOverlapSum(etfs, |etfs|) >= 0
    ensures r.diversification == Diversification(r.totalOverlap)
    ensures 0.0 < r.diversification <= 1.0
    ensures r.diversification == 1.0 <==> r.totalOverlap == 0
    ensures r.stageCoverage == StageCoverage(etfs) <= 5
    ensures 0.0 <= r.evRatio <= 1.0 && r.evRatio == Ratio(CountIf(etfs, IsEv), |etfs|)
    ensures 0.0 <= r.chinaAlignment <= 1.0 && r.chinaAlignment == Ratio(CountIf(etfs, IsLowChina), |etfs|)
    ensures r.riskBalance == RiskBalance(etfs)
    ensures r.riskBalance == 1.0 / 3.0 || r.riskBalance == 2.0 / 3.0 || r.riskBalance == 1.0
    ensures r.finalScore == FinalScore(r.baseScore, r.diversification, r.stageCoverage,
                                       r.evRatio, r.chinaAlignment, r.riskBalance)
  {
    var baseScore := BaseScore(etfs, etfScores, allocations);
    var overlapMatrix := OverlapMatrix(etfs);
    var totalOverlap := FlatSum(overlapMatrix);
    TotalOverlapIsTwicePairSum(etfs);
    PairOverlapSumNonNegative(etfs, |etfs|);
    var diversification := Diversification(totalOverlap);
    var stageCoverage := StageCoverage(etfs);
    var evRatio := Ratio(CountIf(etfs, IsEv), |etfs|);
    var chinaAlignment := Ratio(CountIf(etfs, IsLowChina), |etfs|);
    var riskBalance := RiskBalance(etfs);
    var finalScore := FinalScore(baseScore, diversification, stageCoverage, evRatio, chinaAlignment, riskBalance);
    BasketBreakdown(baseScore, overlapMatrix, totalOverlap, diversification, stageCoverage,
                    evRatio, chinaAlignment, riskBalance, finalScore)
  }

  // ---------------------------------------------------------------
  // Legacy basket score
  // ---------------------------------------------------------------

  /** The scores of a list of scored ETFs. */
  function Scores(etfs: seq<ScoredETF>): seq<real>
  {
    seq(|etfs|, i requires 0 <= i < |etfs| => etfs[i].score)
  }

  /** The plain ETFs of a list of scored ETFs. */
  function Plain(etfs: seq<ScoredETF>): seq<ETF>
  {
    seq(|etfs|, i requires 0 <= i < |etfs| => etfs[i].etf)
  }

  /** `scoreBasket`: the summed scores plus two points per distinct stage covered. */
  function ScoreBasket(etfs: seq<ScoredETF>): (r: real)
    ensures Sum(Scores(etfs)) <= r <= Sum(Scores(etfs)) + 10.0
  {
    Sum(Scores(etfs)) + StageCoverage(Plain(etfs)) as real * 2.0
  }

  /** An ETF whose stages the basket already covers adds exactly its score to `scoreBasket`. */
  lemma ScoreBasketCoveredAddition(etfs: seq<ScoredETF>, x: ScoredETF)
    requires forall s :: s in x.etf.stages ==> s in BasketStages(Plain(etfs))
    ensures ScoreBasket(etfs + [x]) == ScoreBasket(etfs) + x.score
  {
    assert Scores(etfs + [x]) == Scores(etfs) + [x.score];
    SumAppend(Scores(etfs), x.score);
    assert Plain(etfs + [x]) == Plain(etfs) + [x.etf];
    assert (Plain(etfs) + [x.etf])[..|etfs|] == Plain(etfs);
    assert StageSet(BasketStages(Plain(etfs + [x]))) == StageSet(BasketStages(Plain(etfs)));
  }
}
