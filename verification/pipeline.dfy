/**
  The recomputation `App` performs on every render (src/App.tsx:1559-1634): filter the catalog
  by stage and EV preference, score the survivors with the default weights, rank them, keep the
  first `maxETFs`, enumerate their 2- and 3-ETF baskets, and rank and truncate the baskets.
*/
module Pipeline {
  import opened Domain
  import opened Seqs
  import opened EtfScoring
  import opened Ranking
  import opened Combos
  import opened BasketScoring

  /** The list limits of a `KnowledgeMode` entry; its display flags are not modelled. */
  datatype Limits = Limits(maxETFs: nat, maxTwoBaskets: nat, maxThreeBaskets: nat)

  /** `KnowledgeMode`: 3/1/1 for low, 5/5/5 for medium, 10/10/10 for high. */
  function KnowledgeLimits(mode: Level): (l: Limits)
    ensures l.maxTwoBaskets == l.maxThreeBaskets <= l.maxETFs
    ensures mode == High ==> l == Limits(10, 10, 10)
  {
    match mode
    case Low => Limits(3, 1, 1)
    case Medium => Limits(5, 5, 5)
    case High => Limits(10, 10, 10)
  }

  // ---------------------------------------------------------------
  // Filter
  // ---------------------------------------------------------------

  /** `etf.stages.some((s) => selectedStages.includes(s))` */
  predicate SharesStage(stages: seq<Stage>, selectedStages: seq<Stage>)
  {
    exists i :: 0 <= i < |stages| && stages[i] in selectedStages
  }

  /** The filter's test: a stage in common with a non-empty selection, and EV-themed under EV preference. */
  predicate PassesFilter(etf: ETF, selectedStages: seq<Stage>, evPreference: bool)
  {
    (|selectedStages| > 0 ==> SharesStage(etf.stages, selectedStages)) &&
    (evPreference ==> etf.evBatteryTheme)
  }

  /** `ETF_DATA.filter(...)`: exactly the catalog entries that pass, in catalog order. */
  function FilterETFs(catalog: seq<ETF>, selectedStages: seq<Stage>, evPreference: bool): (r: seq<ETF>)
    ensures forall e :: e in r <==> e in catalog && PassesFilter(e, selectedStages, evPreference)
    ensures IsSubsequence(r, catalog)
  {
    if catalog == [] then []
    else
      var init, last := catalog[..|catalog| - 1], catalog[|catalog| - 1];
      var kept := FilterETFs(init, selectedStages, evPreference);
      assert catalog == init + [last];
      if PassesFilter(last, selectedStages, evPreference) then
        assert (kept + [last])[..|kept|] == kept;
        kept + [last]
      else
        kept
  }

  // ---------------------------------------------------------------
  // Scoring pass
  // ---------------------------------------------------------------

  /** `breakdownETFScore` with the app's fixed `DEFAULT_WEIGHTS`, whatever the weights panel says. */
  function BreakdownOf(etf: ETF, prefs: Preferences): ETFScoreBreakdown
  {
    BreakdownETFScore(etf, prefs.selectedStages, prefs.evPreference, prefs.chinaComfort,
                      prefs.riskTolerance, DefaultWeights)
  }

  /** The `etfBreakdowns` record after the scoring pass over etfs (a later ticker overwrites). */
  function BreakdownMap(etfs: seq<ETF>, prefs: Preferences): map<string, ETFScoreBreakdown>
  {
    if etfs == [] then map[]
    else
      var last := etfs[|etfs| - 1];
      BreakdownMap(etfs[..|etfs| - 1], prefs)[last.ticker := BreakdownOf(last, prefs)]
  }

  /** The `etfScores` record: each recorded breakdown's total. */
  function ScoreMap(etfs: seq<ETF>, prefs: Preferences): map<string, real>
  {
    var b := BreakdownMap(etfs, prefs);
    map t | t in b :: b[t].total
  }

  /** `filteredETFs.forEach(...)`: fills both records, one ETF at a time. */
  method ScoreFiltered(filtered: seq<ETF>, prefs: Preferences)
    returns (etfScores: map<string, real>, etfBreakdowns: map<string, ETFScoreBreakdown>)
    ensures etfBreakdowns == BreakdownMap(filtered, prefs)
    ensures etfScores == ScoreMap(filtered, prefs)
  {
    etfScores := map[];
    etfBreakdowns := map[];
    for i := 0 to |filtered|
      invariant etfBreakdowns == BreakdownMap(filtered[..i], prefs)
      invariant etfScores == ScoreMap(filtered[..i], prefs)
    {
      var etf := filtered[i];
      var breakdown := BreakdownETFScore(
        etf, prefs.selectedStages, prefs.evPreference, prefs.chinaComfort, prefs.riskTolerance, DefaultWeights);
      assert filtered[..i + 1][..i] == filtered[..i];
      etfBreakdowns := etfBreakdowns[etf.ticker := breakdown];
      etfScores := etfScores[etf.ticker := breakdown.total];
    }
    assert filtered[..|filtered|] == filtered;
  }

  /** Every filtered ticker is recorded, and nothing else. */
  lemma {:induction false} BreakdownMapKeys(etfs: seq<ETF>, prefs: Preferences)
    ensures BreakdownMap(etfs, prefs).Keys == Tickers(etfs)
    ensures ScoreMap(etfs, prefs).Keys == Tickers(etfs)
  {
    if etfs != [] {
      var init, last := etfs[..|etfs| - 1], etfs[|etfs| - 1];
      BreakdownMapKeys(init, prefs);
      TickersSnoc(init, last);
      assert etfs == init + [last];
    }
    assert ScoreMap(etfs, prefs).Keys == BreakdownMap(etfs, prefs).Keys;
  }

  /**
    The recorded breakdown of a ticker is that of its last occurrence; with unique tickers,
    every ETF's own breakdown.
  */
  lemma {:induction false} BreakdownMapEntries(etfs: seq<ETF>, prefs: Preferences, i: nat)
    requires i < |etfs|
    requires forall j :: i < j < |etfs| ==> etfs[j].ticker != etfs[i].ticker
    ensures etfs[i].ticker in BreakdownMap(etfs, prefs)
    ensures BreakdownMap(etfs, prefs)[etfs[i].ticker] == BreakdownOf(etfs[i], prefs)
    ensures ScoreMap(etfs, prefs)[etfs[i].ticker] == BreakdownOf(etfs[i], prefs).total
  {
    if i < |etfs| - 1 {
      var init := etfs[..|etfs| - 1];
      BreakdownMapEntries(init, prefs, i);
    }
  }

  /** With the default weights every recorded total lies between 0 and 30. */
  lemma {:induction false} BreakdownMapBounds(etfs: seq<ETF>, prefs: Preferences)
    ensures forall t :: t in BreakdownMap(etfs, prefs) ==> 0.0 <= BreakdownMap(etfs, prefs)[t].total <= 30.0
  {
    if etfs != [] {
      var init, last := etfs[..|etfs| - 1], etfs[|etfs| - 1];
      BreakdownMapBounds(init, prefs);
      BreakdownBounds(last, prefs.selectedStages, prefs.evPreference, prefs.chinaComfort,
                      prefs.riskTolerance, DefaultWeights);
      assert MaxPossible(DefaultWeights) == 30.0;
    }
  }

  /** Hence every recorded score lies between 0 and 30. */
  lemma ScoreMapBounds(etfs: seq<ETF>, prefs: Preferences)
    ensures forall t :: t in ScoreMap(etfs, prefs) ==> 0.0 <= ScoreMap(etfs, prefs)[t] <= 30.0
  {
    BreakdownMapBounds(etfs, prefs);
  }

  // ---------------------------------------------------------------
  // Ranking of ETFs
  // ---------------------------------------------------------------

  /**
    `etfScores[ticker]`. Every ETF the app sorts has been scored (BreakdownMapKeys), so the 0
    for an unrecorded ticker is never read.
  */
  function ScoreOf(etfScores: map<string, real>, ticker: string): real
  {
    if ticker in etfScores then etfScores[ticker] else 0.0
  }

  function ScoreKey(etfScores: map<string, real>): ETF -> real
  {
    (e: ETF) => ScoreOf(etfScores, e.ticker)
  }

  /**
    `sortedETFs.slice(0, maxETFs)`: the min(|filtered|, maxETFs) highest-scoring filtered ETFs,
    in non-increasing score order.
  */
  function TopETFs(filtered: seq<ETF>, etfScores: map<string, real>, maxETFs: nat): (r: seq<ETF>)
    ensures |r| == if |filtered| < maxETFs then |filtered| else maxETFs
    ensures SortedDesc(r, ScoreKey(etfScores))
    ensures forall i :: 0 <= i < |r| ==> r[i] in filtered
    ensures KeepsTop(filtered, r, ScoreKey(etfScores))
  {
    TopByKeyMembers(filtered, maxETFs, ScoreKey(etfScores));
    TopByKey(filtered, maxETFs, ScoreKey(etfScores))
  }

  /**
    Ties keep their order: the top ETFs with a given score are the first ones with that score
    in the filtered list, in filtered (that is, catalog) order.
  */
  lemma TopETFsKeepTies(filtered: seq<ETF>, etfScores: map<string, real>, maxETFs: nat, v: real)
    ensures KeyFilter(TopETFs(filtered, etfScores, maxETFs), ScoreKey(etfScores), v)
         <= KeyFilter(filtered, ScoreKey(etfScores), v)
  {
    TopByKeyKeepsTies(filtered, maxETFs, ScoreKey(etfScores), v);
  }

  // ---------------------------------------------------------------
  // Ranking of baskets
  // ---------------------------------------------------------------

  /** `{ etfs: combo, breakdown: breakdownBasket(combo, etfScores, allocations) }` */
  datatype ScoredBasket = ScoredBasket(etfs: Basket, breakdown: BasketBreakdown)

  function FinalScoreOf(b: ScoredBasket): real
  {
    b.breakdown.finalScore
  }

  /** Every basket is non-empty and made of scored ETFs, as `breakdownBasket` needs. */
  predicate AllScored(combos: seq<Basket>, etfScores: map<string, real>)
  {
    forall k :: 0 <= k < |combos| ==> |combos[k]| > 0 && Scored(combos[k], etfScores)
  }

  /** `combos.map(...)`: each basket with its breakdown. */
  function ScoreBaskets(combos: seq<Basket>, etfScores: map<string, real>, allocations: map<string, real>): seq<ScoredBasket>
    requires AllScored(combos, etfScores)
  {
    seq(|combos|, k requires 0 <= k < |combos| =>
      ScoredBasket(combos[k], BreakdownBasket(combos[k], etfScores, allocations)))
  }

  /**
    `.sort(by finalScore descending).slice(0, limit)`: the `limit` scored baskets with the
    highest final scores (or all of them), in non-increasing final score.
  */
  function RankBaskets(combos: seq<Basket>, etfScores: map<string, real>, allocations: map<string, real>, limit: nat)
    : (r: seq<ScoredBasket>)
    requires AllScored(combos, etfScores)
    ensures |r| == if |combos| < limit then |combos| else limit
    ensures SortedDesc(r, FinalScoreOf)
    ensures forall k :: 0 <= k < |r| ==> r[k] in ScoreBaskets(combos, etfScores, allocations)
    ensures KeepsTop(ScoreBaskets(combos, etfScores, allocations), r, FinalScoreOf)
  {
    TopByKeyMembers(ScoreBaskets(combos, etfScores, allocations), limit, FinalScoreOf);
    TopByKey(ScoreBaskets(combos, etfScores, allocations), limit, FinalScoreOf)
  }

  /**
    Ties keep their order: the ranked baskets with a given final score are the first ones with
    that score in the enumeration, in enumeration order.
  */
  lemma RankBasketsKeepTies(combos: seq<Basket>, etfScores: map<string, real>, allocations: map<string, real>,
                            limit: nat, v: real)
    requires AllScored(combos, etfScores)
    ensures KeyFilter(RankBaskets(combos, etfScores, allocations, limit), FinalScoreOf, v)
         <= KeyFilter(ScoreBaskets(combos, etfScores, allocations), FinalScoreOf, v)
  {
    TopByKeyKeepsTies(ScoreBaskets(combos, etfScores, allocations), limit, FinalScoreOf, v);
  }

  /** The baskets of scored ETFs are all scored. */
  lemma LiftedBasketsScored(topETFs: seq<ETF>, etfScores: map<string, real>)
    requires forall i :: 0 <= i < |topETFs| ==> topETFs[i].ticker in etfScores
    ensures AllScored(Lift2(topETFs, Pairs(|topETFs|)), etfScores)
    ensures AllScored(Lift3(topETFs, Triples(|topETFs|)), etfScores)
  {
    PairsListValid(|topETFs|);
    TriplesListValid(|topETFs|);
  }

  /** Every ETF the app ranks has a recorded score. */
  lemma TopETFsScored(catalog: seq<ETF>, prefs: Preferences, maxETFs: nat)
    ensures var filtered := FilterETFs(catalog, prefs.selectedStages, prefs.evPreference);
      var top := TopETFs(filtered, ScoreMap(filtered, prefs), maxETFs);
      forall i :: 0 <= i < |top| ==> top[i].ticker in ScoreMap(filtered, prefs)
  {
    var filtered := FilterETFs(catalog, prefs.selectedStages, prefs.evPreference);
    BreakdownMapKeys(filtered, prefs);
  }

  // ---------------------------------------------------------------
  // The whole recomputation
  // ---------------------------------------------------------------

  /**
    One render of `App`: the ranked top ETFs and the two ranked basket lists, each tied to the
    functions above. The top ETFs all pass the filter (FilterETFs, TopETFs).
  */
  method Recommend(catalog: seq<ETF>, prefs: Preferences, allocations: map<string, real>, limits: Limits)
    returns (topETFs: seq<ETF>, scoredTwo: seq<ScoredBasket>, scoredThree: seq<ScoredBasket>)
    ensures var filtered := FilterETFs(catalog, prefs.selectedStages, prefs.evPreference);
      var etfScores := ScoreMap(filtered, prefs);
      && topETFs == TopETFs(filtered, etfScores, limits.maxETFs)
      && AllScored(Lift2(topETFs, Pairs(|topETFs|)), etfScores)
      && AllScored(Lift3(topETFs, Triples(|topETFs|)), etfScores)
      && scoredTwo == RankBaskets(Lift2(topETFs, Pairs(|topETFs|)), etfScores, allocations, limits.maxTwoBaskets)
      && scoredThree == RankBaskets(Lift3(topETFs, Triples(|topETFs|)), etfScores, allocations, limits.maxThreeBaskets)
  {
    var filtered := FilterETFs(catalog, prefs.selectedStages, prefs.evPreference);
    var etfScores, etfBreakdowns := ScoreFiltered(filtered, prefs);
    topETFs := TopETFs(filtered, etfScores, limits.maxETFs);
    TopETFsScored(catalog, prefs, limits.maxETFs);
    var twoETFCombos, threeETFCombos := EnumerateBaskets(topETFs);
    LiftedBasketsScored(topETFs, etfScores);
    scoredTwo := RankBaskets(twoETFCombos, etfScores, allocations, limits.maxTwoBaskets);
    scoredThree := RankBaskets(threeETFCombos, etfScores, allocations, limits.maxThreeBaskets);
  }
}
