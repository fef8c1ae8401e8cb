/**
  Allocation aggregation: `weightedAverage` and the numeric encodings (src/App.tsx:986-1013),
  the phrase selection of `generateAllocationSummary` (src/App.tsx:1016-1075), the
  micro-insights (src/App.tsx:1080-1153), the `generateSummary` fallback (src/App.tsx:954-979),
  `clamp` (src/App.tsx:328-329) and the allocation totals (src/App.tsx:437-438).
*/
module Allocation {
  import opened Domain
  import opened Seqs

  // ---------------------------------------------------------------
  // Weighted average
  // ---------------------------------------------------------------

  /** `values.reduce((sum, v, i) => sum + v * (weights[i] / totalWeight), 0)` */
  function WeightedFold(values: seq<real>, weights: seq<real>, totalWeight: real): real
    requires |values| == |weights| && totalWeight != 0.0
  {
    if values == [] then 0.0
    else
      WeightedFold(values[..|values| - 1], weights[..|weights| - 1], totalWeight) +
        values[|values| - 1] * (weights[|weights| - 1] / totalWeight)
  }

  /** `weightedAverage`: 0 when the weights add up to 0, the normalised weighted sum otherwise. */
  function WeightedAverage(values: seq<real>, weights: seq<real>): real
    requires |values| == |weights|
  {
    var totalWeight := Sum(weights);
    if totalWeight == 0.0 then 0.0 else WeightedFold(values, weights, totalWeight)
  }

  /** The plain weighted sum of the values. */
  function Dot(values: seq<real>, weights: seq<real>): real
    requires |values| == |weights|
  {
    if values == [] then 0.0
    else Dot(values[..|values| - 1], weights[..|weights| - 1]) + values[|values| - 1] * weights[|weights| - 1]
  }

  /** The normalised fold is the weighted sum divided by the total weight. */
  lemma {:induction false} FoldTimesTotal(values: seq<real>, weights: seq<real>, totalWeight: real)
    requires |values| == |weights| && totalWeight != 0.0
    ensures WeightedFold(values, weights, totalWeight) * totalWeight == Dot(values, weights)
  {
    if values != [] {
      var vs, ws := values[..|values| - 1], weights[..|weights| - 1];
      var v, w := values[|values| - 1], weights[|weights| - 1];
      FoldTimesTotal(vs, ws, totalWeight);
      var f := WeightedFold(vs, ws, totalWeight);
      assert (f + v * (w / totalWeight)) * totalWeight == f * totalWeight + v * (w / totalWeight) * totalWeight;
      assert v * (w / totalWeight) * totalWeight == v * w;
    }
  }

  /** With non-negative weights, the weighted sum is at least lo times the total weight. */
  lemma {:induction false} DotLowerBound(values: seq<real>, weights: seq<real>, lo: real)
    requires |values| == |weights|
    requires forall i :: 0 <= i < |weights| ==> weights[i] >= 0.0
    requires forall i :: 0 <= i < |values| ==> lo <= values[i]
    ensures lo * Sum(weights) <= Dot(values, weights)
  {
    if values != [] {
      var vs, ws := values[..|values| - 1], weights[..|weights| - 1];
      var v, w := values[|values| - 1], weights[|weights| - 1];
      DotLowerBound(vs, ws, lo);
      LowerStep(Dot(vs, ws), Sum(ws), v, w, lo, Dot(values, weights), Sum(weights));
    }
  }

  /** With non-negative weights, the weighted sum is at most hi times the total weight. */
  lemma {:induction false} DotUpperBound(values: seq<real>, weights: seq<real>, hi: real)
    requires |values| == |weights|
    requires forall i :: 0 <= i < |weights| ==> weights[i] >= 0.0
    requires forall i :: 0 <= i < |values| ==> values[i] <= hi
    ensures Dot(values, weights) <= hi * Sum(weights)
  {
    if values != [] {
      var vs, ws := values[..|values| - 1], weights[..|weights| - 1];
      var v, w := values[|values| - 1], weights[|weights| - 1];
      DotUpperBound(vs, ws, hi);
      UpperStep(Dot(vs, ws), Sum(ws), v, w, hi, Dot(values, weights), Sum(weights));
    }
  }

  /** Adding a non-negative weight w of a value v >= lo keeps d' = d + v * w above lo * (s + w). */
  lemma LowerStep(d: real, s: real, v: real, w: real, lo: real, d': real, s': real)
    requires lo * s <= d && w >= 0.0 && lo <= v
    requires d' == d + v * w && s' == s + w
    ensures lo * s' <= d'
  {
    assert (v - lo) * w >= 0.0;
  }

  /** Adding a non-negative weight w of a value v <= hi keeps d' = d + v * w below hi * (s + w). */
  lemma UpperStep(d: real, s: real, v: real, w: real, hi: real, d': real, s': real)
    requires d <= hi * s && w >= 0.0 && v <= hi
    requires d' == d + v * w && s' == s + w
    ensures d' <= hi * s'
  {
    assert (hi - v) * w >= 0.0;
  }

  /**
    With non-negative weights of positive total, the weighted average lies between the least
    and the greatest value.
  */
  lemma WeightedAverageBounds(values: seq<real>, weights: seq<real>, lo: real, hi: real)
    requires |values| == |weights|
    requires forall i :: 0 <= i < |weights| ==> weights[i] >= 0.0
    requires forall i :: 0 <= i < |values| ==> lo <= values[i] <= hi
    requires Sum(weights) > 0.0
    ensures lo <= WeightedAverage(values, weights) <= hi
  {
    var t := Sum(weights);
    var r := WeightedAverage(values, weights);
    FoldTimesTotal(values, weights, t);
    DotLowerBound(values, weights, lo);
    DotUpperBound(values, weights, hi);
    assert (r - lo) * t == r * t - lo * t;
    assert (hi - r) * t == hi * t - r * t;
    SignOfProduct(r - lo, t);
    SignOfProduct(hi - r, t);
  }


  /** Weights that are all zero give a weighted average of 0, whatever the values. */
  lemma WeightedAverageOfZeroWeights(values: seq<real>, weights: seq<real>)
    requires |values| == |weights|
    requires forall i :: 0 <= i < |weights| ==> weights[i] == 0.0
    ensures WeightedAverage(values, weights) == 0.0
  {
    SumZeros(weights);
  }

  // ---------------------------------------------------------------
  // Numeric encodings
  // ---------------------------------------------------------------

  /** `riskToNumber`: 1, 2, 3 for low, medium, high. */
  function RiskToNumber(l: Level): (v: real)
    ensures 1.0 <= v <= 3.0
  {
    match l
    case Low => 1.0
    case Medium => 2.0
    case High => 3.0
  }

  /** `chinaToNumber`: 0, 0.5, 1 for low, medium, high. */
  function ChinaToNumber(l: Level): (v: real)
    ensures 0.0 <= v <= 1.0
  {
    match l
    case Low => 0.0
    case Medium => 0.5
    case High => 1.0
  }

  /** Both encodings are strictly increasing in the tier. */
  lemma EncodingsIncreasing()
    ensures RiskToNumber(Low) < RiskToNumber(Medium) < RiskToNumber(High)
    ensures ChinaToNumber(Low) < ChinaToNumber(Medium) < ChinaToNumber(High)
  {
  }

  /** `evToNumber`: 1 for an EV-themed ETF, 0 otherwise. */
  function EvToNumber(etf: ETF): (v: real)
    ensures 0.0 <= v <= 1.0
    ensures v == 1.0 <==> etf.evBatteryTheme
  {
    if etf.evBatteryTheme then 1.0 else 0.0
  }

  /** `stageCoverageScore`: the number of distinct stages, at most five, and 0 only for no stages. */
  function StageCoverageScore(etf: ETF): (v: nat)
    ensures v <= 5
    ensures v == 0 <==> etf.stages == []
  {
    StageSetAtMostFive(StageSet(etf.stages));
    StageSetEmpty(etf.stages);
    |StageSet(etf.stages)|
  }

  /** A stage list has no distinct stage exactly when it is empty. */
  lemma StageSetEmpty(stages: seq<Stage>)
    ensures StageSet(stages) == {} <==> stages == []
  {
    if stages != [] {
      assert stages[0] in StageSet(stages);
    }
  }

  /** The China encoding `generateMicroInsights` writes inline. */
  function InlineChina(etf: ETF): real
  {
    if etf.chinaExposure == Low then 0.0 else if etf.chinaExposure == Medium then 0.5 else 1.0
  }

  /** The risk encoding `generateMicroInsights` writes inline. */
  function InlineRisk(etf: ETF): real
  {
    if etf.riskLevel == Low then 1.0 else if etf.riskLevel == Medium then 2.0 else 3.0
  }

  /** The inline encodings of the micro-insights agree with the lookup tables. */
  lemma InlineEncodingsAgree(etf: ETF)
    ensures InlineChina(etf) == ChinaToNumber(etf.chinaExposure)
    ensures InlineRisk(etf) == RiskToNumber(etf.riskLevel)
  {
  }

  // ---------------------------------------------------------------
  // Weighted exposures
  // ---------------------------------------------------------------

  /** `etfs.map((e) => allocations[e.ticker] ?? 0)` */
  function AllocWeights(etfs: seq<ETF>, allocations: map<string, real>): seq<real>
  {
    seq(|etfs|, i requires 0 <= i < |etfs| => AllocationOf(allocations, etfs[i].ticker))
  }

  function EvValues(etfs: seq<ETF>): seq<real>
  {
    seq(|etfs|, i requires 0 <= i < |etfs| => EvToNumber(etfs[i]))
  }

  function ChinaValues(etfs: seq<ETF>): seq<real>
  {
    seq(|etfs|, i requires 0 <= i < |etfs| => ChinaToNumber(etfs[i].chinaExposure))
  }

  function RiskValues(etfs: seq<ETF>): seq<real>
  {
    seq(|etfs|, i requires 0 <= i < |etfs| => RiskToNumber(etfs[i].riskLevel))
  }

  function StageValues(etfs: seq<ETF>): seq<real>
  {
    seq(|etfs|, i requires 0 <= i < |etfs| => StageCoverageScore(etfs[i]) as real)
  }

  /** Encoded per ETF, the inline encodings give the same value lists as the lookup tables. */
  lemma InlineValuesAgree(etfs: seq<ETF>)
    ensures seq(|etfs|, i requires 0 <= i < |etfs| => InlineChina(etfs[i])) == ChinaValues(etfs)
    ensures seq(|etfs|, i requires 0 <= i < |etfs| => InlineRisk(etfs[i])) == RiskValues(etfs)
  {
    forall i | 0 <= i < |etfs|
      ensures InlineChina(etfs[i]) == ChinaValues(etfs)[i] && InlineRisk(etfs[i]) == RiskValues(etfs)[i]
    {
      InlineEncodingsAgree(etfs[i]);
    }
  }

  /** The four allocation-weighted exposures both narrative generators compute. */
  datatype Exposure = Exposure(ev: real, china: real, risk: real, stages: real)

  function WeightedExposure(etfs: seq<ETF>, allocations: map<string, real>): Exposure
  {
    var w := AllocWeights(etfs, allocations);
    Exposure(
      WeightedAverage(EvValues(etfs), w),
      WeightedAverage(ChinaValues(etfs), w),
      WeightedAverage(RiskValues(etfs), w),
      WeightedAverage(StageValues(etfs), w))
  }

  /** No allocation percentage is negative (the sliders run from 0 to 100). */
  predicate NonNegativeAllocations(allocations: map<string, real>)
  {
    forall t :: t in allocations ==> allocations[t] >= 0.0
  }

  /**
    With non-negative allocations of positive total, each exposure stays within the range of
    its encoding; with no allocation at all, every exposure is 0.
  */
  lemma ExposureBounds(etfs: seq<ETF>, allocations: map<string, real>)
    requires NonNegativeAllocations(allocations)
    ensures var x := WeightedExposure(etfs, allocations);
      Sum(AllocWeights(etfs, allocations)) > 0.0 ==>
        0.0 <= x.ev <= 1.0 && 0.0 <= x.china <= 1.0 && 1.0 <= x.risk <= 3.0 && 0.0 <= x.stages <= 5.0
    ensures var x := WeightedExposure(etfs, allocations);
      Sum(AllocWeights(etfs, allocations)) == 0.0 ==> x == Exposure(0.0, 0.0, 0.0, 0.0)
  {
    var w := AllocWeights(etfs, allocations);
    if Sum(w) > 0.0 {
      WeightedAverageBounds(EvValues(etfs), w, 0.0, 1.0);
      WeightedAverageBounds(ChinaValues(etfs), w, 0.0, 1.0);
      WeightedAverageBounds(RiskValues(etfs), w, 1.0, 3.0);
      WeightedAverageBounds(StageValues(etfs), w, 0.0, 5.0);
    }
  }

  /** A basket whose ETFs all sit at 0% has every exposure at 0. */
  lemma ZeroAllocationExposure(etfs: seq<ETF>, allocations: map<string, real>)
    requires forall i :: 0 <= i < |etfs| ==> AllocationOf(allocations, etfs[i].ticker) == 0.0
    ensures WeightedExposure(etfs, allocations) == Exposure(0.0, 0.0, 0.0, 0.0)
  {
    var w := AllocWeights(etfs, allocations);
    WeightedAverageOfZeroWeights(EvValues(etfs), w);
    WeightedAverageOfZeroWeights(ChinaValues(etfs), w);
    WeightedAverageOfZeroWeights(RiskValues(etfs), w);
    WeightedAverageOfZeroWeights(StageValues(etfs), w);
  }

  // ---------------------------------------------------------------
  // Micro-insights
  // ---------------------------------------------------------------

  /** The eleven micro-insight sentences. */
  datatype Insight =
    | StrongEv | ModerateEv | LowEv
    | LowChina | ModerateChina | HighChina
    | Conservative | Balanced | Aggressive
    | BroadCoverage | NarrowCoverage

  /** The EV sentence: above 0.6 strong, above 0.3 moderate, low otherwise. */
  function EvInsight(ev: real): (i: Insight)
    ensures i == StrongEv <==> ev > 0.6
    ensures i == ModerateEv <==> 0.3 < ev <= 0.6
    ensures i == LowEv <==> ev <= 0.3
  {
    if ev > 0.6 then StrongEv else if ev > 0.3 then ModerateEv else LowEv
  }

  /** The China sentence: below 0.3 low, below 0.6 moderate, high otherwise. */
  function ChinaInsight(china: real): (i: Insight)
    ensures i == LowChina <==> china < 0.3
    ensures i == ModerateChina <==> 0.3 <= china < 0.6
    ensures i == HighChina <==> china >= 0.6
  {
    if china < 0.3 then LowChina else if china < 0.6 then ModerateChina else HighChina
  }

  /** The risk sentence: below 1.7 conservative, below 2.3 balanced, aggressive otherwise. */
  function RiskInsight(risk: real): (i: Insight)
    ensures i == Conservative <==> risk < 1.7
    ensures i == Balanced <==> 1.7 <= risk < 2.3
    ensures i == Aggressive <==> risk >= 2.3
  {
    if risk < 1.7 then Conservative else if risk < 2.3 then Balanced else Aggressive
  }

  /** The coverage sentence: at least three stages broad, narrow otherwise. */
  function CoverageInsight(stages: real): (i: Insight)
    ensures i == BroadCoverage <==> stages >= 3.0
    ensures i == NarrowCoverage <==> stages < 3.0
  {
    if stages >= 3.0 then BroadCoverage else NarrowCoverage
  }

  /**
    `generateMicroInsights`: nothing for an empty selection, otherwise one EV, one China,
    one risk and one coverage sentence, in that order, chosen from the weighted exposures.
  */
  method GenerateMicroInsights(etfs: seq<ETF>, allocations: map<string, real>) returns (insights: seq<Insight>)
    ensures etfs == [] ==> insights == []
    ensures etfs != [] ==>
      var x := WeightedExposure(etfs, allocations);
      insights == [EvInsight(x.ev), ChinaInsight(x.china), RiskInsight(x.risk), CoverageInsight(x.stages)]
  {
    if |etfs| == 0 {
      return [];
    }
    var allocWeights := AllocWeights(etfs, allocations);
    var evValues := EvValues(etfs);
    var chinaValues := seq(|etfs|, i requires 0 <= i < |etfs| => InlineChina(etfs[i]));
    var riskValues := seq(|etfs|, i requires 0 <= i < |etfs| => InlineRisk(etfs[i]));
    var stageValues := StageValues(etfs);
    InlineValuesAgree(etfs);

    var weightedEV := WeightedAverage(evValues, allocWeights);
    var weightedChina := WeightedAverage(chinaValues, allocWeights);
    var weightedRisk := WeightedAverage(riskValues, allocWeights);
    var weightedStages := WeightedAverage(stageValues, allocWeights);

    insights := [];
    if weightedEV > 0.6 {
      insights := insights + [StrongEv];
    } else if weightedEV > 0.3 {
      insights := insights + [ModerateEv];
    } else {
      insights := insights + [LowEv];
    }
    ghost var withEv := insights;
    assert withEv == [EvInsight(weightedEV)];
    if weightedChina < 0.3 {
      insights := insights + [LowChina];
    } else if weightedChina < 0.6 {
      insights := insights + [ModerateChina];
    } else {
      insights := insights + [HighChina];
    }
    ghost var withChina := insights;
    assert withChina == withEv + [ChinaInsight(weightedChina)];
    if weightedRisk < 1.7 {
      insights := insights + [Conservative];
    } else if weightedRisk < 2.3 {
      insights := insights + [Balanced];
    } else {
      insights := insights + [Aggressive];
    }
    ghost var withRisk := insights;
    assert withRisk == withChina + [RiskInsight(weightedRisk)];
    if weightedStages >= 3.0 {
      insights := insights + [BroadCoverage];
    } else {
      insights := insights + [NarrowCoverage];
    }
    assert insights == withRisk + [CoverageInsight(weightedStages)];
    AppendFour(EvInsight(weightedEV), ChinaInsight(weightedChina), RiskInsight(weightedRisk), CoverageInsight(weightedStages));
    assert WeightedExposure(etfs, allocations) == Exposure(weightedEV, weightedChina, weightedRisk, weightedStages);
  }

  /** Four single pushes onto an empty list build the four-element list. */
  lemma AppendFour<T>(a: T, b: T, c: T, d: T)
    ensures [a] + [b] + [c] + [d] == [a, b, c, d]
  {
  }

  /**
    A basket whose ETFs all sit at 0% gets the low-EV, low-China, conservative and narrow
    sentences.
  */
  lemma InsightsForZeroAllocations(etfs: seq<ETF>, allocations: map<string, real>)
    requires forall i :: 0 <= i < |etfs| ==> AllocationOf(allocations, etfs[i].ticker) == 0.0
    ensures var x := WeightedExposure(etfs, allocations);
      [EvInsight(x.ev), ChinaInsight(x.china), RiskInsight(x.risk), CoverageInsight(x.stages)]
      == [LowEv, LowChina, Conservative, NarrowCoverage]
  {
    ZeroAllocationExposure(etfs, allocations);
  }

  // ---------------------------------------------------------------
  // Allocation summary narrative
  // ---------------------------------------------------------------

  datatype RiskEmphasis = HigherVolatility | BalancedRisk
  datatype EvEmphasis = StrongEvAlignment | ModerateEvExposure
  datatype ChinaProfile = LowDependency | ModerateExposure | HighConcentration
  datatype CoverageProfile = BroadDiversification | FocusedExposure

  /**
    What `generateAllocationSummary` reports: the allocation total, the four exposures and the
    four phrase choices; the rendered text and its number formatting are not modelled.
  */
  datatype AllocationSummary =
    | NoEtfsSelected
    | Narrative(
        totalAlloc: real,
        exposure: Exposure,
        riskEmphasis: RiskEmphasis,
        evEmphasis: EvEmphasis,
        chinaProfile: ChinaProfile,
        coverageProfile: CoverageProfile)

  function RiskEmphasisOf(risk: real): (p: RiskEmphasis)
    ensures p == HigherVolatility <==> risk > 2.0
  {
    if risk > 2.0 then HigherVolatility else BalancedRisk
  }

  function EvEmphasisOf(ev: real): (p: EvEmphasis)
    ensures p == StrongEvAlignment <==> ev > 0.5
  {
    if ev > 0.5 then StrongEvAlignment else ModerateEvExposure
  }

  function ChinaProfileOf(china: real): (p: ChinaProfile)
    ensures p == LowDependency <==> china < 0.3
    ensures p == ModerateExposure <==> 0.3 <= china < 0.6
    ensures p == HighConcentration <==> china >= 0.6
  {
    if china < 0.3 then LowDependency else if china < 0.6 then ModerateExposure else HighConcentration
  }

  function CoverageProfileOf(stages: real): (p: CoverageProfile)
    ensures p == BroadDiversification <==> stages >= 3.0
  {
    if stages >= 3.0 then BroadDiversification else FocusedExposure
  }

  /** `generateAllocationSummary`, reduced to the numbers and phrases it chooses. */
  function GenerateAllocationSummary(etfs: seq<ETF>, allocations: map<string, real>): (s: AllocationSummary)
    ensures s.NoEtfsSelected? <==> etfs == []
    ensures s.Narrative? ==> s.totalAlloc == Sum(AllocWeights(etfs, allocations))
    ensures s.Narrative? ==> s.exposure == WeightedExposure(etfs, allocations)
    ensures s.Narrative? ==> (s.riskEmphasis == HigherVolatility <==> s.exposure.risk > 2.0)
    ensures s.Narrative? ==> (s.evEmphasis == StrongEvAlignment <==> s.exposure.ev > 0.5)
    ensures s.Narrative? ==>
      && (s.chinaProfile == LowDependency <==> s.exposure.china < 0.3)
      && (s.chinaProfile == ModerateExposure <==> 0.3 <= s.exposure.china < 0.6)
      && (s.chinaProfile == HighConcentration <==> s.exposure.china >= 0.6)
    ensures s.Narrative? ==> (s.coverageProfile == BroadDiversification <==> s.exposure.stages >= 3.0)
  {
    if |etfs| == 0 then NoEtfsSelected
    else
      var x := WeightedExposure(etfs, allocations);
      Narrative(
        Sum(AllocWeights(etfs, allocations)), x,
        RiskEmphasisOf(x.risk), EvEmphasisOf(x.ev), ChinaProfileOf(x.china), CoverageProfileOf(x.stages))
  }

  /**
    The summary and the micro-insights read the same exposures. The China and coverage phrases
    use the same cut points as the insights; the EV phrase calls 0.5 < ev <= 0.6 strong where
    the insight calls it moderate, and the risk phrase calls 2 < risk < 2.3 higher-volatility
    where the insight calls it balanced.
  */
  lemma SummaryAndInsightsAgree(x: Exposure)
    ensures ChinaProfileOf(x.china) == LowDependency <==> ChinaInsight(x.china) == LowChina
    ensures ChinaProfileOf(x.china) == ModerateExposure <==> ChinaInsight(x.china) == ModerateChina
    ensures ChinaProfileOf(x.china) == HighConcentration <==> ChinaInsight(x.china) == HighChina
    ensures CoverageProfileOf(x.stages) == BroadDiversification <==> CoverageInsight(x.stages) == BroadCoverage
    ensures EvInsight(x.ev) == StrongEv ==> EvEmphasisOf(x.ev) == StrongEvAlignment
    ensures EvEmphasisOf(x.ev) == StrongEvAlignment ==> EvInsight(x.ev) != LowEv
    ensures RiskInsight(x.risk) == Aggressive ==> RiskEmphasisOf(x.risk) == HigherVolatility
    ensures RiskEmphasisOf(x.risk) == HigherVolatility ==> RiskInsight(x.risk) != Conservative
  {
  }

  /** The two generators disagree on an EV exposure of 0.55 and on a risk of 2.1. */
  lemma SummaryAndInsightsDiffer()
    ensures EvEmphasisOf(0.55) == StrongEvAlignment && EvInsight(0.55) == ModerateEv
    ensures RiskEmphasisOf(2.1) == HigherVolatility && RiskInsight(2.1) == Balanced
  {
  }

  /**
    For the same basket and allocations, the summary's China and coverage tiers are those of the
    micro-insights, and its EV and risk phrases never contradict the opposite extreme insight.
  */
  lemma AllocationSummaryMatchesInsights(etfs: seq<ETF>, allocations: map<string, real>)
    requires etfs != []
    ensures var s := GenerateAllocationSummary(etfs, allocations);
      var x := WeightedExposure(etfs, allocations);
      && s.Narrative?
      && (s.chinaProfile == LowDependency <==> ChinaInsight(x.china) == LowChina)
      && (s.chinaProfile == HighConcentration <==> ChinaInsight(x.china) == HighChina)
      && (s.coverageProfile == BroadDiversification <==> CoverageInsight(x.stages) == BroadCoverage)
      && (EvInsight(x.ev) == StrongEv ==> s.evEmphasis == StrongEvAlignment)
      && (s.evEmphasis == StrongEvAlignment ==> EvInsight(x.ev) != LowEv)
      && (RiskInsight(x.risk) == Aggressive ==> s.riskEmphasis == HigherVolatility)
      && (s.riskEmphasis == HigherVolatility ==> RiskInsight(x.risk) != Conservative)
  {
    SummaryAndInsightsAgree(WeightedExposure(etfs, allocations));
  }

  // ---------------------------------------------------------------
  // Recommendation summary
  // ---------------------------------------------------------------

  /**
    What `generateSummary` reports: the fallback for an empty list, or the preferences
    (`NoStages` standing for the "no specific stages" text) and the first five ETFs.
  */
  datatype RecommendationSummary =
    | NoMatch
    | Recommendations(
        stages: seq<Stage>,
        noStagesSelected: bool,
        evPreference: bool,
        chinaComfort: ChinaComfort,
        riskTolerance: Level,
        listed: seq<ScoredETF>)

  function GenerateSummary(
    topETFs: seq<ScoredETF>, selectedStages: seq<Stage>, evPreference: bool,
    chinaComfort: ChinaComfort, riskTolerance: Level): (s: RecommendationSummary)
    ensures s.NoMatch? <==> topETFs == []
    ensures s.Recommendations? ==>
      && |s.listed| == (if |topETFs| < 5 then |topETFs| else 5)
      && s.listed <= topETFs
      && (s.noStagesSelected <==> selectedStages == [])
      && s.stages == selectedStages
  {
    if |topETFs| == 0 then NoMatch
    else Recommendations(selectedStages, selectedStages == [], evPreference, chinaComfort, riskTolerance, Take(topETFs, 5))
  }

  // ---------------------------------------------------------------
  // Clamp and totals
  // ---------------------------------------------------------------

  /** `clamp(value, min, max)`, i.e. `Math.max(min, Math.min(max, value))`. */
  function Clamp(value: real, min: real, max: real): (r: real)
    ensures min <= max ==> min <= r <= max
    ensures min <= value <= max ==> r == value
    ensures value < min ==> r == min
    ensures min <= max && max < value ==> r == max
    ensures max < min ==> r == min
  {
    var inner := if max < value then max else value;
    if min > inner then min else inner
  }

  /** Clamping twice to a proper range is clamping once. */
  lemma ClampIdempotent(value: real, min: real, max: real)
    requires min <= max
    ensures Clamp(Clamp(value, min, max), min, max) == Clamp(value, min, max)
  {
  }

  /**
    `AllocationTotals`: the allocated total and the remaining percentage. The remaining part
    stays within 0 and 100, is 0 once the total reaches 100, and completes a total within
    0 .. 100 to exactly 100.
  */
  function AllocationTotals(values: seq<real>): (r: (real, real))
    ensures r.0 == Sum(values)
    ensures 0.0 <= r.1 <= 100.0
    ensures r.0 >= 100.0 ==> r.1 == 0.0
    ensures 0.0 <= r.0 <= 100.0 ==> r.0 + r.1 == 100.0
    ensures r.0 < 0.0 ==> r.1 == 100.0
  {
    var total := Sum(values);
    (total, Clamp(100.0 - total, 0.0, 100.0))
  }
}
