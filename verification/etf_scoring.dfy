/**
  The per-ETF scorer: the canonical `breakdownETFScore` (src/App.tsx:664-723) and the older
  `scoreETF` (src/App.tsx:805-852), which differs only in gating the EV weight on the user's
  EV preference.
*/
module EtfScoring {
  import opened Domain
  import opened Seqs

  /** `ETFScoreBreakdown`: six components, their total, the attainable maximum and the percentage. */
  datatype ETFScoreBreakdown = ETFScoreBreakdown(
    upstream: real,
    midstream: real,
    downstream: real,
    ev: real,
    china: real,
    risk: real,
    total: real,
    maxPossible: real,
    normalized: real)

  /** The sum of the six weights. */
  function MaxPossible(w: Weights): real
  {
    w.upstream + w.midstream + w.downstream + w.evBattery + w.chinaExposure + w.riskTolerance
  }

  predicate NonNegativeWeights(w: Weights)
  {
    w.upstream >= 0.0 && w.midstream >= 0.0 && w.downstream >= 0.0 &&
    w.evBattery >= 0.0 && w.chinaExposure >= 0.0 && w.riskTolerance >= 0.0
  }

  /** The China component fires for prefer_low with a low-exposure ETF, or prefer_high with a high one. */
  predicate ChinaAligned(comfort: ChinaComfort, exposure: Level)
  {
    (comfort == PreferLow && exposure == Low) || (comfort == PreferHigh && exposure == High)
  }

  /** The group component is awarded when the user selected a stage of the group and the ETF has one. */
  predicate GroupAwarded(selectedStages: seq<Stage>, etf: ETF, g: Group)
  {
    TouchesGroup(selectedStages, g) && TouchesGroup(etf.stages, g)
  }

  /**
    `breakdownETFScore`. Every component is all of its weight or nothing; the EV component
    ignores `evPreference`. The source divides by `maxPossible` without a guard, so a zero
    weight sum is excluded here rather than given a value.
  */
  function BreakdownETFScore(
    etf: ETF,
    selectedStages: seq<Stage>,
    evPreference: bool,
    chinaComfort: ChinaComfort,
    riskTolerance: Level,
    weights: Weights): ETFScoreBreakdown
    requires MaxPossible(weights) > 0.0
  {
    var hasUp := SomeIn(etf.stages, UpstreamStages);
    var hasMid := SomeIn(etf.stages, MidstreamStages);
    var hasDown := SomeIn(etf.stages, DownstreamStages);
    var upstream := if SomeIn(selectedStages, UpstreamStages) && hasUp then weights.upstream else 0.0;
    var midstream := if SomeIn(selectedStages, MidstreamStages) && hasMid then weights.midstream else 0.0;
    var downstream := if SomeIn(selectedStages, DownstreamStages) && hasDown then weights.downstream else 0.0;
    var ev := if etf.evBatteryTheme then weights.evBattery else 0.0;
    var china0 := if chinaComfort == PreferLow && etf.chinaExposure == Low then weights.chinaExposure else 0.0;
    var china := if chinaComfort == PreferHigh && etf.chinaExposure == High then weights.chinaExposure else china0;
    var risk := if riskTolerance == etf.riskLevel then weights.riskTolerance else 0.0;
    var total := upstream + midstream + downstream + ev + china + risk;
    var maxPossible := MaxPossible(weights);
    var normalized := Percentage(total, maxPossible);
    ETFScoreBreakdown(upstream, midstream, downstream, ev, china, risk, total, maxPossible, normalized)
  }

  /**
    Each component is its whole weight or nothing: a stage group scores when both the user's
    selection and the ETF touch it, EV on the ETF's theme alone, China on an aligned exposure,
    risk on an exact tier match.
  */
  lemma BreakdownComponents(
    etf: ETF, selectedStages: seq<Stage>, evPreference: bool, chinaComfort: ChinaComfort,
    riskTolerance: Level, weights: Weights)
    requires MaxPossible(weights) > 0.0
    ensures var r := BreakdownETFScore(etf, selectedStages, evPreference, chinaComfort, riskTolerance, weights);
      && r.upstream == (if GroupAwarded(selectedStages, etf, Up) then weights.upstream else 0.0)
      && r.midstream == (if GroupAwarded(selectedStages, etf, Mid) then weights.midstream else 0.0)
      && r.downstream == (if GroupAwarded(selectedStages, etf, Down) then weights.downstream else 0.0)
      && r.ev == (if etf.evBatteryTheme then weights.evBattery else 0.0)
      && r.china == (if ChinaAligned(chinaComfort, etf.chinaExposure) then weights.chinaExposure else 0.0)
      && r.risk == (if riskTolerance == etf.riskLevel then weights.riskTolerance else 0.0)
  {
    StageListsClassify(selectedStages);
    StageListsClassify(etf.stages);
  }

  /** The total is the sum of the six components, the maximum the sum of the weights, and the percentage their ratio. */
  lemma BreakdownTotal(
    etf: ETF, selectedStages: seq<Stage>, evPreference: bool, chinaComfort: ChinaComfort,
    riskTolerance: Level, weights: Weights)
    requires MaxPossible(weights) > 0.0
    ensures var r := BreakdownETFScore(etf, selectedStages, evPreference, chinaComfort, riskTolerance, weights);
      && r.total == r.upstream + r.midstream + r.downstream + r.ev + r.china + r.risk
      && r.maxPossible == MaxPossible(weights)
      && r.normalized == Percentage(r.total, r.maxPossible)
  {
  }

  /**
    With non-negative weights every component lies between 0 and its weight, so the total lies
    between 0 and the maximum and the percentage between 0 and 100.
  */
  lemma BreakdownBounds(
    etf: ETF, selectedStages: seq<Stage>, evPreference: bool, chinaComfort: ChinaComfort,
    riskTolerance: Level, weights: Weights)
    requires MaxPossible(weights) > 0.0
    requires NonNegativeWeights(weights)
    ensures var r := BreakdownETFScore(etf, selectedStages, evPreference, chinaComfort, riskTolerance, weights);
      0.0 <= r.total <= r.maxPossible && 0.0 <= r.normalized <= 100.0
  {
    var r := BreakdownETFScore(etf, selectedStages, evPreference, chinaComfort, riskTolerance, weights);
    assert 0.0 <= r.total <= r.maxPossible;
    PercentageRange(r.total, r.maxPossible);
  }

  /** `(total / maxPossible) * 100`. */
  function Percentage(total: real, maxPossible: real): real
    requires maxPossible > 0.0
  {
    (total / maxPossible) * 100.0
  }

  /** The percentage scaled back by the maximum is 100 times the total; it lies in [0, 100] for a total in [0, maximum]. */
  lemma PercentageRange(total: real, maxPossible: real)
    requires maxPossible > 0.0
    ensures Percentage(total, maxPossible) * maxPossible == total * 100.0
    ensures 0.0 <= total <= maxPossible ==> 0.0 <= Percentage(total, maxPossible) <= 100.0
  {
    var q := total / maxPossible;
    assert q * maxPossible == total;
    assert (q - 1.0) * maxPossible == total - maxPossible;
    SignOfProduct(q, maxPossible);
    SignOfProduct(q - 1.0, maxPossible);
  }


  /** `scoreETF`: the same matching rules, but the EV weight is added only under `evPreference`. */
  function ScoreETF(
    etf: ETF,
    selectedStages: seq<Stage>,
    evPreference: bool,
    chinaComfort: ChinaComfort,
    riskTolerance: Level,
    weights: Weights): (score: real)
    ensures NonNegativeWeights(weights) ==> 0.0 <= score <= MaxPossible(weights)
  {
    var hasUpstream := SomeIn(etf.stages, UpstreamStages);
    var hasMidstream := SomeIn(etf.stages, MidstreamStages);
    var hasDownstream := SomeIn(etf.stages, DownstreamStages);
    var s0 := 0.0;
    var s1 := if SomeIn(selectedStages, UpstreamStages) && hasUpstream then s0 + weights.upstream else s0;
    var s2 := if SomeIn(selectedStages, MidstreamStages) && hasMidstream then s1 + weights.midstream else s1;
    var s3 := if SomeIn(selectedStages, DownstreamStages) && hasDownstream then s2 + weights.downstream else s2;
    var s4 := if evPreference && etf.evBatteryTheme then s3 + weights.evBattery else s3;
    var s5 := if chinaComfort == PreferLow && etf.chinaExposure == Low then s4 + weights.chinaExposure else s4;
    var s6 := if chinaComfort == PreferHigh && etf.chinaExposure == High then s5 + weights.chinaExposure else s5;
    var s7 := if riskTolerance == etf.riskLevel then s6 + weights.riskTolerance else s6;
    s7
  }

  /** The breakdown does not depend on the EV preference at all. */
  lemma BreakdownIgnoresEvPreference(
    etf: ETF, selectedStages: seq<Stage>, chinaComfort: ChinaComfort, riskTolerance: Level, weights: Weights)
    requires MaxPossible(weights) > 0.0
    ensures BreakdownETFScore(etf, selectedStages, true, chinaComfort, riskTolerance, weights)
         == BreakdownETFScore(etf, selectedStages, false, chinaComfort, riskTolerance, weights)
  {
  }

  /**
    The two scorers agree except for an EV-themed ETF scored without EV preference, where the
    legacy score lacks exactly the EV weight.
  */
  lemma ScoreETFAgreesWithBreakdown(
    etf: ETF, selectedStages: seq<Stage>, evPreference: bool, chinaComfort: ChinaComfort,
    riskTolerance: Level, weights: Weights)
    requires MaxPossible(weights) > 0.0
    ensures evPreference || !etf.evBatteryTheme ==>
      ScoreETF(etf, selectedStages, evPreference, chinaComfort, riskTolerance, weights)
      == BreakdownETFScore(etf, selectedStages, evPreference, chinaComfort, riskTolerance, weights).total
    ensures !evPreference && etf.evBatteryTheme ==>
      ScoreETF(etf, selectedStages, evPreference, chinaComfort, riskTolerance, weights)
      == BreakdownETFScore(etf, selectedStages, evPreference, chinaComfort, riskTolerance, weights).total
         - weights.evBattery
  {
  }

  /**
    A worked example: stages {mining, processing}, EV-themed, medium China exposure, high risk;
    the user selects {mining}, prefers high China exposure and tolerates high risk; all weights 5.
    Upstream, EV and risk fire: 15 of 30, i.e. 50%.
  */
  lemma ExampleBreakdown()
    ensures var etf := ETF("X", "Example", [Mining, Processing], true, Medium, High);
            var b := BreakdownETFScore(etf, [Mining], false, PreferHigh, High, DefaultWeights);
            b.upstream == 5.0 && b.midstream == 0.0 && b.downstream == 0.0 && b.ev == 5.0 &&
            b.china == 0.0 && b.risk == 5.0 && b.total == 15.0 && b.maxPossible == 30.0 &&
            b.normalized == 50.0
  {
    var etf := ETF("X", "Example", [Mining, Processing], true, Medium, High);
    assert GroupOf(Mining) == Up;
    assert GroupOf(Processing) == Mid;
    assert forall s :: s in [Mining] ==> GroupOf(s) == Up;
    var b := BreakdownETFScore(etf, [Mining], false, PreferHigh, High, DefaultWeights);
    PercentageRange(b.total, b.maxPossible);
    assert b.normalized * 30.0 == 1500.0;
  }

  /** The comfort values written by the UI select and the presets never fire the China component. */
  lemma UiComfortNeverScoresChina(
    etf: ETF, selectedStages: seq<Stage>, evPreference: bool, comfort: ChinaComfort,
    riskTolerance: Level, weights: Weights)
    requires MaxPossible(weights) > 0.0
    requires comfort in {SelectLow, SelectMedium, SelectHigh, Neutral}
    ensures BreakdownETFScore(etf, selectedStages, evPreference, comfort, riskTolerance, weights).china == 0.0
  {
  }
}
