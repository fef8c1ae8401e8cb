/**
  The user-input state of `App` (src/App.tsx:1538-1554) and the scenario presets of
  `applyScenario` (src/App.tsx:1158-1208), which overwrite the preferences and then reset the
  allocations of the displayed ETFs to 0%.
*/
module Scenario {
  import opened Domain
  import opened Allocation

  /** The five preset names `applyScenario` recognises. */
  const KnownScenarios: set<string> := {"growth", "riskManaged", "diversified", "batteryMetals", "chinaHedge"}

  /** `reset`: every given ticker at 0%, and no other entry. */
  method ResetAllocations(topETFs: seq<ETF>) returns (reset: map<string, real>)
    ensures reset.Keys == Tickers(topETFs)
    ensures forall t :: t in reset ==> reset[t] == 0.0
  {
    reset := map[];
    for i := 0 to |topETFs|
      invariant reset.Keys == Tickers(topETFs[..i])
      invariant forall t :: t in reset ==> reset[t] == 0.0
    {
      TickersSnoc(topETFs[..i], topETFs[i]);
      assert topETFs[..i + 1] == topETFs[..i] + [topETFs[i]];
      reset := reset[topETFs[i].ticker := 0.0];
    }
    assert topETFs[..|topETFs|] == topETFs;
  }

  /**
    After a reset every displayed ETF sits at 0%, so all four weighted exposures are 0 and the
    micro-insights are the low-EV, low-China, conservative and narrow set.
  */
  lemma ResetClearsExposure(topETFs: seq<ETF>, reset: map<string, real>)
    requires reset.Keys == Tickers(topETFs)
    requires forall t :: t in reset ==> reset[t] == 0.0
    ensures forall i :: 0 <= i < |topETFs| ==> AllocationOf(reset, topETFs[i].ticker) == 0.0
    ensures WeightedExposure(topETFs, reset) == Exposure(0.0, 0.0, 0.0, 0.0)
    ensures var x := WeightedExposure(topETFs, reset);
      [EvInsight(x.ev), ChinaInsight(x.china), RiskInsight(x.risk), CoverageInsight(x.stages)]
      == [LowEv, LowChina, Conservative, NarrowCoverage]
  {
    ZeroAllocationExposure(topETFs, reset);
    InsightsForZeroAllocations(topETFs, reset);
  }

  /** The preference and allocation state `App` keeps with `useState`. */
  class AppState {
    var selectedStages: seq<Stage>
    var evPreference: bool
    var chinaComfort: ChinaComfort
    var riskTolerance: Level
    var allocations: map<string, real>

    /** The initial state: no stages, no EV preference, neutral China comfort, medium risk, no allocations. */
    constructor ()
      ensures selectedStages == [] && !evPreference && chinaComfort == Neutral && riskTolerance == Medium
      ensures allocations == map[]
    {
      selectedStages := [];
      evPreference := false;
      chinaComfort := Neutral;
      riskTolerance := Medium;
      allocations := map[];
    }

    /** The four preferences the scorer reads. */
    function Prefs(): Preferences
      reads this
    {
      Preferences(selectedStages, evPreference, chinaComfort, riskTolerance)
    }

    /** `setAllocation`: one ticker's slider value, the rest untouched. */
    method SetAllocation(ticker: string, value: real)
      modifies this
      ensures allocations == old(allocations)[ticker := value]
      ensures Prefs() == old(Prefs())
    {
      allocations := allocations[ticker := value];
    }

    /**
      `applyScenario`: a preset name sets its stage list, EV preference, China comfort and risk
      tolerance; any other name leaves them as they were. Either way the allocations become
      exactly the displayed tickers at 0%.
    */
    method ApplyScenario(name: string, topETFs: seq<ETF>)
      modifies this
      ensures name == "growth" ==>
        Prefs() == Preferences([Components, EndProducts], true, SelectMedium, High)
      ensures name == "riskManaged" ==>
        Prefs() == Preferences([Exploration, Mining, Processing], false, SelectLow, Low)
      ensures name == "diversified" ==>
        Prefs() == Preferences([Exploration, Mining, Processing, Components], false, SelectMedium, Medium)
      ensures name == "batteryMetals" ==>
        Prefs() == Preferences([Mining, Processing], true, SelectMedium, Medium)
      ensures name == "chinaHedge" ==>
        Prefs() == Preferences([Exploration, Mining, Processing], false, SelectLow, Medium)
      ensures name !in KnownScenarios ==> Prefs() == old(Prefs())
      ensures allocations.Keys == Tickers(topETFs)
      ensures forall t :: t in allocations ==> allocations[t] == 0.0
    {
      if name == "growth" {
        selectedStages := [Components, EndProducts];
        evPreference := true;
        chinaComfort := SelectMedium;
        riskTolerance := High;
      } else if name == "riskManaged" {
        selectedStages := [Exploration, Mining, Processing];
        evPreference := false;
        chinaComfort := SelectLow;
        riskTolerance := Low;
      } else if name == "diversified" {
        selectedStages := [Exploration, Mining, Processing, Components];
        evPreference := false;
        chinaComfort := SelectMedium;
        riskTolerance := Medium;
      } else if name == "batteryMetals" {
        selectedStages := [Mining, Processing];
        evPreference := true;
        chinaComfort := SelectMedium;
        riskTolerance := Medium;
      } else if name == "chinaHedge" {
        selectedStages := [Exploration, Mining, Processing];
        evPreference := false;
        chinaComfort := SelectLow;
        riskTolerance := Medium;
      }
      var reset := ResetAllocations(topETFs);
      allocations := reset;
    }
  }
}
