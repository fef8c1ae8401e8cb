/**
  The entities the scoring engine works on: supply-chain stages, tiers, ETF records,
  user preferences and factor weights, and the stage classifier (src/App.tsx:11-44, 657-659).
*/
module Domain {

  /** The five supply-chain stages (`StageKey`). */
  datatype Stage = Exploration | Mining | Processing | Components | EndProducts

  /** A low/medium/high tier, used both for `RiskLevel` and for `ChinaExposure`. */
  datatype Level = Low | Medium | High

  /**
    China-exposure comfort. The scorer only knows "neutral", "prefer_low" and "prefer_high",
    but the selector in the UI and the scenario presets store "low", "medium" and "high"
    (SelectLow, SelectMedium, SelectHigh), so the type admits all six values.
  */
  datatype ChinaComfort = Neutral | PreferLow | PreferHigh | SelectLow | SelectMedium | SelectHigh

  /** A catalog record. */
  datatype ETF = ETF(
    ticker: string,
    name: string,
    stages: seq<Stage>,
    evBatteryTheme: bool,
    chinaExposure: Level,
    riskLevel: Level)

  /** An ETF together with the score fields of `ScoredETF`. */
  datatype ScoredETF = ScoredETF(etf: ETF, score: real, overlapScore: real)

  /** The six factor weights (`Weights`), 0-10 slider values in the UI. */
  datatype Weights = Weights(
    upstream: real,
    midstream: real,
    downstream: real,
    evBattery: real,
    chinaExposure: real,
    riskTolerance: real)

  /** `DEFAULT_WEIGHTS`: every weight is 5. */
  const DefaultWeights := Weights(5.0, 5.0, 5.0, 5.0, 5.0, 5.0)

  /** The preference vector the user edits. */
  datatype Preferences = Preferences(
    selectedStages: seq<Stage>,
    evPreference: bool,
    chinaComfort: ChinaComfort,
    riskTolerance: Level)

  /** The stage groups `UPSTREAM`, `MIDSTREAM` and `DOWNSTREAM`, as the source lists them. */
  const UpstreamStages: seq<Stage> := [Exploration, Mining]
  const MidstreamStages: seq<Stage> := [Processing, Components]
  const DownstreamStages: seq<Stage> := [EndProducts]

  /** `xs.some((s) => group.includes(s))` */
  predicate SomeIn(xs: seq<Stage>, group: seq<Stage>)
  {
    xs != [] && (xs[0] in group || SomeIn(xs[1..], group))
  }

  /** The macro-groups, as an independent classification of each stage. */
  datatype Group = Up | Mid | Down

  function GroupOf(s: Stage): Group
  {
    match s
    case Exploration => Up
    case Mining => Up
    case Processing => Mid
    case Components => Mid
    case EndProducts => Down
  }

  /** Some stage of `xs` falls into macro-group `g`. */
  predicate TouchesGroup(xs: seq<Stage>, g: Group)
  {
    xs != [] && (GroupOf(xs[0]) == g || TouchesGroup(xs[1..], g))
  }

  /** The three stage lists partition the stages exactly as the macro-group classifier does. */
  lemma {:induction false} StageListsClassify(xs: seq<Stage>)
    ensures SomeIn(xs, UpstreamStages) <==> TouchesGroup(xs, Up)
    ensures SomeIn(xs, MidstreamStages) <==> TouchesGroup(xs, Mid)
    ensures SomeIn(xs, DownstreamStages) <==> TouchesGroup(xs, Down)
  {
    if xs != [] {
      StageListsClassify(xs[1..]);
    }
  }

  /** The distinct stages of a stage list (`new Set(stages)`). */
  function StageSet(xs: seq<Stage>): set<Stage>
  {
    set s | s in xs
  }

  const AllStages: set<Stage> := {Exploration, Mining, Processing, Components, EndProducts}

  /** Any set of stages has at most five elements. */
  lemma StageSetAtMostFive(s: set<Stage>)
    ensures |s| <= 5
  {
    assert s <= AllStages by {
      forall x | x in s ensures x in AllStages {
        match x
        case Exploration =>
        case Mining =>
        case Processing =>
        case Components =>
        case EndProducts =>
      }
    }
    assert s + (AllStages - s) == AllStages;
    assert s * (AllStages - s) == {};
    assert |AllStages| == 5;
  }

  /** Any set of tiers has at most three elements. */
  lemma LevelSetAtMostThree(s: set<Level>)
    ensures |s| <= 3
  {
    var all := {Low, Medium, High};
    assert s <= all by {
      forall x | x in s ensures x in all {
        match x
        case Low =>
        case Medium =>
        case High =>
      }
    }
    assert s + (all - s) == all;
    assert s * (all - s) == {};
    assert |all| == 3;
  }

  /** A stage list without repetitions. */
  predicate NoDuplicates(xs: seq<Stage>)
  {
    forall i, j :: 0 <= i < j < |xs| ==> xs[i] != xs[j]
  }

  /** The catalog invariant: no two records share a ticker. */
  predicate UniqueTickers(etfs: seq<ETF>)
  {
    forall i, j :: 0 <= i < j < |etfs| ==> etfs[i].ticker != etfs[j].ticker
  }

  /** The set of tickers of a list of ETFs. */
  function Tickers(etfs: seq<ETF>): set<string>
  {
    set e | e in etfs :: e.ticker
  }

  /** Appending an ETF adds exactly its ticker. */
  lemma TickersSnoc(init: seq<ETF>, last: ETF)
    ensures Tickers(init + [last]) == Tickers(init) + {last.ticker}
  {
    var etfs := init + [last];
    forall t | t in Tickers(etfs) ensures t in Tickers(init) + {last.ticker} {
      var e :| e in etfs && e.ticker == t;
      if e != last {
        assert e in init;
      }
    }
    forall t | t in Tickers(init) ensures t in Tickers(etfs) {
      var e :| e in init && e.ticker == t;
      assert e in etfs;
    }
    assert last in etfs;
  }

  /** `allocations[ticker] ?? 0`: a ticker without an allocation entry counts as 0%. */
  function AllocationOf(allocations: map<string, real>, ticker: string): real
  {
    if ticker in allocations then allocations[ticker] else 0.0
  }
}
