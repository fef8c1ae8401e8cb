# RareEarth ETF scoring and basket engine, in Dafny

This project models the recommendation engine inside `src/App.tsx` of the RareEarth demo:

- the per-ETF scorer `breakdownETFScore` and the older `scoreETF`;
- the stage-overlap measures and the overlap matrix;
- the filtered pair and triple enumerators, and the unfiltered nested loop the app uses;
- the basket breakdown and the legacy `scoreBasket`;
- allocation aggregation: `weightedAverage`, the numeric encodings, the micro-insights and the phrase choices of the summaries, plus `clamp` and the allocation totals;
- the filter → score → sort → slice → enumerate → rank recomputation `App` performs;
- the scenario presets of `applyScenario`.

The model has one module per part:

- `Domain`: the types and stage groups.
- `EtfScoring`: the per-ETF scorers.
- `Overlap`: the overlap measures and matrix.
- `Combos`: the basket enumerators.
- `BasketScoring`: the basket breakdown and `scoreBasket`.
- `Allocation`: allocation aggregation.
- `Ranking`: the stable descending sort.
- `Pipeline`: the recomputation.
- `Scenario`: the `AppState` class.
- `Seqs`: small sequence helpers.

Scores, weights, ratios and allocations are exact `real`s. Stage overlaps are `nat`.

The code that fills things step by step is written as methods:

- the overlap matrix: nested loops over an `array2`;
- the `computeOverlap` record: nested loops over a map;
- the enumerators' nested `for` loops;
- the scoring `forEach`;
- the micro-insights: straight-line conditional pushes;
- the reset map: a loop over the top ETFs.

`ComputeOverlapMatrix`, the enumerators, `ScoreFiltered` and `GenerateMicroInsights` are proved equal to a specification function, and the properties are proved about that function. `ResetAllocations` and `ComputeOverlap` are specified directly by their `ensures`: the reset map by its keys and values, the overlap record by which keys it holds and which pair wrote each value. `applyScenario` and `setAllocation` are methods of a class `AppState` holding the five pieces of state.

Three quirks of the app are reproduced, not fixed:

- **Default weights.** The app scores with `DEFAULT_WEIGHTS`, not with the weights panel (`Pipeline.BreakdownOf`).
- **China comfort.** The UI and the presets store China comfort as `"low"`/`"medium"`/`"high"`, which the scorer never matches. The type `ChinaComfort` therefore has six values, and `EtfScoring.UiComfortNeverScoresChina` states the consequence.
- **Overlap multiplicity.** `stageOverlap` counts with the multiplicity of the first list, so it is symmetric only for duplicate-free stage lists (`Overlap.StageOverlapSymmetric`, `Overlap.StageOverlapAsymmetricWithDuplicates`).

## Model

| member | source | states |
|---|---|---|
| Domain.StageListsClassify | src/App.tsx:657-659 | a stage list touches the upstream, midstream or downstream group exactly when one of its stages belongs to that group |
| Domain.StageSetAtMostFive | src/App.tsx:11-17 | there are at most five distinct stages |
| Domain.TickersSnoc | src/App.tsx:1571-1585 | appending an ETF adds exactly its ticker to the ticker set |
| EtfScoring.BreakdownComponents | src/App.tsx:671-698 | each of upstream, midstream, downstream, EV, China and risk is its weight or 0; a stage group scores exactly when both the selection and the ETF have a stage of it; EV scores on the ETF's EV theme; China scores on prefer_low+low or prefer_high+high; risk scores on an exact tier match |
| EtfScoring.BreakdownTotal | src/App.tsx:700-722 | total is the sum of the six components, maxPossible is the sum of the six weights (independent of ETF and preferences), and normalized is total/maxPossible·100 |
| EtfScoring.BreakdownBounds | src/App.tsx:700-722 | with non-negative weights, 0 ≤ total ≤ maxPossible and 0 ≤ normalized ≤ 100 |
| EtfScoring.PercentageRange | src/App.tsx:710 | normalized · maxPossible = total · 100, and it lies in [0,100] when 0 ≤ total ≤ maxPossible |
| EtfScoring.ScoreETF | src/App.tsx:805-852 | with non-negative weights the legacy score lies between 0 and the sum of the weights |
| EtfScoring.BreakdownIgnoresEvPreference | src/App.tsx:690 | the breakdown is the same whatever evPreference is |
| EtfScoring.ScoreETFAgreesWithBreakdown | src/App.tsx:805-852 | scoreETF equals the breakdown's total when evPreference holds or the ETF is not EV-themed, and equals total minus the EV weight otherwise |
| EtfScoring.ExampleBreakdown | src/App.tsx:663-723 | a concrete ETF and preference set score the expected components and total under the default weights |
| EtfScoring.UiComfortNeverScoresChina | src/App.tsx:693-696 | for neutral and the UI values low/medium/high the China component is 0 |
| Overlap.StageOverlap | src/App.tsx:880-882 | the overlap of a with b is at most the length of a's stage list |
| Overlap.CountInIsSharedStages | src/App.tsx:880-882 | for a duplicate-free first list, the overlap is the number of distinct shared stages |
| Overlap.StageOverlapSymmetric | src/App.tsx:880-882 | with duplicate-free stage lists, overlap(a,b) = overlap(b,a) |
| Overlap.StageOverlapAsymmetricWithDuplicates | src/App.tsx:881 | with a repeated stage, overlap(a,b) = 2 while overlap(b,a) = 1 |
| Overlap.OverlapMatrix | src/App.tsx:728-742 | the matrix is n×n, each off-diagonal entry being the overlap of the earlier ETF of its pair with the later one, and 0 on the diagonal |
| Overlap.OverlapMatrixShape | src/App.tsx:728-742 | the matrix has a zero diagonal, is symmetric and non-negative, and has M[i][j] = stageOverlap(etfs[i], etfs[j]) for i<j |
| Overlap.ComputeOverlapMatrix | src/App.tsx:728-742 | the nested loops fill a fresh n×n array equal to the matrix function |
| Overlap.PairKeyInjective | src/App.tsx:868 | for tickers without '-', the key "a-b" determines both tickers |
| Overlap.ComputeOverlap | src/App.tsx:858-874 | every pair of distinct tickers has its key recorded; every recorded key holds the overlap of the last pair in loop order with distinct tickers and that key; with unique, dash-free tickers each pair's key holds its own overlap |
| Overlap.LastWriterStep | src/App.tsx:862-870 | visiting one pair, and recording it as the writer of its key when its tickers differ, keeps every recorded writer the last pair so far with its key |
| Overlap.LastWriterRowEnd | src/App.tsx:860-871 | the end of row i is the start of row i + 1 for the last-writer invariant |
| Overlap.LastWriterAtEnd | src/App.tsx:858-874 | after all rows, no pair after a key's recorded writer in loop order has that key |
| Overlap.WrittenByLast | src/App.tsx:858-874 | after all rows, every key holds the overlap of the last pair in loop order that has it |
| Combos.ComputeTwoETFCombos | src/App.tsx:892-907 | the nested loops produce the baskets of the lexicographic index pairs whose overlap is at most 1 |
| Combos.SoftPairsRow | src/App.tsx:896-903 | one inner loop appends the soft pairs of row i |
| Combos.ComputeThreeETFCombos | src/App.tsx:913-937 | the nested loops produce the baskets of the lexicographic index triples whose three pairwise overlaps are all at most 1 |
| Combos.SoftTriplesRow | src/App.tsx:920-933 | one innermost loop appends the soft triples (i, j, k) |
| Combos.EnumerateBaskets | src/App.tsx:1608-1618 | the app's loop produces the baskets of every lexicographic pair and every lexicographic triple |
| Combos.BasketsFrom | src/App.tsx:1611-1617 | one outer iteration extends both lists by row i of the pairs and plane i of the triples |
| Combos.TriplesRow | src/App.tsx:1614-1616 | one innermost loop appends the triples (i, j, k) |
| Combos.PairsEnumeration | src/App.tsx:1611-1613 | the pair list holds only in-range index pairs a<b, in lexicographic order, contains every such pair, and has n(n−1)/2 entries |
| Combos.TriplesEnumeration | src/App.tsx:1611-1616 | the triple list holds only in-range index triples a<b<c, in lexicographic order, contains every such triple, and has n(n−1)(n−2)/6 entries |
| Combos.SoftPairsMembers | src/App.tsx:900-902 | a pair is kept exactly when it is listed and its overlap is at most 1 |
| Combos.SoftTriplesMembers | src/App.tsx:925-931 | a triple is kept exactly when it is listed and all three pairwise overlaps are at most 1 |
| Combos.SoftPairsOrdered | src/App.tsx:892-907 | filtering keeps lexicographic order of pairs |
| Combos.SoftTriplesOrdered | src/App.tsx:913-937 | filtering keeps lexicographic order of triples |
| Combos.SoftPairsSubsequence | src/App.tsx:892-907 | the filtered pair baskets are a subsequence of the unfiltered ones |
| Combos.SoftTriplesSubsequence | src/App.tsx:913-937 | the filtered triple baskets are a subsequence of the unfiltered ones |
| Combos.PairBasketsWellFormed | src/App.tsx:1613 | the t-th unfiltered basket is [etfs[a], etfs[b]] for its index pair a<b<n |
| Combos.TripleBasketsWellFormed | src/App.tsx:1615 | the t-th unfiltered basket is [etfs[a], etfs[b], etfs[c]] for its index triple a<b<c<n |
| Combos.SoftPairBasketOrigin | src/App.tsx:892-907 | every output basket of computeTwoETFCombos is [etfs[i], etfs[j]] for some i<j with overlap ≤ 1 |
| Combos.SoftPairBasketPresent | src/App.tsx:892-907 | every i<j with overlap ≤ 1 yields an output basket |
| Combos.SoftTripleBasketOrigin | src/App.tsx:913-937 | every output basket of computeThreeETFCombos is [etfs[i], etfs[j], etfs[k]] for some i<j<k with all pairwise overlaps ≤ 1 |
| Combos.SoftTripleBasketPresent | src/App.tsx:913-937 | every i<j<k with all pairwise overlaps ≤ 1 yields an output basket |
| Combos.TwoETFCombosOrdered | src/App.tsx:892-907 | the soft pairs are in lexicographic order and their baskets are a subsequence of the app's pair baskets |
| Combos.ThreeETFCombosOrdered | src/App.tsx:913-937 | the soft triples are in lexicographic order and their baskets are a subsequence of the app's triple baskets |
| BasketScoring.MissingAllocationCountsAsZero | src/App.tsx:753-756 | a ticker without an allocation contributes as if allocated 0 |
| BasketScoring.BaseScoreBounds | src/App.tsx:753-756 | with scores in [0, top] and non-negative allocations, 0 ≤ baseScore and baseScore·100 ≤ top · total allocation |
| BasketScoring.TotalOverlapIsTwicePairSum | src/App.tsx:759-760 | the sum of all matrix entries is twice the sum of the pairwise overlaps |
| BasketScoring.PairOverlapSumSmall | src/App.tsx:880-886 | for two ETFs the pair sum is stageOverlap; for three it is stageOverlap3 |
| BasketScoring.Diversification | src/App.tsx:763 | diversification·(1+totalOverlap) = 1, it lies in (0,1], and it is 1 exactly when totalOverlap is 0 |
| BasketScoring.DiversificationDecreasing | src/App.tsx:763 | more overlap gives strictly less diversification |
| BasketScoring.StageCoverage | src/App.tsx:766-767 | the number of distinct stages in a basket is at most 5 |
| BasketScoring.BasketStagesMembers | src/App.tsx:766 | a stage is in the basket's flattened stage list exactly when some ETF of the basket has it |
| BasketScoring.Ratio | src/App.tsx:770-774 | k/n · n = k and the ratio lies in [0,1] |
| BasketScoring.RiskBalance | src/App.tsx:777-779 | riskBalance is 1/3, 2/3 or 1 |
| BasketScoring.BreakdownBasket | src/App.tsx:747-800 | baseScore is the allocation-weighted score sum (a missing allocation counting as 0); the overlap matrix is the matrix function and totalOverlap twice the pairwise sum (≥ 0); diversification·(1+totalOverlap) = 1, in (0,1] and 1 iff no overlap; stageCoverage is the number of distinct stages (≤ 5); the EV and China ratios are their counts over the basket size, in [0,1]; riskBalance·3 is the number of distinct risk tiers, so it is 1/3, 2/3 or 1; finalScore = base·div + 2·cov + 5·ev + 5·china + 3·risk |
| BasketScoring.ScoreBasket | src/App.tsx:943-948 | the legacy score lies between the sum of the ETF scores and that sum plus 10 |
| BasketScoring.ScoreBasketCoveredAddition | src/App.tsx:943-948 | adding an ETF whose stages are already covered adds exactly its score |
| Allocation.FoldTimesTotal | src/App.tsx:989 | the fold of v·(w/total) times total is the dot product of values and weights |
| Allocation.WeightedAverageBounds | src/App.tsx:986-990 | with non-negative weights of positive sum, the average lies between any lower and upper bound of the values |
| Allocation.WeightedAverageOfZeroWeights | src/App.tsx:988 | all-zero weights give 0 |
| Allocation.RiskToNumber | src/App.tsx:993-997 | the risk encoding lies in [1,3] |
| Allocation.ChinaToNumber | src/App.tsx:1000-1004 | the China encoding lies in [0,1] |
| Allocation.EncodingsIncreasing | src/App.tsx:993-1004 | both encodings increase strictly from low to medium to high |
| Allocation.EvToNumber | src/App.tsx:1007 | the EV encoding is in [0,1] and is 1 exactly for EV-themed ETFs |
| Allocation.StageCoverageScore | src/App.tsx:1010-1013 | the distinct-stage count is at most 5 and is 0 exactly for an empty stage list |
| Allocation.InlineEncodingsAgree | src/App.tsx:1088-1095 | the encodings written inline in generateMicroInsights equal chinaToNumber and riskToNumber |
| Allocation.InlineValuesAgree | src/App.tsx:1088-1095 | the inline value lists equal the shared encodings element by element |
| Allocation.ExposureBounds | src/App.tsx:1022-1038 | with non-negative allocations of positive sum, EV and China exposures lie in [0,1], risk in [1,3] and stages in [0,5]; with zero sum all four are 0 |
| Allocation.ZeroAllocationExposure | src/App.tsx:1022-1038 | if every ETF sits at 0%, all four exposures are 0 |
| Allocation.EvInsight | src/App.tsx:1105-1116 | strong EV iff > 0.6, moderate iff in (0.3, 0.6], low iff ≤ 0.3 |
| Allocation.ChinaInsight | src/App.tsx:1119-1130 | low iff < 0.3, moderate iff in [0.3, 0.6), high iff ≥ 0.6 |
| Allocation.RiskInsight | src/App.tsx:1133-1140 | conservative iff < 1.7, balanced iff in [1.7, 2.3), aggressive iff ≥ 2.3 |
| Allocation.CoverageInsight | src/App.tsx:1143-1150 | broad iff ≥ 3, narrow iff < 3 |
| Allocation.GenerateMicroInsights | src/App.tsx:1080-1153 | no insights for no ETFs; otherwise exactly the EV, China, risk and coverage insights of the weighted exposures, in that order |
| Allocation.InsightsForZeroAllocations | src/App.tsx:1080-1153 | all-zero allocations give low EV, low China, conservative and narrow coverage |
| Allocation.RiskEmphasisOf | src/App.tsx:1055-1056 | the higher-volatility phrase is chosen exactly when risk > 2 |
| Allocation.EvEmphasisOf | src/App.tsx:1058 | the strong-EV-alignment phrase is chosen exactly when ev > 0.5 |
| Allocation.ChinaProfileOf | src/App.tsx:1062-1066 | low dependency iff < 0.3, moderate iff in [0.3, 0.6), high concentration iff ≥ 0.6 |
| Allocation.CoverageProfileOf | src/App.tsx:1068-1070 | broad diversification exactly when stages ≥ 3 |
| Allocation.GenerateAllocationSummary | src/App.tsx:1016-1075 | the no-ETF message exactly for an empty selection; otherwise the narrative carries the allocation sum and the weighted exposures, the higher-volatility phrase exactly when risk > 2, the strong-EV phrase exactly when ev > 0.5, the low/moderate/high China phrase split at 0.3 and 0.6, and the broad-diversification phrase exactly when stages ≥ 3 |
| Allocation.AllocationSummaryMatchesInsights | src/App.tsx:1016-1153 | for the same ETFs and allocations, the summary's China and coverage tiers coincide with the micro-insights', a strong EV insight implies the strong-EV phrase, an aggressive risk insight implies the higher-volatility phrase, and neither phrase comes with the opposite extreme insight |
| Allocation.SummaryAndInsightsAgree | src/App.tsx:1055-1150 | the summary's China and coverage tiers coincide with the insights'; strong EV insight implies the EV emphasis, aggressive risk implies the volatility emphasis, and neither emphasis co-occurs with the opposite extreme insight |
| Allocation.SummaryAndInsightsDiffer | src/App.tsx:1055-1135 | the EV and risk cut points differ: ev 0.55 and risk 2.1 get the emphasis phrase but the moderate and balanced insights |
| Allocation.GenerateSummary | src/App.tsx:954-980 | the no-match message exactly for no top ETFs; otherwise the first min(5, n) top ETFs, the stages, and whether none were selected |
| Allocation.Clamp | src/App.tsx:328-329 | within [min,max] for min ≤ max, the value itself inside the range, min below it, max above it, and min when max < min |
| Allocation.ClampIdempotent | src/App.tsx:328-329 | clamping twice equals clamping once |
| Allocation.AllocationTotals | src/App.tsx:437-438 | total is the sum of the allocations; remaining lies in [0,100], is 0 from 100 on, is 100 − total in between and 100 for a negative total |
| Ranking.InsertDescSorted | src/App.tsx:1590-1592 | inserting into a list with non-increasing keys keeps it so |
| Ranking.SortDesc | src/App.tsx:1590-1592 | the sort keeps length and multiset and orders keys non-increasingly |
| Ranking.SortStable | src/App.tsx:1590-1592 | for every key value, the elements with that key keep their original relative order |
| Ranking.SortedPrefixIsTop | src/App.tsx:1590-1598 | a prefix of a list sorted by non-increasing key is a sub-multiset of it, and every element it leaves out has a key no greater than any it keeps |
| Ranking.TopByKey | src/App.tsx:1590-1598 | sort-then-slice yields min(n, m) elements in non-increasing key order, drawn from the input, with every left-out element's key no greater than any kept key |
| Ranking.TopByKeyMembers | src/App.tsx:1590-1598 | every kept element is an element of the input |
| Ranking.TopByKeyKeepsTies | src/App.tsx:1590-1598 | the kept elements with key v are the first elements with key v in the input, in input order |
| Pipeline.KnowledgeLimits | src/App.tsx:53-81 | the two basket limits are equal and at most maxETFs; high mode allows 10/10/10 |
| Pipeline.FilterETFs | src/App.tsx:1559-1566 | an ETF survives exactly when it is in the catalog, shares a stage with a non-empty selection and is EV-themed under EV preference; survivors keep catalog order (a subsequence) |
| Pipeline.ScoreFiltered | src/App.tsx:1571-1585 | the forEach fills both records with the map functions of the filtered list |
| Pipeline.BreakdownMapKeys | src/App.tsx:1571-1585 | the records' keys are exactly the filtered tickers |
| Pipeline.BreakdownMapEntries | src/App.tsx:1571-1585 | a ticker's record is the default-weight breakdown (and total) of its last occurrence |
| Pipeline.BreakdownMapBounds | src/App.tsx:1571-1585 | with the default weights every recorded total lies in [0, 30] |
| Pipeline.ScoreMapBounds | src/App.tsx:1571-1585 | every recorded score lies in [0, 30] |
| Pipeline.TopETFs | src/App.tsx:1590-1598 | min(n, maxETFs) of the n filtered ETFs in non-increasing score order, drawn from the filtered list as a multiset, such that every filtered ETF left out scores no higher than every kept one |
| Pipeline.TopETFsKeepTies | src/App.tsx:1590-1598 | ETFs with equal scores appear in filtered (catalog) order |
| Pipeline.TopETFsScored | src/App.tsx:1571-1598 | every top ETF has a recorded score |
| Pipeline.RankBaskets | src/App.tsx:1620-1634 | min(n, limit) of the n scored baskets in non-increasing final score, each a basket of the list with its own breakdown, drawn from the scored list as a multiset, such that every basket left out has a final score no higher than every kept one |
| Pipeline.RankBasketsKeepTies | src/App.tsx:1620-1634 | ranked baskets with equal final scores appear in enumeration order, as the first baskets of the enumeration with that score |
| Pipeline.LiftedBasketsScored | src/App.tsx:1608-1634 | every enumerated basket is non-empty and made of scored ETFs |
| Pipeline.Recommend | src/App.tsx:1559-1634 | one render: top ETFs, and the two ranked basket lists over the unfiltered enumeration, each equal to its specification function |
| Scenario.ResetAllocations | src/App.tsx:1205-1207 | the reset map's keys are exactly the given tickers, each at 0 |
| Scenario.ResetClearsExposure | src/App.tsx:1205-1207 | after a reset every displayed ETF is at 0%, all exposures are 0, and the insights are low EV, low China, conservative and narrow |
| Scenario.AppState.constructor | src/App.tsx:1538-1550 | the initial state: no stages, no EV preference, neutral China comfort, medium risk, no allocations |
| Scenario.AppState.SetAllocation | src/App.tsx:1552-1554 | only the ticker's allocation changes, to the new value |
| Scenario.AppState.ApplyScenario | src/App.tsx:1158-1208 | each of the five presets sets its literal stages, EV preference, China comfort and risk; an unknown name leaves the preferences unchanged; allocations become exactly the displayed tickers at 0 |

## Left out

- React rendering, hooks, `useState` setters and all components (sliders, editors, cards, flowchart) are not modelled; `AppState` holds the five pieces of state the engine reads.
- The click-to-jump slider geometry depends on DOM rectangles and is not modelled.
- Number formatting with `toFixed` and the exact template-string text of the narratives are not modelled; the summaries are datatypes recording the chosen phrase or tier and the numbers they report.
- The portfolio dollar conversion is display-only and not modelled.
- IEEE-754 arithmetic and NaN are not modelled: numbers are exact reals. The divisions the source leaves unguarded become preconditions: `maxPossible > 0` for `normalized`, and a non-empty basket of scored ETFs for `breakdownBasket`.
- BreakdownETFScore: the function has no ensures of its own; its contract is stated by `BreakdownComponents`, `BreakdownTotal` and `BreakdownBounds`.
- Percentage: its contract is stated by `PercentageRange`.
- The `ETF_DATA` catalog contents and the `KnowledgeMode` display flags are not modelled; the catalog is a parameter, and only the list limits of a mode are modelled.
- The enumerators take `seq<ETF>` rather than `ScoredETF[]`: the extra score fields are never read while enumerating.
- The nested loops of the enumerators are split into one method per inner loop (`SoftPairsRow`, `SoftTriplesRow`, `BasketsFrom`, `TriplesRow`); the loop order and the push order are the source's.
- ComputeOverlap: the result is a map, so the insertion order of the keys in the JavaScript record is not modelled.
- Pipeline.ScoreOf: a missing ticker reads as 0, where JavaScript would read `undefined`; `TopETFsScored` shows every sorted ETF has a score, so that case never arises.
- Combos.PairBasket and Combos.TripleBasket give an empty basket for an out-of-range index; the enumerations never produce one (`PairsEnumeration`, `TriplesEnumeration`).
- The source divides by `maxPossible` with no guard, which gives NaN for an all-zero weight vector; the model requires `maxPossible > 0` instead of giving that case a value.
- Array.prototype.sort: the stable sort is modelled by a stable insertion sort specified by its result; the engine's own comparator calls are not modelled.
