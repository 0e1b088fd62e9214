# Levermann score service — Dafny model

This project models the core of a small service that computes a rule-based
"Levermann" investment score for a security identified by its ISIN. The service
resolves the ISIN to a ticker symbol, collects answers from several market-data
providers (quote, bulk metrics, company profile, analyst recommendations,
reported financials, a 50-day moving-average series), normalises them into
thirteen optional figures, and maps each figure through a fixed threshold rule to
-1, 0 or +1. The total score is the sum of the thirteen sub-scores.

Modules:

- `Wrappers` (`wrappers.dfy`): `Option` (missing = `undefined` or `null`) and `Result`.
- `Scoring` (`scoring.dfy`): `logAndFallback`, the thirteen `evaluate*` rules, a
  reference rule table (`Rule`, `RuleScore`) that each rule is proved to follow,
  the named score record and the `reduce` that totals it.
- `Acquisition` (`acquisition.dfy`): the provider answers as already-received
  records, the symbol pick, the balance-sheet lookup, equity ratio, market cap,
  moving-average choice and distance, the pure normaliser `Normalise` / `Fetch`,
  and `FetchStockData`, a method with the same step-by-step reassignments as the
  service, proved equal to `Fetch`.
- `Analysis` (`analysis.dfy`): `AnalyseStock`, acquisition followed by scoring.

Behaviour of the code worth knowing:

- With every input missing the total is 1: the EBIT-margin fallback 10 lies
  between 6 and 12 and scores 0, the market-cap fallback sits on its threshold and
  scores 0, and only the equity-ratio fallback 30 (> 25) scores
  (`Scoring.AllMissingScoresOne`).
- There are thirteen rules (market capitalisation is the thirteenth), so the total
  lies in [-13, 13].
- An input with twelve rules at +1 and the 12-month momentum at -1 totals 11
  (`Scoring.WorkedExample`).
- A first filing without `report.bs` makes `bs.find` throw inside the outer `try`,
  so the whole analysis aborts rather than leaving the equity ratio missing
  (`Acquisition.BalanceSheetFigures`, cause `BalanceSheetMissing`).

## Model

| member | source | states |
|---|---|---|
| Scoring.LogAndFallback | src/analysis/analysis.service.ts:391-403 | a present value, including 0, is returned unchanged; only a missing one is replaced by the fallback |
| Scoring.Apply | src/analysis/analysis.service.ts:279-403 | a table row applied to an optional figure: in {-1,0,1}; a missing figure scores as the row's fallback, a present one (0 included) as itself |
| Scoring.RuleScore | src/analysis/analysis.service.ts:279-389 | reference rule: result is in {-1,0,1}; +1 exactly when the value is strictly beyond the good threshold, -1 exactly when strictly beyond the bad one, 0 otherwise |
| Scoring.EvaluatePERatio | src/analysis/analysis.service.ts:279-285 | result in {-1,0,1} and equal to the table row (fallback 15, +1 below 12, -1 above 20) |
| Scoring.EvaluateEBITMargin | src/analysis/analysis.service.ts:287-297 | result in {-1,0,1} and equal to the table row (fallback 10, +1 above 12, -1 below 6) |
| Scoring.EvaluateROE | src/analysis/analysis.service.ts:299-305 | result in {-1,0,1} and equal to the table row (fallback 15, +1 above 20, -1 below 10) |
| Scoring.EvaluateEquityRatio | src/analysis/analysis.service.ts:307-313 | result in {-1,0,1} and equal to the table row (fallback 30, +1 above 25, -1 below 15) |
| Scoring.EvaluateEarningsReaction | src/analysis/analysis.service.ts:315-325 | result in {-1,0,1} and equal to the table row (fallback 0, +1 above 3, -1 below -3) |
| Scoring.EvaluateEarningsRevisions | src/analysis/analysis.service.ts:327-333 | result in {-1,0,1} and equal to the table row (fallback 0, +1 above 0, -1 below 0) |
| Scoring.EvaluateAnalystOpinions | src/analysis/analysis.service.ts:335-345 | result in {-1,0,1} and equal to the table row (fallback 2.5, +1 below 2, -1 above 3) |
| Scoring.EvaluateMomentum | src/analysis/analysis.service.ts:347-353 | result in {-1,0,1} and equal to the table row (fallback 0, +1 above 5, -1 below -5), for both horizons |
| Scoring.EvaluateMovingAverage | src/analysis/analysis.service.ts:355-361 | result in {-1,0,1} and equal to the table row (fallback 0, +1 above 5, -1 below -5) |
| Scoring.EvaluateVolatility | src/analysis/analysis.service.ts:363-369 | result in {-1,0,1} and equal to the table row (fallback 50, +1 below 20, -1 above 60) |
| Scoring.EvaluateMarketReaction | src/analysis/analysis.service.ts:371-377 | result in {-1,0,1} and equal to the table row (fallback 1, +1 below 0.8, -1 above 1.2) |
| Scoring.EvaluateMarketCap | src/analysis/analysis.service.ts:379-389 | result in {-1,0,1} and equal to the table row (fallback 5e9, +1 above 5e9, -1 below 1e9) |
| Scoring.TableWellFormed | src/analysis/analysis.service.ts:279-389 | in every rule the two thresholds do not overlap, so no value is both rewarded and penalised |
| Scoring.ThresholdIsNeutral | src/analysis/analysis.service.ts:279-389 | in any well-formed rule a value exactly on either threshold scores 0 |
| Scoring.BoundaryValuesScoreZero | src/analysis/analysis.service.ts:279-389 | every rule scores 0 on each of its two thresholds (P/E 12 and 20, market cap 5e9 and 1e9, beta 0.8 and 1.2, ...) |
| Scoring.MissingMeansFallback | src/analysis/analysis.service.ts:391-403 | for any rule, a missing input scores as the fallback passed explicitly, and a present 0 is scored as 0 |
| Scoring.RuleScoreMonotone | src/analysis/analysis.service.ts:279-389 | a rule's score never decreases as the value improves in the rule's direction |
| Scoring.Values | src/analysis/analysis.service.ts:76 | `Object.values`: same length as the entries and the i-th value is the i-th entry's score |
| Scoring.SumBounded | src/analysis/analysis.service.ts:76 | a sum of sub-scores each in {-1,0,1} lies in [-n, n] |
| Scoring.SumOfEntries | src/analysis/analysis.service.ts:48-76 | `Sum`, the left fold from 0 with + (the `reduce`), applied to the record's values equals the sum of the thirteen named sub-scores |
| Scoring.ScoreInputs | src/analysis/analysis.service.ts:48-74 | every named entry of the score record is in {-1,0,1} |
| Scoring.Levermann | src/analysis/analysis.service.ts:45-78 | the result carries the ISIN, the named score entries, and a total equal to the sum of the thirteen sub-scores, within [-13, 13] |
| Scoring.AllMissingScoresOne | src/analysis/analysis.service.ts:48-76 | with every input missing only Equity_Ratio is non-zero (+1), so the total is 1 |
| Scoring.WorkedExample | src/analysis/analysis.service.ts:48-76 | a fully present input with one negative momentum scores twelve +1, one -1, total 11 |
| Acquisition.FindIndex | src/analysis/analysis.service.ts:105-107 | `find`: a found index holds the predicate and no earlier element does; nothing found means no element holds it |
| Acquisition.HasSymbol | src/analysis/analysis.service.ts:106 | an entry's symbol is truthy exactly when it is present and non-empty |
| Acquisition.ResolveSymbol | src/analysis/analysis.service.ts:102-113 | a failed search aborts with SearchFailed; otherwise it succeeds iff some entry has a truthy symbol, fails with SymbolNotFound iff none has, and on success returns the symbol of the first such entry |
| Acquisition.ItemValue | src/analysis/analysis.service.ts:227-245 | the value of the first line item with the concept; missing when no item has it |
| Acquisition.FirstFilingLacksBalanceSheet | src/analysis/analysis.service.ts:225-227 | holds exactly when there is a first filing and it lacks a report or a balance sheet (the case in which `bs.find` throws) |
| Acquisition.BalanceSheetFigures | src/analysis/analysis.service.ts:223-246 | no filing: both figures missing; first filing without a balance sheet: abort; otherwise equity and assets are the first us-gaap_StockholdersEquity / us-gaap_Assets items of filing 0 |
| Acquisition.Truthy | src/analysis/analysis.service.ts:253-266 | an optional number is truthy exactly when it reads as non-zero with 0 substituted for a missing value; the test used for the equity ratio (253) and the market cap (264-266) |
| Acquisition.EquityRatio | src/analysis/analysis.service.ts:252-255 | present iff equity and assets are both present and non-zero, and then ratio × assets = equity × 100 |
| Acquisition.MarketCap | src/analysis/analysis.service.ts:264-266 | present iff the profile's market capitalisation is present and non-zero, and then it is that figure in millions |
| Acquisition.QuoteOf | src/analysis/analysis.service.ts:183 | the answered quote, or an empty one (no price) when the request failed |
| Acquisition.MetricsOf | src/analysis/analysis.service.ts:184 | the answered metrics, or a record with every metric missing when the request failed |
| Acquisition.ProfileOf | src/analysis/analysis.service.ts:185 | the answered profile, or one without a market cap when the request failed |
| Acquisition.RecommendationsOf | src/analysis/analysis.service.ts:186 | the answered recommendations, or the empty list when the request failed |
| Acquisition.CurrentPrice | src/analysis/analysis.service.ts:189-194 | the quote's price when present (0 included), otherwise 0 |
| Acquisition.LatestSma | src/analysis/analysis.service.ts:201-205 | present exactly when the series was answered and is non-empty, and then its first entry |
| Acquisition.MovingAverage50d | src/analysis/analysis.service.ts:197-218 | the 50-day MA is the latest series entry, else the bulk metric, else the current price |
| Acquisition.AnalystRating | src/analysis/analysis.service.ts:258 | the first recommendation's rating, missing when there is no recommendation |
| Acquisition.DistanceFromMA | src/analysis/analysis.service.ts:220-221 | distance × average = (price − average) × 100; 0 when the price equals the average; for a positive average, positive exactly when the price is above it and negative exactly when below |
| Acquisition.Normalise | src/analysis/analysis.service.ts:183-267 | fails (BalanceSheetMissing) exactly when the first filing lacks a balance sheet; on success the distance is that of the current price from the chosen 50-day MA, and P/E, EBIT margin, ROE, quarterly growth, EPS growth, 26- and 52-week returns, volatility and beta are the corresponding bulk metrics unchanged |
| Acquisition.Fetch | src/analysis/analysis.service.ts:102-267 | succeeds exactly when the symbol resolves and the first filing, if any, has a balance sheet; once the symbol resolves its result is the normaliser's, otherwise the resolution's failure |
| Acquisition.FetchStockData | src/analysis/analysis.service.ts:81-267 | the step-by-step acquisition returns exactly `Fetch`'s result: the resolution's failure, or once the symbol resolves the normaliser's result |
| Acquisition.FallbackDistanceIsZero | src/analysis/analysis.service.ts:189-221 | with no MA available and a non-zero price, the distance is 0 and its rule scores 0 |
| Acquisition.NormalisedEquityRatio | src/analysis/analysis.service.ts:223-255 | the normalised equity ratio is present iff filing 0's first equity and assets items are truthy, and then equals equity / assets × 100 |
| Acquisition.NormalisedMarketCap | src/analysis/analysis.service.ts:185-266 | the normalised market cap is present iff the profile answered with a truthy figure, and then is that figure × 1,000,000 |
| Acquisition.ZeroMarketCapIsMissing | src/analysis/analysis.service.ts:264-266 | a reported market cap of 0 becomes missing and scores 0, while a present 0 would score -1 |
| Acquisition.NormalisedAnalystRating | src/analysis/analysis.service.ts:258 | the analyst rating is the first recommendation's rating, missing when there is none |
| Analysis.AnalyseStock | src/analysis/analysis.service.ts:45-78 | a result exactly when acquisition succeeds, equal to scoring the acquired inputs, carrying the ISIN and a total in [-13, 13]; otherwise the acquisition's abort cause |
| Analysis.UnresolvedSymbolIsFatal | src/analysis/analysis.service.ts:109-111 | a search with no symbol-bearing entry aborts for any provider answers |
| Analysis.FirstNonEmptySymbolResolves | src/analysis/analysis.service.ts:105-113 | a search whose entries have no symbol, an empty symbol, then "X", then "Y" resolves to "X" |
| Analysis.ProfileOutageStillScores | src/analysis/analysis.service.ts:144-153 | a failed profile request still yields a result, with the market cap missing and its rule scoring 0 |

## Left out

- Network calls, URLs and API keys: each provider's answer is a parameter
  (`Responses`, and the search answer), `None` standing for a failed request.
- Logging (`logger.log`/`warn`/`error`): a side channel only. `logAndFallback` and
  the `extractValue` calls with a numeric fallback (current price, moving average)
  use one function, `Scoring.LogAndFallback`; the two `extractValue` calls with an
  `undefined` fallback (total equity and assets) change nothing but `null` into
  `undefined`, so `Acquisition.ItemValue` returns the item's optional value directly.
- The label argument of `evaluateMomentum` feeds only the log and is dropped.
- Error messages: an abort is the datatype `Cause`; the text of the rewrapped
  `API call failed for ISIN ...` error is not modelled.
- Floating point: numbers are `real`. `parseFloat` of the SMA string is taken as
  already parsed, and NaN or infinities never arise in the model.
- Acquisition.Normalise: requires the chosen moving average to be non-zero; the
  source then divides by zero (NaN or ±Infinity reach `evaluateMovingAverage`),
  which this model does not cover. `Fetch`, `FetchStockData` and `AnalyseStock`
  carry the same precondition when the symbol resolves.
- JavaScript truthiness of non-numbers (a `NaN` market cap, a non-string symbol)
  is not modelled: symbols are strings, truthy when non-empty.
- The metric fields declared but never read (`totalAssets`, `totalEquity`,
  `recommendationMean`) are not part of the metrics record.
- The HTTP controller (`src/analysis/analysis.controller.ts`) and its ISIN length
  check are not part of this model.
