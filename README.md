# Stonks service layer in Dafny

This project models the service layer of a Flask backend for Indian equities.
It covers the logic that stays once the yfinance fetches, the SQLite
connections and the Flask routes are stripped away.

- **Scoring and valuation.**
  - The four sub-scores, the weighted composite, the five-way recommendation, the ranking, the recommendation groups and the screener (`scoring.py`).
  - The EPS-based DCF, the CAPM hurdle rate, the PE step score, the market-cap classes, the valuation score and the ATR price targets (`valuation.py`).
  - SMA, EMA, RSI, MACD, Bollinger bands, ATR, OBV, volume and momentum columns and the indicator signals (`indicators.py`).
  - Chart pattern detection and its summary (`patterns.py`).
  - All of this is `real` arithmetic over `seq<real>` columns. A row where pandas would hold NaN holds `None`.
  - Columns whose division can meet a zero divisor (ROC, the 1W/1M/3M returns, the band width) hold float64 values: finite, +inf, -inf or NaN, with Python's rules for dividing by zero, adding infinities, averaging and comparing.
- **Stateful containers.** Each is a class whose methods state the whole new state.
  - The LRU+TTL cache (`cache.py`).
  - The stock service's per-timeframe cache and progress record (`stock_service.py`).
- **SQLite tables.** Each table is a sequence of rows in rowid order. A UNIQUE constraint is a key function. `INSERT OR REPLACE` deletes the conflicting row and appends the new one.
  - Alerts and their history (`alerts.py`).
  - Sessions (`session.py`).
  - Watchlists (`watchlist.py`).
  - Portfolio holdings and transactions (`portfolio.py`).
  - Recommendation and price tracking with the backtest statistics (`backtest.py`).
  - The price history with its sync status (`price_db.py`).
- **Aggregations over fetched data.** The fetched statements, quotes and the USD/INR rate are inputs.
  - Fundamentals margins, ratios and peer averages (`fundamentals.py`).
  - Commodity unit conversion, returns and chart window (`commodities.py`).
- **String logic.**
  - The stock universe and its relevance search (`stock_universe.py`).
  - Broker CSV column matching, symbol cleaning and row validation (`csv_import.py`).
  - XOR encryption with a repeated key under Base64 (section 4 of RFC 4648), salted hashing and value masking (`crypto.py`).

Clock readings, random tokens and the exchange rate are parameters. So are the hash and JSON serialisation functions.

Loops in the source are methods with loop invariants. Each is proved against a function that specifies it. Straight-line computations are functions. The properties are lemmas over those functions.

Helper modules:

- `Base`: Option, sums, means, Python slicing and float64 division, scaling, addition, mean and order over finite values, infinities and NaN.
- `Text`: Python `str` methods and string order. Case mapping covers ASCII letters; whitespace is the set `str.isspace` accepts.
- `Sorting`: Python's stable `sorted` as insertion sort under a total preorder, proved sorted and a permutation.
- `Table`: keyed tables with upsert and delete.

Where the code and its documentation differ, the model follows the code:

- **Momentum returns.** `calculate_composite_score` recomputes the indicators after `calculate_accurate_returns`. The momentum score therefore reads the `pct_change` returns of 5, 21 and 63 rows, with NaN read as 0.
- **Target prices with a NaN ATR.** When the ATR column exists but its last value is NaN, the ATR is 0. It is not 2% of the price.
- **Cache age.** The stock service's cache age uses `timedelta.seconds`, which drops whole days.
- **Symbol cleaning.** The cleaning of CSV symbols is a single pass per replacement.

## Model

| member | source | states |
|---|---|---|
| Scoring.Normalize | backend/services/scoring.py:64-65 | a normalised return always lies in [0, 100] |
| Scoring.NormalizeProperties | backend/services/scoring.py:64-65 | each in both directions: the score is at least 50 iff the return is non-negative, exactly 50 iff it is zero, 100 iff it reaches the upper end of the window and 0 iff it reaches the lower end |
| Scoring.NormalizeMonotone | backend/services/scoring.py:64-65 | a larger return never normalises lower |
| Scoring.ShortMomentum | backend/services/scoring.py:51-56 | the short-history score lies in [0, 100]; with a zero base close the division gives infinity and the score is 0 exactly when the last close is negative, 100 otherwise |
| Scoring.MomentumScore | backend/services/scoring.py:43-65 | fewer than 5 rows score exactly 50; every score lies in [0, 100] |
| Scoring.MomentumNeutralPoint | backend/services/scoring.py:49-65 | under 20 rows momentum is at least 50 iff the close did not fall over the last five bars; from 20 rows on iff the float weighted 1W/1M/3M return is not below 0, so a NaN or +inf weighted return scores at least 50 and -inf below |
| Scoring.SafeFloat | backend/services/scoring.py:24-31 | NaN becomes the default and never comes out; any other value, an infinity included, passes through |
| Scoring.Term | backend/services/scoring.py:58-62 | one weighted term is finite exactly when its return is not an infinity, and an infinite return stays that infinity |
| Scoring.WeightedMomentum | backend/services/scoring.py:62-65 | the clamped score of a float weighted return lies in [0, 100] whatever the return, infinities and NaN included |
| Scoring.WeightedOfFinite | backend/services/scoring.py:62 | three finite returns give the plain sum 0.5 x 1W + 0.3 x 1M + 0.2 x 3M |
| Scoring.WeightedOfNaN | backend/services/scoring.py:58-62 | a NaN return in any position weighs exactly like a return of 0 |
| Scoring.InfiniteWeekUp | backend/services/scoring.py:58-62 | a +inf 1W return with finite or NaN 1M and 3M returns makes the weighted return +inf |
| Scoring.InfiniteWeekDown | backend/services/scoring.py:58-62 | a -inf 1W return with finite or NaN 1M and 3M returns makes the weighted return -inf |
| Scoring.InfinityAbsorbs | backend/services/scoring.py:62 | adding two finite terms to an infinity keeps that infinity |
| Scoring.RsiPoints | backend/services/scoring.py:76-84 | the RSI band term is one of 25, 15, 20, 5 |
| Scoring.MacdPoints | backend/services/scoring.py:86-91 | the MACD term is 25 or 10 |
| Scoring.SmaPoints | backend/services/scoring.py:93-100 | the SMA term lies in [0, 30] |
| Scoring.BandPoints | backend/services/scoring.py:102-108 | the %B term is one of 20, 10, 5 |
| Scoring.TechnicalScore | backend/services/scoring.py:68-110 | fewer than 10 rows score 50; otherwise the score lies in [20, 100] |
| Scoring.TechnicalScoreFull | backend/services/scoring.py:76-110 | the technical score is 100 exactly when RSI is in [30, 50], MACD is above its signal, the price is above both positive SMAs and %B is in [0.2, 0.5] |
| Scoring.VolumeRatios | backend/services/scoring.py:118-122 | the ratio column keeps one entry per row, in order |
| Scoring.VolumeScore | backend/services/scoring.py:113-133 | fewer than 5 rows score 50; every score is one of 35, 50, 65, 75 |
| Scoring.VolumeScoreOfAverage | backend/services/scoring.py:122-129 | above neutral iff the recent average ratio exceeds 1.2, below neutral iff it is under 0.7 |
| Scoring.VolumeScoreWithoutRatios | backend/services/scoring.py:122-123 | with no defined ratio among the last ten rows the score stays 50 |
| Scoring.TrendPoints | backend/services/scoring.py:145-154 | the trend term is one of ±20, ±10, 0; a zero first close gives +20, -20 or 0 by the sign of the last close |
| Scoring.MaPoints | backend/services/scoring.py:156-163 | the moving-average term is 15, -10 or 0 |
| Scoring.TrendScore | backend/services/scoring.py:136-167 | fewer than 5 rows score 50; every score lies in [20, 85] |
| Scoring.TrendPointsMonotone | backend/services/scoring.py:145-154 | with a positive first close a higher last close never earns fewer trend points |
| Scoring.CompositeWeighted | backend/services/scoring.py:189-195 | the weights sum to 1: bounds shared by all six sub-scores carry over to the composite, and six equal sub-scores give that score |
| Scoring.CompositeMonotone | backend/services/scoring.py:189-195 | raising any sub-score never lowers the composite |
| Scoring.Recommend | backend/services/scoring.py:273-299 | each of the five actions holds exactly under its composite and DCF-margin condition (both directions), with its confidence |
| Scoring.ActionMonotone | backend/services/scoring.py:279-288 | for a fixed DCF margin a higher composite never gives a more bearish action |
| Scoring.ScoreStock | backend/services/scoring.py:170-270 | a result exists iff the frame is non-empty; the name and sector are the stock-info fetch's, or the symbol and "Unknown" when that fetch failed; momentum, technical, volume and trend are the sub-scores of the frame; valuation, P/E score and valuation status are those of the full valuation analysis, which takes the universe's sector ("General" when unlisted, backend/services/valuation.py:328-330); price and RSI are the last row's close and RSI, and the MACD signal is bullish iff the last MACD exceeds its signal line; the composite lies in [0, 100] and is the weighted sum of the sub-scores; the recommendation and action are those of that composite with the analysis's DCF margin and targets |
| Scoring.Scored | backend/services/scoring.py:316-326 | at most one scored stock per input, unranked, with a composite in [0, 100] |
| Scoring.RankStocks | backend/services/scoring.py:328-331 | the ranked list is the sort by composite, descending, with ranks 1..n in that order |
| Scoring.RankedArePermutation | backend/services/scoring.py:328 | the sort keeps every scored stock exactly once |
| Scoring.ScoreAndRank | backend/services/scoring.py:316-331 | the result is the scored inputs sorted by composite, descending, and ranked 1..n |
| Scoring.AllScoredStocks | backend/services/scoring.py:302-337 | a non-empty `scored` list in the live cache of the timeframe is returned as is and the cache is untouched; otherwise the scored inputs sorted by composite, descending, and ranked 1..n are returned and the cache then holds exactly that list under `scored` with a new timestamp |
| Scoring.TopFive | backend/services/scoring.py:350-360 | exactly five stocks, or all of them when fewer satisfy the action filter; they are drawn from the matching stocks, none more often than it occurs (a permutation of them when at most five match); they are in descending confidence, and no matching stock left out has a higher confidence than one kept |
| Sorting.SortedTop | backend/services/scoring.py:350-354 | the first n of a stable sort are a sub-multiset of the input (the whole of it when n is its length), are sorted, and every input element left out sorts no earlier than each kept one |
| Scoring.GetRecommendations | backend/services/scoring.py:340-374 | the total is the number of stocks and each action count is the number of stocks with that action; the top picks are the top five of the buying stocks and the avoid list the top five of the selling ones, min(5, count) each, drawn from those stocks; every stock is returned |
| Scoring.ActionCountsPartition | backend/services/scoring.py:344-348 | every stock falls in exactly one action group |
| Scoring.ScreenStocks | backend/services/scoring.py:393-415 | the screened stocks are those passing every filter, a subsequence of the input in its order |
| Scoring.DefaultFiltersKeepAll | backend/services/scoring.py:377-389 | with the default filters, every stock whose composite and RSI lie in [0, 100] passes |
| Valuation.Pow | backend/services/valuation.py:61 | a power of a non-zero base is non-zero and of a positive base positive, so every discount factor can be divided by |
| Valuation.ComputeDcf | backend/services/valuation.py:22-87 | the year-by-year loop yields the closed form `DcfOf`: nothing for eps <= 0, a division by zero when the rate equals the terminal growth (or 1 + rate is 0), otherwise the sum of discounted earnings plus the discounted Gordon terminal value |
| Valuation.ProjectEarnings | backend/services/valuation.py:55-66 | after the loop the running EPS is eps (1 + g)^n and the accumulated present value is the sum over years 1..n of eps (1 + g)^y / (1 + r)^y |
| Valuation.ProjectionStep | backend/services/valuation.py:58-63 | one iteration grows the EPS by one more factor and adds exactly that year's discounted term |
| Valuation.DcfOfProjected | backend/services/valuation.py:66-74 | the intrinsic value is the projected present value plus the terminal present value of the final EPS |
| Valuation.PvEarningsAtEqualRates | backend/services/valuation.py:58-66 | when growth equals the discount rate every year contributes eps, so the projected value is n x eps |
| Valuation.PvEarningsPositive | backend/services/valuation.py:58-66 | positive EPS and positive growth/discount factors give a positive projected value for n >= 1 and 0 for no years |
| Valuation.TerminalPvPositive | backend/services/valuation.py:69-71 | with a discount rate above the terminal growth the discounted terminal value of a positive EPS is positive |
| Valuation.DcfPositive | backend/services/valuation.py:54-74 | under those conditions the DCF is a projection with positive intrinsic value |
| Valuation.RiskBandOf | backend/services/valuation.py:117-126 | the four interpretation bands hold exactly for rates below 0.10, in [0.10, 0.14), in [0.14, 0.18) and from 0.18 on |
| Valuation.HurdleRate | backend/services/valuation.py:90-114 | the hurdle rate in percent is (0.07 + beta x 0.05) x 100 and its interpretation is the band of the unscaled rate |
| Valuation.HurdleBandMonotone | backend/services/valuation.py:106-126 | a higher beta never gives a lower risk band |
| Valuation.SectorPe | backend/services/valuation.py:137-146 | every sector benchmark, including the default 20 for unknown sectors, is at least 10 |
| Valuation.PeScore | backend/services/valuation.py:129-157 | a missing or non-positive PE scores 50; every score is one of 90, 75, 60, 50, 40, 20 |
| Valuation.PeScoreNonIncreasing | backend/services/valuation.py:148-157 | for positive PEs in one sector a higher PE never scores higher |
| Valuation.MarketCapCategory | backend/services/valuation.py:218-232 | each category holds exactly in its crore range: Unknown for caps <= 0, Large from 100000 crore, Mid from 20000, Small from 5000, Micro below (both directions) |
| Valuation.MarketCapMonotone | backend/services/valuation.py:220-232 | a larger cap never gives a smaller category |
| Valuation.StatusOf | backend/services/valuation.py:273-283 | each of the five statuses holds exactly in its score band 70/55/45/30 (both directions) |
| Valuation.ValuationStatus | backend/services/valuation.py:235-289 | a positive DCF with a zero price raises (no report); otherwise the score stays in [10, 90], the status is that of the score, at most two factors are listed, and without DCF and PE the score is 50 with no factors |
| Valuation.ValuationScoreMonotoneInDcf | backend/services/valuation.py:242-255 | for a positive price a larger positive DCF value never lowers the score |
| Valuation.LowDcfScoresBelowNoDcf | backend/services/valuation.py:242-255 | a DCF value half the price scores below having no DCF value at all |
| Valuation.TargetLabelOf | backend/services/valuation.py:214 | BUY exactly from a risk/reward of 2, HOLD in [1, 2), CAUTION below 1 |
| Valuation.TargetPrices | backend/services/valuation.py:160-215 | targets exist iff the frame is non-empty and the price positive; risk/reward is 0 when the downside is not positive; the label follows the risk/reward; the aggressive buy is at least the period low and the aggressive sell at most the period high; a DCF under 0.8 x price keeps the conservative sell at least 1.02 x price and one above 1.2 x price keeps the conservative buy at most 0.98 x price |
| Valuation.MarginOfSafety | backend/services/valuation.py:348-351 | the margin is set iff intrinsic value and price are both positive; measured against intrinsic value it stays below 100 and is positive iff intrinsic exceeds price |
| Valuation.MarginAgreesWithUpside | backend/services/valuation.py:348-351 | the margin relative to intrinsic value has the same sign as the upside relative to price |
| Valuation.DcfVerdictOf | backend/services/valuation.py:353-354 | Undervalued exactly above a 15% margin, Overvalued exactly at or below -15% |
| Valuation.GrowthFromRoe | backend/services/valuation.py:337 | the growth estimate is 60% of ROE clamped into [0.05, 0.25] |
| Valuation.DcfReportOf | backend/services/valuation.py:340-356 | the report is missing exactly when the DCF divides by zero; it keeps the chosen growth and discount; eps <= 0 gives intrinsic 0 and margin 0; a computed margin is below 100 |
| Valuation.FundamentalsOf | backend/services/valuation.py:378-390 | the 52-week range position is 50 when the high does not exceed the low |
| Valuation.FullAnalysis | backend/services/valuation.py:292-395 | without info the default result is returned; the DCF growth lies in [0.05, 0.25]; the valuation score lies in [10, 90] and the PE score in [20, 90] |
| Indicators.RollingMean | backend/services/indicators.py:14 | a rolling mean of window p is defined at row i exactly when i >= p - 1 (the mean of the p values ending there) |
| Indicators.RollingMeanWithin | backend/services/indicators.py:14 | every defined rolling mean lies within any bounds of the series |
| Indicators.RollingMeanNonNegative | backend/services/indicators.py:36-37 | the rolling mean of a non-negative series is non-negative |
| Indicators.Alpha | backend/services/indicators.py:21 | the smoothing factor 2/(span + 1) of `ewm(span, adjust=False)` lies in (0, 1] |
| Indicators.Ema | backend/services/indicators.py:21 | the EMA starts at the first value and each later value mixes the previous EMA with the new value |
| Indicators.EmaWithin | backend/services/indicators.py:21 | every EMA value lies within any bounds of the series |
| Indicators.Macd | backend/services/indicators.py:48-62 | the three MACD columns have one value per row and the histogram is MACD minus signal at every row |
| Indicators.MacdOfFlatSeries | backend/services/indicators.py:55-60 | a constant close series has MACD, signal and histogram 0 throughout |
| Indicators.Gains | backend/services/indicators.py:33 | the gain column is non-negative |
| Indicators.Losses | backend/services/indicators.py:34 | the loss column is non-negative |
| Indicators.Rsi | backend/services/indicators.py:25-45 | RSI lies in [0, 100] at every row and is exactly 50 where the 14-row window is incomplete |
| Indicators.RsiValuesBounded | backend/services/indicators.py:40-43 | every RSI value from non-negative average gain and loss lies in [0, 100] |
| Indicators.RsiRatio | backend/services/indicators.py:40-42 | with a positive average loss RSI is 100 x gain / (gain + loss), below 100 |
| Indicators.RsiWithoutLossesIsNeutral | backend/services/indicators.py:40-43 | a window in which the close never falls has a zero average loss and gets RSI 50, not 100 |
| Indicators.NoLossMeansNeutral | backend/services/indicators.py:40-43 | a zero sum of losses over the window gives RSI 50 |
| Indicators.Bollinger | backend/services/indicators.py:65-81 | upper and lower bands are defined together, each two standard deviations from the middle, so lower <= middle <= upper |
| Indicators.PercentBInsideBands | backend/services/indicators.py:79 | %B lies in [0, 1] exactly when the close is inside the bands |
| Indicators.TrueRange | backend/services/indicators.py:88-92 | the true range is at least high minus low at every row and non-negative after the first |
| Indicators.AtrAtLeastAverageRange | backend/services/indicators.py:93 | from row 13 on the ATR is defined and at least the mean high-low range of its 14-row window |
| Indicators.VolumeRatio | backend/services/indicators.py:102-103 | the volume ratio is undefined before the 20-row volume average exists |
| Indicators.Obv | backend/services/indicators.py:106 | OBV starts at 0 and each step adds the volume, subtracts it or adds nothing by the sign of the close change |
| Indicators.ObvOfFlatSeries | backend/services/indicators.py:106 | a constant close series keeps OBV at 0 |
| Indicators.Roc | backend/services/indicators.py:116-118 | ROC over k rows is NaN for the first k rows and afterwards the float percentage change against the close k rows back, which is infinite (by the sign of the move) or NaN when that close is 0 |
| Indicators.RocIsPctChange | backend/services/indicators.py:116-123 | `(c - c.shift(k)) / c.shift(k) x 100` and `pct_change(k) x 100` are the same column, infinities and NaN included |
| Indicators.PercentChangeShift | backend/services/indicators.py:116-123 | in float64, (a - b) / b x 100 equals (a / b - 1) x 100 for every a and b, a zero b included |
| Indicators.ColumnsOf | backend/services/indicators.py:128-141 | all indicator columns have one value per row, RSI in [0, 100] and histogram MACD minus signal |
| Indicators.RowsOf | backend/services/indicators.py:128-141 | each row keeps its bar, RSI in [0, 100], histogram MACD minus signal, SMA-20 from row 19 on and ordered bands |
| Indicators.AllIndicators | backend/services/indicators.py:128-141 | the frame keeps every bar in order and its RSI lies in [0, 100] |
| Indicators.RsiZoneOf | backend/services/indicators.py:158-159 | Oversold exactly below 30, Overbought exactly above 70, else Neutral |
| Indicators.CrossoverOf | backend/services/indicators.py:168-171 | Golden Cross iff MACD was at or below its signal and is now above; Death Cross iff it was at or above and is now below |
| Indicators.TrendOf | backend/services/indicators.py:180-182 | Strong Uptrend exactly when SMA-20 > SMA-50 > SMA-200 are all defined, Strong Downtrend exactly for the reverse chain, Mixed otherwise (a NaN SMA compares false) |
| Indicators.IndicatorSignals | backend/services/indicators.py:144-212 | no signals iff there are fewer than 2 rows; an undefined volume average makes `int()` raise; otherwise the RSI zone follows 30/70 and a crossover agrees with the MACD bias |
| Patterns.PatternOf | backend/services/patterns.py:26-142 | each detectable pattern has one fixed name, type and strength |
| Patterns.DetectedExclusive | backend/services/patterns.py:25-142 | Golden and Death Cross, Oversold and Overbought, the two MACD crossovers, and Near Resistance and Near Support are never detected together |
| Patterns.OverboughtIndependent | backend/services/patterns.py:41-56 | on a frame of at least 20 rows, Overbought is detected iff the last RSI exceeds 70 |
| Patterns.ExpectedMeaning | backend/services/patterns.py:16-144 | the detected list holds exactly the patterns whose conditions hold, each once, in the order the checks run |
| Patterns.AddCrossPatterns | backend/services/patterns.py:18-38 | the SMA crossover step appends Golden or Death Cross as its condition holds |
| Patterns.AddRsiPatterns | backend/services/patterns.py:40-56 | the RSI step appends Oversold or Overbought as its condition holds |
| Patterns.AddMacdPatterns | backend/services/patterns.py:58-78 | the MACD step appends the bullish or bearish crossover as its condition holds |
| Patterns.BandWidth | backend/services/patterns.py:82 | the float width is finite exactly when both bands are defined and the close is non-zero, and then width x close is the band spread |
| Patterns.BandWidths | backend/services/patterns.py:83 | one width per row, each that row's width |
| Patterns.SqueezeOfZeroCloseInWindow | backend/services/patterns.py:82-85 | a zero close with open, ordered bands anywhere in the last 20 rows makes the mean width +inf, so any finite latest width is a squeeze |
| Patterns.NoSqueezeAtZeroClose | backend/services/patterns.py:82-85 | a zero latest close with ordered bands is never a squeeze: its width is +inf or NaN |
| Patterns.SqueezeOfNonZeroCloses | backend/services/patterns.py:82-85 | with no zero close, a squeeze holds iff the latest bands are defined, some width of the last 20 rows is defined and the latest width is below 0.7 x the mean of those defined widths |
| Patterns.AddSqueezePattern | backend/services/patterns.py:80-91 | the band step appends the squeeze exactly when its float comparison holds |
| Patterns.AddTrendPatterns | backend/services/patterns.py:93-111 | the trend step appends Higher Highs and Lower Lows as their conditions hold |
| Patterns.AddVolumePattern | backend/services/patterns.py:113-122 | the volume step appends the spike when the ratio exceeds 2 |
| Patterns.AddLevelPatterns | backend/services/patterns.py:124-142 | the level step appends Near Resistance, or else Near Support |
| Patterns.CollectPatterns | backend/services/patterns.py:16-144 | the step-by-step appends produce the expected list |
| Patterns.DetectPatterns | backend/services/patterns.py:11-144 | fewer than 20 rows give no patterns; otherwise the expected list of the frame's checks |
| Patterns.PatternSummary | backend/services/patterns.py:147-173 | an empty list gives the neutral summary with strength 0 and count 0; otherwise the counts, the strength (bullish minus bearish) and the signal, bullish iff bull strength > 1.5 x bear strength and bearish iff bear strength > 1.5 x bull strength |
| Patterns.CountsWithinTotal | backend/services/patterns.py:152-171 | bullish, bearish and neutral patterns together are all the patterns |
| Patterns.StrengthWithinCount | backend/services/patterns.py:155-157 | a type's strength lies between its count and three times its count |
| Patterns.SummaryCountsBounded | backend/services/patterns.py:152-171 | bullish plus bearish counts never exceed the pattern count, since neutral patterns count in neither |
| Patterns.SummarySignalAgreesWithStrength | backend/services/patterns.py:159-170 | a bullish signal has positive strength and a bearish one negative |
| Cache.FilterOutKeys | backend/services/cache.py:62-65 | deleting keys from the order removes exactly those keys |
| Cache.MatchingSplit | backend/services/cache.py:81 | the keys containing the pattern and the others together make up the order; the first are exactly the keys that contain it |
| Cache.MoveToEnd | backend/services/cache.py:46 | `move_to_end` leaves the key as the most recent one |
| Cache.MoveToEndKeys | backend/services/cache.py:46 | moving a key to the end keeps the keys unique and adds only that key |
| Cache.EvictCount | backend/services/cache.py:54-56 | the eviction loop removes no more keys than there are, leaves fewer than `maxsize`, and when it removes any leaves exactly `maxsize - 1` |
| Cache.Expiry | backend/services/cache.py:59 | a missing or zero ttl expires at now + default ttl, any other at now + ttl |
| Cache.SetBounded | backend/services/cache.py:53-60 | after a store with `maxsize >= 1` the keys are unique, at most `maxsize` of them, and include the stored key |
| Cache.SetExistingWhenFullShrinks | backend/services/cache.py:54-58 | storing a key the full cache already holds still evicts the oldest key, so the cache ends one below capacity |
| Cache.StoreKeepsKeys | backend/services/cache.py:58-60 | storing in both maps and moving the key to the end keeps the ordered map and the expiry map on the same key set |
| Cache.HitRate | backend/services/cache.py:89-95 | the hit rate lies in [0, 100], is 0 with no lookups and 100 when every lookup hit |
| Cache.TTLCache.constructor | backend/services/cache.py:18-30 | an empty cache with the given capacity and default ttl and zero counters |
| Cache.TTLCache.Get | backend/services/cache.py:32-48 | an absent key is a miss that changes nothing else; an expired key (now > expiry) is removed from both maps and counted as a miss; a live key returns its value, becomes the most recent and counts as a hit |
| Cache.TTLCache.Evict | backend/services/cache.py:54-56 | the loop removes the oldest keys until fewer than `maxsize` remain; with `maxsize <= 0` it empties the cache and then raises |
| Cache.TTLCache.DropOldest | backend/services/cache.py:55-56 | one loop iteration removes the front key from the order and both maps |
| Cache.TTLCache.Set | backend/services/cache.py:50-60 | eviction first, then the key is stored with its expiry as the most recent; counters unchanged; `maxsize <= 0` raises |
| Cache.TTLCache.Store | backend/services/cache.py:58-60 | the key gets the value and expiry in both maps and moves to the end |
| Cache.TTLCache.Delete | backend/services/cache.py:62-70 | only that key leaves the order and both maps; a missing key changes nothing |
| Cache.TTLCache.Clear | backend/services/cache.py:72-76 | both maps are emptied; counters stay |
| Cache.TTLCache.DeleteKeys | backend/services/cache.py:82-83 | deleting a list of keys removes exactly those keys from the order and both maps |
| Cache.TTLCache.InvalidatePattern | backend/services/cache.py:78-84 | exactly the keys containing the pattern are removed and their number is returned |
| Cache.TTLCache.Stats | backend/services/cache.py:86-96 | the size is the number of stored keys, the counters are reported as they are and the hit rate lies in [0, 100] |
| Cache.CachedCall | backend/services/cache.py:134-148 | a live cached value is returned without the computed one; otherwise the computed result is returned and, when not `None`, stored under the key |
| Cache.InvalidateStockCache | backend/services/cache.py:153-159 | a symbol invalidates the keys containing it and returns their number; without one the cache is cleared and -1 returned |
| StockService.AgeSeconds | backend/services/stock_service.py:50 | the `timedelta.seconds` age always lies in [0, 86400) and equals the true gap whenever that gap is under a day |
| StockService.DayOldCountsFresh | backend/services/stock_service.py:50-51 | a timestamp one day and `s` seconds old reports age `s`, so with `s` under 600 a day-old entry is still served |
| StockService.Lookup | backend/services/stock_service.py:46-53 | a slot is served only when its timeframe holds a timestamp younger than 600 s, and then it is exactly the stored slot; otherwise nothing |
| StockService.SetThenGet | backend/services/stock_service.py:56-61 | right after a store the stored value is served back for that timeframe and key, and every other timeframe is unchanged |
| StockService.SharedTimestamp | backend/services/stock_service.py:56-61 | storing `data` refreshes the one timestamp of the timeframe, so the old `scored` slot is served again as fresh |
| StockService.DataCache.constructor | backend/services/stock_service.py:28-32 | the three timeframes start with `data`, `scored` and `timestamp` empty |
| StockService.DataCache.Get | backend/services/stock_service.py:46-53 | `get_cache` reads the store through `Lookup` |
| StockService.DataCache.Set | backend/services/stock_service.py:56-61 | `set_cache` creates the timeframe when missing, writes the key and stamps the timeframe with `now` |
| StockService.Progress.constructor | backend/services/stock_service.py:35-42 | the initial progress record: 0 of 0, idle, no message, no logs, no active timeframe |
| StockService.Progress.Reset | backend/services/stock_service.py:88-94 | resetting restores 0 of 0, status idle, empty message and logs, no active timeframe |
| StockService.Progress.Update | backend/services/stock_service.py:97-110 | counters, message and status take the new values; the active timeframe changes only when one is given; the log is the old log plus this message, cut to its last 50 entries |
| StockService.LogKeepsRecent | backend/services/stock_service.py:106-110 | the truncated log holds at most 50 entries, ends with the new message and keeps the most recent older entries in order; under 50 nothing is dropped |
| Base.PercentChange | backend/services/stock_service.py:209 | the percent change is finite exactly for a non-zero base, and then change x base = (now - base) x 100 and, for a positive base, it is positive iff the price rose and negative iff it fell; a zero base gives +inf for a rise, -inf for a fall and NaN for no move |
| Base.FDiv | backend/services/patterns.py:82 | float division is finite exactly for a non-zero divisor, where quotient x divisor is the dividend; x / 0 is +inf for positive x, -inf for negative x, NaN for 0 |
| Base.FAdd | backend/services/scoring.py:62 | float addition is NaN iff a side is NaN or the sides are opposite infinities, an infinity otherwise wins, and two finite values add |
| Base.FScale | backend/services/scoring.py:62 | multiplying by a positive constant keeps finiteness and sign and leaves infinities and NaN unchanged |
| Base.FMean | backend/services/patterns.py:83 | `Series.mean()` skips NaN: it is NaN iff every value is NaN or both infinities occur, +inf iff +inf occurs without -inf (and the mirror), otherwise the mean of the finite values |
| Base.FMeanOfDefined | backend/services/patterns.py:83 | for a column of optional reals read as floats (`None` as NaN, no infinities), the float mean is the mean of the defined values, NaN when there is none |
| StockService.AccurateReturns | backend/services/stock_service.py:197-233 | series with fewer than 2 closes are returned unchanged (no return columns), and longer ones always get the three float returns |
| StockService.AccurateReturnsCases | backend/services/stock_service.py:205-230 | 1W is measured against the 5th-last close (0 under 5 rows); 1M against the 20th-last, else 1W from 5 rows, else 0; 3M against the 60th-last, else 1.5 x 1M from 40 rows, else 1M; each is the float percent change, so a zero base close gives an infinity or NaN |
| StockService.WeeklyReturnSign | backend/services/stock_service.py:205-209 | with a positive 5th-last close the weekly return is defined and positive iff the latest close is higher |
| StockService.FetchCoversLookback | backend/services/stock_service.py:181-182 | the period fetched for the lookback of `get_stock_data` ("1y" only for a one-year request, else "6mo") always spans at least that lookback |
| StockService.PeriodConfigOf | backend/services/stock_service.py:123-127 | an unknown timeframe falls back to the weekly configuration; every lookback is 30, 180 or 730 days |
| StockUniverse.PutMap | backend/services/stock_universe.py:153-156 | assigning one item keeps the symbols unique and maps the symbol to the new info, all else unchanged |
| StockUniverse.UpdateMap | backend/services/stock_universe.py:153-156 | `dict.update` keeps symbols unique and yields the map union in which the later dictionary wins |
| StockUniverse.AllStocksUnion | backend/services/stock_universe.py:151-157 | the universe is the union of the three index maps, with a later index overriding an earlier one on a shared symbol |
| StockUniverse.StocksByCap | backend/services/stock_universe.py:160-163 | exactly the universe's stocks of that cap class |
| StockUniverse.StocksByIndex | backend/services/stock_universe.py:166-174 | each known index name gives its own dictionary; any other name gives the whole universe |
| StockUniverse.CountsTotal | backend/services/stock_universe.py:184-189 | the total adds the three index sizes: it bounds the union's size and equals it when the indices share no symbol |
| StockUniverse.SectorsSortedDistinct | backend/services/stock_universe.py:177-180 | the sector list is strictly ascending (so duplicate-free) and contains exactly the sectors of the universe's stocks |
| StockUniverse.Relevance | backend/services/stock_universe.py:209-228 | the score is 100 exactly on an exact symbol match; every score is 0, 20, 30, 40, 50, 100 or a prefix score in [80, 89] |
| StockUniverse.RelevancePositive | backend/services/stock_universe.py:211-230 | a stock scores above 0 iff the query occurs in its symbol, its upper-cased name or its upper-cased sector |
| StockUniverse.MatchesSound | backend/services/stock_universe.py:204-237 | every collected result has a positive score, comes from the universe and carries that stock's relevance |
| StockUniverse.Search | backend/services/stock_universe.py:192-241 | an empty query gives no results; otherwise the results are the matches of the upper-cased, stripped query, sorted and cut to `limit` |
| StockUniverse.SearchResultsRanked | backend/services/stock_universe.py:230-241 | at most `limit` results, each with a positive score and from the universe, in descending score with ties in ascending symbol order |
| StockUniverse.BlankQueryMatchesAll | backend/services/stock_universe.py:197-200 | a whitespace-only query passes the emptiness check, strips to the empty string and then matches every stock |
| Portfolio.SetPosition | backend/services/portfolio.py:84-86 | the row of that symbol gets the new quantity and average price; every other row is unchanged |
| Portfolio.OrderedListing | backend/services/portfolio.py:102-109 | `get_holdings` lists every holding once, ordered by symbol |
| Portfolio.Book.constructor | backend/services/portfolio.py:23-53 | the tables start empty |
| Portfolio.Book.AddHolding | backend/services/portfolio.py:56-77 | the holding of the upper-cased symbol is inserted or replaced (quantity and price replaced, not averaged; buy date defaulting to today) and exactly one BUY transaction is appended |
| Portfolio.Book.UpdateHolding | backend/services/portfolio.py:80-89 | only the upper-cased symbol's position changes; transactions are untouched |
| Portfolio.Book.RemoveHolding | backend/services/portfolio.py:92-99 | only the upper-cased symbol's holding goes; transactions are untouched |
| Portfolio.Book.ClearAll | backend/services/portfolio.py:310-318 | every holding goes and the transactions stay |
| Portfolio.PnlPercent | backend/services/portfolio.py:145 | 0 for a non-positive average price; otherwise positive iff the price is above the average and 0 iff equal |
| Portfolio.Percent | backend/services/portfolio.py:160 | a percentage over a non-positive denominator is 0 |
| Portfolio.Value | backend/services/portfolio.py:140-145 | a holding's P&L is its current value minus its invested value, and is 0 (as is its percentage) when the price equals the average |
| Portfolio.ValuedAt | backend/services/portfolio.py:136-157 | the i-th summary row values the i-th holding at its quoted price, or at its average price when there is no quote |
| Portfolio.PortfolioSummaryOf | backend/services/portfolio.py:128-169 | the accumulating loop yields `SummaryOf`, the summary of the valued holdings |
| Portfolio.SummaryFrom | backend/services/portfolio.py:159-169 | the summary counts its rows and its total P&L is current minus invested |
| Portfolio.PnlAdds | backend/services/portfolio.py:144-159 | the per-holding P&L values add up to the total current minus the total invested |
| Portfolio.SummaryProperties | backend/services/portfolio.py:128-169 | the count is the number of holdings; total P&L is current minus invested and the sum of the rows' P&L; the percentage is 0 without investment; an unquoted holding has P&L 0 |
| Portfolio.NoLossWhenPricesHold | backend/services/portfolio.py:142-148 | when every price is at least its average (non-negative quantities), the current total is at least the invested total |
| Portfolio.AnalyticsRowOf | backend/services/portfolio.py:194-239 | an analytics row keeps the holding's symbol and its P&L is current minus invested value |
| Portfolio.AllotAdds | backend/services/portfolio.py:243-248 | allotting a holding adds one to the sector counts and its value to the sector values |
| Portfolio.AllocationTotals | backend/services/portfolio.py:243-248 | the sector counts sum to the number of holdings and the sector values to the current total |
| Portfolio.WithPercentages | backend/services/portfolio.py:251-254 | each sector's percentage is its share of the current total, 0 when that total is not positive |
| Portfolio.SectorPercentagesTotal | backend/services/portfolio.py:251-254 | for a positive current total the sector percentages add up to 100 |
| Portfolio.InsightsRanked | backend/services/portfolio.py:258-298 | top gainers, top losers and highest upside hold at most 5 rows each, in their sort order; at most 3 symbols to buy and to sell; the buy and sell counts are the numbers of BUY/STRONG BUY and SELL/STRONG SELL holdings, together never more than the holdings |
| Portfolio.InsightsLeftOut | backend/services/portfolio.py:258-260 | top gainers, top losers and highest upside each hold min(5, holdings) rows drawn from the holdings, none more often than it occurs; no holding left out of top gainers has a higher P&L percent than one listed, none left out of top losers a lower one, and none left out of highest upside a higher upside |
| Portfolio.InsightsRecommended | backend/services/portfolio.py:261-297 | the buy and sell counts are the numbers of BUY/STRONG BUY and SELL/STRONG SELL holdings; the symbols to buy are those of the first min(3, buy count) buy holdings in order, and likewise for sell |
| Portfolio.BuySellDisjoint | backend/services/portfolio.py:261-262 | no holding counts as both a buy and a sell recommendation |
| Portfolio.ConcentrationMeaning | backend/services/portfolio.py:274-275 | the concentration warning is raised iff some holding's value exceeds a quarter of the current total |
| Portfolio.ReportFrom | backend/services/portfolio.py:277-307 | the report carries the rows and sector entries; total P&L is current minus invested and its percentage 0 without investment |
| Portfolio.CollectRows | backend/services/portfolio.py:194-248 | the holdings loop yields the analytics rows, both totals and the sector allocation |
| Portfolio.SetPercentages | backend/services/portfolio.py:251-255 | the percentage loop yields `WithPercentages` |
| Portfolio.PortfolioAnalytics | backend/services/portfolio.py:172-307 | the method yields `AnalyticsOf`: an error without holdings, a division by zero for a zero current total, otherwise the report |
| Portfolio.AnalyticsProperties | backend/services/portfolio.py:185-283 | the error is returned iff there are no holdings; a report has one row per holding, sector counts adding up to the holdings, total P&L current minus invested, and sector percentages adding up to 100 for a positive total |
| Backtest.GetOr | backend/services/backtest.py:99-106 | `dict.get(key, default)`: a missing key gives the default, a key holding `None` gives `None`, a present value is returned |
| Backtest.RecRowOf | backend/services/backtest.py:89-109 | a stock is stored iff neither its symbol nor its action is `None` (the NOT NULL violation is caught and skipped); the row carries the date and timeframe, a missing action defaults to HOLD and a missing symbol to the empty string |
| Backtest.PriceRowOf | backend/services/backtest.py:124-130 | a price row is stored iff neither symbol nor price is `None`; a missing price is stored as 0; the row carries the date |
| Backtest.RecRowsStamped | backend/services/backtest.py:88-107 | every row a save writes carries that day's date and the given timeframe |
| Backtest.Tracker.constructor | backend/services/backtest.py:44-77 | both tables start empty |
| Backtest.Tracker.SaveRecommendations | backend/services/backtest.py:80-112 | the table is the old one with each stored row upserted in turn on (date, symbol, timeframe), so one row per key remains; prices are untouched |
| Backtest.Tracker.SaveCurrentPrices | backend/services/backtest.py:115-133 | the price table is the old one with each stored row upserted on (date, symbol); recommendations are untouched |
| Backtest.PriceOn | backend/services/backtest.py:178-179 | the LEFT JOIN finds a price iff some row has that (date, symbol) |
| Backtest.PriceOnStored | backend/services/backtest.py:178-179 | with unique (date, symbol) keys, the join returns exactly the stored price |
| Backtest.Joined | backend/services/backtest.py:173-183 | one joined row per recommendation dated the start date, in table order and no other, each with its start-date and end-date prices as the LEFT JOINs find them |
| Backtest.PctReturn | backend/services/backtest.py:219 | for a positive start price the return is positive iff the end price is higher |
| Backtest.DetailOf | backend/services/backtest.py:231-237 | a counted row has non-zero prices and its return is the percent change between them |
| Backtest.DetailsCount | backend/services/backtest.py:211-217 | exactly the rows with a truthy start price (falling back to the recommendation price) and end price are counted, each with its percent return |
| Backtest.TallyStep | backend/services/backtest.py:222-248 | one counted row adds its return to its action's entry and to the total, counts as profitable iff its return is positive (otherwise as a loss) and replaces best/worst only when strictly better/worse |
| Backtest.Averaged | backend/services/backtest.py:255-259 | each action entry gains its average return |
| Backtest.ReportOf | backend/services/backtest.py:250-264 | the report's totals, groups, best and worst come from the counted rows; detail is sorted by return, descending; with no counted rows the average is 0 and no win rate is set, otherwise the average is the mean return and a win rate is set |
| Backtest.SetAverages | backend/services/backtest.py:255-259 | the averaging loop yields `Averaged` |
| Backtest.Record | backend/services/backtest.py:222-248 | one loop iteration extends the tally of the rows so far by one row |
| Backtest.BacktestReturns | backend/services/backtest.py:163-264 | the method yields `BacktestOf` of the joined rows |
| Backtest.ProfitLossPartition | backend/services/backtest.py:239-242 | profitable plus loss counts equal the counted rows; the profitable ones are exactly those with a positive return, so a zero return is a loss |
| Backtest.BestIsMaximum | backend/services/backtest.py:244-245 | a best pick exists iff some row is counted; it is one of them and its return is at least every counted return |
| Backtest.WorstIsMinimum | backend/services/backtest.py:247-248 | a worst pick exists iff some row is counted; it is one of them and its return is at most every counted return |
| Backtest.ByActionCounts | backend/services/backtest.py:222-229 | every action appears once in the groups, the groups are exactly the actions seen, and their counts add up to the counted rows |
| Backtest.BacktestProperties | backend/services/backtest.py:186-264 | no data iff the join is empty; otherwise the total is the counted rows, profitable plus losses is the total, group counts add up to it, best and worst exist iff something was counted and bound every return, and detail is a sorted permutation of the counted rows |
| CsvImport.NormalizeColumnShape | backend/services/csv_import.py:38 | a normalised column name contains no `.` and no upper-case letter |
| CsvImport.NormalizeColumns | backend/services/csv_import.py:38 | every column is normalised (stripped, lower-cased, dots removed), in place and order |
| CsvImport.GrowwColumns | backend/services/csv_import.py:131 | every Groww column is stripped and lower-cased, in place and order |
| CsvImport.ColumnWith | backend/services/csv_import.py:55-57 | the first column whose lower-cased name contains the option, or none exactly when no column contains it |
| CsvImport.FindColumnPriority | backend/services/csv_import.py:53-58 | a found column belongs to the first option that matches any column; every earlier option matches none |
| CsvImport.FindColumnNone | backend/services/csv_import.py:58 | no column is found exactly when no option occurs in any column name |
| CsvImport.FindColumn | backend/services/csv_import.py:53-58 | the nested loop returns the column the options-first search defines |
| CsvImport.ColumnNamed | backend/services/csv_import.py:136-142 | `row.get(name)`: the first column with exactly that name, or none exactly when the name is absent |
| CsvImport.CleanSymbolShape | backend/services/csv_import.py:83-87 | cleaning an upper-case symbol keeps it upper-case, removes every space and never lengthens it |
| CsvImport.CleanSymbolPlain | backend/services/csv_import.py:83-87 | a plain symbol is left unchanged |
| CsvImport.CleanSymbolSeries | backend/services/csv_import.py:83 | a `-EQ` or `-BE` series suffix is removed |
| CsvImport.CleanSymbolExchange | backend/services/csv_import.py:86-87 | a trailing `NSE` or `BSE` is cut off |
| CsvImport.CleanSymbolSinglePass | backend/services/csv_import.py:83 | each replacement is a single pass, so `A-B-BEE` becomes `A-BE`, which still ends in a series suffix |
| CsvImport.ZerodhaRowCases | backend/services/csv_import.py:76-111 | a row is skipped iff its symbol is empty or `NAN`; otherwise it is imported iff its values convert with quantity and average cost positive, reported as invalid data for the cleaned symbol when they convert but are not positive, and by its number when a value does not convert; a non-skipped row whose quantity, cost, LTP, invested or P&L column shares its normalised name with another column is reported by its number |
| CsvImport.ReadValuesDefaults | backend/services/csv_import.py:89-93 | a missing or NaN quantity or cost reads as 0, LTP falls back to the average cost, invested to quantity times cost and P&L to (LTP - cost) times quantity; present cells are read as their numbers |
| CsvImport.ZerodhaHolding | backend/services/csv_import.py:95-106 | an imported Zerodha holding is positive, has the cleaned symbol and source `zerodha`, current value quantity times LTP and a P&L percentage of 0 unless invested is positive |
| CsvImport.ZerodhaRowsCount | backend/services/csv_import.py:74-111 | every row is imported, reported or skipped: holdings + errors + skipped rows = rows |
| CsvImport.ZerodhaRowsValid | backend/services/csv_import.py:95-106 | every Zerodha holding has positive quantity and average price and source `zerodha` |
| CsvImport.ZerodhaSharedQuantity | backend/services/csv_import.py:89-111 | when the quantity column shares its normalised name with another column, the file yields no holding and only row-number errors |
| CsvImport.ZerodhaFileErrors | backend/services/csv_import.py:23-71 | an unreadable file, an empty one, a missing instrument column and a missing quantity column each give no holdings and that one error |
| CsvImport.ParseZerodha | backend/services/csv_import.py:12-116 | the parser returns the holdings and errors of the file-level checks and the row loop |
| CsvImport.GrowwRowCases | backend/services/csv_import.py:134-157 | a Groww row is imported iff its symbol is non-empty, its values convert and quantity and cost are positive; the only error is a conversion failure, reported by row number; a row with a symbol whose `quantity`, `avg. buy price` or `ltp` column shares its name with another column is that error |
| CsvImport.GrowwHolding | backend/services/csv_import.py:144-155 | an imported Groww holding is positive, has source `groww`, invested value quantity times cost, and P&L and percentage from the LTP |
| CsvImport.GrowwLtpDefault | backend/services/csv_import.py:142 | without an `ltp` or `current price` column the LTP is the average cost |
| CsvImport.GrowwRowsValid | backend/services/csv_import.py:134-157 | every Groww holding is positive with source `groww`; every error names a row between 1 and the row count; holdings + errors never exceed the rows |
| CsvImport.GrowwSharedQuantity | backend/services/csv_import.py:133-157 | when two columns normalise to `quantity`, the file yields no holding and only row-number errors |
| CsvImport.ParseGroww | backend/services/csv_import.py:119-162 | the parser returns the holdings and errors of the Groww row loop |
| CsvImport.DetectChoice | backend/services/csv_import.py:165-180 | Zerodha is chosen iff it yields a holding, Groww iff Zerodha yields none and Groww some, each with its own results; otherwise nothing is imported and the one error says the format is unknown |
| CsvImport.DetectBrokerAndParse | backend/services/csv_import.py:165-180 | the method returns the detection result |
| Crypto.XorInvolution | backend/services/crypto.py:62 | XOR with the same key twice gives the value back |
| Crypto.XorBound | backend/services/crypto.py:62 | XOR of two n-bit values is an n-bit value, so XOR of bytes is a byte |
| Crypto.XorBytesInvolution | backend/services/crypto.py:61-70 | XOR-ing bytes with a key stream of the same length twice restores them |
| Crypto.RepeatIndex | backend/services/crypto.py:61 | byte i of the repeated key is key byte i mod the key length |
| Crypto.KeyStream | backend/services/crypto.py:61 | the extended key has exactly the data's length |
| Crypto.KeyStreamIndex | backend/services/crypto.py:61 | byte i of the extended key is key byte i mod the key length |
| Crypto.AlphabetBijection | backend/services/crypto.py:63 | the base64 alphabet maps 0..63 to distinct symbols other than `=` and back |
| Crypto.Encode | backend/services/crypto.py:63 | base64 output has 4 characters for every started group of 3 bytes |
| Crypto.DecodeEncodeGroup | backend/services/crypto.py:63-68 | decoding an encoded group of 1 to 3 bytes gives the group back |
| Crypto.DecodeEncode | backend/services/crypto.py:63-68 | base64 decoding inverts encoding for every byte string |
| Crypto.EncodeAlphabet | backend/services/crypto.py:63 | every character of the encoding is in the alphabet or `=` |
| Crypto.DecryptEncrypt | backend/services/crypto.py:55-71 | encryption fails exactly for an empty key; otherwise the ciphertext decodes to data XOR key stream, of the data's length, and decryption returns the data |
| Crypto.HashWithSalt | backend/services/crypto.py:23-33 | the salt is the given one or else the fresh token, and the hash is the digest of "salt:data" |
| Crypto.VerifyHashSound | backend/services/crypto.py:36-39 | a hash verifies against its own salt, and with a given salt exactly the digest of "salt:data" verifies |
| Crypto.BySymbolPreorder | backend/services/crypto.py:102 | ordering by `symbol`, absent as empty, is a total preorder |
| Crypto.HashPortfolioOrderFree | backend/services/crypto.py:96-104 | the checksum does not depend on the order of holdings whose symbols are distinct |
| Crypto.MaskShowsSuffix | backend/services/crypto.py:107-112 | a value no longer than the count shown is all stars; otherwise the value keeps its length, its last characters and stars before them |
| Crypto.MaskZeroRevealsAll | backend/services/crypto.py:112 | as written, `show_chars = 0` yields stars followed by the whole value |
| Crypto.MaskIntended | backend/services/crypto.py:107-112 | the corrected mask keeps the value's length, shows at most the last `show_chars` characters and only stars when that count is not positive |
| Crypto.MaskIntendedAgrees | backend/services/crypto.py:110-112 | for a positive count the corrected mask equals the source's |
| Alerts.NewestPreorder | backend/services/alerts.py:97-101 | `ORDER BY created_at DESC` is a total preorder |
| Alerts.ListedRows | backend/services/alerts.py:97-101 | the filter keeps exactly the active alerts of the symbol, or all active ones without a symbol |
| Alerts.ActiveListing | backend/services/alerts.py:91-106 | the listing holds exactly the active alerts matching the upper-cased symbol, each once, newest first |
| Alerts.DeactivateIds | backend/services/alerts.py:125-126 | exactly the rows with a listed id become inactive with the trigger time; the rest stay |
| Alerts.DeactivateOneMore | backend/services/alerts.py:170 | deactivating one more id after a batch equals deactivating the longer batch |
| Alerts.DeactivateKeepsIds | backend/services/alerts.py:125 | deactivation keeps every row's id, so the id bound still holds |
| Alerts.Triggers | backend/services/alerts.py:149-153 | an alert triggers only for `above` or `below`: `above` iff current >= target, `below` iff current <= target |
| Alerts.FiredOfStep | backend/services/alerts.py:140-176 | one more listed alert adds one trigger exactly when it fires |
| Alerts.FiredMeaning | backend/services/alerts.py:140-176 | every trigger is a listed alert whose symbol has a price and whose condition holds, at that price and time; every such alert triggers |
| Alerts.HistoryOf | backend/services/alerts.py:161-164 | one history row per trigger, with consecutive ids, the alert's id, symbol, target and condition, the price and the time |
| Alerts.NothingRefires | backend/services/alerts.py:132-178 | after `check_alerts`, no alert left active would trigger at the same prices |
| Alerts.TriggerStep | backend/services/alerts.py:155-170 | recording one more trigger extends both the deactivation and the history by that trigger |
| Alerts.AlertStore.constructor | backend/services/alerts.py:23-56 | both tables start empty |
| Alerts.AlertStore.CreateAlert | backend/services/alerts.py:59-88 | a new id, unused before, and one new active row with the upper-cased symbol, creation time and no trigger time; the history is unchanged |
| Alerts.AlertStore.DeleteAlert | backend/services/alerts.py:109-117 | only the row with that id leaves; always reports success |
| Alerts.AlertStore.DeactivateAlert | backend/services/alerts.py:120-129 | only the row with that id becomes inactive with the time; always reports success |
| Alerts.AlertStore.RecordTrigger | backend/services/alerts.py:155-170 | one loop step appends the history row and deactivates the alert |
| Alerts.AlertStore.CheckAlerts | backend/services/alerts.py:132-178 | returns the triggers of the active alerts, deactivates exactly those, appends their history rows, and leaves no active alert that would trigger |
| Session.ValidMeaning | backend/services/session.py:66-90 | an empty token is never valid; a token is valid iff it is non-empty and its session expires strictly after now |
| Session.Touch | backend/services/session.py:84-86 | only the session with that token gets the new last access; every other field and row stays |
| Session.Unexpired | backend/services/session.py:105 | exactly the sessions expiring at or after now remain |
| Session.TouchUnique | backend/services/session.py:84-86 | refreshing the last access keeps the tokens unique |
| Session.UnexpiredUnique | backend/services/session.py:105 | the cleanup keeps the tokens unique |
| Session.CleanupBoundary | backend/services/session.py:76-105 | a session expiring exactly at now survives the cleanup although its token no longer validates |
| Session.Store.constructor | backend/services/session.py:28-42 | the table starts empty |
| Session.Store.CreateSession | backend/services/session.py:45-63 | a new row with created = last access = now and expiry now + 30 days, returning the token; a token already stored breaks the UNIQUE constraint and nothing changes |
| Session.Store.ValidateSession | backend/services/session.py:66-90 | the answer is exactly validity at now; a valid session has only its last access refreshed, and nothing changes otherwise |
| Session.Store.GetOrCreateSession | backend/services/session.py:93-97 | a valid token is returned and only its session's last access is refreshed; otherwise exactly one new row (created = last access = now, expiry 30 days on) is appended under the new token, or, when that token is already stored, nothing is returned and nothing changes |
| Session.Store.CleanupExpiredSessions | backend/services/session.py:100-107 | exactly the sessions that expired before now are deleted |
| Watchlist.EntriesOf | backend/services/watchlist.py:77 | exactly the entries of that list, in table order |
| Watchlist.ListingMeaning | backend/services/watchlist.py:72-81 | the listing holds exactly that list's entries, each once, newest first |
| Watchlist.CountsOf | backend/services/watchlist.py:57-69 | one row per list, in order, counting that list's entries |
| Watchlist.CountZero | backend/services/watchlist.py:62-65 | the LEFT JOIN keeps empty lists: a count is 0 iff no entry belongs to the list |
| Watchlist.Lists.constructor | backend/services/watchlist.py:22-47 | both tables start empty |
| Watchlist.Lists.InitDefault | backend/services/watchlist.py:49-51 | afterwards a list with id 1 or name "Default" exists; an existing one blocks the insert, otherwise list 1 "Default" is added; entries unchanged |
| Watchlist.Lists.CreateWatchlist | backend/services/watchlist.py:112-121 | a taken name (the UNIQUE constraint) changes nothing and gives no id; otherwise a new list under an unused id is appended |
| Watchlist.Lists.AddToWatchlist | backend/services/watchlist.py:84-98 | the (list, upper-cased symbol) entry is inserted or replaced with the new time, price and notes; lists unchanged; the UNIQUE pair holds |
| Watchlist.Lists.RemoveFromWatchlist | backend/services/watchlist.py:101-109 | only the (list, upper-cased symbol) entry is deleted; always reports success |
| PriceDb.RowsOf | backend/services/price_db.py:76-93 | one row per bar of the frame, in frame order, with missing columns read as 0 |
| PriceDb.Dates | backend/services/price_db.py:102-103 | the frame's dates, in order |
| PriceDb.MinDate | backend/services/price_db.py:102 | the earliest date is one of the dates and no later than any |
| PriceDb.MaxDate | backend/services/price_db.py:103 | the latest date is one of the dates and no earlier than any |
| PriceDb.Selected | backend/services/price_db.py:120-128 | exactly the symbol's rows with a date within the given bounds |
| PriceDb.StoredPricesMeaning | backend/services/price_db.py:115-144 | `None` iff no row qualifies; otherwise exactly the qualifying rows, each once, in ascending date order |
| PriceDb.NeedsSyncMeaning | backend/services/price_db.py:165-173 | a symbol without a status needs a sync; one with a status needs it iff more than `max_age_hours` have passed since the last sync |
| PriceDb.HoursExceed | backend/services/price_db.py:172-173 | an age in hours exceeds the limit iff the age in seconds exceeds 3600 times it |
| PriceDb.StatsBounds | backend/services/price_db.py:176-197 | the distinct symbols never outnumber the rows, and the symbol count and the date range are empty exactly for an empty table |
| PriceDb.Store.constructor | backend/services/price_db.py:26-63 | both tables start empty |
| PriceDb.Store.StorePriceData | backend/services/price_db.py:66-112 | the result is true exactly for a non-empty frame with no NaN volume; an empty frame, or a NaN volume that makes `int()` raise into the `except`, leaves both tables as they were and gives false; otherwise every bar is upserted on (symbol, date) in frame order and the symbol's status gets the time and the frame's earliest and latest dates |
| PriceDb.StoreStep | backend/services/price_db.py:76-93 | one more bar is one more upsert |
| PriceDb.StoreKeepsLatest | backend/services/price_db.py:81-93 | after a store each (symbol, date) has one row: the frame's last bar for dates it has, the previous row otherwise |
| Fundamentals.Margin | backend/services/fundamentals.py:42-47 | a margin over a non-positive revenue is 0; otherwise it is the part as a percentage of the revenue |
| Fundamentals.Growth | backend/services/fundamentals.py:52-60 | growth over a non-positive base is 0; otherwise it is positive iff revenue grew and 0 iff it stayed equal |
| Fundamentals.BaseQuarters | backend/services/fundamentals.py:34-50 | one quarter row per statement column, in column order |
| Fundamentals.QuarterlyResults | backend/services/fundamentals.py:21-69 | the column loop yields `QuarterlyOf`: no data for an empty statement, else the first eight columns with growth added to the latest |
| Fundamentals.QuarterlyShape | backend/services/fundamentals.py:32-64 | at most 8 quarters and the latest is the first; QoQ exists iff there are at least 2 columns and YoY iff at least 5, each the growth against the previous and the fifth column; margins are 0 for non-positive revenue; other quarters carry no growth |
| Fundamentals.Ratio | backend/services/fundamentals.py:112-117 | a ratio over a non-positive denominator is 0; otherwise it is the quotient |
| Fundamentals.BalanceShape | backend/services/fundamentals.py:72-122 | with a single column the previous figures are the latest ones; each ratio is 0 when its denominator is not positive; for positive total assets debt-to-assets plus equity ratio covers debt plus equity over assets |
| Fundamentals.SameSector | backend/services/fundamentals.py:169-171 | the default peers are universe stocks of the target's sector, never the target itself |
| Fundamentals.PeersOf | backend/services/fundamentals.py:176-194 | exactly one comparison row, built from its quote, per listed symbol with quote data, in list order; a symbol without quote data is skipped |
| Fundamentals.Positives | backend/services/fundamentals.py:197-204 | the filter of the values by strict positivity: exactly the positive values, in order and with their repetitions |
| Fundamentals.PositiveMeanBounds | backend/services/fundamentals.py:197-204 | the average uses only positive values: with none it is 0, otherwise it lies between their minimum and maximum, and so is positive |
| Fundamentals.Column | backend/services/fundamentals.py:199-203 | one metric value per peer |
| Fundamentals.PeerComparison | backend/services/fundamentals.py:156-211 | the peer loop yields `PeerComparisonOf`: not found for an unknown symbol, otherwise the sector, the rows and the averages |
| Fundamentals.CompareListShape | backend/services/fundamentals.py:169-174 | the target is compared first, followed by at most five peers; default peers share its sector and exclude it |
| Fundamentals.AveragesPresence | backend/services/fundamentals.py:197-204 | sector averages are present iff more than one stock was compared, and at most six stocks are compared |
| Commodities.Lookup | backend/services/commodities.py:71-73 | a commodity is found iff the upper-cased symbol is in the catalogue |
| Commodities.LookupCaseInsensitive | backend/services/commodities.py:71-73 | lookup and the whole fetch ignore the case of the symbol; an unknown symbol gives no result |
| Commodities.ChartOf | backend/services/commodities.py:121-138 | one chart point per bar, each the converted bar |
| Commodities.ChartData | backend/services/commodities.py:121-138 | the appending loop yields `ChartOf` |
| Commodities.ChartScaling | backend/services/commodities.py:122-137 | open, high and low are only multiplied by the rate while the close also gets the per-10 g (GOLD) or per-kg (SILVER) scaling |
| Commodities.ChartWindow | backend/services/commodities.py:152 | the chart holds the last min(n, 90) converted bars |
| Commodities.MaxHigh | backend/services/commodities.py:150 | the maximum high bounds every bar's high and is attained |
| Commodities.MinLow | backend/services/commodities.py:151 | the minimum low bounds every bar's low and is attained |
| Commodities.RangeBounds | backend/services/commodities.py:150-151 | for a non-negative rate the converted 52-week high and low enclose every converted bar |
| Commodities.RangeEnclosesBars | backend/services/commodities.py:140-154 | the quote's 52-week range encloses every converted bar |
| Commodities.ConvertPair | backend/services/commodities.py:86-103 | the conversion branch yields the INR prices of the last and the previous close |
| Commodities.InrUnits | backend/services/commodities.py:89-103 | GOLD is priced per 10 g (x 10/31.1), SILVER per kg (x 1000/31.1), everything else at USD x rate, for prices and for differences |
| Commodities.PriceConversion | backend/services/commodities.py:86-106 | the INR price and INR change are those unit conversions of the USD close and change |
| Commodities.ChangePercentMeaning | backend/services/commodities.py:105-106 | the change percent is 0 for a zero previous price, otherwise the change as a percentage of the previous price |
| Commodities.SingleBar | backend/services/commodities.py:86-118 | with one bar the previous close is the current one: change and percent are 0 and no return is reported |
| Commodities.ComputeReturns | backend/services/commodities.py:109-118 | returns are computed iff no base close 5, 22 or 66 bars back is zero (else the division raises); then they are `ReturnsOf` |
| Commodities.ReturnsMeaning | backend/services/commodities.py:109-118 | 1W, 1M and 3M exist iff there are at least 5, 22 and 66 bars, each the percent change of the USD close against that bar |
| Commodities.FetchCommodityData | backend/services/commodities.py:69-158 | the method yields `FetchOf` |
| Commodities.FetchMeaning | backend/services/commodities.py:69-158 | a quote exists iff the symbol is known, there is history and no return divides by zero; it carries the upper-cased symbol |

## Left out

- **yfinance fetches.** These are network I/O: `fetch_and_store_stock`, `get_stock_info`, `get_market_indices`, `get_sector_performance`, the `ticker.info` read of `get_full_valuation_analysis`, the statement fetches of `fundamentals.py`, the history fetch of `commodities.py` and `get_usd_inr_rate`. Their results are inputs, and the rate is the parameter `rate`.
- **Threaded and database-backed loaders.** `get_stock_data_batch`, `fetch_single_stock`, `get_stock_data_smart` and `start_background_prefetch` use threads, the database and the network. `parallel.py` is not part of this model.
- **Read-only reports.** `get_cache_status` and `get_progress` only read the state the model holds.
- **get_tracking_stats.** These backtest counts are SQL aggregates over the `recommendations` table. They are not modelled.
- **get_nifty_stocks.** It is an alias of `get_all_stocks`, which is modelled as `StockUniverse.AllStocks`.
- **Crypto helpers with nothing left to model.**
  - `hash_sha256` is the `sha` parameter.
  - `derive_key` is PBKDF2.
  - `encrypt_dict` and `decrypt_dict` are `json.dumps`/`json.loads` around the modelled encryption with a derived key.
  - `generate_secure_id` is randomness.
- **Plain queries.** `get_transactions`, `get_recommendation_history` and `get_alert_history` are a plain `SELECT ... ORDER BY ... LIMIT`.
- **get_sync_status.** Only its one-symbol lookup is modelled, inside `NeedsSync`.
- **Cache key and accessors.** `make_cache_key` hashes with md5 over `json.dumps`, so the key is a parameter of `CachedCall`. The module-level `get_*_cache` accessors and `get_all_cache_stats` are not modelled.
- **Network loops.** `get_all_commodities`, `get_market_summary`, `get_cash_flow` and `get_full_fundamentals` loop over network fetches.
- **Fundamentals errors.** The `except Exception` paths of the fundamentals fetches are not modelled.
- **Floating point.** Values are `real`:
  - `round(x, 2)` is not applied, so the margin-of-safety verdict is taken on the unrounded margin;
  - IEEE overflow, rounding error and signed zeros are not modelled;
  - NaN is `None` outside the float64 columns listed above.
- **Rolling standard deviation.** It needs a square root, so it is an input column, assumed non-negative.
- **Hashing and serialisation.** SHA-256, PBKDF2, `secrets` and `json.dumps` are function parameters. Key derivation is left out, and encryption takes the key bytes.
- **Text encoding.** Strings are sequences of code points with no Unicode case mapping beyond ASCII, and `str.encode` is the identity on bytes.
- **Spreadsheet reading.** Broker spreadsheets arrive already read as a header and cells, or as unreadable. `read_csv` and `read_excel` themselves are not modelled.
- **Column guards.** `'X' in df.columns` guards in `patterns.py` and `indicators.py` are not modelled. Every indicator column is taken to be present.
- **Timestamps.** Timestamps are integers, or ISO strings compared as strings. Both are taken to order like the times they denote.
- **SQLite behaviour.** Not modelled:
  - foreign keys, which SQLite does not enforce by default;
  - transactions and rollback, except that a `store_price_data` that fails leaves both tables as they were, since its connection closes without a commit;
  - the row order of `GROUP BY`, taken to be table order.
- **Concurrency and plumbing.** Locks, connections, the schema DDL, `print` logging and the Flask routes are not modelled.
- CsvImport.CleanSymbol: A `-BE` or `-EQ` that only appears after another one is removed stays. `CleanSymbolShape` therefore promises no spaces but not the absence of series suffixes.
- Watchlist.Lists.InitDefault: It guarantees a list with id 1 or with the name "Default", not list 1 "Default" itself. `INSERT OR IGNORE` skips the row when either is taken.
- Watchlist.Lists.CreateWatchlist: A duplicate name raises `IntegrityError` in the source. The model returns `None` and changes nothing.
- Alerts.AlertStore.CheckAlerts: One `now` stamps both the history row and the deactivation. The source reads the clock separately for each.
- Session.Store.ValidateSession: One `now` decides expiry and stamps the last access. The source reads the clock twice.
- Session.Store.CreateSession: A token already stored raises `IntegrityError` in the source. The model returns `None` and changes nothing.
- Crypto.Decode: Python's non-strict `b64decode` discards characters outside the Base64 alphabet before decoding. The model gives `None` for such text, so `Decrypt` does too.
- Backtest.BacktestReturns: The best and worst picks are compared on unrounded returns. The source compares each new return with the stored `round(x, 2)` value, so returns within rounding of each other can pick a different row.
- Backtest.ReportOf: The detail list is sorted on unrounded returns. The source sorts the rounded values, so near-equal returns keep input order there and may be ordered differently here.
- Scoring.RankStocks: The source rounds every score to two decimals with `safe_float` before it ranks, picks the top five or screens. The model ranks, picks and screens on the unrounded composite, confidence and sub-scores, so stocks that tie only after rounding may come out in a different order or pass a threshold differently.
- Backtest.Joined: The recommendation/price join has no `ORDER BY` in the source. The model takes the recommendations in table order, which SQLite does not promise.
- CsvImport.ZerodhaRowCases: When two columns normalise to the instrument column's name, the source's `str(row[col])` prints the whole Series. The model reads the first of the two cells as the symbol.
- CsvImport.GrowwRowCases: The same holds for a shared `symbol` or `stock name` column. The model reads the first cell, where the source prints the Series.
- CsvImport.ColumnNamed: For a shared name `row.get` returns every matching cell. `ColumnNamed` gives the first, and the readers use `Shared` to turn a numeric read into the conversion error the source raises.
- Portfolio.InsightsOf: Top gainers, top losers and highest upside are sorted on unrounded `pnl_percent` and `upside`. The source sorts the values after `round(x, 2)`, so near-ties may be ordered differently.
- Scoring.AllScoredStocks: The `update_progress` calls are not modelled. The source makes them on a cache hit and while scoring.
- Indicators.BandsAt: %B keeps `None` when the band spread is zero. A zero spread needs a zero standard deviation, so the close equals the lower band and pandas computes 0/0, which is NaN too.
- Indicators.VolumeRatio: The ratio keeps `None` when the 20-row volume average is zero. The volumes are non-negative, so the current volume is zero as well and pandas computes 0/0, which is NaN too.

## Findings

| source | as written | input that shows it | evidently intended | confidence | as-written member | corrected member |
|---|---|---|---|---|---|---|
| backend/services/crypto.py:107-112 | `mask_sensitive_value` ends with `str_val[-show_chars:]`, and `-0` is `0`, so with `show_chars = 0` the whole value follows the stars | `mask_sensitive_value("1234", 0)` returns `"****1234"` | a fully masked value of the same length, `"****"` | not executed | Crypto.MaskZeroRevealsAll | Crypto.MaskIntended |
