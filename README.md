# ml_stock_bot technical-analysis core in Dafny

This project models the decision core of the ml_stock_bot stock assistant. The core takes an ordered price frame (timestamps, close, high, low and volume columns) and produces three things:

- chart-pattern flags;
- the event lists of the trading strategies;
- a BUY / SELL / HOLD recommendation that fuses RSI, the MACD histogram and the mean headline sentiment.

The model has five parts, one per core file of the bot:

- `ChartRules`: the seventeen function-form chart patterns of `backend/logic/trading_patterns/trading_patterns.py`. These are pure boolean functions over negative-index slices of the close column. Fifteen of the seventeen rules compare the last close with the maximum or minimum of a window that contains that close, so they can never hold. Each such rule's contract is `ensures !r`. `DoubleTop` and `DoubleBottom` are the two rules that can fire. Their contracts state their condition both ways, and two example lemmas show that each really fires.
- `CandlePattern`: the `detect_*` methods of the `CandlePattern` class in `backend/trading_patterns.py`. Each takes the last 30, 40 or 60 bars (`tail`, with its clamping for short series) and reports a `{"pattern", "status"}` dictionary. The model also reports the `IndexError` that positional indexing raises on an empty frame: `iloc[0]` of the closes in the flags, the pennant, the cup and the rounded bottom, and `iloc[-1]` of the rolling series in the triangles, the wedges and the rectangle. The other detectors aggregate an empty slice to NaN and report "Not Detected". pandas rolling-10 windows are NaN on their first nine entries, and comparisons with NaN are false. Because of that, the three triangles and the two wedges never report "Detected". Double top/bottom, triple top/bottom and the rectangle reduce to statements about the maximum, the minimum and how often it occurs.
- `Strategies.TradingStrategies`: the five scanners of `backend/logic/trading_patterns/strategies.py`. It is a class whose `df` field is the frame. Each scanner is a method with a `while` loop that appends `(timestamp, name)` events. Each method is proved equal to `Scan.Signals`, the list of passing bars in ascending order. `VwapBounce` and `EmaCrossover` also write their new columns into `df`, and their postconditions state the whole new frame. The column arithmetic is in `Indicators`:
  - the cumulative VWAP;
  - the `adjust=False` EMA with `alpha = 2 / (span + 1)`.
- `Fusion`: `make_recommendation` of `backend/decision_making.py`, the version with patterns. `MakeRecommendation` is a method. It first builds the signal list with a loop over the fixed catalog of twelve signals, then applies the four-branch decision list.
- `BasicFusion`: `make_recommendation` of `backend/logic/decision_making.py`, the version without patterns. It is a pure three-input decision list.
- `Sentiment.CalculateSentiment` models the `calculate_sentiment` of both files, whose bodies are the same. Only `backend/decision_making.py` imports TextBlob (see "## Left out").

Supporting modules:

- `Floats` models a float64 cell as `Finite(real) | PosInf | NegInf | NaN`. Division follows numpy: `x / 0` is ±inf or NaN; it does not raise. Every comparison with NaN is false, and `NanSum` skips NaN as `Series.sum()` does.
- `Series` holds the slice, extreme, sum, mean and variance functions.
- `Rolling` holds the pandas rolling windows, and the NaN-skipping `Series.max()` / `Series.min()` over them.

## Model

| member | source | states |
|---|---|---|
| ChartRules.BullFlag | backend/logic/trading_patterns/trading_patterns.py:5-22 | never true: the last close cannot exceed the maximum of the last five closes, which include it |
| ChartRules.BearFlag | backend/logic/trading_patterns/trading_patterns.py:25-42 | never true: the last close cannot be below the minimum of the last five closes |
| ChartRules.DoubleTop | backend/logic/trading_patterns/trading_patterns.py:45-58 | true iff the peak of the last five closes is within 1% of the peak of `c[-10:-5]` and the last close is below every close of `c[-10:-5]`; a detection implies a positive resistance |
| ChartRules.DoubleBottom | backend/logic/trading_patterns/trading_patterns.py:61-74 | true iff the trough of the last five closes is within 1% of the trough of `c[-10:-5]` and the last close is above every close of `c[-10:-5]`; a detection implies a positive support |
| ChartRules.DoubleTopBottomExclusive | backend/logic/trading_patterns/trading_patterns.py:57 | double top and double bottom never hold together |
| ChartRules.DoubleTopExample | backend/logic/trading_patterns/trading_patterns.py:45-58 | nine closes of 10 followed by a 9 form a double top, so the rule does fire |
| ChartRules.DoubleBottomExample | backend/logic/trading_patterns/trading_patterns.py:61-74 | nine closes of 10 followed by an 11 form a double bottom |
| ChartRules.HeadAndShoulders | backend/logic/trading_patterns/trading_patterns.py:77-92 | never true: the neckline is at most the minimum of the last five closes, so the last close cannot be below it |
| ChartRules.InverseHeadAndShoulders | backend/logic/trading_patterns/trading_patterns.py:95-110 | never true: the neckline is at least the maximum of the last five closes |
| ChartRules.CupAndHandle | backend/logic/trading_patterns/trading_patterns.py:113-124 | never true: the breakout needs the last close above the maximum of the last ten |
| ChartRules.AscendingTriangle | backend/logic/trading_patterns/trading_patterns.py:127-139 | never true, whatever the higher-lows test gives |
| ChartRules.DescendingTriangle | backend/logic/trading_patterns/trading_patterns.py:142-154 | never true: the last close cannot be below the minimum of the last ten |
| ChartRules.SymmetricalTriangle | backend/logic/trading_patterns/trading_patterns.py:157-174 | never true: the last close is inside the range of the last five |
| ChartRules.RisingWedge | backend/logic/trading_patterns/trading_patterns.py:177-191 | never true |
| ChartRules.FallingWedge | backend/logic/trading_patterns/trading_patterns.py:194-208 | never true |
| ChartRules.RectanglePattern | backend/logic/trading_patterns/trading_patterns.py:211-223 | never true: the last close is inside the range of the last ten closes |
| ChartRules.Pennant | backend/logic/trading_patterns/trading_patterns.py:226-238 | never true; the volume argument is not read |
| ChartRules.RoundedBottom | backend/logic/trading_patterns/trading_patterns.py:241-250 | never true |
| ChartRules.TripleTop | backend/logic/trading_patterns/trading_patterns.py:253-272 | never true: the last close cannot be below the minimum of the last fifteen |
| ChartRules.TripleBottom | backend/logic/trading_patterns/trading_patterns.py:275-290 | never true: the last close cannot be above the maximum of the last fifteen |
| ChartRules.LastWithinTail | backend/logic/trading_patterns/trading_patterns.py:21 | the last close lies between the minimum and the maximum of every tail that contains it |
| ChartRules.PctChange | backend/logic/trading_patterns/trading_patterns.py:14 | `pct_change()` has one entry per close, and its first entry is missing |
| ChartRules.PctChangeSum | backend/logic/trading_patterns/trading_patterns.py:14 | with no zero price, the NaN-skipping sum of the percent changes is the sum of the successive relative changes |
| ChartRules.FlagpoleIsRelativeChangeSum | backend/logic/trading_patterns/trading_patterns.py:14 | the flagpole test (and the down-pole test of the bear flag, line 34) is the sum of the nine relative changes compared with ±0.1 |
| ChartRules.NearCount | backend/logic/trading_patterns/trading_patterns.py:264-271 | some touch is counted iff some close lies within 1% of the level, and a level of zero or below is never touched |
| ChartRules.NearCountIsTouches | backend/logic/trading_patterns/trading_patterns.py:264-271 | the count equals the number of positions whose close lies within 1% of the level, the number the triple top and bottom compare with 3 |
| CandlePattern.StatusText | backend/trading_patterns.py:22-25 | the status string is "Detected" exactly for a detection and "Not Detected" exactly otherwise |
| CandlePattern.Verdict | backend/trading_patterns.py:22-25 | a report carries the fixed pattern name, and its status is Detected iff the test held |
| CandlePattern.DetectBullFlag | backend/trading_patterns.py:15-25 | IndexError iff the frame is empty; otherwise "Bull Flag", Detected iff the last 30 closes rise from first to last with a sample variance below 0.0001 (std below 0.01) |
| CandlePattern.DetectBearFlag | backend/trading_patterns.py:27-37 | IndexError iff empty; "Bear Flag", Detected iff the last 30 closes fall from first to last with a sample variance below 0.0001 |
| CandlePattern.FlagsExclusive | backend/trading_patterns.py:19-20 | the bull flag and the bear flag are never both Detected |
| CandlePattern.SingleBarNoFlag | backend/trading_patterns.py:20 | a one-bar frame has no sample std, so neither flag is Detected |
| CandlePattern.PeakCount | backend/trading_patterns.py:42-46 | the count of closes equal to the largest rolling-10 maximum is the count of the slice maximum, or 0 with fewer than ten bars |
| CandlePattern.TroughCount | backend/trading_patterns.py:55-59 | the same for the smallest rolling-10 minimum and the slice minimum |
| CandlePattern.DetectDoubleTop | backend/trading_patterns.py:39-50 | "Double Top", Detected iff the last 40 closes hold at least ten bars and their maximum occurs at two or more positions |
| CandlePattern.DetectDoubleBottom | backend/trading_patterns.py:52-63 | "Double Bottom", Detected iff at least ten bars and the minimum occurs at two or more positions |
| CandlePattern.DetectHeadAndShoulders | backend/trading_patterns.py:65-76 | "Head and Shoulders", Detected iff max / min > 1.2 over the last 40 closes, stated without division; a zero minimum divides to +inf |
| CandlePattern.DetectInverseHeadAndShoulders | backend/trading_patterns.py:78-89 | "Inverse Head and Shoulders", Detected iff the minimum is negative and max / min < 0.8, stated without division |
| CandlePattern.InverseHeadAndShouldersInert | backend/trading_patterns.py:82-86 | never Detected when no price is negative |
| CandlePattern.RatioAbove | backend/trading_patterns.py:69-73 | for a largest value hi and a smallest lo, `hi / lo > 1.2` in float semantics iff lo > 0 and hi > 1.2·lo, or lo = 0 < hi |
| CandlePattern.RatioBelow | backend/trading_patterns.py:82-86 | `hi / lo < 0.8` in float semantics iff lo < 0 and hi > 0.8·lo |
| CandlePattern.DetectCupAndHandle | backend/trading_patterns.py:91-100 | IndexError iff empty; otherwise "Cup and Handle" and never Detected, because the first close cannot be below the minimum |
| CandlePattern.DetectAscendingTriangle | backend/trading_patterns.py:102-113 | IndexError iff empty; "Ascending Triangle", never Detected, because rolling entry 0 is NaN |
| CandlePattern.DetectDescendingTriangle | backend/trading_patterns.py:115-126 | IndexError iff empty; "Descending Triangle", never Detected |
| CandlePattern.DetectSymmetricalTriangle | backend/trading_patterns.py:128-142 | IndexError iff empty; "Symmetrical Triangle", never Detected |
| CandlePattern.DetectRisingWedge | backend/trading_patterns.py:144-154 | IndexError iff empty; "Rising Wedge", never Detected |
| CandlePattern.DetectFallingWedge | backend/trading_patterns.py:156-166 | IndexError iff empty; "Falling Wedge", never Detected |
| CandlePattern.DetectRectanglePattern | backend/trading_patterns.py:168-178 | IndexError iff empty; "Rectangle Pattern", Detected iff at least ten bars and the last ten closes reach both the maximum and the minimum of the slice |
| CandlePattern.RangeHolds | backend/trading_patterns.py:172-175 | the two rolling equality tests hold iff the latest ten-bar high and low are the slice's extremes |
| CandlePattern.DetectPennant | backend/trading_patterns.py:180-189 | IndexError iff empty; "Pennant", Detected iff the last 40 closes rise from first to last with a sample variance below 0.0001 |
| CandlePattern.DetectRoundedBottom | backend/trading_patterns.py:191-200 | IndexError iff empty; "Rounded Bottom", Detected exactly when cup and handle is, so never (the source repeats lines 91-100, and the shared test is `CupShape`) |
| CandlePattern.DetectTripleTop | backend/trading_patterns.py:202-213 | "Triple Top", Detected iff the last 60 closes hold at least ten bars and their maximum occurs at three or more positions |
| CandlePattern.DetectTripleBottom | backend/trading_patterns.py:215-226 | "Triple Bottom", Detected iff at least ten bars and the minimum occurs at three or more positions |
| Rolling.RollingMax | backend/trading_patterns.py:43 | `rolling(10).max()`: NaN before the first full window, then the maximum of the window ending at each bar |
| Rolling.RollingMin | backend/trading_patterns.py:56 | `rolling(10).min()`: NaN before the first full window, then the window minimum |
| Rolling.RollingMean | backend/logic/trading_patterns/strategies.py:72 | `rolling(window=10).mean()`: NaN before the first full window, then the window mean |
| Rolling.SkipMax | backend/trading_patterns.py:44 | `Series.max()` skips NaN: NaN iff every entry is NaN, else the largest non-NaN entry |
| Rolling.SkipMin | backend/trading_patterns.py:57 | `Series.min()` skips NaN: NaN iff every entry is NaN, else the smallest non-NaN entry |
| Rolling.RollingMaxPeak | backend/trading_patterns.py:42-46 | the largest rolling maximum is the series maximum once a full window exists, and NaN before |
| Rolling.RollingMinTrough | backend/trading_patterns.py:55-59 | the smallest rolling minimum is the series minimum once a full window exists, and NaN before |
| Series.OccurrencesArePositions | backend/trading_patterns.py:45 | the equality count `(s == x).sum()` is the number of positions holding x |
| Series.Recent | backend/trading_patterns.py:18 | `tail(n)`: the last min(n, len) entries |
| Series.MeanBetween | backend/decision_making.py:159 | a mean lies between the minimum and the maximum |
| Floats.Quotient | backend/logic/trading_patterns/strategies.py:27-29 | numpy division: a / b for b ≠ 0, and +inf, -inf or NaN by the sign of a when b = 0 |
| Indicators.Vwap | backend/logic/trading_patterns/strategies.py:27-29 | one value per bar: the cumulative close-times-volume sum divided by the cumulative volume, with numpy division |
| Indicators.VwapBetween | backend/logic/trading_patterns/strategies.py:27-29 | with non-negative volumes and some volume traded, the VWAP at a bar is finite and lies between the minimum and the maximum close so far |
| Indicators.VwapOfFlatPrice | backend/logic/trading_patterns/strategies.py:27-29 | a constant close p gives a VWAP of p |
| Indicators.VwapWithoutVolume | backend/logic/trading_patterns/strategies.py:27-29 | before any volume trades, the VWAP is 0 / 0, a NaN |
| Indicators.Alpha | backend/logic/trading_patterns/strategies.py:43-44 | the smoothing factor 2 / (span + 1) lies in (0, 1] for a span of at least 1 |
| Indicators.Ema | backend/logic/trading_patterns/strategies.py:43-44 | `ewm(span, adjust=False).mean()`: one value per close, the first close as seed, then each value is alpha times the close plus (1 - alpha) times the previous value |
| Indicators.EmaBounded | backend/logic/trading_patterns/strategies.py:43-44 | each EMA value respects every bound of the values seen so far |
| Indicators.EmaBetween | backend/logic/trading_patterns/strategies.py:43-44 | each EMA value lies between the minimum and the maximum close seen so far |
| Indicators.EmaExample | backend/logic/trading_patterns/strategies.py:43 | span 2 over 10, 11, 12 gives 10, 32/3 and 104/9: seeded with the first close |
| Indicators.EmaColumn | backend/logic/trading_patterns/strategies.py:43-44 | the stored EMA column holds the finite EMA values, one per bar |
| Scan.Hits | backend/logic/trading_patterns/strategies.py:14-20 | exactly the bar indices in range that pass the test, strictly increasing |
| Scan.Signals | backend/logic/trading_patterns/strategies.py:20 | one `(timestamp, name)` event per passing bar, in the order of `Hits` |
| Scan.StampNext | backend/logic/trading_patterns/strategies.py:16-20 | scanning one more bar appends one event exactly when that bar passes |
| Scan.SignalsChronological | backend/logic/trading_patterns/strategies.py:14-20 | with strictly increasing timestamps, events come out in time order |
| Strategies.TradingStrategies.constructor | backend/logic/trading_patterns/strategies.py:6-7 | the object holds the given frame |
| Strategies.TradingStrategies.BreakoutStrategy | backend/logic/trading_patterns/strategies.py:9-21 | the returned list is the "Breakout" event of every bar from 1 on that passes the breakout test; the frame is not changed |
| Strategies.TradingStrategies.VwapBounce | backend/logic/trading_patterns/strategies.py:23-37 | the frame gains exactly the column "VWAP", and nothing else changes; the list holds the "VWAP Bounce" events of bars from 1 on that pass the bounce test against that column |
| Strategies.TradingStrategies.EmaCrossover | backend/logic/trading_patterns/strategies.py:39-52 | the frame gains exactly "EMA_short" and "EMA_long"; the list is the "Bullish EMA Crossover" events of bars from 1 on where the short EMA crosses strictly above the long one |
| Strategies.TradingStrategies.AbcdPattern | backend/logic/trading_patterns/strategies.py:54-66 | the list holds the "ABCD Pattern" events of bars from 3 on that pass the ABCD test |
| Strategies.TradingStrategies.UnusualVolume | backend/logic/trading_patterns/strategies.py:68-77 | the list holds the "Unusual Volume" events of bars from 10 on whose volume exceeds threshold × the rolling-10 mean |
| Strategies.BreakoutReported | backend/logic/trading_patterns/strategies.py:14-20 | a bar is reported iff 1 ≤ i, its close exceeds every earlier high, and its volume exceeds 1.5 × the previous volume |
| Strategies.BounceReported | backend/logic/trading_patterns/strategies.py:31-36 | a bar is reported iff i ≥ 1, VWAP there is finite, and 0 < close − VWAP < 0.2 |
| Strategies.NoBounceAtFirstBar | backend/logic/trading_patterns/strategies.py:31 | bar 0 is never a bounce |
| Strategies.CrossoverReported | backend/logic/trading_patterns/strategies.py:46-51 | a bar is reported iff short EMA < long EMA at the previous bar and short EMA > long EMA at this bar, both strict |
| Strategies.NoConsecutiveCrossovers | backend/logic/trading_patterns/strategies.py:48-49 | two neighbouring bars never both cross |
| Strategies.AbcdRises | backend/logic/trading_patterns/strategies.py:59-65 | a reported ABCD bar closes above both its A low and its C low |
| Strategies.UnusualVolumeReported | backend/logic/trading_patterns/strategies.py:72-76 | a bar is reported iff i ≥ 10 and its volume exceeds threshold × the mean of the ten volumes ending at that bar, itself included |
| Strategies.UnusualVolumeSkipsBarNine | backend/logic/trading_patterns/strategies.py:74 | bar 9, the first bar with a full window, is never reported |
| Sentiment.Scores | backend/decision_making.py:155-157 | one polarity per headline, in headline order |
| Sentiment.CalculateSentiment | backend/decision_making.py:147-159 | the result is 0 for no headlines and otherwise the mean of the polarities |
| Sentiment.AverageBetween | backend/decision_making.py:159 | the sentiment lies between the smallest and the largest polarity |
| Sentiment.SentimentInRange | backend/logic/decision_making.py:96-104 | polarities in [-1, 1] give a sentiment in [-1, 1] |
| BasicFusion.MakeRecommendation | backend/logic/decision_making.py:106-121 | the result is one of the four recommendation strings, and the risk-management HOLD comes only with a sentiment of magnitude at least 0.5 |
| BasicFusion.BuyIff | backend/logic/decision_making.py:114-115 | BUY iff rsi < 30, macd_hist > 0 and sentiment > 0.1 |
| BasicFusion.SellIff | backend/logic/decision_making.py:116-117 | SELL iff rsi > 70, macd_hist < 0 and sentiment < -0.1; the BUY and SELL conditions exclude each other |
| BasicFusion.HoldCases | backend/logic/decision_making.py:114-121 | when neither BUY nor SELL applies, the neutral HOLD iff -0.5 < sentiment < 0.5 |
| BasicFusion.NoHeadlinesHold | backend/logic/decision_making.py:96-97 | with no headlines the recommendation is the neutral HOLD for every rsi and macd |
| Fusion.NamesDistinct | backend/decision_making.py:187-211 | the twelve signal labels are pairwise distinct |
| Fusion.NameListed | backend/decision_making.py:218 | a label is in the list of names iff its signal is in the signal list |
| Fusion.CollectedIff | backend/decision_making.py:187-211 | a signal is collected iff its argument is truthy (a non-empty list or a set flag), and then exactly once |
| Fusion.CollectedOrdered | backend/decision_making.py:187-211 | the collected signals follow the fixed catalog order |
| Fusion.CollectSignals | backend/decision_making.py:187-211 | the loop builds exactly the collected signal list |
| Fusion.Recommend | backend/decision_making.py:214-231 | the result is one of the four recommendation strings, and the risk-management HOLD comes only with a sentiment of magnitude at least 0.5 |
| Fusion.MakeRecommendation | backend/decision_making.py:161-231 | the result is the decision list applied to the collected signals |
| Fusion.BuyIff | backend/decision_making.py:214-220 | BUY iff rsi < 30, macd_hist > 0, sentiment > 0.1 and the breakout list is non-empty |
| Fusion.SellIff | backend/decision_making.py:221-227 | SELL iff rsi > 70, macd_hist < 0, sentiment < -0.1 and the head-and-shoulders flag is set |
| Fusion.HoldCases | backend/decision_making.py:228-231 | outside BUY/SELL, the neutral HOLD iff -0.5 < sentiment < 0.5 |
| Fusion.OtherSignalsIgnored | backend/decision_making.py:190-211 | changing any argument other than the breakout list's emptiness and the head-and-shoulders flag leaves the result unchanged |
| Fusion.SellUnreachable | backend/decision_making.py:221-227 | fed by the function-form `head_and_shoulders`, the recommendation is never SELL |
| Fusion.RefinesBasic | backend/decision_making.py:214-231 | a BUY or SELL with patterns is a BUY or SELL of the version without patterns (backend/logic/decision_making.py:114-117) on the same inputs; its neutral and risk HOLDs stay |

## Left out

- Data fetching (`CandlePattern.__init__` and `fetch_data`, and the yfinance download): network I/O. The frame or the close column is a parameter.
- `ta.rsi` and `ta.macd`: a foreign library. RSI and the MACD histogram are real inputs to the recommendation.
- TextBlob polarity and the News API client: a foreign scorer and HTTP. The per-headline polarity is the function parameter `polarity`.
- Sentiment.CalculateSentiment: `backend/logic/decision_making.py` never imports TextBlob (lines 1-7), so its copy of `calculate_sentiment` raises NameError at line 101 on any non-empty headline list. The `polarity` parameter stands for a working scorer, so the model does not show that failure. The copy in `backend/decision_making.py` imports TextBlob at line 5.
- The Tkinter GUI, the matplotlib charts, the sqlite wrapper, the Flask routes, the websocket stream, the scikit-learn model and the test files are not part of this model. They are UI, I/O, concurrency or foreign libraries.
- Floating-point rounding and signed zero: prices are exact `real`s. Infinities and NaN are modelled, and so is the division that produces them. `std() < k` is written as `variance < k²`, which is the same test without a square root.
- ChartRules: the function-form rules require the series to be at least as long as the deepest index they read (10, 11, 15 or 20), so their short-series behaviour is dropped. That behaviour includes error paths. On an empty series the flags, the cup and handle, the rectangle, the pennant, the rounded bottom and the triple top/bottom raise IndexError at `iloc[-1]`. The five triangles and wedges raise IndexError inside their `all(...)` generators for up to 10 closes: at `iloc[-10]` with 0 to 9 closes, and at `iloc[i - 1]` with i = -10, i.e. `iloc[-11]`, with exactly 10 (trading_patterns.py:136, 151, 165, 185, 202). The double top/bottom and the two head-and-shoulders rules do not raise on an empty series: their slice extremes are NaN, so the first conjunct is false and the `and` returns False before `iloc[-1]` is read. The other rules clamp short negative slices instead; that case is not covered either.
- The `close` versus `Close` column names: the two pattern files read differently named columns. The model works on a close sequence.
- The Open column is never read by the core, so it is not in the frame.
- Strategies.TradingStrategies.EmaCrossover: requires both spans to be at least 1. pandas raises ValueError for a smaller span, and that error path is not modelled.
- Strategies.TradingStrategies: `__init__` keeps a reference to the caller's DataFrame (strategies.py:7), so `vwap_bounce` and `ema_crossover` add their VWAP and EMA columns to the caller's `stock_data` too. The model's `df` field is a value, so this aliasing is not captured. No result of the core depends on it.
- Python default arguments: the source's defaults are spans 9 and 20 for `ema_crossover` and threshold 2 for `unusual_volume` (strategies.py:39, 68); the model takes them as parameters.
- Module setup: both decision-making modules call `load_dotenv()` and `os.getenv` without importing them (backend/decision_making.py:29-30, backend/logic/decision_making.py:10-11), so as written each stops with NameError at import; the model covers the functions those modules define, not their import-time setup.
- Fusion.CollectSignals: the source's twelve consecutive `if ...: signals.append(...)` statements are one loop over the constant `Catalog`, in the same order.
- Fusion.MakeRecommendation: the signal labels are the `Signal` enumeration rather than strings. `Name` gives the source's label strings, and `NameListed` and `NamesDistinct` connect a `"Breakout" in signals` test on strings to the test on signals.
- The `ema_crossover` test is strict on both sides (`<` before, `>` after).
