# OpenTrader indicator core in Dafny

This project models the charting core of OpenTrader's web front end:

- the ten technical indicators under `frontend/src/Indicators/`: SMA, RSI with optional smoothing and Bollinger bands, normalised MACD, Bollinger Bands, Stochastic, ATR, SuperTrend, Ichimoku, TSI and the volume profile;
- the Heikin-Ashi transformation in `Chart.jsx`;
- the candle normalisation and merge steps of `App.jsx` (initial fetch, real-time refresh, back-fill);
- the indicator-list updaters of `App.jsx`.

A candle is `Series.Candle`:

- an integer time;
- four `Option<real>` prices (open, high, low, close) and an `Option<real>` volume.

`None` stands for a JavaScript `null`, `undefined` or non-finite number. Where the source checks a value it treats all three as missing. "## Left out" lists the places where the source tells them apart: the unchecked arithmetic and comparisons, and Ichimoku.LaggingAt. Most indicators produce lines of `Series.Point` values (time and value), or a result record of such lines. SuperTrend adds a trend to each point (`SuperTrend.TrendPoint`), the MACD histogram adds a colour to each bar (`Macd.HistBar`), and the volume profile returns price bins (`VolumeProfile.ProfileBin`) with no time. The gaps the source filters out with `value !== null` are `None` entries in an intermediate line, and `Series.Compact` drops them.

The modules follow the source files:

| module | models |
|---|---|
| `Series` | shared data model, window sums, min/max, the gap filter |
| `Sources` | `getSourceValue` of sma.js, rsi.js and bollinger.js |
| `Sma` | sma.js |
| `Rsi` | rsi.js |
| `Macd` | macd.js |
| `Bollinger` | bollinger.js |
| `Stochastic` | stoch.js |
| `Atr` | atr.js |
| `SuperTrend` | supertrend.js |
| `Ichimoku` | ichimoku.js |
| `Tsi` | tsi.js |
| `VolumeProfile` | volumeProfile.js |
| `HeikinAshi` | `computeHeikinAshi` in Chart.jsx |
| `CandleFeed` | candle normalisation and merging in App.jsx |
| `IndicatorList` | the indicator-list updaters in App.jsx |

The indicator code is imperative: loops that fill arrays or push onto result lists. Each such function is a `method` with the loop and its invariants. Each method's `ensures` ties its result to a specification function over the whole input, and lemmas then prove what the indicator promises about that function:

- ranges;
- alignment of times;
- counts;
- flat-input behaviour;
- conservation.

The App.jsx code is expression-shaped (map, filter, spread, `new Map`), so it is modelled by functions and lemmas.

`Math.sqrt` and `Number(x.toFixed(precision))` are function parameters (`sqrt`, `round`). Lemmas that need something of them state it as a requirement:

- a non-negative root;
- monotone rounding;
- rounding that keeps values in [0, 100].

## Model

| member | source | states |
|---|---|---|
| Sources.GetSourceValue | frontend/src/Indicators/sma.js:47-87 | The value read for one bar is the specification `SourceValue`: the named field or composite when every field it uses is present, the volume mean over a full window for `volume_ma`, the close for an unknown name |
| Sources.CompositeSourceGaps | frontend/src/Indicators/sma.js:55-70 | hl2, hlc3, ohlc4 and hlcc4 are present exactly when every field they average is present, and hlcc4 counts the close twice |
| Sources.VolumeMaWindow | frontend/src/Indicators/sma.js:72-84 | `volume_ma` is present exactly when the index has a full window whose volumes are all present, and is then the window's volume sum over the length |
| Sources.UnknownSourceReadsClose | frontend/src/Indicators/sma.js:85 | Any source name outside the ten recognised ones reads the close |
| Sources.ParseBollingerSource | frontend/src/Indicators/bollinger.js:10-23 | The Bollinger source never selects the volume or the volume mean: those names fall to the close default |
| Sources.BollingerSourceIgnoresCase | frontend/src/Indicators/bollinger.js:12 | The Bollinger source name is matched after lower-casing: a name and its lower-cased form select the same source ("HL2" is hl2) |
| Sources.ToLowerIdempotent | frontend/src/Indicators/bollinger.js:12 | Lower-casing twice equals lower-casing once |
| Sma.WindowSum | frontend/src/Indicators/sma.js:103-112 | The window loop reports a valid window exactly when all `length` values ending at the bar are present, and then returns their sum |
| Sma.ComputeSMA | frontend/src/Indicators/sma.js:92-139 | The SMA method returns the specification series: the full-window means, restricted to strictly increasing times |
| Sma.KeepIncreasingSpec | frontend/src/Indicators/sma.js:128-136 | The final time filter returns a subsequence of its input whose times strictly increase |
| Sma.KeepIncreasingUpToIdentity | frontend/src/Indicators/sma.js:128-136 | On points whose times already increase, the time filter changes nothing |
| Sma.SmaPointsAreFullWindows | frontend/src/Indicators/sma.js:99-123 | Every output point is the mean of a full window of present source values ending at some bar, stamped with that bar's time |
| Sma.SmaTimesIncrease | frontend/src/Indicators/sma.js:128-136 | Output times strictly increase |
| Sma.SmaAscendingComplete | frontend/src/Indicators/sma.js:99-123 | On data with increasing times, every bar with a full window of present values yields its mean in the output |
| Sma.SmaOfConstant | frontend/src/Indicators/sma.js:99-123 | A constant source gives a constant SMA equal to it |
| Rsi.GainsAndLosses | frontend/src/Indicators/rsi.js:71-84 | The gain and loss lines equal their specification, and both are non-negative |
| Rsi.GainLossSigns | frontend/src/Indicators/rsi.js:71-84 | Gain and loss are non-negative, at most one is non-zero, both are 0 across a gap or at bar 0, and otherwise gain minus loss is the change |
| Rsi.WilderRsi | frontend/src/Indicators/rsi.js:88-121 | The Wilder loop yields, at every bar, the specification `RsiAt` (no value before bar length-1) |
| Rsi.RsiOfBounds | frontend/src/Indicators/rsi.js:112-118 | The RSI of non-negative averages lies in [0, 100] |
| Rsi.WilderAvgNonNegative | frontend/src/Indicators/rsi.js:96-110 | Wilder's average of non-negative values stays non-negative |
| Rsi.RsiRawBounds | frontend/src/Indicators/rsi.js:88-121 | Every present raw RSI value lies in [0, 100] |
| Rsi.RsiInRange | frontend/src/Indicators/rsi.js:63-191 | Every point of the RSI and smoothed lines lies in [0, 100] |
| Rsi.RsiPointCount | frontend/src/Indicators/rsi.js:92-121 | With at least `length` bars the RSI line has one point per bar from bar length-1 on, at that bar's time |
| Rsi.RsiEmptyCases | frontend/src/Indicators/rsi.js:65 | Fewer bars than the length gives four empty lines, and a smoothing type other than SMA gives empty smoothed and band lines |
| Rsi.SmoothRsi | frontend/src/Indicators/rsi.js:124-145 | The smoothing loop yields the specification line: a full-window mean of present RSI values, or nothing when smoothing is off or too short |
| Rsi.SmoothedGaps | frontend/src/Indicators/rsi.js:126-143 | A smoothed value is missing before a full window and wherever its window holds a missing RSI value |
| Rsi.SmoothedBands | frontend/src/Indicators/rsi.js:148-181 | The band loop yields the specification bands of the smoothed line |
| Rsi.BandsAroundMean | frontend/src/Indicators/rsi.js:170-175 | A present band pair brackets its window mean symmetrically |
| Rsi.BandLinesAligned | frontend/src/Indicators/rsi.js:148-190 | Upper and lower band lines have equal length and equal times point by point |
| Rsi.RsiOfFlatSourceIs50 | frontend/src/Indicators/rsi.js:112-118 | A constant source gives RSI 50 from the first full window on |
| Rsi.RsiOfRisingSourceIs100 | frontend/src/Indicators/rsi.js:112-118 | A strictly rising source gives RSI 100 |
| Rsi.RsiOfFallingSourceIs0 | frontend/src/Indicators/rsi.js:112-118 | A strictly falling source with no gaps gives RSI 0 from bar max(1, length-1) on: the average gain is 0 and the average loss positive |
| Rsi.ComputeRSI | frontend/src/Indicators/rsi.js:63-191 | The RSI method returns the specification result |
| Macd.ComputeEMA | frontend/src/Indicators/macd.js:10-27 | The EMA loop yields the specification EMA: the first value, then `(val - prev) * 2/(L+1) + prev` |
| Macd.EmaWithinBounds | frontend/src/Indicators/macd.js:10-27 | The EMA never leaves an interval holding every input up to that bar |
| Macd.EmaOfConstant | frontend/src/Indicators/macd.js:10-27 | The EMA of a constant line is that constant |
| Macd.NormBounds | frontend/src/Indicators/macd.js:66-74 | Min-max normalisation maps a window value into [-1, 1], the minimum to -1 and the maximum to 1 |
| Macd.NormaliseAndColour | frontend/src/Indicators/macd.js:50-88 | The normalisation loop yields the specification MACD and signal lines and the histogram built from them |
| Macd.NormLineBounds | frontend/src/Indicators/macd.js:58-74 | Every normalised value lies in [-1, 1] |
| Macd.MacdNormalised | frontend/src/Indicators/macd.js:32-95 | MACD and signal points lie in [-1, 1], histogram bars in [-2, 2] |
| Macd.MacdShape | frontend/src/Indicators/macd.js:50-94 | MACD and signal have one point per bar from bar normLookback-1 on, at that bar's time; the histogram has one bar per input bar, neutral 0 during the warm-up |
| Macd.HistogramIsDifference | frontend/src/Indicators/macd.js:76 | Each histogram bar after the warm-up is the normalised MACD minus the normalised signal at that bar |
| Macd.ColorMeaning | frontend/src/Indicators/macd.js:83-85 | A bar is coloured up exactly when the histogram is non-negative, strong up exactly when it also rose, and strong down exactly when negative and falling |
| Macd.MacdOfFlatPrices | frontend/src/Indicators/macd.js:40-80 | Flat prices give a MACD line of zeros |
| Macd.ComputeMACD | frontend/src/Indicators/macd.js:32-95 | The MACD method returns the specification result |
| Bollinger.WindowBands | frontend/src/Indicators/bollinger.js:35-55 | The inner window loop yields the specification row: mean and mean plus or minus k standard deviations when the window is full, nothing otherwise |
| Bollinger.PlaceWindow | frontend/src/Indicators/bollinger.js:35-65 | One full-length index of the main loop advances the output from the windows before i to the windows up to and including i |
| Bollinger.ComputeBollingerBands | frontend/src/Indicators/bollinger.js:25-68 | The Bollinger method returns the specification result |
| Bollinger.SquaredDeviationsNonNegative | frontend/src/Indicators/bollinger.js:50 | The variance numerator is non-negative |
| Bollinger.BollingerAligned | frontend/src/Indicators/bollinger.js:57-63 | Basis, upper and lower have equal length and the same time at every position |
| Bollinger.RowOrdered | frontend/src/Indicators/bollinger.js:48-55 | For a non-negative multiplier and root, lower ≤ basis ≤ upper in every computed row |
| Bollinger.BollingerOrdered | frontend/src/Indicators/bollinger.js:48-63 | After monotone rounding, lower ≤ basis ≤ upper at every output position |
| Bollinger.BollingerTimesIncrease | frontend/src/Indicators/bollinger.js:57-63 | On data with increasing times the output times increase, whatever the offset |
| Bollinger.CollectMembers | frontend/src/Indicators/bollinger.js:32-65 | Every basis point is the rounded mean of a full window ending at some bar i, stamped with the time of bar i + offset |
| Bollinger.BollingerCompleteCount | frontend/src/Indicators/bollinger.js:32-65 | With no offset and no gaps there is one point per bar from bar length-1 on: n - length + 1 points, point j at the time of bar length-1+j |
| Bollinger.BollingerShiftedCount | frontend/src/Indicators/bollinger.js:32-65 | With no gaps and any offset, one point per window end i >= length-1 whose shifted bar i + offset is a candle; windows shifted past either end are dropped |
| Bollinger.FlatWindowCollapses | frontend/src/Indicators/bollinger.js:48-55 | A constant window collapses all three bands onto the constant |
| Stochastic.ComputeK | frontend/src/Indicators/stoch.js:35-69 | The %K loop yields the specification line |
| Stochastic.ComputeD | frontend/src/Indicators/stoch.js:72-98 | The %D loop yields the specification line, the full-window mean of %K |
| Stochastic.ComputeStochastic | frontend/src/Indicators/stoch.js:21-108 | The stochastic method returns the specification result |
| Stochastic.KValueBounds | frontend/src/Indicators/stoch.js:60-67 | %K of a close inside its window's range lies in [0, 100], and is 50 for a flat window |
| Stochastic.KRawBounds | frontend/src/Indicators/stoch.js:35-69 | On bars whose close lies within their low and high, every present %K lies in [0, 100] |
| Stochastic.RoundedBounds | frontend/src/Indicators/stoch.js:100-102 | Rounding that keeps [0, 100] keeps every point in [0, 100] |
| Stochastic.StochInRange | frontend/src/Indicators/stoch.js:21-108 | Every %K and %D point lies in [0, 100] |
| Stochastic.FlatWindowIs50 | frontend/src/Indicators/stoch.js:60-67 | A window whose lowest low equals its highest high gives %K 50 |
| Stochastic.StochCounts | frontend/src/Indicators/stoch.js:35-107 | On complete bars, %K starts at bar length-1 and %D at bar length+dLength-2, each with one point per bar after that, at that bar's time |
| Atr.FillTrueRanges | frontend/src/Indicators/atr.js:26-39 | The true-range loop fills the array with the specification true ranges |
| Atr.SeedAtr | frontend/src/Indicators/atr.js:41-53 | The seeding loop stops at the bar where the count of true ranges reaches `length`, writes their mean there and emits exactly the points of the specification line up to that bar |
| Atr.WilderPass | frontend/src/Indicators/atr.js:55-72 | The smoothing pass completes the output to the specification line, with all gaps dropped |
| Atr.ComputeATR | frontend/src/Indicators/atr.js:17-75 | The ATR method returns the specification series |
| Atr.TrueRangeNonNegative | frontend/src/Indicators/atr.js:34-38 | Every true range is non-negative |
| Atr.AtrNeedsCount | frontend/src/Indicators/atr.js:44-53 | An ATR value exists only once `length` true ranges have been seen |
| Atr.NoSeedNoAtr | frontend/src/Indicators/atr.js:57-65 | Fewer than `length` true ranges in all give no ATR at all |
| Atr.AtrWithinBounds | frontend/src/Indicators/atr.js:42-72 | Every ATR value lies between the smallest and largest true range |
| Atr.AtrContiguous | frontend/src/Indicators/atr.js:65-72 | The ATR has no holes: a value at bar i implies a value at every bar after the seed up to i |
| Atr.CompleteAtr | frontend/src/Indicators/atr.js:42-72 | With every true range present, the ATR exists from bar length-1 on and starts at the mean of the first `length` true ranges |
| Atr.AtrCompleteCount | frontend/src/Indicators/atr.js:17-75 | With every true range present there is one point per bar from bar length-1 on, at that bar's time |
| Atr.AtrOfConstant | frontend/src/Indicators/atr.js:42-72 | A constant true range gives that constant as ATR |
| Atr.AtrNonNegativeAt | frontend/src/Indicators/atr.js:48-69 | With non-negative true ranges the seed mean and every Wilder step are non-negative |
| Atr.AtrSeriesPoints | frontend/src/Indicators/atr.js:48-69 | Every emitted ATR point is non-negative and carries the time of one of the input bars |
| Atr.AtrTimesIncrease | frontend/src/Indicators/atr.js:48-69 | On bars with strictly increasing times the emitted points have strictly increasing times |
| SuperTrend.RollingAtr | frontend/src/Indicators/supertrend.js:27-52 | The ATR loop fills the array with the specification rolling mean of true ranges |
| SuperTrend.UpdateBar | frontend/src/Indicators/supertrend.js:60-106 | One band step writes the specification band state of bar i from that of bar i-1 and changes no other bar |
| SuperTrend.BandPass | frontend/src/Indicators/supertrend.js:54-107 | The band loop fills upper, lower, trend and plotted value with the specification state at every bar |
| SuperTrend.ComputeSuperTrend | frontend/src/Indicators/supertrend.js:17-122 | The SuperTrend method returns the specification series |
| SuperTrend.AtrNonNegative | frontend/src/Indicators/supertrend.js:39-51 | Every ATR value is non-negative |
| SuperTrend.TrendValues | frontend/src/Indicators/supertrend.js:67-104 | A bar without ATR leaves the state unset; a bar with ATR has trend 1 or -1 |
| SuperTrend.FinalInsideBasic | frontend/src/Indicators/supertrend.js:77-89 | The final upper band never exceeds the basic upper band, and the final lower band is never below the basic lower band |
| SuperTrend.Ratchet | frontend/src/Indicators/supertrend.js:77-89 | Unless the previous close broke out, the upper band never rises and the lower band never falls |
| SuperTrend.TrendFlips | frontend/src/Indicators/supertrend.js:91-99 | The trend turns down only on a close below the previous lower band, and up only on a close above the previous upper band |
| SuperTrend.PointsUpToMembers | frontend/src/Indicators/supertrend.js:106-119 | Every output point is a bar with ATR, carries its trend (1 or -1), and plots the lower band in an uptrend and the upper band in a downtrend |
| SuperTrend.SuperTrendTrends | frontend/src/Indicators/supertrend.js:110-119 | Every output trend is 1 or -1 |
| SuperTrend.CompleteSuperTrendCount | frontend/src/Indicators/supertrend.js:17-122 | On complete bars there is one point per bar from bar atrLength-1 on, at that bar's time |
| Ichimoku.GetRollingHL2 | frontend/src/Indicators/ichimoku.js:10-20 | The rolling loop yields the specification midpoint of the window's highest high and lowest low |
| Ichimoku.MidpointLines | frontend/src/Indicators/ichimoku.js:45-48 | The conversion and base lines equal their specification midpoint lines |
| Ichimoku.LeadingSpans | frontend/src/Indicators/ichimoku.js:53-70 | The leading spans equal their specification lines: the mean of conversion and base, and the span-B midpoint, both shifted forward by baseLength |
| Ichimoku.SpansAt | frontend/src/Indicators/ichimoku.js:54-69 | One iteration of the span loop yields span A and span B of the specification at bar i |
| Ichimoku.LaggingSpan | frontend/src/Indicators/ichimoku.js:77-79 | The lagging span equals its specification: the close laggingLength bars ahead |
| Ichimoku.ComputeIchimoku | frontend/src/Indicators/ichimoku.js:29-91 | The Ichimoku method returns the specification result |
| Ichimoku.RollingHL2Between | frontend/src/Indicators/ichimoku.js:10-20 | The midpoint exists exactly from bar length-1 on and lies between the window's lowest low and highest high |
| Ichimoku.SpanABetween | frontend/src/Indicators/ichimoku.js:55-61 | Span A exists exactly when both shifted lines exist, and lies between them |
| Ichimoku.MidpointCount | frontend/src/Indicators/ichimoku.js:45-48 | Tenkan and Kijun have one point per bar from bar length-1 on, at that bar's time |
| Ichimoku.SpanBCount | frontend/src/Indicators/ichimoku.js:63-69 | Span B has one point per bar from bar baseLength+spanBLength-1 on, each the span-B midpoint baseLength bars back |
| Ichimoku.ChikouShift | frontend/src/Indicators/ichimoku.js:77-79 | With every close present, the lagging line plots at bar j the close of bar j+laggingLength, for every bar that has one |
| Ichimoku.IchimokuTimes | frontend/src/Indicators/ichimoku.js:82-90 | On data with increasing times all five output lines have increasing times |
| Tsi.CalculateEMA | frontend/src/Indicators/tsi.js:11-46 | The EMA loop fills the array with the specification gap-skipping EMA |
| Tsi.EmaGaps | frontend/src/Indicators/tsi.js:30-43 | The EMA has a value exactly where its input has one |
| Tsi.EmaSeed | frontend/src/Indicators/tsi.js:17-28 | The EMA starts at the first present input, unchanged |
| Tsi.EmaSkipsGaps | frontend/src/Indicators/tsi.js:11-46 | The EMA at a bar is the ordinary EMA of the present inputs up to it, as if the gaps were not there |
| Tsi.EmaBetween | frontend/src/Indicators/tsi.js:11-46 | The EMA never leaves an interval holding every present input |
| Tsi.EmaDominated | frontend/src/Indicators/tsi.js:76-81 | If one line's absolute values are bounded by another's values, the same holds for their EMAs |
| Tsi.Momentum | frontend/src/Indicators/tsi.js:68-73 | The momentum loop fills the price change and its absolute value |
| Tsi.Ratio | frontend/src/Indicators/tsi.js:84-90 | The ratio loop yields 100 times ema2 over absEma2 where both exist and the divisor is not 0 |
| Tsi.TsiLineBounded | frontend/src/Indicators/tsi.js:75-90 | Every TSI value lies in [-100, 100] |
| Tsi.TsiBounded | frontend/src/Indicators/tsi.js:55-109 | Every TSI and signal point lies in [-100, 100] |
| Tsi.TsiWarmup | frontend/src/Indicators/tsi.js:98-103 | No point is emitted before bar long+short+signal, and each point carries its bar's time |
| Tsi.ComputeTSI | frontend/src/Indicators/tsi.js:55-109 | The TSI method returns the specification result |
| VolumeProfile.PriceRange | frontend/src/Indicators/volumeProfile.js:24-30 | The range loop finds the minimum and the maximum typical price |
| VolumeProfile.BinIndex | frontend/src/Indicators/volumeProfile.js:48-50 | The clamped bin index is always a valid bin |
| VolumeProfile.BinSize | frontend/src/Indicators/volumeProfile.js:35 | priceBins bins of this size span exactly the price range |
| VolumeProfile.SumVolumes | frontend/src/Indicators/volumeProfile.js:36-53 | The accumulation loop fills the bins with the specification volumes per bin |
| VolumeProfile.ComputeVolumeProfile | frontend/src/Indicators/volumeProfile.js:16-68 | The volume-profile method returns the specification profile |
| VolumeProfile.BinsTileRange | frontend/src/Indicators/volumeProfile.js:36-40 | The bins tile the price range: the first starts at the minimum, the last ends at the maximum, each is non-empty, and neighbours touch |
| VolumeProfile.BinContainsPrice | frontend/src/Indicators/volumeProfile.js:43-52 | Every bar's typical price lies inside the bin its volume goes to |
| VolumeProfile.VolumeConserved | frontend/src/Indicators/volumeProfile.js:43-53 | The bin volumes add up to the total volume of the bars |
| VolumeProfile.NormalisedRange | frontend/src/Indicators/volumeProfile.js:55-67 | For non-negative volumes every normalised volume lies in [0, 1], and a non-empty profile has a bin at exactly 1 |
| VolumeProfile.EmptyProfiles | frontend/src/Indicators/volumeProfile.js:18-32 | No bars, or a single typical price, give an empty profile |
| VolumeProfile.ProfileShape | frontend/src/Indicators/volumeProfile.js:34-67 | A non-empty profile has priceBins bins spanning the price range, keeps each bin's volume, and centres each bin strictly inside it |
| HeikinAshi.ComputeHeikinAshi | frontend/src/components/Chart.jsx:14-27 | The loop yields one candle per input bar, the specification candle at each |
| HeikinAshi.CandleShape | frontend/src/components/Chart.jsx:18-24 | Each output candle keeps its bar's time and has low ≤ open, close ≤ high |
| HeikinAshi.CoversInput | frontend/src/components/Chart.jsx:22-23 | The output range contains the input bar's own range |
| HeikinAshi.HaCloseInside | frontend/src/components/Chart.jsx:18 | A consistent bar's averaged close lies within its low and high |
| HeikinAshi.HaOpenInRange | frontend/src/components/Chart.jsx:19-21 | Over consistent bars the open never leaves the lowest low and highest high seen so far |
| HeikinAshi.FlatFeed | frontend/src/components/Chart.jsx:14-27 | A flat feed gives flat candles at the same price |
| CandleFeed.NormaliseTime | frontend/src/App.jsx:70-72 | Times above 1e11 are milliseconds and become floor(t/1000) seconds; others are floored |
| CandleFeed.Normalise | frontend/src/App.jsx:73-83 | A record survives exactly when its close or open is finite; the survivor has the normalised time, the record's volume, and a finite open and close |
| CandleFeed.WithTime | frontend/src/App.jsx:67 | Keeps only records that have a time, never more than the input |
| CandleFeed.NormaliseAll | frontend/src/App.jsx:68-83 | At most one candle per record, each with a finite open and close |
| CandleFeed.LastByTime | frontend/src/App.jsx:123 | Each key maps to a candle with that time, and the last candle of the list wins its key |
| CandleFeed.Upsert | frontend/src/App.jsx:123-124 | The inserted candle is present, the list grows by at most one, and every other member was already there |
| CandleFeed.Dedup | frontend/src/App.jsx:123-124 | The merge is no longer than its input and invents no candle |
| CandleFeed.Fetched | frontend/src/App.jsx:66-85 | fetchData stores a list with strictly increasing times whose candles all have a finite open and close |
| CandleFeed.Refreshed | frontend/src/App.jsx:107-125 | A refresh stores a strictly increasing list whose times are exactly the held and the new times, each candle held or new |
| CandleFeed.BackFilled | frontend/src/App.jsx:151-169 | A back-fill stores a strictly increasing list whose times are exactly the older and the held times, each candle held or new |
| CandleFeed.SecondsAndMilliseconds | frontend/src/App.jsx:70-72 | A seconds timestamp between 1e8 and 1e11, and the same instant in milliseconds, normalise to the same second |
| CandleFeed.NormaliseKeeps | frontend/src/App.jsx:77-83 | A raw candle survives exactly when it has a close or an open, and the survivor has both |
| CandleFeed.NormaliseCompleteRecord | frontend/src/App.jsx:74-81 | A complete record keeps its prices and gets the normalised time |
| CandleFeed.NormaliseAllMembers | frontend/src/App.jsx:108-120 | Every normalised candle comes from some raw candle |
| CandleFeed.WithTimeMembers | frontend/src/App.jsx:67 | The time filter keeps exactly the raw candles that have a time |
| CandleFeed.UpsertSpec | frontend/src/App.jsx:123-124 | Inserting by time keeps the list sorted and unique, replaces the candle with the same time and keeps every other |
| CandleFeed.DedupIsLastByTime | frontend/src/App.jsx:123-124 | The merged list is sorted with unique times and holds, for each time, the last candle with that time |
| CandleFeed.DedupTimes | frontend/src/App.jsx:123-124 | Merging keeps exactly the times of its input |
| CandleFeed.DedupOfSorted | frontend/src/App.jsx:123-124 | Merging a sorted list with unique times returns it unchanged |
| CandleFeed.LastByTimeAppend | frontend/src/App.jsx:122-123 | The last candle per time of a concatenation is that of the first part, overridden by that of the second |
| CandleFeed.AppendLater | frontend/src/App.jsx:122-124 | A candle later than every candle held is appended at the end |
| CandleFeed.FetchedOrder | frontend/src/App.jsx:66-85 | The fetched series is sorted with unique times and holds the last candle for each time |
| CandleFeed.FetchedCandlesValid | frontend/src/App.jsx:66-85 | Every fetched candle comes from a raw candle with a time and has a close |
| CandleFeed.RefreshMerge | frontend/src/App.jsx:107-125 | A refresh keeps every time already held and contains every candle that is the last of its time in the new batch |
| CandleFeed.BackFillMerge | frontend/src/App.jsx:151-169 | A back-fill keeps every candle already held; any new candle comes from the batch at a time not held before |
| CandleFeed.TimeSetAppend | frontend/src/App.jsx:122 | The times of a concatenation are the union of the parts' times |
| IndicatorList.FilterMembers | frontend/src/App.jsx:244-250 | Filtering keeps exactly the entries satisfying the predicate |
| IndicatorList.AddIndicator | frontend/src/App.jsx:193-237 | Adding only appends: the old list is an unchanged prefix and every appended entry has the requested type |
| IndicatorList.UpdateIndicator | frontend/src/App.jsx:240-242 | Same length; entries with another id are unchanged, and a matching entry has its own keys plus the updated keys |
| IndicatorList.RemoveIndicator | frontend/src/App.jsx:244-246 | The result is no longer than the list and holds only listed entries with another id |
| IndicatorList.RemoveIndicatorGroup | frontend/src/App.jsx:248-250 | The result is no longer than the list and holds only listed entries of another type |
| IndicatorList.ToggleIndicator | frontend/src/App.jsx:256-258 | Same length; entries with another id are unchanged, and a matching entry's visibility flips |
| IndicatorList.AddSma | frontend/src/App.jsx:197-207 | Adding SMA appends ten slots with the default lengths, the first three visible |
| IndicatorList.AddSingle | frontend/src/App.jsx:193-237 | RSI and MACD are added once: an existing one leaves the list unchanged, otherwise one entry of that type is appended |
| IndicatorList.AddSingleIdempotent | frontend/src/App.jsx:193-195 | Adding RSI or MACD twice is the same as adding it once |
| IndicatorList.AddUnknown | frontend/src/App.jsx:193-238 | Any other type leaves the list unchanged |
| IndicatorList.SmaNotGuarded | frontend/src/App.jsx:197-207 | Adding SMA twice appends a second set of slots whose ids repeat the first ("sma-0" twice) |
| IndicatorList.UpdateOnly | frontend/src/App.jsx:240-242 | An update changes only entries with the given id: given keys take the update's values, other keys keep theirs |
| IndicatorList.UpdateTwice | frontend/src/App.jsx:240-242 | Two updates of the same id equal one update with the merged changes, when the first does not change the id |
| IndicatorList.ToggleOnly | frontend/src/App.jsx:256-258 | A toggle flips the visibility of entries with the given id and changes nothing else |
| IndicatorList.ToggleTwice | frontend/src/App.jsx:256-258 | Toggling twice restores the list, when each matching entry holds a boolean `visible` |
| IndicatorList.RemoveById | frontend/src/App.jsx:244-246 | Removal keeps exactly the entries with another id, and removing an absent id changes nothing |
| IndicatorList.RemoveGroup | frontend/src/App.jsx:248-250 | Group removal keeps exactly the entries of other types, so none of the type remains |

## Left out

- Floating point: all prices are mathematical reals. IEEE rounding, overflow, `Infinity` and `NaN` arithmetic are not modelled. A missing value is `None`, and where the source compares a value without checking it, a missing value compares false, as `undefined` and `NaN` do. JavaScript compares `null` as 0, which the model does not follow.
- SuperTrend.Step: a missing close never breaks out of a band, so the trend is kept. In the source a `null` close compares as 0, so `close < finalLowerBand[i-1]` holds for a positive band and the trend turns to -1.
- `Math.sqrt` and `toFixed` rounding are parameters, not definitions. The Bollinger and Stochastic rounding is therefore abstract.
- `Math.floor` in the time normalisation is specified by its defining inequalities, not by IEEE division.
- Lower-casing of source names covers the ASCII letters only. Source names are ASCII.
- The JavaScript coercion of `null` to 0 in arithmetic is not modelled where the source does not check the value. The model requires the field, or treats the result as a gap, as follows:
  - Macd.ComputeMACD: requires every close to be present.
  - Ichimoku.ComputeIchimoku: requires every high and low to be present.
  - VolumeProfile.ComputeVolumeProfile: requires high, low and close on every bar.
  - HeikinAshi.ComputeHeikinAshi: requires all four prices on every bar.
- Ichimoku.LaggingAt: a lagging close that is `undefined` or `NaN` is a gap in the model. The source drops only `null` (ichimoku.js:82), so it would keep such a point. The candle feed never stores a non-finite close, so the chart never passes one.
- Atr.TrueRange: a bar whose previous close is missing has no true range. The source computes with that missing close, coerced to 0 or NaN.
- Tsi.Change: a missing close on either side makes the momentum a gap. The source subtracts the coerced value.
- Window lengths (SMA, RSI, Bollinger, Stochastic, ATR, SuperTrend, Ichimoku), the MACD `normLookback` and `priceBins` must be at least 1, and the Ichimoku `laggingLength` at least 0. The EMA lengths of MACD and TSI are natural numbers. The source does not check settings; a zero length divides by zero, and a negative lag reads before the first bar. The indicator settings panel clamps `normLookback` to at least 1 when it is edited, and its default is 100.
- Settings defaults (`length = 14`, `precision = 2`, `priceBins = 40` and the others) are not modelled; callers pass every field of the settings record.
- Rendering, React state, effects, timers, the abort signal and `loadingMoreRef` are not modelled. The HTTP calls (axios) are also left out; a response body is a parameter.
- `removeAllIndicators` (App.jsx:252-254) only sets the list to empty and has no model.
- IndicatorList.AddIndicator: the source checks the guard against the rendered list and appends to the queued state. The model treats both as one list.
- CandleFeed.Refreshed and CandleFeed.BackFilled: a raw time that is not a number (`Number(undefined)` is NaN) is not modelled. A missing time counts as 0, as `Number(null)` does.
- The chart components, the drawing tools, the search panels and the Django back end are not part of this model.
