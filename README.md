# BIST signal pipeline — a Dafny model

This project models the decision core of a Borsa Istanbul (BIST) trading-signal
tool. Five technical indicators are computed over a closing-price series and
turned into signals:

- RSI with Wilder smoothing;
- MACD from exponential moving averages;
- Bollinger bands;
- simple and exponential moving averages, with golden/death cross detection;
- a volume-spike reading.

`analyze_stock` gathers these readings. `generate_signals` scores them into an
overall call with a confidence.

Separately, a macro engine scores a snapshot on five factors:

- USD/TRY;
- the central-bank policy rate;
- the BIST100 index;
- Brent oil;
- gold.

It combines them with fixed weights into a total and a summary band. A
sector layer adjusts the macro view for airline, bank, exporter and retail
stocks. The hybrid layer blends the technical score with the combined macro
score into AL/BEK/SAT (buy/wait/sell), a confidence, an alignment and a
risk level, and writes a recommendation. A small catalogue validates BIST
tickers, suggests similar ones, and lists the stocks of a sector.

Each Python source file becomes one Dafny module. `Common` holds the shared
Option/Result types, Python's rounding and truncation, sums and means, and
ASCII string helpers. `Signals` holds the seven-valued signal with its
buy/sell mirror.

- Pure computations are functions with named results.
- Code that works step by step is a method proved against those functions:
  - the Wilder loop over an array, in `Momentum.SmoothInPlace`;
  - the moving-average table fill;
  - the position loop of `interpret_moving_averages`;
  - the indicator-by-indicator fill of `analyze_stock`;
  - the counting loop of `generate_signals`;
  - the sector scorers;
  - the recommendation builder;
  - the suggestion scan.

Real numbers are exact rationals, and NaN is `None`. A numpy division by
zero is the `Extended` value (an infinity or NaN). A Python exception is an
`Err` that names its kind.

## Model

| member | source | states |
|---|---|---|
| Signals.Mirror | src/analysis/technical.py:160-165 | swapping BUY for SELL maps the buy family onto the sell family and back, and fixes HOLD |
| Signals.MirrorInvolution | src/analysis/technical.py:160-165 | mirroring twice gives the original signal |
| Momentum.Gain | src/indicators/momentum.py:58-61 | the gain at i is the positive part of close[i] − close[i−1], and 0 at index 0 |
| Momentum.Loss | src/indicators/momentum.py:58-62 | the loss at i is the magnitude of a fall, and 0 otherwise |
| Momentum.GainLossSplitDelta | src/indicators/momentum.py:58-62 | at most one of gain and loss is positive, and gain − loss is the price change |
| Momentum.Gains | src/indicators/momentum.py:61 | the gain series has one non-negative entry per row |
| Momentum.Losses | src/indicators/momentum.py:62 | the loss series has one non-negative entry per row |
| Momentum.WilderStep | src/indicators/momentum.py:70-72 | one smoothing step keeps the average non-negative, and positive when the new value is positive |
| Momentum.WilderAverage | src/indicators/momentum.py:66-72 | the seeded and smoothed average of non-negative values is non-negative |
| Momentum.RsiValue | src/indicators/momentum.py:75-78 | RSI is defined iff some average is positive, lies in [0,100], and is 100 with no losses and 0 with no gains |
| Momentum.RsiAt | src/indicators/momentum.py:66-78 | RSI at a row is undefined before the first full window and otherwise in [0,100] |
| Momentum.SeedAverage | src/indicators/momentum.py:66-67 | the seed is the specified average at index period−1 |
| Momentum.SmoothInPlace | src/indicators/momentum.py:70-72 | the in-place loop leaves the Wilder average at every index from period−1 on and leaves the rows before period−1 as they were |
| Momentum.CalculateRsi | src/indicators/momentum.py:15-80 | the RSI series has one entry per close, each equal to the RSI defined at that row |
| Momentum.RisingSeriesRsiIsHundred | src/indicators/momentum.py:22 | a strictly rising series has RSI exactly 100 at every defined row |
| Momentum.LossAverageOfRisingSeries | src/indicators/momentum.py:62-72 | a strictly rising series keeps a zero loss average |
| Momentum.Alpha | src/indicators/momentum.py:148 | the EMA weight 2/(span+1) lies in (0,1] |
| Momentum.EmaAt | src/indicators/momentum.py:148-149 | the recursive `ewm(adjust=False)` value at a row, seeded at the first close; with alpha 1 (span 1) it is the series itself |
| Momentum.Ema | src/indicators/momentum.py:148-149 | the EMA series has one entry per input, seeded at the first value |
| Momentum.EmaWithinRange | src/indicators/momentum.py:148-149 | an EMA never leaves the range of the values seen so far |
| Momentum.EmaOfConstant | src/indicators/momentum.py:148-149 | the EMA of a constant series is that constant |
| Momentum.CalculateMacd | src/indicators/momentum.py:83-160 | line = fast EMA − slow EMA, signal = EMA of the line, histogram = line − signal, all of the input's length |
| Momentum.MacdBounded | src/indicators/momentum.py:148-158 | for closes in [lo,hi], the MACD and signal lines lie within ±(hi − lo) and the histogram within twice that |
| Momentum.MacdOfFlatSeries | src/indicators/momentum.py:148-158 | a flat series gives MACD, signal and histogram 0 |
| Momentum.InterpretRsi | src/indicators/momentum.py:163-225 | the zones in decision order (≥70 SELL, ≤30 BUY, >55 HOLD_BUY, <45 HOLD_SELL, else HOLD), their strengths, strength in [0,100], undefined RSI gives HOLD/0 |
| Momentum.InterpretRsiMirror | src/indicators/momentum.py:189-208 | reading 100 − v gives the mirrored signal with the same strength |
| Momentum.InterpretMacd | src/indicators/momentum.py:228-293 | a crossover (both directions of the iff) gives BUY/80 or SELL/80 in the crossover region; otherwise HOLD_BUY/HOLD_SELL with strength min(50, 10·\|hist\|) and the positive, negative or neutral region of the two lines; undefined values give HOLD/0 with the not-available region ('Yetersiz veri') |
| Trend.ParseMaType | src/indicators/trend.py:76-80 | the type is SMA or EMA exactly when its upper-cased name is |
| Trend.Sma | src/indicators/trend.py:73-75 | the SMA is undefined exactly before the first full window |
| Trend.SmaWithinWindow | src/indicators/trend.py:73-75 | a defined SMA lies between the bounds of its window |
| Trend.MaSeries | src/indicators/trend.py:73-77 | the series is the SMA or the seeded EMA at every row |
| Trend.EmaSeededAtFirstClose | src/indicators/trend.py:76-77 | the EMA starts at the first close |
| Trend.CalculateMovingAverages | src/indicators/trend.py:14-82 | an unknown type raises, but only with a non-empty period list; otherwise the map has exactly the requested periods, each with its series |
| Trend.ScanLimit | src/indicators/trend.py:106 | the scan stops at min(lookback, len−1) |
| Trend.GoldenAt | src/indicators/trend.py:111-112 | a golden cross d rows back: fast above slow on that row, at or below on the row before, NaN comparing false; exclusive with a death cross (CrossesExclusive) |
| Trend.DeathAt | src/indicators/trend.py:121-122 | a death cross d rows back: fast below slow on that row, at or above on the row before, NaN comparing false |
| Trend.CrossesExclusive | src/indicators/trend.py:111-122 | no row is both a golden and a death cross, so the order of the two tests never matters |
| Trend.Scan | src/indicators/trend.py:106-144 | the scan reports the first cross it meets with no cross before it, or ABOVE/BELOW by the last values when none is in range |
| Trend.DetectMaCross | src/indicators/trend.py:85-144 | fewer than two points is insufficient; a reported cross is the most recent one, days_ago < lookback, and GOLDEN/DEATH exclude each other; otherwise ABOVE iff fast > slow at the end |
| Trend.CrossInWindowIsReported | src/indicators/trend.py:106-128 | any cross inside the window is reported, as that cross or a more recent one |
| Trend.Positions | src/indicators/trend.py:165-174 | at most one position per average; when all are defined, one per average in order, above iff the price is strictly over it, below otherwise |
| Trend.PositionsSkipUndefined | src/indicators/trend.py:165-174 | an undefined average contributes no position: removing it leaves the positions unchanged |
| Trend.NetStrength | src/indicators/trend.py:163-174 | the accumulated strength moves by 15 per defined average, so it lies within ±15 per item; its count form is NetStrengthCounts |
| Trend.CountAbove | src/indicators/trend.py:165-174 | the number of averages the price is above is at most the number of positions |
| Trend.NetStrengthCounts | src/indicators/trend.py:165-174 | the net is +15 for each average the price is above and −15 for each it is at or below |
| Trend.TrendBand | src/indicators/trend.py:177-191 | net >25 BUY, >0 HOLD_BUY, <−25 SELL, <0 HOLD_SELL, 0 HOLD |
| Trend.InterpretMovingAverages | src/indicators/trend.py:147-200 | the loop gives the positions, strength \|net\| ≤ 15 per position, and that net's band |
| Volatility.Band | src/indicators/volatility.py:79-80 | a band is defined iff the middle and the deviation are |
| Volatility.CalculateBollingerBands | src/indicators/volatility.py:14-82 | middle = SMA, upper and lower lie k·std on either side, and are defined together |
| Volatility.BandsOrdered | src/indicators/volatility.py:73-80 | with k, std ≥ 0: lower ≤ middle ≤ upper, symmetric about the middle |
| Volatility.PricePosition | src/indicators/volatility.py:119 | the position is the price's percentage of the band width; a zero-width band gives an IEEE infinity or NaN |
| Volatility.PricePositionLinear | src/indicators/volatility.py:119 | the position is 0 at the lower band, 100 at the upper band, and monotone in price |
| Volatility.InterpretBollingerBands | src/indicators/volatility.py:85-165 | the decisions in order (≥95 SELL/70, ≤5 BUY/70, >70 HOLD_SELL/40, <30 HOLD_BUY/40, then by the middle band); strength in {0,20,40,70}; an undefined band gives HOLD/0 |
| Volatility.PriceOnMiddleBand | src/indicators/volatility.py:146-156 | a price exactly on the middle band gives HOLD_SELL/20 |
| Volatility.InterpretBollingerMirror | src/indicators/volatility.py:122-156 | reflecting the price in the middle band mirrors the signal and keeps the strength |
| VolumeAnalysis.VolumeRatio | src/indicators/volume.py:70 | ratio · avg = current when avg > 0, otherwise exactly 1 |
| VolumeAnalysis.VolumeBand | src/indicators/volume.py:77-121 | burst, high, very-low and normal bands with their signals and strengths; strength in [0,100] |
| VolumeAnalysis.VolumeBandMirror | src/indicators/volume.py:77-121 | reversing the price move mirrors the signal and keeps strength and status |
| VolumeAnalysis.RollingMeanLast | src/indicators/volume.py:67 | the rolling mean is defined iff a full window exists |
| VolumeAnalysis.AnalyzeVolume | src/indicators/volume.py:15-133 | no volume column gives HOLD/0/N/A; one row raises IndexError; too short a window raises at `int(NaN)`; otherwise the band of the last ratio and move |
| VolumeAnalysis.PercentChange | src/indicators/volume.py:74 | the percentage move, or an IEEE value at a zero previous close |
| VolumeAnalysis.SumScaled | src/indicators/volume.py:67 | scaling every volume scales the sum |
| VolumeAnalysis.ScaledRatio | src/indicators/volume.py:70 | the volume ratio does not change when volumes are scaled by a positive factor |
| VolumeAnalysis.MeanScaled | src/indicators/volume.py:67 | scaling every volume scales the mean |
| VolumeAnalysis.AnalyzeVolumeScaleInvariant | src/indicators/volume.py:15-133 | the reading is unchanged when all volumes are scaled by a positive factor |
| VolumeAnalysis.Recent | src/indicators/volume.py:147 | the recent window has `period` entries (`[-0:]` keeps all) |
| VolumeAnalysis.HalfRatio | src/indicators/volume.py:148-154 | the second half's mean over the first half's, or 1 when undefined |
| VolumeAnalysis.DetectVolumeTrend | src/indicators/volume.py:135-161 | unknown iff no volume or too few rows; rising iff the ratio > 1.2, falling iff < 0.8 |
| Technical.LastMaValues | src/analysis/technical.py:92-93 | exactly the pairs (p, v) with p in {20, 50, 200} whose last-bar SMA v is defined, all defined, sorted by period |
| Technical.Defined | src/analysis/technical.py:93 | keeps exactly the input's defined entries (both directions of membership), and a period-sorted input stays sorted |
| Technical.AttemptFor | src/analysis/technical.py:39-120 | on non-empty data only the volume block can fail |
| Technical.RsiAttempt | src/analysis/technical.py:39-52 | the RSI block succeeds on non-empty data |
| Technical.MacdAttempt | src/analysis/technical.py:53-71 | the MACD block succeeds on non-empty data |
| Technical.BollingerAttempt | src/analysis/technical.py:72-89 | the Bollinger block succeeds on non-empty data |
| Technical.MaAttempt | src/analysis/technical.py:90-109 | the moving-average block succeeds on non-empty data |
| Technical.VolumeAttempt | src/analysis/technical.py:110-121 | the volume block fails iff a volume column exists with fewer than 20 rows |
| Technical.Attempts | src/analysis/technical.py:39-120 | the five blocks run in the order RSI, MACD, BB, MA, Volume |
| Technical.SignalsFrom | src/analysis/technical.py:39-120 | at most one signal per block |
| Technical.Sources | src/analysis/technical.py:39-120 | one indicator name per signal |
| Technical.SlotsHoldOutcomes | src/analysis/technical.py:39-120 | every attempted block has exactly its outcome in its slot |
| Technical.SourcesOfSignals | src/analysis/technical.py:39-120 | signals come from exactly the successful blocks, in order |
| Technical.OkNamesOfFive | src/analysis/technical.py:39-120 | with the first four successful, the successful blocks are all five or the first four |
| Technical.FiveSlots | src/analysis/technical.py:39-120 | each of the five slots holds its block's outcome |
| Technical.AnalysisSlots | src/analysis/technical.py:39-120 | every indicator slot is filled, with its block's outcome (a failure stores an error) |
| Technical.AnalysisSources | src/analysis/technical.py:39-120 | signals come in the order RSI, MACD, BB, MA, then Volume unless it failed |
| Technical.Record | src/analysis/technical.py:39-120 | recording a block extends the slots and the signals by that block |
| Technical.RunRsi | src/analysis/technical.py:39-52 | the RSI block computes its specified reading |
| Technical.RunMacd | src/analysis/technical.py:53-71 | the MACD block computes its specified reading |
| Technical.RunBollinger | src/analysis/technical.py:72-89 | the Bollinger block computes its specified reading |
| Technical.SmaTable | src/analysis/technical.py:92 | the 20-, 50- and 200-day SMA series |
| Technical.RunMovingAverages | src/analysis/technical.py:90-109 | the moving-average block computes its specified reading |
| Technical.RunVolume | src/analysis/technical.py:110-121 | the volume block computes its specified reading or failure |
| Technical.RunBlock | src/analysis/technical.py:39-120 | running one block extends the slots and the signals by that block's outcome |
| Technical.RunBlocks | src/analysis/technical.py:39-120 | running all blocks gives the specified slots and signals |
| Technical.AnalyzeStock | src/analysis/technical.py:16-122 | no data or empty data is an error, and only then; otherwise symbol, last price, slots and signals as specified |
| Technical.Score | src/analysis/technical.py:156-164 | the running score adds BUY-family and subtracts SELL-family strengths; with non-negative strengths it lies within ± their total |
| Technical.BuyCount | src/analysis/technical.py:156-162 | the BUY-family count is at most the number of signals |
| Technical.SellCount | src/analysis/technical.py:163-165 | the SELL-family count is at most the number of signals |
| Technical.HoldCount | src/analysis/technical.py:166-167 | the count of the rest is at most the number of signals |
| Technical.TotalStrength | src/analysis/technical.py:158-169 | the summed strength is non-negative for non-negative strengths and at most 100 per signal for strengths up to 100 |
| Technical.CountsPartition | src/analysis/technical.py:156-169 | buy, sell and hold counts add up to the number of signals |
| Technical.Band | src/analysis/technical.py:175-195 | the overall call for each score band (both directions) and each band's confidence, by a = abs(score): min(95, 60 + a/10) for a > 100, 50 + a/10 for 50 < a <= 100, 40 + a/5 for 0 < a <= 50, 30 at 0; always in [30,95] |
| Technical.BandMirror | src/analysis/technical.py:175-195 | negating the score mirrors the call and keeps the confidence |
| Technical.MirrorEntries | src/analysis/technical.py:156-165 | mirroring entries mirrors each signal and keeps its indicator and strength |
| Technical.ScoreMirror | src/analysis/technical.py:156-169 | mirroring negates the score, swaps buy and sell counts, and keeps total strength |
| Technical.VerdictOf | src/analysis/technical.py:172-209 | a verdict whose score is the signal score and whose confidence is int() of its band's confidence, in [30,95], counts adding up to the number of signals, a BUY-family call iff the score is positive, SELL-family iff negative, HOLD iff zero |
| Technical.VerdictMirror | src/analysis/technical.py:156-209 | mirroring every signal mirrors the overall call, negates the score, and keeps confidence |
| Technical.GenerateSignals | src/analysis/technical.py:125-211 | an upstream error passes through; no signals gives HOLD/0; otherwise the scored verdict, with confidence in [30,95] and the three counts summing to the signal count |
| Macro.MarkOf | src/macro/analyzer.py:98 | never the index's '[o]'; '[-]' iff the total is below −cut, and for a non-negative cut '[+]' iff it is at least cut |
| Macro.Combine | src/macro/analyzer.py:94-101 | a factor is the clamped level + scaled momentum rounded to one decimal, in [−10,10], with its mark |
| Macro.CombineMonotone | src/macro/analyzer.py:94-101 | a larger raw sum never gives a smaller factor |
| Macro.UsdLevel | src/macro/analyzer.py:38-54 | the USD/TRY level bracket lies in [−5,1] |
| Macro.UsdMomentum | src/macro/analyzer.py:61-83 | the momentum bracket lies in [−6,4], negative iff change ≥ 0.5, positive iff change < −0.5 |
| Macro.UsdInteraction | src/macro/analyzer.py:88-91 | the multiplier is 1.3 iff ≥40 and rising, 0.7 iff <35 and falling, else 1 |
| Macro.UsdScore | src/macro/analyzer.py:94-101 | the scored USD/TRY factor lies in [−10,10] and is scored |
| Macro.UsdScoreSign | src/macro/analyzer.py:38-95 | a dollar at 40 or more rising by at least 0.5% scores below zero; one under 30 falling by more than 0.5% scores above zero |
| Macro.AnalyzeUsdTry | src/macro/analyzer.py:19-104 | the score is in [−10,10]; a missing key is the caught error, a None value gives 0; scored iff both are given |
| Macro.UsdScoreMonotone | src/macro/analyzer.py:61-95 | at a fixed level, a larger 30-day rise never scores better |
| Macro.UsdLevelCanRaiseScore | src/macro/analyzer.py:47-91 | crossing 35 lowers the level bracket yet raises the score (2.8 → 3.0) through the interaction multiplier |
| Macro.TcmbLevel | src/macro/analyzer.py:128-144 | the policy-rate bracket lies in [−4,1] |
| Macro.TcmbChange | src/macro/analyzer.py:151-173 | the change bracket lies in [−5,5] with the sign of the change's band |
| Macro.AnalyzeTcmbRate | src/macro/analyzer.py:106-197 | the score is in [−10,10]; no rate gives 0 "not entered", and only then |
| Macro.TcmbWithoutPrevious | src/macro/analyzer.py:119-176 | with no previous rate the factor is the level bracket |
| Macro.TcmbMonotone | src/macro/analyzer.py:128-185 | with a fixed previous rate, a higher rate never scores better |
| Macro.AnalyzeBist100 | src/macro/analyzer.py:199-239 | fails iff a key is missing; score in {0, ±6, ±7.8}, positive iff up, negative iff down, ±7.8 iff the move exceeds 10% |
| Macro.OilLevel | src/macro/analyzer.py:259-275 | the oil level bracket lies in [−3,2] |
| Macro.OilMomentum | src/macro/analyzer.py:282-301 | the oil momentum lies in [−3,3], at most −1 above +5% |
| Macro.OilScore | src/macro/analyzer.py:306-317 | the scored oil factor lies in [−10,10] and is scored |
| Macro.OilScoreSign | src/macro/analyzer.py:259-311 | oil at 85 or more rising by at least 5% scores below zero; under 60 and falling by more than 5% scores above zero |
| Macro.AnalyzeOil | src/macro/analyzer.py:241-320 | score in [−10,10]; missing gives the error path, None gives 0; scored iff both are given |
| Macro.OilScoreMonotone | src/macro/analyzer.py:259-311 | a higher price and a larger rise never score better |
| Macro.GoldLevel | src/macro/analyzer.py:342-358 | the gold level bracket lies in [−2,1] |
| Macro.GoldMomentum | src/macro/analyzer.py:365-384 | the gold momentum lies in [−2.5,2.5], at most −1.5 above +8% |
| Macro.GoldScore | src/macro/analyzer.py:389-401 | the scored gold factor lies in [−10,10] and is scored |
| Macro.GoldScoreSign | src/macro/analyzer.py:342-394 | gold at 2200 or more rising by at least 8% scores below zero; under 1800 and falling by more than 3% scores above zero |
| Macro.AnalyzeGold | src/macro/analyzer.py:322-403 | score in [−10,10]; missing gives the error path, None gives 0; scored iff both are given |
| Macro.GoldScoreMonotone | src/macro/analyzer.py:342-394 | a higher price and a larger rise never score better |
| Macro.GoldRoundsTies | src/macro/analyzer.py:389-401 | round-half-even applies to exact ties (−3.75 → −3.8, −4.25 → −4.2) |
| Macro.WeightedTotal | src/macro/analyzer.py:425-439 | the weighted sum with weights 0.30, 0.25, 0.30, 0.10 and 0.05; its properties are WeightsSumToOne and WeightedTotalBounded |
| Macro.WeightsSumToOne | src/macro/analyzer.py:425-439 | the weights sum to one: five equal factor scores total that score |
| Macro.WeightedTotalBounded | src/macro/analyzer.py:425-433 | the weights sum to 1: the total stays in [−10,10], and reaches 10 only when every factor is 10 |
| Macro.SummaryOf | src/macro/analyzer.py:445-454 | summary bands ≥5, ≥2, ≥−2, ≥−5, else, as iffs |
| Macro.Assemble | src/macro/analyzer.py:425-470 | the result keeps the factors; total = round(weighted, 2), normalized = round((weighted+10)·5, 1) in [0,100], summary by band |
| Macro.CalculateOverallMacroScore | src/macro/analyzer.py:405-470 | each factor is its analyzer's result (the policy rate without a previous value), total and normalized are bounded, and the last-update field defaults to 'Bilinmiyor' |
| Macro.OverallScoreWeighted | src/macro/analyzer.py:425-454 | total, normalized and summary come from the weighted sum of the factor scores |
| Macro.SampleUsdTry | src/macro/analyzer.py:474-485 | the sample's USD/TRY factor is −4 |
| Macro.SampleTcmbRate | src/macro/analyzer.py:474-485 | the sample's policy-rate factor is −3 |
| Macro.SampleBist100 | src/macro/analyzer.py:474-485 | the sample's index factor is −6 |
| Macro.SampleOil | src/macro/analyzer.py:474-485 | the sample's oil factor is −2 |
| Macro.SampleGold | src/macro/analyzer.py:474-485 | the sample's gold factor is −1 |
| Macro.AssembleSampleScores | src/macro/analyzer.py:425-454 | factors −4, −3, −6, −2, −1 give total −4.0, normalized 30.0, "HAFIF OLUMSUZ" |
| Macro.SampleScenario | src/macro/analyzer.py:474-485 | the worked sample gives factors −4, −3, −6, −2, −1, total −4.0, normalized 30 and "HAFIF OLUMSUZ" |
| Sectors.RemoveSuffixMarks | src/macro/sectors.py:60 | removing '.IS' never lengthens the symbol |
| Sectors.RemoveWithoutMark | src/macro/sectors.py:60 | a symbol without '.I' is left unchanged |
| Sectors.RemoveTrailingMark | src/macro/sectors.py:60 | a trailing '.IS' is removed |
| Sectors.CleanSymbol | src/macro/sectors.py:60 | the cleaned symbol is never longer than the input and holds no lower-case ASCII letter |
| Sectors.GetSector | src/macro/sectors.py:49-66 | none iff the cleaned symbol is in no list; otherwise a sector whose list contains it |
| Sectors.TickerIsClean | src/macro/sectors.py:60 | a plain upper-case ticker is cleaned to itself, with or without '.IS' |
| Sectors.StocksOf | src/macro/sectors.py:13-40 | each sector lists two to six tickers, none twice |
| Sectors.ListedOnce | src/macro/sectors.py:14-40 | every listed ticker is plain upper case and belongs to exactly one sector |
| Sectors.ListedOnlyAirline | src/macro/sectors.py:14-40 | airline tickers are listed under airline only |
| Sectors.ListedOnlyBank | src/macro/sectors.py:14-40 | bank tickers are listed under bank only |
| Sectors.ListedOnlyHolding | src/macro/sectors.py:14-40 | holding tickers are listed under holding only |
| Sectors.ListedOnlyEnergy | src/macro/sectors.py:14-40 | energy tickers are listed under energy only |
| Sectors.ListedOnlyTech | src/macro/sectors.py:14-40 | tech tickers are listed under tech only |
| Sectors.ListedOnlyExport | src/macro/sectors.py:14-40 | export tickers are listed under export only |
| Sectors.ListedOnlyRetail | src/macro/sectors.py:14-40 | retail tickers are listed under retail only |
| Sectors.ListedOnlyTourism | src/macro/sectors.py:14-40 | tourism tickers are listed under tourism only |
| Sectors.ListedOnlyTelecom | src/macro/sectors.py:14-40 | telecom tickers are listed under telecom only |
| Sectors.FoundWhenListed | src/macro/sectors.py:49-66 | a symbol that cleans to a listed ticker finds that ticker's sector |
| Sectors.ListedTickersFound | src/macro/sectors.py:49-66 | a listed ticker finds its sector with and without '.IS' |
| Sectors.ListedTickerFound | src/macro/sectors.py:49-66 | a listed ticker finds its sector |
| Sectors.NonTickerNotFound | src/macro/sectors.py:49-66 | a symbol that does not clean to a ticker has no sector |
| Sectors.RemoveKeepsLowerSuffix | src/macro/sectors.py:60 | a lower-case '.is' survives the removal, because it runs before upper-casing |
| Sectors.LowerSuffixAlone | src/macro/sectors.py:60 | '.is' alone is untouched by the removal |
| Sectors.LowerCaseSuffixNotFound | src/macro/sectors.py:49-66 | a symbol ending in lower-case '.is' is never found |
| Sectors.Tally | src/macro/sectors.py:107-110 | the score is the clamped sum of fired terms; "insufficient data" iff no term fired |
| Sectors.AirlineUsd | src/macro/sectors.py:83-93 | the airline USD/TRY tier lies in [−10,6], negative iff the change is at least 2%, positive iff at most −2% |
| Sectors.AirlineOil | src/macro/sectors.py:95-105 | the airline oil tier lies in [−6,3], negative iff the change is at least 5%, positive iff at most −5% |
| Sectors.AirlineSector | src/macro/sectors.py:68-113 | score in [−10,10]; a missing key, and only that, gives the error reading |
| Sectors.BankRate | src/macro/sectors.py:130-140 | the bank rate tier lies in [−2,4], is never 0, and is positive iff the rate is at least 40 |
| Sectors.BankIndex | src/macro/sectors.py:142-148 | the bank index tier lies in [−5,0], negative iff the index change is at most −5% |
| Sectors.BankSector | src/macro/sectors.py:115-156 | score in [−10,10]; a missing index key is the error; insufficient data iff no term fires |
| Sectors.ExportUsd | src/macro/sectors.py:173-183 | the exporter USD/TRY tier lies in [−5,8], positive iff the change is at least 2%, negative iff at most −3% |
| Sectors.ExportEur | src/macro/sectors.py:185-191 | the exporter EUR/TRY tier lies in [−3,4], positive iff the change is at least 3%, negative iff at most −3% |
| Sectors.ExportSector | src/macro/sectors.py:158-199 | score in [−10,10]; a missing key, and only that, gives the error reading |
| Sectors.RetailUsd | src/macro/sectors.py:216-226 | the retail USD/TRY tier lies in [−7,4], negative iff the change is at least 2%, positive iff at most −2% |
| Sectors.RetailIndex | src/macro/sectors.py:228-234 | the retail index tier lies in [−3,3], positive iff the index change is at least 5%, negative iff at most −5% |
| Sectors.RetailSector | src/macro/sectors.py:201-242 | score in [−10,10]; a missing key, and only that, gives the error reading |
| Sectors.TiersMonotone | src/macro/sectors.py:83-234 | every tier is monotone in its input: the airline and retail USD tiers and the airline oil tier never rise, the bank, export and retail-index tiers never fall |
| Sectors.TallyOfTwo | src/macro/sectors.py:83-110 | two drivers give the clamped sum of their deltas; insufficient data iff both are 0 |
| Sectors.AirlineMonotone | src/macro/sectors.py:83-107 | higher USD and oil moves never help an airline |
| Sectors.BankMonotone | src/macro/sectors.py:130-150 | a higher policy rate and index move never hurt a bank |
| Sectors.ExportMonotone | src/macro/sectors.py:173-193 | higher USD and EUR moves never hurt an exporter |
| Sectors.RetailMonotone | src/macro/sectors.py:216-236 | a higher USD move and a weaker index never help a retailer |
| Sectors.ClampActsOnlyForAirlineAndExport | src/macro/sectors.py:107 | bank and retail sums already lie in [−10,10], while airline and export sums can leave it |
| Sectors.AnalyzeAirlineSector | src/macro/sectors.py:68-113 | the step-by-step scorer computes the airline reading |
| Sectors.AnalyzeBankSector | src/macro/sectors.py:115-156 | the step-by-step scorer computes the bank reading |
| Sectors.AnalyzeExportSector | src/macro/sectors.py:158-199 | the step-by-step scorer computes the export reading |
| Sectors.AnalyzeRetailSector | src/macro/sectors.py:201-242 | the step-by-step scorer computes the retail reading |
| Sectors.TallyBuilt | src/macro/sectors.py:79-110 | the accumulated score and factor list form the tally |
| Sectors.AnalyzeSectorSpecific | src/macro/sectors.py:244-270 | no sector iff "no sector info"; unscored sectors give 0 with their label; the score is in [−10,10] |
| Sectors.SampleAirline | src/macro/sectors.py:83-110 | an airline ticker on the sample snapshot scores −9 (USD −6, oil −3) |
| Hybrid.NormalizedWeights | src/analysis/hybrid.py:43-45 | the weights are tw/(tw+mw) and mw/(tw+mw), sum to 1, and lie in [0,1] for non-negative inputs |
| Hybrid.CombinedMacro | src/analysis/hybrid.py:57 | 0.7·general + 0.3·sector stays in [−10,10] |
| Hybrid.MacroNormalized | src/analysis/hybrid.py:58 | (c+10)·5 lies in [0,100], and is ≥ 50 iff c ≥ 0 |
| Hybrid.Blend | src/analysis/hybrid.py:61-67 | the hybrid score is clamped to [0,100] and untouched inside it |
| Hybrid.BlendFollowsConsensus | src/analysis/hybrid.py:61-67 | both sides ≥ 50 give a blend ≥ 50; both < 50 give < 50 |
| Hybrid.SignalBand | src/analysis/hybrid.py:70-89 | AL iff ≥50, SAT iff <40, high confidence iff ≥65 or <25, low iff BEK |
| Hybrid.DirectionOf | src/analysis/hybrid.py:92 | buying iff the score is ≥ 50 |
| Hybrid.AlignmentOf | src/analysis/hybrid.py:95-102 | aligned iff both directions agree |
| Hybrid.RiskOf | src/analysis/hybrid.py:105-121 | high risk iff conflict with AL against selling macro; low iff aligned and extreme; with their notes |
| Hybrid.HybridRaw | src/analysis/hybrid.py:43-67 | the unrounded hybrid score lies in [0,100] |
| Hybrid.Fuse | src/analysis/hybrid.py:43-156 | every field of the result: the rounded hybrid, macro and technical scores with their bounds, the two weights as rounded percentages, signal, confidence, directions, alignment, risk, and the general and sector inputs passed through |
| Hybrid.CalculateHybridScore | src/analysis/hybrid.py:29-156 | fails with ZeroDivisionError iff tw + mw = 0; otherwise fuses the macro total with the sector reading |
| Hybrid.ConsensusDecidesCall | src/analysis/hybrid.py:61-102 | when technical and macro agree on buying the call is AL; on selling it is never AL |
| Hybrid.AdviceFor | src/analysis/hybrid.py:176-193 | no advice iff BEK; a buy advice iff AL |
| Hybrid.Recommendation | src/analysis/hybrid.py:158-208 | the line count, advice first, risk last, conflict lines iff conflict, sector line iff a sector is known |
| Hybrid.GetRecommendation | src/analysis/hybrid.py:158-208 | the appending builder yields the specified lines |
| Hybrid.SampleMacroSide | src/analysis/hybrid.py:213-235 | the sample snapshot gives macro total −4 and an airline sector score −9 |
| Hybrid.ScenarioRounding | src/analysis/hybrid.py:213-260 | the worked rounding ties: 59.25 → 59.2, 27.75 → 27.8, 22.5 stays |
| Hybrid.FuseOnWeakMacro | src/analysis/hybrid.py:213-260 | technical 75 gives 59.2 AL/medium, conflict and high risk; technical 30 gives 27.8 SAT/medium, aligned and low risk, with their recommendations |
| Hybrid.StrongTechnicalScenario | src/analysis/hybrid.py:213-260 | the worked scenario with technical score 75 on an airline ticker |
| Hybrid.WeakTechnicalScenario | src/analysis/hybrid.py:213-260 | the worked scenario with technical score 30 on an airline ticker |
| BistStocks.ListNamed | src/data/bist_stocks.py:193-200 | BIST30 or POPULAR iff the upper-cased name says so |
| BistStocks.DropSuffix | src/data/bist_stocks.py:168-169 | a trailing '.IS' is removed, anything else is kept |
| BistStocks.Normalize | src/data/bist_stocks.py:164-169 | the normalized symbol is never longer than the input and holds no lower-case ASCII letter |
| BistStocks.GetStockList | src/data/bist_stocks.py:178-200 | BIST30, POPULAR, otherwise BIST100 |
| BistStocks.IsValidBistStock | src/data/bist_stocks.py:145-175 | membership of the normalized symbol in the named list; ValidMeansListed states it against `get_stock_list` |
| BistStocks.ValidMeansListed | src/data/bist_stocks.py:145-175 | a symbol is valid iff its normalised form is in the chosen list |
| BistStocks.UpperIdempotent | src/data/bist_stocks.py:193 | upper-casing twice changes nothing |
| BistStocks.StockListIgnoresCase | src/data/bist_stocks.py:193-200 | the list name is read case-insensitively |
| BistStocks.DefaultList | src/data/bist_stocks.py:193-200 | 'BIST100' and unknown names give BIST100 |
| BistStocks.NamedLists | src/data/bist_stocks.py:193-200 | each list name selects its list |
| BistStocks.Bist30ValidIsBist100Valid | src/data/bist_stocks.py:41 | BIST30-valid implies BIST100-valid |
| BistStocks.PopularInBist100 | src/data/bist_stocks.py:121-142 | every popular stock is in BIST100 |
| BistStocks.PopularValidIsBist100Valid | src/data/bist_stocks.py:121-142 | POPULAR-valid implies BIST100-valid |
| BistStocks.StripPadded | src/data/bist_stocks.py:164 | strip removes one space on each side |
| BistStocks.NormalizePlain | src/data/bist_stocks.py:164-169 | an already clean upper-case code normalises to itself |
| BistStocks.NormalizePaddedLowerSuffix | src/data/bist_stocks.py:164-169 | ' thyao.is ' style input normalises to the upper-cased code |
| BistStocks.ShortCodes | src/data/bist_stocks.py:14-118 | every BIST100 code has at most five letters |
| BistStocks.NormalizeCode | src/data/bist_stocks.py:164-169 | an upper-case code normalises to itself, with or without '.IS' |
| BistStocks.ListedCodeValid | src/data/bist_stocks.py:145-175 | a listed code is valid bare and with '.IS' |
| BistStocks.PaddedLowerCaseValid | src/data/bist_stocks.py:145-175 | padded lower-case input with '.is' is valid when its code is listed |
| BistStocks.LongSymbolInvalid | src/data/bist_stocks.py:145-175 | a normalised symbol longer than five letters is never valid |
| BistStocks.Matches | src/data/bist_stocks.py:233-239 | a stock matches when it starts with the first two characters of the symbol or contains its first three; Similar keeps exactly the matching stocks |
| BistStocks.Similar | src/data/bist_stocks.py:233-239 | the matches: a stock is kept iff it starts with s[:2] or contains s[:3] |
| BistStocks.SimilarSplit | src/data/bist_stocks.py:233-239 | the matches keep list order: the matches of a + b are those of a followed by those of b |
| BistStocks.PyTake | src/data/bist_stocks.py:241 | Python's slice `[:n]`, including a negative n |
| BistStocks.SuggestFrom | src/data/bist_stocks.py:228-241 | a listed symbol gives exactly itself; otherwise the first matches |
| BistStocks.SuggestFromMatches | src/data/bist_stocks.py:228-241 | at most max_results listed stocks; without an exact hit, a prefix of the matches in list order, and all of them (every listed match, in order) when at most max_results match |
| BistStocks.Suggestions | src/data/bist_stocks.py:203-241 | the scan of BIST100 for the normalized symbol; SuggestionsMatch states its properties |
| BistStocks.SuggestionsMatch | src/data/bist_stocks.py:203-241 | a valid symbol gives [symbol]; otherwise at most max_results BIST100 stocks, a prefix of the matches in list order, and every match when at most max_results match |
| BistStocks.ScanSimilar | src/data/bist_stocks.py:228-241 | the early-return loop computes the specified suggestions |
| BistStocks.SuggestSimilarStocks | src/data/bist_stocks.py:203-241 | the suggestions for the normalised symbol from BIST100 |
| BistStocks.GetSectorStocks | src/data/bist_stocks.py:258-271 | the key is upper-cased; an unknown sector gives [] |
| BistStocks.SectorStocksIgnoreCase | src/data/bist_stocks.py:270 | the sector name is read case-insensitively |
| BistStocks.SectorStocksAreListed | src/data/bist_stocks.py:258-268 | every stock of every sector is in BIST100 |
| BistStocks.EnergyKey | src/data/bist_stocks.py:262-270 | 'enerji' finds the energy list; the docstring's 'ENERJİ' finds nothing |
| BistStocks.TechnologyKeyMissed | src/data/bist_stocks.py:264-270 | 'teknoloji' upper-cases to 'TEKNOLOJI', which is not the 'TEKNOLOJİ' key |

## Left out

- Market-data and macro fetching (yfinance, JSON files, clocks) is left out. Price series, volumes and the macro snapshot are inputs. The fetched `trend` word and `change_30d` are given values.
- Report text is left out. Descriptions, the Turkish explanation strings and the terminal report are labels (datatype constructors), not formatted text. `get_recommendation` returns its lines as a list, not joined with newlines.
- The rolling standard deviation is not modelled. `analyze_stock` uses the 20-row rolling standard deviation of the closes; it is an input series (`PriceData.closeStd20`), because square roots and sample variance are not computed; Bollinger bands are stated against the given deviation.
- Arithmetic is exact. Floating-point rounding does not occur. `round` is half-even on the exact value. Python's `round` on binary floats rounds the stored value, which can differ at ties.
- Unicode upper-casing is ASCII-only. The 'İ' keys of the sector table stay as they are, and `str.strip` removes the ASCII characters `str.isspace` accepts (space, \t to \r, \x1c to \x1f) but no non-ASCII whitespace.
- Trend.InterpretMovingAverages: takes the already sorted item list of `ma_values`; the sort itself is not modelled. Its only caller builds the list in ascending period order (`Technical.LastMaValues`).
- Technical.AttemptFor: the exceptions the blocks could raise on malformed frames (missing columns, non-numeric data) are not modelled; a frame always has a Close column.
- Hybrid.Recommendation: each line is an enumerated label and not the formatted text, so the sector's upper-cased display name is not modelled.
- Macro.AnalyzeBist100: states the sign and magnitude of the score, not the description text for an unknown trend word.
- The constructor-level state of the three analyzer classes (`MacroAnalyzer`, `SectorAnalyzer`, `HybridAnalyzer`) is not modelled as a class. Each stores its input dictionary once and never updates it, so the methods are functions of that dictionary.
- Technical.AnalyzeStock: the result has no 'date' field. The source records the date of the last row's index there; the price input carries no dates, so the model leaves it out.
- Trend.DetectMaCross: requires the two series to have the same length. The source indexes each series from its own end, so it accepts unequal lengths, and a shorter slow series can raise an IndexError. The one caller passes the 50- and 200-row averages of the same close column, which always have equal lengths.
- BistStocks.SuggestionsMatch: the docstring example 'THYA' giving ['THYAO'] is not proved as a literal. The lemma gives every BIST100 match in list order when at most max_results match, but which BIST100 tickers match 'THYA' is not computed, because evaluating the match filter over the literal 100-entry list is too costly for the verifier.

## Notes on the source

- The BIST30 list holds 22 codes and BIST100 98. BIST100 is BIST30 followed by the other codes.
- The export sector of `src/macro/sectors.py` lists 'VESTEL', while the BIST100 list spells the ticker 'VESTL'.
- `get_sector` removes '.IS' anywhere in the symbol, before upper-casing. So 'thyao.is' is not found (`Sectors.LowerCaseSuffixNotFound`). `is_valid_bist_stock` upper-cases first and then drops only a trailing '.IS'.
- `get_sector_stocks` documents the key 'ENERJİ', but the table's key is 'ENERJI'. The keys 'TEKNOLOJİ', 'OTOMOTİV' and 'HOLDİNG' contain 'İ', which `upper()` of a lower-case ASCII name never produces, so those sectors are only reachable by passing the dotted capital directly (`BistStocks.EnergyKey`, `BistStocks.TechnologyKeyMissed`).
- In `get_recommendation`, the SAT branch with high risk cannot be reached. High risk needs an AL signal (`Hybrid.RiskOf`).
