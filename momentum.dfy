/** Momentum indicators of src/indicators/momentum.py: RSI with Wilder
    smoothing, MACD built from exponential moving averages, and the two
    interpreters that map their latest values to a signal and a strength. */
module Momentum {
  import opened Common
  import opened Signals

  // ---------------------------------------------------------------------------
  // RSI

  /** `delta.where(delta > 0, 0)`: the first row's delta is NaN and counts as 0. */
  function Gain(close: seq<real>, i: nat): (g: real)
    requires i < |close|
    ensures g >= 0.0
    ensures i > 0 && close[i] > close[i - 1] ==> g == close[i] - close[i - 1]
    ensures (i == 0 || close[i] <= close[i - 1]) ==> g == 0.0
  {
    if i > 0 && close[i] - close[i - 1] > 0.0 then close[i] - close[i - 1] else 0.0
  }

  /** `-delta.where(delta < 0, 0)`. */
  function Loss(close: seq<real>, i: nat): (l: real)
    requires i < |close|
    ensures l >= 0.0
    ensures i > 0 && close[i] < close[i - 1] ==> l == close[i - 1] - close[i]
    ensures (i == 0 || close[i] >= close[i - 1]) ==> l == 0.0
  {
    if i > 0 && close[i] - close[i - 1] < 0.0 then close[i - 1] - close[i] else 0.0
  }

  /** At each row at most one of gain and loss is positive, and together they
      give back the price change. */
  lemma GainLossSplitDelta(close: seq<real>, i: nat)
    requires i < |close|
    ensures Gain(close, i) == 0.0 || Loss(close, i) == 0.0
    ensures i > 0 ==> Gain(close, i) - Loss(close, i) == close[i] - close[i - 1]
    ensures i == 0 ==> Gain(close, i) == 0.0 && Loss(close, i) == 0.0
  {
  }

  function Gains(close: seq<real>): (r: seq<real>)
    ensures |r| == |close|
    ensures forall i :: 0 <= i < |close| ==> r[i] == Gain(close, i) && r[i] >= 0.0
  {
    seq(|close|, i requires 0 <= i < |close| => Gain(close, i))
  }

  function Losses(close: seq<real>): (r: seq<real>)
    ensures |r| == |close|
    ensures forall i :: 0 <= i < |close| ==> r[i] == Loss(close, i) && r[i] >= 0.0
  {
    seq(|close|, i requires 0 <= i < |close| => Loss(close, i))
  }

  lemma {:induction false} SumNonNegative(s: seq<real>)
    requires forall i :: 0 <= i < |s| ==> s[i] >= 0.0
    ensures Sum(s) >= 0.0
  {
    if s != [] {
      SumNonNegative(s[..|s| - 1]);
    }
  }

  /** One smoothing step of `calculate_rsi`'s loop: `(prev * (period - 1) + x) / period`.
      It keeps a non-negative average non-negative, and a positive input
      makes it positive. */
  function WilderStep(prev: real, x: real, period: nat): (a: real)
    requires period >= 1
    ensures prev >= 0.0 && x >= 0.0 ==> a >= 0.0
    ensures prev >= 0.0 && x > 0.0 ==> a > 0.0
    ensures prev == 0.0 && x == 0.0 ==> a == 0.0
  {
    var w := prev * (period - 1) as real;
    assert prev >= 0.0 ==> w >= 0.0;
    (w + x) / period as real
  }

  /** The Wilder average at row i >= period - 1: seeded with the rolling mean
      of the first `period` values, then one WilderStep per later row.
      A series of non-negative values keeps a non-negative average. */
  function WilderAverage(xs: seq<real>, period: nat, i: nat): (a: real)
    requires 1 <= period <= i + 1 <= |xs|
    ensures (forall j :: 0 <= j < |xs| ==> xs[j] >= 0.0) ==> a >= 0.0
    decreases i
  {
    if i == period - 1 then
      MeanNonNegative(xs[..period]);
      Mean(xs[..period])
    else
      WilderStep(WilderAverage(xs, period, i - 1), xs[i], period)
  }

  lemma MeanNonNegative(s: seq<real>)
    requires s != []
    ensures (forall j :: 0 <= j < |s| ==> s[j] >= 0.0) ==> Mean(s) >= 0.0
  {
    if forall j :: 0 <= j < |s| ==> s[j] >= 0.0 {
      SumNonNegative(s);
    }
  }

  /** `100 - 100 / (1 + avg_gain / avg_loss)` with pandas semantics: a zero
      loss average with a positive gain average gives RS = inf and RSI 100,
      and 0 / 0 gives NaN. */
  function RsiValue(avgGain: real, avgLoss: real): (r: Option<real>)
    requires avgGain >= 0.0 && avgLoss >= 0.0
    ensures r.Some? <==> avgLoss > 0.0 || avgGain > 0.0
    ensures r.Some? ==> 0.0 <= r.value <= 100.0
    ensures avgLoss == 0.0 && avgGain > 0.0 ==> r == Some(100.0)
    ensures avgGain == 0.0 && avgLoss > 0.0 ==> r == Some(0.0)
  {
    if avgLoss > 0.0 then
      var rs := avgGain / avgLoss;
      assert rs >= 0.0;
      assert 100.0 / (1.0 + rs) <= 100.0;
      Some(100.0 - 100.0 / (1.0 + rs))
    else if avgGain > 0.0 then Some(100.0)
    else None
  }

  /** The RSI series at row i: undefined before the seed row period - 1. */
  function RsiAt(close: seq<real>, period: nat, i: nat): (r: Option<real>)
    requires 1 <= period && i < |close|
    ensures r.Some? ==> 0.0 <= r.value <= 100.0
    ensures i + 1 < period ==> r == None
  {
    if i + 1 < period then None
    else RsiValue(WilderAverage(Gains(close), period, i), WilderAverage(Losses(close), period, i))
  }

  /** The rolling seed of `calculate_rsi`: sum of the first `period` values over `period`. */
  method SeedAverage(xs: seq<real>, period: nat) returns (a: real)
    requires 1 <= period <= |xs|
    ensures a == WilderAverage(xs, period, period - 1)
  {
    var total := 0.0;
    for j := 0 to period
      invariant total == Sum(xs[..j])
    {
      assert xs[..j + 1][..j] == xs[..j];
      total := total + xs[j];
    }
    assert xs[..period] == xs[..period];
    a := total / period as real;
  }

  /** The smoothing loop of `calculate_rsi` on one of the two series, in place
      on `avg` from row `period` on. */
  method SmoothInPlace(avg: array<real>, xs: seq<real>, period: nat)
    requires 1 <= period <= |xs| == avg.Length
    requires avg[period - 1] == WilderAverage(xs, period, period - 1)
    modifies avg
    ensures forall j :: period - 1 <= j < |xs| ==> avg[j] == WilderAverage(xs, period, j)
    ensures forall j :: 0 <= j < period - 1 ==> avg[j] == old(avg[j])
  {
    for i := period to |xs|
      invariant forall j :: period - 1 <= j < i ==> avg[j] == WilderAverage(xs, period, j)
      invariant forall j :: 0 <= j < period - 1 ==> avg[j] == old(avg[j])
    {
      avg[i] := WilderStep(avg[i - 1], xs[i], period);
    }
  }

  /** `calculate_rsi`: the rolling seed and then the in-place smoothing loop
      over `avg_gain` and `avg_loss`. */
  method CalculateRsi(close: seq<real>, period: nat) returns (rsi: seq<Option<real>>)
    requires period >= 1
    ensures |rsi| == |close|
    ensures forall i :: 0 <= i < |close| ==> rsi[i] == RsiAt(close, period, i)
  {
    var n := |close|;
    var gains, losses := Gains(close), Losses(close);
    var avgGain := new real[n];
    var avgLoss := new real[n];
    if n >= period {
      avgGain[period - 1] := SeedAverage(gains, period);
      avgLoss[period - 1] := SeedAverage(losses, period);
      SmoothInPlace(avgGain, gains, period);
      SmoothInPlace(avgLoss, losses, period);
    }
    rsi := [];
    for i := 0 to n
      invariant |rsi| == i
      invariant forall j :: 0 <= j < i ==> rsi[j] == RsiAt(close, period, j)
    {
      if i + 1 < period {
        rsi := rsi + [None];
      } else {
        rsi := rsi + [RsiValue(avgGain[i], avgLoss[i])];
      }
    }
  }

  /** On a strictly rising series every RSI value from row max(1, period - 1)
      on is exactly 100: no row has a loss and every window holds a gain. */
  lemma RisingSeriesRsiIsHundred(close: seq<real>, period: nat, i: nat)
    requires 1 <= period && i < |close| && i + 1 >= period && i >= 1
    requires forall j :: 0 < j < |close| ==> close[j - 1] < close[j]
    ensures RsiAt(close, period, i) == Some(100.0)
  {
    var gains := Gains(close);
    LossAverageOfRisingSeries(close, period, i);
    if i == period - 1 {
      PositiveSum(gains[..period], period - 1);
    } else {
      assert gains[i] > 0.0;
    }
  }

  /** With no falling row, the loss average is zero everywhere. */
  lemma {:induction false} LossAverageOfRisingSeries(close: seq<real>, period: nat, i: nat)
    requires 1 <= period && i < |close| && i + 1 >= period
    requires forall j :: 0 < j < |close| ==> close[j - 1] < close[j]
    ensures WilderAverage(Losses(close), period, i) == 0.0
    decreases i
  {
    var losses := Losses(close);
    if i == period - 1 {
      ZeroSum(losses[..period]);
    } else {
      LossAverageOfRisingSeries(close, period, i - 1);
      assert losses[i] == 0.0;
    }
  }

  lemma {:induction false} ZeroSum(s: seq<real>)
    requires s != [] && forall j :: 0 <= j < |s| ==> s[j] == 0.0
    ensures Mean(s) == 0.0
  {
    ZeroSumAux(s);
  }

  lemma {:induction false} ZeroSumAux(s: seq<real>)
    requires forall j :: 0 <= j < |s| ==> s[j] == 0.0
    ensures Sum(s) == 0.0
  {
    if s != [] {
      ZeroSumAux(s[..|s| - 1]);
    }
  }

  lemma PositiveSum(s: seq<real>, k: nat)
    requires k < |s| && s[k] > 0.0 && forall j :: 0 <= j < |s| ==> s[j] >= 0.0
    ensures Mean(s) > 0.0
  {
    PositiveSumAux(s, k);
  }

  lemma {:induction false} PositiveSumAux(s: seq<real>, k: nat)
    requires k < |s| && s[k] > 0.0 && forall j :: 0 <= j < |s| ==> s[j] >= 0.0
    ensures Sum(s) > 0.0
  {
    if k == |s| - 1 {
      SumNonNegative(s[..|s| - 1]);
    } else {
      PositiveSumAux(s[..|s| - 1], k);
    }
  }

  // ---------------------------------------------------------------------------
  // MACD

  /** pandas' `ewm(span=n, adjust=False)` smoothing factor 2 / (n + 1). */
  function Alpha(span: int): (a: real)
    requires span >= 1
    ensures 0.0 < a <= 1.0
  {
    2.0 / (span as real + 1.0)
  }

  /** The exponential moving average at row t, seeded at the first value;
      with alpha 1 (span 1) it is the series itself. */
  function EmaAt(xs: seq<real>, alpha: real, t: nat): (r: real)
    requires t < |xs|
    ensures alpha == 1.0 ==> r == xs[t]
  {
    if t == 0 then xs[0] else alpha * xs[t] + (1.0 - alpha) * EmaAt(xs, alpha, t - 1)
  }

  function Ema(xs: seq<real>, alpha: real): (r: seq<real>)
    ensures |r| == |xs|
    ensures forall t :: 0 <= t < |xs| ==> r[t] == EmaAt(xs, alpha, t)
  {
    seq(|xs|, t requires 0 <= t < |xs| => EmaAt(xs, alpha, t))
  }

  /** The EMA is a running convex combination: it never leaves the range of
      the values seen so far. */
  lemma {:induction false} EmaWithinRange(xs: seq<real>, alpha: real, t: nat, lo: real, hi: real)
    requires 0.0 <= alpha <= 1.0 && t < |xs|
    requires forall j :: 0 <= j <= t ==> lo <= xs[j] <= hi
    ensures lo <= EmaAt(xs, alpha, t) <= hi
  {
    if t > 0 {
      EmaWithinRange(xs, alpha, t - 1, lo, hi);
      ConvexStep(alpha, xs[t], EmaAt(xs, alpha, t - 1), lo, hi);
    }
  }

  /** One EMA step mixes two values of [lo, hi] and stays in [lo, hi]. */
  lemma ConvexStep(a: real, x: real, p: real, lo: real, hi: real)
    requires 0.0 <= a <= 1.0 && lo <= x <= hi && lo <= p <= hi
    ensures lo <= a * x + (1.0 - a) * p <= hi
  {
    MulNonNegative(a, x - lo);
    MulNonNegative(1.0 - a, p - lo);
    MulNonNegative(a, hi - x);
    MulNonNegative(1.0 - a, hi - p);
    assert a * x + (1.0 - a) * p - lo == a * (x - lo) + (1.0 - a) * (p - lo);
    assert hi - (a * x + (1.0 - a) * p) == a * (hi - x) + (1.0 - a) * (hi - p);
  }

  /** The EMA of a constant series is that constant. */
  lemma {:induction false} EmaOfConstant(xs: seq<real>, alpha: real, t: nat, c: real)
    requires t < |xs| && forall j :: 0 <= j <= t ==> xs[j] == c
    ensures EmaAt(xs, alpha, t) == c
  {
    if t > 0 {
      EmaOfConstant(xs, alpha, t - 1, c);
    }
  }

  datatype Macd = Macd(line: seq<real>, signal: seq<real>, histogram: seq<real>)

  /** `calculate_macd`: fast EMA minus slow EMA, its own EMA as the signal
      line, and their difference as the histogram. */
  function CalculateMacd(close: seq<real>, fast: int, slow: int, signalSpan: int): (m: Macd)
    requires fast >= 1 && slow >= 1 && signalSpan >= 1
    ensures |m.line| == |close| && |m.signal| == |close| && |m.histogram| == |close|
    ensures forall t :: 0 <= t < |close| ==>
              m.line[t] == EmaAt(close, Alpha(fast), t) - EmaAt(close, Alpha(slow), t)
    ensures forall t :: 0 <= t < |close| ==> m.signal[t] == EmaAt(m.line, Alpha(signalSpan), t)
    ensures forall t :: 0 <= t < |close| ==> m.histogram[t] == m.line[t] - m.signal[t]
  {
    var emaFast := Ema(close, Alpha(fast));
    var emaSlow := Ema(close, Alpha(slow));
    var line := seq(|close|, t requires 0 <= t < |close| => emaFast[t] - emaSlow[t]);
    var signal := Ema(line, Alpha(signalSpan));
    Macd(line, signal, seq(|close|, t requires 0 <= t < |close| => line[t] - signal[t]))
  }

  /** If every close lies in [lo, hi], the MACD line and the signal line lie
      within the width of that range, and the histogram within twice it. */
  lemma MacdBounded(close: seq<real>, fast: int, slow: int, signalSpan: int, lo: real, hi: real, t: nat)
    requires fast >= 1 && slow >= 1 && signalSpan >= 1
    requires t < |close| && forall j :: 0 <= j < |close| ==> lo <= close[j] <= hi
    ensures var m := CalculateMacd(close, fast, slow, signalSpan);
            Abs(m.line[t]) <= hi - lo && Abs(m.signal[t]) <= hi - lo && Abs(m.histogram[t]) <= 2.0 * (hi - lo)
  {
    var m := CalculateMacd(close, fast, slow, signalSpan);
    forall j | 0 <= j < |close| ensures lo - hi <= m.line[j] <= hi - lo {
      EmaWithinRange(close, Alpha(fast), j, lo, hi);
      EmaWithinRange(close, Alpha(slow), j, lo, hi);
    }
    EmaWithinRange(m.line, Alpha(signalSpan), t, lo - hi, hi - lo);
  }

  /** A flat price series has a zero MACD line, signal line and histogram. */
  lemma MacdOfFlatSeries(close: seq<real>, fast: int, slow: int, signalSpan: int, c: real, t: nat)
    requires fast >= 1 && slow >= 1 && signalSpan >= 1
    requires t < |close| && forall j :: 0 <= j < |close| ==> close[j] == c
    ensures var m := CalculateMacd(close, fast, slow, signalSpan);
            m.line[t] == 0.0 && m.signal[t] == 0.0 && m.histogram[t] == 0.0
  {
    var m := CalculateMacd(close, fast, slow, signalSpan);
    forall j | 0 <= j < |close| ensures m.line[j] == 0.0 {
      EmaOfConstant(close, Alpha(fast), j, c);
      EmaOfConstant(close, Alpha(slow), j, c);
    }
    EmaOfConstant(m.line, Alpha(signalSpan), t, 0.0);
  }

  // ---------------------------------------------------------------------------
  // Interpreters

  /** 'ASIRI ALIM', 'ASIRI SATIM', 'YUKSELIS EGILIMI', 'DUSUS EGILIMI', 'NOTR', 'N/A'. */
  datatype RsiZone = Overbought | Oversold | RisingBias | FallingBias | Neutral | NotAvailable

  datatype RsiReading = RsiReading(signal: Signal, strength: int, zone: RsiZone)

  /** `interpret_rsi`: the zones are tested in the order >= 70, <= 30, > 55,
      < 45; strength is truncated to an int and always within [0, 100]. */
  function InterpretRsi(rsi: Option<real>): (r: RsiReading)
    ensures 0 <= r.strength <= 100
    ensures rsi.None? ==> r == RsiReading(Hold, 0, NotAvailable)
    ensures rsi.Some? ==> var v := rsi.value;
      && (v >= 70.0 ==> r.signal == Sell && r.zone == Overbought && r.strength == Trunc(Min(100.0, (v - 70.0) * 3.0)))
      && (v <= 30.0 ==> r.signal == Buy && r.zone == Oversold && r.strength == Trunc(Min(100.0, (30.0 - v) * 3.0)))
      && (55.0 < v < 70.0 ==> r.signal == HoldBuy && r.zone == RisingBias && r.strength == Trunc((v - 50.0) * 2.0))
      && (30.0 < v < 45.0 ==> r.signal == HoldSell && r.zone == FallingBias && r.strength == Trunc((50.0 - v) * 2.0))
      && (45.0 <= v <= 55.0 ==> r == RsiReading(Hold, 0, Neutral))
  {
    match rsi
    case None => RsiReading(Hold, 0, NotAvailable)
    case Some(v) =>
      if v >= 70.0 then RsiReading(Sell, Trunc(Min(100.0, (v - 70.0) * 3.0)), Overbought)
      else if v <= 30.0 then RsiReading(Buy, Trunc(Min(100.0, (30.0 - v) * 3.0)), Oversold)
      else if v > 55.0 then RsiReading(HoldBuy, Trunc((v - 50.0) * 2.0), RisingBias)
      else if v < 45.0 then RsiReading(HoldSell, Trunc((50.0 - v) * 2.0), FallingBias)
      else RsiReading(Hold, 0, Neutral)
  }

  /** The RSI table is symmetric about 50: reading 100 - v gives the mirrored
      signal with the same strength. */
  lemma InterpretRsiMirror(v: real)
    ensures InterpretRsi(Some(100.0 - v)).signal == Mirror(InterpretRsi(Some(v)).signal)
    ensures InterpretRsi(Some(100.0 - v)).strength == InterpretRsi(Some(v)).strength
  {
    if v >= 70.0 {
      assert 30.0 - (100.0 - v) == v - 70.0;
    } else if v <= 30.0 {
      assert (100.0 - v) - 70.0 == 30.0 - v;
    } else if v > 55.0 {
      assert 50.0 - (100.0 - v) == v - 50.0;
    } else if v < 45.0 {
      assert (100.0 - v) - 50.0 == 50.0 - v;
    }
  }

  datatype Crossover = Bullish | Bearish | NoCrossover

  /** The description's region: crossover, both lines positive, both negative
      or neither; `NoMacdData` is the reading without MACD values. */
  datatype MacdRegion = CrossoverRegion | PositiveRegion | NegativeRegion | NeutralRegion | NoMacdData

  datatype MacdReading = MacdReading(signal: Signal, strength: int, crossover: Crossover, region: MacdRegion)

  /** `interpret_macd`. A crossover needs both previous values; without one the
      reading is HOLD_BUY or HOLD_SELL with strength `min(50, |histogram| * 10)`. */
  function InterpretMacd(macd: Option<real>, signal: Option<real>, histogram: real,
                         prevMacd: Option<real>, prevSignal: Option<real>): (r: MacdReading)
    ensures 0 <= r.strength <= 80
    ensures macd.None? || signal.None? ==> r == MacdReading(Hold, 0, NoCrossover, NoMacdData)
    ensures macd.Some? && signal.Some? ==>
      var m, s := macd.value, signal.value;
      var crossing := prevMacd.Some? && prevSignal.Some?;
      && (r.crossover == Bullish <==> crossing && m > s && prevMacd.value <= prevSignal.value)
      && (r.crossover == Bearish <==> crossing && m < s && prevMacd.value >= prevSignal.value)
      && (r.crossover == Bullish ==> r.signal == Buy && r.strength == 80)
      && (r.crossover == Bearish ==> r.signal == Sell && r.strength == 80)
      && (r.crossover != NoCrossover <==> r.region == CrossoverRegion)
      && (r.crossover == NoCrossover ==>
            r.region == (if m > 0.0 && s > 0.0 then PositiveRegion
                         else if m < 0.0 && s < 0.0 then NegativeRegion else NeutralRegion)
            && r.signal == (if m > s then HoldBuy else HoldSell)
            && r.strength == Trunc(Min(50.0, Abs(histogram) * 10.0)) && r.strength <= 50)
  {
    if macd.None? || signal.None? then MacdReading(Hold, 0, NoCrossover, NoMacdData)
    else
      var m, s := macd.value, signal.value;
      var trendStrength := Trunc(Min(50.0, Abs(histogram) * 10.0));
      var region := if m > 0.0 && s > 0.0 then PositiveRegion
                    else if m < 0.0 && s < 0.0 then NegativeRegion
                    else NeutralRegion;
      if prevMacd.Some? && prevSignal.Some? && m > s && prevMacd.value <= prevSignal.value then
        MacdReading(Buy, 80, Bullish, CrossoverRegion)
      else if prevMacd.Some? && prevSignal.Some? && m < s && prevMacd.value >= prevSignal.value then
        MacdReading(Sell, 80, Bearish, CrossoverRegion)
      else if m > s then MacdReading(HoldBuy, trendStrength, NoCrossover, region)
      else MacdReading(HoldSell, trendStrength, NoCrossover, region)
  }
}
