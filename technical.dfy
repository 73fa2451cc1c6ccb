/** The technical analysis engine of src/analysis/technical.py: running the
    five indicators over one price series, each isolated from the others'
    failures, and folding their signals into one verdict. */
module Technical {
  import opened Common
  import opened Signals
  import Momentum
  import Trend
  import Volatility
  import VolumeAnalysis

  /** A fetched price frame: closes, the Volume column when present, and the
      20-row rolling standard deviation of the closes (which needs a square
      root and so is given, one entry per row, NaN as None). */
  datatype PriceData = PriceData(close: seq<real>, volume: Option<seq<real>>, closeStd20: seq<Option<real>>)

  predicate WellFormed(d: PriceData)
  {
    |d.closeStd20| == |d.close| && (d.volume.Some? ==> |d.volume.value| == |d.close|)
  }

  /** The keys of `results['indicators']`, in the order they are computed. */
  datatype Indicator = Rsi | MacdIndicator | Bollinger | MovingAverages | Volume

  const Order: seq<Indicator> := [Rsi, MacdIndicator, Bollinger, MovingAverages, Volume]

  /** What an indicator's slot holds: its interpretation, or `{'error': ...}`. */
  datatype IndicatorOutcome =
    | RsiOut(rsi: Momentum.RsiReading)
    | MacdOut(macd: Momentum.MacdReading)
    | BollingerOut(bands: Volatility.BbReading)
    | MovingAveragesOut(mas: Trend.MaReading, cross: Trend.CrossResult)
    | VolumeOut(volume: VolumeAnalysis.VolumeReading)
    | Failed(error: Failure)

  /** One entry of `results['signals']`. */
  datatype SignalEntry = SignalEntry(indicator: Indicator, signal: Signal, strength: int)

  /** A successful indicator run: its slot content and the signal it contributes. */
  datatype Reading = Reading(outcome: IndicatorOutcome, signal: Signal, strength: int)

  datatype Analysis = Analysis(symbol: string, currentPrice: real, indicators: map<Indicator, IndicatorOutcome>,
                               signals: seq<SignalEntry>)

  // ---------------------------------------------------------------------------
  // The five indicator runs, as functions of the frame

  /** The defined SMA values at the last row for the periods 20, 50 and 200,
      in sorted order (`ma_values` drops the NaN ones): exactly the pairs of
      one of the three periods with its defined last SMA. */
  function LastMaValues(close: seq<real>): (items: seq<(int, Option<real>)>)
    requires close != []
    ensures Trend.SortedByPeriod(items)
    ensures forall i :: 0 <= i < |items| ==> items[i].1.Some?
    ensures forall e :: e in items <==>
              (e.0 == 20 || e.0 == 50 || e.0 == 200) && e.1.Some? && e.1 == Trend.Sma(close, e.0, |close| - 1)
  {
    var n := |close|;
    var all := [(20, Trend.Sma(close, 20, n - 1)), (50, Trend.Sma(close, 50, n - 1)), (200, Trend.Sma(close, 200, n - 1))];
    DefinedOfThree(all[0], all[1], all[2]);
    Defined(all)
  }

  /** The defined entries of a three-entry list, as a set of pairs. */
  lemma DefinedOfThree(a: (int, Option<real>), b: (int, Option<real>), c: (int, Option<real>))
    ensures forall e :: e in Defined([a, b, c]) <==> (e == a || e == b || e == c) && e.1.Some?
  {
    var all := [a, b, c];
    assert forall e :: e in all <==> e == all[0] || e == all[1] || e == all[2];
  }

  function Defined(items: seq<(int, Option<real>)>): (r: seq<(int, Option<real>)>)
    ensures forall i :: 0 <= i < |r| ==> r[i].1.Some?
    ensures forall x :: x in r <==> x in items && x.1.Some?
    ensures Trend.SortedByPeriod(items) ==> Trend.SortedByPeriod(r)
  {
    if items == [] then []
    else
      var rest := Defined(items[1..]);
      assert forall x :: x in items <==> x == items[0] || x in items[1..];
      if items[0].1.Some? then [items[0]] + rest else rest
  }

  /** The reading `interpret_moving_averages` returns for a price and sorted averages. */
  function MaReadingOf(price: real, items: seq<(int, Option<real>)>): Trend.MaReading
  {
    var net := Trend.NetStrength(price, items);
    var band := Trend.TrendBand(net);
    Trend.MaReading(band.0, if net < 0 then -net else net, band.1, Trend.Positions(price, items))
  }

  /** What each `try` block produces on a non-empty frame. Only the volume
      block can raise here: every other indicator yields HOLD on missing data. */
  function AttemptFor(d: PriceData, name: Indicator): (a: Result<Reading>)
    requires WellFormed(d) && d.close != []
    ensures a.Err? ==> name == Volume
  {
    match name
    case Rsi => RsiAttempt(d)
    case MacdIndicator => MacdAttempt(d)
    case Bollinger => BollingerAttempt(d)
    case MovingAverages => MaAttempt(d)
    case Volume => VolumeAttempt(d)
  }

  /** `interpret_rsi` of the last 14-period RSI value. */
  function RsiAttempt(d: PriceData): (a: Result<Reading>)
    requires WellFormed(d) && d.close != []
    ensures a.Ok?
  {
    var r := Momentum.InterpretRsi(Momentum.RsiAt(d.close, 14, |d.close| - 1));
    Ok(Reading(RsiOut(r), r.signal, r.strength))
  }

  /** `interpret_macd` of the last 12/26/9 MACD values, with the previous
      ones when there are two rows. */
  function MacdAttempt(d: PriceData): (a: Result<Reading>)
    requires WellFormed(d) && d.close != []
    ensures a.Ok?
  {
    var n := |d.close|;
    var m := Momentum.CalculateMacd(d.close, 12, 26, 9);
    var r := Momentum.InterpretMacd(Some(m.line[n - 1]), Some(m.signal[n - 1]), m.histogram[n - 1],
                                    if n > 1 then Some(m.line[n - 2]) else None,
                                    if n > 1 then Some(m.signal[n - 2]) else None);
    Ok(Reading(MacdOut(r), r.signal, r.strength))
  }

  /** `interpret_bollinger_bands` of the last row of the 20-period, 2-deviation bands. */
  function BollingerAttempt(d: PriceData): (a: Result<Reading>)
    requires WellFormed(d) && d.close != []
    ensures a.Ok?
  {
    var n := |d.close|;
    var b := Volatility.CalculateBollingerBands(d.close, 20, 2.0, d.closeStd20);
    var r := Volatility.InterpretBollingerBands(d.close[n - 1], b.upper[n - 1], b.middle[n - 1], b.lower[n - 1]);
    Ok(Reading(BollingerOut(r), r.signal, r.strength))
  }

  /** The reading of the last close against the defined 20/50/200 SMAs, and
      the 50/200 cross over a 10-row lookback. */
  function MaAttempt(d: PriceData): (a: Result<Reading>)
    requires WellFormed(d) && d.close != []
    ensures a.Ok?
  {
    var r := MaReadingOf(d.close[|d.close| - 1], LastMaValues(d.close));
    var cross := Trend.DetectMaCross(Trend.MaSeries(d.close, 50, Trend.Simple), Trend.MaSeries(d.close, 200, Trend.Simple), 10);
    Ok(Reading(MovingAveragesOut(r, cross), r.signal, r.strength))
  }

  /** `analyze_volume` with its defaults (20-row average, threshold 1.5). */
  function VolumeAttempt(d: PriceData): (a: Result<Reading>)
    requires WellFormed(d) && d.close != []
    ensures a.Err? <==> d.volume.Some? && |d.close| < 20
  {
    match VolumeAnalysis.AnalyzeVolume(d.volume, d.close, 20, 1.5)
    case Ok(r) => Ok(Reading(VolumeOut(r), r.signal, r.strength))
    case Err(e) => Err(e)
  }

  /** The slot content of an attempt: the reading, or the error it raised. */
  function Slot(a: Result<Reading>): IndicatorOutcome
  {
    if a.Ok? then a.value.outcome else Failed(a.error)
  }

  /** The five attempts in the order `analyze_stock` makes them. */
  function Attempts(d: PriceData): (atts: seq<(Indicator, Result<Reading>)>)
    requires WellFormed(d) && d.close != []
    ensures |atts| == 5 && forall i :: 0 <= i < 5 ==> atts[i].0 == Order[i] && atts[i].1 == AttemptFor(d, Order[i])
  {
    [(Rsi, AttemptFor(d, Rsi)), (MacdIndicator, AttemptFor(d, MacdIndicator)), (Bollinger, AttemptFor(d, Bollinger)),
     (MovingAverages, AttemptFor(d, MovingAverages)), (Volume, AttemptFor(d, Volume))]
  }

  /** The signals appended by a series of attempts, in order; a failed
      attempt appends nothing. */
  function SignalsFrom(atts: seq<(Indicator, Result<Reading>)>): (sigs: seq<SignalEntry>)
    ensures |sigs| <= |atts|
  {
    if atts == [] then []
    else
      var (name, a) := atts[|atts| - 1];
      SignalsFrom(atts[..|atts| - 1]) + (if a.Ok? then [SignalEntry(name, a.value.signal, a.value.strength)] else [])
  }

  /** The `indicators` dictionary after a series of attempts. */
  function SlotsFrom(atts: seq<(Indicator, Result<Reading>)>): map<Indicator, IndicatorOutcome>
  {
    if atts == [] then map[] else SlotsFrom(atts[..|atts| - 1])[atts[|atts| - 1].0 := Slot(atts[|atts| - 1].1)]
  }

  /** The indicators the signals come from. */
  function Sources(sigs: seq<SignalEntry>): (r: seq<Indicator>)
    ensures |r| == |sigs|
  {
    if sigs == [] then [] else Sources(sigs[..|sigs| - 1]) + [sigs[|sigs| - 1].indicator]
  }

  /** After the attempts of distinct indicators, each one's slot holds its
      own outcome, failed or not. */
  lemma {:induction false} SlotsHoldOutcomes(atts: seq<(Indicator, Result<Reading>)>)
    requires forall i, j :: 0 <= i < j < |atts| ==> atts[i].0 != atts[j].0
    ensures forall i :: 0 <= i < |atts| ==> atts[i].0 in SlotsFrom(atts) && SlotsFrom(atts)[atts[i].0] == Slot(atts[i].1)
    ensures forall name :: name in SlotsFrom(atts) ==> exists i :: 0 <= i < |atts| && atts[i].0 == name
  {
    if atts != [] {
      var init, last := atts[..|atts| - 1], atts[|atts| - 1];
      SlotsHoldOutcomes(init);
      assert forall i :: 0 <= i < |init| ==> init[i] == atts[i];
    }
  }

  /** The successful attempts' signals come in attempt order. */
  lemma {:induction false} SourcesOfSignals(atts: seq<(Indicator, Result<Reading>)>)
    ensures Sources(SignalsFrom(atts)) == OkNames(atts)
  {
    if atts != [] {
      var init := atts[..|atts| - 1];
      SourcesOfSignals(init);
      var last := atts[|atts| - 1];
      if last.1.Ok? {
        var sigs := SignalsFrom(init) + [SignalEntry(last.0, last.1.value.signal, last.1.value.strength)];
        assert SignalsFrom(atts) == sigs;
        assert sigs[..|sigs| - 1] == SignalsFrom(init);
        assert Sources(sigs) == Sources(SignalsFrom(init)) + [last.0];
      } else {
        assert SignalsFrom(atts) == SignalsFrom(init);
      }
    }
  }

  /** The names of the successful attempts, in order. */
  function OkNames(atts: seq<(Indicator, Result<Reading>)>): seq<Indicator>
  {
    if atts == [] then [] else OkNames(atts[..|atts| - 1]) + (if atts[|atts| - 1].1.Ok? then [atts[|atts| - 1].0] else [])
  }

  /** Five attempts in the order of `analyze_stock` of which only the last may
      fail yield the signals of the first four indicators, then the volume one
      when it succeeded. */
  lemma {:induction false} OkNamesOfFive(atts: seq<(Indicator, Result<Reading>)>)
    requires |atts| == 5
    requires atts[0].0 == Rsi && atts[1].0 == MacdIndicator && atts[2].0 == Bollinger
             && atts[3].0 == MovingAverages && atts[4].0 == Volume
    requires atts[0].1.Ok? && atts[1].1.Ok? && atts[2].1.Ok? && atts[3].1.Ok?
    ensures OkNames(atts) == if atts[4].1.Ok? then [Rsi, MacdIndicator, Bollinger, MovingAverages, Volume]
                             else [Rsi, MacdIndicator, Bollinger, MovingAverages]
  {
    assert atts[..1][..0] == [];
    assert OkNames(atts[..1]) == [Rsi];
    assert atts[..2][..1] == atts[..1];
    assert OkNames(atts[..2]) == [Rsi, MacdIndicator];
    assert atts[..3][..2] == atts[..2];
    assert OkNames(atts[..3]) == [Rsi, MacdIndicator, Bollinger];
    assert atts[..4][..3] == atts[..3];
    assert OkNames(atts[..4]) == [Rsi, MacdIndicator, Bollinger, MovingAverages];
    assert atts[..4] == atts[..|atts| - 1];
    if atts[4].1.Ok? {
      assert OkNames(atts) == OkNames(atts[..4]) + [Volume];
    } else {
      assert OkNames(atts) == OkNames(atts[..4]);
    }
  }

  /** Five attempts named in the order of `analyze_stock` leave each slot
      holding its own attempt's outcome. */
  lemma FiveSlots(atts: seq<(Indicator, Result<Reading>)>)
    requires |atts| == 5 && forall i :: 0 <= i < 5 ==> atts[i].0 == Order[i]
    ensures forall i :: 0 <= i < 5 ==> atts[i].0 in SlotsFrom(atts) && SlotsFrom(atts)[atts[i].0] == Slot(atts[i].1)
  {
    SlotsHoldOutcomes(atts);
  }

  /** Every indicator gets a slot holding its outcome, failed or not. */
  lemma AnalysisSlots(d: PriceData)
    requires WellFormed(d) && d.close != []
    ensures forall name :: name in SlotsFrom(Attempts(d)) && SlotsFrom(Attempts(d))[name] == Slot(AttemptFor(d, name))
  {
    var atts := Attempts(d);
    FiveSlots(atts);
    forall name ensures name in SlotsFrom(atts) && SlotsFrom(atts)[name] == Slot(AttemptFor(d, name)) {
      var i := match name case Rsi => 0 case MacdIndicator => 1 case Bollinger => 2 case MovingAverages => 3 case Volume => 4;
      assert Order[i] == name;
    }
  }

  /** The signals come in the order RSI, MACD, Bollinger, moving averages,
      volume, the volume one missing exactly when its block raised. */
  lemma AnalysisSources(d: PriceData)
    requires WellFormed(d) && d.close != []
    ensures Sources(SignalsFrom(Attempts(d))) == if d.volume.Some? && |d.close| < 20 then Order[..4] else Order
  {
    var atts := Attempts(d);
    assert atts[4].1.Err? <==> d.volume.Some? && |d.close| < 20 by {
      assert atts[4].1 == AttemptFor(d, Volume) == VolumeAttempt(d);
    }
    SourcesOfSignals(atts);
    OkNamesOfFive(atts);
    assert Order[..4] == [Rsi, MacdIndicator, Bollinger, MovingAverages];
  }

  // ---------------------------------------------------------------------------
  // analyze_stock

  /** One `try` block's bookkeeping: the slot always, the signal only on success. */
  method Record(indicators: map<Indicator, IndicatorOutcome>, signals: seq<SignalEntry>, name: Indicator, a: Result<Reading>,
                ghost done: seq<(Indicator, Result<Reading>)>)
    returns (indicators': map<Indicator, IndicatorOutcome>, signals': seq<SignalEntry>)
    requires indicators == SlotsFrom(done) && signals == SignalsFrom(done)
    ensures indicators' == SlotsFrom(done + [(name, a)]) && signals' == SignalsFrom(done + [(name, a)])
  {
    assert (done + [(name, a)])[..|done|] == done;
    if a.Ok? {
      indicators' := indicators[name := a.value.outcome];
      signals' := signals + [SignalEntry(name, a.value.signal, a.value.strength)];
    } else {
      indicators' := indicators[name := Failed(a.error)];
      signals' := signals;
    }
  }

  /** Block 1 of `analyze_stock`: `calculate_rsi` and `interpret_rsi` on the last value. */
  method RunRsi(d: PriceData) returns (a: Result<Reading>)
    requires WellFormed(d) && d.close != []
    ensures a == RsiAttempt(d)
  {
    var n := |d.close|;
    var rsi := Momentum.CalculateRsi(d.close, 14);
    var reading := Momentum.InterpretRsi(rsi[n - 1]);
    a := Ok(Reading(RsiOut(reading), reading.signal, reading.strength));
  }

  /** Block 2: `calculate_macd` and `interpret_macd`, with the previous values when there are two rows. */
  method RunMacd(d: PriceData) returns (a: Result<Reading>)
    requires WellFormed(d) && d.close != []
    ensures a == MacdAttempt(d)
  {
    var n := |d.close|;
    var m := Momentum.CalculateMacd(d.close, 12, 26, 9);
    var reading := Momentum.InterpretMacd(Some(m.line[n - 1]), Some(m.signal[n - 1]), m.histogram[n - 1],
                                          if n > 1 then Some(m.line[n - 2]) else None,
                                          if n > 1 then Some(m.signal[n - 2]) else None);
    a := Ok(Reading(MacdOut(reading), reading.signal, reading.strength));
  }

  /** Block 3: `calculate_bollinger_bands` and `interpret_bollinger_bands` on the last row. */
  method RunBollinger(d: PriceData) returns (a: Result<Reading>)
    requires WellFormed(d) && d.close != []
    ensures a == BollingerAttempt(d)
  {
    var n := |d.close|;
    var b := Volatility.CalculateBollingerBands(d.close, 20, 2.0, d.closeStd20);
    var reading := Volatility.InterpretBollingerBands(d.close[n - 1], b.upper[n - 1], b.middle[n - 1], b.lower[n - 1]);
    a := Ok(Reading(BollingerOut(reading), reading.signal, reading.strength));
  }

  /** `calculate_moving_averages(df, [20, 50, 200], 'SMA')`, unpacked. */
  method SmaTable(close: seq<real>) returns (s20: seq<Option<real>>, s50: seq<Option<real>>, s200: seq<Option<real>>)
    ensures s20 == Trend.MaSeries(close, 20, Trend.Simple)
    ensures s50 == Trend.MaSeries(close, 50, Trend.Simple)
    ensures s200 == Trend.MaSeries(close, 200, Trend.Simple)
  {
    assert Upper("SMA") == "SMA";
    var mas := Trend.CalculateMovingAverages(close, [20, 50, 200], "SMA");
    assert 20 in [20, 50, 200] && 50 in [20, 50, 200] && 200 in [20, 50, 200];
    s20, s50, s200 := mas.value[20], mas.value[50], mas.value[200];
  }

  /** Block 4: the 20/50/200 SMAs, their reading at the last row, and the
      50/200 cross over a 10-row lookback. */
  method RunMovingAverages(d: PriceData) returns (a: Result<Reading>)
    requires WellFormed(d) && d.close != []
    ensures a == MaAttempt(d)
  {
    var close := d.close;
    var n := |close|;
    var s20, s50, s200 := SmaTable(close);
    var items := Defined([(20, s20[n - 1]), (50, s50[n - 1]), (200, s200[n - 1])]);
    assert items == LastMaValues(close);
    var reading := Trend.InterpretMovingAverages(close[n - 1], items);
    assert reading == MaReadingOf(close[n - 1], items);
    var cross := Trend.DetectMaCross(s50, s200, 10);
    a := Ok(Reading(MovingAveragesOut(reading, cross), reading.signal, reading.strength));
  }

  /** Block 5: `analyze_volume` with its defaults; its errors land in the slot. */
  method RunVolume(d: PriceData) returns (a: Result<Reading>)
    requires WellFormed(d) && d.close != []
    ensures a == VolumeAttempt(d)
  {
    var volume := VolumeAnalysis.AnalyzeVolume(d.volume, d.close, 20, 1.5);
    if volume.Ok? {
      a := Ok(Reading(VolumeOut(volume.value), volume.value.signal, volume.value.strength));
    } else {
      a := Err(volume.error);
    }
  }

  /** One `try` block of `analyze_stock`: run the named indicator, then record it. */
  method RunBlock(d: PriceData, name: Indicator, indicators: map<Indicator, IndicatorOutcome>, signals: seq<SignalEntry>,
                  ghost done: seq<(Indicator, Result<Reading>)>)
    returns (indicators': map<Indicator, IndicatorOutcome>, signals': seq<SignalEntry>)
    requires WellFormed(d) && d.close != []
    requires indicators == SlotsFrom(done) && signals == SignalsFrom(done)
    ensures indicators' == SlotsFrom(done + [(name, AttemptFor(d, name))])
    ensures signals' == SignalsFrom(done + [(name, AttemptFor(d, name))])
  {
    var a: Result<Reading>;
    match name {
      case Rsi => a := RunRsi(d);
      case MacdIndicator => a := RunMacd(d);
      case Bollinger => a := RunBollinger(d);
      case MovingAverages => a := RunMovingAverages(d);
      case Volume => a := RunVolume(d);
    }
    indicators', signals' := Record(indicators, signals, name, a, done);
  }

  /** The five `try` blocks of `analyze_stock`, in order. */
  method RunBlocks(d: PriceData) returns (indicators: map<Indicator, IndicatorOutcome>, signals: seq<SignalEntry>)
    requires WellFormed(d) && d.close != []
    ensures indicators == SlotsFrom(Attempts(d)) && signals == SignalsFrom(Attempts(d))
  {
    indicators, signals := map[], [];
    ghost var done: seq<(Indicator, Result<Reading>)> := [];
    indicators, signals := RunBlock(d, Rsi, indicators, signals, done);
    done := done + [(Rsi, AttemptFor(d, Rsi))];
    indicators, signals := RunBlock(d, MacdIndicator, indicators, signals, done);
    done := done + [(MacdIndicator, AttemptFor(d, MacdIndicator))];
    indicators, signals := RunBlock(d, Bollinger, indicators, signals, done);
    done := done + [(Bollinger, AttemptFor(d, Bollinger))];
    indicators, signals := RunBlock(d, MovingAverages, indicators, signals, done);
    done := done + [(MovingAverages, AttemptFor(d, MovingAverages))];
    indicators, signals := RunBlock(d, Volume, indicators, signals, done);
    done := done + [(Volume, AttemptFor(d, Volume))];
    assert done == Attempts(d);
  }

  /** `analyze_stock`: nothing is attempted on a missing or empty frame;
      otherwise the five blocks run in order, each filling its slot and, when
      it succeeds, appending its signal. */
  method AnalyzeStock(data: Option<PriceData>, symbol: string) returns (r: Result<Analysis>)
    requires data.Some? ==> WellFormed(data.value)
    ensures data.None? || data.value.close == [] <==> r.Err?
    ensures r.Err? ==> r.error == NoData
    ensures r.Ok? ==> var d := data.value;
      && r.value.symbol == symbol && r.value.currentPrice == d.close[|d.close| - 1]
      && r.value.indicators == SlotsFrom(Attempts(d))
      && r.value.signals == SignalsFrom(Attempts(d))
  {
    if data.None? || data.value.close == [] {
      return Err(NoData);
    }
    var d := data.value;
    var indicators, signals := RunBlocks(d);
    r := Ok(Analysis(symbol, d.close[|d.close| - 1], indicators, signals));
  }

  // ---------------------------------------------------------------------------
  // generate_signals

  /** The overall verdict, or `NoSignals` ('Yeterli sinyal yok': HOLD with confidence 0). */
  datatype Verdict =
    | NoSignals
    | Verdict(overall: Signal, confidence: int, score: int, buyCount: nat, sellCount: nat, holdCount: nat, avgStrength: int)

  /** The running score: + strength for a BUY-family signal, - strength for a
      SELL-family one; with non-negative strengths it never exceeds their sum. */
  function Score(sigs: seq<SignalEntry>): (s: int)
    ensures (forall i :: 0 <= i < |sigs| ==> sigs[i].strength >= 0) ==> -TotalStrength(sigs) <= s <= TotalStrength(sigs)
  {
    if sigs == [] then 0
    else
      var s := sigs[|sigs| - 1];
      Score(sigs[..|sigs| - 1]) + (if IsBuyFamily(s.signal) then s.strength else if IsSellFamily(s.signal) then -s.strength else 0)
  }

  function BuyCount(sigs: seq<SignalEntry>): (c: nat)
    ensures c <= |sigs|
  {
    if sigs == [] then 0 else BuyCount(sigs[..|sigs| - 1]) + (if IsBuyFamily(sigs[|sigs| - 1].signal) then 1 else 0)
  }

  function SellCount(sigs: seq<SignalEntry>): (c: nat)
    ensures c <= |sigs|
  {
    if sigs == [] then 0 else SellCount(sigs[..|sigs| - 1]) + (if IsSellFamily(sigs[|sigs| - 1].signal) then 1 else 0)
  }

  function HoldCount(sigs: seq<SignalEntry>): (c: nat)
    ensures c <= |sigs|
  {
    if sigs == [] then 0
    else
      var s := sigs[|sigs| - 1].signal;
      HoldCount(sigs[..|sigs| - 1]) + (if !IsBuyFamily(s) && !IsSellFamily(s) then 1 else 0)
  }

  /** The summed strengths: within [0, 100 · |sigs|] when every strength is within [0, 100]. */
  function TotalStrength(sigs: seq<SignalEntry>): (t: int)
    ensures (forall i :: 0 <= i < |sigs| ==> sigs[i].strength >= 0) ==> t >= 0
    ensures (forall i :: 0 <= i < |sigs| ==> sigs[i].strength <= 100) ==> t <= 100 * |sigs|
  {
    if sigs == [] then 0 else TotalStrength(sigs[..|sigs| - 1]) + sigs[|sigs| - 1].strength
  }

  /** Every signal is counted in exactly one of the three counters. */
  lemma {:induction false} CountsPartition(sigs: seq<SignalEntry>)
    ensures BuyCount(sigs) + SellCount(sigs) + HoldCount(sigs) == |sigs|
  {
    if sigs != [] {
      CountsPartition(sigs[..|sigs| - 1]);
    }
  }

  /** The score bands of `generate_signals` and the confidence before `int()`.
      In the BUY and SELL bands the cap of 85 never acts: the confidence there
      is at most 60. */
  function Band(score: int): (b: (Signal, real))
    ensures 30.0 <= b.1 <= 95.0
    ensures (b.0 == StrongBuy <==> score > 100) && (b.0 == StrongSell <==> score < -100)
    ensures (b.0 == Buy <==> 50 < score <= 100) && (b.0 == Sell <==> -100 <= score < -50)
    ensures (b.0 == HoldBuy <==> 0 < score <= 50) && (b.0 == HoldSell <==> -50 <= score < 0)
    ensures b.0 == Hold <==> score == 0
    ensures score > 100 ==> b.1 == Min(95.0, 60.0 + score as real / 10.0)
    ensures 50 < score <= 100 ==> b.1 == 50.0 + score as real / 10.0
    ensures 0 < score <= 50 ==> b.1 == 40.0 + score as real / 5.0
    ensures score == 0 ==> b.1 == 30.0
    ensures -50 <= score < 0 ==> b.1 == 40.0 - score as real / 5.0
    ensures -100 <= score < -50 ==> b.1 == 50.0 - score as real / 10.0
    ensures score < -100 ==> b.1 == Min(95.0, 60.0 - score as real / 10.0)
  {
    var s := score as real;
    if score > 100 then (StrongBuy, Min(95.0, 60.0 + s / 10.0))
    else if score > 50 then (Buy, Min(85.0, 50.0 + s / 10.0))
    else if score > 0 then (HoldBuy, 40.0 + s / 5.0)
    else if score < -100 then (StrongSell, Min(95.0, 60.0 + -s / 10.0))
    else if score < -50 then (Sell, Min(85.0, 50.0 + -s / 10.0))
    else if score < 0 then (HoldSell, 40.0 + -s / 5.0)
    else (Hold, 30.0)
  }

  /** The bands are symmetric: a negated score gives the mirrored signal and
      the same confidence. */
  lemma BandMirror(score: int)
    ensures Band(-score).0 == Mirror(Band(score).0)
    ensures Band(-score).1 == Band(score).1
  {
  }

  function MirrorEntries(sigs: seq<SignalEntry>): (m: seq<SignalEntry>)
    ensures |m| == |sigs|
    ensures forall i :: 0 <= i < |sigs| ==>
              m[i] == SignalEntry(sigs[i].indicator, Mirror(sigs[i].signal), sigs[i].strength)
  {
    seq(|sigs|, i requires 0 <= i < |sigs| => SignalEntry(sigs[i].indicator, Mirror(sigs[i].signal), sigs[i].strength))
  }

  /** Swapping every BUY for SELL negates the score and swaps the counts. */
  lemma {:induction false} ScoreMirror(sigs: seq<SignalEntry>)
    ensures Score(MirrorEntries(sigs)) == -Score(sigs)
    ensures BuyCount(MirrorEntries(sigs)) == SellCount(sigs)
    ensures SellCount(MirrorEntries(sigs)) == BuyCount(sigs)
    ensures TotalStrength(MirrorEntries(sigs)) == TotalStrength(sigs)
  {
    if sigs != [] {
      var init := sigs[..|sigs| - 1];
      assert MirrorEntries(sigs)[..|sigs| - 1] == MirrorEntries(init);
      ScoreMirror(init);
    }
  }

  /** The verdict `generate_signals` reaches on a non-empty signal list. */
  function VerdictOf(sigs: seq<SignalEntry>): (v: Verdict)
    requires sigs != []
    ensures v.Verdict? && 30 <= v.confidence <= 95
    ensures v.buyCount + v.sellCount + v.holdCount == |sigs|
    ensures v.score == Score(sigs) && v.confidence == Trunc(Band(v.score).1)
    ensures (IsBuyFamily(v.overall) <==> v.score > 0) && (IsSellFamily(v.overall) <==> v.score < 0)
    ensures v.overall == Hold <==> v.score == 0
  {
    CountsPartition(sigs);
    var b := Band(Score(sigs));
    Verdict(b.0, Trunc(b.1), Score(sigs), BuyCount(sigs), SellCount(sigs), HoldCount(sigs),
            Trunc(TotalStrength(sigs) as real / |sigs| as real))
  }

  /** Mirroring every signal mirrors the overall signal and keeps the confidence. */
  lemma VerdictMirror(sigs: seq<SignalEntry>)
    requires sigs != []
    ensures VerdictOf(MirrorEntries(sigs)).overall == Mirror(VerdictOf(sigs).overall)
    ensures VerdictOf(MirrorEntries(sigs)).confidence == VerdictOf(sigs).confidence
    ensures VerdictOf(MirrorEntries(sigs)).score == -VerdictOf(sigs).score
  {
    ScoreMirror(sigs);
    BandMirror(Score(sigs));
  }

  /** `generate_signals`: an upstream error passes through, an empty list
      gives HOLD with confidence 0, otherwise the loop's score and counters
      decide the verdict, whose confidence lies in [30, 95]. */
  method GenerateSignals(analysis: Result<Analysis>) returns (v: Result<Verdict>)
    ensures analysis.Err? ==> v == Err(analysis.error)
    ensures analysis.Ok? && analysis.value.signals == [] ==> v == Ok(NoSignals)
    ensures analysis.Ok? && analysis.value.signals != [] ==>
              v == Ok(VerdictOf(analysis.value.signals)) && 30 <= v.value.confidence <= 95
              && v.value.buyCount + v.value.sellCount + v.value.holdCount == |analysis.value.signals|
  {
    if analysis.Err? {
      return Err(analysis.error);
    }
    var sigs := analysis.value.signals;
    if sigs == [] {
      return Ok(NoSignals);
    }
    var score, totalStrength := 0, 0;
    var buyCount, sellCount, holdCount := 0, 0, 0;
    for i := 0 to |sigs|
      invariant score == Score(sigs[..i]) && totalStrength == TotalStrength(sigs[..i])
      invariant buyCount == BuyCount(sigs[..i]) && sellCount == SellCount(sigs[..i]) && holdCount == HoldCount(sigs[..i])
    {
      assert sigs[..i + 1][..i] == sigs[..i];
      var signalType, strength := sigs[i].signal, sigs[i].strength;
      if IsBuyFamily(signalType) {
        score := score + strength;
        buyCount := buyCount + 1;
      } else if IsSellFamily(signalType) {
        score := score - strength;
        sellCount := sellCount + 1;
      } else {
        holdCount := holdCount + 1;
      }
      totalStrength := totalStrength + strength;
    }
    assert sigs[..|sigs|] == sigs;
    CountsPartition(sigs);
    var avgStrength := totalStrength as real / |sigs| as real;
    var (overall, confidence) := Band(score);
    v := Ok(Verdict(overall, Trunc(confidence), score, buyCount, sellCount, holdCount, Trunc(avgStrength)));
  }
}
