/** Bollinger bands of src/indicators/volatility.py and their reading. */
module Volatility {
  import opened Common
  import opened Signals
  import Trend

  datatype Bands = Bands(upper: seq<Option<real>>, middle: seq<Option<real>>, lower: seq<Option<real>>)

  /** `middle ± rolling_std * std_dev`, undefined wherever the middle band or
      the deviation is. */
  function Band(middle: Option<real>, std: Option<real>, k: real, sign: real): (b: Option<real>)
    ensures b.Some? <==> middle.Some? && std.Some?
  {
    if middle.Some? && std.Some? then Some(middle.value + sign * std.value * k) else None
  }

  /** `calculate_bollinger_bands`: the middle band is the SMA of the period;
      `std` is the rolling standard deviation, given per row. */
  function CalculateBollingerBands(close: seq<real>, period: nat, k: real, std: seq<Option<real>>): (b: Bands)
    requires period >= 1 && |std| == |close|
    ensures |b.upper| == |b.middle| == |b.lower| == |close|
    ensures b.middle == Trend.MaSeries(close, period, Trend.Simple)
    ensures forall t :: 0 <= t < |close| ==>
              (b.upper[t].Some? <==> b.middle[t].Some? && std[t].Some?) && (b.lower[t].Some? <==> b.upper[t].Some?)
    ensures forall t :: 0 <= t < |close| && b.upper[t].Some? ==>
              b.upper[t].value - b.middle[t].value == std[t].value * k
              && b.middle[t].value - b.lower[t].value == std[t].value * k
  {
    var middle := Trend.MaSeries(close, period, Trend.Simple);
    Bands(seq(|close|, t requires 0 <= t < |close| => Band(middle[t], std[t], k, 1.0)),
          middle,
          seq(|close|, t requires 0 <= t < |close| => Band(middle[t], std[t], k, -1.0)))
  }

  /** With a non-negative deviation and multiplier the bands are ordered and
      the middle band sits half-way between the outer ones. */
  lemma BandsOrdered(close: seq<real>, period: nat, k: real, std: seq<Option<real>>, t: nat)
    requires period >= 1 && |std| == |close| && t < |close| && k >= 0.0
    requires std[t].Some? ==> std[t].value >= 0.0
    ensures var b := CalculateBollingerBands(close, period, k, std);
            b.upper[t].Some? ==>
              b.lower[t].value <= b.middle[t].value <= b.upper[t].value
              && b.upper[t].value - b.middle[t].value == b.middle[t].value - b.lower[t].value
  {
    var b := CalculateBollingerBands(close, period, k, std);
    if b.upper[t].Some? {
      assert std[t].value * k >= 0.0;
    }
  }

  /** `((price - lower) / (upper - lower)) * 100` as numpy computes it. */
  function PricePosition(price: real, upper: real, lower: real): (p: Extended)
    ensures upper != lower ==> p == Finite((price - lower) / (upper - lower) * 100.0)
    ensures upper == lower ==> p == Quotient(price - lower, 0.0)
  {
    match Quotient(price - lower, upper - lower)
    case Finite(q) => Finite(q * 100.0)
    case other => other
  }

  /** The position is 0 at the lower band and 100 at the upper band, and it
      grows with the price. */
  lemma PricePositionLinear(p1: real, p2: real, upper: real, lower: real)
    requires upper > lower && p1 <= p2
    ensures PricePosition(lower, upper, lower) == Finite(0.0)
    ensures PricePosition(upper, upper, lower) == Finite(100.0)
    ensures PricePosition(p1, upper, lower).value <= PricePosition(p2, upper, lower).value
  {
    var w := upper - lower;
    assert (upper - lower) / w == 1.0;
    assert (p1 - lower) / w <= (p2 - lower) / w;
  }

  lemma ComplementQuotient(a: real, w: real)
    requires w > 0.0
    ensures (w - a) / w == 1.0 - a / w
  {
    var x, y := (w - a) / w, 1.0 - a / w;
    assert x * w == w - a;
    assert (a / w) * w == a;
    assert y * w == w - a;
    if x < y {
      MulPositive(y - x, w);
    } else if x > y {
      MulPositive(x - y, w);
    }
  }

  /** numpy comparisons against a threshold, where NaN compares false. */
  predicate AtLeast(x: Extended, c: real) { x == PlusInfinity || (x.Finite? && x.value >= c) }
  predicate AtMost(x: Extended, c: real) { x == MinusInfinity || (x.Finite? && x.value <= c) }
  predicate Above(x: Extended, c: real) { x == PlusInfinity || (x.Finite? && x.value > c) }
  predicate Below(x: Extended, c: real) { x == MinusInfinity || (x.Finite? && x.value < c) }

  /** 'UST BAND - ASIRI ALIM', 'ALT BAND - ASIRI SATIM', 'UST BOLGE', 'ALT BOLGE',
      'ORTA UST - YUKSELIS', 'ORTA ALT - DUSUS', 'N/A'. */
  datatype BandZone = UpperBand | LowerBand | UpperRegion | LowerRegion | MiddleUpper | MiddleLower | NotAvailable

  datatype BbReading = BbReading(signal: Signal, strength: int, zone: BandZone)

  /** `interpret_bollinger_bands`. */
  function InterpretBollingerBands(price: real, upper: Option<real>, middle: Option<real>, lower: Option<real>): (r: BbReading)
    ensures r.strength in {0, 20, 40, 70}
    ensures upper.None? || middle.None? || lower.None? ==> r == BbReading(Hold, 0, NotAvailable)
    ensures upper.Some? && middle.Some? && lower.Some? ==>
      var pos := PricePosition(price, upper.value, lower.value);
      && (AtLeast(pos, 95.0) ==> r == BbReading(Sell, 70, UpperBand))
      && (!AtLeast(pos, 95.0) && AtMost(pos, 5.0) ==> r == BbReading(Buy, 70, LowerBand))
      && (!AtLeast(pos, 95.0) && !AtMost(pos, 5.0) && Above(pos, 70.0) ==> r == BbReading(HoldSell, 40, UpperRegion))
      && (!AtMost(pos, 5.0) && !Above(pos, 70.0) && Below(pos, 30.0) ==> r == BbReading(HoldBuy, 40, LowerRegion))
      && (!Above(pos, 70.0) && !Below(pos, 30.0) && !AtLeast(pos, 95.0) && !AtMost(pos, 5.0) ==>
            r == (if price > middle.value then BbReading(HoldBuy, 20, MiddleUpper) else BbReading(HoldSell, 20, MiddleLower)))
  {
    if upper.None? || middle.None? || lower.None? then BbReading(Hold, 0, NotAvailable)
    else
      var pos := PricePosition(price, upper.value, lower.value);
      if AtLeast(pos, 95.0) then BbReading(Sell, 70, UpperBand)
      else if AtMost(pos, 5.0) then BbReading(Buy, 70, LowerBand)
      else if Above(pos, 70.0) then BbReading(HoldSell, 40, UpperRegion)
      else if Below(pos, 30.0) then BbReading(HoldBuy, 40, LowerRegion)
      else if price > middle.value then BbReading(HoldBuy, 20, MiddleUpper)
      else BbReading(HoldSell, 20, MiddleLower)
  }

  /** A price exactly on the middle band of proper bands reads HOLD_SELL. */
  lemma PriceOnMiddleBand(upper: real, middle: real, lower: real)
    requires lower < middle < upper && upper - middle == middle - lower
    ensures InterpretBollingerBands(middle, Some(upper), Some(middle), Some(lower)) == BbReading(HoldSell, 20, MiddleLower)
  {
    var h := upper - middle;
    assert (middle - lower) / (upper - lower) == 0.5 by {
      assert upper - lower == 2.0 * h;
    }
  }

  /** Reflecting the price through the middle of symmetric bands mirrors the
      signal and keeps the strength, except for a price on the middle band. */
  lemma InterpretBollingerMirror(price: real, upper: real, middle: real, lower: real)
    requires lower < upper && upper - middle == middle - lower && price != middle
    ensures var r := InterpretBollingerBands(price, Some(upper), Some(middle), Some(lower));
            var m := InterpretBollingerBands(2.0 * middle - price, Some(upper), Some(middle), Some(lower));
            m.signal == Mirror(r.signal) && m.strength == r.strength
  {
    var w := upper - lower;
    var q := (price - lower) / w;
    var q' := (2.0 * middle - price - lower) / w;
    assert 2.0 * middle - price - lower == w - (price - lower);
    ComplementQuotient(price - lower, w);
    assert PricePosition(2.0 * middle - price, upper, lower) == Finite(100.0 - q * 100.0);
  }
}
