/** Volume analysis of src/indicators/volume.py: the volume ratio of the last
    day against its rolling average, its banding, and the half-over-half
    volume trend. */
module VolumeAnalysis {
  import opened Common
  import opened Signals

  /** 'PATLAMA', 'YUKSEK', 'COK DUSUK', 'NORMAL', and 'N/A' without a Volume column. */
  datatype VolumeStatus = NotAvailable | Burst | High | VeryLow | Normal

  datatype VolumeReading = VolumeReading(signal: Signal, strength: int, status: VolumeStatus)

  /** `current / avg if avg > 0 else 1`. */
  function VolumeRatio(current: real, avg: real): (r: real)
    ensures avg > 0.0 ==> r * avg == current
    ensures avg <= 0.0 ==> r == 1.0
    ensures current >= 0.0 ==> r >= 0.0
  {
    if avg > 0.0 then current / avg else 1.0
  }

  /** numpy's `abs(x) > c`: true for either infinity, false for NaN. */
  predicate AbsAbove(x: Extended, c: real)
  {
    x == PlusInfinity || x == MinusInfinity || (x.Finite? && Abs(x.value) > c)
  }

  /** The if/elif banding of `analyze_volume` on the ratio and the last
      price change (absolute and in percent). */
  function VolumeBand(ratio: real, threshold: real, change: real, pct: Extended): (r: VolumeReading)
    ensures ratio >= threshold * 2.0 ==>
              r.status == Burst && r.signal == (if change > 0.0 then Buy else Sell)
              && r.strength == (if Trunc(ratio * 20.0) <= 100 then Trunc(ratio * 20.0) else 100) && r.strength <= 100
    ensures threshold <= ratio && !(ratio >= threshold * 2.0) ==>
              r.status == High && r.signal == (if change > 0.0 then HoldBuy else HoldSell)
              && r.strength == Trunc(ratio * 25.0)
    ensures !(ratio >= threshold * 2.0) && ratio < threshold && ratio < 0.5 ==> r == VolumeReading(Hold, 10, VeryLow)
    ensures !(ratio >= threshold * 2.0) && 0.5 <= ratio < threshold ==>
              r.status == Normal
              && (AbsAbove(pct, 3.0) ==> r.strength == 30 && r.signal == (if change > 0.0 then HoldBuy else HoldSell))
              && (!AbsAbove(pct, 3.0) ==> r.strength == 10 && r.signal == Hold)
    ensures ratio >= 0.0 && threshold <= 2.0 ==> 0 <= r.strength <= 100
  {
    if ratio >= threshold * 2.0 then
      var s := Trunc(ratio * 20.0);
      VolumeReading(if change > 0.0 then Buy else Sell, if s <= 100 then s else 100, Burst)
    else if ratio >= threshold then
      VolumeReading(if change > 0.0 then HoldBuy else HoldSell, Trunc(ratio * 25.0), High)
    else if ratio < 0.5 then
      VolumeReading(Hold, 10, VeryLow)
    else if AbsAbove(pct, 3.0) then
      VolumeReading(if change > 0.0 then HoldBuy else HoldSell, 30, Normal)
    else
      VolumeReading(Hold, 10, Normal)
  }

  /** The banding is symmetric in the price move: reversing a non-zero
      change mirrors the signal and keeps status and strength. */
  lemma VolumeBandMirror(ratio: real, threshold: real, change: real, pct: real)
    requires change != 0.0
    ensures var r := VolumeBand(ratio, threshold, change, Finite(pct));
            var m := VolumeBand(ratio, threshold, -change, Finite(-pct));
            m.signal == Mirror(r.signal) && m.strength == r.strength && m.status == r.status
  {
    assert Abs(-pct) == Abs(pct);
  }

  /** The mean of the last `period` values, or None (NaN) without a full window. */
  function RollingMeanLast(xs: seq<real>, period: nat): (m: Option<real>)
    requires period >= 1
    ensures m.Some? <==> |xs| >= period
  {
    if |xs| < period then None else Some(Mean(xs[|xs| - period..]))
  }

  /** `analyze_volume`. `volumes` is None when the frame has no Volume
      column. The function raises (IndexError) before two rows exist, and at
      its `int(avg_volume)` (ValueError on NaN) before `avg_period` rows exist. */
  function AnalyzeVolume(volumes: Option<seq<real>>, close: seq<real>, avgPeriod: nat, threshold: real): (r: Result<VolumeReading>)
    requires avgPeriod >= 1
    requires volumes.Some? ==> |volumes.value| == |close|
    ensures volumes.None? ==> r == Ok(VolumeReading(Hold, 0, NotAvailable))
    ensures volumes.Some? && |close| < 2 ==> r == Err(IndexOutOfBounds)
    ensures volumes.Some? && 2 <= |close| < avgPeriod ==> r == Err(NaNToInteger)
    ensures volumes.Some? && |close| >= 2 && |close| >= avgPeriod ==>
              var n := |close|;
              var avg := Mean(volumes.value[n - avgPeriod..]);
              r == Ok(VolumeBand(VolumeRatio(volumes.value[n - 1], avg), threshold,
                                 close[n - 1] - close[n - 2], PercentChange(close[n - 2], close[n - 1])))
  {
    match volumes
    case None => Ok(VolumeReading(Hold, 0, NotAvailable))
    case Some(v) =>
      var n := |close|;
      if n < 2 then Err(IndexOutOfBounds)
      else
        match RollingMeanLast(v, avgPeriod)
        case None => Err(NaNToInteger)
        case Some(avg) =>
          var change := close[n - 1] - close[n - 2];
          Ok(VolumeBand(VolumeRatio(v[n - 1], avg), threshold, change, PercentChange(close[n - 2], close[n - 1])))
  }

  /** `(price_change / previous) * 100` under numpy division. */
  function PercentChange(previous: real, current: real): (p: Extended)
    ensures previous != 0.0 ==> p == Finite((current - previous) / previous * 100.0)
    ensures previous == 0.0 ==> p == Quotient(current - previous, 0.0)
  {
    match Quotient(current - previous, previous)
    case Finite(q) => Finite(q * 100.0)
    case other => other
  }

  function Scaled(s: seq<real>, c: real): (r: seq<real>)
    ensures |r| == |s| && forall i :: 0 <= i < |s| ==> r[i] == c * s[i]
  {
    seq(|s|, i requires 0 <= i < |s| => c * s[i])
  }

  lemma {:induction false} SumScaled(s: seq<real>, c: real)
    ensures Sum(Scaled(s, c)) == c * Sum(s)
  {
    if s != [] {
      var a, b := Scaled(s, c)[..|s| - 1], Scaled(s[..|s| - 1], c);
      assert forall i :: 0 <= i < |s| - 1 ==> a[i] == b[i];
      assert a == b;
      SumScaled(s[..|s| - 1], c);
    }
  }

  lemma ScaledRatio(cur: real, avg: real, c: real)
    requires c > 0.0
    ensures VolumeRatio(c * cur, c * avg) == VolumeRatio(cur, avg)
  {
    if avg > 0.0 {
      assert c * avg > 0.0;
      var r := cur / avg;
      assert r * avg == cur;
      assert r * (c * avg) == c * cur;
    } else {
      assert c * avg <= 0.0;
    }
  }

  lemma MeanScaled(w: seq<real>, c: real)
    requires w != []
    ensures Mean(Scaled(w, c)) == c * Mean(w)
  {
    SumScaled(w, c);
    var k := |w| as real;
    assert (c * Sum(w)) / k == c * (Sum(w) / k);
  }

  /** Volume is read only relative to its own average: rescaling every
      volume by a positive factor leaves the reading unchanged. */
  lemma AnalyzeVolumeScaleInvariant(volumes: seq<real>, close: seq<real>, avgPeriod: nat, threshold: real, c: real)
    requires avgPeriod >= 1 && |volumes| == |close| && c > 0.0
    ensures AnalyzeVolume(Some(Scaled(volumes, c)), close, avgPeriod, threshold)
         == AnalyzeVolume(Some(volumes), close, avgPeriod, threshold)
  {
    var n := |close|;
    if n >= 2 && n >= avgPeriod {
      var w := volumes[n - avgPeriod..];
      var sv := Scaled(volumes, c);
      var a, b := sv[n - avgPeriod..], Scaled(w, c);
      assert forall i :: 0 <= i < |w| ==> a[i] == b[i];
      assert a == b;
      MeanScaled(w, c);
      ScaledRatio(volumes[n - 1], Mean(w), c);
      assert VolumeRatio(sv[n - 1], Mean(a)) == VolumeRatio(volumes[n - 1], Mean(w));
    }
  }

  // ---------------------------------------------------------------------------
  // Volume trend

  /** 'ARTIS', 'AZALIS', 'SABIT', 'BILINMIYOR'. */
  datatype VolumeTrend = Rising | Falling | Steady | Unknown

  /** The last `period` volumes (`iloc[-period:]`, the whole series for period 0). */
  function Recent(v: seq<real>, period: nat): (r: seq<real>)
    requires period <= |v|
    ensures |r| == if period == 0 then |v| else period
  {
    if period == 0 then v else v[|v| - period..]
  }

  /** `second_half_avg / first_half_avg if first_half_avg > 0 else 1`; an empty
      first half has a NaN mean, which is not > 0. */
  function HalfRatio(recent: seq<real>, half: nat): (q: real)
    requires half == 0 || half < |recent|
    ensures half == 0 || Mean(recent[..half]) <= 0.0 ==> q == 1.0
    ensures half > 0 && Mean(recent[..half]) > 0.0 ==> q * Mean(recent[..half]) == Mean(recent[half..])
  {
    if half == 0 then 1.0
    else if Mean(recent[..half]) > 0.0 then Mean(recent[half..]) / Mean(recent[..half])
    else 1.0
  }

  /** `detect_volume_trend`. */
  function DetectVolumeTrend(volumes: Option<seq<real>>, period: nat): (t: VolumeTrend)
    ensures t == Unknown <==> volumes.None? || |volumes.value| < period
    ensures t != Unknown ==>
              var q := HalfRatio(Recent(volumes.value, period), period / 2);
              (t == Rising <==> q > 1.2) && (t == Falling <==> q < 0.8)
    ensures t != Unknown && period / 2 == 0 ==> t == Steady
  {
    if volumes.None? || |volumes.value| < period then Unknown
    else
      var q := HalfRatio(Recent(volumes.value, period), period / 2);
      if q > 1.2 then Rising else if q < 0.8 then Falling else Steady
  }
}
