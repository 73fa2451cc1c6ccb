/** Trend indicators of src/indicators/trend.py: simple and exponential
    moving averages, the golden/death cross detector and the reading of a
    price against a set of moving averages. */
module Trend {
  import opened Common
  import opened Signals
  import Momentum

  // ---------------------------------------------------------------------------
  // Moving averages

  /** The two accepted `ma_type`s, matched case-insensitively. */
  datatype MaKind = Simple | Exponential

  function ParseMaType(maType: string): (k: Option<MaKind>)
    ensures k == Some(Simple) <==> Upper(maType) == "SMA"
    ensures k == Some(Exponential) <==> Upper(maType) == "EMA"
  {
    var u := Upper(maType);
    if u == "SMA" then Some(Simple) else if u == "EMA" then Some(Exponential) else None
  }

  /** `rolling(window=period).mean()` at row t: undefined until a full window exists. */
  function Sma(close: seq<real>, period: nat, t: nat): (r: Option<real>)
    requires period >= 1 && t < |close|
    ensures r.None? <==> t + 1 < period
  {
    if t + 1 < period then None else Some(Mean(close[t + 1 - period..t + 1]))
  }

  /** A defined SMA lies between any bounds of its window. */
  lemma SmaWithinWindow(close: seq<real>, period: nat, t: nat, lo: real, hi: real)
    requires period >= 1 && period <= t + 1 < |close| + 1
    requires forall j :: t + 1 - period <= j <= t ==> lo <= close[j] <= hi
    ensures Sma(close, period, t).Some? && lo <= Sma(close, period, t).value <= hi
  {
    var w := close[t + 1 - period..t + 1];
    assert forall i :: 0 <= i < |w| ==> w[i] == close[t + 1 - period + i];
    MeanBounds(w, lo, hi);
  }

  /** The moving-average series of one period. */
  function MaSeries(close: seq<real>, period: nat, kind: MaKind): (r: seq<Option<real>>)
    requires period >= 1
    ensures |r| == |close|
    ensures kind == Simple ==> forall t :: 0 <= t < |close| ==> r[t] == Sma(close, period, t)
    ensures kind == Exponential ==> forall t :: 0 <= t < |close| ==>
              r[t] == Some(Momentum.EmaAt(close, Momentum.Alpha(period), t))
  {
    match kind
    case Simple => seq(|close|, t requires 0 <= t < |close| => Sma(close, period, t))
    case Exponential => seq(|close|, t requires 0 <= t < |close| => Some(Momentum.EmaAt(close, Momentum.Alpha(period), t)))
  }

  /** The EMA series is seeded at the first close. */
  lemma EmaSeededAtFirstClose(close: seq<real>, period: nat)
    requires period >= 1 && close != []
    ensures MaSeries(close, period, Exponential)[0] == Some(close[0])
  {
  }

  /** `calculate_moving_averages`: one series per period, or ValueError
      (raised inside the loop) for an ma_type other than SMA and EMA. */
  method CalculateMovingAverages(close: seq<real>, periods: seq<int>, maType: string)
    returns (r: Result<map<int, seq<Option<real>>>>)
    requires forall i :: 0 <= i < |periods| ==> periods[i] >= 1
    ensures r.Err? <==> periods != [] && ParseMaType(maType).None?
    ensures r.Err? ==> r.error == InvalidMaType
    ensures r.Ok? ==> forall p :: p in r.value <==> p in periods
    ensures r.Ok? ==> forall p :: p in r.value ==>
              ParseMaType(maType).Some? && p >= 1 && r.value[p] == MaSeries(close, p, ParseMaType(maType).value)
  {
    var results: map<int, seq<Option<real>>> := map[];
    for i := 0 to |periods|
      invariant forall p :: p in results <==> p in periods[..i]
      invariant i > 0 ==> ParseMaType(maType).Some?
      invariant forall p :: p in results ==>
                  ParseMaType(maType).Some? && p >= 1 && results[p] == MaSeries(close, p, ParseMaType(maType).value)
    {
      var period := periods[i];
      var kind := ParseMaType(maType);
      if kind == Some(Simple) {
        results := results[period := MaSeries(close, period, Simple)];
      } else if kind == Some(Exponential) {
        results := results[period := MaSeries(close, period, Exponential)];
      } else {
        return Err(InvalidMaType);
      }
      assert periods[..i + 1] == periods[..i] + [period];
    }
    assert periods[..|periods|] == periods;
    r := Ok(results);
  }

  // ---------------------------------------------------------------------------
  // Golden / death cross

  /** pandas comparisons, where a NaN on either side makes the test false. */
  predicate Gt(a: Option<real>, b: Option<real>) { a.Some? && b.Some? && a.value > b.value }
  predicate Lt(a: Option<real>, b: Option<real>) { a.Some? && b.Some? && a.value < b.value }
  predicate Le(a: Option<real>, b: Option<real>) { a.Some? && b.Some? && a.value <= b.value }
  predicate Ge(a: Option<real>, b: Option<real>) { a.Some? && b.Some? && a.value >= b.value }

  /** The fast series crossed above the slow one `d` rows before the last:
      above now, at or below one row earlier. */
  predicate GoldenAt(fast: seq<Option<real>>, slow: seq<Option<real>>, d: int)
  {
    var n := |fast|;
    0 <= d && d + 1 < n && |slow| == n
    && Gt(fast[n - 1 - d], slow[n - 1 - d]) && Le(fast[n - 2 - d], slow[n - 2 - d])
  }

  /** The fast series crossed below the slow one `d` rows before the last. */
  predicate DeathAt(fast: seq<Option<real>>, slow: seq<Option<real>>, d: int)
  {
    var n := |fast|;
    0 <= d && d + 1 < n && |slow| == n
    && Lt(fast[n - 1 - d], slow[n - 1 - d]) && Ge(fast[n - 2 - d], slow[n - 2 - d])
  }

  /** A golden and a death cross never happen on the same row. */
  lemma CrossesExclusive(fast: seq<Option<real>>, slow: seq<Option<real>>, d: int)
    ensures !(GoldenAt(fast, slow, d) && DeathAt(fast, slow, d))
  {
  }

  predicate NoCrossWithin(fast: seq<Option<real>>, slow: seq<Option<real>>, lo: int, hi: int)
  {
    forall d :: lo <= d < hi ==> !GoldenAt(fast, slow, d) && !DeathAt(fast, slow, d)
  }

  /** 'GOLDEN' / 'DEATH' with days_ago, or no cross with the current
      position 'ABOVE' / 'BELOW'; `Insufficient` is the fewer-than-two-points answer. */
  datatype CrossResult = Insufficient | Golden(daysAgo: nat) | Death(daysAgo: nat) | Above | Below

  /** The last offset the scan reaches: `min(lookback, len - 1)`. */
  function ScanLimit(lookback: int, n: nat): (m: int)
    ensures m <= lookback && (n >= 1 ==> m <= n - 1)
    ensures m == lookback || m == n - 1
  {
    if lookback < n - 1 then lookback else n - 1
  }

  /** The loop of `detect_ma_cross` from offset i (days_ago i - 1) on. */
  function Scan(fast: seq<Option<real>>, slow: seq<Option<real>>, i: int, last: int): (r: CrossResult)
    requires |fast| == |slow| >= 2 && 1 <= i && last <= |fast| - 1
    ensures r != Insufficient
    ensures r.Golden? ==> i - 1 <= r.daysAgo < last && GoldenAt(fast, slow, r.daysAgo)
                          && NoCrossWithin(fast, slow, i - 1, r.daysAgo)
    ensures r.Death? ==> i - 1 <= r.daysAgo < last && DeathAt(fast, slow, r.daysAgo)
                         && NoCrossWithin(fast, slow, i - 1, r.daysAgo)
    ensures r.Above? || r.Below? ==> NoCrossWithin(fast, slow, i - 1, last)
                                      && (r.Above? <==> Gt(fast[|fast| - 1], slow[|slow| - 1]))
    decreases last - i + 1
  {
    var n := |fast|;
    if i > last then
      if Gt(fast[n - 1], slow[n - 1]) then Above else Below
    else if Gt(fast[n - i], slow[n - i]) && Le(fast[n - i - 1], slow[n - i - 1]) then
      Golden(i - 1)
    else if Lt(fast[n - i], slow[n - i]) && Ge(fast[n - i - 1], slow[n - i - 1]) then
      Death(i - 1)
    else
      Scan(fast, slow, i + 1, last)
  }

  /** `detect_ma_cross`: the most recent cross within the last `lookback`
      transitions; otherwise the current position. The two series have the
      same length, as at the one call, where both averages are computed over
      the same price column. */
  function DetectMaCross(fast: seq<Option<real>>, slow: seq<Option<real>>, lookback: int): (r: CrossResult)
    requires |fast| == |slow|
    ensures r == Insufficient <==> |fast| < 2
    ensures r.Golden? ==> r.daysAgo < lookback && GoldenAt(fast, slow, r.daysAgo)
                          && !DeathAt(fast, slow, r.daysAgo) && NoCrossWithin(fast, slow, 0, r.daysAgo)
    ensures r.Death? ==> r.daysAgo < lookback && DeathAt(fast, slow, r.daysAgo)
                         && !GoldenAt(fast, slow, r.daysAgo) && NoCrossWithin(fast, slow, 0, r.daysAgo)
    ensures r.Above? || r.Below? ==> NoCrossWithin(fast, slow, 0, ScanLimit(lookback, |fast|))
                                      && (r.Above? <==> Gt(fast[|fast| - 1], slow[|slow| - 1]))
  {
    if |fast| < 2 then Insufficient
    else Scan(fast, slow, 1, ScanLimit(lookback, |fast|))
  }

  /** A cross inside the window is never missed: the detector then reports a
      cross no older than it. */
  lemma CrossInWindowIsReported(fast: seq<Option<real>>, slow: seq<Option<real>>, lookback: int, d: int)
    requires |fast| == |slow| && 0 <= d < lookback && (GoldenAt(fast, slow, d) || DeathAt(fast, slow, d))
    ensures var r := DetectMaCross(fast, slow, lookback);
            (r.Golden? || r.Death?) && r.daysAgo <= d
  {
    assert d < ScanLimit(lookback, |fast|);
  }

  // ---------------------------------------------------------------------------
  // Price against the moving averages

  /** 'MA(p) USTUNDE' or 'MA(p) ALTINDA'. */
  datatype MaPosition = AboveMa(period: int) | BelowMa(period: int)

  /** 'GUCLU YUKSELIS TRENDI', 'YUKSELIS EGILIMI', 'GUCLU DUSUS TRENDI',
      'DUSUS EGILIMI', 'NOTR / KARASIZ'. */
  datatype TrendLabel = StrongUptrend | RisingBias | StrongDowntrend | FallingBias | Undecided

  datatype MaReading = MaReading(signal: Signal, strength: int, overall: TrendLabel, positions: seq<MaPosition>)

  /** The positions of the price against the defined averages, in order;
      a tie reads as below. */
  function Positions(price: real, items: seq<(int, Option<real>)>): (ps: seq<MaPosition>)
    ensures |ps| <= |items|
    ensures (forall i :: 0 <= i < |items| ==> items[i].1.Some?) ==>
              |ps| == |items|
              && forall i :: 0 <= i < |items| ==>
                   ps[i] == if price > items[i].1.value then AboveMa(items[i].0) else BelowMa(items[i].0)
  {
    if items == [] then []
    else
      var rest := Positions(price, items[1..]);
      match items[0].1
      case None => rest
      case Some(ma) => [if price > ma then AboveMa(items[0].0) else BelowMa(items[0].0)] + rest
  }

  /** An undefined average contributes no position: dropping it leaves the
      positions unchanged. */
  lemma {:induction false} PositionsSkipUndefined(price: real, items: seq<(int, Option<real>)>, i: nat)
    requires i < |items| && items[i].1.None?
    ensures Positions(price, items) == Positions(price, items[..i] + items[i + 1..])
  {
    if i > 0 {
      var tail := items[1..];
      PositionsSkipUndefined(price, tail, i - 1);
      assert (items[..i] + items[i + 1..])[1..] == tail[..i - 1] + tail[i..];
      assert (items[..i] + items[i + 1..])[0] == items[0];
    } else {
      assert items[..i] + items[i + 1..] == items[1..];
    }
  }

  /** The accumulated `strength`: +15 per average below the price, -15 per other defined one. */
  function NetStrength(price: real, items: seq<(int, Option<real>)>): (n: int)
    ensures -15 * |items| <= n <= 15 * |items|
  {
    if items == [] then 0
    else
      var rest := NetStrength(price, items[1..]);
      match items[0].1
      case None => rest
      case Some(ma) => (if price > ma then 15 else -15) + rest
  }

  function CountAbove(ps: seq<MaPosition>): (c: nat)
    ensures c <= |ps|
  {
    if ps == [] then 0 else (if ps[0].AboveMa? then 1 else 0) + CountAbove(ps[1..])
  }

  /** The net strength is 15 times (above - below) over the defined averages. */
  lemma {:induction false} NetStrengthCounts(price: real, items: seq<(int, Option<real>)>)
    ensures var ps := Positions(price, items);
            NetStrength(price, items) == 15 * (2 * CountAbove(ps) - |ps|)
  {
    if items != [] {
      NetStrengthCounts(price, items[1..]);
    }
  }

  /** The signal bands of `interpret_moving_averages`. */
  function TrendBand(net: int): (b: (Signal, TrendLabel))
    ensures net > 25 ==> b == (Buy, StrongUptrend)
    ensures 0 < net <= 25 ==> b == (HoldBuy, RisingBias)
    ensures net < -25 ==> b == (Sell, StrongDowntrend)
    ensures -25 <= net < 0 ==> b == (HoldSell, FallingBias)
    ensures net == 0 ==> b == (Hold, Undecided)
  {
    if net > 25 then (Buy, StrongUptrend)
    else if net > 0 then (HoldBuy, RisingBias)
    else if net < -25 then (Sell, StrongDowntrend)
    else if net < 0 then (HoldSell, FallingBias)
    else (Hold, Undecided)
  }

  predicate SortedByPeriod(items: seq<(int, Option<real>)>)
  {
    forall i, j :: 0 <= i < j < |items| ==> items[i].0 < items[j].0
  }

  /** `interpret_moving_averages` over the items of `sorted(ma_values.items())`. */
  method InterpretMovingAverages(price: real, items: seq<(int, Option<real>)>) returns (r: MaReading)
    ensures r.positions == Positions(price, items)
    ensures r.strength == if NetStrength(price, items) < 0 then -NetStrength(price, items) else NetStrength(price, items)
    ensures (r.signal, r.overall) == TrendBand(NetStrength(price, items))
    ensures r.strength <= 15 * |r.positions|
  {
    var signals: seq<MaPosition> := [];
    var strength := 0;
    for i := 0 to |items|
      invariant signals + Positions(price, items[i..]) == Positions(price, items)
      invariant strength + NetStrength(price, items[i..]) == NetStrength(price, items)
    {
      assert items[i..][1..] == items[i + 1..];
      var (period, ma) := items[i];
      if ma.None? {
        continue;
      }
      if price > ma.value {
        signals := signals + [AboveMa(period)];
        strength := strength + 15;
      } else {
        signals := signals + [BelowMa(period)];
        strength := strength - 15;
      }
    }
    assert items[|items|..] == [];
    NetStrengthCounts(price, items);
    var (signal, overall) := TrendBand(strength);
    r := MaReading(signal, if strength < 0 then -strength else strength, overall, signals);
  }
}
