/** The macro scoring engine of src/macro/analyzer.py: five factor scores,
    each a level bracket plus a momentum bracket scaled by a level-momentum
    interaction and clamped to [-10, 10], and their fixed-weight total. */
module Macro {
  import opened Common

  /** A quote of the snapshot, `{'current': ..., 'change_30d': ...}`. A
      quote missing from the snapshot reads as both fields Absent. */
  datatype Quote = Quote(current: Entry<real>, change30d: Entry<real>)

  /** The index quote also carries the fetched trend word ('up', 'down', 'flat'). */
  datatype IndexQuote = IndexQuote(current: Entry<real>, trend: Entry<string>, change30d: Entry<real>)

  /** The macro snapshot the analyzers read. */
  datatype Snapshot = Snapshot(usdTry: Quote, eurTry: Quote, bist100: IndexQuote, oil: Quote, gold: Quote,
                               tcmbRate: Entry<real>, lastUpdate: Entry<string>)

  /** The marks closing a description: '[-]', '[!]', '[+]' and the index's '[o]'. */
  datatype Mark = Minus | Warning | Plus | Flat

  /** How a factor was reached: scored from its inputs, a None input
      ('verisi eksik', 'girilmemis'), or an exception caught by `except`. */
  datatype Outcome = Scored(mark: Mark) | Missing | Failed

  datatype Factor = Factor(score: real, outcome: Outcome)

  /** The mark of a clamped total for a given neutral half-width. */
  function MarkOf(total: real, cut: real): (m: Mark)
    ensures m != Flat
    ensures m == Minus <==> total < -cut
    ensures cut >= 0.0 ==> (m == Plus <==> total >= cut)
  {
    if total < -cut then Minus else if total < cut then Warning else Plus
  }

  /** Steps 3-4 shared by the level-and-momentum factors: the clamped sum,
      rounded to one decimal, and its mark. */
  function Combine(level: real, momentum: real, multiplier: real, cut: real): (f: Factor)
    ensures -10.0 <= f.score <= 10.0
    ensures f.outcome == Scored(MarkOf(Clamp(level + momentum * multiplier, -10.0, 10.0), cut))
  {
    var total := Clamp(level + momentum * multiplier, -10.0, 10.0);
    Round1Within(total, -10, 10);
    Factor(Round1(total), Scored(MarkOf(total, cut)))
  }

  /** A larger raw sum never gives a smaller factor score. */
  lemma CombineMonotone(l1: real, m1: real, k1: real, l2: real, m2: real, k2: real, cut: real)
    requires l1 + m1 * k1 <= l2 + m2 * k2
    ensures Combine(l1, m1, k1, cut).score <= Combine(l2, m2, k2, cut).score
  {
    Round1Monotone(Clamp(l1 + m1 * k1, -10.0, 10.0), Clamp(l2 + m2 * k2, -10.0, 10.0));
  }

  // ---------------------------------------------------------------------------
  // USD/TRY

  function UsdLevel(current: real): (s: real)
    ensures -5.0 <= s <= 1.0
  {
    if current >= 50.0 then -5.0 else if current >= 45.0 then -4.0 else if current >= 40.0 then -2.0
    else if current >= 35.0 then -1.0 else if current >= 30.0 then 0.0 else 1.0
  }

  function UsdMomentum(change: real): (s: real)
    ensures -6.0 <= s <= 4.0
    ensures (s < 0.0 <==> change >= 0.5) && (s > 0.0 <==> change < -0.5)
  {
    if change >= 5.0 then -6.0 else if change >= 3.0 then -4.0 else if change >= 1.5 then -2.0
    else if change >= 0.5 then -1.0 else if change >= -0.5 then 0.0 else if change >= -1.5 then 1.0
    else if change >= -3.0 then 2.0 else 4.0
  }

  /** Momentum weighs 30% more at a high level while rising, 30% less at a low level while falling. */
  function UsdInteraction(current: real, change: real): (k: real)
    ensures k == 1.3 <==> current >= 40.0 && change > 0.0
    ensures k == 0.7 <==> current < 35.0 && change < 0.0
    ensures k == 1.0 || k == 1.3 || k == 0.7
  {
    if current >= 40.0 && change > 0.0 then 1.3 else if current < 35.0 && change < 0.0 then 0.7 else 1.0
  }

  /** The scored USD/TRY factor, within [-10, 10]. */
  function UsdScore(current: real, change: real): (f: Factor)
    ensures -10.0 <= f.score <= 10.0 && f.outcome.Scored?
  {
    Combine(UsdLevel(current), UsdMomentum(change), UsdInteraction(current, change), 2.0)
  }

  /** A high and rising dollar always scores below zero, a low and falling one always above. */
  lemma UsdScoreSign(current: real, change: real)
    ensures current >= 40.0 && change >= 0.5 ==> UsdScore(current, change).score < 0.0
    ensures current < 30.0 && change < -0.5 ==> UsdScore(current, change).score > 0.0
  {
  }

  /** `analyze_usd_try`: a missing key is caught as an exception, a None
      value reads as missing data, both give 0. */
  function AnalyzeUsdTry(q: Quote): (f: Factor)
    ensures -10.0 <= f.score <= 10.0
    ensures q.change30d.Absent? || q.current.Absent? ==> f == Factor(0.0, Failed)
    ensures !q.change30d.Absent? && !q.current.Absent? && (q.change30d.Null? || q.current.Null?) ==> f == Factor(0.0, Missing)
    ensures f.outcome.Scored? <==> q.change30d.Given? && q.current.Given?
  {
    if q.change30d.Absent? || q.current.Absent? then Factor(0.0, Failed)
    else if q.change30d.Null? || q.current.Null? then Factor(0.0, Missing)
    else UsdScore(q.current.value, q.change30d.value)
  }

  /** A faster rise of the lira's dollar price never improves the score, at any level. */
  lemma UsdScoreMonotone(current: real, c1: real, c2: real)
    requires c1 <= c2
    ensures UsdScore(current, c2).score <= UsdScore(current, c1).score
  {
    var l := UsdLevel(current);
    var m1, m2 := UsdMomentum(c1), UsdMomentum(c2);
    var k1, k2 := UsdInteraction(current, c1), UsdInteraction(current, c2);
    assert m2 <= m1;
    assert m2 * k2 <= m1 * k1 by {
      if c2 <= 0.0 {
        assert k2 != 1.3 && k1 != 1.3;
        assert m1 >= 0.0 && m2 >= 0.0;
      } else if c1 >= 0.0 {
        assert k1 != 0.7 && k2 != 0.7;
        assert m1 <= 0.0 && m2 <= 0.0;
      } else {
        assert m1 >= 0.0 && m2 <= 0.0;
      }
    }
    CombineMonotone(l, m2, k2, l, m1, k1, 2.0);
  }

  /** The softer weighting below 35 makes the score jump upward when the
      level crosses 35 during a fall: a higher level can score better. */
  lemma UsdLevelCanRaiseScore()
    ensures UsdScore(34.9, -4.0).score == 2.8 && UsdScore(35.0, -4.0).score == 3.0
  {
    assert Round1(2.8) == 2.8 by { assert (28.0).Floor == 28; }
    assert Round1(3.0) == 3.0 by { assert (30.0).Floor == 30; }
  }

  // ---------------------------------------------------------------------------
  // Policy rate

  function TcmbLevel(rate: real): (s: real)
    ensures -4.0 <= s <= 1.0
  {
    if rate >= 55.0 then -4.0 else if rate >= 50.0 then -3.0 else if rate >= 45.0 then -2.0
    else if rate >= 40.0 then -1.0 else if rate >= 30.0 then 0.0 else 1.0
  }

  function TcmbChange(change: real): (s: real)
    ensures -5.0 <= s <= 5.0
    ensures (s < 0.0 <==> change >= 0.5) && (s > 0.0 <==> change < -0.5)
  {
    if change >= 5.0 then -5.0 else if change >= 2.0 then -3.0 else if change >= 0.5 then -1.0
    else if change >= -0.5 then 0.0 else if change >= -2.0 then 1.0 else if change >= -5.0 then 3.0 else 5.0
  }

  /** `analyze_tcmb_rate(previous_rate)`: the rate is read with `get`, so an
      absent or None rate reads as not entered. */
  function AnalyzeTcmbRate(rate: Entry<real>, previous: Option<real>): (f: Factor)
    ensures -10.0 <= f.score <= 10.0
    ensures !rate.Given? <==> f == Factor(0.0, Missing)
    ensures f.outcome != Failed
  {
    if !rate.Given? then Factor(0.0, Missing)
    else
      var r := rate.value;
      var change := if previous.Some? then TcmbChange(r - previous.value) else 0.0;
      Combine(TcmbLevel(r), change, if r >= 50.0 && change < 0.0 then 1.2 else 1.0, 2.0)
  }

  /** Without a previous rate the factor is the level bracket alone. */
  lemma TcmbWithoutPrevious(rate: real)
    ensures AnalyzeTcmbRate(Given(rate), None).score == TcmbLevel(rate)
  {
    var l := TcmbLevel(rate);
    assert (l * 10.0).Floor as real == l * 10.0;
  }

  /** For a fixed previous rate, a higher rate never scores better. */
  lemma TcmbMonotone(r1: real, r2: real, previous: real)
    requires r1 <= r2
    ensures AnalyzeTcmbRate(Given(r2), Some(previous)).score <= AnalyzeTcmbRate(Given(r1), Some(previous)).score
  {
    var c1, c2 := TcmbChange(r1 - previous), TcmbChange(r2 - previous);
    var k1 := if r1 >= 50.0 && c1 < 0.0 then 1.2 else 1.0;
    var k2 := if r2 >= 50.0 && c2 < 0.0 then 1.2 else 1.0;
    assert c2 <= c1;
    assert c2 * k2 <= c1 * k1 by {
      if c1 < 0.0 {
        assert c2 < 0.0;
      } else if c2 >= 0.0 {
        assert k1 == 1.0 && k2 == 1.0;
      }
    }
    CombineMonotone(TcmbLevel(r2), c2, k2, TcmbLevel(r1), c1, k1, 2.0);
  }

  // ---------------------------------------------------------------------------
  // BIST100

  /** `analyze_bist100`: +6 for 'up', -6 for 'down', 0 otherwise, 30% more
      on a move of more than 10%; all three keys must exist. */
  function AnalyzeBist100(q: IndexQuote): (f: Factor)
    ensures q.trend.Absent? || q.change30d.Absent? || q.current.Absent? <==> f == Factor(0.0, Failed)
    ensures f.score in {0.0, 6.0, -6.0, 7.8, -7.8}
    ensures f.outcome.Scored? ==>
              (f.score > 0.0 <==> q.trend == Given("up")) && (f.score < 0.0 <==> q.trend == Given("down"))
              && (f.score == 7.8 || f.score == -7.8 <==> (q.trend == Given("up") || q.trend == Given("down")) && q.change30d.Given? && Abs(q.change30d.value) > 10.0)
  {
    if q.trend.Absent? || q.change30d.Absent? || q.current.Absent? then Factor(0.0, Failed)
    else
      var up, down := q.trend == Given("up"), q.trend == Given("down");
      var base := if up then 6.0 else if down then -6.0 else 0.0;
      var score := if q.change30d.Given? && Abs(q.change30d.value) > 10.0 then base * 1.3 else base;
      assert Round1(score) == score by {
        assert (score * 10.0).Floor as real == score * 10.0;
      }
      Factor(Round1(score), Scored(if up then Plus else if down then Minus else Flat))
  }

  // ---------------------------------------------------------------------------
  // Oil

  function OilLevel(current: real): (s: real)
    ensures -3.0 <= s <= 2.0
  {
    if current >= 100.0 then -3.0 else if current >= 85.0 then -2.0 else if current >= 75.0 then -1.0
    else if current >= 60.0 then 0.0 else if current >= 50.0 then 1.0 else 2.0
  }

  function OilMomentum(change: real): (s: real)
    ensures -3.0 <= s <= 3.0
    ensures change > 5.0 ==> s <= -1.0
  {
    if change >= 20.0 then -3.0 else if change >= 10.0 then -2.0 else if change >= 5.0 then -1.0
    else if change >= -5.0 then 0.0 else if change >= -10.0 then 1.0 else if change >= -20.0 then 2.0 else 3.0
  }

  /** The scored oil factor, within [-10, 10]. */
  function OilScore(current: real, change: real): (f: Factor)
    ensures -10.0 <= f.score <= 10.0 && f.outcome.Scored?
  {
    Combine(OilLevel(current), OilMomentum(change), if current >= 85.0 && change > 5.0 then 1.4 else 1.0, 1.5)
  }

  /** Dear and rising oil always scores below zero, cheap and falling oil always above. */
  lemma OilScoreSign(current: real, change: real)
    ensures current >= 85.0 && change >= 5.0 ==> OilScore(current, change).score < 0.0
    ensures current < 60.0 && change < -5.0 ==> OilScore(current, change).score > 0.0
  {
  }

  /** `analyze_oil`. */
  function AnalyzeOil(q: Quote): (f: Factor)
    ensures -10.0 <= f.score <= 10.0
    ensures q.change30d.Absent? || q.current.Absent? ==> f == Factor(0.0, Failed)
    ensures !q.change30d.Absent? && !q.current.Absent? && (q.change30d.Null? || q.current.Null?) ==> f == Factor(0.0, Missing)
    ensures f.outcome.Scored? <==> q.change30d.Given? && q.current.Given?
  {
    if q.change30d.Absent? || q.current.Absent? then Factor(0.0, Failed)
    else if q.change30d.Null? || q.current.Null? then Factor(0.0, Missing)
    else OilScore(q.current.value, q.change30d.value)
  }

  /** Dearer oil, or a faster rise in it, never improves the oil score. */
  lemma OilScoreMonotone(p1: real, c1: real, p2: real, c2: real)
    requires p1 <= p2 && c1 <= c2
    ensures OilScore(p2, c2).score <= OilScore(p1, c1).score
  {
    var m1, m2 := OilMomentum(c1), OilMomentum(c2);
    var k1 := if p1 >= 85.0 && c1 > 5.0 then 1.4 else 1.0;
    var k2 := if p2 >= 85.0 && c2 > 5.0 then 1.4 else 1.0;
    assert m2 <= m1;
    assert m2 * k2 <= m1 * k1 by {
      if k2 == 1.4 && k1 == 1.0 {
        assert m2 <= -1.0;
        assert m2 * 1.4 <= m2;
      } else if k1 == 1.4 {
        assert k2 == 1.4;
      }
    }
    CombineMonotone(OilLevel(p2), m2, k2, OilLevel(p1), m1, k1, 1.5);
  }

  // ---------------------------------------------------------------------------
  // Gold

  function GoldLevel(current: real): (s: real)
    ensures -2.0 <= s <= 1.0
  {
    if current >= 2400.0 then -2.0 else if current >= 2200.0 then -1.5 else if current >= 2000.0 then -0.5
    else if current >= 1800.0 then 0.0 else if current >= 1600.0 then 0.5 else 1.0
  }

  function GoldMomentum(change: real): (s: real)
    ensures -2.5 <= s <= 2.5
    ensures change > 8.0 ==> s <= -1.5
  {
    if change >= 15.0 then -2.5 else if change >= 8.0 then -1.5 else if change >= 3.0 then -0.5
    else if change >= -3.0 then 0.0 else if change >= -8.0 then 0.5 else if change >= -15.0 then 1.5 else 2.5
  }

  /** The scored gold factor, within [-10, 10]. */
  function GoldScore(current: real, change: real): (f: Factor)
    ensures -10.0 <= f.score <= 10.0 && f.outcome.Scored?
  {
    Combine(GoldLevel(current), GoldMomentum(change), if current >= 2200.0 && change > 8.0 then 1.5 else 1.0, 1.5)
  }

  /** Dear and rising gold always scores below zero, cheap and falling gold always above. */
  lemma GoldScoreSign(current: real, change: real)
    ensures current >= 2200.0 && change >= 8.0 ==> GoldScore(current, change).score < 0.0
    ensures current < 1800.0 && change < -3.0 ==> GoldScore(current, change).score > 0.0
  {
  }

  /** `analyze_gold`. */
  function AnalyzeGold(q: Quote): (f: Factor)
    ensures -10.0 <= f.score <= 10.0
    ensures q.change30d.Absent? || q.current.Absent? ==> f == Factor(0.0, Failed)
    ensures !q.change30d.Absent? && !q.current.Absent? && (q.change30d.Null? || q.current.Null?) ==> f == Factor(0.0, Missing)
    ensures f.outcome.Scored? <==> q.change30d.Given? && q.current.Given?
  {
    if q.change30d.Absent? || q.current.Absent? then Factor(0.0, Failed)
    else if q.change30d.Null? || q.current.Null? then Factor(0.0, Missing)
    else GoldScore(q.current.value, q.change30d.value)
  }

  /** Dearer gold, or a faster rise in it, never improves the gold score. */
  lemma GoldScoreMonotone(p1: real, c1: real, p2: real, c2: real)
    requires p1 <= p2 && c1 <= c2
    ensures GoldScore(p2, c2).score <= GoldScore(p1, c1).score
  {
    var m1, m2 := GoldMomentum(c1), GoldMomentum(c2);
    var k1 := if p1 >= 2200.0 && c1 > 8.0 then 1.5 else 1.0;
    var k2 := if p2 >= 2200.0 && c2 > 8.0 then 1.5 else 1.0;
    assert m2 <= m1;
    assert m2 * k2 <= m1 * k1 by {
      if k2 == 1.5 && k1 == 1.0 {
        assert m2 <= -1.5;
        assert m2 * 1.5 <= m2;
      } else if k1 == 1.5 {
        assert k2 == 1.5;
      }
    }
    CombineMonotone(GoldLevel(p2), m2, k2, GoldLevel(p1), m1, k1, 1.5);
  }

  /** The 1.5 interaction is the one place where a factor needs two decimals:
      the rounding to one decimal then resolves the tie to the even digit. */
  lemma GoldRoundsTies()
    ensures GoldScore(2300.0, 10.0).score == -3.8
    ensures GoldScore(2500.0, 10.0).score == -4.2
  {
    assert (-37.5).Floor == -38;
    assert (-42.5).Floor == -43;
  }

  // ---------------------------------------------------------------------------
  // The overall score

  /** 'OLUMLU', 'HAFIF OLUMLU', 'NOTR', 'HAFIF OLUMSUZ', 'OLUMSUZ'. */
  datatype Summary = Favourable | SlightlyFavourable | Neutral | SlightlyUnfavourable | Unfavourable

  datatype MacroResult = MacroResult(totalScore: real, normalizedScore: real,
                                     usdTry: Factor, tcmbRate: Factor, bist100: Factor, oil: Factor, gold: Factor,
                                     summary: Summary, lastUpdate: Option<string>)

  /** The weighted sum with weights 0.30, 0.25, 0.30, 0.10 and 0.05. */
  function WeightedTotal(usd: real, tcmb: real, bist: real, oil: real, gold: real): real
  {
    usd * 0.30 + tcmb * 0.25 + bist * 0.30 + oil * 0.10 + gold * 0.05
  }

  /** The weights sum to one: five equal factor scores total that score. */
  lemma WeightsSumToOne(c: real)
    ensures WeightedTotal(c, c, c, c, c) == c
  {
  }

  /** The weights sum to one, so factors in [-10, 10] keep the total there
      and the clamp of the total never acts. */
  lemma WeightedTotalBounded(usd: real, tcmb: real, bist: real, oil: real, gold: real)
    requires -10.0 <= usd <= 10.0 && -10.0 <= tcmb <= 10.0 && -10.0 <= bist <= 10.0
    requires -10.0 <= oil <= 10.0 && -10.0 <= gold <= 10.0
    ensures -10.0 <= WeightedTotal(usd, tcmb, bist, oil, gold) <= 10.0
    ensures WeightedTotal(usd, tcmb, bist, oil, gold) == 10.0 <==> usd == tcmb == bist == oil == gold == 10.0
  {
  }

  function SummaryOf(total: real): (s: Summary)
    ensures (s == Favourable <==> total >= 5.0) && (s == SlightlyFavourable <==> 2.0 <= total < 5.0)
    ensures (s == Neutral <==> -2.0 <= total < 2.0) && (s == SlightlyUnfavourable <==> -5.0 <= total < -2.0)
    ensures s == Unfavourable <==> total < -5.0
  {
    if total >= 5.0 then Favourable else if total >= 2.0 then SlightlyFavourable
    else if total >= -2.0 then Neutral else if total >= -5.0 then SlightlyUnfavourable else Unfavourable
  }

  /** The weighted total of five factor scores, its summary and scales. */
  function Assemble(usd: Factor, tcmb: Factor, bist: Factor, oil: Factor, gold: Factor, lastUpdate: Option<string>): (r: MacroResult)
    requires -10.0 <= usd.score <= 10.0 && -10.0 <= tcmb.score <= 10.0 && -10.0 <= bist.score <= 10.0
    requires -10.0 <= oil.score <= 10.0 && -10.0 <= gold.score <= 10.0
    ensures r.usdTry == usd && r.tcmbRate == tcmb && r.bist100 == bist && r.oil == oil && r.gold == gold
    ensures r.lastUpdate == lastUpdate
    ensures -10.0 <= r.totalScore <= 10.0 && 0.0 <= r.normalizedScore <= 100.0
    ensures var total := WeightedTotal(usd.score, tcmb.score, bist.score, oil.score, gold.score);
            r.totalScore == Round2(total) && r.normalizedScore == Round1((total + 10.0) * 5.0)
            && r.summary == SummaryOf(total)
  {
    var weighted := WeightedTotal(usd.score, tcmb.score, bist.score, oil.score, gold.score);
    WeightedTotalBounded(usd.score, tcmb.score, bist.score, oil.score, gold.score);
    var total := Clamp(weighted, -10.0, 10.0);
    Round2Within(total, -10, 10);
    Round1Within((total + 10.0) * 5.0, 0, 100);
    MacroResult(Round2(total), Round1((total + 10.0) * 5.0), usd, tcmb, bist, oil, gold, SummaryOf(total), lastUpdate)
  }

  /** `calculate_overall_macro_score`: the policy rate is analysed without a
      previous rate; `last_update` is read with a default. */
  function CalculateOverallMacroScore(s: Snapshot): (r: MacroResult)
    ensures r.usdTry == AnalyzeUsdTry(s.usdTry) && r.tcmbRate == AnalyzeTcmbRate(s.tcmbRate, None)
    ensures r.bist100 == AnalyzeBist100(s.bist100) && r.oil == AnalyzeOil(s.oil) && r.gold == AnalyzeGold(s.gold)
    ensures -10.0 <= r.totalScore <= 10.0 && 0.0 <= r.normalizedScore <= 100.0
    ensures r.lastUpdate == match s.lastUpdate case Absent => Some("Bilinmiyor") case Null => None case Given(v) => Some(v)
  {
    Assemble(AnalyzeUsdTry(s.usdTry), AnalyzeTcmbRate(s.tcmbRate, None), AnalyzeBist100(s.bist100),
             AnalyzeOil(s.oil), AnalyzeGold(s.gold),
             match s.lastUpdate case Absent => Some("Bilinmiyor") case Null => None case Given(v) => Some(v))
  }

  /** The overall score is the weighted total of the five factor scores, rounded
      to two places, its 0-100 scale rounded to one, and its summary. */
  lemma OverallScoreWeighted(s: Snapshot)
    ensures var r := CalculateOverallMacroScore(s);
            var total := WeightedTotal(r.usdTry.score, r.tcmbRate.score, r.bist100.score, r.oil.score, r.gold.score);
            r.totalScore == Round2(total) && r.normalizedScore == Round1((total + 10.0) * 5.0)
            && r.summary == SummaryOf(total)
  {
    var u, t, b := AnalyzeUsdTry(s.usdTry), AnalyzeTcmbRate(s.tcmbRate, None), AnalyzeBist100(s.bist100);
    var o, g := AnalyzeOil(s.oil), AnalyzeGold(s.gold);
    var lu := match s.lastUpdate case Absent => Some("Bilinmiyor") case Null => None case Given(v) => Some(v);
    var r := CalculateOverallMacroScore(s);
    assert r == Assemble(u, t, b, o, g, lu);
    AssembledTotal(u, t, b, o, g, lu, r);
  }

  /** Assemble's total, read off a result known to be assembled. */
  lemma AssembledTotal(u: Factor, t: Factor, b: Factor, o: Factor, g: Factor, lu: Option<string>, r: MacroResult)
    requires -10.0 <= u.score <= 10.0 && -10.0 <= t.score <= 10.0 && -10.0 <= b.score <= 10.0
    requires -10.0 <= o.score <= 10.0 && -10.0 <= g.score <= 10.0
    requires r == Assemble(u, t, b, o, g, lu)
    ensures var total := WeightedTotal(r.usdTry.score, r.tcmbRate.score, r.bist100.score, r.oil.score, r.gold.score);
            r.totalScore == Round2(total) && r.normalizedScore == Round1((total + 10.0) * 5.0)
            && r.summary == SummaryOf(total)
  {
  }

  /** The snapshot in the module's `__main__` block. */
  const Sample: Snapshot := Snapshot(Quote(Given(34.25), Given(3.2)), Quote(Given(37.80), Given(2.8)),
                                     IndexQuote(Given(9500.0), Given("down"), Given(-5.5)),
                                     Quote(Given(75.2), Given(8.3)), Quote(Given(2010.5), Given(4.2)),
                                     Given(50.0), Given("2025-11-11"))

  lemma SampleUsdTry()
    ensures AnalyzeUsdTry(Sample.usdTry).score == -4.0
  {
    assert (-40.0).Floor == -40;
  }

  lemma SampleTcmbRate()
    ensures AnalyzeTcmbRate(Sample.tcmbRate, None).score == -3.0
  {
    assert (-30.0).Floor == -30;
  }

  lemma SampleBist100()
    ensures AnalyzeBist100(Sample.bist100).score == -6.0
  {
    assert (-60.0).Floor == -60;
  }

  lemma SampleOil()
    ensures AnalyzeOil(Sample.oil).score == -2.0
  {
    assert (-20.0).Floor == -20;
  }

  lemma SampleGold()
    ensures AnalyzeGold(Sample.gold).score == -1.0
  {
    assert (-10.0).Floor == -10;
  }

  /** Factor scores -4, -3, -6, -2 and -1 weigh to a total of -4.0, which is
      30 on the 0-100 scale and reads 'HAFIF OLUMSUZ'. */
  lemma AssembleSampleScores(usd: Factor, tcmb: Factor, bist: Factor, oil: Factor, gold: Factor, lastUpdate: Option<string>)
    requires usd.score == -4.0 && tcmb.score == -3.0 && bist.score == -6.0 && oil.score == -2.0 && gold.score == -1.0
    ensures var r := Assemble(usd, tcmb, bist, oil, gold, lastUpdate);
            r.totalScore == -4.0 && r.normalizedScore == 30.0 && r.summary == SlightlyUnfavourable
  {
    assert WeightedTotal(usd.score, tcmb.score, bist.score, oil.score, gold.score) == -4.0;
    assert (-400.0).Floor == -400 && (300.0).Floor == 300;
  }

  /** On the sample the factors are -4, -3, -6, -2 and -1, the total -4.0,
      the normalised score 30 and the summary 'HAFIF OLUMSUZ'. */
  lemma SampleScenario()
    ensures var r := CalculateOverallMacroScore(Sample);
            r.usdTry.score == -4.0 && r.tcmbRate.score == -3.0 && r.bist100.score == -6.0
            && r.oil.score == -2.0 && r.gold.score == -1.0
            && r.totalScore == -4.0 && r.normalizedScore == 30.0 && r.summary == SlightlyUnfavourable
  {
    SampleUsdTry();
    SampleTcmbRate();
    SampleBist100();
    SampleOil();
    SampleGold();
    AssembleSampleScores(AnalyzeUsdTry(Sample.usdTry), AnalyzeTcmbRate(Sample.tcmbRate, None), AnalyzeBist100(Sample.bist100),
                         AnalyzeOil(Sample.oil), AnalyzeGold(Sample.gold), Some("2025-11-11"));
  }
}
