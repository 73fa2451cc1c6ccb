/** The hybrid engine of src/analysis/hybrid.py: a technical score (0-100)
    blended with the general macro score and the sector score, the call and
    confidence bands, the alignment of the two directions, the risk, and the
    recommendation lines built from a result. */
module Hybrid {
  import opened Common
  import Macro
  import Sectors

  /** 'AL', 'BEK', 'SAT'. */
  datatype Call = Al | Bek | Sat

  /** 'YUKSEK', 'ORTA', 'DUSUK' as a confidence. */
  datatype Confidence = HighConfidence | MediumConfidence | LowConfidence

  /** 'ALIS', 'SATIS'. */
  datatype Direction = Buying | Selling

  /** 'UYUMLU', 'CATISMA'. */
  datatype Alignment = Aligned | Conflict

  /** 'YUKSEK', 'ORTA', 'DUSUK' as a risk level. */
  datatype RiskLevel = HighRisk | MediumRisk | LowRisk

  /** The five risk descriptions: macro adverse, macro supportive, mixed
      signals, a reliable signal, aligned with moderate confidence. */
  datatype RiskNote = MacroAdverse | MacroSupportive | MixedSignals | Reliable | ModerateConfidence

  /** The dictionary `calculate_hybrid_score` returns, with its displayed
      (rounded) numbers. */
  datatype HybridResult = HybridResult(
    hybridScore: real, signal: Call, confidence: Confidence,
    techWeight: real, macroWeight: real,
    technicalScore: real, techDirection: Direction,
    macroRaw: real, macroNormalized: real, macroDirection: Direction,
    general: Macro.MacroResult,
    sector: Option<Sectors.Sector>, sectorScore: int, sectorNote: Sectors.SectorNote,
    alignment: Alignment, riskLevel: RiskLevel, riskNote: RiskNote)

  /** The weights divided by their total, and so summing to 1. */
  function NormalizedWeights(tw: real, mw: real): (w: (real, real))
    requires tw + mw != 0.0
    ensures w.0 + w.1 == 1.0
    ensures w.0 * (tw + mw) == tw && w.1 * (tw + mw) == mw
    ensures tw >= 0.0 && mw >= 0.0 ==> 0.0 <= w.0 <= 1.0 && 0.0 <= w.1 <= 1.0
  {
    var total := tw + mw;
    assert tw / total + mw / total == (tw + mw) / total;
    (tw / total, mw / total)
  }

  /** The general score weighted 0.7 and the sector score 0.3. */
  function CombinedMacro(raw: real, sector: int): (c: real)
    ensures -10.0 <= raw <= 10.0 && -10 <= sector <= 10 ==> -10.0 <= c <= 10.0
  {
    raw * 0.7 + sector as real * 0.3
  }

  /** `(combined + 10) * 5`: [-10, 10] is mapped onto [0, 100], 0 onto 50. */
  function MacroNormalized(c: real): (n: real)
    ensures -10.0 <= c <= 10.0 ==> 0.0 <= n <= 100.0
    ensures n >= 50.0 <==> c >= 0.0
  {
    (c + 10.0) * 5.0
  }

  /** The weighted blend of both scores, held in [0, 100]. */
  function Blend(technical: real, macroNorm: real, wt: real, wm: real): (h: real)
    ensures 0.0 <= h <= 100.0
    ensures 0.0 <= technical * wt + macroNorm * wm <= 100.0 ==> h == technical * wt + macroNorm * wm
  {
    Clamp(technical * wt + macroNorm * wm, 0.0, 100.0)
  }

  /** With weights that are non-negative and sum to 1, two scores at or above 50
      blend to at least 50 and two below 50 blend to below 50. */
  lemma BlendFollowsConsensus(technical: real, macroNorm: real, wt: real, wm: real)
    requires wt >= 0.0 && wm >= 0.0 && wt + wm == 1.0
    ensures technical >= 50.0 && macroNorm >= 50.0 ==> Blend(technical, macroNorm, wt, wm) >= 50.0
    ensures technical < 50.0 && macroNorm < 50.0 ==> Blend(technical, macroNorm, wt, wm) < 50.0
  {
    ShiftedProduct(technical, wt);
    ShiftedProduct(macroNorm, wm);
    var p, q := (technical - 50.0) * wt, (macroNorm - 50.0) * wm;
    assert technical * wt + macroNorm * wm == p + q + 50.0;
    if technical >= 50.0 && macroNorm >= 50.0 {
      MulNonNegative(technical - 50.0, wt);
      MulNonNegative(macroNorm - 50.0, wm);
    }
    if technical < 50.0 && macroNorm < 50.0 {
      NegativeTimesWeight(technical - 50.0, wt);
      NegativeTimesWeight(macroNorm - 50.0, wm);
      assert p < 0.0 || q < 0.0;
    }
  }

  lemma ShiftedProduct(x: real, w: real)
    ensures x * w == (x - 50.0) * w + 50.0 * w
  {
  }

  /** A negative value times a non-negative weight is at most 0, and below 0 for a positive weight. */
  lemma NegativeTimesWeight(a: real, w: real)
    requires a < 0.0 && w >= 0.0
    ensures a * w <= 0.0 && (w > 0.0 ==> a * w < 0.0)
  {
    MulNonNegative(-a, w);
    if w > 0.0 {
      MulPositive(-a, w);
    }
  }

  /** The signal and confidence bands at 65, 50, 40 and 25. */
  function SignalBand(h: real): (b: (Call, Confidence))
    ensures b.0 == Al <==> h >= 50.0
    ensures b.0 == Sat <==> h < 40.0
    ensures b.1 == HighConfidence <==> h >= 65.0 || h < 25.0
    ensures b.1 == LowConfidence <==> b.0 == Bek
  {
    if h >= 65.0 then (Al, HighConfidence)
    else if h >= 50.0 then (Al, MediumConfidence)
    else if h >= 40.0 then (Bek, LowConfidence)
    else if h >= 25.0 then (Sat, MediumConfidence)
    else (Sat, HighConfidence)
  }

  function DirectionOf(score: real): (d: Direction)
    ensures d == Buying <==> score >= 50.0
  {
    if score >= 50.0 then Buying else Selling
  }

  function AlignmentOf(tech: Direction, macro: Direction): (a: Alignment)
    ensures a == Aligned <==> tech == macro
  {
    if tech == macro then Aligned else Conflict
  }

  /** The risk table: high only for a buy call against a selling macro side,
      low only for aligned directions with a score at or beyond 65 or 35. */
  function RiskOf(alignment: Alignment, signal: Call, macro: Direction, h: real): (r: (RiskLevel, RiskNote))
    ensures r.0 == HighRisk <==> alignment == Conflict && signal == Al && macro == Selling
    ensures r.0 == LowRisk <==> alignment == Aligned && (h >= 65.0 || h <= 35.0)
    ensures r.1 == MacroAdverse <==> r.0 == HighRisk
    ensures r.1 == MacroSupportive <==> alignment == Conflict && signal == Sat && macro == Buying
  {
    match alignment
    case Conflict =>
      if signal == Al && macro == Selling then (HighRisk, MacroAdverse)
      else if signal == Sat && macro == Buying then (MediumRisk, MacroSupportive)
      else (MediumRisk, MixedSignals)
    case Aligned =>
      if h >= 65.0 || h <= 35.0 then (LowRisk, Reliable) else (MediumRisk, ModerateConfidence)
  }

  /** The blended score before display rounding, from the general macro
      total and the sector score. */
  function HybridRaw(technical: real, macroTotal: real, sectorScore: int, tw: real, mw: real): (h: real)
    requires tw + mw != 0.0
    ensures 0.0 <= h <= 100.0
  {
    var w := NormalizedWeights(tw, mw);
    Blend(technical, MacroNormalized(CombinedMacro(macroTotal, sectorScore)), w.0, w.1)
  }

  /** The result `calculate_hybrid_score` assembles from the general macro
      result and the sector reading. Scores are banded and compared
      unrounded; the displayed numbers are rounded. */
  function Fuse(technical: real, general: Macro.MacroResult, sector: Option<Sectors.Sector>, reading: Sectors.SectorReading,
                tw: real, mw: real): (r: HybridResult)
    requires tw + mw != 0.0
    requires -10.0 <= general.totalScore <= 10.0 && -10 <= reading.score <= 10
    ensures var h := HybridRaw(technical, general.totalScore, reading.score, tw, mw);
            var c := CombinedMacro(general.totalScore, reading.score);
            && r.general == general && r.sector == sector
            && r.sectorScore == reading.score && r.sectorNote == reading.note
            && 0.0 <= r.hybridScore <= 100.0 && r.hybridScore == Round1(h)
            && 0.0 <= r.macroNormalized <= 100.0 && r.macroNormalized == Round1(MacroNormalized(c))
            && -10.0 <= r.macroRaw <= 10.0 && r.macroRaw == Round2(c)
            && (r.signal, r.confidence) == SignalBand(h)
            && r.techWeight == Round1(NormalizedWeights(tw, mw).0 * 100.0)
            && r.macroWeight == Round1(NormalizedWeights(tw, mw).1 * 100.0)
            && r.technicalScore == Round1(technical)
            && r.techDirection == DirectionOf(technical)
            && (r.macroDirection == Buying <==> c >= 0.0)
            && (r.alignment == Aligned <==> r.techDirection == r.macroDirection)
            && (r.riskLevel, r.riskNote) == RiskOf(r.alignment, r.signal, r.macroDirection, h)
  {
    var w := NormalizedWeights(tw, mw);
    var c := CombinedMacro(general.totalScore, reading.score);
    var n := MacroNormalized(c);
    var h := Blend(technical, n, w.0, w.1);
    Round1Within(h, 0, 100);
    Round1Within(n, 0, 100);
    Round2Within(c, -10, 10);
    var band := SignalBand(h);
    var td, md := DirectionOf(technical), DirectionOf(n);
    var alignment := AlignmentOf(td, md);
    var risk := RiskOf(alignment, band.0, md, h);
    HybridResult(Round1(h), band.0, band.1, Round1(w.0 * 100.0), Round1(w.1 * 100.0),
                 Round1(technical), td, Round2(c), Round1(n), md,
                 general, sector, reading.score, reading.note,
                 alignment, risk.0, risk.1)
  }

  /** `calculate_hybrid_score`: a zero weight total divides by zero. */
  function CalculateHybridScore(technical: real, data: Macro.Snapshot, symbol: string, tw: real, mw: real): (r: Result<HybridResult>)
    ensures r.Err? <==> tw + mw == 0.0
    ensures r.Err? ==> r.error == DivisionByZero
    ensures r.Ok? ==> r.value == Fuse(technical, Macro.CalculateOverallMacroScore(data), Sectors.GetSector(symbol),
                                      Sectors.AnalyzeSectorSpecific(data, symbol), tw, mw)
  {
    if tw + mw == 0.0 then Err(DivisionByZero)
    else Ok(Fuse(technical, Macro.CalculateOverallMacroScore(data), Sectors.GetSector(symbol),
                 Sectors.AnalyzeSectorSpecific(data, symbol), tw, mw))
  }

  /** With non-negative weights, agreeing directions decide the call: both
      buying gives AL and both selling never does. */
  lemma ConsensusDecidesCall(technical: real, general: Macro.MacroResult, sector: Option<Sectors.Sector>,
                             reading: Sectors.SectorReading, tw: real, mw: real)
    requires tw >= 0.0 && mw >= 0.0 && tw + mw > 0.0
    requires -10.0 <= general.totalScore <= 10.0 && -10 <= reading.score <= 10
    ensures var r := Fuse(technical, general, sector, reading, tw, mw);
            && (r.techDirection == Buying && r.macroDirection == Buying ==> r.signal == Al)
            && (r.techDirection == Selling && r.macroDirection == Selling ==> r.signal != Al)
  {
    var w := NormalizedWeights(tw, mw);
    var c := CombinedMacro(general.totalScore, reading.score);
    BlendFollowsConsensus(technical, MacroNormalized(c), w.0, w.1);
  }

  // ---------------------------------------------------------------------------
  // Recommendation

  /** The advice line chosen by call and risk. */
  datatype Advice = OpenBuy | SmallBuy | CarefulBuy | StrongSell | StopLoss | WatchSell | NoSignal

  /** One line of the recommendation text, in its order of appearance. */
  datatype Line =
    | AdviceLine(advice: Advice)
    | ConflictDescription(tech: Direction, macro: Direction)
    | ConflictWarning
    | SectorLine(sector: Sectors.Sector, description: Sectors.SectorNote)
    | RiskLine(level: RiskLevel, risk: RiskNote)

  function AdviceFor(signal: Call, risk: RiskLevel): (a: Advice)
    ensures signal == Bek <==> a == NoSignal
    ensures a in {OpenBuy, SmallBuy, CarefulBuy} <==> signal == Al
  {
    match signal
    case Al => if risk == LowRisk then OpenBuy else if risk == MediumRisk then SmallBuy else CarefulBuy
    case Sat => if risk == LowRisk then StrongSell else if risk == MediumRisk then StopLoss else WatchSell
    case Bek => NoSignal
  }

  /** The lines `get_recommendation` joins. */
  function Recommendation(h: HybridResult): (lines: seq<Line>)
    ensures |lines| == 2 + (if h.alignment == Conflict then 2 else 0) + (if h.sector.Some? then 1 else 0)
    ensures lines[0] == AdviceLine(AdviceFor(h.signal, h.riskLevel))
    ensures lines[|lines| - 1] == RiskLine(h.riskLevel, h.riskNote)
    ensures ConflictWarning in lines <==> h.alignment == Conflict
    ensures h.alignment == Conflict ==> lines[1] == ConflictDescription(h.techDirection, h.macroDirection) && lines[2] == ConflictWarning
    ensures h.sector.None? ==> forall i :: 0 <= i < |lines| ==> !lines[i].SectorLine?
    ensures h.sector.Some? ==> lines[|lines| - 2] == SectorLine(h.sector.value, h.sectorNote)
  {
    var conflict := if h.alignment == Conflict then [ConflictDescription(h.techDirection, h.macroDirection), ConflictWarning] else [];
    var sector := if h.sector.Some? then [SectorLine(h.sector.value, h.sectorNote)] else [];
    [AdviceLine(AdviceFor(h.signal, h.riskLevel))] + conflict + sector + [RiskLine(h.riskLevel, h.riskNote)]
  }

  /** `get_recommendation` as written: lines appended one after another. */
  method GetRecommendation(h: HybridResult) returns (lines: seq<Line>)
    ensures lines == Recommendation(h)
  {
    lines := [];
    if h.signal == Al {
      if h.riskLevel == LowRisk {
        lines := lines + [AdviceLine(OpenBuy)];
      } else if h.riskLevel == MediumRisk {
        lines := lines + [AdviceLine(SmallBuy)];
      } else {
        lines := lines + [AdviceLine(CarefulBuy)];
      }
    } else if h.signal == Sat {
      if h.riskLevel == LowRisk {
        lines := lines + [AdviceLine(StrongSell)];
      } else if h.riskLevel == MediumRisk {
        lines := lines + [AdviceLine(StopLoss)];
      } else {
        lines := lines + [AdviceLine(WatchSell)];
      }
    } else {
      lines := lines + [AdviceLine(NoSignal)];
    }
    if h.alignment == Conflict {
      lines := lines + [ConflictDescription(h.techDirection, h.macroDirection)];
      lines := lines + [ConflictWarning];
    }
    if h.sector.Some? {
      lines := lines + [SectorLine(h.sector.value, h.sectorNote)];
    }
    lines := lines + [RiskLine(h.riskLevel, h.riskNote)];
  }

  // ---------------------------------------------------------------------------
  // Worked scenarios on the sample snapshot for THYAO

  /** Both scenarios share the macro side: for an airline ticker (THYAO,
      PGSUS) the general total is -4.0 and the sector score -9. */
  lemma SampleMacroSide(ticker: string)
    requires ticker in Sectors.StocksOf(Sectors.Airline)
    ensures Macro.CalculateOverallMacroScore(Macro.Sample).totalScore == -4.0
    ensures Sectors.AnalyzeSectorSpecific(Macro.Sample, ticker).score == -9
    ensures Sectors.GetSector(ticker) == Some(Sectors.Airline)
  {
    Macro.SampleScenario();
    Sectors.SampleAirline(ticker);
    Sectors.ListedTickerFound(Sectors.Airline, ticker);
  }

  /** The display rounding of the two scenario scores: both are ties broken to even. */
  lemma ScenarioRounding()
    ensures Round1(59.25) == 59.2 && Round1(27.75) == 27.8 && Round1(22.5) == 22.5
  {
    assert RoundHalfEven(592.5) == 592;
    assert RoundHalfEven(277.5) == 278;
    assert RoundHalfEven(225.0) == 225;
  }

  /** A general total of -4.0 and a sector score of -9 combine to -5.5,
      normalised 22.5, a selling macro direction. With weights 0.7/0.3 a
      technical score of 75 then blends to 59.25 (AL, medium confidence,
      conflict, high risk) and one of 30 to 27.75 (SAT, medium confidence,
      aligned, low risk). */
  lemma FuseOnWeakMacro(general: Macro.MacroResult, reading: Sectors.SectorReading)
    requires general.totalScore == -4.0 && reading.score == -9
    ensures var r := Fuse(75.0, general, Some(Sectors.Airline), reading, 0.70, 0.30);
            && r.hybridScore == 59.2 && r.macroNormalized == 22.5
            && r.signal == Al && r.confidence == MediumConfidence
            && r.alignment == Conflict && r.riskLevel == HighRisk
            && Recommendation(r) == [AdviceLine(CarefulBuy), ConflictDescription(Buying, Selling), ConflictWarning,
                                     SectorLine(Sectors.Airline, reading.note), RiskLine(HighRisk, MacroAdverse)]
    ensures var r := Fuse(30.0, general, Some(Sectors.Airline), reading, 0.70, 0.30);
            && r.hybridScore == 27.8 && r.macroNormalized == 22.5
            && r.signal == Sat && r.confidence == MediumConfidence
            && r.alignment == Aligned && r.riskLevel == LowRisk
            && Recommendation(r) == [AdviceLine(StrongSell), SectorLine(Sectors.Airline, reading.note), RiskLine(LowRisk, Reliable)]
  {
    assert NormalizedWeights(0.70, 0.30) == (0.7, 0.3);
    assert CombinedMacro(-4.0, -9) == -5.5;
    assert MacroNormalized(-5.5) == 22.5;
    assert HybridRaw(75.0, -4.0, -9, 0.70, 0.30) == 59.25;
    assert HybridRaw(30.0, -4.0, -9, 0.70, 0.30) == 27.75;
    ScenarioRounding();
  }

  /** The first worked scenario: a strong technical score (75) for THYAO on the
      sample snapshot. */
  lemma StrongTechnicalScenario(ticker: string)
    requires ticker in Sectors.StocksOf(Sectors.Airline)
    ensures var r := CalculateHybridScore(75.0, Macro.Sample, ticker, 0.70, 0.30);
            && r.Ok? && r.value.hybridScore == 59.2 && r.value.macroNormalized == 22.5
            && r.value.signal == Al && r.value.confidence == MediumConfidence
            && r.value.alignment == Conflict && r.value.riskLevel == HighRisk
            && Recommendation(r.value) == [AdviceLine(CarefulBuy), ConflictDescription(Buying, Selling), ConflictWarning,
                                           SectorLine(Sectors.Airline, r.value.sectorNote), RiskLine(HighRisk, MacroAdverse)]
  {
    SampleMacroSide(ticker);
    FuseOnWeakMacro(Macro.CalculateOverallMacroScore(Macro.Sample), Sectors.AnalyzeSectorSpecific(Macro.Sample, ticker));
  }

  /** The second worked scenario: a weak technical score (30) for THYAO on the
      sample snapshot. */
  lemma WeakTechnicalScenario(ticker: string)
    requires ticker in Sectors.StocksOf(Sectors.Airline)
    ensures var r := CalculateHybridScore(30.0, Macro.Sample, ticker, 0.70, 0.30);
            && r.Ok? && r.value.hybridScore == 27.8
            && r.value.signal == Sat && r.value.confidence == MediumConfidence
            && r.value.alignment == Aligned && r.value.riskLevel == LowRisk
            && Recommendation(r.value) == [AdviceLine(StrongSell), SectorLine(Sectors.Airline, r.value.sectorNote), RiskLine(LowRisk, Reliable)]
  {
    SampleMacroSide(ticker);
    FuseOnWeakMacro(Macro.CalculateOverallMacroScore(Macro.Sample), Sectors.AnalyzeSectorSpecific(Macro.Sample, ticker));
  }
}
