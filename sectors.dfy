/** Sector-specific macro scoring of src/macro/sectors.py: a fixed table
    from sector to tickers, the symbol lookup, and the tiered scorers of the
    airline, bank, export and retail sectors. */
module Sectors {
  import opened Common
  import Macro

  datatype Sector = Airline | Bank | Holding | Energy | Tech | Export | Retail | Tourism | Telecom

  /** The tickers listed under each key of `SECTORS`. */
  function StocksOf(sector: Sector): (r: seq<string>)
    ensures 2 <= |r| <= 6
    ensures forall i, j :: 0 <= i < j < |r| ==> r[i] != r[j]
  {
    match sector
    case Airline => ["THYAO", "PGSUS"]
    case Bank => ["GARAN", "AKBNK", "ISCTR", "YKBNK", "HALKB", "VAKBN"]
    case Holding => ["SAHOL", "KCHOL", "DOHOL", "TAVHL"]
    case Energy => ["TUPRS", "PETKM", "PENTA", "AKENR"]
    case Tech => ["ASELS", "LOGO", "NETAS", "KAREL"]
    case Export => ["EREGL", "ARCLK", "VESTEL", "FROTO", "TOASO", "SISE"]
    case Retail => ["BIMAS", "MGROS", "SOKM", "MAVI"]
    case Tourism => ["MAALT", "AYCES", "KSTUR"]
    case Telecom => ["TTKOM", "TCELL", "TURKCELL"]
  }

  /** Python's `s.replace('.IS', '')`: occurrences are removed left to right,
      without rescanning what the removal joins. */
  function RemoveSuffixMarks(s: string): (r: string)
    ensures |r| <= |s|
  {
    if |s| >= 3 && s[..3] == ".IS" then RemoveSuffixMarks(s[3..])
    else if s == [] then []
    else [s[0]] + RemoveSuffixMarks(s[1..])
  }

  /** Every occurrence starts with ".I", so a string without that pair is unchanged. */
  lemma {:induction false} RemoveWithoutMark(s: string)
    requires forall i :: 0 <= i < |s| - 1 ==> !(s[i] == '.' && s[i + 1] == 'I')
    ensures RemoveSuffixMarks(s) == s
  {
    if s != [] {
      assert |s| >= 3 ==> s[..3][0] != '.' || s[..3][1] != 'I';
      RemoveWithoutMark(s[1..]);
      assert [s[0]] + s[1..] == s;
    }
  }

  /** A trailing '.IS' is removed and nothing else changes: no occurrence can
      straddle the join, since neither 'I' nor 'S' is a dot. */
  lemma {:induction false} RemoveTrailingMark(s: string)
    ensures RemoveSuffixMarks(s + ".IS") == RemoveSuffixMarks(s)
  {
    var t := s + ".IS";
    if |s| >= 3 && s[..3] == ".IS" {
      assert t[..3] == s[..3];
      assert t[3..] == s[3..] + ".IS";
      RemoveTrailingMark(s[3..]);
    } else if s == [] {
      assert t == ".IS";
      assert t[3..] == [];
    } else {
      assert t[..3] != ".IS" by {
        if |s| >= 3 {
          assert t[..3] == s[..3];
        } else if |s| == 1 {
          assert t[1] == '.';
        } else {
          assert t[2] == '.';
        }
      }
      assert t[0] == s[0] && t[1..] == s[1..] + ".IS";
      RemoveTrailingMark(s[1..]);
    }
  }

  /** The ticker `get_sector` looks up: '.IS' removed first, then upper-cased. */
  function CleanSymbol(symbol: string): (r: string)
    ensures |r| <= |symbol|
    ensures forall i :: 0 <= i < |r| ==> !('a' <= r[i] <= 'z')
  {
    Upper(RemoveSuffixMarks(symbol))
  }

  /** `get_sector`: the first key of `SECTORS`, in table order, whose list holds the ticker. */
  function GetSector(symbol: string): (r: Option<Sector>)
    ensures r.None? <==> forall s: Sector :: CleanSymbol(symbol) !in StocksOf(s)
    ensures r.Some? ==> CleanSymbol(symbol) in StocksOf(r.value)
  {
    var t := CleanSymbol(symbol);
    if t in StocksOf(Airline) then Some(Airline)
    else if t in StocksOf(Bank) then Some(Bank)
    else if t in StocksOf(Holding) then Some(Holding)
    else if t in StocksOf(Energy) then Some(Energy)
    else if t in StocksOf(Tech) then Some(Tech)
    else if t in StocksOf(Export) then Some(Export)
    else if t in StocksOf(Retail) then Some(Retail)
    else if t in StocksOf(Tourism) then Some(Tourism)
    else if t in StocksOf(Telecom) then Some(Telecom)
    else None
  }

  /** A ticker consists of the letters A to Z. */
  predicate IsTicker(s: string)
  {
    forall i :: 0 <= i < |s| ==> 'A' <= s[i] <= 'Z'
  }

  lemma TickerIsClean(s: string)
    requires IsTicker(s)
    ensures CleanSymbol(s) == s && CleanSymbol(s + ".IS") == s
  {
    RemoveWithoutMark(s);
    RemoveTrailingMark(s);
    assert Upper(s) == s;
  }

  /** Every listed ticker is made of capital letters and, since no ticker is
      listed under two sectors, only the first match counts. */
  lemma ListedOnce(sector: Sector, other: Sector, ticker: string)
    requires ticker in StocksOf(sector)
    ensures IsTicker(ticker) && (ticker in StocksOf(other) ==> other == sector)
  {
    match sector
    case Airline => ListedOnlyAirline(other, ticker);
    case Bank => ListedOnlyBank(other, ticker);
    case Holding => ListedOnlyHolding(other, ticker);
    case Energy => ListedOnlyEnergy(other, ticker);
    case Tech => ListedOnlyTech(other, ticker);
    case Export => ListedOnlyExport(other, ticker);
    case Retail => ListedOnlyRetail(other, ticker);
    case Tourism => ListedOnlyTourism(other, ticker);
    case Telecom => ListedOnlyTelecom(other, ticker);
  }

  lemma ListedOnlyAirline(other: Sector, ticker: string)
    requires ticker in StocksOf(Airline)
    ensures IsTicker(ticker) && (ticker in StocksOf(other) ==> other == Airline)
  {
  }

  lemma ListedOnlyBank(other: Sector, ticker: string)
    requires ticker in StocksOf(Bank)
    ensures IsTicker(ticker) && (ticker in StocksOf(other) ==> other == Bank)
  {
  }

  lemma ListedOnlyHolding(other: Sector, ticker: string)
    requires ticker in StocksOf(Holding)
    ensures IsTicker(ticker) && (ticker in StocksOf(other) ==> other == Holding)
  {
  }

  lemma ListedOnlyEnergy(other: Sector, ticker: string)
    requires ticker in StocksOf(Energy)
    ensures IsTicker(ticker) && (ticker in StocksOf(other) ==> other == Energy)
  {
  }

  lemma ListedOnlyTech(other: Sector, ticker: string)
    requires ticker in StocksOf(Tech)
    ensures IsTicker(ticker) && (ticker in StocksOf(other) ==> other == Tech)
  {
  }

  lemma ListedOnlyExport(other: Sector, ticker: string)
    requires ticker in StocksOf(Export)
    ensures IsTicker(ticker) && (ticker in StocksOf(other) ==> other == Export)
  {
  }

  lemma ListedOnlyRetail(other: Sector, ticker: string)
    requires ticker in StocksOf(Retail)
    ensures IsTicker(ticker) && (ticker in StocksOf(other) ==> other == Retail)
  {
  }

  lemma ListedOnlyTourism(other: Sector, ticker: string)
    requires ticker in StocksOf(Tourism)
    ensures IsTicker(ticker) && (ticker in StocksOf(other) ==> other == Tourism)
  {
  }

  lemma ListedOnlyTelecom(other: Sector, ticker: string)
    requires ticker in StocksOf(Telecom)
    ensures IsTicker(ticker) && (ticker in StocksOf(other) ==> other == Telecom)
  {
  }

  /** A symbol whose cleaned form is listed is found under that sector. */
  lemma FoundWhenListed(sector: Sector, symbol: string)
    requires CleanSymbol(symbol) in StocksOf(sector)
    ensures GetSector(symbol) == Some(sector)
  {
    var r := GetSector(symbol);
    ListedOnce(sector, r.value, CleanSymbol(symbol));
  }

  /** Every listed ticker, bare or with the '.IS' suffix, is found under its own sector. */
  lemma ListedTickersFound(sector: Sector, ticker: string)
    requires ticker in StocksOf(sector)
    ensures GetSector(ticker) == Some(sector) && GetSector(ticker + ".IS") == Some(sector)
  {
    ListedOnce(sector, sector, ticker);
    TickerIsClean(ticker);
    FoundWhenListed(sector, ticker);
    FoundWhenListed(sector, ticker + ".IS");
  }

  lemma ListedTickerFound(sector: Sector, ticker: string)
    requires ticker in StocksOf(sector)
    ensures GetSector(ticker) == Some(sector)
  {
    ListedTickersFound(sector, ticker);
  }

  /** A cleaned symbol that is not made of capital letters is never found. */
  lemma NonTickerNotFound(symbol: string)
    requires !IsTicker(CleanSymbol(symbol))
    ensures GetSector(symbol) == None
  {
    var r := GetSector(symbol);
    if r.Some? {
      ListedOnce(r.value, r.value, CleanSymbol(symbol));
    }
  }

  /** A lower-case '.is' holds no occurrence of '.IS' and none can straddle the join. */
  lemma {:induction false} RemoveKeepsLowerSuffix(s: string)
    ensures RemoveSuffixMarks(s + ".is") == RemoveSuffixMarks(s) + ".is"
  {
    var t := s + ".is";
    if |s| >= 3 && s[..3] == ".IS" {
      assert t[..3] == s[..3];
      assert t[3..] == s[3..] + ".is";
      RemoveKeepsLowerSuffix(s[3..]);
      assert RemoveSuffixMarks(t) == RemoveSuffixMarks(t[3..]);
    } else if s == [] {
      assert t == ".is";
      LowerSuffixAlone();
    } else {
      assert t[..3] != ".IS" by {
        if |s| >= 3 {
          assert t[..3] == s[..3];
        } else if |s| == 1 {
          assert t[1] == '.';
        } else {
          assert t[2] == '.';
        }
      }
      assert t[0] == s[0] && t[1..] == s[1..] + ".is";
      RemoveKeepsLowerSuffix(s[1..]);
      assert RemoveSuffixMarks(t) == [s[0]] + RemoveSuffixMarks(s[1..] + ".is");
      assert RemoveSuffixMarks(s) == [s[0]] + RemoveSuffixMarks(s[1..]);
    }
  }

  lemma LowerSuffixAlone()
    ensures RemoveSuffixMarks(".is") == ".is"
  {
    var t := ".is";
    assert t[1] == 'i' && t[1..] == "is" && t[2..] == "s" && t[3..] == [];
    assert RemoveSuffixMarks("s") == "s";
    assert RemoveSuffixMarks("is") == "is";
  }

  /** The suffix is removed before upper-casing, so a lower-case '.is' survives
      as '.IS' and no such symbol is found, whatever precedes it. */
  lemma LowerCaseSuffixNotFound(s: string)
    ensures GetSector(s + ".is") == None
  {
    RemoveKeepsLowerSuffix(s);
    var r := RemoveSuffixMarks(s);
    var c := CleanSymbol(s + ".is");
    assert c == Upper(r + ".is");
    assert c[|r|] == UpperChar((r + ".is")[|r|]) == '.';
    NonTickerNotFound(s + ".is");
  }

  // ---------------------------------------------------------------------------
  // The sector scorers

  /** The inputs a scorer reacts to. */
  datatype Driver = UsdTry | EurTry | Oil | PolicyRate | Index

  /** One appended factor: the driver and what it added to the score. */
  datatype Term = Term(driver: Driver, delta: int)

  /** The description of a sector score: the factor list, 'Veri yetersiz',
      the caught exception, 'Sektor bilgisi yok', or a sector without a scorer. */
  datatype SectorNote = Factors(terms: seq<Term>) | InsufficientData | Failed | NoSectorInfo | GeneralSector(sector: Sector)

  datatype SectorReading = SectorReading(score: int, note: SectorNote)

  function Deltas(terms: seq<Term>): int
  {
    if terms == [] then 0 else Deltas(terms[..|terms| - 1]) + terms[|terms| - 1].delta
  }

  /** The clamped sum of the fired terms, or 'Veri yetersiz' when none fired. */
  function Tally(terms: seq<Term>): (r: SectorReading)
    ensures -10 <= r.score <= 10
    ensures r.note == InsufficientData <==> terms == []
    ensures terms == [] ==> r.score == 0
    ensures terms != [] ==> r.note == Factors(terms) && r.score == ClampInt(Deltas(terms), -10, 10)
  {
    SectorReading(ClampInt(Deltas(terms), -10, 10), if terms == [] then InsufficientData else Factors(terms))
  }

  /** The factor a tier appends: nothing when the tier adds 0. */
  function Fired(driver: Driver, delta: int): seq<Term>
  {
    if delta != 0 then [Term(driver, delta)] else []
  }

  /** The airline USD/TRY tier: a rising dollar costs, a falling one helps. */
  function AirlineUsd(change: real): (d: int)
    ensures -10 <= d <= 6
    ensures d < 0 <==> change >= 2.0
    ensures d > 0 <==> change <= -2.0
  {
    if change >= 5.0 then -10 else if change >= 2.0 then -6 else if change <= -2.0 then 6 else 0
  }

  /** The airline oil tier: rising fuel costs, falling fuel helps. */
  function AirlineOil(change: real): (d: int)
    ensures -6 <= d <= 3
    ensures d < 0 <==> change >= 5.0
    ensures d > 0 <==> change <= -5.0
  {
    if change >= 10.0 then -6 else if change >= 5.0 then -3 else if change <= -5.0 then 3 else 0
  }

  /** `analyze_airline_sector` on the USD/TRY and oil 30-day changes. */
  function AirlineSector(usd: Entry<real>, oil: Entry<real>): (r: SectorReading)
    ensures -10 <= r.score <= 10
    ensures usd.Absent? || oil.Absent? <==> r == SectorReading(0, Failed)
  {
    if usd.Absent? || oil.Absent? then SectorReading(0, Failed)
    else Tally((if usd.Given? then Fired(UsdTry, AirlineUsd(usd.value)) else []) + (if oil.Given? then Fired(Oil, AirlineOil(oil.value)) else []))
  }

  /** The bank policy-rate tier: never neutral, positive from 40 on. */
  function BankRate(rate: real): (d: int)
    ensures -2 <= d <= 4 && d != 0
    ensures d > 0 <==> rate >= 40.0
  {
    if rate >= 50.0 then 4 else if rate >= 40.0 then 2 else -2
  }

  /** The bank index tier: only a falling market counts, against the banks. */
  function BankIndex(change: real): (d: int)
    ensures -5 <= d <= 0
    ensures d < 0 <==> change <= -5.0
  {
    if change <= -10.0 then -5 else if change <= -5.0 then -2 else 0
  }

  /** `analyze_bank_sector`: the rate is read with `get`, the index change by key. */
  function BankSector(rate: Entry<real>, index: Entry<real>): (r: SectorReading)
    ensures -10 <= r.score <= 10
    ensures index.Absent? <==> r == SectorReading(0, Failed)
    ensures !index.Absent? ==> (r.note == InsufficientData <==> !rate.Given? && !(index.Given? && index.value <= -5.0))
  {
    if index.Absent? then SectorReading(0, Failed)
    else Tally((if rate.Given? then Fired(PolicyRate, BankRate(rate.value)) else []) + (if index.Given? then Fired(Index, BankIndex(index.value)) else []))
  }

  /** The exporter USD/TRY tier: a rising dollar helps, a falling one costs. */
  function ExportUsd(change: real): (d: int)
    ensures -5 <= d <= 8
    ensures d > 0 <==> change >= 2.0
    ensures d < 0 <==> change <= -3.0
  {
    if change >= 5.0 then 8 else if change >= 2.0 then 5 else if change <= -3.0 then -5 else 0
  }

  /** The exporter EUR/TRY tier. */
  function ExportEur(change: real): (d: int)
    ensures -3 <= d <= 4
    ensures d > 0 <==> change >= 3.0
    ensures d < 0 <==> change <= -3.0
  {
    if change >= 3.0 then 4 else if change <= -3.0 then -3 else 0
  }

  /** `analyze_export_sector` on the USD/TRY and EUR/TRY 30-day changes. */
  function ExportSector(usd: Entry<real>, eur: Entry<real>): (r: SectorReading)
    ensures -10 <= r.score <= 10
    ensures usd.Absent? || eur.Absent? <==> r == SectorReading(0, Failed)
  {
    if usd.Absent? || eur.Absent? then SectorReading(0, Failed)
    else Tally((if usd.Given? then Fired(UsdTry, ExportUsd(usd.value)) else []) + (if eur.Given? then Fired(EurTry, ExportEur(eur.value)) else []))
  }

  /** The importer-retail USD/TRY tier: a rising dollar costs, a falling one helps. */
  function RetailUsd(change: real): (d: int)
    ensures -7 <= d <= 4
    ensures d < 0 <==> change >= 2.0
    ensures d > 0 <==> change <= -2.0
  {
    if change >= 5.0 then -7 else if change >= 2.0 then -4 else if change <= -2.0 then 4 else 0
  }

  /** The retail index tier: follows the market both ways. */
  function RetailIndex(change: real): (d: int)
    ensures -3 <= d <= 3
    ensures d > 0 <==> change >= 5.0
    ensures d < 0 <==> change <= -5.0
  {
    if change >= 5.0 then 3 else if change <= -5.0 then -3 else 0
  }

  /** `analyze_retail_sector` on the USD/TRY and index 30-day changes. */
  function RetailSector(usd: Entry<real>, index: Entry<real>): (r: SectorReading)
    ensures -10 <= r.score <= 10
    ensures usd.Absent? || index.Absent? <==> r == SectorReading(0, Failed)
  {
    if usd.Absent? || index.Absent? then SectorReading(0, Failed)
    else Tally((if usd.Given? then Fired(UsdTry, RetailUsd(usd.value)) else []) + (if index.Given? then Fired(Index, RetailIndex(index.value)) else []))
  }

  /** Every tier is monotone in its input: the airline and retail USD tiers
      and the airline oil tier never rise as the change grows, the bank,
      export and retail-index tiers never fall. */
  lemma TiersMonotone(a: real, b: real)
    requires a <= b
    ensures AirlineUsd(b) <= AirlineUsd(a) && AirlineOil(b) <= AirlineOil(a)
    ensures RetailUsd(b) <= RetailUsd(a)
    ensures BankRate(a) <= BankRate(b) && BankIndex(a) <= BankIndex(b)
    ensures ExportUsd(a) <= ExportUsd(b) && ExportEur(a) <= ExportEur(b)
    ensures RetailIndex(a) <= RetailIndex(b)
  {
  }

  /** Two tiers: the clamped sum of their deltas, 'Veri yetersiz' exactly when both are 0. */
  lemma TallyOfTwo(d1: Driver, a: int, d2: Driver, b: int)
    ensures var r := Tally(Fired(d1, a) + Fired(d2, b));
            r.score == ClampInt(a + b, -10, 10) && (r.note == InsufficientData <==> a == 0 && b == 0)
  {
    var ts := Fired(d1, a) + Fired(d2, b);
    TallyBuilt(ts, a + b);
  }

  /** The airline score falls as the lira or oil rises. */
  lemma AirlineMonotone(u1: real, o1: real, u2: real, o2: real)
    requires u1 <= u2 && o1 <= o2
    ensures AirlineSector(Given(u2), Given(o2)).score <= AirlineSector(Given(u1), Given(o1)).score
  {
    assert AirlineSector(Given(u1), Given(o1)) == Tally(Fired(UsdTry, AirlineUsd(u1)) + Fired(Oil, AirlineOil(o1)));
    assert AirlineSector(Given(u2), Given(o2)) == Tally(Fired(UsdTry, AirlineUsd(u2)) + Fired(Oil, AirlineOil(o2)));
    TallyOfTwo(UsdTry, AirlineUsd(u1), Oil, AirlineOil(o1));
    TallyOfTwo(UsdTry, AirlineUsd(u2), Oil, AirlineOil(o2));
    assert AirlineUsd(u2) + AirlineOil(o2) <= AirlineUsd(u1) + AirlineOil(o1);
  }

  /** The bank score rises with the policy rate and with the index. */
  lemma BankMonotone(r1: real, i1: real, r2: real, i2: real)
    requires r1 <= r2 && i1 <= i2
    ensures BankSector(Given(r1), Given(i1)).score <= BankSector(Given(r2), Given(i2)).score
  {
    assert BankSector(Given(r1), Given(i1)) == Tally(Fired(PolicyRate, BankRate(r1)) + Fired(Index, BankIndex(i1)));
    assert BankSector(Given(r2), Given(i2)) == Tally(Fired(PolicyRate, BankRate(r2)) + Fired(Index, BankIndex(i2)));
    TallyOfTwo(PolicyRate, BankRate(r1), Index, BankIndex(i1));
    TallyOfTwo(PolicyRate, BankRate(r2), Index, BankIndex(i2));
    assert BankRate(r1) + BankIndex(i1) <= BankRate(r2) + BankIndex(i2);
  }

  /** The export score rises with both exchange rates. */
  lemma ExportMonotone(u1: real, e1: real, u2: real, e2: real)
    requires u1 <= u2 && e1 <= e2
    ensures ExportSector(Given(u1), Given(e1)).score <= ExportSector(Given(u2), Given(e2)).score
  {
    assert ExportSector(Given(u1), Given(e1)) == Tally(Fired(UsdTry, ExportUsd(u1)) + Fired(EurTry, ExportEur(e1)));
    assert ExportSector(Given(u2), Given(e2)) == Tally(Fired(UsdTry, ExportUsd(u2)) + Fired(EurTry, ExportEur(e2)));
    TallyOfTwo(UsdTry, ExportUsd(u1), EurTry, ExportEur(e1));
    TallyOfTwo(UsdTry, ExportUsd(u2), EurTry, ExportEur(e2));
    assert ExportUsd(u1) + ExportEur(e1) <= ExportUsd(u2) + ExportEur(e2);
  }

  /** The retail score falls as the lira rises and rises with the index. */
  lemma RetailMonotone(u1: real, i1: real, u2: real, i2: real)
    requires u1 <= u2 && i2 <= i1
    ensures RetailSector(Given(u2), Given(i2)).score <= RetailSector(Given(u1), Given(i1)).score
  {
    assert RetailSector(Given(u1), Given(i1)) == Tally(Fired(UsdTry, RetailUsd(u1)) + Fired(Index, RetailIndex(i1)));
    assert RetailSector(Given(u2), Given(i2)) == Tally(Fired(UsdTry, RetailUsd(u2)) + Fired(Index, RetailIndex(i2)));
    TallyOfTwo(UsdTry, RetailUsd(u1), Index, RetailIndex(i1));
    TallyOfTwo(UsdTry, RetailUsd(u2), Index, RetailIndex(i2));
    assert RetailUsd(u2) + RetailIndex(i2) <= RetailUsd(u1) + RetailIndex(i1);
  }

  /** Only the airline (down to -16) and export (up to 12) tiers can leave
      [-10, 10]; the bank and retail clamps never act. */
  lemma ClampActsOnlyForAirlineAndExport(x: real, y: real)
    ensures -10 <= BankRate(x) + BankIndex(y) <= 10 && -10 <= RetailUsd(x) + RetailIndex(y) <= 10
    ensures AirlineUsd(5.0) + AirlineOil(10.0) == -16 && ExportUsd(5.0) + ExportEur(3.0) == 12
  {
  }

  // ---------------------------------------------------------------------------
  // The scorers as written: a running score and an appended factor list

  method AnalyzeAirlineSector(usd: Entry<real>, oil: Entry<real>) returns (r: SectorReading)
    ensures r == AirlineSector(usd, oil)
  {
    if usd.Absent? || oil.Absent? {
      return SectorReading(0, Failed);
    }
    var score := 0;
    var factors: seq<Term> := [];
    if usd.Given? {
      if usd.value >= 5.0 {
        score, factors := score - 10, factors + [Term(UsdTry, -10)];
      } else if usd.value >= 2.0 {
        score, factors := score - 6, factors + [Term(UsdTry, -6)];
      } else if usd.value <= -2.0 {
        score, factors := score + 6, factors + [Term(UsdTry, 6)];
      }
    }
    if oil.Given? {
      if oil.value >= 10.0 {
        score, factors := score - 6, factors + [Term(Oil, -6)];
      } else if oil.value >= 5.0 {
        score, factors := score - 3, factors + [Term(Oil, -3)];
      } else if oil.value <= -5.0 {
        score, factors := score + 3, factors + [Term(Oil, 3)];
      }
    }
    assert factors == (if usd.Given? then Fired(UsdTry, AirlineUsd(usd.value)) else []) + (if oil.Given? then Fired(Oil, AirlineOil(oil.value)) else []);
    TallyBuilt(factors, score);
    score := ClampInt(score, -10, 10);
    r := SectorReading(score, if factors == [] then InsufficientData else Factors(factors));
  }

  method AnalyzeBankSector(rate: Entry<real>, index: Entry<real>) returns (r: SectorReading)
    ensures r == BankSector(rate, index)
  {
    if index.Absent? {
      return SectorReading(0, Failed);
    }
    var score := 0;
    var factors: seq<Term> := [];
    if rate.Given? {
      if rate.value >= 50.0 {
        score, factors := score + 4, factors + [Term(PolicyRate, 4)];
      } else if rate.value >= 40.0 {
        score, factors := score + 2, factors + [Term(PolicyRate, 2)];
      } else {
        score, factors := score - 2, factors + [Term(PolicyRate, -2)];
      }
    }
    if index.Given? {
      if index.value <= -10.0 {
        score, factors := score - 5, factors + [Term(Index, -5)];
      } else if index.value <= -5.0 {
        score, factors := score - 2, factors + [Term(Index, -2)];
      }
    }
    assert factors == (if rate.Given? then Fired(PolicyRate, BankRate(rate.value)) else []) + (if index.Given? then Fired(Index, BankIndex(index.value)) else []);
    TallyBuilt(factors, score);
    score := ClampInt(score, -10, 10);
    r := SectorReading(score, if factors == [] then InsufficientData else Factors(factors));
  }

  method AnalyzeExportSector(usd: Entry<real>, eur: Entry<real>) returns (r: SectorReading)
    ensures r == ExportSector(usd, eur)
  {
    if usd.Absent? || eur.Absent? {
      return SectorReading(0, Failed);
    }
    var score := 0;
    var factors: seq<Term> := [];
    if usd.Given? {
      if usd.value >= 5.0 {
        score, factors := score + 8, factors + [Term(UsdTry, 8)];
      } else if usd.value >= 2.0 {
        score, factors := score + 5, factors + [Term(UsdTry, 5)];
      } else if usd.value <= -3.0 {
        score, factors := score - 5, factors + [Term(UsdTry, -5)];
      }
    }
    if eur.Given? {
      if eur.value >= 3.0 {
        score, factors := score + 4, factors + [Term(EurTry, 4)];
      } else if eur.value <= -3.0 {
        score, factors := score - 3, factors + [Term(EurTry, -3)];
      }
    }
    assert factors == (if usd.Given? then Fired(UsdTry, ExportUsd(usd.value)) else []) + (if eur.Given? then Fired(EurTry, ExportEur(eur.value)) else []);
    TallyBuilt(factors, score);
    score := ClampInt(score, -10, 10);
    r := SectorReading(score, if factors == [] then InsufficientData else Factors(factors));
  }

  method AnalyzeRetailSector(usd: Entry<real>, index: Entry<real>) returns (r: SectorReading)
    ensures r == RetailSector(usd, index)
  {
    if usd.Absent? || index.Absent? {
      return SectorReading(0, Failed);
    }
    var score := 0;
    var factors: seq<Term> := [];
    if usd.Given? {
      if usd.value >= 5.0 {
        score, factors := score - 7, factors + [Term(UsdTry, -7)];
      } else if usd.value >= 2.0 {
        score, factors := score - 4, factors + [Term(UsdTry, -4)];
      } else if usd.value <= -2.0 {
        score, factors := score + 4, factors + [Term(UsdTry, 4)];
      }
    }
    if index.Given? {
      if index.value >= 5.0 {
        score, factors := score + 3, factors + [Term(Index, 3)];
      } else if index.value <= -5.0 {
        score, factors := score - 3, factors + [Term(Index, -3)];
      }
    }
    assert factors == (if usd.Given? then Fired(UsdTry, RetailUsd(usd.value)) else []) + (if index.Given? then Fired(Index, RetailIndex(index.value)) else []);
    TallyBuilt(factors, score);
    score := ClampInt(score, -10, 10);
    r := SectorReading(score, if factors == [] then InsufficientData else Factors(factors));
  }

  /** At most two appended terms: their running score is their delta sum. */
  lemma TallyBuilt(factors: seq<Term>, score: int)
    requires |factors| <= 2
    requires score == if factors == [] then 0 else if |factors| == 1 then factors[0].delta else factors[0].delta + factors[1].delta
    ensures Tally(factors) == SectorReading(ClampInt(score, -10, 10), if factors == [] then InsufficientData else Factors(factors))
  {
    if |factors| == 2 {
      var init := factors[..|factors| - 1];
      assert init == [factors[0]] && init[..|init| - 1] == [];
      assert Deltas(init) == factors[0].delta;
      assert Deltas(factors) == factors[0].delta + factors[1].delta;
    } else if |factors| == 1 {
      assert factors[..|factors| - 1] == [];
      assert Deltas(factors) == factors[0].delta;
    }
  }

  // ---------------------------------------------------------------------------
  // Dispatch

  /** `analyze_sector_specific`: the scorer of the symbol's sector, or 0 with a label. */
  function AnalyzeSectorSpecific(data: Macro.Snapshot, symbol: string): (r: SectorReading)
    ensures -10 <= r.score <= 10
    ensures GetSector(symbol).None? <==> r == SectorReading(0, NoSectorInfo)
    ensures GetSector(symbol).Some? && GetSector(symbol).value !in {Airline, Bank, Export, Retail} ==>
              r == SectorReading(0, GeneralSector(GetSector(symbol).value))
  {
    match GetSector(symbol)
    case None => SectorReading(0, NoSectorInfo)
    case Some(Airline) => AirlineSector(data.usdTry.change30d, data.oil.change30d)
    case Some(Bank) => BankSector(data.tcmbRate, data.bist100.change30d)
    case Some(Export) => ExportSector(data.usdTry.change30d, data.eurTry.change30d)
    case Some(Retail) => RetailSector(data.usdTry.change30d, data.bist100.change30d)
    case Some(other) => SectorReading(0, GeneralSector(other))
  }

  /** On the sample snapshot every airline ticker (THYAO, PGSUS) scores -9:
      -6 for the dollar, -3 for oil. */
  lemma SampleAirline(ticker: string)
    requires ticker in StocksOf(Airline)
    ensures AnalyzeSectorSpecific(Macro.Sample, ticker) == SectorReading(-9, Factors([Term(UsdTry, -6), Term(Oil, -3)]))
  {
    ListedTickerFound(Airline, ticker);
    var d := Macro.Sample;
    assert AnalyzeSectorSpecific(d, ticker) == AirlineSector(d.usdTry.change30d, d.oil.change30d);
    assert d.usdTry.change30d == Given(3.2) && d.oil.change30d == Given(8.3);
    var ts := [Term(UsdTry, -6), Term(Oil, -3)];
    assert AirlineUsd(3.2) == -6 && AirlineOil(8.3) == -3;
    assert Fired(UsdTry, -6) + Fired(Oil, -3) == ts;
    TallyBuilt(ts, -9);
  }
}
