/** The stock lists of src/data/bist_stocks.py and their queries: symbol
    validation, list lookup, the similar-symbol suggestion and the small
    sector table. */
module BistStocks {
  import opened Common

  /** `BIST30` as listed (22 tickers). */
  const Bist30: seq<string> :=
    ["ASELS", "BIMAS", "EREGL", "GARAN", "HEKTS", "ISCTR", "KCHOL", "KOZAA", "KOZAL", "PETKM"] +
    ["PGSUS", "SAHOL", "SASA", "SISE", "TAVHL", "TCELL", "THYAO", "TKFEN", "TOASO", "TUPRS"] +
    ["VAKBN", "YKBNK"]

  /** The tickers `BIST100` appends to `BIST30`. */
  const Bist100Extras: seq<string> :=
    ["ADEL", "ADESE", "AEFES", "AFYON", "AGHOL", "AKBNK", "AKCNS", "AKENR", "AKSA", "AKSEN"] +
    ["ALARK", "ALBRK", "ALGYO", "ALKIM", "ANSGR", "ARCLK", "ARDYZ", "ASTOR", "BAGFS", "BANVT"] +
    ["BRSAN", "BFREN", "BRYAT", "BTCIM", "BUCIM", "CCOLA", "CEMTS", "CIMSA", "DOAS", "DOHOL"] +
    ["ECILC", "EGEEN", "EKGYO", "ENKAI", "ENJSA", "EUPWR", "FROTO", "GESAN", "GLYHO", "GOLTS"] +
    ["GOODY", "GOZDE", "GUBRF", "HALKB", "IPEKE", "JANTS", "KARSN", "KARTN", "KORDS", "KONYA"] +
    ["KRDMD", "KTLEV", "LOGO", "MAVI", "MGROS", "ODAS", "OTKAR", "OYAKC", "PENTA", "PRKME"] +
    ["QUAGR", "SELEC", "SKBNK", "SOKM", "TATGD", "TBORG", "TKNSA", "TMSN", "TRGYO", "TSKB"] +
    ["TTKOM", "TTRAK", "ULKER", "VESTL", "VESBE", "YATAS"]

  const Bist100: seq<string> := Bist30 + Bist100Extras

  /** `POPULAR_STOCKS`. */
  const Popular: seq<string> :=
    ["THYAO", "PGSUS", "TUPRS", "AKBNK", "GARAN", "ISCTR", "YKBNK", "VAKBN", "SASA", "ASELS"] +
    ["KCHOL", "SAHOL", "TCELL", "BIMAS", "SOKM", "EREGL", "ARCLK", "TOASO", "FROTO", "SISE"]

  /** The list a name selects: 'BIST30', 'POPULAR', or 'BIST100' for any other name. */
  datatype StockList = Bist30List | PopularList | Bist100List

  function ListNamed(name: string): (l: StockList)
    ensures l == Bist30List <==> Upper(name) == "BIST30"
    ensures l == PopularList <==> Upper(name) == "POPULAR"
  {
    var n := Upper(name);
    if n == "BIST30" then Bist30List else if n == "POPULAR" then PopularList else Bist100List
  }

  function Contents(l: StockList): seq<string>
  {
    match l
    case Bist30List => Bist30
    case PopularList => Popular
    case Bist100List => Bist100
  }

  /** One trailing '.IS' dropped. */
  function DropSuffix(u: string): (s: string)
    ensures IsSuffix(".IS", u) ==> s + ".IS" == u
    ensures !IsSuffix(".IS", u) ==> s == u
    ensures |s| <= |u| && s == u[..|s|]
  {
    if IsSuffix(".IS", u) then u[..|u| - 3] else u
  }

  /** The symbol as both queries see it: stripped, upper-cased, without '.IS'. */
  function Normalize(symbol: string): (n: string)
    ensures |n| <= |symbol|
    ensures forall i :: 0 <= i < |n| ==> !('a' <= n[i] <= 'z')
  {
    var u := Upper(Strip(symbol));
    UpperHasNoLower(Strip(symbol));
    DropSuffix(u)
  }

  lemma UpperHasNoLower(s: string)
    ensures forall i :: 0 <= i < |Upper(s)| ==> !('a' <= Upper(s)[i] <= 'z')
  {
  }

  /** `is_valid_bist_stock`. */
  predicate IsValidBistStock(symbol: string, checkList: string)
  {
    Normalize(symbol) in Contents(ListNamed(checkList))
  }

  /** `get_stock_list`: a copy of the list the name selects. */
  function GetStockList(listName: string): (r: seq<string>)
    ensures Upper(listName) == "BIST30" ==> r == Bist30
    ensures Upper(listName) == "POPULAR" ==> r == Popular
    ensures Upper(listName) != "BIST30" && Upper(listName) != "POPULAR" ==> r == Bist100
  {
    Contents(ListNamed(listName))
  }

  /** Validation is membership in the list `get_stock_list` returns for the same name. */
  lemma ValidMeansListed(symbol: string, listName: string)
    ensures IsValidBistStock(symbol, listName) <==> Normalize(symbol) in GetStockList(listName)
  {
  }

  lemma {:induction false} UpperIdempotent(s: string)
    ensures Upper(Upper(s)) == Upper(s)
  {
    if s != [] {
      UpperIdempotent(s[1..]);
      assert Upper(Upper(s)) == [UpperChar(UpperChar(s[0]))] + Upper(Upper(s[1..]));
    }
  }

  /** List names ignore ASCII case. */
  lemma StockListIgnoresCase(listName: string)
    ensures GetStockList(Upper(listName)) == GetStockList(listName)
  {
    UpperIdempotent(listName);
  }

  /** Upper-casing leaves a name without lower-case letters as it is. */
  lemma {:induction false} UpperOfUpper(s: string)
    requires forall i :: 0 <= i < |s| ==> !('a' <= s[i] <= 'z')
    ensures Upper(s) == s
  {
  }

  lemma {:induction false} UpperConcat(a: string, b: string)
    ensures Upper(a + b) == Upper(a) + Upper(b)
  {
  }

  /** A name that is not BIST30 or POPULAR selects BIST100, the default. */
  lemma DefaultList()
    ensures GetStockList("BIST100") == Bist100 && GetStockList("bist 30") == Bist100
  {
    UpperOfUpper("BIST100");
    assert Upper("bist 30") == "BIST 30";
  }

  lemma NamedLists()
    ensures ListNamed("BIST30") == Bist30List && ListNamed("POPULAR") == PopularList && ListNamed("BIST100") == Bist100List
  {
    NamedList("BIST30");
    NamedList("POPULAR");
    NamedList("BIST100");
  }

  /** A list name written in capitals is its own upper-case form. */
  lemma NamedList(name: string)
    requires name == "BIST30" || name == "POPULAR" || name == "BIST100"
    ensures Upper(name) == name
  {
    UpperOfUpper(name);
  }

  /** BIST100 extends BIST30, so a symbol valid for BIST30 is valid for BIST100. */
  lemma Bist30ValidIsBist100Valid(symbol: string)
    requires IsValidBistStock(symbol, "BIST30")
    ensures IsValidBistStock(symbol, "BIST100")
  {
    NamedLists();
  }

  lemma PopularInBist100(n: string)
    requires n in Popular
    ensures n in Bist100
  {
    assert Bist100Extras[5] == "AKBNK" && Bist100Extras[63] == "SOKM" && Bist100Extras[15] == "ARCLK" && Bist100Extras[36] == "FROTO";
    assert n in Bist30 || n in Bist100Extras;
  }

  /** Every popular stock is a BIST100 stock. */
  lemma PopularValidIsBist100Valid(symbol: string)
    requires IsValidBistStock(symbol, "POPULAR")
    ensures IsValidBistStock(symbol, "BIST100")
  {
    NamedLists();
    PopularInBist100(Normalize(symbol));
  }

  /** Surrounding blanks are stripped from a word that does not begin or end with one. */
  lemma StripPadded(t: string)
    requires t != [] && !IsSpace(t[0]) && !IsSpace(t[|t| - 1])
    ensures Strip(" " + t + " ") == t
  {
    var p := " " + t + " ";
    assert p[1..] == t + " " && (t + " ")[0] == t[0];
    assert TrimLeft(p) == t + " ";
    assert (t + " ")[..|t|] == t && TrimRight(t) == t;
  }

  /** A name that needs no normalizing: no blank at either end, no lower-case
      letter and no '.IS' suffix. */
  lemma NormalizePlain(t: string)
    requires t == [] || (!IsSpace(t[0]) && !IsSpace(t[|t| - 1]))
    requires forall i :: 0 <= i < |t| ==> !('a' <= t[i] <= 'z')
    requires !IsSuffix(".IS", t)
    ensures Normalize(t) == t
  {
    StripUnpadded(t);
    UpperOfUpper(t);
  }

  lemma StripAroundSuffix(t: string)
    requires t != [] && !IsSpace(t[0])
    ensures Strip(" " + t + ".is ") == t + ".is"
  {
    assert " " + t + ".is " == " " + (t + ".is") + " " by {
      assert ".is " == ".is" + " ";
    }
    StripPadded(t + ".is");
  }

  lemma UpperAroundSuffix(t: string)
    ensures Upper(t + ".is") == Upper(t) + ".IS"
  {
    UpperConcat(t, ".is");
    assert Upper(".is") == ".IS";
  }

  lemma DropAppendedSuffix(u: string)
    ensures DropSuffix(u + ".IS") == u
  {
    var v := u + ".IS";
    assert IsSuffix(".IS", v);
    assert v[..|v| - 3] == u;
  }

  /** Blanks around the symbol and a lower-case '.is' are both absorbed, since
      the symbol is stripped and upper-cased before the suffix is removed. */
  lemma NormalizePaddedLowerSuffix(t: string)
    requires t != [] && !IsSpace(t[0])
    ensures Normalize(" " + t + ".is ") == Upper(t)
  {
    StripAroundSuffix(t);
    UpperAroundSuffix(t);
    DropAppendedSuffix(Upper(t));
  }

  /** Every BIST100 code is at most five characters long. */
  lemma ShortCodes()
    ensures forall x :: x in Bist100 ==> |x| <= 5
  {
    ShortBist30Codes();
    ShortExtraCodes();
  }

  lemma ShortBist30Codes()
    ensures forall x :: x in Bist30 ==> |x| <= 5
  {
  }

  lemma ShortExtraCodes()
    ensures forall x :: x in Bist100Extras ==> |x| <= 5
  {
  }

  /** Stripping leaves a word that neither begins nor ends with a blank. */
  lemma StripUnpadded(v: string)
    requires v == [] || (!IsSpace(v[0]) && !IsSpace(v[|v| - 1]))
    ensures Strip(v) == v
  {
    assert TrimLeft(v) == v;
  }

  /** A code of capital letters is its own normal form, with or without '.IS'. */
  lemma NormalizeCode(t: string)
    requires forall i :: 0 <= i < |t| ==> 'A' <= t[i] <= 'Z'
    ensures Normalize(t) == t && Normalize(t + ".IS") == t
  {
    if |t| >= 3 {
      assert t[|t| - 3] != '.';
      assert t[|t| - 3..] != ".IS";
    }
    NormalizePlain(t);
    NormalizeSuffixedCode(t);
  }

  lemma NormalizeSuffixedCode(t: string)
    requires forall i :: 0 <= i < |t| ==> 'A' <= t[i] <= 'Z'
    ensures Normalize(t + ".IS") == t
  {
    var v := t + ".IS";
    assert v[0] == (if t == [] then '.' else t[0]);
    assert v[|v| - 1] == 'S';
    StripUnpadded(v);
    UpperConcat(t, ".IS");
    UpperOfUpper(t);
    UpperOfUpper(".IS");
    DropAppendedSuffix(t);
  }

  /** A listed code is valid for its list, bare or with the '.IS' suffix. */
  lemma ListedCodeValid(t: string, listName: string)
    requires t in GetStockList(listName)
    requires forall i :: 0 <= i < |t| ==> 'A' <= t[i] <= 'Z'
    ensures IsValidBistStock(t, listName) && IsValidBistStock(t + ".IS", listName)
  {
    NormalizeCode(t);
  }

  /** A listed code typed in lower case, padded with blanks and given a
      lower-case '.is' is still valid. */
  lemma PaddedLowerCaseValid(t: string, listName: string)
    requires t != [] && !IsSpace(t[0]) && Upper(t) in GetStockList(listName)
    ensures IsValidBistStock(" " + t + ".is ", listName)
  {
    NormalizePaddedLowerSuffix(t);
  }

  /** No list holds a code longer than five characters, so such a symbol (for
      instance 'FAKE123') is refused by every list. */
  lemma LongSymbolInvalid(symbol: string, listName: string)
    requires |Normalize(symbol)| > 5
    ensures !IsValidBistStock(symbol, listName)
  {
    var n := Normalize(symbol);
    match ListNamed(listName)
    case Bist30List =>
      ShortBist30Codes();
    case PopularList =>
      if n in Popular {
        PopularInBist100(n);
        ShortCodes();
      }
    case Bist100List =>
      ShortCodes();
  }

  // ---------------------------------------------------------------------------
  // Suggestions

  /** A stock matches when it starts with the first two characters of the
      symbol or contains its first three. */
  predicate Matches(stock: string, symbol: string)
  {
    IsPrefix(Prefix(symbol, 2), stock) || IsSubstring(Prefix(symbol, 3), stock)
  }

  /** The matching stocks, in list order. */
  function Similar(stocks: seq<string>, symbol: string): (r: seq<string>)
    ensures |r| <= |stocks|
    ensures forall s :: s in r <==> s in stocks && Matches(s, symbol)
  {
    if stocks == [] then []
    else
      var last := stocks[|stocks| - 1];
      Similar(stocks[..|stocks| - 1], symbol) + (if Matches(last, symbol) then [last] else [])
  }

  /** The matches keep the list order: the matches of a concatenation are
      the matches of its first part followed by those of its second. */
  lemma {:induction false} SimilarSplit(a: seq<string>, b: seq<string>, symbol: string)
    ensures Similar(a + b, symbol) == Similar(a, symbol) + Similar(b, symbol)
  {
    if b != [] {
      var init := b[..|b| - 1];
      SimilarSplit(a, init, symbol);
      assert (a + b)[..|a + b| - 1] == a + init;
    } else {
      assert a + b == a;
    }
  }

  /** Python's `xs[:n]`, where a negative n counts from the end. */
  function PyTake(xs: seq<string>, n: int): (r: seq<string>)
    ensures n >= 0 ==> |r| == if n <= |xs| then n else |xs|
    ensures n < 0 ==> |r| == if |xs| + n >= 0 then |xs| + n else 0
    ensures r == xs[..|r|]
  {
    if n >= 0 then (if n <= |xs| then xs[..n] else xs)
    else if |xs| + n >= 0 then xs[..|xs| + n] else []
  }

  /** A scan of `stocks` for the symbol: the symbol alone when it is listed,
      otherwise the first `maxResults` matches. */
  function SuggestFrom(stocks: seq<string>, s: string, maxResults: int): (r: seq<string>)
    ensures s in stocks ==> r == [s]
    ensures s !in stocks ==> r == PyTake(Similar(stocks, s), maxResults)
  {
    if s in stocks then [s] else PyTake(Similar(stocks, s), maxResults)
  }

  /** What `suggest_similar_stocks` returns. */
  function Suggestions(symbol: string, maxResults: int): seq<string>
  {
    SuggestFrom(Bist100, Normalize(symbol), maxResults)
  }

  /** Outside the exact match every suggestion is a listed stock that matches,
      in list order, and a positive limit bounds the count; a limit of at least
      the list's length lets every matching stock through. */
  lemma SuggestFromMatches(stocks: seq<string>, s: string, maxResults: int)
    ensures var r := SuggestFrom(stocks, s, maxResults);
            && (maxResults >= 1 ==> |r| <= maxResults)
            && (forall x :: x in r ==> x in stocks)
            && (s !in stocks ==> (forall x :: x in r ==> Matches(x, s)) && r == Similar(stocks, s)[..|r|])
            && (s !in stocks && |Similar(stocks, s)| <= maxResults ==>
                  r == Similar(stocks, s) && forall x :: x in stocks && Matches(x, s) ==> x in r)
  {
    if s !in stocks {
      var all := Similar(stocks, s);
      var r := PyTake(all, maxResults);
      assert forall x :: x in r ==> x in all;
    }
  }

  /** The same for `suggest_similar_stocks`: an exact BIST100 symbol comes back
      alone, and otherwise only matching BIST100 stocks, at most `maxResults`. */
  lemma SuggestionsMatch(symbol: string, maxResults: int)
    ensures var r := Suggestions(symbol, maxResults);
            && (Normalize(symbol) in Bist100 ==> r == [Normalize(symbol)])
            && (maxResults >= 1 ==> |r| <= maxResults)
            && (forall x :: x in r ==> x in Bist100)
            && (Normalize(symbol) !in Bist100 ==> forall x :: x in r ==> Matches(x, Normalize(symbol)))
            && (Normalize(symbol) !in Bist100 ==> r == Similar(Bist100, Normalize(symbol))[..|r|])
            && (Normalize(symbol) !in Bist100 && |Similar(Bist100, Normalize(symbol))| <= maxResults ==>
                  r == Similar(Bist100, Normalize(symbol))
                  && forall x :: x in Bist100 && Matches(x, Normalize(symbol)) ==> x in r)
  {
    SuggestFromMatches(Bist100, Normalize(symbol), maxResults);
  }

  /** The loop of `suggest_similar_stocks` over a list: it returns at the exact
      match and otherwise collects the matches. */
  method ScanSimilar(stocks: seq<string>, s: string, maxResults: int) returns (r: seq<string>)
    ensures r == SuggestFrom(stocks, s, maxResults)
  {
    var similar: seq<string> := [];
    var i := 0;
    while i < |stocks|
      invariant 0 <= i <= |stocks|
      invariant similar == Similar(stocks[..i], s)
      invariant s !in stocks[..i]
    {
      var stock := stocks[i];
      if stock == s {
        return [stock];
      }
      assert stocks[..i + 1][..i] == stocks[..i];
      if IsPrefix(Prefix(s, 2), stock) {
        similar := similar + [stock];
      } else if IsSubstring(Prefix(s, 3), stock) {
        similar := similar + [stock];
      }
      i := i + 1;
    }
    assert stocks[..i] == stocks;
    r := PyTake(similar, maxResults);
  }

  /** `suggest_similar_stocks`. */
  method SuggestSimilarStocks(symbol: string, maxResults: int) returns (r: seq<string>)
    ensures r == Suggestions(symbol, maxResults)
  {
    var s := Normalize(symbol);
    r := ScanSimilar(Bist100, s, maxResults);
  }

  // ---------------------------------------------------------------------------
  // Sector stocks

  /** The table of `get_sector_stocks`; three keys hold a dotted capital I (U+0130). */
  const SectorStocks: map<string, seq<string>> := map[
    "BANKA" := ["AKBNK", "GARAN", "ISCTR", "YKBNK", "VAKBN", "HALKB", "SKBNK", "ALBRK"],
    "HAVAYOLU" := ["THYAO", "PGSUS"],
    "ENERJI" := ["AKSEN", "AKENR", "EUPWR", "ENJSA"],
    "TEKNOLOJ\U{130}" := ["ASELS", "LOGO", "TCELL", "TTKOM"],
    "PERAKENDE" := ["BIMAS", "SOKM", "MGROS", "MAVI"],
    "OTOMOT\U{130}V" := ["TOASO", "FROTO", "OTKAR", "TTRAK", "KARSN"],
    "HOLD\U{130}NG" := ["KCHOL", "SAHOL", "DOHOL", "AGHOL"],
    "GIDA" := ["ULKER", "CCOLA", "TATGD", "AEFES", "TBORG"]
  ]

  /** `get_sector_stocks`: the upper-cased key's list, or nothing. */
  function GetSectorStocks(sector: string): (r: seq<string>)
    ensures Upper(sector) in SectorStocks ==> r == SectorStocks[Upper(sector)]
    ensures Upper(sector) !in SectorStocks ==> r == []
  {
    var key := Upper(sector);
    if key in SectorStocks then SectorStocks[key] else []
  }


  /** The lookup ignores ASCII case. */
  lemma SectorStocksIgnoreCase(sector: string)
    ensures GetSectorStocks(Upper(sector)) == GetSectorStocks(sector)
  {
    UpperIdempotent(sector);
  }

  lemma BanksListed()
    ensures forall s :: s in SectorStocks["BANKA"] ==> s in Bist100
  {
  }

  lemma AirlinesListed()
    ensures forall s :: s in SectorStocks["HAVAYOLU"] ==> s in Bist100
  {
  }

  lemma EnergyListed()
    ensures forall s :: s in SectorStocks["ENERJI"] ==> s in Bist100
  {
  }

  lemma TechnologyListed()
    ensures forall s :: s in SectorStocks["TEKNOLOJ\U{130}"] ==> s in Bist100
  {
  }

  lemma RetailListed()
    ensures forall s :: s in SectorStocks["PERAKENDE"] ==> s in Bist100
  {
  }

  lemma AutomotiveListed()
    ensures forall s :: s in SectorStocks["OTOMOT\U{130}V"] ==> s in Bist100
  {
  }

  lemma HoldingsListed()
    ensures forall s :: s in SectorStocks["HOLD\U{130}NG"] ==> s in Bist100
  {
  }

  lemma FoodListed()
    ensures forall s :: s in SectorStocks["GIDA"] ==> s in Bist100
  {
  }


  /** Every stock of the sector table is a BIST100 stock. */
  lemma SectorStocksAreListed(sector: string)
    ensures forall s :: s in GetSectorStocks(sector) ==> s in Bist100
  {
    BanksListed();
    AirlinesListed();
    EnergyListed();
    TechnologyListed();
    RetailListed();
    AutomotiveListed();
    HoldingsListed();
    FoodListed();
  }

  /** The key is 'ENERJI' although the documentation names 'ENERJ\U{130}'. */
  lemma EnergyKey()
    ensures GetSectorStocks("enerji") == ["AKSEN", "AKENR", "EUPWR", "ENJSA"]
    ensures GetSectorStocks("ENERJ\U{130}") == []
  {
    assert Upper("enerji") == "ENERJI";
    UpperOfUpper("ENERJ\U{130}");
  }

  /** ASCII upper-casing of 'teknoloji' misses the key 'TEKNOLOJ\U{130}'. */
  lemma TechnologyKeyMissed()
    ensures GetSectorStocks("teknoloji") == []
  {
    assert Upper("teknoloji") == "TEKNOLOJI";
  }
}
