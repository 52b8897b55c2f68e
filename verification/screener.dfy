/** The market screener node: pick the subjects of the run from a scraped
    ranking page, falling back to a fixed list when anything goes wrong. */
module Screener {
  import opened Outcomes
  import opened GraphStates

  /** One parsed HTML table, by column name. */
  datatype Table = Table(columns: map<string, seq<string>>)

  /** What fetching and parsing the ranking page gave: an exception from the
      request, the status check or the parser, or the parsed tables in page order. */
  datatype Scrape = FetchFailed | Parsed(tables: seq<Table>)

  /** Used whenever the scrape or the parse raises. */
  const Fallback: seq<string> := ["NVDA", "TSLA"]

  /** Subject count when the state does not give one. */
  const DefaultCount: int := 3

  /** Name of the column holding the subject identifiers. */
  const SymbolColumn: string := "Symbol"

  function Min(a: int, b: int): int { if a <= b then a else b }

  function Max(a: int, b: int): int { if a >= b then a else b }

  /** pandas' `head(n)`: the first `n` rows; a negative `n` drops the last `-n` rows. */
  function Head<T>(s: seq<T>, n: int): (r: seq<T>)
    ensures r <= s
    ensures n >= 0 ==> |r| == Min(n, |s|)
    ensures n < 0 ==> |r| == Max(0, |s| + n)
  {
    if n >= 0 then (if n <= |s| then s[..n] else s)
    else if |s| + n >= 0 then s[..|s| + n]
    else []
  }

  /** The subject count the screener uses: the state's value, else the default. */
  function RequestedCount(s: GraphState): (n: int)
    ensures s.nStocks.None? ==> n == 3
    ensures s.nStocks.Some? ==> n == s.nStocks.value
  {
    ValueOr(s.nStocks, DefaultCount)
  }

  /** The scrape produced tables and the first one has a Symbol column. */
  predicate HasSymbols(scrape: Scrape)
  {
    scrape.Parsed? && |scrape.tables| > 0 && SymbolColumn in scrape.tables[0].columns
  }

  /** The first table's Symbol column, in page order. */
  function Symbols(scrape: Scrape): seq<string>
    requires HasSymbols(scrape)
  {
    scrape.tables[0].columns[SymbolColumn]
  }

  /** The selection policy. A missing Symbol column raises a KeyError inside
      the same `try`, so it lands in the fallback like a failed request. */
  function Discover(n: int, scrape: Scrape): (tickers: seq<string>)
    ensures scrape.FetchFailed? ==> tickers == Fallback
    ensures scrape.Parsed? && |scrape.tables| == 0 ==> tickers == []
    ensures scrape.Parsed? && |scrape.tables| > 0 && !HasSymbols(scrape) ==> tickers == Fallback
    // success: a prefix of the Symbol column, in page order
    ensures HasSymbols(scrape) ==> tickers <= Symbols(scrape)
    ensures HasSymbols(scrape) && n >= 0 ==> |tickers| == Min(n, |Symbols(scrape)|)
    ensures HasSymbols(scrape) && n < 0 ==> |tickers| == Max(0, |Symbols(scrape)| + n)
  {
    match scrape
    case FetchFailed => Fallback
    case Parsed(tables) =>
      if |tables| == 0 then []
      else if SymbolColumn !in tables[0].columns then Fallback
      else Head(tables[0].columns[SymbolColumn], n)
  }

  /** The node's returned update: it always writes `tickers` and never
      `results`; the tickers follow the selection policy at the state's count,
      three when the state has none. */
  function ScreenerNode(s: GraphState, scrape: Scrape): (u: Update)
    ensures u.results.None? && u.tickers.Some?
    ensures FallsBack(scrape) ==> u.tickers.value == Fallback
    ensures scrape.Parsed? && |scrape.tables| == 0 ==> u.tickers.value == []
    ensures HasSymbols(scrape) ==> u.tickers.value <= Symbols(scrape)
    ensures HasSymbols(scrape) && s.nStocks.None?
            ==> |u.tickers.value| == Min(3, |Symbols(scrape)|)
    ensures HasSymbols(scrape) && s.nStocks.Some? && s.nStocks.value >= 0
            ==> |u.tickers.value| == Min(s.nStocks.value, |Symbols(scrape)|)
  {
    Update(Some(Discover(RequestedCount(s), scrape)), None)
  }

  /** The fetch, the status check or the parse raised, or the Symbol column is missing. */
  predicate FallsBack(scrape: Scrape)
  {
    scrape.FetchFailed? || (|scrape.tables| > 0 && !HasSymbols(scrape))
  }

  /** A count of at least zero bounds the selection unless the fallback is taken. */
  lemma DiscoverBound(n: int, scrape: Scrape)
    requires n >= 0
    ensures !FallsBack(scrape) ==> |Discover(n, scrape)| <= n
    ensures FallsBack(scrape) ==> |Discover(n, scrape)| == 2
  {
  }

  /** With a count below two, a failed scrape selects more subjects than asked for. */
  lemma FallbackExceedsCount(n: int, scrape: Scrape)
    requires n < 2
    requires FallsBack(scrape)
    ensures |Discover(n, scrape)| == 2 > n
  {
  }
}
