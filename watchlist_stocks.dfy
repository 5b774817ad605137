/** The watchlist: a ticker-or-name search over a fixed list, with no
    sorting. */
module WatchlistStocks {
  import opened Text
  import opened Seqs
  import opened HoldingsQuery

  datatype WatchedStock = WatchedStock(ticker: string, name: string, price: real, change: real, changePercent: real,
                                       volume: nat, marketCap: real, pe: real, hasAlert: bool)

  const WatchlistData: seq<WatchedStock> := [
    WatchedStock("TSLA", "Tesla, Inc.", 248.42, 5.63, 2.32, 28456789, 788.5, 70.2, true),
    WatchedStock("META", "Meta Platforms, Inc.", 325.76, 7.89, 2.48, 15678234, 835.2, 28.4, true),
    WatchedStock("AMD", "Advanced Micro Devices, Inc.", 108.24, -2.35, -2.13, 42567123, 174.8, 98.3, false),
    WatchedStock("DIS", "The Walt Disney Company", 89.67, 0.23, 0.26, 8765432, 164.2, 19.8, false),
    WatchedStock("PYPL", "PayPal Holdings, Inc.", 62.38, -1.42, -2.23, 12345678, 69.5, 17.6, true),
    WatchedStock("INTC", "Intel Corporation", 35.24, -0.87, -2.41, 32456789, 148.3, 10.2, false)
  ]

  function KeepFn(searchQuery: string): WatchedStock -> bool
  {
    (s: WatchedStock) => MatchesSearch(searchQuery, s.ticker, s.name)
  }

  /** `filteredStocks`: the watched stocks whose ticker or name contains the
      query, ignoring case, in list order. */
  function FilteredStocks(stocks: seq<WatchedStock>, searchQuery: string): (r: seq<WatchedStock>)
    ensures IsSubsequence(r, stocks)
    ensures forall i :: 0 <= i < |r| ==> MatchesSearch(searchQuery, r[i].ticker, r[i].name)
    ensures forall i :: 0 <= i < |stocks| ==>
      (stocks[i] in r <==> MatchesSearch(searchQuery, stocks[i].ticker, stocks[i].name))
    ensures forall s | s in stocks ::
      multiset(r)[s] == if MatchesSearch(searchQuery, s.ticker, s.name) then multiset(stocks)[s] else 0
  {
    FilterIsSubsequence(stocks, KeepFn(searchQuery));
    Filter(stocks, KeepFn(searchQuery))
  }

  /** The empty query keeps the whole list, in order. */
  lemma EmptyQueryKeepsAll(stocks: seq<WatchedStock>)
    ensures FilteredStocks(stocks, "") == stocks
  {
    forall s | s in stocks
      ensures KeepFn("")(s)
    {
      EmptyQueryMatches(s.ticker, s.name);
    }
    FilterKeepsAll(stocks, KeepFn(""));
  }

  /** ... so the sample watchlist shows all six stocks. */
  lemma SampleEmptyQueryKeepsSix()
    ensures |FilteredStocks(WatchlistData, "")| == 6
  {
    EmptyQueryKeepsAll(WatchlistData);
  }

  /** Typing more narrows the list: when the shorter query (lowered) sits
      inside the longer one, the longer query's rows are an ordered part of
      the shorter query's rows. */
  lemma LongerQueryNarrows(stocks: seq<WatchedStock>, query: string, longer: string)
    requires IsSubstring(Lower(query), Lower(longer))
    ensures IsSubsequence(FilteredStocks(stocks, longer), FilteredStocks(stocks, query))
  {
    forall s | s in stocks
      ensures KeepFn(longer)(s) ==> KeepFn(query)(s)
    {
      if KeepFn(longer)(s) {
        NarrowerQuery(query, longer, s.ticker, s.name);
      }
    }
    FilterNarrower(stocks, KeepFn(query), KeepFn(longer));
  }

  /** The search ignores case: a query and its upper- and lower-case forms
      give the same rows. */
  lemma SearchIgnoresQueryCase(stocks: seq<WatchedStock>, query: string)
    ensures FilteredStocks(stocks, Upper(query)) == FilteredStocks(stocks, query)
    ensures FilteredStocks(stocks, Lower(query)) == FilteredStocks(stocks, query)
  {
    forall s | s in stocks
      ensures KeepFn(Upper(query))(s) == KeepFn(query)(s) && KeepFn(Lower(query))(s) == KeepFn(query)(s)
    {
      SearchIgnoresCase(query, s.ticker, s.name);
    }
    FilterCongruent(stocks, KeepFn(Upper(query)), KeepFn(query));
    FilterCongruent(stocks, KeepFn(Lower(query)), KeepFn(query));
  }
}
