/** The portfolio page's stock table: search over ticker and name and a
    sortable column, with no sector filter and no totals. */
module PortfolioStocks {
  import opened Seqs
  import opened Sorting
  import opened HoldingsQuery

  datatype Stock = Stock(ticker: string, name: string, shares: real, avgPrice: real, currentPrice: real,
                         value: real, gain: real, gainPercent: real, sector: string)

  /** The columns whose header sorts the table. */
  datatype Column = Ticker | Name | Shares | CurrentPrice | Value | GainPercent

  /** `stock[sortField]`. */
  function KeyOf(s: Stock, c: Column): Key
  {
    match c
    case Ticker => Str(s.ticker)
    case Name => Str(s.name)
    case Shares => Num(s.shares)
    case CurrentPrice => Num(s.currentPrice)
    case Value => Num(s.value)
    case GainPercent => Num(s.gainPercent)
  }

  function SortKey(c: Column): Stock -> Key
  {
    s => KeyOf(s, c)
  }

  /** The sample holdings; Amazon's sector here is "Consumer". */
  const StocksData: seq<Stock> := [
    Stock("AAPL", "Apple Inc.", 25.0, 165.23, 187.68, 4692.0, 22.45, 13.59, "Technology"),
    Stock("MSFT", "Microsoft Corp.", 15.0, 287.18, 326.94, 4904.1, 39.76, 13.85, "Technology"),
    Stock("AMZN", "Amazon.com Inc.", 12.0, 102.3, 129.12, 1549.44, 26.82, 26.22, "Consumer"),
    Stock("GOOGL", "Alphabet Inc.", 8.0, 123.48, 142.65, 1141.2, 19.17, 15.53, "Technology"),
    Stock("NVDA", "NVIDIA Corp.", 20.0, 267.4, 435.2, 8704.0, 167.8, 62.75, "Technology"),
    Stock("JNJ", "Johnson & Johnson", 10.0, 165.5, 152.64, 1526.4, -12.86, -7.77, "Healthcare"),
    Stock("JPM", "JPMorgan Chase", 12.0, 145.25, 169.78, 2037.36, 24.53, 16.89, "Financial")
  ]

  /** The filter callback: the search test alone. */
  function KeepFn(searchQuery: string): Stock -> bool
  {
    (s: Stock) => MatchesSearch(searchQuery, s.ticker, s.name)
  }

  /** `filteredStocks`: the stocks whose ticker or name contains the query,
      sorted by the chosen column. A stock is shown iff it matches. */
  function FilteredStocks(stocks: seq<Stock>, searchQuery: string, sortField: Column, sortDirection: Direction,
                          collate: (string, string) -> bool): (r: seq<Stock>)
    ensures forall i :: 0 <= i < |r| ==> r[i] in stocks && MatchesSearch(searchQuery, r[i].ticker, r[i].name)
    ensures forall i :: 0 <= i < |stocks| && MatchesSearch(searchQuery, stocks[i].ticker, stocks[i].name) ==> stocks[i] in r
    ensures multiset(r) <= multiset(stocks) && |r| <= |stocks|
    ensures forall s | s in stocks ::
      multiset(r)[s] == if MatchesSearch(searchQuery, s.ticker, s.name) then multiset(stocks)[s] else 0
  {
    View(stocks, KeepFn(searchQuery), SortKey(sortField), sortDirection, collate)
  }

  /** The empty query shows every stock. */
  lemma EmptyQueryShowsAll(stocks: seq<Stock>, sortField: Column, sortDirection: Direction,
                           collate: (string, string) -> bool)
    ensures multiset(FilteredStocks(stocks, "", sortField, sortDirection, collate)) == multiset(stocks)
    ensures |FilteredStocks(stocks, "", sortField, sortDirection, collate)| == |stocks|
  {
    forall s | s in stocks
      ensures KeepFn("")(s)
    {
      EmptyQueryMatches(s.ticker, s.name);
    }
    FilterKeepsAll(stocks, KeepFn(""));
    var r := FilteredStocks(stocks, "", sortField, sortDirection, collate);
    assert |r| == |multiset(r)| == |multiset(stocks)|;
  }

  /** The table is ordered by the chosen column in the chosen direction. */
  lemma FilteredStocksOrdered(stocks: seq<Stock>, searchQuery: string, sortField: Column, sortDirection: Direction,
                              collate: (string, string) -> bool)
    requires TotalPreorder(collate)
    ensures var r := FilteredStocks(stocks, searchQuery, sortField, sortDirection, collate);
      forall i, j :: 0 <= i < j < |r| ==>
        if sortDirection == Asc then KeyLe(KeyOf(r[i], sortField), KeyOf(r[j], sortField), collate)
        else KeyLe(KeyOf(r[j], sortField), KeyOf(r[i], sortField), collate)
  {
    ViewOrdered(stocks, KeepFn(searchQuery), SortKey(sortField), sortDirection, collate);
  }

  /** What a table shows for one state: rows of the data only, sorted by
      the clicked column whenever the collation is a total preorder. */
  lemma RowsOfData(stocks: seq<Stock>, searchQuery: string, sortField: Column, sortDirection: Direction,
                   collate: (string, string) -> bool)
    ensures var r := FilteredStocks(stocks, searchQuery, sortField, sortDirection, collate);
      multiset(r) <= multiset(stocks) &&
      (TotalPreorder(collate) ==> Sorted(r, RowOrder(SortKey(sortField), sortDirection, collate)))
  {
    if TotalPreorder(collate) {
      RowOrderTotalPreorder(SortKey(sortField), sortDirection, collate);
      SortSorted(Filter(stocks, KeepFn(searchQuery)), RowOrder(SortKey(sortField), sortDirection, collate));
    }
  }

  /** Sorting chooses the order of the rows, never which rows are shown. */
  lemma SortKeepsRows(stocks: seq<Stock>, searchQuery: string, sortField: Column, sortDirection: Direction,
                      sortField': Column, sortDirection': Direction, collate: (string, string) -> bool)
    ensures multiset(FilteredStocks(stocks, searchQuery, sortField, sortDirection, collate))
         == multiset(FilteredStocks(stocks, searchQuery, sortField', sortDirection', collate))
    ensures multiset(FilteredStocks(stocks, searchQuery, sortField, sortDirection, collate))
         == multiset(Filter(stocks, KeepFn(searchQuery)))
  {
  }

  /** When no two stocks share a key, descending is ascending reversed. */
  lemma DescendingReversesAscending(stocks: seq<Stock>, searchQuery: string, sortField: Column,
                                    collate: (string, string) -> bool)
    requires TotalPreorder(collate)
    requires DistinctKeys(stocks, SortKey(sortField), collate)
    ensures FilteredStocks(stocks, searchQuery, sortField, Desc, collate)
         == Reverse(FilteredStocks(stocks, searchQuery, sortField, Asc, collate))
  {
    DescendingIsReversedAscending(stocks, KeepFn(searchQuery), SortKey(sortField), collate);
  }

  /** The component's query state. */
  class PortfolioStocksView {
    var searchQuery: string
    var sortField: Column
    var sortDirection: Direction

    /** Initially: no search, sorted by value descending. */
    constructor ()
      ensures searchQuery == "" && sortField == Value && sortDirection == Desc
    {
      searchQuery := "";
      sortField := Value;
      sortDirection := Desc;
    }

    method SetSearchQuery(query: string)
      modifies this
      ensures searchQuery == query
      ensures sortField == old(sortField) && sortDirection == old(sortDirection)
    {
      searchQuery := query;
    }

    /** `handleSort`: the new sort state is `Click` of the old one. */
    method HandleSort(field: Column)
      modifies this
      ensures SortOrder(sortField, sortDirection) == Click(SortOrder(old(sortField), old(sortDirection)), field)
      ensures searchQuery == old(searchQuery)
    {
      if sortField == field {
        sortDirection := if sortDirection == Asc then Desc else Asc;
      } else {
        sortField := field;
        sortDirection := Desc;
      }
    }

    /** The rows the table renders for the current state. */
    function Rows(collate: (string, string) -> bool): (r: seq<Stock>)
      reads this
      ensures |r| <= |StocksData|
      ensures multiset(r) <= multiset(StocksData)
      ensures forall s | s in StocksData ::
        multiset(r)[s] == if MatchesSearch(searchQuery, s.ticker, s.name) then multiset(StocksData)[s] else 0
      ensures TotalPreorder(collate) ==> Sorted(r, RowOrder(SortKey(sortField), sortDirection, collate))
    {
      RowsOfData(StocksData, searchQuery, sortField, sortDirection, collate);
      FilteredStocks(StocksData, searchQuery, sortField, sortDirection, collate)
    }
  }
}
