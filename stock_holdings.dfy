/** The stock holdings table: search over ticker and name, a sector
    filter, a sortable column, and totals over the rows shown. */
module StockHoldings {
  import opened Seqs
  import opened Sorting
  import opened HoldingsQuery

  datatype Stock = Stock(ticker: string, name: string, shares: real, avgPrice: real, currentPrice: real,
                         value: real, gain: real, gainPercent: real, sector: string)

  /** The columns whose header sorts the table. */
  datatype Column = Ticker | Name | Shares | CurrentPrice | Value | GainPercent

  /** `stock[sortField]`. */
  function KeyOf(s: Stock, c: Column): Key
  {
    match c
    case Ticker => Str(s.ticker)
    case Name => Str(s.name)
    case Shares => Num(s.shares)
    case CurrentPrice => Num(s.currentPrice)
    case Value => Num(s.value)
    case GainPercent => Num(s.gainPercent)
  }

  function SortKey(c: Column): Stock -> Key
  {
    s => KeyOf(s, c)
  }

  /** The sample holdings the table shows (display-only fields left out). */
  const StocksData: seq<Stock> := [
    Stock("AAPL", "Apple Inc.", 25.0, 165.23, 187.68, 4692.0, 22.45, 13.59, "Technology"),
    Stock("MSFT", "Microsoft Corp.", 15.0, 287.18, 326.94, 4904.1, 39.76, 13.85, "Technology"),
    Stock("AMZN", "Amazon.com Inc.", 12.0, 102.3, 129.12, 1549.44, 26.82, 26.22, "Consumer Discretionary"),
    Stock("GOOGL", "Alphabet Inc.", 8.0, 123.48, 142.65, 1141.2, 19.17, 15.53, "Communication Services"),
    Stock("NVDA", "NVIDIA Corp.", 20.0, 267.4, 435.2, 8704.0, 167.8, 62.75, "Technology"),
    Stock("JNJ", "Johnson & Johnson", 10.0, 165.5, 152.64, 1526.4, -12.86, -7.77, "Healthcare"),
    Stock("JPM", "JPMorgan Chase", 12.0, 145.25, 169.78, 2037.36, 24.53, 16.89, "Financial")
  ]

  /** The filter callback: search match and sector match. */
  predicate Keep(s: Stock, searchQuery: string, sectorFilter: string)
  {
    MatchesSearch(searchQuery, s.ticker, s.name) && MatchesCategory(sectorFilter, s.sector)
  }

  function KeepFn(searchQuery: string, sectorFilter: string): Stock -> bool
  {
    s => Keep(s, searchQuery, sectorFilter)
  }

  /** `filteredStocks`: the stocks that pass the search and sector tests,
      sorted by the chosen column. A stock is shown iff it passes. */
  function FilteredStocks(stocks: seq<Stock>, searchQuery: string, sectorFilter: string,
                          sortField: Column, sortDirection: Direction,
                          collate: (string, string) -> bool): (r: seq<Stock>)
    ensures forall i :: 0 <= i < |r| ==> r[i] in stocks && Keep(r[i], searchQuery, sectorFilter)
    ensures forall i :: 0 <= i < |stocks| && Keep(stocks[i], searchQuery, sectorFilter) ==> stocks[i] in r
    ensures multiset(r) <= multiset(stocks) && |r| <= |stocks|
    ensures forall s | s in stocks ::
      multiset(r)[s] == if Keep(s, searchQuery, sectorFilter) then multiset(stocks)[s] else 0
  {
    View(stocks, KeepFn(searchQuery, sectorFilter), SortKey(sortField), sortDirection, collate)
  }

  /** `totalValue`. */
  function TotalValue(rows: seq<Stock>): real
  {
    Sum(rows, (s: Stock) => s.value)
  }

  /** `totalGain`: per-share gain times shares, summed. */
  function TotalGain(rows: seq<Stock>): real
  {
    Sum(rows, (s: Stock) => s.gain * s.shares)
  }

  /** One step of both `reduce` calls: appending a row adds its value to
      the value total and its gain times shares to the gain total. */
  lemma TotalsAccumulate(rows: seq<Stock>, row: Stock)
    ensures TotalValue(rows + [row]) == TotalValue(rows) + row.value
    ensures TotalGain(rows + [row]) == TotalGain(rows) + row.gain * row.shares
    ensures TotalValue([]) == 0.0 && TotalGain([]) == 0.0
  {
    SumAppend(rows, [row], (s: Stock) => s.value);
    SumAppend(rows, [row], (s: Stock) => s.gain * s.shares);
  }

  /** `sectors`: "all", then each sector once. */
  function Sectors(stocks: seq<Stock>): (r: seq<string>)
    ensures |r| >= 1 && r[0] == AllCategories && NoDuplicates(r[1..])
    ensures forall i :: 0 <= i < |stocks| ==> stocks[i].sector in r[1..]
    ensures forall i :: 1 <= i < |r| ==> exists k :: 0 <= k < |stocks| && stocks[k].sector == r[i]
  {
    var column := seq(|stocks|, k requires 0 <= k < |stocks| => stocks[k].sector);
    assert forall i :: 0 <= i < |stocks| ==> column[i] == stocks[i].sector;
    FilterOptions(column)
  }

  /** With the initial query ("" and "all") every stock is shown. */
  lemma DefaultQueryShowsAll(stocks: seq<Stock>, sortField: Column, sortDirection: Direction,
                             collate: (string, string) -> bool)
    ensures multiset(FilteredStocks(stocks, "", AllCategories, sortField, sortDirection, collate)) == multiset(stocks)
  {
    forall s | s in stocks
      ensures KeepFn("", AllCategories)(s)
    {
      EmptyQueryMatches(s.ticker, s.name);
    }
    FilterKeepsAll(stocks, KeepFn("", AllCategories));
  }

  /** Choosing a sector that no stock has empties the table. */
  lemma AbsentSectorShowsNothing(stocks: seq<Stock>, searchQuery: string, sectorFilter: string,
                                 sortField: Column, sortDirection: Direction, collate: (string, string) -> bool)
    requires sectorFilter != AllCategories
    requires forall i :: 0 <= i < |stocks| ==> stocks[i].sector != sectorFilter
    ensures FilteredStocks(stocks, searchQuery, sectorFilter, sortField, sortDirection, collate) == []
  {
  }

  /** The table is ordered by the chosen column in the chosen direction. */
  lemma FilteredStocksOrdered(stocks: seq<Stock>, searchQuery: string, sectorFilter: string,
                              sortField: Column, sortDirection: Direction, collate: (string, string) -> bool)
    requires TotalPreorder(collate)
    ensures var r := FilteredStocks(stocks, searchQuery, sectorFilter, sortField, sortDirection, collate);
      forall i, j :: 0 <= i < j < |r| ==>
        if sortDirection == Asc then KeyLe(KeyOf(r[i], sortField), KeyOf(r[j], sortField), collate)
        else KeyLe(KeyOf(r[j], sortField), KeyOf(r[i], sortField), collate)
  {
    ViewOrdered(stocks, KeepFn(searchQuery, sectorFilter), SortKey(sortField), sortDirection, collate);
  }

  /** What a table shows for one state: rows of the data only, sorted by
      the clicked column whenever the collation is a total preorder. */
  lemma RowsOfData(stocks: seq<Stock>, searchQuery: string, sectorFilter: string,
                   sortField: Column, sortDirection: Direction, collate: (string, string) -> bool)
    ensures var r := FilteredStocks(stocks, searchQuery, sectorFilter, sortField, sortDirection, collate);
      multiset(r) <= multiset(stocks) &&
      (TotalPreorder(collate) ==> Sorted(r, RowOrder(SortKey(sortField), sortDirection, collate)))
  {
    if TotalPreorder(collate) {
      RowOrderTotalPreorder(SortKey(sortField), sortDirection, collate);
      SortSorted(Filter(stocks, KeepFn(searchQuery, sectorFilter)), RowOrder(SortKey(sortField), sortDirection, collate));
    }
  }

  /** Sorting chooses the order of the rows, never which rows are shown. */
  lemma SortKeepsRows(stocks: seq<Stock>, searchQuery: string, sectorFilter: string,
                      sortField: Column, sortDirection: Direction,
                      sortField': Column, sortDirection': Direction, collate: (string, string) -> bool)
    ensures multiset(FilteredStocks(stocks, searchQuery, sectorFilter, sortField, sortDirection, collate))
         == multiset(FilteredStocks(stocks, searchQuery, sectorFilter, sortField', sortDirection', collate))
    ensures multiset(FilteredStocks(stocks, searchQuery, sectorFilter, sortField, sortDirection, collate))
         == multiset(Filter(stocks, KeepFn(searchQuery, sectorFilter)))
  {
  }

  /** When no two stocks share a key, descending is ascending reversed. */
  lemma DescendingReversesAscending(stocks: seq<Stock>, searchQuery: string, sectorFilter: string,
                                    sortField: Column, collate: (string, string) -> bool)
    requires TotalPreorder(collate)
    requires DistinctKeys(stocks, SortKey(sortField), collate)
    ensures FilteredStocks(stocks, searchQuery, sectorFilter, sortField, Desc, collate)
         == Reverse(FilteredStocks(stocks, searchQuery, sectorFilter, sortField, Asc, collate))
  {
    DescendingIsReversedAscending(stocks, KeepFn(searchQuery, sectorFilter), SortKey(sortField), collate);
  }

  /** The totals are sums over the filtered stocks only, whatever the sort;
      both are 0 when nothing matches. */
  lemma TotalsOverFilteredStocks(stocks: seq<Stock>, searchQuery: string, sectorFilter: string,
                                 sortField: Column, sortDirection: Direction, collate: (string, string) -> bool)
    ensures var r := FilteredStocks(stocks, searchQuery, sectorFilter, sortField, sortDirection, collate);
      var kept := Filter(stocks, KeepFn(searchQuery, sectorFilter));
      && TotalValue(r) == Sum(kept, (s: Stock) => s.value)
      && TotalGain(r) == Sum(kept, (s: Stock) => s.gain * s.shares)
      && (kept == [] ==> TotalValue(r) == 0.0 && TotalGain(r) == 0.0)
  {
    var keep, key := KeepFn(searchQuery, sectorFilter), SortKey(sortField);
    ViewSum(stocks, keep, key, sortDirection, collate, (s: Stock) => s.value);
    ViewSum(stocks, keep, key, sortDirection, collate, (s: Stock) => s.gain * s.shares);
  }

  /** The "Showing N of M stocks" line: N never exceeds M, and the
      initial query shows every stock. */
  lemma ShowingCount(stocks: seq<Stock>, searchQuery: string, sectorFilter: string,
                     sortField: Column, sortDirection: Direction, collate: (string, string) -> bool)
    ensures |FilteredStocks(stocks, searchQuery, sectorFilter, sortField, sortDirection, collate)| <= |stocks|
    ensures |FilteredStocks(stocks, "", AllCategories, sortField, sortDirection, collate)| == |stocks|
  {
    var r := FilteredStocks(stocks, "", AllCategories, sortField, sortDirection, collate);
    DefaultQueryShowsAll(stocks, sortField, sortDirection, collate);
    assert |r| == |multiset(r)| == |multiset(stocks)|;
  }

  /** For the sample data the initial table shows "7 of 7". */
  lemma SampleShowsSeven(sortField: Column, sortDirection: Direction, collate: (string, string) -> bool)
    ensures |FilteredStocks(StocksData, "", AllCategories, sortField, sortDirection, collate)| == |StocksData| == 7
  {
    ShowingCount(StocksData, "", AllCategories, sortField, sortDirection, collate);
  }

  /** The component's query state. */
  class StockHoldingsView {
    var searchQuery: string
    var sortField: Column
    var sortDirection: Direction
    var sectorFilter: string

    /** Initially: no search, sorted by value descending, all sectors. */
    constructor ()
      ensures searchQuery == "" && sortField == Value && sortDirection == Desc && sectorFilter == AllCategories
    {
      searchQuery := "";
      sortField := Value;
      sortDirection := Desc;
      sectorFilter := AllCategories;
    }

    method SetSearchQuery(query: string)
      modifies this
      ensures searchQuery == query
      ensures sortField == old(sortField) && sortDirection == old(sortDirection) && sectorFilter == old(sectorFilter)
    {
      searchQuery := query;
    }

    method SetSectorFilter(sector: string)
      modifies this
      ensures sectorFilter == sector
      ensures searchQuery == old(searchQuery) && sortField == old(sortField) && sortDirection == old(sortDirection)
    {
      sectorFilter := sector;
    }

    /** `handleSort`: the new sort state is `Click` of the old one; the
        search and the filter stay. */
    method HandleSort(field: Column)
      modifies this
      ensures SortOrder(sortField, sortDirection) == Click(SortOrder(old(sortField), old(sortDirection)), field)
      ensures searchQuery == old(searchQuery) && sectorFilter == old(sectorFilter)
    {
      if sortField == field {
        sortDirection := if sortDirection == Asc then Desc else Asc;
      } else {
        sortField := field;
        sortDirection := Desc;
      }
    }

    /** The rows the table renders for the current state. */
    function Rows(collate: (string, string) -> bool): (r: seq<Stock>)
      reads this
      ensures |r| <= |StocksData|
      ensures multiset(r) <= multiset(StocksData)
      ensures forall s | s in StocksData ::
        multiset(r)[s] == if Keep(s, searchQuery, sectorFilter) then multiset(StocksData)[s] else 0
      ensures TotalPreorder(collate) ==> Sorted(r, RowOrder(SortKey(sortField), sortDirection, collate))
    {
      RowsOfData(StocksData, searchQuery, sectorFilter, sortField, sortDirection, collate);
      FilteredStocks(StocksData, searchQuery, sectorFilter, sortField, sortDirection, collate)
    }
  }
}
