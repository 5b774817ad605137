/** The ETF holdings table: search over ticker and name, a category
    filter, a sortable column, and totals over the rows shown. */
module EtfHoldings {
  import opened Seqs
  import opened Sorting
  import opened HoldingsQuery

  datatype Etf = Etf(ticker: string, name: string, shares: real, avgPrice: real, currentPrice: real,
                         value: real, gain: real, gainPercent: real, category: string)

  /** The columns whose header sorts the table. */
  datatype Column = Ticker | Name | Shares | CurrentPrice | Value | GainPercent

  /** `etf[sortField]`. */
  function KeyOf(s: Etf, c: Column): Key
  {
    match c
    case Ticker => Str(s.ticker)
    case Name => Str(s.name)
    case Shares => Num(s.shares)
    case CurrentPrice => Num(s.currentPrice)
    case Value => Num(s.value)
    case GainPercent => Num(s.gainPercent)
  }

  function SortKey(c: Column): Etf -> Key
  {
    s => KeyOf(s, c)
  }

  /** The sample holdings the table shows (display-only fields left out). */
  const EtfsData: seq<Etf> := [
    Etf("VOO", "Vanguard S&P 500 ETF", 35.0, 375.42, 412.65, 14442.75, 37.23, 9.92, "Large Cap"),
    Etf("VTI", "Vanguard Total Stock Market ETF", 28.0, 210.35, 235.78, 6601.84, 25.43, 12.09, "Total Market"),
    Etf("QQQ", "Invesco QQQ Trust", 15.0, 325.68, 378.42, 5676.3, 52.74, 16.19, "Technology"),
    Etf("VGT", "Vanguard Information Technology ETF", 12.0, 410.25, 465.32, 5583.84, 55.07, 13.42, "Technology"),
    Etf("VYM", "Vanguard High Dividend Yield ETF", 25.0, 105.42, 112.35, 2808.75, 6.93, 6.57, "Dividend"),
    Etf("VXUS", "Vanguard Total International Stock ETF", 40.0, 54.25, 58.42, 2336.8, 4.17, 7.69, "International"),
    Etf("BND", "Vanguard Total Bond Market ETF", 45.0, 82.15, 78.42, 3528.9, -3.73, -4.54, "Bond")
  ]

  /** The filter callback: search match and category match. */
  predicate Keep(s: Etf, searchQuery: string, categoryFilter: string)
  {
    MatchesSearch(searchQuery, s.ticker, s.name) && MatchesCategory(categoryFilter, s.category)
  }

  function KeepFn(searchQuery: string, categoryFilter: string): Etf -> bool
  {
    s => Keep(s, searchQuery, categoryFilter)
  }

  /** `filteredEtfs`: the ETFs that pass the search and category tests,
      sorted by the chosen column. An ETF is shown iff it passes. */
  function FilteredEtfs(etfs: seq<Etf>, searchQuery: string, categoryFilter: string,
                          sortField: Column, sortDirection: Direction,
                          collate: (string, string) -> bool): (r: seq<Etf>)
    ensures forall i :: 0 <= i < |r| ==> r[i] in etfs && Keep(r[i], searchQuery, categoryFilter)
    ensures forall i :: 0 <= i < |etfs| && Keep(etfs[i], searchQuery, categoryFilter) ==> etfs[i] in r
    ensures multiset(r) <= multiset(etfs) && |r| <= |etfs|
    ensures forall s | s in etfs ::
      multiset(r)[s] == if Keep(s, searchQuery, categoryFilter) then multiset(etfs)[s] else 0
  {
    View(etfs, KeepFn(searchQuery, categoryFilter), SortKey(sortField), sortDirection, collate)
  }

  /** `totalValue`. */
  function TotalValue(rows: seq<Etf>): real
  {
    Sum(rows, (s: Etf) => s.value)
  }

  /** `totalGain`: per-share gain times shares, summed. */
  function TotalGain(rows: seq<Etf>): real
  {
    Sum(rows, (s: Etf) => s.gain * s.shares)
  }

  /** One step of both `reduce` calls: appending a row adds its value to
      the value total and its gain times shares to the gain total. */
  lemma TotalsAccumulate(rows: seq<Etf>, row: Etf)
    ensures TotalValue(rows + [row]) == TotalValue(rows) + row.value
    ensures TotalGain(rows + [row]) == TotalGain(rows) + row.gain * row.shares
    ensures TotalValue([]) == 0.0 && TotalGain([]) == 0.0
  {
    SumAppend(rows, [row], (s: Etf) => s.value);
    SumAppend(rows, [row], (s: Etf) => s.gain * s.shares);
  }

  /** `categories`: "all", then each category once. */
  function Categories(etfs: seq<Etf>): (r: seq<string>)
    ensures |r| >= 1 && r[0] == AllCategories && NoDuplicates(r[1..])
    ensures forall i :: 0 <= i < |etfs| ==> etfs[i].category in r[1..]
    ensures forall i :: 1 <= i < |r| ==> exists k :: 0 <= k < |etfs| && etfs[k].category == r[i]
  {
    var column := seq(|etfs|, k requires 0 <= k < |etfs| => etfs[k].category);
    assert forall i :: 0 <= i < |etfs| ==> column[i] == etfs[i].category;
    FilterOptions(column)
  }

  /** With the initial query ("" and "all") every ETF is shown. */
  lemma DefaultQueryShowsAll(etfs: seq<Etf>, sortField: Column, sortDirection: Direction,
                             collate: (string, string) -> bool)
    ensures multiset(FilteredEtfs(etfs, "", AllCategories, sortField, sortDirection, collate)) == multiset(etfs)
  {
    forall s | s in etfs
      ensures KeepFn("", AllCategories)(s)
    {
      EmptyQueryMatches(s.ticker, s.name);
    }
    FilterKeepsAll(etfs, KeepFn("", AllCategories));
  }

  /** Choosing a category that no ETF has empties the table. */
  lemma AbsentCategoryShowsNothing(etfs: seq<Etf>, searchQuery: string, categoryFilter: string,
                                 sortField: Column, sortDirection: Direction, collate: (string, string) -> bool)
    requires categoryFilter != AllCategories
    requires forall i :: 0 <= i < |etfs| ==> etfs[i].category != categoryFilter
    ensures FilteredEtfs(etfs, searchQuery, categoryFilter, sortField, sortDirection, collate) == []
  {
  }

  /** The table is ordered by the chosen column in the chosen direction. */
  lemma FilteredEtfsOrdered(etfs: seq<Etf>, searchQuery: string, categoryFilter: string,
                              sortField: Column, sortDirection: Direction, collate: (string, string) -> bool)
    requires TotalPreorder(collate)
    ensures var r := FilteredEtfs(etfs, searchQuery, categoryFilter, sortField, sortDirection, collate);
      forall i, j :: 0 <= i < j < |r| ==>
        if sortDirection == Asc then KeyLe(KeyOf(r[i], sortField), KeyOf(r[j], sortField), collate)
        else KeyLe(KeyOf(r[j], sortField), KeyOf(r[i], sortField), collate)
  {
    ViewOrdered(etfs, KeepFn(searchQuery, categoryFilter), SortKey(sortField), sortDirection, collate);
  }

  /** What a table shows for one state: rows of the data only, sorted by
      the clicked column whenever the collation is a total preorder. */
  lemma RowsOfData(etfs: seq<Etf>, searchQuery: string, categoryFilter: string,
                   sortField: Column, sortDirection: Direction, collate: (string, string) -> bool)
    ensures var r := FilteredEtfs(etfs, searchQuery, categoryFilter, sortField, sortDirection, collate);
      multiset(r) <= multiset(etfs) &&
      (TotalPreorder(collate) ==> Sorted(r, RowOrder(SortKey(sortField), sortDirection, collate)))
  {
    if TotalPreorder(collate) {
      RowOrderTotalPreorder(SortKey(sortField), sortDirection, collate);
      SortSorted(Filter(etfs, KeepFn(searchQuery, categoryFilter)), RowOrder(SortKey(sortField), sortDirection, collate));
    }
  }

  /** Sorting chooses the order of the rows, never which rows are shown. */
  lemma SortKeepsRows(etfs: seq<Etf>, searchQuery: string, categoryFilter: string,
                      sortField: Column, sortDirection: Direction,
                      sortField': Column, sortDirection': Direction, collate: (string, string) -> bool)
    ensures multiset(FilteredEtfs(etfs, searchQuery, categoryFilter, sortField, sortDirection, collate))
         == multiset(FilteredEtfs(etfs, searchQuery, categoryFilter, sortField', sortDirection', collate))
    ensures multiset(FilteredEtfs(etfs, searchQuery, categoryFilter, sortField, sortDirection, collate))
         == multiset(Filter(etfs, KeepFn(searchQuery, categoryFilter)))
  {
  }

  /** When no two ETFs share a key, descending is ascending reversed. */
  lemma DescendingReversesAscending(etfs: seq<Etf>, searchQuery: string, categoryFilter: string,
                                    sortField: Column, collate: (string, string) -> bool)
    requires TotalPreorder(collate)
    requires DistinctKeys(etfs, SortKey(sortField), collate)
    ensures FilteredEtfs(etfs, searchQuery, categoryFilter, sortField, Desc, collate)
         == Reverse(FilteredEtfs(etfs, searchQuery, categoryFilter, sortField, Asc, collate))
  {
    DescendingIsReversedAscending(etfs, KeepFn(searchQuery, categoryFilter), SortKey(sortField), collate);
  }

  /** The totals are sums over the filtered ETFs only, whatever the sort;
      both are 0 when nothing matches. */
  lemma TotalsOverFilteredEtfs(etfs: seq<Etf>, searchQuery: string, categoryFilter: string,
                                 sortField: Column, sortDirection: Direction, collate: (string, string) -> bool)
    ensures var r := FilteredEtfs(etfs, searchQuery, categoryFilter, sortField, sortDirection, collate);
      var kept := Filter(etfs, KeepFn(searchQuery, categoryFilter));
      && TotalValue(r) == Sum(kept, (s: Etf) => s.value)
      && TotalGain(r) == Sum(kept, (s: Etf) => s.gain * s.shares)
      && (kept == [] ==> TotalValue(r) == 0.0 && TotalGain(r) == 0.0)
  {
    var keep, key := KeepFn(searchQuery, categoryFilter), SortKey(sortField);
    ViewSum(etfs, keep, key, sortDirection, collate, (s: Etf) => s.value);
    ViewSum(etfs, keep, key, sortDirection, collate, (s: Etf) => s.gain * s.shares);
  }

  /** The "Showing N of M ETFs" line: N never exceeds M, and the
      initial query shows every ETF. */
  lemma ShowingCount(etfs: seq<Etf>, searchQuery: string, categoryFilter: string,
                     sortField: Column, sortDirection: Direction, collate: (string, string) -> bool)
    ensures |FilteredEtfs(etfs, searchQuery, categoryFilter, sortField, sortDirection, collate)| <= |etfs|
    ensures |FilteredEtfs(etfs, "", AllCategories, sortField, sortDirection, collate)| == |etfs|
  {
    var r := FilteredEtfs(etfs, "", AllCategories, sortField, sortDirection, collate);
    DefaultQueryShowsAll(etfs, sortField, sortDirection, collate);
    assert |r| == |multiset(r)| == |multiset(etfs)|;
  }

  /** For the sample data the initial table shows "7 of 7". */
  lemma SampleShowsSeven(sortField: Column, sortDirection: Direction, collate: (string, string) -> bool)
    ensures |FilteredEtfs(EtfsData, "", AllCategories, sortField, sortDirection, collate)| == |EtfsData| == 7
  {
    ShowingCount(EtfsData, "", AllCategories, sortField, sortDirection, collate);
  }

  lemma NoSampleIsMidCap()
    ensures forall i :: 0 <= i < |EtfsData| ==> EtfsData[i].category != "Mid Cap"
  {
  }

  /** No sample ETF is "Mid Cap", so choosing it empties the table. */
  lemma MidCapShowsNothing(searchQuery: string, sortField: Column, sortDirection: Direction,
                           collate: (string, string) -> bool)
    ensures FilteredEtfs(EtfsData, searchQuery, "Mid Cap", sortField, sortDirection, collate) == []
  {
    NoSampleIsMidCap();
    AbsentCategoryShowsNothing(EtfsData, searchQuery, "Mid Cap", sortField, sortDirection, collate);
  }

  /** ... and both totals are then 0. */
  lemma MidCapTotalsZero(searchQuery: string, sortField: Column, sortDirection: Direction,
                         collate: (string, string) -> bool)
    ensures TotalValue(FilteredEtfs(EtfsData, searchQuery, "Mid Cap", sortField, sortDirection, collate)) == 0.0
    ensures TotalGain(FilteredEtfs(EtfsData, searchQuery, "Mid Cap", sortField, sortDirection, collate)) == 0.0
  {
    MidCapShowsNothing(searchQuery, sortField, sortDirection, collate);
  }

  /** The component's query state. */
  class EtfHoldingsView {
    var searchQuery: string
    var sortField: Column
    var sortDirection: Direction
    var categoryFilter: string

    /** Initially: no search, sorted by value descending, all categories. */
    constructor ()
      ensures searchQuery == "" && sortField == Value && sortDirection == Desc && categoryFilter == AllCategories
    {
      searchQuery := "";
      sortField := Value;
      sortDirection := Desc;
      categoryFilter := AllCategories;
    }

    method SetSearchQuery(query: string)
      modifies this
      ensures searchQuery == query
      ensures sortField == old(sortField) && sortDirection == old(sortDirection) && categoryFilter == old(categoryFilter)
    {
      searchQuery := query;
    }

    method SetCategoryFilter(category: string)
      modifies this
      ensures categoryFilter == category
      ensures searchQuery == old(searchQuery) && sortField == old(sortField) && sortDirection == old(sortDirection)
    {
      categoryFilter := category;
    }

    /** `handleSort`: the new sort state is `Click` of the old one; the
        search and the filter stay. */
    method HandleSort(field: Column)
      modifies this
      ensures SortOrder(sortField, sortDirection) == Click(SortOrder(old(sortField), old(sortDirection)), field)
      ensures searchQuery == old(searchQuery) && categoryFilter == old(categoryFilter)
    {
      if sortField == field {
        sortDirection := if sortDirection == Asc then Desc else Asc;
      } else {
        sortField := field;
        sortDirection := Desc;
      }
    }

    /** The rows the table renders for the current state. */
    function Rows(collate: (string, string) -> bool): (r: seq<Etf>)
      reads this
      ensures |r| <= |EtfsData|
      ensures multiset(r) <= multiset(EtfsData)
      ensures forall s | s in EtfsData ::
        multiset(r)[s] == if Keep(s, searchQuery, categoryFilter) then multiset(EtfsData)[s] else 0
      ensures TotalPreorder(collate) ==> Sorted(r, RowOrder(SortKey(sortField), sortDirection, collate))
    {
      RowsOfData(EtfsData, searchQuery, categoryFilter, sortField, sortDirection, collate);
      FilteredEtfs(EtfsData, searchQuery, categoryFilter, sortField, sortDirection, collate)
    }
  }
}
