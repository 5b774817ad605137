/** The crypto holdings table: search over symbol and name, a category
    filter, a sortable column, and totals over the rows shown. */
module CryptoHoldings {
  import opened Text
  import opened Seqs
  import opened Sorting
  import opened HoldingsQuery

  datatype Crypto = Crypto(symbol: string, name: string, amount: real, avgPrice: real, currentPrice: real,
                         value: real, gain: real, gainPercent: real, category: string)

  /** The columns whose header sorts the table. */
  datatype Column = Symbol | Name | Amount | CurrentPrice | Value | GainPercent

  /** `crypto[sortField]`. */
  function KeyOf(s: Crypto, c: Column): Key
  {
    match c
    case Symbol => Str(s.symbol)
    case Name => Str(s.name)
    case Amount => Num(s.amount)
    case CurrentPrice => Num(s.currentPrice)
    case Value => Num(s.value)
    case GainPercent => Num(s.gainPercent)
  }

  function SortKey(c: Column): Crypto -> Key
  {
    s => KeyOf(s, c)
  }

  /** The sample holdings the table shows (display-only fields left out). */
  const CryptoData: seq<Crypto> := [
    Crypto("BTC", "Bitcoin", 0.45, 42500.25, 65432.18, 29444.48, 22931.93, 53.96, "Large Cap"),
    Crypto("ETH", "Ethereum", 3.2, 2850.75, 3542.65, 11336.48, 2213.28, 24.62, "Large Cap"),
    Crypto("SOL", "Solana", 25.0, 85.42, 142.35, 3558.75, 1423.25, 66.65, "Large Cap"),
    Crypto("ADA", "Cardano", 1500.0, 0.52, 0.45, 675.0, -105.0, -13.46, "Large Cap"),
    Crypto("DOT", "Polkadot", 120.0, 12.35, 7.85, 942.0, -540.0, -36.44, "Mid Cap"),
    Crypto("LINK", "Chainlink", 75.0, 15.25, 18.45, 1383.75, 240.0, 20.98, "Mid Cap")
  ]

  /** The filter callback: search match and category match. */
  predicate Keep(s: Crypto, searchQuery: string, categoryFilter: string)
  {
    MatchesSearch(searchQuery, s.symbol, s.name) && MatchesCategory(categoryFilter, s.category)
  }

  function KeepFn(searchQuery: string, categoryFilter: string): Crypto -> bool
  {
    s => Keep(s, searchQuery, categoryFilter)
  }

  /** `filteredCrypto`: the coins that pass the search and category tests,
      sorted by the chosen column. A coin is shown iff it passes. */
  function FilteredCrypto(coins: seq<Crypto>, searchQuery: string, categoryFilter: string,
                          sortField: Column, sortDirection: Direction,
                          collate: (string, string) -> bool): (r: seq<Crypto>)
    ensures forall i :: 0 <= i < |r| ==> r[i] in coins && Keep(r[i], searchQuery, categoryFilter)
    ensures forall i :: 0 <= i < |coins| && Keep(coins[i], searchQuery, categoryFilter) ==> coins[i] in r
    ensures multiset(r) <= multiset(coins) && |r| <= |coins|
    ensures forall s | s in coins ::
      multiset(r)[s] == if Keep(s, searchQuery, categoryFilter) then multiset(coins)[s] else 0
  {
    View(coins, KeepFn(searchQuery, categoryFilter), SortKey(sortField), sortDirection, collate)
  }

  /** `totalValue`. */
  function TotalValue(rows: seq<Crypto>): real
  {
    Sum(rows, (s: Crypto) => s.value)
  }

  /** `totalGain`: the recorded gains summed as they are, not multiplied
      by the amount held. */
  function TotalGain(rows: seq<Crypto>): real
  {
    Sum(rows, (s: Crypto) => s.gain)
  }

  /** One step of both `reduce` calls: appending a row adds its value to
      the value total and its gain to the gain total. */
  lemma TotalsAccumulate(rows: seq<Crypto>, row: Crypto)
    ensures TotalValue(rows + [row]) == TotalValue(rows) + row.value
    ensures TotalGain(rows + [row]) == TotalGain(rows) + row.gain
    ensures TotalValue([]) == 0.0 && TotalGain([]) == 0.0
  {
    SumAppend(rows, [row], (s: Crypto) => s.value);
    SumAppend(rows, [row], (s: Crypto) => s.gain);
  }

  /** `categories`: "all", then each category once. */
  function Categories(coins: seq<Crypto>): (r: seq<string>)
    ensures |r| >= 1 && r[0] == AllCategories && NoDuplicates(r[1..])
    ensures forall i :: 0 <= i < |coins| ==> coins[i].category in r[1..]
    ensures forall i :: 1 <= i < |r| ==> exists k :: 0 <= k < |coins| && coins[k].category == r[i]
  {
    var column := seq(|coins|, k requires 0 <= k < |coins| => coins[k].category);
    assert forall i :: 0 <= i < |coins| ==> column[i] == coins[i].category;
    FilterOptions(column)
  }

  /** With the initial query ("" and "all") every coin is shown. */
  lemma DefaultQueryShowsAll(coins: seq<Crypto>, sortField: Column, sortDirection: Direction,
                             collate: (string, string) -> bool)
    ensures multiset(FilteredCrypto(coins, "", AllCategories, sortField, sortDirection, collate)) == multiset(coins)
  {
    forall s | s in coins
      ensures KeepFn("", AllCategories)(s)
    {
      EmptyQueryMatches(s.symbol, s.name);
    }
    FilterKeepsAll(coins, KeepFn("", AllCategories));
  }

  /** Choosing a category that no coin has empties the table. */
  lemma AbsentCategoryShowsNothing(coins: seq<Crypto>, searchQuery: string, categoryFilter: string,
                                 sortField: Column, sortDirection: Direction, collate: (string, string) -> bool)
    requires categoryFilter != AllCategories
    requires forall i :: 0 <= i < |coins| ==> coins[i].category != categoryFilter
    ensures FilteredCrypto(coins, searchQuery, categoryFilter, sortField, sortDirection, collate) == []
  {
  }

  /** The table is ordered by the chosen column in the chosen direction. */
  lemma FilteredCryptoOrdered(coins: seq<Crypto>, searchQuery: string, categoryFilter: string,
                              sortField: Column, sortDirection: Direction, collate: (string, string) -> bool)
    requires TotalPreorder(collate)
    ensures var r := FilteredCrypto(coins, searchQuery, categoryFilter, sortField, sortDirection, collate);
      forall i, j :: 0 <= i < j < |r| ==>
        if sortDirection == Asc then KeyLe(KeyOf(r[i], sortField), KeyOf(r[j], sortField), collate)
        else KeyLe(KeyOf(r[j], sortField), KeyOf(r[i], sortField), collate)
  {
    ViewOrdered(coins, KeepFn(searchQuery, categoryFilter), SortKey(sortField), sortDirection, collate);
  }

  /** What a table shows for one state: rows of the data only, sorted by
      the clicked column whenever the collation is a total preorder. */
  lemma RowsOfData(coins: seq<Crypto>, searchQuery: string, categoryFilter: string,
                   sortField: Column, sortDirection: Direction, collate: (string, string) -> bool)
    ensures var r := FilteredCrypto(coins, searchQuery, categoryFilter, sortField, sortDirection, collate);
      multiset(r) <= multiset(coins) &&
      (TotalPreorder(collate) ==> Sorted(r, RowOrder(SortKey(sortField), sortDirection, collate)))
  {
    if TotalPreorder(collate) {
      RowOrderTotalPreorder(SortKey(sortField), sortDirection, collate);
      SortSorted(Filter(coins, KeepFn(searchQuery, categoryFilter)), RowOrder(SortKey(sortField), sortDirection, collate));
    }
  }

  /** Sorting chooses the order of the rows, never which rows are shown. */
  lemma SortKeepsRows(coins: seq<Crypto>, searchQuery: string, categoryFilter: string,
                      sortField: Column, sortDirection: Direction,
                      sortField': Column, sortDirection': Direction, collate: (string, string) -> bool)
    ensures multiset(FilteredCrypto(coins, searchQuery, categoryFilter, sortField, sortDirection, collate))
         == multiset(FilteredCrypto(coins, searchQuery, categoryFilter, sortField', sortDirection', collate))
    ensures multiset(FilteredCrypto(coins, searchQuery, categoryFilter, sortField, sortDirection, collate))
         == multiset(Filter(coins, KeepFn(searchQuery, categoryFilter)))
  {
  }

  /** When no two coins share a key, descending is ascending reversed. */
  lemma DescendingReversesAscending(coins: seq<Crypto>, searchQuery: string, categoryFilter: string,
                                    sortField: Column, collate: (string, string) -> bool)
    requires TotalPreorder(collate)
    requires DistinctKeys(coins, SortKey(sortField), collate)
    ensures FilteredCrypto(coins, searchQuery, categoryFilter, sortField, Desc, collate)
         == Reverse(FilteredCrypto(coins, searchQuery, categoryFilter, sortField, Asc, collate))
  {
    DescendingIsReversedAscending(coins, KeepFn(searchQuery, categoryFilter), SortKey(sortField), collate);
  }

  /** The totals are sums over the filtered coins only, whatever the sort;
      both are 0 when nothing matches. */
  lemma TotalsOverFilteredCrypto(coins: seq<Crypto>, searchQuery: string, categoryFilter: string,
                                 sortField: Column, sortDirection: Direction, collate: (string, string) -> bool)
    ensures var r := FilteredCrypto(coins, searchQuery, categoryFilter, sortField, sortDirection, collate);
      var kept := Filter(coins, KeepFn(searchQuery, categoryFilter));
      && TotalValue(r) == Sum(kept, (s: Crypto) => s.value)
      && TotalGain(r) == Sum(kept, (s: Crypto) => s.gain)
      && (kept == [] ==> TotalValue(r) == 0.0 && TotalGain(r) == 0.0)
  {
    var keep, key := KeepFn(searchQuery, categoryFilter), SortKey(sortField);
    ViewSum(coins, keep, key, sortDirection, collate, (s: Crypto) => s.value);
    ViewSum(coins, keep, key, sortDirection, collate, (s: Crypto) => s.gain);
  }

  /** The "Showing N of M coins" line: N never exceeds M, and the
      initial query shows every coin. */
  lemma ShowingCount(coins: seq<Crypto>, searchQuery: string, categoryFilter: string,
                     sortField: Column, sortDirection: Direction, collate: (string, string) -> bool)
    ensures |FilteredCrypto(coins, searchQuery, categoryFilter, sortField, sortDirection, collate)| <= |coins|
    ensures |FilteredCrypto(coins, "", AllCategories, sortField, sortDirection, collate)| == |coins|
  {
    var r := FilteredCrypto(coins, "", AllCategories, sortField, sortDirection, collate);
    DefaultQueryShowsAll(coins, sortField, sortDirection, collate);
    assert |r| == |multiset(r)| == |multiset(coins)|;
  }

  /** For the sample data the initial table shows "6 of 6". */
  lemma SampleShowsSix(sortField: Column, sortDirection: Direction, collate: (string, string) -> bool)
    ensures |FilteredCrypto(CryptoData, "", AllCategories, sortField, sortDirection, collate)| == |CryptoData| == 6
  {
    ShowingCount(CryptoData, "", AllCategories, sortField, sortDirection, collate);
  }

  /** The sample's category options are exactly "all", "Large Cap" and
      "Mid Cap", in that order. */
  lemma SampleCategories()
    ensures Categories(CryptoData) == [AllCategories, "Large Cap", "Mid Cap"]
  {
    var column := seq(|CryptoData|, k requires 0 <= k < |CryptoData| => CryptoData[k].category);
    assert column == ["Large Cap", "Large Cap", "Large Cap", "Large Cap", "Mid Cap", "Mid Cap"];
    TwoCategoryRuns("Large Cap", "Mid Cap");
  }

  /** Four rows of one category then two of another give two options. */
  lemma TwoCategoryRuns<T>(large: T, mid: T)
    requires large != mid
    ensures Distinct([large, large, large, large, mid, mid]) == [large, mid]
  {
    var c4 := [large, large, large, large];
    var c5 := c4 + [mid];
    var c6 := c5 + [mid];
    OneCategoryRun(large);
    assert mid !in c4;
    DistinctSnoc(c4, mid);
    assert mid in c5;
    DistinctSnoc(c5, mid);
    assert c6 == [large, large, large, large, mid, mid];
  }

  lemma OneCategoryRun<T>(large: T)
    ensures Distinct([large, large, large, large]) == [large]
  {
    var c1 := [large];
    var c2 := c1 + [large];
    var c3 := c2 + [large];
    var c4 := c3 + [large];
    DistinctSnoc([], large);
    assert [] + [large] == c1;
    DistinctSnoc(c1, large);
    DistinctSnoc(c2, large);
    DistinctSnoc(c3, large);
    assert c4 == [large, large, large, large];
  }

  /** Of the sample coins only Solana matches the query "sol". */
  lemma OnlySolanaMatchesSol()
    ensures forall i :: 0 <= i < |CryptoData| ==> (Keep(CryptoData[i], "sol", AllCategories) <==> i == 2)
  {
    SolanaMatchesSol();
    OthersMissSol();
  }

  lemma SolanaMatchesSol()
    ensures Keep(CryptoData[2], "sol", AllCategories)
  {
    assert CryptoData[2].symbol == "SOL";
    assert Lower("SOL") == "sol" && StartsWith("sol", "sol");
  }

  lemma OthersMissSol()
    ensures forall i :: 0 <= i < |CryptoData| && i != 2 ==> !Keep(CryptoData[i], "sol", AllCategories)
  {
    forall i | 0 <= i < |CryptoData| && i != 2
      ensures !MatchesSearch("sol", CryptoData[i].symbol, CryptoData[i].name)
    {
      var c := CryptoData[i];
      SolAbsent(i);
      LowerOccurrence(c.symbol, 's');
      LowerOccurrence(c.name, 's');
      ForeignHeadNoMatch("sol", c.symbol, c.name);
    }
  }

  /** No other sample coin has an 's' or 'S' in its symbol or name. */
  lemma SolAbsent(i: nat)
    requires i < |CryptoData| && i != 2
    ensures 's' !in CryptoData[i].symbol && 'S' !in CryptoData[i].symbol
    ensures 's' !in CryptoData[i].name && 'S' !in CryptoData[i].name
  {
  }

  /** So the query "sol" shows the Solana row alone, whatever the sort. */
  lemma SolQueryShowsSolana(sortField: Column, sortDirection: Direction, collate: (string, string) -> bool)
    ensures FilteredCrypto(CryptoData, "sol", AllCategories, sortField, sortDirection, collate) == [CryptoData[2]]
  {
    OnlySolanaMatchesSol();
    ViewSingle(CryptoData, KeepFn("sol", AllCategories), SortKey(sortField), sortDirection, collate, 2);
  }

  /** The "sol" totals: Solana's value, and its recorded gain as it stands
      rather than that gain times the 25 coins held. */
  lemma SolQueryTotals(sortField: Column, sortDirection: Direction, collate: (string, string) -> bool)
    ensures TotalValue(FilteredCrypto(CryptoData, "sol", AllCategories, sortField, sortDirection, collate)) == 3558.75
    ensures TotalGain(FilteredCrypto(CryptoData, "sol", AllCategories, sortField, sortDirection, collate)) == 1423.25
    ensures TotalGain(FilteredCrypto(CryptoData, "sol", AllCategories, sortField, sortDirection, collate))
         != CryptoData[2].gain * CryptoData[2].amount
  {
    SolQueryShowsSolana(sortField, sortDirection, collate);
    var solana := CryptoData[2];
    assert solana.value == 3558.75 && solana.gain == 1423.25 && solana.amount == 25.0;
    assert Sum([solana], (c: Crypto) => c.value) == 3558.75;
    assert Sum([solana], (c: Crypto) => c.gain) == 1423.25;
  }

  /** The component's query state. */
  class CryptoHoldingsView {
    var searchQuery: string
    var sortField: Column
    var sortDirection: Direction
    var categoryFilter: string

    /** Initially: no search, sorted by value descending, all categories. */
    constructor ()
      ensures searchQuery == "" && sortField == Value && sortDirection == Desc && categoryFilter == AllCategories
    {
      searchQuery := "";
      sortField := Value;
      sortDirection := Desc;
      categoryFilter := AllCategories;
    }

    method SetSearchQuery(query: string)
      modifies this
      ensures searchQuery == query
      ensures sortField == old(sortField) && sortDirection == old(sortDirection) && categoryFilter == old(categoryFilter)
    {
      searchQuery := query;
    }

    method SetCategoryFilter(category: string)
      modifies this
      ensures categoryFilter == category
      ensures searchQuery == old(searchQuery) && sortField == old(sortField) && sortDirection == old(sortDirection)
    {
      categoryFilter := category;
    }

    /** `handleSort`: the new sort state is `Click` of the old one; the
        search and the filter stay. */
    method HandleSort(field: Column)
      modifies this
      ensures SortOrder(sortField, sortDirection) == Click(SortOrder(old(sortField), old(sortDirection)), field)
      ensures searchQuery == old(searchQuery) && categoryFilter == old(categoryFilter)
    {
      if sortField == field {
        sortDirection := if sortDirection == Asc then Desc else Asc;
      } else {
        sortField := field;
        sortDirection := Desc;
      }
    }

    /** The rows the table renders for the current state. */
    function Rows(collate: (string, string) -> bool): (r: seq<Crypto>)
      reads this
      ensures |r| <= |CryptoData|
      ensures multiset(r) <= multiset(CryptoData)
      ensures forall s | s in CryptoData ::
        multiset(r)[s] == if Keep(s, searchQuery, categoryFilter) then multiset(CryptoData)[s] else 0
      ensures TotalPreorder(collate) ==> Sorted(r, RowOrder(SortKey(sortField), sortDirection, collate))
    {
      RowsOfData(CryptoData, searchQuery, categoryFilter, sortField, sortDirection, collate);
      FilteredCrypto(CryptoData, searchQuery, categoryFilter, sortField, sortDirection, collate)
    }
  }
}
