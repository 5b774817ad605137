# Stock portfolio dashboard — verified model of its client-side logic

The dashboard is a set of React components. Each component holds a mock data set and a little state
(search text, sort column and direction, category filter, whether the mobile menu is open), and derives
what it shows from that state. This project models that derivation in Dafny:

- **Holdings tables** (stocks, ETFs, crypto, the portfolio's stock list). Each table:
  - filters its rows by a case-insensitive substring search over ticker/symbol and name, and by a
    category or sector filter where it has one;
  - sorts the rows by the clicked column with a stable sort; numbers compare numerically and strings
    through a collation;
  - toggles the sort direction when the current column is clicked again, and sorts a newly clicked
    column descending;
  - sums value and gain over the rows it shows, and offers as filter options "all" followed by the
    distinct categories in order of first appearance.
- **Transactions panel.** Filters by ticker substring and by transaction type ("all", "buy",
  "sell"), and capitalises the type for display.
- **Watchlist.** Search filter only.
- **Sidebar.** Prefix matching that highlights the active route, and nested sub-items shown only
  under an active parent. The mobile-menu state closes on navigation, toggles on the button and
  closes on the overlay.
- **Portfolio health.** Three thresholds at 80 and 60 map a score to a colour, a risk level and a
  rebalance status.
- **Goal tracker.** Progress percentage, and the "N years M months" remaining text computed from
  millisecond differences.
- **Chart.** The context accessor that fails outside a container, the CSS-variable style map built
  from the chart configuration, and the tooltip's colour, name and value fall-backs.

Shared logic lives in generic modules:

- `Text`: ASCII case mapping, substring search and decimal rendering.
- `Seqs`: filter, subsequence, sum and first-occurrence de-duplication.
- `Sorting`: stable insertion sort.
- `HoldingsQuery`: the sort state machine, search predicate, key order and filtered-sorted view that
  all four tables share.

Each component then has its own module with its data and a class holding its state. Field names
`label` and `type` of the source are `seriesLabel` and `kind` here, since both are Dafny keywords.
JavaScript numbers are modelled as exact `real`s. `String.prototype.localeCompare` is a parameter
`collate` ("a sorts no later than b"), and every ordering property assumes it is a total preorder.

## Model

| member | source | states |
|---|---|---|
| HoldingsQuery.Click | components/stock-holdings.tsx:121-128 | clicking the current column keeps it and flips the direction; clicking another column selects it descending |
| HoldingsQuery.ClickCurrentTwice | components/stock-holdings.tsx:121-128 | clicking the same column twice restores the original sort order |
| HoldingsQuery.ClickNewTwice | components/stock-holdings.tsx:121-128 | a new column is first descending, then ascending on the second click |
| HoldingsQuery.MatchesSearchMeaning | components/stock-holdings.tsx:135-137 | a row matches iff the lowered query occurs as a contiguous substring of the lowered ticker or the lowered name |
| HoldingsQuery.EmptyQueryMatches | components/stock-holdings.tsx:135-137 | the empty search matches every row |
| HoldingsQuery.SearchIgnoresCase | components/stock-holdings.tsx:135-137 | upper- or lower-casing the query does not change which rows match |
| HoldingsQuery.NarrowerQuery | components/stock-holdings.tsx:135-137 | a row matching a query also matches every substring of it, so typing more characters only removes rows |
| HoldingsQuery.ForeignHeadNoMatch | components/stock-holdings.tsx:135-137 | a non-empty query whose first lowered character occurs in neither lowered field matches nothing |
| HoldingsQuery.FilterOptions | components/stock-holdings.tsx:131 | the options start with "all", then list each category exactly once, and contain only categories of the data |
| HoldingsQuery.FilterOptionsInFirstOccurrenceOrder | components/stock-holdings.tsx:131 | categories appear in the order of their first occurrence in the data |
| HoldingsQuery.EveryOptionMatchesSome | components/stock-holdings.tsx:131-138 | on non-empty data every offered option ("all" or a category) keeps some row through the category test |
| HoldingsQuery.RowOrderTotalPreorder | components/stock-holdings.tsx:141-152 | the row comparator in either direction is a total preorder whenever the collation is one |
| HoldingsQuery.KeyLeTransitive | components/stock-holdings.tsx:144-150 | the key order (numeric difference or collation) is transitive |
| HoldingsQuery.KeyLeTotal | components/stock-holdings.tsx:144-150 | under a total-preorder collation any two keys compare one way or the other, and every key with itself |
| HoldingsQuery.DescendingSwapsOperands | components/stock-holdings.tsx:145-149 | the descending comparator is the ascending one with its operands swapped |
| HoldingsQuery.View | components/stock-holdings.tsx:133-152 | filter then sort returns exactly the rows that pass the filter, as a permutation of the filtered rows |
| HoldingsQuery.ViewOrdered | components/stock-holdings.tsx:141-152 | the view is ordered by the chosen key in the chosen direction |
| HoldingsQuery.ViewRowsIgnoreSort | components/stock-holdings.tsx:141-152 | changing sort column or direction never changes which rows are shown |
| HoldingsQuery.ViewSum | components/stock-holdings.tsx:155-156 | sums over the sorted view equal sums over the filtered rows in data order |
| HoldingsQuery.ViewSingle | components/stock-holdings.tsx:133-152 | when exactly one row passes the filter, the view is that row alone |
| HoldingsQuery.ViewResortIdempotent | components/stock-holdings.tsx:141-152 | sorting the view again by the same order leaves it unchanged |
| HoldingsQuery.DescendingIsReversedAscending | components/stock-holdings.tsx:144-150 | with pairwise distinct keys, the descending view is the ascending view reversed |
| Seqs.Filter | components/stock-holdings.tsx:133-140 | the filtered rows are exactly the rows satisfying the predicate, each kept row with all its copies and a dropped row with none |
| Seqs.FilterIsSubsequence | components/transactions-panel.tsx:38-42 | filtering keeps the data order: the result is a subsequence of the input |
| Seqs.FilterNarrower | components/transactions-panel.tsx:38-42 | a stricter predicate selects a subsequence of what a looser one selects |
| Seqs.FilterPartition | components/transactions-panel.tsx:40 | filtering by two disjoint predicates that together cover a third partitions the latter's result |
| Seqs.SumAppend | components/stock-holdings.tsx:155-156 | the sum over a concatenation is the sum of the two parts' sums |
| Seqs.SumPermutation | components/stock-holdings.tsx:155-156 | a reduce-sum does not depend on the order of the rows |
| Seqs.Distinct | components/stock-holdings.tsx:131 | de-duplication keeps every element once and invents none |
| Seqs.DistinctInFirstOccurrenceOrder | components/stock-holdings.tsx:131 | de-duplication orders elements by first occurrence, like iterating a Set |
| Sorting.Sort | components/stock-holdings.tsx:141 | the sort returns a permutation of its input |
| Sorting.SortSorted | components/stock-holdings.tsx:141-152 | under a total preorder the sort's output is ordered |
| Sorting.SortOfSorted | components/stock-holdings.tsx:141-152 | the sort is stable on already ordered input: it leaves it unchanged |
| Sorting.SortIdempotent | components/stock-holdings.tsx:141-152 | sorting twice equals sorting once |
| Sorting.SortedUnique | components/stock-holdings.tsx:141-152 | with no ties, there is exactly one ordered permutation |
| Sorting.ConverseSortIsReverse | components/stock-holdings.tsx:144-150 | sorting by the converse order reverses the result when there are no ties |
| Text.Lower | components/stock-holdings.tsx:135-136 | lowering keeps the length, maps each character and leaves no upper-case letter |
| Text.Upper | components/transactions-panel.tsx:107 | upper-casing keeps the length, maps each character and leaves no lower-case letter |
| Text.LowerOfCaseVariants | components/stock-holdings.tsx:135-136 | lowering is idempotent and absorbs upper-casing |
| Text.ContainsIsSubstring | components/stock-holdings.tsx:135-136 | the includes test holds iff the needle occurs at some index |
| Text.SubstringTransitive | components/stock-holdings.tsx:135-136 | a substring of a substring is a substring |
| Text.DecimalRoundTrip | components/goal-tracker.tsx:62 | rendering a number in decimal and reading it back gives the number |
| Text.Decimal | components/goal-tracker.tsx:62 | the rendering is a non-empty digit string with no leading zero, one digit exactly below ten |
| StockHoldings.FilteredStocks | components/stock-holdings.tsx:133-152 | shows exactly the stocks matching search and sector, as a sub-multiset of the data |
| StockHoldings.Sectors | components/stock-holdings.tsx:131 | "all" first, then each sector of the data exactly once, and nothing else |
| StockHoldings.DefaultQueryShowsAll | components/stock-holdings.tsx:108-111 | with the initial empty search and "all" sector, every stock is shown |
| StockHoldings.AbsentSectorShowsNothing | components/stock-holdings.tsx:138 | a sector that no stock has shows an empty table |
| StockHoldings.FilteredStocksOrdered | components/stock-holdings.tsx:141-152 | the table is ordered by the sort column in the sort direction |
| StockHoldings.SortKeepsRows | components/stock-holdings.tsx:141-152 | the set of rows shown does not depend on the sort column or direction |
| StockHoldings.DescendingReversesAscending | components/stock-holdings.tsx:144-150 | on a column without ties, descending order is ascending order reversed |
| StockHoldings.TotalsOverFilteredStocks | components/stock-holdings.tsx:155-156 | total value is the sum of value and total gain the sum of gain times shares over the shown stocks |
| StockHoldings.TotalsAccumulate | components/stock-holdings.tsx:155-156 | each reduce step adds the row's value, and its gain times shares, to the running totals, starting from 0 |
| StockHoldings.ShowingCount | components/stock-holdings.tsx:314 | the "Showing n of m" count never exceeds the data size and equals it by default |
| StockHoldings.SampleShowsSeven | components/stock-holdings.tsx:13-105 | the sample data shows all 7 stocks by default |
| StockHoldings.StockHoldingsView.constructor | components/stock-holdings.tsx:108-111 | initial state: empty search, sorted by value descending, sector "all" |
| StockHoldings.StockHoldingsView.SetSearchQuery | components/stock-holdings.tsx:108 | sets only the search text |
| StockHoldings.StockHoldingsView.SetSectorFilter | components/stock-holdings.tsx:111 | sets only the sector filter |
| StockHoldings.StockHoldingsView.HandleSort | components/stock-holdings.tsx:121-128 | the new sort order is the click transition of the old one; search and filter are unchanged |
| StockHoldings.StockHoldingsView.Rows | components/stock-holdings.tsx:132-152 | the rendered rows come from the sample stocks only: exactly those passing the current search and sector, each with all its copies, ordered by the clicked column in the current direction whenever the collation is a total preorder |
| EtfHoldings.FilteredEtfs | components/etf-holdings.tsx:133-152 | shows exactly the ETFs matching search and category, as a sub-multiset of the data |
| EtfHoldings.Categories | components/etf-holdings.tsx:131 | "all" first, then each category of the data exactly once, and nothing else |
| EtfHoldings.DefaultQueryShowsAll | components/etf-holdings.tsx:108-111 | with the initial empty search and "all" category, every ETF is shown |
| EtfHoldings.AbsentCategoryShowsNothing | components/etf-holdings.tsx:138 | a category that no ETF has shows an empty table |
| EtfHoldings.FilteredEtfsOrdered | components/etf-holdings.tsx:141-152 | the table is ordered by the sort column in the sort direction |
| EtfHoldings.SortKeepsRows | components/etf-holdings.tsx:141-152 | the set of rows shown does not depend on the sort column or direction |
| EtfHoldings.DescendingReversesAscending | components/etf-holdings.tsx:144-150 | on a column without ties, descending order is ascending order reversed |
| EtfHoldings.TotalsOverFilteredEtfs | components/etf-holdings.tsx:155-156 | total value and total gain (gain times shares) are sums over the shown ETFs |
| EtfHoldings.TotalsAccumulate | components/etf-holdings.tsx:155-156 | each reduce step adds the row's value, and its gain times shares, to the running totals, starting from 0 |
| EtfHoldings.ShowingCount | components/etf-holdings.tsx:314 | the "Showing n of m" count never exceeds the data size and equals it by default |
| EtfHoldings.SampleShowsSeven | components/etf-holdings.tsx:13-105 | the sample data shows all 7 ETFs by default |
| EtfHoldings.NoSampleIsMidCap | components/etf-holdings.tsx:13-105 | no sample ETF is in the "Mid Cap" category |
| EtfHoldings.MidCapShowsNothing | components/etf-holdings.tsx:138 | filtering the sample by "Mid Cap" shows nothing, whatever the search |
| EtfHoldings.MidCapTotalsZero | components/etf-holdings.tsx:155-156 | and then both totals are zero |
| EtfHoldings.EtfHoldingsView.constructor | components/etf-holdings.tsx:108-111 | initial state: empty search, sorted by value descending, category "all" |
| EtfHoldings.EtfHoldingsView.SetSearchQuery | components/etf-holdings.tsx:108 | sets only the search text |
| EtfHoldings.EtfHoldingsView.SetCategoryFilter | components/etf-holdings.tsx:111 | sets only the category filter |
| EtfHoldings.EtfHoldingsView.HandleSort | components/etf-holdings.tsx:121-128 | the new sort order is the click transition of the old one |
| EtfHoldings.EtfHoldingsView.Rows | components/etf-holdings.tsx:132-152 | the rendered rows come from the sample ETFs only: exactly those passing the current search and category, each with all its copies, ordered by the clicked column in the current direction whenever the collation is a total preorder |
| CryptoHoldings.FilteredCrypto | components/crypto-holdings.tsx:127-146 | shows exactly the coins matching search (symbol or name) and category, as a sub-multiset of the data |
| CryptoHoldings.Categories | components/crypto-holdings.tsx:125 | "all" first, then each category of the data exactly once, and nothing else |
| CryptoHoldings.DefaultQueryShowsAll | components/crypto-holdings.tsx:95-98 | with the initial empty search and "all" category, every coin is shown |
| CryptoHoldings.AbsentCategoryShowsNothing | components/crypto-holdings.tsx:132 | a category that no coin has shows an empty table |
| CryptoHoldings.FilteredCryptoOrdered | components/crypto-holdings.tsx:135-146 | the table is ordered by the sort column in the sort direction |
| CryptoHoldings.SortKeepsRows | components/crypto-holdings.tsx:135-146 | the set of rows shown does not depend on the sort column or direction |
| CryptoHoldings.DescendingReversesAscending | components/crypto-holdings.tsx:138-144 | on a column without ties, descending order is ascending order reversed |
| CryptoHoldings.TotalsOverFilteredCrypto | components/crypto-holdings.tsx:149-150 | total value and total gain (gain, not multiplied by amount) are sums over the shown coins |
| CryptoHoldings.TotalsAccumulate | components/crypto-holdings.tsx:149-150 | each reduce step adds the row's value and its gain as recorded to the running totals, starting from 0 |
| CryptoHoldings.ShowingCount | components/crypto-holdings.tsx:308 | the "Showing n of m" count never exceeds the data size and equals it by default |
| CryptoHoldings.SampleShowsSix | components/crypto-holdings.tsx:13-92 | the sample data shows all 6 coins by default |
| CryptoHoldings.SampleCategories | components/crypto-holdings.tsx:125 | the sample's filter options are exactly "all", "Large Cap", "Mid Cap" |
| CryptoHoldings.OnlySolanaMatchesSol | components/crypto-holdings.tsx:129-131 | in the sample, the search "sol" matches the Solana row and no other |
| CryptoHoldings.SolQueryShowsSolana | components/crypto-holdings.tsx:127-146 | searching "sol" shows exactly the Solana row, in any sort order |
| CryptoHoldings.SolQueryTotals | components/crypto-holdings.tsx:149-150 | the "sol" totals are value 3558.75 and gain 1423.25, which is not gain times amount |
| CryptoHoldings.CryptoHoldingsView.constructor | components/crypto-holdings.tsx:95-98 | initial state: empty search, sorted by value descending, category "all" |
| CryptoHoldings.CryptoHoldingsView.SetSearchQuery | components/crypto-holdings.tsx:95 | sets only the search text |
| CryptoHoldings.CryptoHoldingsView.SetCategoryFilter | components/crypto-holdings.tsx:98 | sets only the category filter |
| CryptoHoldings.CryptoHoldingsView.HandleSort | components/crypto-holdings.tsx:115-122 | the new sort order is the click transition of the old one |
| CryptoHoldings.CryptoHoldingsView.Rows | components/crypto-holdings.tsx:126-146 | the rendered rows come from the sample coins only: exactly those passing the current search and category, each with all its copies, ordered by the clicked column in the current direction whenever the collation is a total preorder |
| PortfolioStocks.FilteredStocks | components/portfolio-stocks.tsx:113-131 | shows exactly the stocks matching the search, as a sub-multiset of the data |
| PortfolioStocks.EmptyQueryShowsAll | components/portfolio-stocks.tsx:92 | with the initial empty search every stock is shown |
| PortfolioStocks.FilteredStocksOrdered | components/portfolio-stocks.tsx:120-131 | the list is ordered by the sort column in the sort direction |
| PortfolioStocks.SortKeepsRows | components/portfolio-stocks.tsx:120-131 | the rows shown do not depend on the sort column or direction |
| PortfolioStocks.DescendingReversesAscending | components/portfolio-stocks.tsx:120-131 | on a column without ties, descending order is ascending order reversed |
| PortfolioStocks.PortfolioStocksView.constructor | components/portfolio-stocks.tsx:92-94 | initial state: empty search, sorted by value descending |
| PortfolioStocks.PortfolioStocksView.SetSearchQuery | components/portfolio-stocks.tsx:92 | sets only the search text |
| PortfolioStocks.PortfolioStocksView.HandleSort | components/portfolio-stocks.tsx:104-111 | the new sort order is the click transition of the old one |
| PortfolioStocks.PortfolioStocksView.Rows | components/portfolio-stocks.tsx:113-131 | the rendered rows come from the sample stocks only: exactly those matching the current search, each with all its copies, ordered by the clicked column in the current direction whenever the collation is a total preorder |
| TransactionsPanel.FilteredTransactions | components/transactions-panel.tsx:38-42 | keeps data order and keeps a transaction iff its lowered ticker contains the lowered search and its type matches |
| TransactionsPanel.MatchesTickerMeaning | components/transactions-panel.tsx:39 | the ticker test holds iff the lowered query occurs as a contiguous substring of the lowered ticker |
| TransactionsPanel.BuyAndSellWithinAll | components/transactions-panel.tsx:40 | the "buy" and "sell" lists are each subsequences of the "all" list and share no transaction |
| TransactionsPanel.BuyAndSellMakeAll | components/transactions-panel.tsx:40 | when every type is buy or sell, the buy and sell lists together are the "all" list |
| TransactionsPanel.SampleKinds | components/transactions-panel.tsx:12-20 | every sample transaction is a buy or a sell |
| TransactionsPanel.NoTickerMatchFindsNothing | components/transactions-panel.tsx:39 | a search found in no ticker empties the list whatever the type |
| TransactionsPanel.CompanyNameFindsNothing | components/transactions-panel.tsx:39 | the search looks at tickers only: "apple" finds nothing in the sample |
| TransactionsPanel.Panel | components/transactions-panel.tsx:93 | the empty message appears iff nothing matches; otherwise all matches are listed and the footer count is at most the data size |
| TransactionsPanel.TypeLabel | components/transactions-panel.tsx:107 | the label upper-cases the first character and keeps the rest |
| TransactionsPanel.TypeLabelLowersBack | components/transactions-panel.tsx:107 | lowering the label of a lower-case type gives the type back |
| TransactionsPanel.SampleLabels | components/transactions-panel.tsx:107 | "buy" and "sell" are shown as "Buy" and "Sell" |
| WatchlistStocks.FilteredStocks | components/watchlist-stocks.tsx:102-107 | keeps data order and keeps a stock iff the search matches its ticker or name |
| WatchlistStocks.EmptyQueryKeepsAll | components/watchlist-stocks.tsx:102-107 | the empty search shows the whole watchlist, in order |
| WatchlistStocks.SampleEmptyQueryKeepsSix | components/watchlist-stocks.tsx:11-78 | the sample watchlist shows 6 stocks by default |
| WatchlistStocks.LongerQueryNarrows | components/watchlist-stocks.tsx:102-107 | extending the query shows a subsequence of what the shorter query showed |
| WatchlistStocks.SearchIgnoresQueryCase | components/watchlist-stocks.tsx:102-107 | the case of the query does not change the list |
| Sidebar.ActiveOnOwnPath | components/sidebar.tsx:55-60 | every item is active on its own path |
| Sidebar.RootOnlyOnRoot | components/sidebar.tsx:55-60 | the root item is active exactly on "/" |
| Sidebar.ActiveMeaning | components/sidebar.tsx:55-60 | an entry is active iff there is a current path, the link is its window at position 0, and for the root link the path is "/" itself |
| Sidebar.SubActiveMeaning | components/sidebar.tsx:62-64 | a sub-entry is highlighted iff the same link would be active and the current path is exactly as long as the link |
| Sidebar.NestedPathActive | components/sidebar.tsx:55-60 | whenever a nested path is active, so is every non-root prefix of it |
| Sidebar.NoSegmentBoundary | components/sidebar.tsx:55-64 | prefix matching ignores segment boundaries ("/portfolios" activates "/portfolio"); nothing is active without a pathname |
| Sidebar.VisibleSubItems | components/sidebar.tsx:177 | sub-items are shown iff the item has them and is active, and then all of them |
| Sidebar.StocksPageHighlights | components/sidebar.tsx:73-93 | on "/portfolio/stocks" the Portfolio sub-items are shown and only the Stocks one is highlighted |
| Sidebar.SubItemsHiddenElsewhere | components/sidebar.tsx:177 | outside "/portfolio" the Portfolio sub-items are hidden |
| Sidebar.SidebarState.constructor | components/sidebar.tsx:29-30 | the mobile menu starts closed |
| Sidebar.SidebarState.ToggleMenu | components/sidebar.tsx:144 | the menu button flips the menu's open state |
| Sidebar.SidebarState.ClickOverlay | components/sidebar.tsx:211-214 | clicking the overlay closes the menu |
| Sidebar.SidebarState.Navigate | components/sidebar.tsx:51-53 | a change of pathname closes the menu; the same pathname leaves it as it was |
| PortfolioHealth.BandOf | components/portfolio-health.tsx:15-19 | a score is good from 80, fair from 60 below 80, poor below 60 |
| PortfolioHealth.ScoreColor | components/portfolio-health.tsx:15-19 | green, yellow or red according to the score's band |
| PortfolioHealth.RiskLevel | components/portfolio-health.tsx:21-25 | Low, Moderate or High according to the score's band |
| PortfolioHealth.RebalanceStatus | components/portfolio-health.tsx:27-31 | Balanced, Minor Adjustments Needed or Rebalancing Recommended according to the band |
| PortfolioHealth.LabelingsAgree | components/portfolio-health.tsx:15-31 | the three labelings always pick the same band |
| PortfolioHealth.RaisingNeverWorsens | components/portfolio-health.tsx:15-31 | a higher score never gets a worse band |
| PortfolioHealth.BoundariesInclusive | components/portfolio-health.tsx:15-31 | the thresholds 80 and 60 belong to the better band |
| PortfolioHealth.SampleScores | components/portfolio-health.tsx:11-13 | the sample scores show diversification yellow, risk Moderate and rebalance Balanced |
| GoalTracker.Progress | components/goal-tracker.tsx:50-52 | progress times target equals current times 100 |
| GoalTracker.NearlyThere | components/goal-tracker.tsx:104-108 | the "you're there" message shows iff current is at least 80% of target |
| GoalTracker.AbsDiff | components/goal-tracker.tsx:57 | the distance is the absolute difference of the two instants |
| GoalTracker.DiffYears | components/goal-tracker.tsx:58 | whole 365-day years: the floor of distance over a year |
| GoalTracker.DiffMonths | components/goal-tracker.tsx:59 | whole 30-day months within the last partial year, at most 12 |
| GoalTracker.Quantity | components/goal-tracker.tsx:62-64 | renders the decimal count, a space and the word, with "s" exactly when the count exceeds 1 |
| GoalTracker.PastAndFutureAlike | components/goal-tracker.tsx:57-64 | a date in the past reads the same as a date equally far in the future |
| GoalTracker.YearsMentionedFromAYear | components/goal-tracker.tsx:61-64 | years are mentioned iff at least a 365-day year remains |
| GoalTracker.YearsBranchText | components/goal-tracker.tsx:54-63 | from a year apart on, the text is "Y year[s] M month[s]" with Y the whole 365-day years and M the whole 30-day months of the rest |
| GoalTracker.SingularBelowTwo | components/goal-tracker.tsx:62-64 | "0 month" and "1 month" stay singular, "2 years" is plural |
| GoalTracker.TwelveMonthsReachable | components/goal-tracker.tsx:58-64 | 360 days read "12 months" and 365 days read "1 year 0 month" |
| GoalTracker.GoalMessage | components/goal-tracker.tsx:104-108 | the line under a goal is the "% there" message, carrying the progress, iff 100 times the saved amount reaches 80 times the target; otherwise it is the time-remaining text |
| GoalTracker.SampleGoalsShowTimeRemaining | components/goal-tracker.tsx:9-34 | no sample goal reaches 80%, so each shows the time-remaining message whatever the dates |
| Chart.UseChartContext | components/ui/chart.tsx:21-27 | fails with the container error iff there is no context, otherwise returns it |
| Chart.ColorVarInjective | components/ui/chart.tsx:41 | distinct configuration keys give distinct CSS variable names |
| Chart.ContainerStyle | components/ui/chart.tsx:39-44 | the style has one "--color-key" entry per configuration key, holding that key's colour |
| Chart.StyleSize | components/ui/chart.tsx:39-44 | the style has as many entries as the configuration, and none for an empty one |
| Chart.ItemColor | components/ui/chart.tsx:98 | configured colour, else the item's colour, else the primary colour; empty strings count as missing |
| Chart.ItemName | components/ui/chart.tsx:104-106 | formatter's name, else configured label, else the item's name |
| Chart.ItemValue | components/ui/chart.tsx:99-103 | formatter's value, else the locale rendering of a number, else the text as is |
| Chart.TooltipContent | components/ui/chart.tsx:83-106 | fails without a context even when inactive; renders nothing iff inactive or payload empty; else one row per payload item |

## Left out

- Rendering (JSX, CSS classes, icons, tooltips' markup), React hooks' scheduling and effects other
  than the menu-closing one; each component's state is a class whose methods are the setters.
- Case mapping covers ASCII letters only; JavaScript's full Unicode `toLowerCase`/`toUpperCase` is
  not modelled.
- Numbers are exact reals: floating-point rounding of sums and of the progress percentage is not
  modelled, nor `toFixed`, `Intl.NumberFormat`, `Intl.DateTimeFormat` or `toLocaleString`
  (the tooltip takes the number rendering as a parameter).
- `localeCompare` is an abstract collation parameter; ordering lemmas assume it is a total preorder.
- The gain-percentage ratios (`totalGainPercent` and per-row percentages) are display arithmetic
  over the modelled totals and are not modelled.
- Display-only fields of the holdings tables are omitted from their records: `dividendYield` and
  `lastUpdated` of a stock, `expenseRatio` and `dividendYield` of an ETF, `marketCap` and `volume24h`
  of a coin. No filter, sort or total reads them. The watchlist's quote columns and the goals'
  colours are kept in their records, but nothing is proved about them.
- The sort column is a free string in the source; here it is one of the table's header columns.
  Comparing a string key with a numeric key cannot happen for a fixed column, so that mixed case of
  the comparator is not modelled.
- GoalTracker.Progress: requires a nonzero target; the source would yield Infinity or NaN for a
  zero target.
- GoalTracker.TimeRemaining: takes the target and the current instant as millisecond integers;
  date-string parsing and the clock are left out, and its properties are stated by the lemmas beside it.
- `isMobile` and the window resize listener of the sidebar, and `React.useId` in the chart container.
- `Object.entries` iteration order in the chart style: the keys are distinct and the variable names
  injective, so the resulting map does not depend on it.
- The app pages and the data-chart components only compose these components and are not part of
  this model.
