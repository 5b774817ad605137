/** The query engine the holdings tables (stocks, ETFs, crypto, portfolio
    stocks) each carry a copy of: a search over ticker/symbol and name, an
    exact category filter where "all" matches everything, a sort on one
    column in one direction, and sums over the rows that remain. */
module HoldingsQuery {
  import opened Text
  import opened Seqs
  import opened Sorting

  /** The category filter value that matches every row. */
  const AllCategories: string := "all"

  datatype Direction = Asc | Desc

  /** The sort part of a table's query state: a column and a direction. */
  datatype SortOrder<F> = SortOrder(field: F, direction: Direction)

  function Flip(d: Direction): Direction
  {
    if d == Asc then Desc else Asc
  }

  /** `handleSort(field)`: clicking the current column flips the direction;
      clicking another column selects it, descending. */
  function Click<F(==)>(order: SortOrder<F>, clicked: F): (r: SortOrder<F>)
    ensures r.field == clicked
    ensures order.field == clicked ==> r.direction != order.direction
    ensures order.field != clicked ==> r.direction == Desc
  {
    if order.field == clicked then SortOrder(clicked, Flip(order.direction))
    else SortOrder(clicked, Desc)
  }

  /** Two clicks on the current column give the original order back. */
  lemma ClickCurrentTwice<F>(order: SortOrder<F>)
    ensures Click(Click(order, order.field), order.field) == order
  {
  }

  /** Two clicks on a new column: first descending, then ascending. */
  lemma ClickNewTwice<F>(order: SortOrder<F>, clicked: F)
    requires order.field != clicked
    ensures Click(order, clicked) == SortOrder(clicked, Desc)
    ensures Click(Click(order, clicked), clicked) == SortOrder(clicked, Asc)
  {
  }

  /** The search test: the lowered query occurs in the lowered ticker (or
      symbol) or in the lowered name. */
  predicate MatchesSearch(query: string, ticker: string, name: string)
  {
    Contains(Lower(ticker), Lower(query)) || Contains(Lower(name), Lower(query))
  }

  /** The search test is a case-insensitive substring test. */
  lemma MatchesSearchMeaning(query: string, ticker: string, name: string)
    ensures MatchesSearch(query, ticker, name) <==>
      IsSubstring(Lower(query), Lower(ticker)) || IsSubstring(Lower(query), Lower(name))
  {
    ContainsIsSubstring(Lower(ticker), Lower(query));
    ContainsIsSubstring(Lower(name), Lower(query));
  }

  /** The empty query matches every row. */
  lemma EmptyQueryMatches(ticker: string, name: string)
    ensures MatchesSearch("", ticker, name)
  {
    assert Lower("") == "";
    EmptyIsContained(Lower(ticker));
  }

  /** Upper- or lower-casing the query changes nothing. */
  lemma SearchIgnoresCase(query: string, ticker: string, name: string)
    ensures MatchesSearch(Upper(query), ticker, name) == MatchesSearch(query, ticker, name)
    ensures MatchesSearch(Lower(query), ticker, name) == MatchesSearch(query, ticker, name)
  {
    LowerOfCaseVariants(query);
  }

  /** Typing more narrows: a row the longer query matches, the shorter
      query matches too. */
  lemma NarrowerQuery(query: string, longer: string, ticker: string, name: string)
    requires IsSubstring(Lower(query), Lower(longer))
    requires MatchesSearch(longer, ticker, name)
    ensures MatchesSearch(query, ticker, name)
  {
    MatchesSearchMeaning(longer, ticker, name);
    MatchesSearchMeaning(query, ticker, name);
    if IsSubstring(Lower(longer), Lower(ticker)) {
      SubstringTransitive(Lower(query), Lower(longer), Lower(ticker));
    } else {
      SubstringTransitive(Lower(query), Lower(longer), Lower(name));
    }
  }

  /** A query whose first letter occurs in neither field matches nothing. */
  lemma ForeignHeadNoMatch(query: string, ticker: string, name: string)
    requires query != []
    requires Lower(query)[0] !in Lower(ticker) && Lower(query)[0] !in Lower(name)
    ensures !MatchesSearch(query, ticker, name)
  {
    if Contains(Lower(ticker), Lower(query)) {
      ContainedCharsOccur(Lower(ticker), Lower(query));
    }
    if Contains(Lower(name), Lower(query)) {
      ContainedCharsOccur(Lower(name), Lower(query));
    }
  }

  /** The category (or sector) test. */
  predicate MatchesCategory(filter: string, category: string)
  {
    filter == AllCategories || category == filter
  }

  /** `["all", ...new Set(categories)]`: the options of the category select. */
  function FilterOptions(categories: seq<string>): (r: seq<string>)
    ensures |r| >= 1 && r[0] == AllCategories
    ensures NoDuplicates(r[1..])
    ensures forall i :: 0 <= i < |categories| ==> categories[i] in r[1..]
    ensures forall i :: 1 <= i < |r| ==> r[i] in categories
  {
    [AllCategories] + Distinct(categories)
  }

  /** Every option the select offers keeps at least one row of non-empty
      data: "all" keeps every row, any other option is some row's category. */
  lemma EveryOptionMatchesSome(categories: seq<string>, option: string)
    requires categories != [] && option in FilterOptions(categories)
    ensures exists i :: 0 <= i < |categories| && MatchesCategory(option, categories[i])
  {
    var r := FilterOptions(categories);
    if option == AllCategories {
      assert MatchesCategory(option, categories[0]);
    } else {
      var k :| 0 <= k < |r| && r[k] == option;
      assert k >= 1;
      assert option in categories;
      var i :| 0 <= i < |categories| && categories[i] == option;
      assert MatchesCategory(option, categories[i]);
    }
  }

  /** The options after "all" follow the first appearance of each category. */
  lemma FilterOptionsInFirstOccurrenceOrder(categories: seq<string>)
    ensures forall i, j :: 1 <= i < j < |FilterOptions(categories)| ==>
      FirstIndex(categories, FilterOptions(categories)[i]) < FirstIndex(categories, FilterOptions(categories)[j])
  {
    var d := Distinct(categories);
    DistinctInFirstOccurrenceOrder(categories);
    assert forall i :: 1 <= i < |FilterOptions(categories)| ==> FilterOptions(categories)[i] == d[i - 1];
  }

  /** The value of a sortable column: a number or a string. */
  datatype Key = Num(n: real) | Str(s: string)

  /** The ascending comparator: numbers by subtraction, strings by the
      collation `collate` (a stand-in for `localeCompare(a, b) <= 0`). */
  predicate KeyLe(a: Key, b: Key, collate: (string, string) -> bool)
  {
    match (a, b)
    case (Num(x), Num(y)) => x <= y
    case (Str(x), Str(y)) => collate(x, y)
    case (Num(_), Str(_)) => true
    case (Str(_), Num(_)) => false
  }

  /** For a collation that is a total preorder, any two keys compare one
      way or the other. */
  lemma KeyLeTotal(a: Key, b: Key, collate: (string, string) -> bool)
    requires TotalPreorder(collate)
    ensures KeyLe(a, b, collate) || KeyLe(b, a, collate)
    ensures KeyLe(a, a, collate)
  {
  }

  /** The comparator `.sort` gets: ascending, or with the operands swapped
      for descending. */
  function RowOrder<T>(key: T -> Key, direction: Direction, collate: (string, string) -> bool): (T, T) -> bool
  {
    (a: T, b: T) => if direction == Asc then KeyLe(key(a), key(b), collate) else KeyLe(key(b), key(a), collate)
  }

  /** The descending comparator is the ascending one with its operands
      swapped. */
  lemma DescendingSwapsOperands<T>(key: T -> Key, collate: (string, string) -> bool, a: T, b: T)
    ensures RowOrder(key, Desc, collate)(a, b) == RowOrder(key, Asc, collate)(b, a)
  {
  }

  /** For a collation that is a total preorder, both comparators are too. */
  lemma RowOrderTotalPreorder<T(!new)>(key: T -> Key, direction: Direction, collate: (string, string) -> bool)
    requires TotalPreorder(collate)
    ensures TotalPreorder(RowOrder(key, direction, collate))
  {
    var le := RowOrder(key, direction, collate);
    forall x: T, y: T, z: T | le(x, y) && le(y, z)
      ensures le(x, z)
    {
      if direction == Asc {
        KeyLeTransitive(key(x), key(y), key(z), collate);
      } else {
        KeyLeTransitive(key(z), key(y), key(x), collate);
      }
    }
  }

  lemma KeyLeTransitive(a: Key, b: Key, c: Key, collate: (string, string) -> bool)
    requires TotalPreorder(collate)
    requires KeyLe(a, b, collate) && KeyLe(b, c, collate)
    ensures KeyLe(a, c, collate)
  {
  }

  /** The table body: the rows that pass `keep`, sorted by `key` in
      `direction`. */
  function View<T>(rows: seq<T>, keep: T -> bool, key: T -> Key, direction: Direction,
                   collate: (string, string) -> bool): (r: seq<T>)
    ensures multiset(r) == multiset(Filter(rows, keep))
    ensures multiset(r) <= multiset(rows) && |r| <= |rows|
    ensures forall i :: 0 <= i < |r| ==> r[i] in rows && keep(r[i])
    ensures forall i :: 0 <= i < |rows| && keep(rows[i]) ==> rows[i] in r
    ensures forall x | x in rows :: multiset(r)[x] == if keep(x) then multiset(rows)[x] else 0
  {
    var kept := Filter(rows, keep);
    var r := Sort(kept, RowOrder(key, direction, collate));
    assert forall i :: 0 <= i < |r| ==> r[i] in multiset(kept);
    assert forall i :: 0 <= i < |rows| && keep(rows[i]) ==> rows[i] in multiset(r);
    assert |r| == |multiset(r)| == |multiset(kept)| == |kept|;
    r
  }

  /** Ascending views have non-decreasing keys, descending views
      non-increasing keys. */
  lemma ViewOrdered<T(!new)>(rows: seq<T>, keep: T -> bool, key: T -> Key, direction: Direction,
                             collate: (string, string) -> bool)
    requires TotalPreorder(collate)
    ensures var r := View(rows, keep, key, direction, collate);
      forall i, j :: 0 <= i < j < |r| ==>
        if direction == Asc then KeyLe(key(r[i]), key(r[j]), collate)
        else KeyLe(key(r[j]), key(r[i]), collate)
  {
    RowOrderTotalPreorder(key, direction, collate);
    SortSorted(Filter(rows, keep), RowOrder(key, direction, collate));
  }

  /** Which rows appear never depends on the sort column or direction. */
  lemma ViewRowsIgnoreSort<T>(rows: seq<T>, keep: T -> bool, key: T -> Key, direction: Direction,
                              key': T -> Key, direction': Direction, collate: (string, string) -> bool)
    ensures multiset(View(rows, keep, key, direction, collate)) == multiset(View(rows, keep, key', direction', collate))
  {
  }

  /** A sum over the view is the sum over the filtered rows, whatever the
      sort. */
  lemma ViewSum<T>(rows: seq<T>, keep: T -> bool, key: T -> Key, direction: Direction,
                   collate: (string, string) -> bool, f: T -> real)
    ensures Sum(View(rows, keep, key, direction, collate), f) == Sum(Filter(rows, keep), f)
  {
    SumPermutation(View(rows, keep, key, direction, collate), Filter(rows, keep), f);
  }

  /** A query that exactly one row passes shows that row alone. */
  lemma ViewSingle<T>(rows: seq<T>, keep: T -> bool, key: T -> Key, direction: Direction,
                      collate: (string, string) -> bool, k: nat)
    requires k < |rows|
    requires forall i :: 0 <= i < |rows| ==> (keep(rows[i]) <==> i == k)
    ensures View(rows, keep, key, direction, collate) == [rows[k]]
  {
    FilterSingle(rows, keep, k);
    assert Sort([rows[k]], RowOrder(key, direction, collate)) == [rows[k]];
  }

  /** Re-sorting the view with the same query changes nothing. */
  lemma ViewResortIdempotent<T(!new)>(rows: seq<T>, keep: T -> bool, key: T -> Key, direction: Direction,
                                      collate: (string, string) -> bool)
    requires TotalPreorder(collate)
    ensures var r := View(rows, keep, key, direction, collate);
      Sort(r, RowOrder(key, direction, collate)) == r
  {
    RowOrderTotalPreorder(key, direction, collate);
    SortIdempotent(Filter(rows, keep), RowOrder(key, direction, collate));
  }

  /** No two rows share a key (up to the collation's ties). */
  ghost predicate DistinctKeys<T>(rows: seq<T>, key: T -> Key, collate: (string, string) -> bool)
  {
    forall i, j :: 0 <= i < j < |rows| ==>
      !(KeyLe(key(rows[i]), key(rows[j]), collate) && KeyLe(key(rows[j]), key(rows[i]), collate))
  }

  /** With distinct keys, the descending view is the ascending view read
      back to front. */
  lemma DescendingIsReversedAscending<T(!new)>(rows: seq<T>, keep: T -> bool, key: T -> Key,
                                               collate: (string, string) -> bool)
    requires TotalPreorder(collate)
    requires DistinctKeys(rows, key, collate)
    ensures View(rows, keep, key, Desc, collate) == Reverse(View(rows, keep, key, Asc, collate))
  {
    var kept := Filter(rows, keep);
    var up, down := RowOrder(key, Asc, collate), RowOrder(key, Desc, collate);
    RowOrderTotalPreorder(key, Asc, collate);
    RowOrderTotalPreorder(key, Desc, collate);
    assert TieFree(kept, up) by {
      forall i, j | 0 <= i < |kept| && 0 <= j < |kept| && up(kept[i], kept[j]) && up(kept[j], kept[i])
        ensures kept[i] == kept[j]
      {
        var p :| 0 <= p < |rows| && rows[p] == kept[i];
        var q :| 0 <= q < |rows| && rows[q] == kept[j];
        assert p == q;
      }
    }
    ConverseSortIsReverse(kept, up, down);
  }
}
