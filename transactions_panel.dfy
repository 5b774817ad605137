/** The transactions panel: a ticker search and a buy/sell type filter
    over the recorded trades, with no sorting. */
module TransactionsPanel {
  import opened Text
  import opened Seqs

  /** One trade; the source's `type` field is called `kind` here. */
  datatype Transaction = Transaction(id: nat, date: string, ticker: string, kind: string,
                                     shares: nat, price: real, total: real)

  /** The type filter's "no filter" value. */
  const AllTypes := "all"

  const TransactionData: seq<Transaction> := [
    Transaction(1, "2023-04-15", "AAPL", "buy", 10, 165.23, 1652.3),
    Transaction(2, "2023-04-10", "MSFT", "buy", 5, 287.18, 1435.9),
    Transaction(3, "2023-04-05", "NVDA", "sell", 3, 267.4, 802.2),
    Transaction(4, "2023-03-28", "GOOGL", "buy", 8, 123.48, 987.84),
    Transaction(5, "2023-03-20", "AMZN", "buy", 12, 102.3, 1227.6),
    Transaction(6, "2023-03-15", "TSLA", "sell", 4, 180.13, 720.52),
    Transaction(7, "2023-03-10", "META", "buy", 6, 185.25, 1111.5)
  ]

  /** The search looks at the ticker only, ignoring case. */
  predicate MatchesTicker(searchQuery: string, ticker: string)
  {
    Contains(Lower(ticker), Lower(searchQuery))
  }

  /** The ticker test is a case-insensitive substring test. */
  lemma MatchesTickerMeaning(searchQuery: string, ticker: string)
    ensures MatchesTicker(searchQuery, ticker) <==> IsSubstring(Lower(searchQuery), Lower(ticker))
  {
    ContainsIsSubstring(Lower(ticker), Lower(searchQuery));
  }

  /** `transactionType === "all" || transaction.type === transactionType`. */
  predicate MatchesType(transactionType: string, kind: string)
  {
    transactionType == AllTypes || kind == transactionType
  }

  function KeepFn(searchQuery: string, transactionType: string): Transaction -> bool
  {
    (t: Transaction) => MatchesTicker(searchQuery, t.ticker) && MatchesType(transactionType, t.kind)
  }

  /** `filteredTransactions`: the trades that pass both tests, in their
      recorded order. */
  function FilteredTransactions(txs: seq<Transaction>, searchQuery: string, transactionType: string): (r: seq<Transaction>)
    ensures IsSubsequence(r, txs)
    ensures forall i :: 0 <= i < |r| ==>
      MatchesTicker(searchQuery, r[i].ticker) && (transactionType == AllTypes || r[i].kind == transactionType)
    ensures forall i :: 0 <= i < |txs| ==>
      (txs[i] in r <==> MatchesTicker(searchQuery, txs[i].ticker) && (transactionType == AllTypes || txs[i].kind == transactionType))
    ensures forall t | t in txs ::
      multiset(r)[t] == if MatchesTicker(searchQuery, t.ticker) && MatchesType(transactionType, t.kind) then multiset(txs)[t] else 0
  {
    FilterIsSubsequence(txs, KeepFn(searchQuery, transactionType));
    Filter(txs, KeepFn(searchQuery, transactionType))
  }

  /** For a fixed search, the "buy" and the "sell" lists are each an
      order-preserving part of the "all" list, and share no trade. */
  lemma BuyAndSellWithinAll(txs: seq<Transaction>, searchQuery: string)
    ensures IsSubsequence(FilteredTransactions(txs, searchQuery, "buy"), FilteredTransactions(txs, searchQuery, AllTypes))
    ensures IsSubsequence(FilteredTransactions(txs, searchQuery, "sell"), FilteredTransactions(txs, searchQuery, AllTypes))
    ensures forall i, j ::
      0 <= i < |FilteredTransactions(txs, searchQuery, "buy")| && 0 <= j < |FilteredTransactions(txs, searchQuery, "sell")| ==>
      FilteredTransactions(txs, searchQuery, "buy")[i] != FilteredTransactions(txs, searchQuery, "sell")[j]
  {
    FilterNarrower(txs, KeepFn(searchQuery, AllTypes), KeepFn(searchQuery, "buy"));
    FilterNarrower(txs, KeepFn(searchQuery, AllTypes), KeepFn(searchQuery, "sell"));
  }

  /** When every trade is a buy or a sell, the two lists together hold
      exactly the trades of the "all" list. */
  lemma BuyAndSellMakeAll(txs: seq<Transaction>, searchQuery: string)
    requires forall i :: 0 <= i < |txs| ==> txs[i].kind == "buy" || txs[i].kind == "sell"
    ensures multiset(FilteredTransactions(txs, searchQuery, "buy")) + multiset(FilteredTransactions(txs, searchQuery, "sell"))
         == multiset(FilteredTransactions(txs, searchQuery, AllTypes))
  {
    FilterPartition(txs, KeepFn(searchQuery, AllTypes), KeepFn(searchQuery, "buy"), KeepFn(searchQuery, "sell"));
  }

  /** Every sample trade is a buy or a sell. */
  lemma SampleKinds()
    ensures forall i :: 0 <= i < |TransactionData| ==> TransactionData[i].kind == "buy" || TransactionData[i].kind == "sell"
  {
  }

  /** A query that no ticker contains finds nothing, whatever the type. */
  lemma NoTickerMatchFindsNothing(txs: seq<Transaction>, searchQuery: string, transactionType: string)
    requires forall i :: 0 <= i < |txs| ==> !MatchesTicker(searchQuery, txs[i].ticker)
    ensures FilteredTransactions(txs, searchQuery, transactionType) == []
  {
  }

  /** A query that is part of a company name but of no ticker finds nothing:
      "apple" is longer than "AAPL", and no other sample ticker has a 'p'. */
  lemma CompanyNameFindsNothing(transactionType: string)
    ensures FilteredTransactions(TransactionData, "apple", transactionType) == []
  {
    forall i | 0 <= i < |TransactionData|
      ensures !MatchesTicker("apple", TransactionData[i].ticker)
    {
      TickerMissesApple(i);
    }
    NoTickerMatchFindsNothing(TransactionData, "apple", transactionType);
  }

  lemma TickerMissesApple(i: nat)
    requires i < |TransactionData|
    ensures !MatchesTicker("apple", TransactionData[i].ticker)
  {
    var ticker := TransactionData[i].ticker;
    assert Lower("apple") == "apple";
    if Contains(Lower(ticker), "apple") {
      ContainedCharsOccur(Lower(ticker), "apple");
      assert "apple"[1] in Lower(ticker);
      LowerOccurrence(ticker, 'p');
      NoPInTicker(i);
    }
  }

  /** Only "AAPL" has a 'p', and it has four letters. */
  lemma NoPInTicker(i: nat)
    requires i < |TransactionData|
    ensures |TransactionData[i].ticker| < 5 || ('p' !in TransactionData[i].ticker && 'P' !in TransactionData[i].ticker)
    ensures i == 0 || ('p' !in TransactionData[i].ticker && 'P' !in TransactionData[i].ticker)
    ensures i == 0 ==> |TransactionData[i].ticker| == 4
  {
  }

  /** What the table body shows: the "No transactions found" row, or the
      rows with a "Showing N of M" footer. */
  datatype PanelBody = NoTransactions | Listing(rows: seq<Transaction>, shown: nat, total: nat)

  function Panel(txs: seq<Transaction>, searchQuery: string, transactionType: string): (b: PanelBody)
    ensures b.NoTransactions? <==> FilteredTransactions(txs, searchQuery, transactionType) == []
    ensures b.Listing? ==>
      b.rows == FilteredTransactions(txs, searchQuery, transactionType) && 0 < b.shown == |b.rows| <= b.total == |txs|
  {
    var r := FilteredTransactions(txs, searchQuery, transactionType);
    if |r| > 0 then Listing(r, |r|, |txs|) else NoTransactions
  }

  /** `type.charAt(0).toUpperCase() + type.slice(1)`. */
  function TypeLabel(kind: string): (caption: string)
    ensures |caption| == |kind|
    ensures kind != [] ==> caption[0] == UpperChar(kind[0]) && caption[1..] == kind[1..]
  {
    if kind == [] then [] else [UpperChar(kind[0])] + kind[1..]
  }

  /** Lower-casing a label gives back a lower-case type. */
  lemma TypeLabelLowersBack(kind: string)
    requires forall i :: 0 <= i < |kind| ==> !('A' <= kind[i] <= 'Z')
    ensures Lower(TypeLabel(kind)) == kind
  {
    var caption := TypeLabel(kind);
    forall i | 0 <= i < |kind|
      ensures Lower(caption)[i] == kind[i]
    {
      if i == 0 {
        assert LowerChar(UpperChar(kind[0])) == kind[0];
      } else {
        assert caption[i] == kind[i];
      }
    }
  }

  lemma SampleLabels()
    ensures TypeLabel("buy") == "Buy" && TypeLabel("sell") == "Sell"
  {
  }
}
