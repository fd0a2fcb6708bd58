/** The read side of the application layer: single lookups, pages of
    transactions, the paged query, and the summary report. */
module TransactionService {
  import opened Wrappers
  import opened TransactionEntity
  import opened Sequences
  import opened TransactionRepository
  import opened Dtos

  /** `int.MaxValue`, the page size the summary asks for when it wants every row. */
  const IntMax := 2147483647

  /** The currencies the summary reports on, in the order it visits them. */
  const SummaryCurrencies: seq<string> := ["NGN", "USD", "EUR", "GBP"]

  /** `TransactionSummaryDto`. */
  datatype TransactionSummary = TransactionSummary(
    totalTransactions: int,
    successfulTransactions: int,
    failedTransactions: int,
    pendingTransactions: int,
    successRate: real,
    totalAmountByCurrency: map<string, real>,
    transactionCountByCurrency: map<string, int>)

  /** `TransactionQueryResultDto`. */
  datatype TransactionQueryResult = TransactionQueryResult(
    items: seq<TransactionDto>,
    totalCount: int,
    page: int,
    pageSize: int,
    summary: Option<TransactionSummary>)

  /** `Select(MapToDto)`. */
  function ToDtos(ts: seq<TransactionRecord>): (r: seq<TransactionDto>)
    ensures |r| == |ts|
    ensures forall i :: 0 <= i < |ts| ==> r[i] == MapToDto(ts[i])
  {
    if ts == [] then [] else [MapToDto(ts[0])] + ToDtos(ts[1..])
  }

  /** `GetTransactionByIdAsync`. */
  function GetTransactionById(rows: seq<TransactionRecord>, id: Guid): (r: Option<TransactionDto>)
    ensures r.None? <==> forall t :: t in rows ==> t.id != id
    ensures r.Some? ==> r.value.id == id && exists t :: t in rows && r.value == MapToDto(t)
  {
    match GetById(rows, id)
    case None => None
    case Some(t) => Some(MapToDto(t))
  }

  /** `GetAllTransactionsAsync`: one page, newest first, as DTOs. */
  function GetAllTransactions(rows: seq<TransactionRecord>, page: int, pageSize: int): (r: seq<TransactionDto>)
    requires page >= 1 && pageSize >= 1
    ensures |r| <= pageSize && |r| == |GetAll(rows, page, pageSize)|
    ensures forall i :: 0 <= i < |r| ==> r[i] == MapToDto(NewestFirst(rows)[Skip(page, pageSize) + i])
    ensures forall i :: 0 <= i < |r| ==> exists t :: t in rows && r[i] == MapToDto(t)
  {
    var ts := GetAll(rows, page, pageSize);
    assert forall i :: 0 <= i < |ts| ==> ts[i] in rows;
    ToDtos(ts)
  }

  // ---- GetTransactionSummaryAsync ----

  function HasStatus(s: PaymentStatus): TransactionRecord -> bool {
    (t: TransactionRecord) => t.status == s
  }

  /** How many of `list` have status `s`. */
  function CountWithStatus(list: seq<TransactionRecord>, s: PaymentStatus): nat {
    |Filter(list, HasStatus(s))|
  }

  /** The rows in `currency`, whatever their status. */
  function CountIn(list: seq<TransactionRecord>, currency: string): nat {
    |Filter(list, InCurrency(currency))|
  }

  /** The summed amount of the Successful rows in `currency`. */
  function AmountIn(list: seq<TransactionRecord>, currency: string): real {
    Sum(Filter(Filter(list, InCurrency(currency)), HasStatus(Successful)), Amount)
  }

  /** The rows a summary covers: those created in the range when both bounds
      are given, otherwise the first `int.MaxValue` rows of the table. */
  function SummarySource(rows: seq<TransactionRecord>, startDate: Option<DateTime>, endDate: Option<DateTime>): seq<TransactionRecord> {
    if startDate.Some? && endDate.Some? then GetByDateRange(rows, startDate.value, endDate.value)
    else GetAll(rows, 1, IntMax)
  }

  /** The per-currency amounts, for each of `currencies`. */
  function AmountsFor(list: seq<TransactionRecord>, currencies: seq<string>): map<string, real> {
    map c | c in currencies :: AmountIn(list, c)
  }

  /** The per-currency counts, for each of `currencies`. */
  function CountsFor(list: seq<TransactionRecord>, currencies: seq<string>): map<string, int> {
    map c | c in currencies :: CountIn(list, c)
  }

  /** Visiting one more currency adds its entry to each dictionary. */
  lemma TallyOneMore(list: seq<TransactionRecord>, currencies: seq<string>, c: string)
    ensures AmountsFor(list, currencies + [c]) == AmountsFor(list, currencies)[c := AmountIn(list, c)]
    ensures CountsFor(list, currencies + [c]) == CountsFor(list, currencies)[c := CountIn(list, c)]
  {
    assert forall d :: d in currencies + [c] <==> d in currencies || d == c;
  }

  /** `(decimal)successful / total * 100`, or 0 for an empty list. */
  function SuccessRate(successful: nat, total: nat): (rate: real)
    requires successful <= total
    ensures 0.0 <= rate <= 100.0
    ensures rate == 0.0 <==> successful == 0
    ensures rate == 100.0 <==> total > 0 && successful == total
  {
    if total > 0 then
      QuotientBounds(successful as real, total as real);
      successful as real / total as real * 100.0
    else 0.0
  }

  lemma QuotientBounds(s: real, t: real)
    requires 0.0 <= s <= t && t > 0.0
    ensures 0.0 <= s / t <= 1.0
    ensures s / t == 0.0 <==> s == 0.0
    ensures s / t == 1.0 <==> s == t
  {
    assert s / t * t == s;
  }

  /** The summary of a list of transactions. */
  function SummaryOf(list: seq<TransactionRecord>): TransactionSummary {
    TransactionSummary(
      |list|, CountWithStatus(list, Successful), CountWithStatus(list, Failed), CountWithStatus(list, Pending),
      SuccessRate(CountWithStatus(list, Successful), |list|),
      AmountsFor(list, SummaryCurrencies), CountsFor(list, SummaryCurrencies))
  }

  /** `GetTransactionSummaryAsync`: the counts, then one pass over the four
      currencies filling the two dictionaries. */
  method GetTransactionSummary(rows: seq<TransactionRecord>, startDate: Option<DateTime>, endDate: Option<DateTime>)
    returns (summary: TransactionSummary)
    ensures summary == SummaryOf(SummarySource(rows, startDate, endDate))
  {
    var transactions: seq<TransactionRecord>;
    if startDate.Some? && endDate.Some? {
      transactions := GetByDateRange(rows, startDate.value, endDate.value);
    } else {
      transactions := GetAll(rows, 1, IntMax);
    }
    assert transactions == SummarySource(rows, startDate, endDate);
    var totalCount := |transactions|;
    var successfulCount := |Filter(transactions, HasStatus(Successful))|;
    var failedCount := |Filter(transactions, HasStatus(Failed))|;
    var pendingCount := |Filter(transactions, HasStatus(Pending))|;
    var amountByCurrency, countByCurrency := TallyByCurrency(transactions, SummaryCurrencies);
    summary := TransactionSummary(totalCount, successfulCount, failedCount, pendingCount,
                                  SuccessRate(successfulCount, totalCount), amountByCurrency, countByCurrency);
  }

  /** The loop over the currencies: for each, its transactions, their count
      and the amount of the Successful ones. */
  method TallyByCurrency(transactions: seq<TransactionRecord>, currencies: seq<string>)
    returns (amountByCurrency: map<string, real>, countByCurrency: map<string, int>)
    ensures amountByCurrency == AmountsFor(transactions, currencies)
    ensures countByCurrency == CountsFor(transactions, currencies)
  {
    amountByCurrency, countByCurrency := map[], map[];
    for i := 0 to |currencies|
      invariant amountByCurrency == AmountsFor(transactions, currencies[..i])
      invariant countByCurrency == CountsFor(transactions, currencies[..i])
    {
      var currency := currencies[i];
      var currencyTransactions := Filter(transactions, InCurrency(currency));
      amountByCurrency := amountByCurrency[currency := Sum(Filter(currencyTransactions, HasStatus(Successful)), Amount)];
      countByCurrency := countByCurrency[currency := |currencyTransactions|];
      assert currencies[..i + 1] == currencies[..i] + [currency];
      TallyOneMore(transactions, currencies[..i], currency);
    }
    assert currencies[..|currencies|] == currencies;
  }

  /** Every transaction has exactly one of the four statuses. */
  lemma {:induction false} StatusesPartition(list: seq<TransactionRecord>)
    ensures CountWithStatus(list, Pending) + CountWithStatus(list, Successful) + CountWithStatus(list, Failed)
            + CountWithStatus(list, Cancelled) == |list|
  {
    if list != [] {
      StatusesPartition(list[1..]);
    }
  }

  /** The three reported counts leave out exactly the Cancelled transactions. */
  lemma SummaryCounts(list: seq<TransactionRecord>)
    ensures var s := SummaryOf(list);
            && s.successfulTransactions + s.failedTransactions + s.pendingTransactions
               == s.totalTransactions - CountWithStatus(list, Cancelled)
            && s.successfulTransactions + s.failedTransactions + s.pendingTransactions <= s.totalTransactions
  {
    StatusesPartition(list);
  }

  /** The success rate is a percentage, zero exactly when nothing succeeded
      and a hundred exactly when everything did. */
  lemma SuccessRateIsPercentage(list: seq<TransactionRecord>)
    ensures var s := SummaryOf(list);
            && 0.0 <= s.successRate <= 100.0
            && (s.successRate == 0.0 <==> s.successfulTransactions == 0)
            && (s.successRate == 100.0 <==> s.totalTransactions > 0 && s.successfulTransactions == s.totalTransactions)
  {
  }

  /** Both dictionaries have exactly the four currencies as keys. */
  lemma SummaryKeys(list: seq<TransactionRecord>)
    ensures SummaryOf(list).totalAmountByCurrency.Keys == {"NGN", "USD", "EUR", "GBP"}
    ensures SummaryOf(list).transactionCountByCurrency.Keys == {"NGN", "USD", "EUR", "GBP"}
  {
    assert forall c :: c in SummaryCurrencies <==> c in {"NGN", "USD", "EUR", "GBP"};
  }

  /** Each reported amount is what the repository's own per-currency total computes. */
  lemma AmountAgreesWithRepository(list: seq<TransactionRecord>, currency: string)
    requires currency in SummaryCurrencies
    ensures SummaryOf(list).totalAmountByCurrency[currency] == GetTotalAmountByCurrency(list, currency)
  {
    FilterFilter(list, InCurrency(currency), HasStatus(Successful), SuccessfulIn(currency));
  }

  /** The summary's successful count is the repository's. */
  lemma SuccessfulCountAgreesWithRepository(list: seq<TransactionRecord>)
    ensures SummaryOf(list).successfulTransactions == GetSuccessfulCount(list)
  {
    FilterExtensional(list, IsSuccessful, HasStatus(Successful));
  }

  /** Without a date range the summary's total is the repository's row count,
      for every table `Take(int.MaxValue)` reads whole. */
  lemma TotalCountAgreesWithRepository(rows: seq<TransactionRecord>)
    requires |rows| <= IntMax
    ensures SummaryOf(SummarySource(rows, None, None)).totalTransactions == GetTotalCount(rows)
  {
    var page := GetAll(rows, 1, IntMax);
    assert |page| == |multiset(page)| == |multiset(rows)|;
  }

  /** For rows the constructor let through, the per-currency counts add up to the total. */
  lemma {:induction false} CurrenciesPartition(list: seq<TransactionRecord>)
    requires forall t :: t in list ==> ValidRecord(t)
    ensures CountIn(list, "NGN") + CountIn(list, "USD") + CountIn(list, "EUR") + CountIn(list, "GBP") == |list|
  {
    if list != [] {
      assert list[0] in list;
      assert forall t :: t in list[1..] ==> t in list;
      CurrenciesPartition(list[1..]);
      CountInCons(list, "NGN");
      CountInCons(list, "USD");
      CountInCons(list, "EUR");
      CountInCons(list, "GBP");
      OneCurrencyMatches(list[0].currency);
    }
  }

  /** A valid currency is exactly one of the four. */
  lemma OneCurrencyMatches(c: string)
    requires c in ValidCurrencies
    ensures (if c == "NGN" then 1 else 0) + (if c == "USD" then 1 else 0)
            + (if c == "EUR" then 1 else 0) + (if c == "GBP" then 1 else 0) == 1
  {
    assert c == ValidCurrencies[0] || c == ValidCurrencies[1] || c == ValidCurrencies[2] || c == ValidCurrencies[3];
  }

  lemma CountInCons(list: seq<TransactionRecord>, c: string)
    requires list != []
    ensures CountIn(list, c) == (if list[0].currency == c then 1 else 0) + CountIn(list[1..], c)
  {
  }

  lemma CurrencyCountsAddUp(list: seq<TransactionRecord>)
    requires forall t :: t in list ==> ValidRecord(t)
    ensures var m := SummaryOf(list).transactionCountByCurrency;
            && "NGN" in m && "USD" in m && "EUR" in m && "GBP" in m
            && m["NGN"] + m["USD"] + m["EUR"] + m["GBP"] == SummaryOf(list).totalTransactions
  {
    CurrenciesPartition(list);
    assert "NGN" == SummaryCurrencies[0] && "USD" == SummaryCurrencies[1];
    assert "EUR" == SummaryCurrencies[2] && "GBP" == SummaryCurrencies[3];
  }

  lemma CountsIgnoreOrder(xs: seq<TransactionRecord>, ys: seq<TransactionRecord>, p: TransactionRecord -> bool)
    requires multiset(xs) == multiset(ys)
    ensures |Filter(xs, p)| == |Filter(ys, p)|
  {
    FilterPermutation(xs, ys, p);
    assert |Filter(xs, p)| == |multiset(Filter(xs, p))|;
    assert |Filter(ys, p)| == |multiset(Filter(ys, p))|;
  }

  lemma AmountIgnoresOrder(xs: seq<TransactionRecord>, ys: seq<TransactionRecord>, c: string)
    requires multiset(xs) == multiset(ys)
    ensures AmountIn(xs, c) == AmountIn(ys, c)
  {
    FilterPermutation(xs, ys, InCurrency(c));
    FilterPermutation(Filter(xs, InCurrency(c)), Filter(ys, InCurrency(c)), HasStatus(Successful));
    SumPermutation(Filter(Filter(xs, InCurrency(c)), HasStatus(Successful)),
                   Filter(Filter(ys, InCurrency(c)), HasStatus(Successful)), Amount);
  }

  lemma TalliesIgnoreOrder(xs: seq<TransactionRecord>, ys: seq<TransactionRecord>, currencies: seq<string>)
    requires multiset(xs) == multiset(ys)
    ensures AmountsFor(xs, currencies) == AmountsFor(ys, currencies)
    ensures CountsFor(xs, currencies) == CountsFor(ys, currencies)
  {
    forall c | c in currencies ensures CountIn(xs, c) == CountIn(ys, c) && AmountIn(xs, c) == AmountIn(ys, c) {
      CountsIgnoreOrder(xs, ys, InCurrency(c));
      AmountIgnoresOrder(xs, ys, c);
    }
  }

  /** The summary does not depend on the order of the rows. */
  lemma SummaryIgnoresOrder(xs: seq<TransactionRecord>, ys: seq<TransactionRecord>)
    requires multiset(xs) == multiset(ys)
    ensures SummaryOf(xs) == SummaryOf(ys)
  {
    assert |xs| == |multiset(xs)| == |ys|;
    CountsIgnoreOrder(xs, ys, HasStatus(Successful));
    CountsIgnoreOrder(xs, ys, HasStatus(Failed));
    CountsIgnoreOrder(xs, ys, HasStatus(Pending));
    TalliesIgnoreOrder(xs, ys, SummaryCurrencies);
  }

  /** Without both bounds the summary covers the whole table (as long as it
      has at most `int.MaxValue` rows); with both, exactly the rows created
      in the range. */
  lemma SummaryCoverage(rows: seq<TransactionRecord>, startDate: Option<DateTime>, endDate: Option<DateTime>)
    ensures startDate.Some? && endDate.Some? ==>
      SummaryOf(SummarySource(rows, startDate, endDate)) == SummaryOf(Filter(rows, WithinDates(startDate.value, endDate.value)))
    ensures !(startDate.Some? && endDate.Some?) && |rows| <= IntMax ==>
      SummaryOf(SummarySource(rows, startDate, endDate)) == SummaryOf(rows)
  {
    if startDate.Some? && endDate.Some? {
      SummaryIgnoresOrder(SummarySource(rows, startDate, endDate), Filter(rows, WithinDates(startDate.value, endDate.value)));
    } else if |rows| <= IntMax {
      SummaryIgnoresOrder(SummarySource(rows, startDate, endDate), rows);
    }
  }

  // ---- QueryTransactionsAsync ----

  /** `QueryTransactionsAsync`: one page of the query as DTOs, the query's
      total, the paging arguments echoed, and the summary only on request.
      The summary is taken over the date range alone: the name filter does
      not narrow it. */
  method QueryTransactions(rows: seq<TransactionRecord>, page: int, pageSize: int, startDate: Option<DateTime>,
                           endDate: Option<DateTime>, name: Option<string>, includeSummary: bool)
    returns (result: TransactionQueryResult)
    requires page >= 1 && pageSize >= 1
    ensures result.items == ToDtos(Page(NewestFirst(Filter(rows, MatchesQuery(startDate, endDate, name))), page, pageSize))
    ensures result.totalCount == |Filter(rows, MatchesQuery(startDate, endDate, name))|
    ensures result.page == page && result.pageSize == pageSize && |result.items| <= pageSize
    ensures result.summary == if includeSummary then Some(SummaryOf(SummarySource(rows, startDate, endDate))) else None
  {
    var items, total := Query(rows, page, pageSize, startDate, endDate, name);
    var dtoItems := ToDtos(items);
    var summary: Option<TransactionSummary> := None;
    if includeSummary {
      var s := GetTransactionSummary(rows, startDate, endDate);
      summary := Some(s);
    }
    result := TransactionQueryResult(dtoItems, total, page, pageSize, summary);
  }

  /** A requested summary counts at least as many transactions as the query matched. */
  lemma SummaryCoversQuery(rows: seq<TransactionRecord>, startDate: Option<DateTime>, endDate: Option<DateTime>, name: Option<string>)
    requires |rows| <= IntMax
    ensures |Filter(rows, MatchesQuery(startDate, endDate, name))| <= SummaryOf(SummarySource(rows, startDate, endDate)).totalTransactions
  {
    SummaryCoverage(rows, startDate, endDate);
    if startDate.Some? && endDate.Some? {
      FilterCountMonotone(rows, MatchesQuery(startDate, endDate, name), WithinDates(startDate.value, endDate.value));
    }
  }
}
