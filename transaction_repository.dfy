/** The Transactions table and the repository over it: point lookups, the
    ordered and filtered queries, the aggregates, and the two writes. The
    table's contents are a sequence of rows; the database's own constraints
    (primary key, unique merchant reference, column lengths) are the store's
    invariant, enforced by making a violating write fail. */
module TransactionRepository {
  import opened Wrappers
  import opened Strings
  import opened TransactionEntity
  import opened Sequences

  /** The sort key of every ordered query. */
  function CreatedAt(t: TransactionRecord): int {
    t.createdAt
  }

  function Amount(t: TransactionRecord): real {
    t.amount
  }

  /** Rows newest first. The database orders rows with equal `CreatedAt` as
      it pleases; this model keeps their table order. */
  function NewestFirst(xs: seq<TransactionRecord>): (r: seq<TransactionRecord>)
    ensures SortedDesc(r, CreatedAt) && multiset(r) == multiset(xs)
    ensures |r| == |xs|
    ensures forall t :: t in r <==> t in xs
  {
    var r := SortDesc(xs, CreatedAt);
    SameElements(r, xs);
    r
  }

  // ---- Lookups (FirstOrDefaultAsync) ----

  /** `GetByIdAsync`: a row whose Id is `id`, or null when there is none. */
  function GetById(rows: seq<TransactionRecord>, id: Guid): (r: Option<TransactionRecord>)
    ensures r.Some? ==> r.value in rows && r.value.id == id
    ensures r.None? <==> forall t :: t in rows ==> t.id != id
  {
    FirstWhere(rows, (t: TransactionRecord) => t.id == id)
  }

  /** `GetByMerchantReferenceAsync`: exact (case-sensitive) match. */
  function GetByMerchantReference(rows: seq<TransactionRecord>, reference: string): (r: Option<TransactionRecord>)
    ensures r.Some? ==> r.value in rows && r.value.merchantReference == reference
    ensures r.None? <==> forall t :: t in rows ==> t.merchantReference != reference
  {
    FirstWhere(rows, (t: TransactionRecord) => t.merchantReference == reference)
  }

  /** `GetByGlobalPayReferenceAsync`: exact match; a row whose processor
      reference is null matches nothing, one stored as "" matches "". */
  function GetByGlobalPayReference(rows: seq<TransactionRecord>, reference: string): (r: Option<TransactionRecord>)
    ensures r.Some? ==> r.value in rows && r.value.globalPayReference == Some(reference)
    ensures r.None? <==> forall t :: t in rows ==> t.globalPayReference != Some(reference)
  {
    FirstWhere(rows, (t: TransactionRecord) => t.globalPayReference == Some(reference))
  }

  // ---- Queries ----

  /** `GetAllAsync`: one page of all rows, newest first. */
  function GetAll(rows: seq<TransactionRecord>, page: int, pageSize: int): (r: seq<TransactionRecord>)
    requires page >= 1 && pageSize >= 1
    ensures |r| <= pageSize && SortedDesc(r, CreatedAt)
    ensures |r| == if Skip(page, pageSize) >= |rows| then 0 else Min(pageSize, |rows| - Skip(page, pageSize))
    ensures forall i :: 0 <= i < |r| ==> r[i] == NewestFirst(rows)[Skip(page, pageSize) + i]
    ensures forall t :: t in r ==> t in rows
    ensures |rows| <= pageSize && page == 1 ==> multiset(r) == multiset(rows)
  {
    var sorted := NewestFirst(rows);
    PageOfSorted(sorted, page, pageSize, CreatedAt);
    if |rows| <= pageSize && page == 1 then FirstPageHoldsAll(sorted, pageSize); Page(sorted, page, pageSize)
    else Page(sorted, page, pageSize)
  }

  predicate InDateRange(t: TransactionRecord, startDate: DateTime, endDate: DateTime) {
    startDate <= t.createdAt <= endDate
  }

  function WithinDates(startDate: DateTime, endDate: DateTime): TransactionRecord -> bool {
    t => InDateRange(t, startDate, endDate)
  }

  /** `GetByDateRangeAsync`: exactly the rows created within the closed
      interval [startDate, endDate], newest first, each as often as stored. */
  function GetByDateRange(rows: seq<TransactionRecord>, startDate: DateTime, endDate: DateTime): (r: seq<TransactionRecord>)
    ensures SortedDesc(r, CreatedAt)
    ensures forall t :: t in r <==> t in rows && InDateRange(t, startDate, endDate)
    ensures multiset(r) == multiset(Filter(rows, WithinDates(startDate, endDate)))
  {
    NewestFirst(Filter(rows, WithinDates(startDate, endDate)))
  }

  function InCurrency(currency: string): TransactionRecord -> bool {
    (t: TransactionRecord) => t.currency == currency
  }

  /** `GetByCurrencyAsync`: exactly the rows in `currency`, newest first. */
  function GetByCurrency(rows: seq<TransactionRecord>, currency: string): (r: seq<TransactionRecord>)
    ensures SortedDesc(r, CreatedAt)
    ensures forall t :: t in r <==> t in rows && t.currency == currency
    ensures multiset(r) == multiset(Filter(rows, InCurrency(currency)))
  {
    NewestFirst(Filter(rows, InCurrency(currency)))
  }

  /** The name filter of `QueryAsync`, for an already trimmed, lower-cased needle. */
  predicate NameMatches(t: TransactionRecord, needle: string) {
    Contains(ToLower(t.firstName), needle) || Contains(ToLower(t.lastName), needle)
  }

  function NameContains(needle: string): TransactionRecord -> bool {
    t => NameMatches(t, needle)
  }

  /** Whether a row is selected by `QueryAsync`'s filters: the date filter
      applies only when both bounds are given, the name filter only when the
      name is not null or white space. */
  predicate QueryMatches(t: TransactionRecord, startDate: Option<DateTime>, endDate: Option<DateTime>, name: Option<string>) {
    && (startDate.Some? && endDate.Some? ==> InDateRange(t, startDate.value, endDate.value))
    && (!IsNullOrWhiteSpace(name) ==> NameMatches(t, ToLower(Trim(name.value))))
  }

  function MatchesQuery(startDate: Option<DateTime>, endDate: Option<DateTime>, name: Option<string>): TransactionRecord -> bool {
    t => QueryMatches(t, startDate, endDate, name)
  }

  /** `QueryAsync`: the query is narrowed by each filter that applies; the
      total is counted before paging, and the page is taken newest first. */
  method Query(rows: seq<TransactionRecord>, page: int, pageSize: int, startDate: Option<DateTime>,
               endDate: Option<DateTime>, name: Option<string>) returns (items: seq<TransactionRecord>, total: int)
    requires page >= 1 && pageSize >= 1
    ensures total == |Filter(rows, MatchesQuery(startDate, endDate, name))|
    ensures items == Page(NewestFirst(Filter(rows, MatchesQuery(startDate, endDate, name))), page, pageSize)
    ensures |items| <= pageSize && |items| <= total
    ensures forall t :: t in items ==> t in rows && QueryMatches(t, startDate, endDate, name)
  {
    var query := rows;
    if startDate.Some? && endDate.Some? {
      query := Filter(query, WithinDates(startDate.value, endDate.value));
    }
    if !IsNullOrWhiteSpace(name) {
      var needle := ToLower(Trim(name.value));
      query := Filter(query, NameContains(needle));
    }
    NarrowingIsOneFilter(rows, startDate, endDate, name);
    var matching := Filter(rows, MatchesQuery(startDate, endDate, name));
    assert query == matching;
    total := |query|;
    var sorted := NewestFirst(query);
    items := Page(sorted, page, pageSize);
    PageOfSorted(sorted, page, pageSize, CreatedAt);
    forall t | t in items ensures t in rows && QueryMatches(t, startDate, endDate, name) {
      assert t in matching;
    }
  }

  /** Narrowing the query filter by filter selects what the combined
      predicate selects. */
  lemma NarrowingIsOneFilter(rows: seq<TransactionRecord>, startDate: Option<DateTime>, endDate: Option<DateTime>, name: Option<string>)
    ensures var byDate := if startDate.Some? && endDate.Some? then Filter(rows, WithinDates(startDate.value, endDate.value)) else rows;
            var byName := if !IsNullOrWhiteSpace(name) then Filter(byDate, NameContains(ToLower(Trim(name.value)))) else byDate;
            byName == Filter(rows, MatchesQuery(startDate, endDate, name))
  {
    var all := MatchesQuery(startDate, endDate, name);
    var dates := startDate.Some? && endDate.Some?;
    var names := !IsNullOrWhiteSpace(name);
    if dates && names {
      FilterFilter(rows, WithinDates(startDate.value, endDate.value), NameContains(ToLower(Trim(name.value))), all);
    } else if dates {
      FilterExtensional(rows, WithinDates(startDate.value, endDate.value), all);
    } else if names {
      FilterExtensional(rows, NameContains(ToLower(Trim(name.value))), all);
    } else {
      FilterKeepsAll(rows, all);
    }
  }

  // ---- Aggregates ----

  /** `GetTotalCountAsync`. */
  function GetTotalCount(rows: seq<TransactionRecord>): (n: int)
    ensures n == |rows|
  {
    |rows|
  }

  predicate IsSuccessfulIn(t: TransactionRecord, currency: string) {
    t.currency == currency && t.status == Successful
  }

  function SuccessfulIn(currency: string): TransactionRecord -> bool {
    t => IsSuccessfulIn(t, currency)
  }

  /** `GetTotalAmountByCurrencyAsync`: the sum of the amounts of the
      Successful rows in `currency`. */
  function GetTotalAmountByCurrency(rows: seq<TransactionRecord>, currency: string): (total: real)
    ensures (forall t :: t in rows ==> ValidRecord(t)) ==> total >= 0.0
    ensures (forall t :: t in rows ==> !IsSuccessfulIn(t, currency)) ==> total == 0.0
  {
    var selected := Filter(rows, SuccessfulIn(currency));
    assert selected != [] ==> selected[0] in selected;
    if forall t :: t in rows ==> ValidRecord(t) then
      SumNonNegative(selected, Amount);
      Sum(selected, Amount)
    else
      Sum(selected, Amount)
  }

  function IsSuccessful(t: TransactionRecord): bool {
    t.status == Successful
  }

  /** `GetSuccessfulTransactionsCountAsync`. */
  function GetSuccessfulCount(rows: seq<TransactionRecord>): (n: int)
    ensures 0 <= n <= |rows|
    ensures n == 0 <==> forall t :: t in rows ==> t.status != Successful
    ensures n == |rows| <==> forall t :: t in rows ==> t.status == Successful
  {
    var selected := Filter(rows, IsSuccessful);
    assert selected != [] ==> selected[0] in selected;
    FilterFull(rows, IsSuccessful);
    |selected|
  }

  // ---- The table and its writes ----

  /** Assignment to a `character varying(n)` column: a longer text is
      accepted only when every character past the n-th is a space. */
  predicate FitsColumn(s: string, n: nat) {
    forall i :: n <= i < |s| ==> s[i] == ' '
  }

  predicate FitsOptionalColumn(s: Option<string>, n: nat) {
    s.Some? ==> FitsColumn(s.value, n)
  }

  /** The value such a column then holds: the text cut to n characters. */
  function Column(s: string, n: nat): (r: string)
    ensures |r| <= n && r <= s
    ensures |s| <= n ==> r == s
    ensures FitsColumn(s, n) ==> forall i :: |r| <= i < |s| ==> s[i] == ' '
  {
    if |s| <= n then s else s[..n]
  }

  /** A text fits its column exactly when PostgreSQL drops only spaces from
      it: the text is its stored value followed by spaces. */
  lemma FitsColumnDropsOnlySpaces(s: string, n: nat)
    ensures FitsColumn(s, n) <==> s == Column(s, n) + seq(|s| - |Column(s, n)|, _ => ' ')
  {
    var pad := seq(|s| - |Column(s, n)|, _ => ' ');
    if FitsColumn(s, n) {
      assert forall i :: 0 <= i < |s| ==> s[i] == (Column(s, n) + pad)[i];
    }
    if s == Column(s, n) + pad {
      forall i | n <= i < |s| ensures s[i] == ' ' {
        assert s[i] == pad[i - |Column(s, n)|];
      }
    }
  }

  function OptionalColumn(s: Option<string>, n: nat): (r: Option<string>)
    ensures r.None? <==> s.None?
    ensures r.Some? ==> |r.value| <= n
    ensures s.Some? && |s.value| <= n ==> r == s
  {
    if s.None? then None else Some(Column(s.value, n))
  }

  /** Every text fits its column as declared by the schema. */
  predicate FitsSchema(t: TransactionRecord) {
    && FitsColumn(t.merchantReference, 200) && FitsOptionalColumn(t.globalPayReference, 200)
    && FitsColumn(t.currency, 3)
    && FitsColumn(t.firstName, 100) && FitsColumn(t.lastName, 100)
    && FitsColumn(t.email, 200) && FitsColumn(t.phone, 20)
    && FitsOptionalColumn(t.address, 500)
    && FitsOptionalColumn(t.checkoutUrl, 1000) && FitsOptionalColumn(t.accessCode, 100)
    && FitsOptionalColumn(t.paymentChannel, 50) && FitsOptionalColumn(t.responseCode, 50)
    && FitsOptionalColumn(t.responseMessage, 500)
  }

  /** What a stored row satisfies: no text is longer than its column. */
  predicate WithinLengths(t: TransactionRecord) {
    && |t.merchantReference| <= 200
    && (t.globalPayReference.Some? ==> |t.globalPayReference.value| <= 200)
    && |t.currency| <= 3
    && |t.firstName| <= 100 && |t.lastName| <= 100
    && |t.email| <= 200 && |t.phone| <= 20
    && (t.address.Some? ==> |t.address.value| <= 500)
    && (t.checkoutUrl.Some? ==> |t.checkoutUrl.value| <= 1000)
    && (t.accessCode.Some? ==> |t.accessCode.value| <= 100)
    && (t.paymentChannel.Some? ==> |t.paymentChannel.value| <= 50)
    && (t.responseCode.Some? ==> |t.responseCode.value| <= 50)
    && (t.responseMessage.Some? ==> |t.responseMessage.value| <= 500)
  }

  /** The row the database holds for a record: every text cut to its column. */
  function AsStored(t: TransactionRecord): (r: TransactionRecord)
    ensures WithinLengths(r)
    ensures r.id == t.id && r.amount == t.amount && r.status == t.status && r.address.None? == t.address.None?
    ensures r.paymentDate == t.paymentDate && r.createdAt == t.createdAt && r.updatedAt == t.updatedAt
    ensures WithinLengths(t) ==> r == t
  {
    TransactionRecord(
      t.id, Column(t.merchantReference, 200), OptionalColumn(t.globalPayReference, 200), t.amount,
      Column(t.currency, 3), Column(t.firstName, 100), Column(t.lastName, 100),
      Column(t.email, 200), Column(t.phone, 20), OptionalColumn(t.address, 500), t.status,
      OptionalColumn(t.checkoutUrl, 1000), OptionalColumn(t.accessCode, 100), t.paymentDate,
      OptionalColumn(t.paymentChannel, 50), OptionalColumn(t.responseCode, 50),
      OptionalColumn(t.responseMessage, 500), t.createdAt, t.updatedAt)
  }

  predicate UniqueIds(rows: seq<TransactionRecord>) {
    forall i, j :: 0 <= i < j < |rows| ==> rows[i].id != rows[j].id
  }

  predicate UniqueMerchantReferences(rows: seq<TransactionRecord>) {
    forall i, j :: 0 <= i < j < |rows| ==> rows[i].merchantReference != rows[j].merchantReference
  }

  /** What the database guarantees of the table. */
  predicate TableInvariant(rows: seq<TransactionRecord>) {
    && UniqueIds(rows) && UniqueMerchantReferences(rows)
    && forall t :: t in rows ==> WithinLengths(t)
  }

  /** An INSERT succeeds when every text fits its column and the stored row
      breaks no key or unique index. */
  predicate CanInsert(rows: seq<TransactionRecord>, t: TransactionRecord) {
    && FitsSchema(t)
    && forall u :: u in rows ==> u.id != t.id && u.merchantReference != AsStored(t).merchantReference
  }

  /** An UPDATE by Id succeeds when the row exists, every text fits its
      column and the stored values break no unique index (no row updated
      ends in an exception). */
  predicate CanUpdate(rows: seq<TransactionRecord>, t: TransactionRecord) {
    && FitsSchema(t)
    && (exists u :: u in rows && u.id == t.id)
    && forall u :: u in rows && u.id != t.id ==> u.merchantReference != AsStored(t).merchantReference
  }

  function ReplaceById(rows: seq<TransactionRecord>, t: TransactionRecord): (r: seq<TransactionRecord>)
    ensures |r| == |rows|
    ensures forall i :: 0 <= i < |rows| ==> r[i] == if rows[i].id == t.id then t else rows[i]
  {
    seq(|rows|, i requires 0 <= i < |rows| => if rows[i].id == t.id then t else rows[i])
  }

  /** A write the service asked for, whether or not it was committed. */
  datatype StoreWrite = Added(record: TransactionRecord) | Updated(record: TransactionRecord)

  class TransactionStore {
    var rows: seq<TransactionRecord>
    /** Every `AddAsync`/`UpdateAsync` call made so far, in order. */
    ghost var writes: seq<StoreWrite>

    ghost predicate Valid()
      reads this
    {
      TableInvariant(rows)
    }

    constructor ()
      ensures Valid() && rows == [] && writes == []
    {
      rows, writes := [], [];
    }

    /** `AddAsync`: insert and save. `fault` stands for a failure of the
        database itself; constraint violations fail deterministically. */
    method Add(t: TransactionRecord, fault: bool) returns (ok: bool)
      requires Valid()
      modifies this
      ensures Valid()
      ensures ok == (!fault && CanInsert(old(rows), t))
      ensures rows == if ok then old(rows) + [AsStored(t)] else old(rows)
      ensures writes == old(writes) + [Added(t)]
    {
      writes := writes + [Added(t)];
      ok := !fault && CanInsert(rows, t);
      if ok {
        InsertKeepsOtherRows(rows, t);
        rows := rows + [AsStored(t)];
      }
    }

    /** `UpdateAsync`: overwrite the row with the same Id and save. */
    method Update(t: TransactionRecord, fault: bool) returns (ok: bool)
      requires Valid()
      modifies this
      ensures Valid()
      ensures ok == (!fault && CanUpdate(old(rows), t))
      ensures rows == if ok then ReplaceById(old(rows), AsStored(t)) else old(rows)
      ensures writes == old(writes) + [Updated(t)]
    {
      writes := writes + [Updated(t)];
      ok := !fault && CanUpdate(rows, t);
      if ok {
        ReplaceKeepsInvariant(rows, t);
        rows := ReplaceById(rows, AsStored(t));
      }
    }
  }

  /** An insert adds one row and leaves the others as they were. */
  lemma InsertKeepsOtherRows(rows: seq<TransactionRecord>, t: TransactionRecord)
    requires TableInvariant(rows) && CanInsert(rows, t)
    ensures TableInvariant(rows + [AsStored(t)])
    ensures GetByMerchantReference(rows + [AsStored(t)], AsStored(t).merchantReference) == Some(AsStored(t))
    ensures forall u :: u in rows ==> GetById(rows + [AsStored(t)], u.id) == Some(u)
  {
    var s := AsStored(t);
    var r := rows + [s];
    AppendKeepsInvariant(rows, s);
    forall u | u in rows ensures GetById(r, u.id) == Some(u) {
      UniqueIdLookup(r, u);
    }
    UniqueMerchantReferenceLookup(r, s);
  }

  /** Appending a row within its lengths whose Id and merchant reference are
      new keeps the invariant. */
  lemma AppendKeepsInvariant(rows: seq<TransactionRecord>, s: TransactionRecord)
    requires TableInvariant(rows) && WithinLengths(s)
    requires forall u :: u in rows ==> u.id != s.id && u.merchantReference != s.merchantReference
    ensures TableInvariant(rows + [s])
  {
    var r := rows + [s];
    forall i, j | 0 <= i < j < |r| ensures r[i].id != r[j].id && r[i].merchantReference != r[j].merchantReference {
      if j == |rows| {
        assert rows[i] in rows;
      }
    }
  }

  /** An update that may commit keeps every key, index and length constraint. */
  lemma ReplaceKeepsInvariant(rows: seq<TransactionRecord>, t: TransactionRecord)
    requires TableInvariant(rows) && CanUpdate(rows, t)
    ensures TableInvariant(ReplaceById(rows, AsStored(t)))
  {
    var s := AsStored(t);
    var r := ReplaceById(rows, s);
    assert forall i :: 0 <= i < |r| ==> r[i].id == rows[i].id;
    forall i, j | 0 <= i < j < |r| ensures r[i].merchantReference != r[j].merchantReference {
      if rows[i].id == t.id {
        assert rows[j] in rows;
      } else if rows[j].id == t.id {
        assert rows[i] in rows;
      }
    }
    forall v | v in r ensures WithinLengths(v) {
      var i :| 0 <= i < |r| && r[i] == v;
      assert rows[i] in rows;
    }
  }

  /** An update replaces the row with the same Id and touches no other. */
  lemma UpdateReplacesOnlyItsRow(rows: seq<TransactionRecord>, t: TransactionRecord)
    requires TableInvariant(rows) && CanUpdate(rows, t)
    ensures TableInvariant(ReplaceById(rows, AsStored(t)))
    ensures GetById(ReplaceById(rows, AsStored(t)), t.id) == Some(AsStored(t))
    ensures forall u :: u in rows && u.id != t.id ==> u in ReplaceById(rows, AsStored(t))
  {
    var r := ReplaceById(rows, AsStored(t));
    ReplaceKeepsInvariant(rows, t);
    var u :| u in rows && u.id == t.id;
    var k :| 0 <= k < |rows| && rows[k] == u;
    assert r[k] == AsStored(t);
    UniqueIdLookup(r, AsStored(t));
    forall v | v in rows && v.id != t.id ensures v in r {
      var i :| 0 <= i < |rows| && rows[i] == v;
      assert r[i] == v;
    }
  }

  /** With unique Ids, the lookup by Id finds the one row that has it. */
  lemma UniqueIdLookup(rows: seq<TransactionRecord>, t: TransactionRecord)
    requires UniqueIds(rows) && t in rows
    ensures GetById(rows, t.id) == Some(t)
  {
    var r := GetById(rows, t.id);
    var i :| 0 <= i < |rows| && rows[i] == r.value;
    var j :| 0 <= j < |rows| && rows[j] == t;
    assert i == j;
  }

  /** With unique merchant references, the lookup finds the one row that has it. */
  lemma UniqueMerchantReferenceLookup(rows: seq<TransactionRecord>, t: TransactionRecord)
    requires UniqueMerchantReferences(rows) && t in rows
    ensures GetByMerchantReference(rows, t.merchantReference) == Some(t)
  {
    var r := GetByMerchantReference(rows, t.merchantReference);
    var i :| 0 <= i < |rows| && rows[i] == r.value;
    var j :| 0 <= j < |rows| && rows[j] == t;
    assert i == j;
  }
}
