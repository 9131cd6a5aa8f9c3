/**
 * The dashboard's data layer: the arithmetic and ordering it applies to what
 * the store returns. Each store query is a parameter (its error, or its data);
 * a query that reports an error makes the fetch throw a generic database error.
 */
module Dashboard {
  import opened Definitions

  const ITEMS_PER_PAGE := 6
  const MONTH_ORDER := ["Jan", "Feb", "Mar", "Apr", "May", "Jun", "Jul", "Aug", "Sep", "Oct", "Nov", "Dec"]

  const REVENUE_FAILED := "Failed to fetch revenue data."
  const CARD_DATA_FAILED := "Failed to fetch card data."
  const INVOICES_FAILED := "Failed to fetch invoices."
  const PAGES_FAILED := "Failed to fetch invoices pages."

  /** What a store query answers: its error, if any, and its rows or, for a count query, its count. */
  datatype Response<T> = Response(error: Option<string>, data: T)

  /** The fetch's value, or the generic `Error` it throws. */
  datatype Fetched<T> = Fetched(value: T) | DatabaseError(message: string)

  // ---------------------------------------------------------------------------
  // Revenue, ordered by calendar month

  datatype Revenue = Revenue(month: string, revenue: int)

  /** `Array.prototype.indexOf`: the first position of `x`, or -1. */
  function IndexOf(s: seq<string>, x: string): (r: int)
    ensures -1 <= r < |s|
    ensures r == -1 <==> x !in s
    ensures r >= 0 ==> s[r] == x && x !in s[..r]
  {
    if s == [] then -1
    else if s[0] == x then 0
    else
      var k := IndexOf(s[1..], x);
      if k == -1 then -1 else k + 1
  }

  /** The sort key of a row: the position of its month in the calendar list, -1 for an unknown month. */
  function MonthKey(row: Revenue): int {
    IndexOf(MONTH_ORDER, row.month)
  }

  /** Rows in non-decreasing order of `key`. */
  predicate SortedBy(key: Revenue -> int, s: seq<Revenue>) {
    forall i, j | 0 <= i < j < |s| :: key(s[i]) <= key(s[j])
  }

  /** Rows in calendar order, unknown months first. */
  predicate SortedByMonth(s: seq<Revenue>) {
    SortedBy(MonthKey, s)
  }

  /**
   * Sorts the rows in place by ascending key, as the revenue fetch's comparator
   * (the difference of the two keys) orders them: a stable insertion sort.
   * The revenue fetch calls it with `MonthKey`.
   */
  method SortBy(a: array<Revenue>, key: Revenue -> int)
    modifies a
    ensures SortedBy(key, a[..])
    ensures multiset(a[..]) == multiset(old(a[..]))
  {
    var i := 0;
    while i < a.Length
      invariant 0 <= i <= a.Length
      invariant SortedBy(key, a[..i])
      invariant multiset(a[..]) == multiset(old(a[..]))
    {
      InsertLast(a, key, i);
      i := i + 1;
    }
    assert a[..a.Length] == a[..];
  }

  /** Moves `a[i]` left past every larger key, so that `a[..i + 1]` is sorted. */
  method InsertLast(a: array<Revenue>, key: Revenue -> int, i: nat)
    requires i < a.Length
    requires SortedBy(key, a[..i])
    modifies a
    ensures SortedBy(key, a[..i + 1])
    ensures multiset(a[..]) == multiset(old(a[..]))
    ensures a[i + 1..] == old(a[i + 1..])
  {
    var j := i;
    while j > 0 && key(a[j - 1]) > key(a[j])
      invariant 0 <= j <= i
      invariant forall k, l | 0 <= k < l <= i && k != j && l != j :: key(a[k]) <= key(a[l])
      invariant forall l | j < l <= i :: key(a[j]) < key(a[l])
      invariant multiset(a[..]) == multiset(old(a[..]))
      invariant a[i + 1..] == old(a[i + 1..])
    {
      Swap(a, j - 1);
      j := j - 1;
    }
  }

  /** Exchanges `a[j]` and `a[j + 1]`. */
  method Swap(a: array<Revenue>, j: nat)
    requires j + 1 < a.Length
    modifies a
    ensures a[..] == old(a[..])[j := old(a[j + 1])][j + 1 := old(a[j])]
    ensures multiset(a[..]) == multiset(old(a[..]))
  {
    a[j], a[j + 1] := a[j + 1], a[j];
  }

  method FetchRevenueData(response: Response<seq<Revenue>>) returns (r: Fetched<seq<Revenue>>)
    ensures response.error.Some? <==> r.DatabaseError?
    ensures r.DatabaseError? ==> r.message == "Failed to fetch revenue data."
    ensures r.Fetched? ==> SortedByMonth(r.value) && multiset(r.value) == multiset(response.data)
  {
    if response.error.Some? {
      return DatabaseError(REVENUE_FAILED);
    }
    var data := response.data;
    var a := new Revenue[|data|](i requires 0 <= i < |data| => data[i]);
    assert a[..] == data;
    SortBy(a, MonthKey);
    return Fetched(a[..]);
  }

  /**
   * Rows whose month is not one of Jan…Dec (key -1, by the contract of `IndexOf`)
   * sort before every row whose month is.
   */
  lemma UnknownMonthsFirst(s: seq<Revenue>, i: int, j: int)
    requires SortedByMonth(s)
    requires 0 <= i < |s| && 0 <= j < |s|
    requires MonthKey(s[i]) == -1 && MonthKey(s[j]) >= 0
    ensures i < j
  {
  }

  /** The same order stated by month name: a row whose month is not Jan…Dec precedes every row whose month is. */
  lemma UnknownMonthNamesFirst(s: seq<Revenue>, i: int, j: int)
    requires SortedByMonth(s)
    requires 0 <= i < |s| && 0 <= j < |s|
    requires s[i].month !in MONTH_ORDER && s[j].month in MONTH_ORDER
    ensures i < j
  {
    UnknownMonthsFirst(s, i, j);
  }

  /** Rows stand in calendar order: a row of an earlier month never follows a row of a later one. */
  lemma CalendarOrder(s: seq<Revenue>, i: int, j: int)
    requires SortedByMonth(s)
    requires 0 <= i < |s| && 0 <= j < |s|
    requires MonthKey(s[i]) < MonthKey(s[j])
    ensures i < j
  {
  }

  // ---------------------------------------------------------------------------
  // Pagination

  /** The offset of a page's first row: six rows for every earlier page. */
  function PageOffset(currentPage: int): int {
    (currentPage - 1) * ITEMS_PER_PAGE
  }

  /** The page count: the fewest 6-row pages that hold `count` rows (the ceiling of the quotient). */
  function PageCount(count: nat): (pages: nat)
    ensures pages * ITEMS_PER_PAGE >= count
    ensures pages > 0 ==> (pages - 1) * ITEMS_PER_PAGE < count
  {
    (count + ITEMS_PER_PAGE - 1) / ITEMS_PER_PAGE
  }

  /** No rows, no pages. */
  lemma NoRowsNoPages()
    ensures PageCount(0) == 0
  {
  }

  /**
   * Every row below `count` lies on exactly one page, whose offset window of
   * six rows holds it, and that page is among the first `PageCount(count)`.
   */
  lemma RowOnOnePage(row: nat, count: nat, page: int)
    requires row < count
    ensures PageOffset(page) <= row < PageOffset(page) + ITEMS_PER_PAGE <==> page == row / ITEMS_PER_PAGE + 1
    ensures page == row / ITEMS_PER_PAGE + 1 ==> 1 <= page <= PageCount(count)
  {
    var p := row / ITEMS_PER_PAGE + 1;
    assert PageOffset(p) <= row < PageOffset(p) + ITEMS_PER_PAGE;
    if page < p {
      assert PageOffset(page) + ITEMS_PER_PAGE <= PageOffset(p);
    } else if page > p {
      assert PageOffset(page) >= PageOffset(p) + ITEMS_PER_PAGE;
    }
  }

  /** The arguments of the `search_invoices` procedure. */
  datatype SearchRequest = SearchRequest(query: string, itemsPerPage: int, pageOffset: int)

  function FetchFilteredInvoices<T>(query: string, currentPage: int,
                                    search: SearchRequest -> Response<seq<T>>): (r: Fetched<seq<T>>)
    ensures var answer := search(SearchRequest(query, 6, (currentPage - 1) * 6));
            && (answer.error.Some? <==> r == DatabaseError("Failed to fetch invoices."))
            && (answer.error.None? ==> r == Fetched(answer.data))
  {
    var answer := search(SearchRequest(query, ITEMS_PER_PAGE, PageOffset(currentPage)));
    if answer.error.Some? then DatabaseError(INVOICES_FAILED) else Fetched(answer.data)
  }

  function FetchInvoicesPages(query: string, countInvoices: string -> Response<nat>): (r: Fetched<nat>)
    ensures countInvoices(query).error.Some? <==> r.DatabaseError?
    ensures r.DatabaseError? ==> r.message == "Failed to fetch invoices pages."
    ensures r.Fetched? ==> r.value * 6 >= countInvoices(query).data
                           && (r.value == 0 || (r.value - 1) * 6 < countInvoices(query).data)
  {
    var answer := countInvoices(query);
    if answer.error.Some? then DatabaseError(PAGES_FAILED) else Fetched(PageCount(answer.data))
  }

  // ---------------------------------------------------------------------------
  // Card data

  /** One row of the amount-only status query: an amount in cents. */
  datatype AmountRow = AmountRow(amount: int)

  datatype CardData = CardData(numberOfCustomers: int, numberOfInvoices: int,
                               totalPaidInvoices: int, totalPendingInvoices: int)

  /** The sum of the rows' amounts, folded from the left starting at 0, as the card fetch's `reduce` does. */
  function Total(rows: seq<AmountRow>): int {
    if rows == [] then 0 else Total(rows[..|rows| - 1]) + rows[|rows| - 1].amount
  }

  /** The count shown on a card: a missing count, like a zero count, is zero. */
  function CountOrZero(count: Option<int>): int {
    if count.Some? && count.value != 0 then count.value else 0
  }

  /**
   * The four queries are joined; the first error among them fails the whole call.
   * The two count queries ask for the count only, so their `data` stands for the
   * query's `count`, which may be missing.
   */
  function FetchCardData(invoicesCount: Response<Option<int>>, paidInvoices: Response<seq<AmountRow>>,
                         pendingInvoices: Response<seq<AmountRow>>, customersCount: Response<Option<int>>)
    : (r: Fetched<CardData>)
    ensures r.Fetched? <==> invoicesCount.error.None? && paidInvoices.error.None?
                            && pendingInvoices.error.None? && customersCount.error.None?
    ensures r.DatabaseError? ==> r.message == "Failed to fetch card data."
  {
    if invoicesCount.error.Some? then DatabaseError(CARD_DATA_FAILED)
    else if paidInvoices.error.Some? then DatabaseError(CARD_DATA_FAILED)
    else if pendingInvoices.error.Some? then DatabaseError(CARD_DATA_FAILED)
    else if customersCount.error.Some? then DatabaseError(CARD_DATA_FAILED)
    else Fetched(CardData(
      CountOrZero(customersCount.data),
      CountOrZero(invoicesCount.data),
      Total(paidInvoices.data),
      Total(pendingInvoices.data)))
  }

  /** An invoice as the `invoices` table holds it. */
  datatype StoredInvoice = StoredInvoice(amount: int, status: Status)

  /** The amounts a status query returns from a table: those of the invoices with that status, in table order. */
  function AmountsWithStatus(table: seq<StoredInvoice>, s: Status): seq<AmountRow> {
    if table == [] then []
    else (if table[0].status == s then [AmountRow(table[0].amount)] else []) + AmountsWithStatus(table[1..], s)
  }

  /** The sum of the amounts of the invoices with status `s`. */
  function SumWithStatus(table: seq<StoredInvoice>, s: Status): int {
    if table == [] then 0
    else (if table[0].status == s then table[0].amount else 0) + SumWithStatus(table[1..], s)
  }

  /** The sum of all amounts in the table. */
  function SumAll(table: seq<StoredInvoice>): int {
    if table == [] then 0 else table[0].amount + SumAll(table[1..])
  }

  lemma {:induction false} TotalAppend(a: seq<AmountRow>, b: seq<AmountRow>)
    ensures Total(a + b) == Total(a) + Total(b)
  {
    if b == [] {
      assert a + b == a;
    } else {
      var init := b[..|b| - 1];
      assert (a + b)[..|a + b| - 1] == a + init;
      TotalAppend(a, init);
    }
  }

  /** Folding the filtered rows gives the sum over the invoices with that status. */
  lemma {:induction false} TotalIsSumWithStatus(table: seq<StoredInvoice>, s: Status)
    ensures Total(AmountsWithStatus(table, s)) == SumWithStatus(table, s)
  {
    if table != [] {
      var head := if table[0].status == s then [AmountRow(table[0].amount)] else [];
      TotalIsSumWithStatus(table[1..], s);
      TotalAppend(head, AmountsWithStatus(table[1..], s));
      assert Total(head) == (if table[0].status == s then table[0].amount else 0) by {
        if head != [] { assert head[..0] == []; }
      }
    }
  }

  /** Every invoice is paid or pending, so the two totals add up to the total of the table. */
  lemma {:induction false} PaidPlusPendingIsAll(table: seq<StoredInvoice>)
    ensures SumWithStatus(table, Paid) + SumWithStatus(table, Pending) == SumAll(table)
  {
    if table != [] {
      PaidPlusPendingIsAll(table[1..]);
    }
  }

  /**
   * When the queries succeed on a table, the cards show the paid and pending
   * sums of that table (zero for an empty table) and the counts, or zero for a
   * missing count.
   */
  lemma CardDataOfTable(table: seq<StoredInvoice>, invoices: Option<int>, customers: Option<int>)
    ensures var r := FetchCardData(Response(None, invoices), Response(None, AmountsWithStatus(table, Paid)),
                                   Response(None, AmountsWithStatus(table, Pending)), Response(None, customers));
            && r.Fetched?
            && r.value.totalPaidInvoices == SumWithStatus(table, Paid)
            && r.value.totalPendingInvoices == SumWithStatus(table, Pending)
            && r.value.totalPaidInvoices + r.value.totalPendingInvoices == SumAll(table)
            && (table == [] ==> r.value.totalPaidInvoices == 0 && r.value.totalPendingInvoices == 0)
            && r.value.numberOfInvoices == (if invoices.Some? then invoices.value else 0)
            && r.value.numberOfCustomers == (if customers.Some? then customers.value else 0)
  {
    TotalIsSumWithStatus(table, Paid);
    TotalIsSumWithStatus(table, Pending);
    PaidPlusPendingIsAll(table);
  }
}
