/**
 * The transactions hook: the filter record the list is fetched with, the
 * pagination numbers, and the summary it computes from the current page when
 * the service supplies none.
 */
module TransactionsHook {
  import opened Js
  import opened TransactionsService

  /** The filter record with every key at its reset value. */
  const DefaultFilters: Record := map[
    "type" := Str(""), "category" := Str(""), "search" := Str(""), "dateRange" := Str(""),
    "minAmount" := Str(""), "maxAmount" := Str(""), "page" := Num(1), "limit" := Num(10)]

  /** `{...defaults, ...initialFilters}`: every key the caller gives wins. */
  function InitialFilters(initialFilters: Record): (r: Record)
    ensures r.Keys == DefaultFilters.Keys + initialFilters.Keys
    ensures forall k :: k in initialFilters ==> r[k] == initialFilters[k]
    ensures forall k :: k in DefaultFilters && k !in initialFilters ==> r[k] == DefaultFilters[k]
  {
    DefaultFilters + initialFilters
  }

  /** `{...prev, ...newFilters, page: 1}` */
  function UpdatedFilters(prev: Record, newFilters: Record): (r: Record)
    ensures r.Keys == prev.Keys + newFilters.Keys + {"page"}
    ensures r["page"] == Num(1)
    ensures forall k :: k in newFilters && k != "page" ==> r[k] == newFilters[k]
    ensures forall k :: k in prev && k !in newFilters && k != "page" ==> r[k] == prev[k]
  {
    prev + newFilters + map["page" := Num(1)]
  }

  /** `{...prev, page}` */
  function WithPage(prev: Record, page: Value): (r: Record)
    ensures r.Keys == prev.Keys + {"page"}
    ensures r["page"] == page
    ensures forall k :: k in prev && k != "page" ==> r[k] == prev[k]
  {
    prev + map["page" := page]
  }

  /** A filter update never leaves the list anywhere but on its first page,
      even when the update itself names a page. */
  lemma UpdateAlwaysFirstPage(prev: Record, newFilters: Record, page: Value)
    ensures UpdatedFilters(prev, newFilters + map["page" := page])["page"] == Num(1)
    ensures UpdatedFilters(WithPage(prev, page), newFilters) == UpdatedFilters(prev, newFilters)
  {
    var a := UpdatedFilters(WithPage(prev, page), newFilters);
    var b := UpdatedFilters(prev, newFilters);
    assert a.Keys == b.Keys;
    assert forall k :: k in a ==> a[k] == b[k];
  }

  /** Moving to a page and back restores the filters of a record that had a page. */
  lemma ChangePageRoundTrip(prev: Record, page: Value)
    requires "page" in prev
    ensures WithPage(WithPage(prev, page), prev["page"]) == prev
  {
    var r := WithPage(WithPage(prev, page), prev["page"]);
    assert r.Keys == prev.Keys;
    assert forall k :: k in r ==> r[k] == prev[k];
  }

  /** The pagination state the hook exposes. */
  datatype PaginationState = PaginationState(currentPage: int, totalPages: int, totalItems: int, itemsPerPage: int)

  const InitialPagination := PaginationState(1, 1, 0, 10)

  /** `{currentPage: r.currentPage || 1, totalPages: r.totalPages || 1, ...}` */
  function PaginationFrom(page: TransactionPage): (r: PaginationState)
    ensures r.currentPage == (if page.currentPage != 0 then page.currentPage else 1)
    ensures r.totalPages == (if page.totalPages != 0 then page.totalPages else 1)
    ensures r.totalItems == page.totalItems
    ensures r.itemsPerPage == (if page.itemsPerPage != 0 then page.itemsPerPage else 10)
  {
    PaginationState(
      NumOr(Some(page.currentPage), 1), NumOr(Some(page.totalPages), 1),
      NumOr(Some(page.totalItems), 0), NumOr(Some(page.itemsPerPage), 10))
  }

  /** The hook's defaults never fire on what the service returns. */
  lemma PaginationDefaultsRedundant(data: ListBody)
    ensures var page := GetTransactions(data);
      PaginationFrom(page) == PaginationState(page.currentPage, page.totalPages, page.totalItems, page.itemsPerPage)
  {
    PageNumbersNonZero(data);
  }

  datatype Summary = Summary(
    totalTransactions: int,
    totalIncome: real,
    totalExpenses: real,
    incomeCount: int,
    expenseCount: int)

  const InitialSummary := Summary(0, 0.0, 0.0, 0, 0)

  /** `t.type === kind` */
  predicate IsKind(t: Transaction, kind: string)
  {
    t.kind == Some(Str(kind))
  }

  /** `ts.filter(t => t.type === kind).length` */
  function CountKind(ts: seq<Transaction>, kind: string): (r: nat)
    ensures r <= |ts|
    ensures r == 0 <==> forall k :: 0 <= k < |ts| ==> !IsKind(ts[k], kind)
  {
    if ts == [] then 0
    else (if IsKind(ts[0], kind) then 1 else 0) + CountKind(ts[1..], kind)
  }

  /** `parseFloat(t.amount) || 0`, where `parseFloat` is given and `None` is NaN. */
  function AmountOf(t: Transaction, parseFloat: Option<Value> -> Option<real>): real
  {
    var parsed := parseFloat(t.amount);
    if parsed.Some? then parsed.value else 0.0
  }

  /** `ts.filter(t => t.type === kind).reduce((sum, t) => sum + (parseFloat(t.amount) || 0), 0)` */
  function SumKind(ts: seq<Transaction>, kind: string, parseFloat: Option<Value> -> Option<real>): real
  {
    if ts == [] then 0.0
    else (if IsKind(ts[0], kind) then AmountOf(ts[0], parseFloat) else 0.0) + SumKind(ts[1..], kind, parseFloat)
  }

  /** The summary worked out from the page alone. */
  function FallbackSummary(page: TransactionPage, parseFloat: Option<Value> -> Option<real>): (r: Summary)
    ensures r.totalTransactions == (if page.totalItems != 0 then page.totalItems else |page.transactions|)
    ensures r.incomeCount == CountKind(page.transactions, "income")
    ensures r.expenseCount == CountKind(page.transactions, "expense")
    ensures r.totalIncome == SumKind(page.transactions, "income", parseFloat)
    ensures r.totalExpenses == SumKind(page.transactions, "expense", parseFloat)
  {
    Summary(
      NumOr(Some(page.totalItems), |page.transactions|),
      SumKind(page.transactions, "income", parseFloat),
      SumKind(page.transactions, "expense", parseFloat),
      CountKind(page.transactions, "income"),
      CountKind(page.transactions, "expense"))
  }

  /** A record is counted under at most one kind, and records of other kinds
      under neither, so the two counts never exceed the page. */
  lemma {:induction false} KindCountsBounded(ts: seq<Transaction>)
    ensures CountKind(ts, "income") + CountKind(ts, "expense") <= |ts|
  {
    if ts != [] {
      KindCountsBounded(ts[1..]);
    }
  }

  lemma {:induction false} CountKindAppend(xs: seq<Transaction>, ys: seq<Transaction>, kind: string)
    ensures CountKind(xs + ys, kind) == CountKind(xs, kind) + CountKind(ys, kind)
  {
    if xs != [] {
      assert (xs + ys)[0] == xs[0] && (xs + ys)[1..] == xs[1..] + ys;
      CountKindAppend(xs[1..], ys, kind);
    } else {
      assert xs + ys == ys;
    }
  }

  lemma {:induction false} SumKindAppend(xs: seq<Transaction>, ys: seq<Transaction>, kind: string, parseFloat: Option<Value> -> Option<real>)
    ensures SumKind(xs + ys, kind, parseFloat) == SumKind(xs, kind, parseFloat) + SumKind(ys, kind, parseFloat)
  {
    if xs != [] {
      assert (xs + ys)[0] == xs[0] && (xs + ys)[1..] == xs[1..] + ys;
      SumKindAppend(xs[1..], ys, kind, parseFloat);
    } else {
      assert xs + ys == ys;
    }
  }

  /** A total with no record of its kind is 0. */
  lemma {:induction false} SumWithoutKind(ts: seq<Transaction>, kind: string, parseFloat: Option<Value> -> Option<real>)
    requires CountKind(ts, kind) == 0
    ensures SumKind(ts, kind, parseFloat) == 0.0
  {
    if ts != [] {
      assert !IsKind(ts[0], kind);
      SumWithoutKind(ts[1..], kind, parseFloat);
    }
  }

  /** With non-negative parsed amounts the totals are non-negative. */
  lemma {:induction false} SumKindNonNegative(ts: seq<Transaction>, kind: string, parseFloat: Option<Value> -> Option<real>)
    requires forall k :: 0 <= k < |ts| ==> AmountOf(ts[k], parseFloat) >= 0.0
    ensures SumKind(ts, kind, parseFloat) >= 0.0
  {
    if ts != [] {
      assert AmountOf(ts[0], parseFloat) >= 0.0;
      SumKindNonNegative(ts[1..], kind, parseFloat);
    }
  }

  const LoadFailed: string := "Failed to load transactions"

  class TransactionsState {
    var loading: bool
    var error: Option<string>
    var transactions: seq<Transaction>
    var summary: Summary
    var pagination: PaginationState
    var filters: Record

    /** `useTransactions(initialFilters)` before its first fetch settles. */
    constructor (initialFilters: Record)
      ensures loading && error == None && transactions == []
      ensures summary == InitialSummary && pagination == InitialPagination
      ensures filters == InitialFilters(initialFilters)
    {
      loading := true;
      error := None;
      transactions := [];
      summary := InitialSummary;
      pagination := InitialPagination;
      filters := InitialFilters(initialFilters);
    }

    method UpdateFilters(newFilters: Record)
      modifies this
      ensures filters == UpdatedFilters(old(filters), newFilters)
      ensures loading == old(loading) && error == old(error) && transactions == old(transactions)
      ensures summary == old(summary) && pagination == old(pagination)
    {
      filters := UpdatedFilters(filters, newFilters);
    }

    method ChangePage(page: Value)
      modifies this
      ensures filters == WithPage(old(filters), page)
      ensures loading == old(loading) && error == old(error) && transactions == old(transactions)
      ensures summary == old(summary) && pagination == old(pagination)
    {
      filters := WithPage(filters, page);
    }

    /** Whatever came before, the filters return to the defaults. */
    method ResetFilters()
      modifies this
      ensures filters == DefaultFilters
      ensures loading == old(loading) && error == old(error) && transactions == old(transactions)
      ensures summary == old(summary) && pagination == old(pagination)
    {
      filters := DefaultFilters;
    }

    /**
     * `fetchTransactions`, given how the service call settled. The service
     * never returns a summary, so the summary always comes from the page. A
     * failure keeps the previous list, pagination and summary.
     */
    method FetchTransactions(response: Outcome<TransactionPage>, parseFloat: Option<Value> -> Option<real>)
      modifies this
      ensures !loading && filters == old(filters)
      ensures response.Resolved? ==>
        error == None && transactions == response.value.transactions &&
        pagination == PaginationFrom(response.value) &&
        summary == FallbackSummary(response.value, parseFloat)
      ensures response.Threw? ==>
        error == Some(if StrTruthy(response.message) then response.message.value else LoadFailed) &&
        transactions == old(transactions) && pagination == old(pagination) && summary == old(summary)
    {
      loading := true;
      error := None;
      match response {
        case Resolved(page) =>
          transactions := page.transactions;
          pagination := PaginationFrom(page);
          summary := FallbackSummary(page, parseFloat);
        case Threw(message) =>
          error := Some(if StrTruthy(message) then message.value else LoadFailed);
      }
      loading := false;
    }
  }
}
