/**
 * The transactions service's reshaping of backend responses: every record
 * gets its identifier, date, merchant and category from the backend's
 * preferred key when that is truthy, and the pagination block is flattened
 * into four numbers by chains of `||` fallbacks.
 */
module TransactionsService {
  import opened Js

  /**
   * A transaction record as JSON. The keys the normalisation reads are
   * fields (`docId` is the `_id` key, `kind` the `type` key); every other key
   * is in `rest`, which a spread copies unchanged.
   */
  datatype Transaction = Transaction(
    transactionId: Option<Value>,
    docId: Option<Value>,
    id: Option<Value>,
    transactionDate: Option<Value>,
    date: Option<Value>,
    merchantName: Option<Value>,
    merchant: Option<Value>,
    categoryName: Option<Value>,
    category: Option<Value>,
    kind: Option<Value>,
    amount: Option<Value>,
    rest: Record)

  /** The fields of two records that the normalisation never writes agree. */
  predicate SameSourceFields(a: Transaction, b: Transaction)
  {
    a.transactionId == b.transactionId && a.transactionDate == b.transactionDate &&
    a.merchantName == b.merchantName && a.categoryName == b.categoryName &&
    a.kind == b.kind && a.amount == b.amount && a.rest == b.rest
  }

  /**
   * `{...t, _id: t.transactionId || t._id || t.id, id: t.transactionId || t.id || t._id,
   *  date: t.transactionDate || t.date, merchant: t.merchantName || t.merchant,
   *  category: t.categoryName || t.category}`
   */
  function Normalise(t: Transaction): (r: Transaction)
    ensures SameSourceFields(r, t)
    ensures Present(t.transactionId) ==> r.docId == t.transactionId && r.id == t.transactionId
    ensures !Present(t.transactionId) && Present(t.docId) ==> r.docId == t.docId
    ensures !Present(t.transactionId) && !Present(t.docId) ==> r.docId == t.id
    ensures !Present(t.transactionId) && Present(t.id) ==> r.id == t.id
    ensures !Present(t.transactionId) && !Present(t.id) ==> r.id == t.docId
    ensures r.date == (if Present(t.transactionDate) then t.transactionDate else t.date)
    ensures r.merchant == (if Present(t.merchantName) then t.merchantName else t.merchant)
    ensures r.category == (if Present(t.categoryName) then t.categoryName else t.category)
  {
    t.(docId := Or(t.transactionId, Or(t.docId, t.id)),
       id := Or(t.transactionId, Or(t.id, t.docId)),
       date := Or(t.transactionDate, t.date),
       merchant := Or(t.merchantName, t.merchant),
       category := Or(t.categoryName, t.category))
  }

  /** Some candidate identifier of the record is truthy. */
  predicate HasIdentifier(t: Transaction)
  {
    Present(t.transactionId) || Present(t.docId) || Present(t.id)
  }

  /**
   * A normalised record with an identifier has truthy `_id` and `id`, and
   * normalising it again changes nothing.
   */
  lemma NormaliseIdempotent(t: Transaction)
    requires HasIdentifier(t)
    ensures Present(Normalise(t).docId) && Present(Normalise(t).id)
    ensures Normalise(Normalise(t)) == Normalise(t)
  {
  }

  /** Without any truthy identifier a second normalisation may swap the two falsy ids. */
  lemma NormaliseNotIdempotentWithoutIdentifier()
    ensures var t := Transaction(None, None, Some(Str("")), None, None, None, None, None, None, None, None, map[]);
      Normalise(Normalise(t)) != Normalise(t)
  {
    var t := Transaction(None, None, Some(Str("")), None, None, None, None, None, None, None, None, map[]);
    assert Normalise(t).docId == Some(Str(""));
    assert Normalise(t).id == None;
    assert Normalise(Normalise(t)).docId == None;
  }

  /** `data.pagination`, each number possibly undefined. */
  datatype Pagination = Pagination(page: Option<int>, totalPages: Option<int>, total: Option<int>, limit: Option<int>)

  /** `response.data` of the list endpoint. */
  datatype ListBody = ListBody(
    transactions: Option<seq<Transaction>>,
    pagination: Option<Pagination>,
    currentPage: Option<int>,
    totalPages: Option<int>,
    totalItems: Option<int>,
    itemsPerPage: Option<int>)

  /**
   * What `getTransactions` resolves to: exactly these five fields; there is
   * no `summary`.
   */
  datatype TransactionPage = TransactionPage(
    transactions: seq<Transaction>,
    currentPage: int,
    totalPages: int,
    totalItems: int,
    itemsPerPage: int)

  /** `data.pagination?.page` and its siblings: undefined without a pagination block. */
  function PageOf(p: Option<Pagination>): Option<int> { if p.Some? then p.value.page else None }
  function TotalPagesOf(p: Option<Pagination>): Option<int> { if p.Some? then p.value.totalPages else None }
  function TotalOf(p: Option<Pagination>): Option<int> { if p.Some? then p.value.total else None }
  function LimitOf(p: Option<Pagination>): Option<int> { if p.Some? then p.value.limit else None }

  /** `Math.ceil(n / d)` for a non-zero divisor of either sign. */
  function CeilDiv(n: int, d: int): (r: int)
    requires d != 0
    ensures r == MathCeil(n as real / d as real)
  {
    if d > 0 then
      CeilOfQuotient(n, d);
      -((-n) / d)
    else
      CeilOfQuotient(-n, -d);
      assert (-n) as real / (-d) as real == n as real / d as real;
      -(n / (-d))
  }

  /** `pagination.totalPages || Math.ceil((pagination.total || 0) / (pagination.limit || 10)) || 1` */
  function ResolveTotalPages(p: Option<Pagination>): (r: int)
    ensures NumOr(TotalPagesOf(p), 0) != 0 ==> r == TotalPagesOf(p).value
    ensures NumOr(TotalPagesOf(p), 0) == 0 ==>
      var pages := MathCeil(NumOr(TotalOf(p), 0) as real / NumOr(LimitOf(p), 10) as real);
      r == if pages != 0 then pages else 1
  {
    var explicit := TotalPagesOf(p);
    var limit := NumOr(LimitOf(p), 10);
    var computed := CeilDiv(NumOr(TotalOf(p), 0), limit);
    NumOr(explicit, NumOr(Some(computed), 1))
  }

  /** The transformation `getTransactions` applies to the list body. */
  function GetTransactions(data: ListBody): (r: TransactionPage)
    ensures var list := if data.transactions.Some? then data.transactions.value else [];
      |r.transactions| == |list| &&
      forall k :: 0 <= k < |list| ==> r.transactions[k] == Normalise(list[k])
    ensures r.currentPage == NumOr(PageOf(data.pagination), NumOr(data.currentPage, 1))
    ensures r.totalItems == NumOr(TotalOf(data.pagination), NumOr(data.totalItems, 0))
    ensures r.itemsPerPage == NumOr(LimitOf(data.pagination), NumOr(data.itemsPerPage, 10))
    ensures r.totalPages == ResolveTotalPages(data.pagination)
  {
    var list := if data.transactions.Some? then data.transactions.value else [];
    TransactionPage(
      seq(|list|, k requires 0 <= k < |list| => Normalise(list[k])),
      NumOr(PageOf(data.pagination), NumOr(data.currentPage, 1)),
      ResolveTotalPages(data.pagination),
      NumOr(TotalOf(data.pagination), NumOr(data.totalItems, 0)),
      NumOr(LimitOf(data.pagination), NumOr(data.itemsPerPage, 10)))
  }

  /** A pagination block whose numbers, where present, are not negative. */
  predicate NonNegativePagination(p: Option<Pagination>)
  {
    p.Some? ==>
      (p.value.totalPages.Some? ==> p.value.totalPages.value >= 0) &&
      (p.value.total.Some? ==> p.value.total.value >= 0) &&
      (p.value.limit.Some? ==> p.value.limit.value >= 0)
  }

  /** With non-negative numbers there is always at least one page. */
  lemma TotalPagesAtLeastOne(data: ListBody)
    requires NonNegativePagination(data.pagination)
    ensures GetTransactions(data).totalPages >= 1
  {
    var limit := NumOr(LimitOf(data.pagination), 10);
    var total := NumOr(TotalOf(data.pagination), 0);
    assert limit > 0 && total >= 0;
    assert CeilDiv(total, limit) >= 0 by {
      DivBelow(-total, limit, 1);
    }
  }

  /** The top-level `totalPages` of the body is never consulted. */
  lemma TopLevelTotalPagesIgnored(data: ListBody, other: Option<int>)
    ensures GetTransactions(data) == GetTransactions(data.(totalPages := other))
  {
  }

  /** None of the four numbers is ever 0, so a consumer's `|| default` is the identity. */
  lemma PageNumbersNonZero(data: ListBody)
    ensures GetTransactions(data).currentPage != 0
    ensures GetTransactions(data).totalPages != 0
    ensures GetTransactions(data).itemsPerPage != 0
  {
  }

  /** `response.data` of the create endpoint: possibly a nested `transaction`
      object, and otherwise the record itself. */
  datatype CreateBody = CreateBody(transaction: Option<Transaction>, body: Transaction)

  /** `createTransaction`: the list normalisation applied to `data.transaction || data`. */
  function CreateTransaction(data: CreateBody): (r: Transaction)
    ensures data.transaction.Some? ==> r == Normalise(data.transaction.value)
    ensures data.transaction.None? ==> r == Normalise(data.body)
  {
    Normalise(if data.transaction.Some? then data.transaction.value else data.body)
  }

  /** A created record looks exactly like the same record served in a list. */
  lemma CreateMatchesList(t: Transaction, outer: Transaction, p: Option<Pagination>)
    ensures CreateTransaction(CreateBody(Some(t), outer)) ==
      GetTransactions(ListBody(Some([t]), p, None, None, None, None)).transactions[0]
  {
  }
}
