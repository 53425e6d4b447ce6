/**
 * The transactions page: the type filter buttons, the pager under the
 * table, the per-row action menu, and the add / edit form's type and
 * currency switches.
 */
module TransactionsPage {
  import opened Js
  import opened TransactionsService
  import opened TransactionsHook

  /** The labels of the filter buttons. */
  const FilterLabels: seq<string> := ["All", "Income", "Expense"]

  /** `type === 'All' ? '' : type.toLowerCase()` */
  function FilterType(button: string): (r: string)
    ensures button == "All" ==> r == ""
    ensures button != "All" ==> |r| == |button| && forall i :: 0 <= i < |button| ==> r[i] == ToLowerChar(button[i])
  {
    if button == "All" then "" else ToLower(button)
  }

  /** The two type buttons select exactly the kinds the summary counts; "All" clears the filter. */
  lemma FilterLabelsMatchKinds()
    ensures FilterType("All") == ""
    ensures FilterType("Income") == "income"
    ensures FilterType("Expense") == "expense"
  {
    assert "Income" != "All" && "Expense" != "All";
    assert ToLower("Income") == "income";
    assert ToLower("Expense") == "expense";
  }

  /** What the pager shows and enables. `buttons` is `None` when building them throws. */
  datatype Pager = Pager(first: int, last: int, buttons: Option<seq<int>>, previousDisabled: bool, nextDisabled: bool)

  /** `[...Array(totalPages)].slice(0, 5).map((_, idx) => idx + 1)`; a negative length is a RangeError. */
  function PageButtons(totalPages: int): (r: Option<seq<int>>)
    ensures r.Some? <==> totalPages >= 0
    ensures r.Some? ==> |r.value| == Min(totalPages, 5) && forall i :: 0 <= i < |r.value| ==> r.value[i] == i + 1
  {
    if totalPages < 0 then None
    else Some(seq(Min(totalPages, 5), i requires 0 <= i < Min(totalPages, 5) => i + 1))
  }

  /** The pager for a pagination state. */
  function PagerFor(p: PaginationState): (r: Pager)
    ensures r.first == (p.currentPage - 1) * p.itemsPerPage + 1
    ensures r.last == Min(p.currentPage * p.itemsPerPage, p.totalItems)
    ensures r.buttons == PageButtons(p.totalPages)
    ensures r.previousDisabled <==> p.currentPage == 1
    ensures r.nextDisabled <==> p.currentPage == p.totalPages
  {
    Pager((p.currentPage - 1) * p.itemsPerPage + 1, Min(p.currentPage * p.itemsPerPage, p.totalItems),
      PageButtons(p.totalPages), p.currentPage == 1, p.currentPage == p.totalPages)
  }

  /** The range never runs past the total, and on a page that has items it spans
      at most one page's worth of them. */
  lemma PagerRangeBounded(p: PaginationState)
    requires p.currentPage >= 1 && p.itemsPerPage >= 1
    ensures PagerFor(p).last <= p.totalItems
    ensures PagerFor(p).last - PagerFor(p).first + 1 <= p.itemsPerPage
    ensures (p.currentPage - 1) * p.itemsPerPage < p.totalItems ==> PagerFor(p).first <= PagerFor(p).last
  {
    assert p.currentPage * p.itemsPerPage == (p.currentPage - 1) * p.itemsPerPage + p.itemsPerPage;
  }

  /** A page served by the service, with non-negative numbers, always has buttons, starting at 1. */
  lemma ServedPagerHasButtons(data: ListBody)
    requires NonNegativePagination(data.pagination)
    ensures var b := PagerFor(PaginationFrom(GetTransactions(data))).buttons;
      b.Some? && |b.value| >= 1 && b.value[0] == 1
  {
    TotalPagesAtLeastOne(data);
    PaginationDefaultsRedundant(data);
  }

  /** `showActionMenu === transactionId ? null : transactionId` */
  function Toggle(open: Option<Value>, transactionId: Value): (r: Option<Value>)
    ensures r == None <==> open == Some(transactionId)
    ensures r != None ==> r == Some(transactionId)
  {
    if open == Some(transactionId) then None else Some(transactionId)
  }

  /** Toggling the same row twice from a closed menu closes it again; toggling
      another row moves the menu there. */
  lemma ToggleTwice(a: Value, b: Value)
    ensures Toggle(Toggle(None, a), a) == None
    ensures a != b ==> Toggle(Toggle(None, a), b) == Some(b)
  {
  }

  /** The add / edit form. `amount` is the text of its input. */
  datatype TransactionForm = TransactionForm(
    kind: string, amount: string, category: string, description: string,
    date: string, merchant: string, currency: string)

  /** `{...formData, type, category: ''}` */
  function WithType(form: TransactionForm, kind: string): (r: TransactionForm)
    ensures r.kind == kind && r.category == ""
    ensures r.amount == form.amount && r.description == form.description && r.date == form.date
    ensures r.merchant == form.merchant && r.currency == form.currency
  {
    form.(kind := kind, category := "")
  }

  /** `{...formData, currency, amount: ''}` */
  function WithCurrency(form: TransactionForm, currency: string): (r: TransactionForm)
    ensures r.currency == currency && r.amount == ""
    ensures r.kind == form.kind && r.category == form.category && r.description == form.description
    ensures r.date == form.date && r.merchant == form.merchant
  {
    form.(currency := currency, amount := "")
  }

  const ExpenseCategories: seq<string> := ["Food & Dining", "Groceries", "Transport", "Shopping", "Bills & Utilities", "Entertainment"]
  const IncomeCategories: seq<string> := ["Salary", "Freelance", "Investment"]

  /** `categoryOptions[formData.type] || categoryOptions.expense` */
  function CategoryOptions(kind: string): (r: seq<string>)
    ensures kind == "income" ==> r == IncomeCategories
    ensures kind != "income" ==> r == ExpenseCategories
  {
    if kind == "expense" then ExpenseCategories
    else if kind == "income" then IncomeCategories
    else ExpenseCategories
  }

  /** Six expense categories, three income ones, and none shared. */
  lemma CategoryListsDisjoint()
    ensures |ExpenseCategories| == 6 && |IncomeCategories| == 3
    ensures forall c :: c in ExpenseCategories ==> c !in IncomeCategories
  {
  }

  /** Switching type clears the category, which is then none of the offered options. */
  lemma TypeChangeClearsChoice(form: TransactionForm, kind: string)
    ensures WithType(form, kind).category !in CategoryOptions(kind)
  {
  }

  /** `selectedCurrency === 'USD' ? exchangeRate : 1` */
  function SubmittedRate(selectedCurrency: string, exchangeRate: real): (r: real)
    ensures selectedCurrency == "USD" ==> r == exchangeRate
    ensures selectedCurrency != "USD" ==> r == 1.0
  {
    if selectedCurrency == "USD" then exchangeRate else 1.0
  }

  class TransactionsPageState {
    const hook: TransactionsState
    var selectedFilter: string
    var selectedCurrency: string
    var showActionMenu: Option<Value>
    var showCategoryDropdown: bool
    var formData: TransactionForm

    constructor (today: string)
      ensures fresh(hook)
      ensures hook.filters == DefaultFilters
      ensures selectedFilter == "All" && selectedCurrency == "INR" && showActionMenu == None
      ensures !showCategoryDropdown && formData == TransactionForm("expense", "", "", "", today, "", "INR")
    {
      hook := new TransactionsState(map[]);
      selectedFilter := "All";
      selectedCurrency := "INR";
      showActionMenu := None;
      showCategoryDropdown := false;
      formData := TransactionForm("expense", "", "", "", today, "", "INR");
      assert DefaultFilters + map[] == DefaultFilters;
    }

    /** `handleFilterChange`: remembers the button and filters the list by its type, from page 1. */
    method HandleFilterChange(button: string)
      modifies this, hook
      ensures selectedFilter == button
      ensures hook.filters == UpdatedFilters(old(hook.filters), map["type" := Str(FilterType(button))])
      ensures selectedCurrency == old(selectedCurrency) && showActionMenu == old(showActionMenu)
      ensures showCategoryDropdown == old(showCategoryDropdown) && formData == old(formData)
      ensures hook.transactions == old(hook.transactions) && hook.pagination == old(hook.pagination)
      ensures hook.loading == old(hook.loading) && hook.error == old(hook.error)
      ensures hook.summary == old(hook.summary)
    {
      selectedFilter := button;
      hook.UpdateFilters(map["type" := Str(FilterType(button))]);
    }

    /** `toggleActionMenu` */
    method ToggleActionMenu(transactionId: Value)
      modifies this
      ensures showActionMenu == Toggle(old(showActionMenu), transactionId)
      ensures selectedFilter == old(selectedFilter) && selectedCurrency == old(selectedCurrency)
      ensures showCategoryDropdown == old(showCategoryDropdown) && formData == old(formData)
    {
      showActionMenu := Toggle(showActionMenu, transactionId);
    }

    /** `handleTypeChange` */
    method HandleTypeChange(kind: string)
      modifies this
      ensures formData == WithType(old(formData), kind) && !showCategoryDropdown
      ensures selectedFilter == old(selectedFilter) && selectedCurrency == old(selectedCurrency)
      ensures showActionMenu == old(showActionMenu)
    {
      formData := WithType(formData, kind);
      showCategoryDropdown := false;
    }

    /** `handleCurrencyChange` */
    method HandleCurrencyChange(currency: string)
      modifies this
      ensures selectedCurrency == currency && formData == WithCurrency(old(formData), currency)
      ensures selectedFilter == old(selectedFilter) && showActionMenu == old(showActionMenu)
      ensures showCategoryDropdown == old(showCategoryDropdown)
    {
      selectedCurrency := currency;
      formData := WithCurrency(formData, currency);
    }
  }
}
