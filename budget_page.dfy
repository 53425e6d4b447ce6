/**
 * The budget page: the spent-to-limit percentage of each budget, its colour
 * tier and bar width, the summary line, the remaining-amount display, and the
 * create / edit form with its required-field check and resets.
 */
module BudgetPage {
  import opened Js

  /** `limit > 0 ? Math.round((spent / limit) * 100) : 0` */
  function Percentage(spent: int, limit: int): (r: int)
    ensures limit <= 0 ==> r == 0
    ensures limit > 0 ==> (2 * r - 1) * limit <= 200 * spent < (2 * r + 1) * limit
  {
    if limit > 0 then
      RoundOfQuotient(100 * spent, limit);
      assert (100 * spent) as real / limit as real == spent as real / limit as real * 100.0;
      MathRound(spent as real / limit as real * 100.0)
    else 0
  }

  /** Reaching the limit reads as 100% or more; a non-negative spend never reads below 0. */
  lemma PercentageAtLimit(spent: int, limit: int)
    requires limit > 0
    ensures spent >= limit ==> Percentage(spent, limit) >= 100
    ensures spent >= 0 ==> Percentage(spent, limit) >= 0
    ensures spent < limit ==> Percentage(spent, limit) <= 100
  {
    var r := Percentage(spent, limit);
    if spent >= limit && r < 100 {
      MulLeMono(2 * r + 1, 199, limit);
      assert false;
    }
    if spent >= 0 && r < 0 {
      MulLeMono(2 * r + 1, -1, limit);
      assert false;
    }
    if spent < limit && r > 100 {
      MulLeMono(201, 2 * r - 1, limit);
      assert false;
    }
  }

  /** The three colour bands. */
  datatype Tier = OverBudget | NearLimit | OnBudget

  function TierOf(percentage: int): (t: Tier)
    ensures t == OverBudget <==> percentage >= 100
    ensures t == NearLimit <==> 80 <= percentage < 100
    ensures t == OnBudget <==> percentage < 80
  {
    if percentage >= 100 then OverBudget
    else if percentage >= 80 then NearLimit
    else OnBudget
  }

  /** `getProgressColor` */
  function ProgressColor(percentage: int): (r: string)
    ensures percentage >= 100 ==> r == "bg-rose-500"
    ensures 80 <= percentage < 100 ==> r == "bg-amber-500"
    ensures percentage < 80 ==> r == "bg-emerald-500"
  {
    if percentage >= 100 then "bg-rose-500"
    else if percentage >= 80 then "bg-amber-500"
    else "bg-emerald-500"
  }

  /** `getProgressTextColor` */
  function ProgressTextColor(percentage: int): (r: string)
    ensures percentage >= 100 ==> r == "text-rose-600"
    ensures 80 <= percentage < 100 ==> r == "text-amber-600"
    ensures percentage < 80 ==> r == "text-emerald-600"
  {
    if percentage >= 100 then "text-rose-600"
    else if percentage >= 80 then "text-amber-600"
    else "text-emerald-600"
  }

  /** The bar and the text change colour at exactly the same thresholds. */
  lemma ColoursFollowTier(p: int, q: int)
    ensures ProgressColor(p) == ProgressColor(q) <==> TierOf(p) == TierOf(q)
    ensures ProgressTextColor(p) == ProgressTextColor(q) <==> TierOf(p) == TierOf(q)
  {
    assert "bg-rose-500"[3] == 'r' && "bg-amber-500"[3] == 'a' && "bg-emerald-500"[3] == 'e';
    assert "text-rose-600"[5] == 'r' && "text-amber-600"[5] == 'a' && "text-emerald-600"[5] == 'e';
  }

  /** `Math.min(percentage, 100)`, the bar width in percent. */
  function BarWidth(percentage: int): (r: int)
    ensures r <= 100
    ensures r == 100 <==> TierOf(percentage) == OverBudget
    ensures percentage <= 100 ==> r == percentage
  {
    Min(percentage, 100)
  }

  /** The summary line: `Some(p)` for `"p% of budget"`, `None` for "No budget set",
      shown when either total is missing or 0. */
  function SummaryLine(totalBudget: Option<int>, totalSpent: Option<int>): (r: Option<int>)
    ensures r.Some? <==> NumOr(totalBudget, 0) != 0 && NumOr(totalSpent, 0) != 0
    ensures r.Some? ==> r.value == MathRound(totalSpent.value as real / totalBudget.value as real * 100.0)
  {
    if NumOr(totalBudget, 0) != 0 && NumOr(totalSpent, 0) != 0 then
      Some(MathRound(totalSpent.value as real / totalBudget.value as real * 100.0))
    else None
  }

  /** With a positive total budget the summary line agrees with the per-budget percentage. */
  lemma SummaryMatchesPercentage(totalBudget: int, totalSpent: int)
    requires totalBudget > 0 && totalSpent != 0
    ensures SummaryLine(Some(totalBudget), Some(totalSpent)) == Some(Percentage(totalSpent, totalBudget))
  {
  }

  /** The remaining amount as a sign prefix and a magnitude. */
  datatype RemainingText = RemainingText(prefix: string, amount: nat)

  /** `(remaining >= 0 ? '₹' : '-₹') + Math.abs(remaining || 0)` */
  function RemainingLine(remaining: int): (r: RemainingText)
    ensures r.prefix == (if remaining >= 0 then "₹" else "-₹")
    ensures r.amount as int == remaining || r.amount as int == -remaining
  {
    RemainingText(if remaining >= 0 then "₹" else "-₹", if remaining >= 0 then remaining else -remaining)
  }

  /** The displayed text determines the amount: prefix and magnitude read back as the number. */
  lemma RemainingLineRoundTrip(remaining: int)
    ensures var t := RemainingLine(remaining);
      (if t.prefix == "₹" then t.amount as int else -(t.amount as int)) == remaining
  {
    assert "₹" != "-₹" by {
      assert |"₹"| == 1 && |"-₹"| == 2;
    }
  }

  /** The three form fields; `limit` is the text of the input. */
  datatype BudgetForm = BudgetForm(category: string, limit: string, period: string)

  const EmptyForm := BudgetForm("", "", "monthly")

  const RequiredFieldsMessage: string := "Please fill in all required fields"

  /** A budget as listed; `limit` is a whole number of rupees here. */
  datatype Budget = Budget(id: Value, category: string, limit: int, period: Option<string>)

  /** What the page passes to the hook: the limit is `parseFloat` of the limit
      text, where `None` is NaN. */
  datatype BudgetRequest = BudgetRequest(category: string, limit: Option<real>, period: string)

  /** How a create or update call came back; the hook always supplies a message. */
  datatype ActionResult = Success | Failure(error: string)

  /** Both required fields are filled in. */
  predicate FormComplete(form: BudgetForm)
  {
    form.category != "" && form.limit != ""
  }

  /** The form `openEditModal` fills in from a budget. */
  function EditForm(budget: Budget): (r: BudgetForm)
    ensures r.category == budget.category && r.limit == IntToString(budget.limit)
    ensures budget.period.Some? && budget.period.value != "" ==> r.period == budget.period.value
    ensures !(budget.period.Some? && budget.period.value != "") ==> r.period == "monthly"
  {
    BudgetForm(budget.category, IntToString(budget.limit),
      if StrTruthy(budget.period) then budget.period.value else "monthly")
  }

  /** Any budget opens a complete form: its limit text is never empty. */
  lemma EditFormComplete(budget: Budget)
    requires budget.category != ""
    ensures FormComplete(EditForm(budget))
  {
  }

  class BudgetPageState {
    var showCreateModal: bool
    var showEditModal: bool
    var selectedBudget: Option<Budget>
    var formData: BudgetForm
    var formError: string
    var formLoading: bool

    /** The edit modal is only ever open on a selected budget. */
    predicate Valid()
      reads this
    {
      showEditModal ==> selectedBudget.Some?
    }

    constructor ()
      ensures Valid()
      ensures !showCreateModal && !showEditModal && selectedBudget == None
      ensures formData == EmptyForm && formError == "" && !formLoading
    {
      showCreateModal := false;
      showEditModal := false;
      selectedBudget := None;
      formData := EmptyForm;
      formError := "";
      formLoading := false;
    }

    /**
     * `handleCreateBudget`: nothing is sent unless both required fields are
     * filled in; `result` is how the create call came back when it was made.
     */
    method HandleCreateBudget(result: ActionResult, parseFloat: string -> Option<real>) returns (sent: Option<BudgetRequest>)
      requires Valid()
      modifies this
      ensures Valid() && !formLoading
      ensures sent.None? <==> !FormComplete(old(formData))
      ensures sent.Some? ==> sent.value == BudgetRequest(old(formData).category, parseFloat(old(formData).limit), old(formData).period)
      ensures sent.None? ==> formError == RequiredFieldsMessage && formData == old(formData) && showCreateModal == old(showCreateModal)
      ensures sent.Some? && result.Success? ==> !showCreateModal && formData == EmptyForm && formError == ""
      ensures sent.Some? && result.Failure? ==> formError == result.error && formData == old(formData) && showCreateModal == old(showCreateModal)
      ensures showEditModal == old(showEditModal) && selectedBudget == old(selectedBudget)
    {
      formError := "";
      formLoading := true;
      if !FormComplete(formData) {
        formError := RequiredFieldsMessage;
        formLoading := false;
        return None;
      }
      sent := Some(BudgetRequest(formData.category, parseFloat(formData.limit), formData.period));
      formLoading := false;
      match result {
        case Success =>
          showCreateModal := false;
          formData := EmptyForm;
        case Failure(error) =>
          formError := error;
      }
    }

    /**
     * `handleEditBudget`: the same check; a successful update also closes the
     * modal and drops the selection. The update names the selected budget.
     */
    method HandleEditBudget(result: ActionResult, parseFloat: string -> Option<real>) returns (sent: Option<(Value, BudgetRequest)>)
      requires Valid() && showEditModal
      modifies this
      ensures Valid() && !formLoading
      ensures sent.None? <==> !FormComplete(old(formData))
      ensures sent.Some? ==>
        sent.value == (old(selectedBudget).value.id, BudgetRequest(old(formData).category, parseFloat(old(formData).limit), old(formData).period))
      ensures sent.None? ==> formError == RequiredFieldsMessage && formData == old(formData) && showEditModal && selectedBudget == old(selectedBudget)
      ensures sent.Some? && result.Success? ==> !showEditModal && selectedBudget == None && formData == EmptyForm && formError == ""
      ensures sent.Some? && result.Failure? ==> formError == result.error && formData == old(formData) && showEditModal && selectedBudget == old(selectedBudget)
      ensures showCreateModal == old(showCreateModal)
    {
      formError := "";
      formLoading := true;
      if !FormComplete(formData) {
        formError := RequiredFieldsMessage;
        formLoading := false;
        return None;
      }
      sent := Some((selectedBudget.value.id, BudgetRequest(formData.category, parseFloat(formData.limit), formData.period)));
      formLoading := false;
      match result {
        case Success =>
          showEditModal := false;
          selectedBudget := None;
          formData := EmptyForm;
        case Failure(error) =>
          formError := error;
      }
    }

    /** `openEditModal` */
    method OpenEditModal(budget: Budget)
      modifies this
      ensures Valid()
      ensures selectedBudget == Some(budget) && formData == EditForm(budget) && showEditModal
      ensures showCreateModal == old(showCreateModal) && formError == old(formError) && formLoading == old(formLoading)
    {
      selectedBudget := Some(budget);
      formData := EditForm(budget);
      showEditModal := true;
    }

    /** `closeModals` */
    method CloseModals()
      modifies this
      ensures Valid()
      ensures !showCreateModal && !showEditModal && selectedBudget == None
      ensures formData == EmptyForm && formError == "" && formLoading == old(formLoading)
    {
      showCreateModal := false;
      showEditModal := false;
      selectedBudget := None;
      formData := EmptyForm;
      formError := "";
    }
  }
}
