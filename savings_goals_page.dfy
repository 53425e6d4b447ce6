/**
 * The savings-goals page: splitting goals by status, the "Mark Complete"
 * button, the category icons, the values a goal card falls back to, and the
 * add-goal and contribution forms.
 */
module SavingsGoalsPage {
  import opened Js
  import opened SavingsGoals

  /** `goals.filter(goal => goal.status === 'active')` */
  function ActiveGoals(goals: seq<Goal>): (r: seq<Goal>)
    ensures forall g :: multiset(r)[g] == if g.status == Some("active") then multiset(goals)[g] else 0
  {
    WithStatus(goals, "active")
  }

  /** `goals.filter(goal => goal.status === 'completed')` */
  function CompletedGoals(goals: seq<Goal>): (r: seq<Goal>)
    ensures forall g :: multiset(r)[g] == if g.status == Some("completed") then multiset(goals)[g] else 0
  {
    WithStatus(goals, "completed")
  }

  /** The two lists are exact, disjoint filters: every goal in one has that
      status, and a goal with any other status is in neither. */
  lemma GoalPartition(goals: seq<Goal>, g: Goal)
    ensures g in ActiveGoals(goals) <==> g in goals && g.status == Some("active")
    ensures g in CompletedGoals(goals) <==> g in goals && g.status == Some("completed")
    ensures !(g in ActiveGoals(goals) && g in CompletedGoals(goals))
    ensures g.status != Some("active") && g.status != Some("completed") ==>
      g !in ActiveGoals(goals) && g !in CompletedGoals(goals)
    ensures |ActiveGoals(goals)| + |CompletedGoals(goals)| <= |goals|
    ensures multiset(ActiveGoals(goals)) + multiset(CompletedGoals(goals)) <= multiset(goals)
  {
    StatusCountsBounded(goals);
    var a, c := multiset(ActiveGoals(goals)), multiset(CompletedGoals(goals));
    forall x ensures (a + c)[x] <= multiset(goals)[x] {
      assert a[x] == 0 || c[x] == 0;
    }
  }

  /** `goal.progress >= 100`; an undefined progress compares false. */
  predicate MarkCompleteOffered(goal: Goal)
  {
    goal.progress.Some? && goal.progress.value >= 100
  }

  /** On an annotated goal that is not completed, "Mark Complete" appears
      exactly once the saved amount reaches 99.5% of the target. */
  lemma MarkCompleteThreshold(g: Goal, now: int, yearBefore: int -> int)
    requires yearBefore(g.deadline) < g.deadline
    requires !IsCompleted(g) && NumOr(g.targetAmount, 1) > 0
    ensures MarkCompleteOffered(ProcessGoal(g, now, yearBefore)) <==>
      200 * NumOr(g.currentAmount, 0) >= 199 * NumOr(g.targetAmount, 1)
  {
    ProgressFullThreshold(NumOr(g.currentAmount, 0), NumOr(g.targetAmount, 1));
  }

  /** A completed goal's annotated progress is always 100, so it would offer the button too. */
  lemma CompletedGoalAtFull(g: Goal, now: int, yearBefore: int -> int)
    requires yearBefore(g.deadline) < g.deadline
    requires IsCompleted(g)
    ensures MarkCompleteOffered(ProcessGoal(g, now, yearBefore))
  {
  }

  /** The icons a goal card can show. */
  datatype Icon = Plane | Heart | Laptop | HomeIcon | Briefcase | Music | Target

  /** The six goal categories with their icons. */
  const CategoryIcons: map<string, Icon> := map[
    "vacation" := Plane, "emergency" := Heart, "tech" := Laptop,
    "home" := HomeIcon, "career" := Briefcase, "entertainment" := Music]

  /** `getCategoryIcon`: the category's icon, or the target icon for any other value. */
  function GetCategoryIcon(category: Option<string>): (r: Icon)
    ensures category.Some? && category.value in CategoryIcons ==> r == CategoryIcons[category.value]
    ensures !(category.Some? && category.value in CategoryIcons) ==> r == Target
  {
    if category.Some? && category.value in CategoryIcons then CategoryIcons[category.value] else Target
  }

  /** The page's icon table and the hook's colour table know the same six
      categories, so a goal gets a specific icon exactly when it gets
      specific colours. */
  lemma IconsMatchColours(category: Option<string>)
    ensures GetCategoryIcon(category) != Target <==> KnownCategory(category)
    ensures GetCategoryIcon(category) == Target <==> GetCategoryColorClass(category) == NeutralColors
  {
    assert CategoryIcons.Keys == CategoryColors.Keys;
    ColorClassDistinct(category, category);
  }

  /** `goal.progress || 0` and `goal.monthlyTarget || 0` on a card. */
  function DisplayedProgress(goal: Goal): (r: int)
    ensures goal.progress.Some? && goal.progress.value != 0 ==> r == goal.progress.value
    ensures goal.progress.None? || goal.progress == Some(0) ==> r == 0
  {
    NumOr(goal.progress, 0)
  }

  function DisplayedMonthlyTarget(goal: Goal): (r: int)
    ensures goal.monthlyTarget.Some? && goal.monthlyTarget.value != 0 ==> r == goal.monthlyTarget.value
    ensures goal.monthlyTarget.None? || goal.monthlyTarget == Some(0) ==> r == 0
  {
    NumOr(goal.monthlyTarget, 0)
  }

  /** Every annotated goal with non-negative amounts draws a bar between 0% and 100%. */
  lemma DisplayedProgressInRange(g: Goal, now: int, yearBefore: int -> int)
    requires yearBefore(g.deadline) < g.deadline
    requires NumOr(g.currentAmount, 0) >= 0 && NumOr(g.targetAmount, 1) > 0
    ensures 0 <= DisplayedProgress(ProcessGoal(g, now, yearBefore)) <= 100
  {
  }

  /** The add / edit goal form; every field is the text of its input. */
  datatype GoalForm = GoalForm(name: string, targetAmount: string, currentAmount: string,
                               deadline: string, category: string, description: string)

  const EmptyGoalForm := GoalForm("", "", "", "", "", "")

  /** What `handleAddSubmit` passes to `createGoal`; `None` is NaN. */
  datatype GoalRequest = GoalRequest(form: GoalForm, targetAmount: Option<real>, currentAmount: Option<real>)

  /** `{...formData, targetAmount: parseFloat(targetAmount), currentAmount: parseFloat(currentAmount || 0)}` */
  function AddRequest(form: GoalForm, parseFloat: string -> Option<real>): (r: GoalRequest)
    ensures r.form == form && r.targetAmount == parseFloat(form.targetAmount)
    ensures form.currentAmount == "" ==> r.currentAmount == Some(0.0)
    ensures form.currentAmount != "" ==> r.currentAmount == parseFloat(form.currentAmount)
  {
    GoalRequest(form, parseFloat(form.targetAmount),
      if form.currentAmount == "" then Some(0.0) else parseFloat(form.currentAmount))
  }

  /** How a goal action came back. */
  datatype ActionResult = Success | Failure(error: Option<string>)

  class GoalsPageState {
    var showAddModal: bool
    var showContributionModal: bool
    var selectedGoal: Option<Goal>
    var selectedCategory: string
    var formData: GoalForm
    var contributionAmount: string
    var contributionNote: string

    constructor ()
      ensures !showAddModal && !showContributionModal && selectedGoal == None
      ensures selectedCategory == "" && formData == EmptyGoalForm
      ensures contributionAmount == "" && contributionNote == ""
    {
      showAddModal := false;
      showContributionModal := false;
      selectedGoal := None;
      selectedCategory := "";
      formData := EmptyGoalForm;
      contributionAmount := "";
      contributionNote := "";
    }

    /** `handleCategorySelect` */
    method HandleCategorySelect(category: string)
      modifies this
      ensures selectedCategory == category && formData == old(formData).(category := category)
      ensures showAddModal == old(showAddModal) && showContributionModal == old(showContributionModal)
      ensures selectedGoal == old(selectedGoal)
      ensures contributionAmount == old(contributionAmount) && contributionNote == old(contributionNote)
    {
      selectedCategory := category;
      formData := formData.(category := category);
    }

    /** `handleAddSubmit`: sends the form; success closes the modal and clears the
        form and the picked category, failure only alerts. */
    method HandleAddSubmit(result: ActionResult, parseFloat: string -> Option<real>) returns (sent: GoalRequest)
      modifies this
      ensures sent == AddRequest(old(formData), parseFloat)
      ensures result.Success? ==> !showAddModal && formData == EmptyGoalForm && selectedCategory == ""
      ensures result.Failure? ==> showAddModal == old(showAddModal) && formData == old(formData) && selectedCategory == old(selectedCategory)
      ensures showContributionModal == old(showContributionModal) && selectedGoal == old(selectedGoal)
      ensures contributionAmount == old(contributionAmount) && contributionNote == old(contributionNote)
    {
      sent := AddRequest(formData, parseFloat);
      if result.Success? {
        showAddModal := false;
        formData := EmptyGoalForm;
        selectedCategory := "";
      }
    }

    /** `handleContributionClick`: the contribution fields start empty. */
    method HandleContributionClick(goal: Goal)
      modifies this
      ensures selectedGoal == Some(goal) && showContributionModal
      ensures contributionAmount == "" && contributionNote == ""
      ensures showAddModal == old(showAddModal) && formData == old(formData) && selectedCategory == old(selectedCategory)
    {
      selectedGoal := Some(goal);
      contributionAmount := "";
      contributionNote := "";
      showContributionModal := true;
    }
  }
}
