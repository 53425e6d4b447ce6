/**
 * Savings-goal pacing and the state of the savings-goals hook: progress
 * percentage, recommended monthly contribution, the on-track test, the
 * category colour table, the annotation of fetched goals and the summary
 * computed when the summary endpoint fails.
 *
 * Amounts are integers; a division the source performs on numbers is done
 * here on reals. Dates are millisecond timestamps; "the deadline less one
 * calendar year" is supplied by the caller as `yearBefore`.
 */
module SavingsGoals {
  import opened Js

  /** The month length the contribution rule divides by: 30 days in milliseconds. */
  const MsPer30Days: int := 1000 * 60 * 60 * 24 * 30

  /** A goal record as the backend sends it, with the keys the page adds. */
  datatype Goal = Goal(
    id: Option<string>,          // the `_id` key
    name: Option<string>,
    category: Option<string>,
    targetAmount: Option<int>,
    currentAmount: Option<int>,
    deadline: int,               // timestamp of `new Date(goal.deadline)`
    status: Option<string>,
    progress: Option<int>,
    monthlyTarget: Option<int>,
    onTrack: Option<bool>,
    colorClass: Option<string>,
    progressColor: Option<string>,
    rest: Record)                // every other key, carried along by the spread

  /** Background and progress-bar style tokens of a category. */
  datatype ColorPair = ColorPair(bg: string, progress: string)

  predicate IsCompleted(g: Goal)
  {
    g.status == Some("completed")
  }

  /** `calculateProgress`: the rounded percentage, capped at 100, and 0 for a zero target. */
  function CalculateProgress(current: int, target: int): (r: int)
    ensures target == 0 ==> r == 0
    ensures r <= 100
    ensures target > 0 && current >= 0 ==> 0 <= r
    ensures target > 0 && current >= target ==> r == 100
  {
    if target == 0 then 0
    else if target > 0 then
      ProgressOverPositiveTarget(current, target);
      Min(MathRound(current as real / target as real * 100.0), 100)
    else
      Min(MathRound(current as real / target as real * 100.0), 100)
  }

  /** The progress shows 100 from 99.5% of the target on, since the ratio is rounded before the cap. */
  lemma ProgressFullThreshold(current: int, target: int)
    requires target > 0
    ensures CalculateProgress(current, target) == 100 <==> 200 * current >= 199 * target
  {
    ProgressOverPositiveTarget(current, target);
    if 200 * current >= 199 * target {
      DivAtLeast(200 * current + target, 2 * target, 100);
    } else {
      DivBelow(200 * current + target, 2 * target, 100);
    }
  }

  /** For a positive target the rounded ratio is an integer quotient. */
  lemma ProgressOverPositiveTarget(current: int, target: int)
    requires target > 0
    ensures MathRound(current as real / target as real * 100.0) == (200 * current + target) / (2 * target)
    ensures current >= 0 ==> (200 * current + target) / (2 * target) >= 0
    ensures current >= target ==> (200 * current + target) / (2 * target) >= 100
  {
    assert current as real / target as real * 100.0 == (100 * current) as real / target as real;
    RoundOfQuotient(100 * current, target);
    if current >= 0 {
      DivAtLeast(200 * current + target, 2 * target, 0);
    }
    if current >= target {
      DivAtLeast(200 * current + target, 2 * target, 100);
    }
  }

  /** For a fixed positive target, more savings never show less progress. */
  lemma ProgressMonotone(c1: int, c2: int, target: int)
    requires target > 0 && c1 <= c2
    ensures CalculateProgress(c1, target) <= CalculateProgress(c2, target)
  {
    ProgressOverPositiveTarget(c1, target);
    ProgressOverPositiveTarget(c2, target);
    DivMonotone(200 * c1 + target, 200 * c2 + target, 2 * target);
  }

  /** The months left until the deadline: the least whole number of 30-day
      months covering the remaining time, and at least 1. */
  function MonthsLeft(deadline: int, now: int): (r: int)
    ensures r >= 1
    ensures r * MsPer30Days >= deadline - now
    ensures r == 1 || (r - 1) * MsPer30Days < deadline - now
  {
    CeilOfQuotient(deadline - now, MsPer30Days);
    Max(1, MathCeil((deadline - now) as real / MsPer30Days as real))
  }

  /** `calculateMonthlyTarget`: the remaining amount spread over the months
      left, rounded up. It is not clamped, so an over-funded goal yields a
      value at or below zero. */
  function CalculateMonthlyTarget(current: int, target: int, deadline: int, now: int): (r: int)
    ensures var m := MonthsLeft(deadline, now);
      r * m >= target - current > (r - 1) * m
    ensures current >= target ==> r <= 0
  {
    var m := MonthsLeft(deadline, now);
    CeilOfQuotient(target - current, m);
    MathCeil((target - current) as real / m as real)
  }

  /** `isOnTrack`: actual progress (not capped) is at least the share of the
      one-year window already elapsed, less a tolerance of 10 points. The
      window runs from `windowStart`, the deadline less one calendar year, to
      the deadline. With a zero target the ratio is +Infinity for a positive
      amount, NaN for zero and -Infinity for a negative one. */
  function IsOnTrack(current: int, target: int, deadline: int, now: int, windowStart: int): (r: bool)
    requires windowStart < deadline
    ensures target > 0 ==>
      (r <==> 100 * current * (deadline - windowStart) >=
              (100 * (now - windowStart) - 10 * (deadline - windowStart)) * target)
    ensures target == 0 ==> (r <==> current > 0)
  {
    var totalTime := (deadline - windowStart) as real;
    var timePassed := (now - windowStart) as real;
    var expectedProgress := timePassed / totalTime * 100.0;
    if target == 0 then current > 0
    else
      var actualProgress := current as real / target as real * 100.0;
      if target > 0 then
        OnTrackScaled(current, target, now - windowStart, deadline - windowStart);
        actualProgress >= expectedProgress - 10.0
      else
        actualProgress >= expectedProgress - 10.0
  }

  /** Multiplying the on-track inequality by target and window length. */
  lemma OnTrackScaled(c: int, t: int, e: int, w: int)
    requires t > 0 && w > 0
    ensures (c as real / t as real * 100.0 >= e as real / w as real * 100.0 - 10.0) <==>
            (100 * c * w >= (100 * e - 10 * w) * t)
  {
    var a := c as real / t as real;
    var b := e as real / w as real;
    assert a * t as real == c as real;
    assert b * w as real == e as real;
    var tw := (t * w) as real;
    assert tw > 0.0;
    assert (a * 100.0) * tw == (100 * c * w) as real;
    assert (b * 100.0 - 10.0) * tw == ((100 * e - 10 * w) * t) as real;
    ScaleOrder(a * 100.0, b * 100.0 - 10.0, tw);
  }

  lemma ScaleOrder(x: real, y: real, k: real)
    requires k > 0.0
    ensures x >= y <==> x * k >= y * k
  {
    if x >= y {
      assert (x - y) * k >= 0.0;
    } else {
      assert (y - x) * k > 0.0;
    }
  }

  /** Before the window opens, any non-negative saving is on track. */
  lemma OnTrackBeforeWindow(current: int, target: int, deadline: int, now: int, windowStart: int)
    requires windowStart < deadline && target > 0 && current >= 0 && now <= windowStart
    ensures IsOnTrack(current, target, deadline, now, windowStart)
  {
    var w := deadline - windowStart;
    assert 100 * current * w >= 0;
    assert (100 * (now - windowStart) - 10 * w) * target <= 0;
  }

  /** A fully funded goal is on track up to its deadline. */
  lemma OnTrackWhenFunded(current: int, target: int, deadline: int, now: int, windowStart: int)
    requires windowStart < deadline && target > 0 && current >= target && now <= deadline
    ensures IsOnTrack(current, target, deadline, now, windowStart)
  {
    var w := deadline - windowStart;
    var e := now - windowStart;
    assert 100 * current * w >= 100 * target * w;
    assert (100 * e - 10 * w) * target <= 100 * w * target;
  }

  /** The style pairs of the six known categories (`colorMap`). */
  const CategoryColors: map<string, ColorPair> := map[
    "vacation" := ColorPair("bg-amber-50", "bg-amber-500"),
    "emergency" := ColorPair("bg-rose-50", "bg-rose-500"),
    "tech" := ColorPair("bg-blue-50", "bg-blue-500"),
    "home" := ColorPair("bg-emerald-50", "bg-emerald-500"),
    "career" := ColorPair("bg-purple-50", "bg-purple-500"),
    "entertainment" := ColorPair("bg-pink-50", "bg-pink-500")]

  /** The neutral pair for every other category. */
  const NeutralColors: ColorPair := ColorPair("bg-slate-50", "bg-slate-500")

  predicate KnownCategory(category: Option<string>)
  {
    category.Some? && category.value in CategoryColors
  }

  /** `getCategoryColorClass`: table lookup with the neutral pair as default. */
  function GetCategoryColorClass(category: Option<string>): (r: ColorPair)
    ensures KnownCategory(category) ==> r == CategoryColors[category.value]
    ensures !KnownCategory(category) ==> r == NeutralColors
  {
    if KnownCategory(category) then CategoryColors[category.value] else NeutralColors
  }

  /** The lookup is total and tells the categories apart: the neutral pair is
      returned exactly for unknown categories, and two known categories never
      share a pair. */
  lemma ColorClassDistinct(a: Option<string>, b: Option<string>)
    ensures GetCategoryColorClass(a) == NeutralColors <==> !KnownCategory(a)
    ensures KnownCategory(a) && KnownCategory(b) && a != b ==>
      GetCategoryColorClass(a) != GetCategoryColorClass(b)
  {
  }

  /** The keys a goal had before annotation are unchanged. */
  predicate SameBase(r: Goal, g: Goal)
  {
    && r.id == g.id && r.name == g.name && r.category == g.category
    && r.targetAmount == g.targetAmount && r.currentAmount == g.currentAmount
    && r.deadline == g.deadline && r.status == g.status && r.rest == g.rest
  }

  /** One step of `processGoals`. A completed goal only gets `progress = 100`.
      Any other goal gets all five derived keys, computed with a missing or
      zero amount read as 0 and a missing or zero target read as 1. */
  function ProcessGoal(g: Goal, now: int, yearBefore: int -> int): (r: Goal)
    requires yearBefore(g.deadline) < g.deadline
    ensures SameBase(r, g)
    ensures IsCompleted(g) ==> r == g.(progress := Some(100))
    ensures !IsCompleted(g) ==>
      r.progress.Some? && r.monthlyTarget.Some? && r.onTrack.Some? &&
      r.colorClass.Some? && r.progressColor.Some?
    ensures !IsCompleted(g) ==> r.progress == Some(CalculateProgress(NumOr(g.currentAmount, 0), NumOr(g.targetAmount, 1)))
    ensures !IsCompleted(g) ==>
      r.monthlyTarget == Some(CalculateMonthlyTarget(NumOr(g.currentAmount, 0), NumOr(g.targetAmount, 1), g.deadline, now))
    ensures !IsCompleted(g) ==>
      r.onTrack == Some(IsOnTrack(NumOr(g.currentAmount, 0), NumOr(g.targetAmount, 1), g.deadline, now, yearBefore(g.deadline)))
    ensures !IsCompleted(g) ==>
      r.colorClass == Some(GetCategoryColorClass(g.category).bg) &&
      r.progressColor == Some(GetCategoryColorClass(g.category).progress)
    ensures !IsCompleted(g) && NumOr(g.currentAmount, 0) >= 0 && NumOr(g.targetAmount, 1) > 0 ==>
      0 <= r.progress.value <= 100
  {
    var current := NumOr(g.currentAmount, 0);
    var target := NumOr(g.targetAmount, 1);
    var progress := CalculateProgress(current, target);
    var colors := GetCategoryColorClass(g.category);
    if IsCompleted(g) then
      g.(progress := Some(100))
    else
      g.(progress := Some(progress),
         monthlyTarget := Some(CalculateMonthlyTarget(current, target, g.deadline, now)),
         onTrack := Some(IsOnTrack(current, target, g.deadline, now, yearBefore(g.deadline))),
         colorClass := Some(colors.bg),
         progressColor := Some(colors.progress))
  }

  /** A missing or zero target is the same as a target of 1, for every derived key. */
  lemma ZeroTargetReadAsOne(g: Goal, now: int, yearBefore: int -> int)
    requires yearBefore(g.deadline) < g.deadline
    requires g.targetAmount == None || g.targetAmount == Some(0)
    ensures var r := ProcessGoal(g, now, yearBefore);
      r == ProcessGoal(g.(targetAmount := Some(1)), now, yearBefore).(targetAmount := g.targetAmount)
    ensures !IsCompleted(g) ==>
      ProcessGoal(g, now, yearBefore).progress == Some(CalculateProgress(NumOr(g.currentAmount, 0), 1))
  {
  }

  /** `processGoals`: anything that is not an array gives the empty list;
      otherwise every goal is annotated in place, keeping length and order. */
  function ProcessGoals(goalsData: Option<seq<Goal>>, now: int, yearBefore: int -> int): (r: seq<Goal>)
    requires forall d :: yearBefore(d) < d
    ensures goalsData == None ==> r == []
    ensures goalsData.Some? ==> |r| == |goalsData.value|
    ensures goalsData.Some? ==> forall i :: 0 <= i < |r| ==>
      r[i] == ProcessGoal(goalsData.value[i], now, yearBefore) && SameBase(r[i], goalsData.value[i])
  {
    match goalsData
    case None => []
    case Some(gs) => seq(|gs|, i requires 0 <= i < |gs| => ProcessGoal(gs[i], now, yearBefore))
  }

  /** The hook's summary of the goal list. */
  datatype GoalsSummary = GoalsSummary(activeGoals: int, totalSaved: int, averageProgress: int, completedGoals: int)

  const EmptySummary: GoalsSummary := GoalsSummary(0, 0, 0, 0)

  /** `goals.filter(g => g.status === status)` */
  function WithStatus(gs: seq<Goal>, status: string): (r: seq<Goal>)
    ensures |r| <= |gs|
    ensures forall g :: g in r ==> g in gs && g.status == Some(status)
    ensures forall g :: g in gs && g.status == Some(status) ==> g in r
    ensures forall g :: multiset(r)[g] == if g.status == Some(status) then multiset(gs)[g] else 0
  {
    if gs == [] then []
    else
      var tail := WithStatus(gs[1..], status);
      assert gs == [gs[0]] + gs[1..];
      if gs[0].status == Some(status) then [gs[0]] + tail else tail
  }

  /** Filtering keeps order: the filter of two lists joined is the two filters joined. */
  lemma {:induction false} WithStatusAppend(xs: seq<Goal>, ys: seq<Goal>, status: string)
    ensures WithStatus(xs + ys, status) == WithStatus(xs, status) + WithStatus(ys, status)
  {
    if xs == [] {
      assert xs + ys == ys;
    } else {
      assert (xs + ys)[0] == xs[0] && (xs + ys)[1..] == xs[1..] + ys;
      WithStatusAppend(xs[1..], ys, status);
    }
  }

  /** Sum of `currentAmount || 0`. */
  function TotalCurrent(gs: seq<Goal>): int
  {
    if gs == [] then 0 else NumOr(gs[0].currentAmount, 0) + TotalCurrent(gs[1..])
  }

  /** Sum of `progress || 0`. */
  function TotalProgress(gs: seq<Goal>): int
  {
    if gs == [] then 0 else NumOr(gs[0].progress, 0) + TotalProgress(gs[1..])
  }

  /** `a` is within half of `total / count` from below and less than half from
      above, or there are no values to average. */
  predicate NearestToMean(a: int, total: int, count: nat)
  {
    count > 0 ==> (2 * a - 1) * count <= 2 * total < (2 * a + 1) * count
  }

  /** `count > 0 ? Math.round(total / count) : 0`: the integer nearest the mean,
      halves rounding up, and 0 for no values. */
  function RoundedMean(total: int, count: nat): (a: int)
    ensures count == 0 ==> a == 0
    ensures NearestToMean(a, total, count)
  {
    if count > 0 then
      RoundedQuotientBounds(total, count);
      MathRound(total as real / count as real)
    else 0
  }

  /** The summary computed from the raw goal list when the summary call fails:
      counts by status, the saved amount and the rounded mean progress of the
      active goals. The progress read here is the backend's own `progress`
      key, since the raw list, not the annotated one, is used. */
  function FallbackSummary(gs: seq<Goal>): (r: GoalsSummary)
    ensures r.activeGoals == |WithStatus(gs, "active")|
    ensures r.completedGoals == |WithStatus(gs, "completed")|
    ensures r.totalSaved == TotalCurrent(WithStatus(gs, "active"))
    ensures r.activeGoals == 0 ==> r.averageProgress == 0
    ensures NearestToMean(r.averageProgress, TotalProgress(WithStatus(gs, "active")), r.activeGoals)
  {
    var active := WithStatus(gs, "active");
    var completed := WithStatus(gs, "completed");
    GoalsSummary(
      |active|,
      TotalCurrent(active),
      RoundedMean(TotalProgress(active), |active|),
      |completed|)
  }

  /** No goal is both active and completed, so the two counts never exceed the list. */
  lemma {:induction false} StatusCountsBounded(gs: seq<Goal>)
    ensures |WithStatus(gs, "active")| + |WithStatus(gs, "completed")| <= |gs|
  {
    if gs != [] {
      StatusCountsBounded(gs[1..]);
    }
  }

  lemma {:induction false} TotalProgressBounds(gs: seq<Goal>)
    requires forall i :: 0 <= i < |gs| ==> 0 <= NumOr(gs[i].progress, 0) <= 100
    ensures 0 <= TotalProgress(gs) <= 100 * |gs|
  {
    if gs != [] {
      TotalProgressBounds(gs[1..]);
    }
  }

  lemma {:induction false} WithStatusElements(gs: seq<Goal>, status: string, i: int)
    requires 0 <= i < |WithStatus(gs, status)|
    ensures WithStatus(gs, status)[i] in gs
  {
    assert WithStatus(gs, status)[i] in WithStatus(gs, status);
  }

  /** When every goal's reported progress lies in [0,100], so does the fallback mean. */
  lemma AverageProgressInRange(gs: seq<Goal>)
    requires forall g :: g in gs ==> 0 <= NumOr(g.progress, 0) <= 100
    ensures 0 <= FallbackSummary(gs).averageProgress <= 100
  {
    var active := WithStatus(gs, "active");
    forall i | 0 <= i < |active|
      ensures 0 <= NumOr(active[i].progress, 0) <= 100
    {
      WithStatusElements(gs, "active", i);
    }
    TotalProgressBounds(active);
    if |active| > 0 {
      MeanInRange(TotalProgress(active), |active|);
    }
  }

  /** The rounded mean of n values in [0,100] lies in [0,100]. */
  lemma MeanInRange(s: int, n: int)
    requires n > 0 && 0 <= s <= 100 * n
    ensures 0 <= RoundedMean(s, n) <= 100
  {
    RoundOfQuotient(s, n);
    DivAtLeast(2 * s + n, 2 * n, 0);
    DivBelow(2 * s + n, 2 * n, 101);
  }

  /** With non-negative amounts the saved total is non-negative. */
  lemma {:induction false} TotalCurrentNonNegative(gs: seq<Goal>)
    requires forall i :: 0 <= i < |gs| ==> NumOr(gs[i].currentAmount, 0) >= 0
    ensures TotalCurrent(gs) >= 0
  {
    if gs != [] {
      TotalCurrentNonNegative(gs[1..]);
    }
  }

  /** The state of `useSavingsGoals`. */
  class GoalsHook {
    var loading: bool
    var error: Option<string>
    var goals: seq<Goal>
    var summary: GoalsSummary

    constructor ()
      ensures loading && error == None && goals == [] && summary == EmptySummary
    {
      loading := true;
      error := None;
      goals := [];
      summary := EmptySummary;
    }

    /** `fetchGoals`, given the settled goals and summary calls. Goals arrive
        annotated when the goals call returned a list and are emptied
        otherwise; the summary is the backend's when it sent one and is
        computed from the raw goals otherwise. */
    method FetchGoals(goalsResponse: Settled<Option<seq<Goal>>>, summaryResponse: Settled<Option<GoalsSummary>>,
                      now: int, yearBefore: int -> int)
      requires forall d :: yearBefore(d) < d
      modifies this
      ensures !loading && error == None
      ensures var raw := if goalsResponse.Fulfilled? && goalsResponse.value.Some? then goalsResponse.value.value else [];
        && goals == (if goalsResponse.Fulfilled? && goalsResponse.value.Some? then ProcessGoals(goalsResponse.value, now, yearBefore) else [])
        && summary == (if summaryResponse.Fulfilled? && summaryResponse.value.Some? then summaryResponse.value.value
                       else FallbackSummary(raw))
    {
      loading := true;
      error := None;
      var gotGoals := goalsResponse.Fulfilled? && goalsResponse.value.Some?;
      if gotGoals {
        goals := ProcessGoals(goalsResponse.value, now, yearBefore);
      } else {
        goals := [];
      }
      if summaryResponse.Fulfilled? && summaryResponse.value.Some? {
        summary := summaryResponse.value.value;
      } else {
        var currentGoals := if gotGoals then goalsResponse.value.value else [];
        summary := FallbackSummary(currentGoals);
      }
      loading := false;
    }
  }
}
