/**
 * The analytics routes and the dashboard summary of the HTTP server, as
 * functions of the store's contents. The request handling itself (Express,
 * status codes, JSON) is not modelled; a handler's outcome is a `Reply`.
 * `parseInt` and `new Date(text)` are parameters: `None` stands for NaN and for
 * an invalid date.
 */
module Routes {
  import opened Seqs
  import opened Calendar
  import opened Tables
  import opened Schema
  import opened Ledger
  import opened Storage

  /** Every route acts for this one user. */
  const MockUserId: int := 1

  /** 5000 currency units, in cents: the budget used when the user has no overall budget. */
  const DefaultBudgetAmount: int := 500000

  const DefaultTrendMonths: int := 6

  datatype Reply<T> = Ok(value: T) | BadRequest(message: string)

  /** A query parameter passes `if (!value)` when it is present and not the empty string. */
  predicate Truthy(q: Option<string>) {
    q.Some? && q.value != ""
  }

  // ---------------------------------------------------------------------------
  // GET /api/analytics/monthly-total

  predicate MonthlyTotalParamsOk(year: Option<string>, month: Option<string>) {
    Truthy(year) && Truthy(month)
  }

  /**
   * Rejected before any computation unless both parameters are given; a year or
   * month that does not parse makes both bounds invalid dates, which no expense
   * date compares with, so the total is 0.
   */
  function MonthlyTotalRoute(st: MemStorage, year: Option<string>, month: Option<string>,
                             parseInt: string -> Option<int>): (r: Reply<int>)
    reads st
    ensures r.BadRequest? <==> !MonthlyTotalParamsOk(year, month)
    ensures r.BadRequest? ==> r.message == "Year and month are required"
    ensures r.Ok? && parseInt(year.value).Some? && parseInt(month.value).Some? ==>
      r.value == MonthlyTotal(st.expenses, MockUserId, parseInt(year.value).value, parseInt(month.value).value)
    ensures r.Ok? && (parseInt(year.value).None? || parseInt(month.value).None?) ==> r.value == 0
  {
    if !MonthlyTotalParamsOk(year, month) then BadRequest("Year and month are required")
    else
      match (parseInt(year.value), parseInt(month.value))
      case (Some(y), Some(m)) => Ok(st.GetMonthlyExpenseTotal(MockUserId, y, m))
      case _ => Ok(0)
  }

  // ---------------------------------------------------------------------------
  // GET /api/analytics/category-totals

  predicate CategoryTotalsParamsOk(startDate: Option<string>, endDate: Option<string>) {
    Truthy(startDate) && Truthy(endDate)
  }

  function CategoryTotalsRoute(st: MemStorage, startDate: Option<string>, endDate: Option<string>,
                               parseDate: string -> Option<Instant>): (r: Reply<seq<CategoryTotalRow>>)
    reads st
    ensures r.BadRequest? <==> !CategoryTotalsParamsOk(startDate, endDate)
    ensures r.BadRequest? ==> r.message == "Start date and end date are required"
    ensures r.Ok? && parseDate(startDate.value).Some? && parseDate(endDate.value).Some? ==>
      r.value == CategoryTotalsOf(
        ExpensesInRange(st.expenses, MockUserId, parseDate(startDate.value).value, parseDate(endDate.value).value),
        st.categories)
    ensures r.Ok? && (parseDate(startDate.value).None? || parseDate(endDate.value).None?) ==> r.value == []
  {
    if !CategoryTotalsParamsOk(startDate, endDate) then BadRequest("Start date and end date are required")
    else
      match (parseDate(startDate.value), parseDate(endDate.value))
      case (Some(s), Some(e)) => Ok(CategoryTotalsOf(ExpensesInRange(st.expenses, MockUserId, s, e), st.categories))
      case _ => Ok([])
  }

  // ---------------------------------------------------------------------------
  // GET /api/analytics/monthly-trends

  /** `months ? parseInt(months) : 6`; `None` is NaN, for which the trend loop never runs. */
  function TrendMonthsParam(months: Option<string>, parseInt: string -> Option<int>): (n: Option<int>)
    ensures !Truthy(months) ==> n == Some(DefaultTrendMonths)
    ensures Truthy(months) ==> n == parseInt(months.value)
  {
    if Truthy(months) then parseInt(months.value) else Some(DefaultTrendMonths)
  }

  function MonthlyTrendsRoute(st: MemStorage, months: Option<string>, parseInt: string -> Option<int>,
                              now: Instant): (r: seq<TrendPoint>)
    reads st
    ensures !Truthy(months) ==> |r| == DefaultTrendMonths && r == MonthlyTrends(st.expenses, MockUserId, DefaultTrendMonths, now)
    ensures Truthy(months) && parseInt(months.value).None? ==> r == []
    ensures Truthy(months) && parseInt(months.value).Some? ==>
      r == MonthlyTrends(st.expenses, MockUserId, parseInt(months.value).value, now)
  {
    match TrendMonthsParam(months, parseInt)
    case None => []
    case Some(n) => MonthlyTrends(st.expenses, MockUserId, n, now)
  }

  // ---------------------------------------------------------------------------
  // GET /api/dashboard/stats

  datatype DashboardStats = DashboardStats(
    monthlyTotal: int, budgetRemaining: int, categoriesCount: int, savingsProgress: int, budgetAmount: int)

  /** `budgets.find(b => b.isOverall)`: the position of the first overall budget, or `|bs|`. */
  function FirstOverall(bs: seq<BudgetWithCategory>): (i: nat)
    ensures i <= |bs|
    ensures i < |bs| ==> bs[i].budget.data.isOverall
    ensures forall k :: 0 <= k < i ==> !bs[k].budget.data.isOverall
  {
    if bs == [] then 0
    else if bs[0].budget.data.isOverall then 0
    else
      var i := FirstOverall(bs[1..]);
      assert forall k :: 0 < k < |bs| ==> bs[k] == bs[1..][k - 1];
      i + 1
  }

  /** The amount of the first overall budget in retrieval order, or the default when there is none. */
  function BudgetAmount(bs: seq<BudgetWithCategory>): (a: int)
    ensures (forall i :: 0 <= i < |bs| ==> !bs[i].budget.data.isOverall) ==> a == DefaultBudgetAmount
    ensures forall i :: (0 <= i < |bs| && bs[i].budget.data.isOverall
                         && (forall k :: 0 <= k < i ==> !bs[k].budget.data.isOverall)) ==> a == bs[i].budget.data.amount
  {
    var i := FirstOverall(bs);
    if i < |bs| then bs[i].budget.data.amount else DefaultBudgetAmount
  }

  /** Total of the goals' current amounts, a missing amount counting as its column default 0. */
  function SavingsProgress(goals: seq<SavingsGoalRow>): (total: int)
    ensures (forall i :: 0 <= i < |goals| ==> goals[i].data.currentAmount.GetOr(0) >= 0) ==> total >= 0
    ensures (forall i :: 0 <= i < |goals| ==> goals[i].data.currentAmount.None?) ==> total == 0
  {
    if goals == [] then 0
    else SavingsProgress(goals[..|goals| - 1]) + goals[|goals| - 1].data.currentAmount.GetOr(0)
  }

  /** The sum over a concatenation is the sum of the sums; no goals give 0. */
  lemma {:induction false} SavingsProgressConcat(a: seq<SavingsGoalRow>, b: seq<SavingsGoalRow>)
    ensures SavingsProgress(a + b) == SavingsProgress(a) + SavingsProgress(b)
    ensures SavingsProgress([]) == 0
    decreases |b|
  {
    if b != [] {
      assert (a + b)[..|a + b| - 1] == a + b[..|b| - 1];
      SavingsProgressConcat(a, b[..|b| - 1]);
    } else {
      assert a + b == a;
    }
  }

  /** A JavaScript number produced by `parseFloat` sums: a value in cents, or NaN. */
  datatype Num = Num(cents: int) | NaN

  function AddNum(x: Num, y: Num): Num {
    if x.NaN? || y.NaN? then NaN else Num(x.cents + y.cents)
  }

  /** `parseFloat(goal.currentAmount)`: a null or missing amount parses to NaN. */
  function ParseAmount(a: Option<int>): Num {
    if a.Some? then Num(a.value) else NaN
  }

  /** `goals.reduce((total, goal) => total + parseFloat(goal.currentAmount), 0)`. */
  function SavingsProgressAsWritten(goals: seq<SavingsGoalRow>): Num {
    if goals == [] then Num(0)
    else AddNum(SavingsProgressAsWritten(goals[..|goals| - 1]), ParseAmount(goals[|goals| - 1].data.currentAmount))
  }

  /**
   * The reduce as written is NaN exactly when some goal has no current amount;
   * otherwise it agrees with `SavingsProgress`.
   */
  lemma {:induction false} SavingsProgressAsWrittenNaN(goals: seq<SavingsGoalRow>)
    ensures SavingsProgressAsWritten(goals).NaN? <==> exists i :: 0 <= i < |goals| && goals[i].data.currentAmount.None?
    ensures SavingsProgressAsWritten(goals).Num? ==> SavingsProgressAsWritten(goals).cents == SavingsProgress(goals)
  {
    if goals != [] {
      var p := goals[..|goals| - 1];
      SavingsProgressAsWrittenNaN(p);
      assert forall i :: 0 <= i < |p| ==> p[i] == goals[i];
    }
  }

  /** One goal with 250.00 saved and one created without a current amount: the reported progress is NaN. */
  lemma SavingsProgressMissingAmount(now: Instant)
    ensures var goals := [Row(1, SavingsGoalData("Laptop", 100000, Some(25000), None, MockUserId, now)),
                          Row(2, SavingsGoalData("Trip", 50000, None, None, MockUserId, now))];
      SavingsProgressAsWritten(goals) == NaN && SavingsProgress(goals) == 25000
  {
    var goals := [Row(1, SavingsGoalData("Laptop", 100000, Some(25000), None, MockUserId, now)),
                  Row(2, SavingsGoalData("Trip", 50000, None, None, MockUserId, now))];
    assert goals[..1] == [goals[0]];
    assert goals[..1][..0] == [];
    assert SavingsProgress(goals[..1]) == 25000;
  }

  /**
   * The dashboard numbers for the month of `now`: the month total, the overall
   * budget (or the default) and what is left of it, unclamped, the number of
   * visible categories and the total saved.
   */
  function DashboardFor(st: MemStorage, now: Instant): (s: DashboardStats)
    reads st
    ensures s.monthlyTotal == MonthlyTotal(st.expenses, MockUserId, now.year, now.month)
    ensures s.budgetAmount == BudgetAmount(st.GetBudgets(MockUserId))
    ensures s.budgetRemaining == s.budgetAmount - s.monthlyTotal
    ensures s.budgetRemaining < 0 <==> s.monthlyTotal > s.budgetAmount
    ensures s.categoriesCount == |VisibleCategories(st.categories, MockUserId)|
    ensures s.savingsProgress == SavingsProgress(OwnedSavingsGoals(st.savingsGoals, MockUserId))
    ensures OwnedSavingsGoals(st.savingsGoals, MockUserId) == [] ==> s.savingsProgress == 0
  {
    var monthlyTotal := st.GetMonthlyExpenseTotal(MockUserId, now.year, now.month);
    var budgetAmount := BudgetAmount(st.GetBudgets(MockUserId));
    DashboardStats(
      monthlyTotal,
      budgetAmount - monthlyTotal,
      |st.GetCategories(MockUserId)|,
      SavingsProgress(st.GetSavingsGoals(MockUserId)),
      budgetAmount)
  }

  /**
   * The savings number the handler sends as written: NaN exactly when one of the
   * user's goals has no current amount, and otherwise the dashboard's corrected sum.
   */
  lemma DashboardSavingsAsWritten(st: MemStorage, now: Instant)
    ensures var goals := OwnedSavingsGoals(st.savingsGoals, MockUserId);
      && (SavingsProgressAsWritten(goals).NaN? <==> exists i :: 0 <= i < |goals| && goals[i].data.currentAmount.None?)
      && (SavingsProgressAsWritten(goals).Num? ==> SavingsProgressAsWritten(goals).cents == DashboardFor(st, now).savingsProgress)
  {
    SavingsProgressAsWrittenNaN(OwnedSavingsGoals(st.savingsGoals, MockUserId));
  }
}
