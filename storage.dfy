/**
 * `MemStorage`: five tables keyed by id, each with its own id counter starting
 * at 1, seeded with the eight shared default categories.
 */
module Storage {
  import opened Seqs
  import opened Calendar
  import opened Tables
  import opened Schema
  import opened Ledger

  datatype DefaultCategory = DefaultCategory(name: string, icon: string, color: string)

  const DefaultCategories: seq<DefaultCategory> := [
    DefaultCategory("Food & Drinks", "\U{1F355}", "#F44336"),
    DefaultCategory("Transportation", "\U{1F697}", "#2196F3"),
    DefaultCategory("Shopping", "\U{1F6CD}\U{FE0F}", "#4CAF50"),
    DefaultCategory("Entertainment", "\U{1F3AC}", "#9C27B0"),
    DefaultCategory("Health & Medical", "\U{1F3E5}", "#FF9800"),
    DefaultCategory("Utilities", "\U{1F4A1}", "#607D8B"),
    DefaultCategory("Travel", "\U{2708}\U{FE0F}", "#FF5722"),
    DefaultCategory("Education", "\U{1F4DA}", "#3F51B5")
  ]

  /** The category table right after seeding: ids 1 to 8, shared (no owner), not custom. */
  function DefaultCategoryRows(): (r: seq<CategoryRow>)
    ensures |r| == 8
    ensures forall i :: 0 <= i < 8 ==> r[i].id == i + 1 && r[i].data.userId.None? && !r[i].data.isCustom
    ensures forall i :: 0 <= i < 8 ==> r[i].data.name == DefaultCategories[i].name
  {
    seq(8, i requires 0 <= i < 8 =>
      Row(i + 1, CategoryData(DefaultCategories[i].name, DefaultCategories[i].icon, DefaultCategories[i].color, false, None)))
  }

  datatype ExpenseWithCategory = ExpenseWithCategory(expense: ExpenseRow, category: Option<CategoryRow>)
  datatype BudgetWithCategory = BudgetWithCategory(budget: BudgetRow, category: Option<CategoryRow>)

  /** `categories.get(id)` as a whole record. */
  function CategoryRowOf(cats: seq<CategoryRow>, id: int): (r: Option<CategoryRow>)
    ensures r.Some? <==> Get(cats, id).Some?
    ensures r.Some? ==> r.value == Row(id, Get(cats, id).value)
  {
    match Get(cats, id)
    case None => None
    case Some(c) => Some(Row(id, c))
  }

  /** `map(expense => ({ ...expense, category: categories.get(expense.categoryId)! }))`; the `!` checks nothing. */
  function WithCategory(xs: seq<ExpenseRow>, cats: seq<CategoryRow>): (r: seq<ExpenseWithCategory>)
    ensures |r| == |xs|
    ensures forall i :: 0 <= i < |xs| ==> r[i] == ExpenseWithCategory(xs[i], CategoryRowOf(cats, xs[i].data.categoryId))
  {
    seq(|xs|, i requires 0 <= i < |xs| => ExpenseWithCategory(xs[i], CategoryRowOf(cats, xs[i].data.categoryId)))
  }

  /** `getExpenses`: the user's expenses, newest first, cut to `limit` when it is truthy, each with its category. */
  function ListExpenses(t: seq<ExpenseRow>, cats: seq<CategoryRow>, userId: int, limit: Option<int>): seq<ExpenseWithCategory> {
    WithCategory(ApplyLimit(SortByDateDesc(OwnedExpenses(t, userId)), limit), cats)
  }

  /** The expense records of a joined list, dropping the categories. */
  function ExpensesOf(r: seq<ExpenseWithCategory>): (xs: seq<ExpenseRow>)
    ensures |xs| == |r| && forall i :: 0 <= i < |r| ==> xs[i] == r[i].expense
  {
    seq(|r|, i requires 0 <= i < |r| => r[i].expense)
  }

  /**
   * The list holds only the user's own expenses, newest first, each joined with
   * its category; without a limit it holds all of them, with a positive limit
   * the first `limit` of them.
   */
  lemma ListExpensesSpec(t: seq<ExpenseRow>, cats: seq<CategoryRow>, userId: int, limit: Option<int>)
    ensures var r := ListExpenses(t, cats, userId, limit);
      && (forall i :: 0 <= i < |r| ==> r[i].expense in t && r[i].expense.data.userId == userId)
      && (forall i, j :: 0 <= i < j < |r| ==> AtOrBefore(r[j].expense.data.date, r[i].expense.data.date))
      && (forall i :: 0 <= i < |r| ==> r[i].category == CategoryRowOf(cats, r[i].expense.data.categoryId))
      && (limit.None? || limit == Some(0) ==> multiset(ExpensesOf(r)) == multiset(OwnedExpenses(t, userId)))
      && (limit.Some? && limit.value > 0 ==>
            |r| == if limit.value < |OwnedExpenses(t, userId)| then limit.value else |OwnedExpenses(t, userId)|)
      && ExpensesOf(r) == SortByDateDesc(OwnedExpenses(t, userId))[..|r|]
  {
    var owned := OwnedExpenses(t, userId);
    var sorted := SortByDateDesc(owned);
    var limited := ApplyLimit(sorted, limit);
    var r := WithCategory(limited, cats);
    assert r == ListExpenses(t, cats, userId, limit);
    forall i | 0 <= i < |r| ensures r[i].expense in t && r[i].expense.data.userId == userId {
      assert r[i].expense == sorted[i];
      assert sorted[i] in multiset(owned);
    }
    forall i, j | 0 <= i < j < |r| ensures AtOrBefore(r[j].expense.data.date, r[i].expense.data.date) {
      assert r[i].expense == sorted[i] && r[j].expense == sorted[j];
    }
    assert ExpensesOf(r) == limited;
    if limit.None? || limit == Some(0) {
      assert ExpensesOf(r) == sorted;
    }
  }

  /** A budget's category is looked up only when its `categoryId` is truthy (present and not 0). */
  function BudgetCategory(b: BudgetRow, cats: seq<CategoryRow>): Option<CategoryRow> {
    if b.data.categoryId.Some? && b.data.categoryId.value != 0 then CategoryRowOf(cats, b.data.categoryId.value) else None
  }

  class MemStorage {
    var users: seq<Row<UserData>>
    var categories: seq<CategoryRow>
    var expenses: seq<ExpenseRow>
    var budgets: seq<BudgetRow>
    var savingsGoals: seq<SavingsGoalRow>
    var currentUserId: int
    var currentCategoryId: int
    var currentExpenseId: int
    var currentBudgetId: int
    var currentSavingsGoalId: int

    /** Every table holds ascending ids below its counter, so the counter is always a fresh id. */
    ghost predicate Valid()
      reads this
    {
      && currentUserId >= 1 && currentCategoryId >= 1 && currentExpenseId >= 1
      && currentBudgetId >= 1 && currentSavingsGoalId >= 1
      && WellFormed(users, currentUserId)
      && WellFormed(categories, currentCategoryId)
      && WellFormed(expenses, currentExpenseId)
      && WellFormed(budgets, currentBudgetId)
      && WellFormed(savingsGoals, currentSavingsGoalId)
    }

    constructor ()
      ensures Valid()
      ensures users == [] && expenses == [] && budgets == [] && savingsGoals == []
      ensures categories == DefaultCategoryRows()
      ensures currentUserId == 1 && currentCategoryId == 9 && currentExpenseId == 1
      ensures currentBudgetId == 1 && currentSavingsGoalId == 1
    {
      users, categories, expenses, budgets, savingsGoals := [], [], [], [], [];
      currentUserId, currentCategoryId, currentExpenseId, currentBudgetId, currentSavingsGoalId := 1, 1, 1, 1, 1;
      new;
      InitializeDefaultCategories();
    }

    /** Store each default category under the next category id. */
    method InitializeDefaultCategories()
      requires categories == [] && currentCategoryId == 1
      modifies this`categories, this`currentCategoryId
      ensures categories == DefaultCategoryRows() && currentCategoryId == 9
    {
      var i := 0;
      while i < |DefaultCategories|
        invariant 0 <= i <= |DefaultCategories|
        invariant currentCategoryId == i + 1
        invariant categories == DefaultCategoryRows()[..i]
      {
        var d := DefaultCategories[i];
        var category := Row(currentCategoryId, CategoryData(d.name, d.icon, d.color, false, None));
        currentCategoryId := currentCategoryId + 1;
        assert forall k :: 0 <= k < |categories| ==> categories[k].id != category.id;
        categories := categories + [category];
        assert categories == DefaultCategoryRows()[..i] + [DefaultCategoryRows()[i]];
        assert DefaultCategoryRows()[..i + 1] == DefaultCategoryRows()[..i] + [DefaultCategoryRows()[i]];
        i := i + 1;
      }
      assert DefaultCategoryRows()[..8] == DefaultCategoryRows();
    }

    // -------------------------------------------------------------------------
    // Users

    function GetUser(id: int): Option<UserData>
      reads this
    {
      Get(users, id)
    }

    /** `find` over the users in table order: the first with that username. */
    function GetUserByUsername(username: string): Option<Row<UserData>>
      reads this
    {
      var i := FirstUserIndex(users, username);
      if i < |users| then Some(users[i]) else None
    }

    method CreateUser(user: UserData) returns (r: Row<UserData>)
      requires Valid()
      modifies this
      ensures Valid()
      ensures r == Row(old(currentUserId), user)
      ensures currentUserId == old(currentUserId) + 1
      ensures Get(old(users), r.id).None? && users == old(users) + [r]
      ensures categories == old(categories) && expenses == old(expenses)
      ensures budgets == old(budgets) && savingsGoals == old(savingsGoals)
      ensures currentCategoryId == old(currentCategoryId) && currentExpenseId == old(currentExpenseId)
      ensures currentBudgetId == old(currentBudgetId) && currentSavingsGoalId == old(currentSavingsGoalId)
    {
      var id := currentUserId;
      currentUserId := currentUserId + 1;
      r := Row(id, user);
      InsertFreshWellFormed(users, id, user);
      users := users + [r];
    }

    // -------------------------------------------------------------------------
    // Categories

    function GetCategories(userId: int): seq<CategoryRow>
      reads this
    {
      VisibleCategories(categories, userId)
    }

    method CreateCategory(category: CategoryData) returns (r: CategoryRow)
      requires Valid()
      modifies this
      ensures Valid()
      ensures r == Row(old(currentCategoryId), category)
      ensures currentCategoryId == old(currentCategoryId) + 1
      ensures Get(old(categories), r.id).None? && categories == old(categories) + [r]
      ensures users == old(users) && expenses == old(expenses)
      ensures budgets == old(budgets) && savingsGoals == old(savingsGoals)
      ensures currentUserId == old(currentUserId) && currentExpenseId == old(currentExpenseId)
      ensures currentBudgetId == old(currentBudgetId) && currentSavingsGoalId == old(currentSavingsGoalId)
    {
      var id := currentCategoryId;
      currentCategoryId := currentCategoryId + 1;
      r := Row(id, category);
      InsertFreshWellFormed(categories, id, category);
      categories := categories + [r];
    }

    method UpdateCategory(id: int, patch: CategoryPatch) returns (r: Option<CategoryRow>)
      requires Valid()
      modifies this
      ensures Valid()
      ensures Get(old(categories), id).None? ==> r.None? && categories == old(categories)
      ensures Get(old(categories), id).Some? ==>
        r == Some(Row(id, MergeCategory(Get(old(categories), id).value, patch)))
        && categories == Set(old(categories), id, r.value.data)
      ensures users == old(users) && expenses == old(expenses)
      ensures budgets == old(budgets) && savingsGoals == old(savingsGoals)
      ensures currentUserId == old(currentUserId) && currentCategoryId == old(currentCategoryId)
      ensures currentExpenseId == old(currentExpenseId)
      ensures currentBudgetId == old(currentBudgetId) && currentSavingsGoalId == old(currentSavingsGoalId)
    {
      var existing := Get(categories, id);
      if existing.None? {
        return None;
      }
      var updated := MergeCategory(existing.value, patch);
      ReplaceWellFormed(categories, currentCategoryId, id, updated);
      categories := Set(categories, id, updated);
      r := Some(Row(id, updated));
    }

    method DeleteCategory(id: int) returns (deleted: bool)
      requires Valid()
      modifies this
      ensures Valid()
      ensures deleted == Get(old(categories), id).Some?
      ensures categories == Delete(old(categories), id)
      ensures users == old(users) && expenses == old(expenses)
      ensures budgets == old(budgets) && savingsGoals == old(savingsGoals)
      ensures currentUserId == old(currentUserId) && currentCategoryId == old(currentCategoryId)
      ensures currentExpenseId == old(currentExpenseId)
      ensures currentBudgetId == old(currentBudgetId) && currentSavingsGoalId == old(currentSavingsGoalId)
    {
      deleted := Get(categories, id).Some?;
      DeleteWellFormed(categories, currentCategoryId, id);
      categories := Delete(categories, id);
    }

    // -------------------------------------------------------------------------
    // Expenses

    function GetExpenses(userId: int, limit: Option<int>): seq<ExpenseWithCategory>
      reads this
    {
      ListExpenses(expenses, categories, userId, limit)
    }

    function GetExpensesByDateRange(userId: int, startDate: Instant, endDate: Instant): seq<ExpenseWithCategory>
      reads this
    {
      WithCategory(ExpensesInRange(expenses, userId, startDate, endDate), categories)
    }

    function GetExpensesByCategory(userId: int, categoryId: int): seq<ExpenseWithCategory>
      reads this
    {
      WithCategory(ExpensesOfCategory(expenses, userId, categoryId), categories)
    }

    /** The new expense gets the current counter value as id and `now` as `createdAt`. */
    method CreateExpense(expense: InsertExpense, now: Instant) returns (r: ExpenseRow)
      requires Valid()
      modifies this
      ensures Valid()
      ensures r == Row(old(currentExpenseId), NewExpense(expense, now))
      ensures currentExpenseId == old(currentExpenseId) + 1
      ensures Get(old(expenses), r.id).None? && expenses == old(expenses) + [r]
      ensures users == old(users) && categories == old(categories)
      ensures budgets == old(budgets) && savingsGoals == old(savingsGoals)
      ensures currentUserId == old(currentUserId) && currentCategoryId == old(currentCategoryId)
      ensures currentBudgetId == old(currentBudgetId) && currentSavingsGoalId == old(currentSavingsGoalId)
    {
      var id := currentExpenseId;
      currentExpenseId := currentExpenseId + 1;
      r := Row(id, NewExpense(expense, now));
      InsertFreshWellFormed(expenses, id, r.data);
      expenses := expenses + [r];
    }

    method UpdateExpense(id: int, patch: ExpensePatch) returns (r: Option<ExpenseRow>)
      requires Valid()
      modifies this
      ensures Valid()
      ensures Get(old(expenses), id).None? ==> r.None? && expenses == old(expenses)
      ensures Get(old(expenses), id).Some? ==>
        r == Some(Row(id, MergeExpense(Get(old(expenses), id).value, patch)))
        && expenses == Set(old(expenses), id, r.value.data)
      ensures users == old(users) && categories == old(categories)
      ensures budgets == old(budgets) && savingsGoals == old(savingsGoals)
      ensures currentUserId == old(currentUserId) && currentCategoryId == old(currentCategoryId)
      ensures currentExpenseId == old(currentExpenseId)
      ensures currentBudgetId == old(currentBudgetId) && currentSavingsGoalId == old(currentSavingsGoalId)
    {
      var existing := Get(expenses, id);
      if existing.None? {
        return None;
      }
      var updated := MergeExpense(existing.value, patch);
      ReplaceWellFormed(expenses, currentExpenseId, id, updated);
      expenses := Set(expenses, id, updated);
      r := Some(Row(id, updated));
    }

    method DeleteExpense(id: int) returns (deleted: bool)
      requires Valid()
      modifies this
      ensures Valid()
      ensures deleted == Get(old(expenses), id).Some?
      ensures expenses == Delete(old(expenses), id)
      ensures users == old(users) && categories == old(categories)
      ensures budgets == old(budgets) && savingsGoals == old(savingsGoals)
      ensures currentUserId == old(currentUserId) && currentCategoryId == old(currentCategoryId)
      ensures currentExpenseId == old(currentExpenseId)
      ensures currentBudgetId == old(currentBudgetId) && currentSavingsGoalId == old(currentSavingsGoalId)
    {
      deleted := Get(expenses, id).Some?;
      DeleteWellFormed(expenses, currentExpenseId, id);
      expenses := Delete(expenses, id);
    }

    // -------------------------------------------------------------------------
    // Budgets

    function GetBudgets(userId: int): (r: seq<BudgetWithCategory>)
      reads this
      ensures |r| == |OwnedBudgets(budgets, userId)|
      ensures forall i :: 0 <= i < |r| ==>
        r[i].budget == OwnedBudgets(budgets, userId)[i] && r[i].category == BudgetCategory(r[i].budget, categories)
    {
      var owned, cats := OwnedBudgets(budgets, userId), categories;
      seq(|owned|, i requires 0 <= i < |owned| => BudgetWithCategory(owned[i], BudgetCategory(owned[i], cats)))
    }

    method CreateBudget(budget: BudgetData) returns (r: BudgetRow)
      requires Valid()
      modifies this
      ensures Valid()
      ensures r == Row(old(currentBudgetId), budget)
      ensures currentBudgetId == old(currentBudgetId) + 1
      ensures Get(old(budgets), r.id).None? && budgets == old(budgets) + [r]
      ensures users == old(users) && categories == old(categories)
      ensures expenses == old(expenses) && savingsGoals == old(savingsGoals)
      ensures currentUserId == old(currentUserId) && currentCategoryId == old(currentCategoryId)
      ensures currentExpenseId == old(currentExpenseId) && currentSavingsGoalId == old(currentSavingsGoalId)
    {
      var id := currentBudgetId;
      currentBudgetId := currentBudgetId + 1;
      r := Row(id, budget);
      InsertFreshWellFormed(budgets, id, budget);
      budgets := budgets + [r];
    }

    method UpdateBudget(id: int, patch: BudgetPatch) returns (r: Option<BudgetRow>)
      requires Valid()
      modifies this
      ensures Valid()
      ensures Get(old(budgets), id).None? ==> r.None? && budgets == old(budgets)
      ensures Get(old(budgets), id).Some? ==>
        r == Some(Row(id, MergeBudget(Get(old(budgets), id).value, patch)))
        && budgets == Set(old(budgets), id, r.value.data)
      ensures users == old(users) && categories == old(categories)
      ensures expenses == old(expenses) && savingsGoals == old(savingsGoals)
      ensures currentUserId == old(currentUserId) && currentCategoryId == old(currentCategoryId)
      ensures currentExpenseId == old(currentExpenseId)
      ensures currentBudgetId == old(currentBudgetId) && currentSavingsGoalId == old(currentSavingsGoalId)
    {
      var existing := Get(budgets, id);
      if existing.None? {
        return None;
      }
      var updated := MergeBudget(existing.value, patch);
      ReplaceWellFormed(budgets, currentBudgetId, id, updated);
      budgets := Set(budgets, id, updated);
      r := Some(Row(id, updated));
    }

    method DeleteBudget(id: int) returns (deleted: bool)
      requires Valid()
      modifies this
      ensures Valid()
      ensures deleted == Get(old(budgets), id).Some?
      ensures budgets == Delete(old(budgets), id)
      ensures users == old(users) && categories == old(categories)
      ensures expenses == old(expenses) && savingsGoals == old(savingsGoals)
      ensures currentUserId == old(currentUserId) && currentCategoryId == old(currentCategoryId)
      ensures currentExpenseId == old(currentExpenseId)
      ensures currentBudgetId == old(currentBudgetId) && currentSavingsGoalId == old(currentSavingsGoalId)
    {
      deleted := Get(budgets, id).Some?;
      DeleteWellFormed(budgets, currentBudgetId, id);
      budgets := Delete(budgets, id);
    }

    // -------------------------------------------------------------------------
    // Savings goals

    function GetSavingsGoals(userId: int): seq<SavingsGoalRow>
      reads this
    {
      OwnedSavingsGoals(savingsGoals, userId)
    }

    method CreateSavingsGoal(goal: InsertSavingsGoal, now: Instant) returns (r: SavingsGoalRow)
      requires Valid()
      modifies this
      ensures Valid()
      ensures r == Row(old(currentSavingsGoalId), NewSavingsGoal(goal, now))
      ensures currentSavingsGoalId == old(currentSavingsGoalId) + 1
      ensures Get(old(savingsGoals), r.id).None? && savingsGoals == old(savingsGoals) + [r]
      ensures users == old(users) && categories == old(categories)
      ensures expenses == old(expenses) && budgets == old(budgets)
      ensures currentUserId == old(currentUserId) && currentCategoryId == old(currentCategoryId)
      ensures currentExpenseId == old(currentExpenseId) && currentBudgetId == old(currentBudgetId)
    {
      var id := currentSavingsGoalId;
      currentSavingsGoalId := currentSavingsGoalId + 1;
      r := Row(id, NewSavingsGoal(goal, now));
      InsertFreshWellFormed(savingsGoals, id, r.data);
      savingsGoals := savingsGoals + [r];
    }

    method UpdateSavingsGoal(id: int, patch: SavingsGoalPatch) returns (r: Option<SavingsGoalRow>)
      requires Valid()
      modifies this
      ensures Valid()
      ensures Get(old(savingsGoals), id).None? ==> r.None? && savingsGoals == old(savingsGoals)
      ensures Get(old(savingsGoals), id).Some? ==>
        r == Some(Row(id, MergeSavingsGoal(Get(old(savingsGoals), id).value, patch)))
        && savingsGoals == Set(old(savingsGoals), id, r.value.data)
      ensures users == old(users) && categories == old(categories)
      ensures expenses == old(expenses) && budgets == old(budgets)
      ensures currentUserId == old(currentUserId) && currentCategoryId == old(currentCategoryId)
      ensures currentExpenseId == old(currentExpenseId)
      ensures currentBudgetId == old(currentBudgetId) && currentSavingsGoalId == old(currentSavingsGoalId)
    {
      var existing := Get(savingsGoals, id);
      if existing.None? {
        return None;
      }
      var updated := MergeSavingsGoal(existing.value, patch);
      ReplaceWellFormed(savingsGoals, currentSavingsGoalId, id, updated);
      savingsGoals := Set(savingsGoals, id, updated);
      r := Some(Row(id, updated));
    }

    method DeleteSavingsGoal(id: int) returns (deleted: bool)
      requires Valid()
      modifies this
      ensures Valid()
      ensures deleted == Get(old(savingsGoals), id).Some?
      ensures savingsGoals == Delete(old(savingsGoals), id)
      ensures users == old(users) && categories == old(categories)
      ensures expenses == old(expenses) && budgets == old(budgets)
      ensures currentUserId == old(currentUserId) && currentCategoryId == old(currentCategoryId)
      ensures currentExpenseId == old(currentExpenseId)
      ensures currentBudgetId == old(currentBudgetId) && currentSavingsGoalId == old(currentSavingsGoalId)
    {
      deleted := Get(savingsGoals, id).Some?;
      DeleteWellFormed(savingsGoals, currentSavingsGoalId, id);
      savingsGoals := Delete(savingsGoals, id);
    }

    // -------------------------------------------------------------------------
    // Analytics

    function GetMonthlyExpenseTotal(userId: int, year: int, month: int): int
      reads this
    {
      MonthlyTotal(expenses, userId, year, month)
    }

    /**
     * Accumulate the in-range expenses into an insertion-ordered map from
     * category id to running total, then label each id with its category name.
     */
    method GetCategoryExpenseTotals(userId: int, startDate: Instant, endDate: Instant) returns (rows: seq<CategoryTotalRow>)
      ensures rows == CategoryTotalsOf(ExpensesInRange(expenses, userId, startDate, endDate), categories)
    {
      var xs := ExpensesInRange(expenses, userId, startDate, endDate);
      var keys, totals := AccumulateTotals(xs);
      RunningTotalsSpec(xs);
      rows := LabelTotals(keys, totals, categories);
      LabelTotalsMatch(keys, totals, xs, categories);
    }

    /** One point per month, from `months - 1` months ago up to the month of `now`. */
    method GetMonthlyTrends(userId: int, months: int, now: Instant) returns (trends: seq<TrendPoint>)
      ensures trends == MonthlyTrends(expenses, userId, months, now)
    {
      trends := CollectTrends(MonthTotals(expenses, userId), months, now);
    }
  }

  /**
   * The loop of `getMonthlyTrends`, with `getMonthlyExpenseTotal` passed in as
   * `total`: for i from `months - 1` down to 0, push the label and total of the
   * month i months before now.
   */
  method CollectTrends(total: (int, int) -> int, months: int, now: Instant) returns (trends: seq<TrendPoint>)
    ensures trends == TrendsPrefix(total, now, months, if months > 0 then months else 0)
  {
    trends := [];
    var i := months - 1;
    while i >= 0
      invariant months > 0 ==> -1 <= i
      invariant months <= 0 ==> i == months - 1
      invariant |trends| == months - 1 - i
      invariant trends == TrendsPrefix(total, now, months, |trends|)
    {
      var date := TrendMonth(now, i);
      var monthTotal := total(date.0, date.1);
      trends := trends + [TrendPoint(MonthLabel(date.1), monthTotal)];
      i := i - 1;
    }
  }

  /** The position of the first user in table order with that username, or `|t|` when there is none. */
  function FirstUserIndex(t: seq<Row<UserData>>, username: string): (i: nat)
    ensures i <= |t|
    ensures i < |t| ==> t[i].data.username == username
    ensures forall k :: 0 <= k < i ==> t[k].data.username != username
  {
    if t == [] then 0
    else if t[0].data.username == username then 0
    else
      var i := FirstUserIndex(t[1..], username);
      assert forall k :: 0 < k < |t| ==> t[k] == t[1..][k - 1];
      i + 1
  }

  /** The loop of `getCategoryExpenseTotals`: an insertion-ordered map from category id to running total. */
  method AccumulateTotals(xs: seq<ExpenseRow>) returns (keys: seq<int>, totals: map<int, int>)
    ensures keys == DistinctCategoryIds(xs)
    ensures totals == RunningTotals(xs)
  {
    keys, totals := [], map[];
    var j := 0;
    while j < |xs|
      invariant 0 <= j <= |xs|
      invariant keys == DistinctCategoryIds(xs[..j])
      invariant totals == RunningTotals(xs[..j])
    {
      var c := xs[j].data.categoryId;
      var current := if c in totals then totals[c] else 0;
      AccumulateStep(xs, j, keys, totals);
      if c !in totals {
        keys := keys + [c];
      }
      totals := totals[c := current + xs[j].data.amount];
      j := j + 1;
    }
    assert xs[..j] == xs;
  }

  /** One `forEach` step: the key order gains c exactly when the map had no entry for c. */
  lemma AccumulateStep(xs: seq<ExpenseRow>, j: int, keys: seq<int>, totals: map<int, int>)
    requires 0 <= j < |xs|
    requires keys == DistinctCategoryIds(xs[..j]) && totals == RunningTotals(xs[..j])
    ensures xs[j].data.categoryId in totals ==> keys == DistinctCategoryIds(xs[..j + 1])
    ensures xs[j].data.categoryId !in totals ==> keys + [xs[j].data.categoryId] == DistinctCategoryIds(xs[..j + 1])
    ensures xs[j].data.categoryId in totals ==>
      totals[xs[j].data.categoryId := totals[xs[j].data.categoryId] + xs[j].data.amount] == RunningTotals(xs[..j + 1])
    ensures xs[j].data.categoryId !in totals ==>
      totals[xs[j].data.categoryId := xs[j].data.amount] == RunningTotals(xs[..j + 1])
  {
    var p, q, c := xs[..j], xs[..j + 1], xs[j].data.categoryId;
    assert q[..|q| - 1] == p && q[|q| - 1] == xs[j];
    assert c in totals <==> c in keys by {
      RunningTotalsSpec(p);
    }
  }

  /** `Array.from(categoryTotals.entries()).map(...)`: one row per key, in key order, named from the categories. */
  function LabelTotals(keys: seq<int>, totals: map<int, int>, cats: seq<CategoryRow>): (rows: seq<CategoryTotalRow>)
    requires forall k :: k in keys ==> k in totals
  {
    seq(|keys|, i requires 0 <= i < |keys| => CategoryTotalRow(keys[i], CategoryName(cats, keys[i]), totals[keys[i]]))
  }

  /** Labelling the accumulated map gives exactly the per-category totals of the expenses. */
  lemma LabelTotalsMatch(keys: seq<int>, totals: map<int, int>, xs: seq<ExpenseRow>, cats: seq<CategoryRow>)
    requires keys == DistinctCategoryIds(xs)
    requires forall k :: k in totals <==> k in keys
    requires forall k :: k in keys ==> totals[k] == CategoryTotal(xs, k)
    ensures LabelTotals(keys, totals, cats) == CategoryTotalsOf(xs, cats)
  {
    var rows, expected := LabelTotals(keys, totals, cats), TotalsRows(keys, xs, cats);
    assert |rows| == |expected|;
    forall i | 0 <= i < |rows| ensures rows[i] == expected[i] {
      assert keys[i] in keys;
    }
  }

  /** A fresh store shows every user exactly the eight shared categories. */
  lemma FreshStoreCategories(userId: int)
    ensures VisibleCategories(DefaultCategoryRows(), userId) == DefaultCategoryRows()
  {
    FilterAll(DefaultCategoryRows(), c => VisibleTo(c, userId));
  }
}
