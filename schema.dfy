/**
 * The records of the five tables, as they are stored in memory.
 * Money columns are `decimal(10, 2)`: amounts are whole cents.
 * Nullable boolean columns are only ever read for truthiness, so null is `false` here.
 */
module Schema {
  import opened Seqs
  import opened Calendar

  datatype UserData = UserData(username: string, password: string)

  /** `userId` None is a shared default category, visible to every user. */
  datatype CategoryData = CategoryData(name: string, icon: string, color: string, isCustom: bool, userId: Option<int>)

  /** The fields a client supplies when adding an expense. */
  datatype InsertExpense = InsertExpense(
    amount: int, description: string, categoryId: int, paymentMode: string,
    date: Instant, notes: Option<string>, isRecurring: bool, userId: int)

  datatype ExpenseData = ExpenseData(
    amount: int, description: string, categoryId: int, paymentMode: string,
    date: Instant, notes: Option<string>, isRecurring: bool, userId: int,
    createdAt: Instant)

  /** `categoryId` None is a budget not tied to a category. */
  datatype BudgetData = BudgetData(categoryId: Option<int>, amount: int, period: string, userId: int, isOverall: bool)

  /** The fields a client supplies when adding a savings goal; `currentAmount` may be missing. */
  datatype InsertSavingsGoal = InsertSavingsGoal(
    name: string, targetAmount: int, currentAmount: Option<int>, targetDate: Option<Instant>, userId: int)

  datatype SavingsGoalData = SavingsGoalData(
    name: string, targetAmount: int, currentAmount: Option<int>, targetDate: Option<Instant>, userId: int,
    createdAt: Instant)

  /** `{ ...expense, id, createdAt: new Date() }` without the id, which the table row carries. */
  function NewExpense(e: InsertExpense, createdAt: Instant): (d: ExpenseData)
    ensures d.amount == e.amount && d.description == e.description && d.categoryId == e.categoryId
    ensures d.paymentMode == e.paymentMode && d.date == e.date && d.notes == e.notes
    ensures d.isRecurring == e.isRecurring && d.userId == e.userId && d.createdAt == createdAt
  {
    ExpenseData(e.amount, e.description, e.categoryId, e.paymentMode, e.date, e.notes, e.isRecurring, e.userId, createdAt)
  }

  function NewSavingsGoal(g: InsertSavingsGoal, createdAt: Instant): (d: SavingsGoalData)
    ensures d.name == g.name && d.targetAmount == g.targetAmount && d.currentAmount == g.currentAmount
    ensures d.targetDate == g.targetDate && d.userId == g.userId && d.createdAt == createdAt
  {
    SavingsGoalData(g.name, g.targetAmount, g.currentAmount, g.targetDate, g.userId, createdAt)
  }

  /* A `Partial<Insert...>` update: each field is None when the key is absent from the request. */

  datatype CategoryPatch = CategoryPatch(
    name: Option<string>, icon: Option<string>, color: Option<string>,
    isCustom: Option<bool>, userId: Option<Option<int>>)

  datatype ExpensePatch = ExpensePatch(
    amount: Option<int>, description: Option<string>, categoryId: Option<int>, paymentMode: Option<string>,
    date: Option<Instant>, notes: Option<Option<string>>, isRecurring: Option<bool>, userId: Option<int>)

  datatype BudgetPatch = BudgetPatch(
    categoryId: Option<Option<int>>, amount: Option<int>, period: Option<string>,
    userId: Option<int>, isOverall: Option<bool>)

  datatype SavingsGoalPatch = SavingsGoalPatch(
    name: Option<string>, targetAmount: Option<int>, currentAmount: Option<Option<int>>,
    targetDate: Option<Option<Instant>>, userId: Option<int>)

  const EmptyExpensePatch := ExpensePatch(None, None, None, None, None, None, None, None)

  function MergeCategory(c: CategoryData, p: CategoryPatch): CategoryData {
    CategoryData(Pick(p.name, c.name), Pick(p.icon, c.icon), Pick(p.color, c.color),
                 Pick(p.isCustom, c.isCustom), Pick(p.userId, c.userId))
  }

  /** The spread never touches `createdAt`, which is not part of an expense update. */
  function MergeExpense(e: ExpenseData, p: ExpensePatch): ExpenseData {
    ExpenseData(Pick(p.amount, e.amount), Pick(p.description, e.description), Pick(p.categoryId, e.categoryId),
                Pick(p.paymentMode, e.paymentMode), Pick(p.date, e.date), Pick(p.notes, e.notes),
                Pick(p.isRecurring, e.isRecurring), Pick(p.userId, e.userId), e.createdAt)
  }

  function MergeBudget(b: BudgetData, p: BudgetPatch): BudgetData {
    BudgetData(Pick(p.categoryId, b.categoryId), Pick(p.amount, b.amount), Pick(p.period, b.period),
               Pick(p.userId, b.userId), Pick(p.isOverall, b.isOverall))
  }

  function MergeSavingsGoal(g: SavingsGoalData, p: SavingsGoalPatch): SavingsGoalData {
    SavingsGoalData(Pick(p.name, g.name), Pick(p.targetAmount, g.targetAmount), Pick(p.currentAmount, g.currentAmount),
                    Pick(p.targetDate, g.targetDate), Pick(p.userId, g.userId), g.createdAt)
  }

  /** An expense update with no keys changes nothing; applying the same update twice equals applying it once. */
  lemma MergeExpenseLaws(e: ExpenseData, p: ExpensePatch)
    ensures MergeExpense(e, EmptyExpensePatch) == e
    ensures MergeExpense(MergeExpense(e, p), p) == MergeExpense(e, p)
    ensures MergeExpense(e, p).createdAt == e.createdAt
  {
  }
}
