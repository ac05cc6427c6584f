# ExpenseTracker core in Dafny

This project models the logic at the centre of the ExpenseTracker application and proves properties of it.

**Server**
- `MemStorage`, the in-memory store. It has five tables keyed by id (users, categories, expenses, budgets, savings goals), and each table has its own id counter.
- The ownership filters over the store.
- Three analytics:
  - the calendar-month total;
  - per-category totals;
  - the N-month trend series.
- The analytics routes' parameter rules.
- The numbers on the dashboard summary.

**Client**
- The budget percentage and its colour band.
- The day bucket of a relative time.
- The colour-theme store.
- The expense-list UI store.
- The search filter and the icon and colour lookups of the recent-expenses list.
- The navigation bar's active-link rule.

Modules, one per file:

| module | file | models |
|---|---|---|
| `Seqs` | seqs.dfy | `Option`; object-spread of one field; `filter`; sub-lists; `startsWith` and `includes`. |
| `Tables` | tables.dfy | A JavaScript `Map<number, T>`, as the sequence of its entries in insertion order. Covers `get`, `set` (in place when the key is present, appended when not) and `delete`, plus the invariant the id counters keep. |
| `Calendar` | calendar.dfy | A civil calendar standing in for the local-time `Date`. Covers days in a month, leap years, `new Date(y, m, 1)` and `new Date(y, m, 0)` with month overflow and the two-digit-year rule, and the short month labels. |
| `Schema` | schema.dfy | The stored records, the insert payloads, and partial updates merged by object spread. |
| `Ledger` | ledger.dfy | The read side of the store, as functions of the table contents: ownership filters, the newest-first list with its limit, the month total, per-category totals and the trend series, with their lemmas. |
| `Storage` | storage.dfy | The `MemStorage` class: fields, constructor and seeding, and every create, update and delete. It also holds the two loops of the analytics: the `forEach` into a `Map` and the trend `for` loop. |
| `Routes` | routes.dfy | The parameter checks of the three analytics routes and the dashboard statistics. |
| `Utils` | utils.dfy | `calculateBudgetPercentage`, `getBudgetColor` and the bucket choice of `formatRelativeTime`. |
| `Theming` | theme_store.dfy | The theme store as a class with `theme` and `isDark` fields. |
| `ExpenseUi` | expense_store.dfy | The expense store as a class with `filters`, `quickAddOpen` and `selectedExpenseId` fields. |
| `RecentExpenses` | recent_expenses.dfy | The search predicate and the icon and colour lookups. |
| `Navbar` | navbar.dfy | `isActive` over the four navigation items. |

Modelling choices:
- **Amounts** are integer cents, because the money columns are `decimal(10, 2)`.
- **Dates** are `Instant(year, month, day, ms)` values. They compare lexicographically, which is how their timestamps compare.
- **The current time** is a parameter.
- **`parseInt` and `new Date(text)`** in the routes are function parameters. Their `None` result stands for NaN or an Invalid Date.
- **The operating system's dark-mode preference** is a boolean parameter.

The store's month window is modelled as the code builds it. The upper bound `new Date(year, month, 0)` is 00:00 at the start of the month's last day, so an expense later on the last day is not counted. The model follows the code: `Calendar.MonthWindowMembership` and `Ledger.MonthlyTotalCounts` state exactly which instants count.

## Model

| member | source | states |
|---|---|---|
| Tables.Get | server/storage.ts:112-114 | `Map.get`: absent exactly when no entry has the id; otherwise the value stored under it. |
| Tables.Set | server/storage.ts:146-148 | `Map.set`: afterwards the id maps to the new value and every other id is unchanged. A present key is replaced in place, keeping the order of ids; an absent key is appended. |
| Tables.Delete | server/storage.ts:151-153 | `Map.delete`: afterwards the id is absent, every other id keeps its value, and the table is unchanged if the id was absent. |
| Tables.DeleteKeepsOrder | server/storage.ts:151-153 | Deleting keeps the remaining entries in their original order (a sub-list). |
| Tables.InsertFreshWellFormed | server/storage.ts:193-202 | The counter value is not yet used as an id. Inserting under it keeps ids strictly ascending and below the advanced counter. |
| Tables.SetAbsentAppends | server/storage.ts:200 | Setting an id that no entry has appends the entry at the end. |
| Tables.DeleteWellFormed | server/storage.ts:213-215 | Deleting keeps the table's id invariant. |
| Schema.NewExpense | server/storage.ts:193-202 | The stored expense copies every supplied field and takes `now` as `createdAt`. |
| Schema.NewSavingsGoal | server/storage.ts:252-261 | The stored goal copies every supplied field, including a missing `currentAmount`, and takes `now` as `createdAt`. |
| Schema.MergeExpenseLaws | server/storage.ts:204-211 | An update with no keys changes nothing. Applying the same update twice equals applying it once. `createdAt` is never changed. |
| Storage.DefaultCategoryRows | server/storage.ts:87-110 | The seeded table holds 8 categories with ids 1 to 8, in the default order, shared (no owner) and not custom. |
| Storage.MemStorage.InitializeDefaultCategories | server/storage.ts:87-110 | The seeding loop fills the empty table with exactly those 8 rows and leaves the counter at 9. |
| Storage.MemStorage.constructor | server/storage.ts:71-85 | Empty tables except the 8 seeded categories; user, expense, budget and goal counters at 1, category counter at 9; the id invariant holds. |
| Storage.FreshStoreCategories | server/storage.ts:129-133 | On a fresh store every user sees exactly the 8 shared categories. |
| Storage.FirstUserIndex | server/storage.ts:116-120 | `find` by username: the first user in table order with that name, or none when no user has it. |
| Storage.MemStorage.CreateUser | server/storage.ts:122-127 | The new user gets the counter value as id and the counter goes up by one. The row is appended under a fresh id; no other table or counter changes. |
| Ledger.VisibleCategories | server/storage.ts:129-133 | `getCategories(u)` holds exactly the categories that are shared or owned by u, in table order. |
| Storage.MemStorage.CreateCategory | server/storage.ts:135-140 | The category counter is used as a fresh id and advanced by one; nothing else changes. |
| Storage.MemStorage.UpdateCategory | server/storage.ts:142-149 | An absent id returns none and leaves the table as it was. A present id is overwritten with the merged record in place, and that record is returned. Nothing else changes. |
| Storage.MemStorage.DeleteCategory | server/storage.ts:151-153 | Returns true exactly when the id was present. Afterwards the table is `Map.delete` of the old one; nothing else changes. |
| Ledger.OwnedExpenses | server/storage.ts:156-157 | Exactly the caller's expenses, in table order. |
| Ledger.InsertByDateSorted | server/storage.ts:158 | Inserting into a newest-first list keeps it newest-first. |
| Ledger.SortByDateDesc | server/storage.ts:158 | The sort yields a newest-first permutation of its input. |
| Ledger.ApplyLimit | server/storage.ts:160 | The result is always a prefix of the list. A missing or zero limit keeps the whole list. A positive limit keeps min(limit, length) items; a negative one drops that many from the end. |
| Storage.CategoryRowOf | server/storage.ts:164 | The joined category is the category stored under the expense's `categoryId`, or none. The `!` checks nothing. |
| Storage.WithCategory | server/storage.ts:162-165 | Each expense is paired with its looked-up category, in order. |
| Storage.ListExpensesSpec | server/storage.ts:155-166 | `getExpenses` returns only the caller's expenses, newest first, each with its category. With no limit or limit 0 it returns all of them; with a positive limit, the first min(limit, count) of them. In every case the entries are exactly a prefix of the caller's expenses sorted newest first. |
| Ledger.ExpensesInRange | server/storage.ts:168-181 | Exactly the caller's expenses dated within [start, end], both bounds inclusive, in table order. |
| Ledger.ExpensesOfCategory | server/storage.ts:183-191 | Exactly the caller's expenses in that category, in table order. |
| Storage.MemStorage.CreateExpense | server/storage.ts:193-202 | The expense counter is the new id and goes up by one. The record is built from the payload and `now`. It is appended; no other table or counter changes. |
| Storage.MemStorage.UpdateExpense | server/storage.ts:204-211 | An absent id returns none and leaves the table unchanged. A present id keeps its place and id and gets only the supplied fields replaced. |
| Storage.MemStorage.DeleteExpense | server/storage.ts:213-215 | True exactly when the id was present; afterwards it is absent and every other expense is unchanged. |
| Storage.MemStorage.GetBudgets | server/storage.ts:217-225 | The caller's budgets in table order. Each is joined with its category only when its `categoryId` is truthy. |
| Ledger.OwnedBudgets | server/storage.ts:218-219 | Exactly the caller's budgets, in table order. |
| Storage.MemStorage.CreateBudget | server/storage.ts:227-232 | Fresh id from the budget counter, appended, counter advanced; nothing else changes. |
| Storage.MemStorage.UpdateBudget | server/storage.ts:234-241 | Absent id: none, table unchanged. Present id: merged in place and returned. |
| Storage.MemStorage.DeleteBudget | server/storage.ts:243-245 | True exactly when the id was present; the table becomes `Map.delete` of the old one. |
| Ledger.OwnedSavingsGoals | server/storage.ts:247-250 | Exactly the caller's savings goals, in table order. |
| Storage.MemStorage.CreateSavingsGoal | server/storage.ts:252-261 | Fresh id from the goal counter, record built from the payload and `now`, appended, counter advanced; nothing else changes. |
| Storage.MemStorage.UpdateSavingsGoal | server/storage.ts:263-270 | Absent id: none, table unchanged. Present id: merged in place, `createdAt` kept. |
| Storage.MemStorage.DeleteSavingsGoal | server/storage.ts:272-274 | True exactly when the id was present; the table becomes `Map.delete` of the old one. |
| Calendar.DaysInMonthRule | server/storage.ts:278 | Month lengths behind day 0 of a month: February has 29 days exactly in leap years; April, June, September and November have 30; the rest have 31. |
| Calendar.DayZeroPrecedesStart | server/storage.ts:277-278 | The "day 0" trick is right: the day after day 0 of month m+1 is day 1 of month m+1, across year ends and for any month overflow. |
| Calendar.NormalizedMonthStep | server/storage.ts:277-278 | A month index one higher is the next calendar month; December carries into January of the next year. |
| Calendar.MonthBounds | server/storage.ts:277-278 | The two bounds are valid dates in the same normalized month: day 1 at 00:00 and the month's last day at 00:00. |
| Calendar.MonthWindowMembership | server/storage.ts:277-285 | A valid date passes both bounds exactly when it is in that month and either before the last day or at 00:00:00.000 of the last day. |
| Ledger.KeptTotalIsFilteredSum | server/storage.ts:280-288 | The one-pass month total equals the source's filter-then-`reduce` sum. |
| Ledger.MonthlyTotalCounts | server/storage.ts:276-289 | `getMonthlyExpenseTotal` is the sum of the caller's expense amounts counted in the normalized calendar month, with the last day counted only at 00:00. |
| Ledger.MonthlyTotalOfNothing | server/storage.ts:276-289 | When no expense of the caller falls in the window, the total is 0. |
| Ledger.SumAmountsConcat | server/storage.ts:288 | The `reduce` sum of a concatenation is the sum of the two sums. |
| Ledger.SumAmountsPermutation | server/storage.ts:288 | The sum does not depend on the order of the expenses, only on which ones are summed. |
| Storage.AccumulateTotals | server/storage.ts:300-304 | The `forEach` loop leaves the map's keys in first-insertion order (the distinct category ids) and each key's value as its running total. |
| Ledger.DistinctCategoryIdsSpec | server/storage.ts:300-304 | The map's key order lists each category id occurring among the expenses exactly once, and no other id. |
| Ledger.RunningTotalsSpec | server/storage.ts:300-304 | The map has a key exactly for each occurring category id, and each value is that category's total. |
| Ledger.CategoryName | server/storage.ts:308 | The row label is the category's name. It is 'Unknown' when the category is missing or its name is empty. |
| Storage.LabelTotalsMatch | server/storage.ts:306-310 | Labelling the accumulated map gives exactly the per-category rows. |
| Storage.MemStorage.GetCategoryExpenseTotals | server/storage.ts:291-311 | The method returns the per-category rows of the caller's in-range expenses. |
| Ledger.TotalsRows | server/storage.ts:306-310 | Row i carries key i, its label and that category's total. |
| Ledger.CategoryTotalsPartition | server/storage.ts:291-311 | The row totals add up to the sum of all in-range expenses. |
| Ledger.CategoryTotalsDistinct | server/storage.ts:300-310 | No two rows share a category id. |
| Ledger.CategoryTotalsCover | server/storage.ts:300-310 | Every category id among the in-range expenses has a row. |
| Ledger.CategoryTotalsOnlyOccurring | server/storage.ts:300-310 | Every row's id occurs among the in-range expenses. |
| Ledger.TrendMonth | server/storage.ts:318 | `new Date(y, m - i, 1)` gives a month in 1..12. |
| Ledger.MonthlyTrends | server/storage.ts:313-328 | The series has max(months, 0) points. |
| Ledger.TrendsPrefixPoints | server/storage.ts:317-325 | The k-th pushed point is the month `months - 1 - k` months back. |
| Ledger.MonthlyTrendsPoints | server/storage.ts:317-325 | Point k of the series is the label and `getMonthlyExpenseTotal` of the month `months - 1 - k` months before now. |
| Ledger.TrendMonthsConsecutive | server/storage.ts:318 | Consecutive points are consecutive calendar months, across year boundaries. |
| Ledger.TrendEndsAtCurrentMonth | server/storage.ts:318 | The last point is the current month. |
| Ledger.MonthlyTrendsShape | server/storage.ts:313-328 | For a positive count, the series is oldest first and one month apart. Its last point is the current month, with that month's label and total. |
| Storage.CollectTrends | server/storage.ts:317-325 | The counting loop from `months - 1` down to 0 pushes exactly the series' points, in order. It pushes none when `months <= 0`. |
| Storage.MemStorage.GetMonthlyTrends | server/storage.ts:313-328 | The method returns the trend series of the store's expenses. |
| Calendar.MonthLabel | server/storage.ts:322 | The month label is one of the twelve three-letter abbreviations. |
| Calendar.MonthLabelsDistinct | server/storage.ts:322 | Different months get different labels, so each trend point's label names its month. |
| Calendar.NextDay | server/storage.ts:278 | The day after a valid date is a valid date at 00:00, strictly later. |
| Routes.MonthlyTotalRoute | server/routes.ts:180-196 | Rejected with "Year and month are required" exactly when either parameter is missing or empty. Otherwise it returns the store's month total; a year or month that does not parse gives 0. |
| Routes.CategoryTotalsRoute | server/routes.ts:198-214 | Rejected with "Start date and end date are required" exactly when either is missing or empty. Otherwise it returns the per-category rows of the range; an invalid date gives no rows. |
| Routes.TrendMonthsParam | server/routes.ts:218 | A missing or empty `months` defaults to 6; otherwise it is the parsed value. |
| Routes.MonthlyTrendsRoute | server/routes.ts:216-224 | Six points by default. The parsed count's series otherwise, and no points for NaN. |
| Routes.FirstOverall | server/routes.ts:238 | `find(b => b.isOverall)`: the first overall budget in retrieval order, or none. |
| Routes.BudgetAmount | server/routes.ts:237-239 | The first overall budget's amount, or 5000 (500000 cents) when there is none. |
| Routes.SavingsProgress | server/routes.ts:247-250 | Corrected savings sum: a missing current amount counts as 0. The sum is never negative when no amount is, and 0 when every amount is missing. |
| Routes.SavingsProgressConcat | server/routes.ts:247-250 | The savings sum adds up over concatenation and is 0 for no goals. |
| Routes.DashboardFor | server/routes.ts:227-262 | The numbers on the dashboard summary:<br>monthly total is the store total for the current year and 1-based month;<br>remaining is budget minus total, unclamped, negative exactly when overspent;<br>category count is the number of visible categories;<br>savings is the corrected sum of current amounts (a missing amount counts as 0), 0 without goals. |
| Routes.DashboardSavingsAsWritten | server/routes.ts:247-256 | The savings number the handler sends as written is NaN exactly when one of the user's goals has no current amount; otherwise it equals the dashboard's savings. |
| Routes.SavingsProgressAsWrittenNaN | server/routes.ts:247-250 | The `reduce` as written is NaN exactly when some goal has no current amount; otherwise it equals the corrected sum. |
| Routes.SavingsProgressMissingAmount | server/routes.ts:247-250 | Concrete case: a goal with 250.00 saved plus a goal without a current amount reports NaN, where 250.00 is meant. |
| Utils.CalculateBudgetPercentage | client/src/lib/utils.ts:50-52 | Never above 100 and never +Infinity. For a nonzero budget it is spent/budget*100 whenever that is at most 100. For a positive budget it is 100 exactly when spent ≥ budget. With a zero budget it is 100 for positive spending and NaN for none. |
| Utils.GetBudgetColor | client/src/lib/utils.ts:54-58 | Red iff the percentage is at least 100. Yellow iff it is at least 85 and below 100. Green iff it is below 85, and for NaN. |
| Utils.BudgetColorOfSpending | client/src/lib/utils.ts:50-58 | With a positive budget: red iff spent ≥ budget, yellow iff 85% of budget ≤ spent < budget, green iff spent < 85% of budget. |
| Utils.FloorDays | client/src/lib/utils.ts:37 | `Math.floor(ms / 86400000)`: the whole days d with d days ≤ ms < d+1 days, also for negative ms. |
| Utils.FormatRelativeTime | client/src/lib/utils.ts:33-48 | 'Today' iff the difference is in [0, 1 day). 'Yesterday' iff it is in [1, 2 days). The date format iff it is 7 days or more, or for an invalid date. Otherwise 'n days ago' with n = floor(days), which is negative for future dates. |
| Theming.Toggled | client/src/stores/useThemeStore.ts:24 | Never `system`; light exactly when the current theme is dark. |
| Theming.ToggleTwice | client/src/stores/useThemeStore.ts:22-26 | Toggling twice restores light or dark. From system it goes to dark, then light. |
| Theming.IsDarkFor | client/src/stores/useThemeStore.ts:34-45 | `isDark` is the system preference for `system`, else whether the theme is dark. |
| Theming.ThemeStore.constructor | client/src/stores/useThemeStore.ts:16-17 | Initial state: theme `system`, `isDark` false. |
| Theming.ThemeStore.SetTheme | client/src/stores/useThemeStore.ts:18-21 | Stores exactly the given theme and derives `isDark` from it. |
| Theming.ThemeStore.UpdateDocumentTheme | client/src/stores/useThemeStore.ts:34-45 | Only `isDark` changes, to the derived value. |
| Theming.ThemeStore.ToggleTheme | client/src/stores/useThemeStore.ts:22-26 | The new theme is the toggled old one, and `isDark` holds exactly when it is dark. |
| Theming.ThemeStore.OnSystemChange | client/src/stores/useThemeStore.ts:58-63 | A preference change updates `isDark` only while the theme is `system`; the theme never changes. |
| Theming.ThemeStore.ApplyStartupTheme | client/src/stores/useThemeStore.ts:48-56 | On load, `isDark` is derived from the stored theme, or from the system preference when nothing is stored. |
| ExpenseUi.MergeFilters | client/src/stores/useExpenseStore.ts:32-35 | Each key the update has (even one set to undefined) is replaced; every other filter is kept. |
| ExpenseUi.MergeFiltersLaws | client/src/stores/useExpenseStore.ts:32-35 | An empty update changes nothing and repeating an update changes nothing more. Two updates in a row equal their combined update. |
| ExpenseUi.ExpenseStore.constructor | client/src/stores/useExpenseStore.ts:31-41 | Initial state: no filters, quick-add closed, nothing selected. |
| ExpenseUi.ExpenseStore.SetFilters | client/src/stores/useExpenseStore.ts:32-35 | Only `filters` changes, to the merge of the old filters and the update. |
| ExpenseUi.ExpenseStore.ClearFilters | client/src/stores/useExpenseStore.ts:36 | Only `filters` changes, to `{}`; clearing again leaves it `{}`. |
| ExpenseUi.ExpenseStore.SetQuickAddOpen | client/src/stores/useExpenseStore.ts:39 | Only `quickAddOpen` changes, to the argument. |
| ExpenseUi.ExpenseStore.SetSelectedExpenseId | client/src/stores/useExpenseStore.ts:42 | Only `selectedExpenseId` changes, to the argument, which may be null. |
| RecentExpenses.Lower | client/src/components/dashboard/recent-expenses.tsx:50-51 | `toLowerCase` keeps the length and lowers each character. |
| RecentExpenses.Matches | client/src/components/dashboard/recent-expenses.tsx:50-51 | Kept iff the lowered description or the lowered category name contains the lowered query. A missing category throws only when the description does not match. |
| RecentExpenses.FilterExpenses | client/src/components/dashboard/recent-expenses.tsx:49-52 | An order-preserving sub-list holding exactly the matching expenses. The filter throws exactly when some expense with a missing category is reached. |
| RecentExpenses.EmptyQueryKeepsAll | client/src/components/dashboard/recent-expenses.tsx:49-52 | An empty query keeps every expense. |
| RecentExpenses.CategoryIconAsWritten | client/src/components/dashboard/recent-expenses.tsx:54-66 | As written: mapped icon for the 8 names; an inherited `Object.prototype` member for names such as "constructor"; otherwise the fallback. |
| RecentExpenses.CategoryColorAsWritten | client/src/components/dashboard/recent-expenses.tsx:68-80 | As written: mapped classes for the 8 names; an inherited member for prototype names; otherwise grey. |
| RecentExpenses.InheritedNameSkipsFallback | client/src/components/dashboard/recent-expenses.tsx:65 | A category named "constructor" gets an inherited member as written, but the fallback icon and colour in the corrected lookup. |
| RecentExpenses.CategoryIcon | client/src/components/dashboard/recent-expenses.tsx:54-66 | Mapped icon for the 8 default names, the fallback icon for any other name. |
| RecentExpenses.CategoryColor | client/src/components/dashboard/recent-expenses.tsx:68-80 | Mapped classes for the 8 default names, the grey fallback for any other name. |
| RecentExpenses.LookupsAgreeOffPrototype | client/src/components/dashboard/recent-expenses.tsx:54-80 | The lookups as written and the corrected ones agree on every name that is not a prototype member. |
| RecentExpenses.IconsMatchSeededCategories | client/src/components/dashboard/recent-expenses.tsx:55-64 | Each seeded default category's stored icon is the icon the list is meant to show for its name (the emoji its literals intend, not their mis-encoded bytes). |
| RecentExpenses.GrayColorNames | client/src/components/dashboard/recent-expenses.tsx:75-79 | A name is shown grey iff it is not one of the 8 defaults or it is "Utilities". |
| Navbar.PrefixMatching | client/src/components/layout/navbar.tsx:44-47 | '/' is active only on '/'. '/add' is active on '/add' and also on '/address'. |
| Navbar.DivergentPrefixes | client/src/components/layout/navbar.tsx:46 | Two hrefs that differ within their common length are never both prefixes of one location. |
| Navbar.AtMostOneActive | client/src/components/layout/navbar.tsx:37-47 | For any location, at most one of the four navigation items is active. |

## Left out

- Intl formatting (`formatCurrency`, `formatDate`, `formatTime`) is not modelled. `FormatRelativeTime` returns which phrase is used, not the text. Month labels are an index into a fixed table of English abbreviations.
- Floating point:
  - amounts are whole cents, so the binary rounding of `parseFloat` sums is not modelled;
  - the budget percentage is an exact real plus the three special values (+Infinity, -Infinity, NaN);
  - signed zero is not modelled.
- Time zones and daylight saving time are not modelled. Dates are civil local-calendar values, and `new Date()` is the `now` parameter.
- `Calendar.StartOfMonth` and `Calendar.DayZero` do not clip to the `Date` range (±8.64e15 ms) for huge years.
- An expense stored with an Invalid Date is not modelled: stored dates are always calendar values.
- Ledger.ExpensesInRange, Routes.CategoryTotalsRoute: an Invalid Date bound is modelled only at the route. It returns no rows because every comparison with it is false.
- Routes.MonthlyTotalRoute, Routes.MonthlyTrendsRoute, Routes.CategoryTotalsRoute: `parseInt` and `new Date(text)` are function parameters, not a parser.
- Express plumbing is not modelled: status codes, JSON, the try/catch 500 replies, the remaining routes and authentication.
- async/await is not modelled. Every storage call completes at once and nothing runs concurrently.
- Persistence is not modelled: the `persist` middleware, localStorage contents, and the document class list `updateDocumentTheme` toggles.
- Theming.ThemeStore.ApplyStartupTheme takes "something is stored" and the stored theme as parameters instead of parsing localStorage JSON.
- RecentExpenses.Lower: `toLowerCase` is modelled on ASCII letters only; other characters are left unchanged.
- RecentExpenses.IconsMatchSeededCategories, RecentExpenses.CategoryIcon, RecentExpenses.CategoryIconAsWritten: the client's icon literals are mis-encoded in the file (UTF-8 bytes read as Latin-1, so the pizza is the text "ðŸ•" while the server seeds U+1F355). The model uses the intended emoji, which are the icons the server seeds, and the fallback U+1F4DD; it does not model the garbled text the list as written shows.
- Routes.DashboardFor: its `savingsProgress` is the corrected sum `Routes.SavingsProgress`. The handler as written sends NaN when a goal has no current amount; `Routes.DashboardSavingsAsWritten` states that value.
- Storage.MemStorage.GetMonthlyExpenseTotal and the other read-only getters are functions of the fields. Their properties are stated on the `Ledger` functions they return.
- Ledger.MonthlyTotal is written as a one-pass sum. `Ledger.KeptTotalIsFilteredSum` proves it equals the source's filter followed by `reduce`.
- Storage.CollectTrends receives the month total as a function parameter, so the loop is independent of how a month is totalled. `GetMonthlyTrends` passes the store's own month total.
- `Map.set` on an absent key appends. The create methods append under the fresh counter value; `Tables.SetAbsentAppends` proves these agree.
- Storage.AccumulateTotals: `categoryTotals.get(id) || 0` also maps a stored total of 0 (or NaN) to 0. With whole-cent amounts a stored 0 gives the same result, and NaN does not arise.

## Findings

| source | as written | input that shows it | evidently intended | confidence | as-written member | corrected member |
|---|---|---|---|---|---|---|
| server/routes.ts:248-250 | `parseFloat(goal.currentAmount)` is summed. A goal created without `currentAmount` has it undefined in memory, and `parseFloat(undefined)` is NaN. | Goals with current amounts 250.00 and missing: savingsProgress is NaN. | A missing amount counts as its column default 0, giving 250.00. | not executed | Routes.SavingsProgressAsWrittenNaN | Routes.SavingsProgress |
| client/src/components/dashboard/recent-expenses.tsx:65 | `iconMap[category] \|\| fallback` (and `colorMap` at line 79) on an object literal returns inherited `Object.prototype` members. | A custom category named "constructor" gets the `Object` function, not the fallback icon or colour. | Any name outside the eight defaults gets the fallback. | not executed | RecentExpenses.InheritedNameSkipsFallback | RecentExpenses.CategoryIcon |
