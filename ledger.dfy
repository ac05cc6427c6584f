/**
 * The queries and analytics of the in-memory storage, as functions of the
 * table contents: ownership filters, the newest-first expense list, the
 * calendar-month total, per-category totals and the N-month trend series.
 */
module Ledger {
  import opened Seqs
  import opened Calendar
  import opened Tables
  import opened Schema

  type CategoryRow = Row<CategoryData>
  type ExpenseRow = Row<ExpenseData>
  type BudgetRow = Row<BudgetData>
  type SavingsGoalRow = Row<SavingsGoalData>

  // ---------------------------------------------------------------------------
  // Ownership filters

  /** A category is visible to its owner, and a shared one (no owner) to everybody. */
  predicate VisibleTo(c: CategoryRow, userId: int) {
    c.data.userId.None? || c.data.userId == Some(userId)
  }

  function VisibleCategories(t: seq<CategoryRow>, userId: int): (r: seq<CategoryRow>)
    ensures forall c :: c in r <==> c in t && VisibleTo(c, userId)
    ensures IsSublist(r, t)
  {
    Filter(t, c => VisibleTo(c, userId))
  }

  function OwnedExpenses(t: seq<ExpenseRow>, userId: int): (r: seq<ExpenseRow>)
    ensures forall e :: e in r <==> e in t && e.data.userId == userId
    ensures IsSublist(r, t)
  {
    Filter(t, (e: ExpenseRow) => e.data.userId == userId)
  }

  /** Both bounds inclusive, compared as timestamps. */
  predicate InRange(d: Instant, start: Instant, end: Instant) {
    AtOrBefore(start, d) && AtOrBefore(d, end)
  }

  /** The predicate of the date-range filters: the user's own expense, dated inside [start, end]. */
  function InWindow(userId: int, start: Instant, end: Instant): ExpenseRow -> bool {
    (e: ExpenseRow) => e.data.userId == userId && InRange(e.data.date, start, end)
  }

  function ExpensesInRange(t: seq<ExpenseRow>, userId: int, start: Instant, end: Instant): (r: seq<ExpenseRow>)
    ensures forall e :: e in r <==> e in t && e.data.userId == userId && InRange(e.data.date, start, end)
    ensures IsSublist(r, t)
  {
    Filter(t, InWindow(userId, start, end))
  }

  function ExpensesOfCategory(t: seq<ExpenseRow>, userId: int, categoryId: int): (r: seq<ExpenseRow>)
    ensures forall e :: e in r <==> e in t && e.data.userId == userId && e.data.categoryId == categoryId
    ensures IsSublist(r, t)
  {
    Filter(t, (e: ExpenseRow) => e.data.userId == userId && e.data.categoryId == categoryId)
  }

  function OwnedBudgets(t: seq<BudgetRow>, userId: int): (r: seq<BudgetRow>)
    ensures forall b :: b in r <==> b in t && b.data.userId == userId
    ensures IsSublist(r, t)
  {
    Filter(t, (b: BudgetRow) => b.data.userId == userId)
  }

  function OwnedSavingsGoals(t: seq<SavingsGoalRow>, userId: int): (r: seq<SavingsGoalRow>)
    ensures forall g :: g in r <==> g in t && g.data.userId == userId
    ensures IsSublist(r, t)
  {
    Filter(t, (g: SavingsGoalRow) => g.data.userId == userId)
  }

  // ---------------------------------------------------------------------------
  // Newest-first ordering and the optional limit of the expense list

  predicate NewestFirst(s: seq<ExpenseRow>) {
    forall i, j :: 0 <= i < j < |s| ==> AtOrBefore(s[j].data.date, s[i].data.date)
  }

  /** Place `x` after every entry at least as recent, so that equal dates keep their input order. */
  function InsertByDate(x: ExpenseRow, s: seq<ExpenseRow>): (r: seq<ExpenseRow>)
    ensures |r| == |s| + 1
    ensures multiset(r) == multiset(s) + multiset{x}
  {
    if s == [] then [x]
    else if Before(s[0].data.date, x.data.date) then [x] + s
    else
      assert s == [s[0]] + s[1..];
      [s[0]] + InsertByDate(x, s[1..])
  }

  /** Inserting into a newest-first list keeps it newest-first. */
  lemma {:induction false} InsertByDateSorted(x: ExpenseRow, s: seq<ExpenseRow>)
    requires NewestFirst(s)
    ensures NewestFirst(InsertByDate(x, s))
  {
    if s == [] {
    } else if Before(s[0].data.date, x.data.date) {
      forall y | y in s ensures AtOrBefore(y.data.date, x.data.date) {
        var k :| 0 <= k < |s| && s[k] == y;
        assert k == 0 || AtOrBefore(s[k].data.date, s[0].data.date);
      }
      PrependNewest(x, s);
    } else {
      var rest := InsertByDate(x, s[1..]);
      InsertByDateSorted(x, s[1..]);
      forall y | y in rest ensures AtOrBefore(y.data.date, s[0].data.date) {
        assert y in multiset(rest);
        if y != x {
          assert y in multiset(s[1..]);
          var k :| 0 <= k < |s[1..]| && s[1..][k] == y;
          assert s[k + 1] == y;
        }
      }
      PrependNewest(s[0], rest);
    }
  }

  /** An expense at least as new as every entry of a newest-first list can go in front of it. */
  lemma PrependNewest(y: ExpenseRow, s: seq<ExpenseRow>)
    requires NewestFirst(s)
    requires forall z :: z in s ==> AtOrBefore(z.data.date, y.data.date)
    ensures NewestFirst([y] + s)
  {
    var r := [y] + s;
    forall i, j | 0 <= i < j < |r| ensures AtOrBefore(r[j].data.date, r[i].data.date) {
      assert r[j] == s[j - 1] && r[j] in s;
      if i > 0 {
        assert r[i] == s[i - 1];
      }
    }
  }

  /** `sort((a, b) => b.date - a.date)`: a newest-first permutation of the input. */
  function SortByDateDesc(s: seq<ExpenseRow>): (r: seq<ExpenseRow>)
    ensures |r| == |s| && multiset(r) == multiset(s)
    ensures NewestFirst(r)
  {
    if s == [] then []
    else
      assert s == s[..|s| - 1] + [s[|s| - 1]];
      var sorted := SortByDateDesc(s[..|s| - 1]);
      InsertByDateSorted(s[|s| - 1], sorted);
      InsertByDate(s[|s| - 1], sorted)
  }

  /** The end index that `slice(0, end)` uses on a list of length `len`. */
  function SliceEnd(len: nat, end: int): (k: nat)
    ensures k <= len
    ensures end >= 0 ==> k == if end < len then end else len
    ensures end < 0 ==> k == if len + end > 0 then len + end else 0
  {
    if end < 0 then (if len + end > 0 then len + end else 0)
    else if end < len then end else len
  }

  /**
   * `limit ? list.slice(0, limit) : list`: a missing limit (or NaN) and 0 are
   * falsy and keep the whole list; a negative limit drops that many from the end.
   */
  function ApplyLimit<T>(s: seq<T>, limit: Option<int>): (r: seq<T>)
    ensures |r| <= |s| && r == s[..|r|]
    ensures limit.None? || limit == Some(0) ==> r == s
    ensures limit.Some? && limit.value > 0 ==> |r| == if limit.value < |s| then limit.value else |s|
    ensures limit.Some? && limit.value < 0 ==> |r| == if |s| + limit.value > 0 then |s| + limit.value else 0
  {
    if limit.None? || limit.value == 0 then s else s[..SliceEnd(|s|, limit.value)]
  }

  // ---------------------------------------------------------------------------
  // Sums

  /** `reduce((total, e) => total + amount, 0)`, left to right. */
  function SumAmounts(xs: seq<ExpenseRow>): int {
    if xs == [] then 0 else SumAmounts(xs[..|xs| - 1]) + xs[|xs| - 1].data.amount
  }

  lemma {:induction false} SumAmountsConcat(a: seq<ExpenseRow>, b: seq<ExpenseRow>)
    ensures SumAmounts(a + b) == SumAmounts(a) + SumAmounts(b)
    decreases |b|
  {
    if b == [] {
      assert a + b == a;
    } else {
      assert (a + b)[..|a + b| - 1] == a + b[..|b| - 1];
      SumAmountsConcat(a, b[..|b| - 1]);
    }
  }

  /** The total does not depend on the order of the records summed. */
  lemma {:induction false} SumAmountsPermutation(a: seq<ExpenseRow>, b: seq<ExpenseRow>)
    requires multiset(a) == multiset(b)
    ensures SumAmounts(a) == SumAmounts(b)
    decreases |a|
  {
    if a == [] {
      assert |b| == |multiset(b)| == 0;
    } else {
      var x := a[|a| - 1];
      var a' := a[..|a| - 1];
      assert a == a' + [x];
      assert x in multiset(b);
      var k :| 0 <= k < |b| && b[k] == x;
      var b' := b[..k] + b[k + 1..];
      assert b == b[..k] + [x] + b[k + 1..];
      assert multiset(b) == multiset(b[..k]) + multiset{x} + multiset(b[k + 1..]);
      assert multiset(a) == multiset(a') + multiset{x};
      assert multiset(b') == multiset(b[..k]) + multiset(b[k + 1..]);
      assert multiset(a') == multiset(a) - multiset{x};
      assert multiset(b') == multiset(b) - multiset{x};
      SumAmountsPermutation(a', b');
      SumAmountsConcat(b[..k] + [x], b[k + 1..]);
      SumAmountsConcat(b[..k], b[k + 1..]);
      assert (b[..k] + [x])[..k] == b[..k];
    }
  }

  // ---------------------------------------------------------------------------
  // The calendar-month total

  /**
   * `getMonthlyExpenseTotal`: the sum over the user's expenses dated from
   * `new Date(year, month - 1, 1)` to `new Date(year, month, 0)`, both included.
   * The upper bound is 00:00 at the start of the month's last day.
   */
  function MonthlyTotal(t: seq<ExpenseRow>, userId: int, year: int, month: int): int {
    KeptTotal(t, InWindow(userId, StartOfMonth(year, month - 1), DayZero(year, month)))
  }

  /** The amounts of the expenses `keep` accepts, added up in table order in one pass. */
  function KeptTotal(t: seq<ExpenseRow>, keep: ExpenseRow -> bool): int {
    if t == [] then 0
    else KeptTotal(t[..|t| - 1], keep) + if keep(t[|t| - 1]) then t[|t| - 1].data.amount else 0
  }

  /** The one-pass total is the source's filter followed by `reduce`. */
  lemma {:induction false} KeptTotalIsFilteredSum(t: seq<ExpenseRow>, keep: ExpenseRow -> bool)
    ensures KeptTotal(t, keep) == SumAmounts(Filter(t, keep))
    decreases |t|
  {
    if t != [] {
      var p, x := t[..|t| - 1], t[|t| - 1];
      assert t == p + [x];
      KeptTotalIsFilteredSum(p, keep);
      FilteredSumStep(p, x, keep);
    }
  }

  /** Appending one expense to the table adds its amount to the filtered sum when it is kept. */
  lemma FilteredSumStep(p: seq<ExpenseRow>, x: ExpenseRow, keep: ExpenseRow -> bool)
    ensures SumAmounts(Filter(p + [x], keep)) == SumAmounts(Filter(p, keep)) + if keep(x) then x.data.amount else 0
  {
    FilterConcat(p, [x], keep);
    SumAmountsConcat(Filter(p, keep), Filter([x], keep));
    SumAmountsOfFilteredOne(x, keep);
  }

  /** Filtering one expense keeps its amount or nothing. */
  lemma SumAmountsOfFilteredOne(x: ExpenseRow, keep: ExpenseRow -> bool)
    ensures SumAmounts(Filter([x], keep)) == if keep(x) then x.data.amount else 0
  {
    if keep(x) {
      assert Filter([x], keep) == [x];
      assert [x][..0] == [];
    } else {
      assert Filter([x], keep) == [];
    }
  }

  /**
   * Whether a date is counted for calendar month ym: any moment of the month up to
   * the end of its second-to-last day, and the last day only at exactly 00:00.
   */
  predicate CountedInMonth(d: Instant, ym: (int, int))
    requires 1 <= ym.1 <= 12
  {
    (d.year, d.month) == ym
    && (d.day < DaysInMonth(ym.0, ym.1) || (d.day == DaysInMonth(ym.0, ym.1) && d.ms == 0))
  }

  /** The monthly total, restated on the calendar: the user's expenses counted in the normalized month. */
  lemma MonthlyTotalCounts(t: seq<ExpenseRow>, userId: int, year: int, month: int)
    requires forall e :: e in t ==> ValidInstant(e.data.date)
    ensures var ym := NormalizedMonth(year, month - 1);
      MonthlyTotal(t, userId, year, month)
      == SumAmounts(Filter(t, (e: ExpenseRow) => e.data.userId == userId && CountedInMonth(e.data.date, ym)))
  {
    var ym := NormalizedMonth(year, month - 1);
    var s, z := StartOfMonth(year, month - 1), DayZero(year, month);
    KeptTotalIsFilteredSum(t, InWindow(userId, s, z));
    forall e | e in t
      ensures InWindow(userId, s, z)(e) == (e.data.userId == userId && CountedInMonth(e.data.date, ym))
    {
      MonthWindowMembership(year, month, e.data.date);
    }
    FilterCongruent(t, InWindow(userId, s, z),
                       (e: ExpenseRow) => e.data.userId == userId && CountedInMonth(e.data.date, ym));
  }

  /** No matching expense, total 0 (not an error). */
  lemma MonthlyTotalOfNothing(t: seq<ExpenseRow>, userId: int, year: int, month: int)
    requires forall e :: e in t && e.data.userId == userId ==>
      !InRange(e.data.date, StartOfMonth(year, month - 1), DayZero(year, month))
    ensures MonthlyTotal(t, userId, year, month) == 0
  {
    KeptTotalIsFilteredSum(t, InWindow(userId, StartOfMonth(year, month - 1), DayZero(year, month)));
  }

  // ---------------------------------------------------------------------------
  // Per-category totals

  datatype CategoryTotalRow = CategoryTotalRow(categoryId: int, categoryName: string, total: int)

  /** The keys of the accumulating `Map`, in the order they were first set. */
  function DistinctCategoryIds(xs: seq<ExpenseRow>): seq<int> {
    if xs == [] then []
    else
      var ks := DistinctCategoryIds(xs[..|xs| - 1]);
      var c := xs[|xs| - 1].data.categoryId;
      if c in ks then ks else ks + [c]
  }

  /** Each category id occurring among the expenses is listed, exactly once, and nothing else is. */
  lemma {:induction false} DistinctCategoryIdsSpec(xs: seq<ExpenseRow>)
    ensures NoDuplicates(DistinctCategoryIds(xs))
    ensures forall i :: 0 <= i < |xs| ==> xs[i].data.categoryId in DistinctCategoryIds(xs)
    ensures forall k :: k in DistinctCategoryIds(xs) ==> exists i :: 0 <= i < |xs| && xs[i].data.categoryId == k
  {
    if xs != [] {
      var p := xs[..|xs| - 1];
      DistinctCategoryIdsSpec(p);
      assert forall i :: 0 <= i < |xs| - 1 ==> xs[i] == p[i];
    }
  }

  /** The sum of the amounts of the expenses in category k, accumulated left to right. */
  function CategoryTotal(xs: seq<ExpenseRow>, k: int): int {
    if xs == [] then 0
    else CategoryTotal(xs[..|xs| - 1], k) + (if xs[|xs| - 1].data.categoryId == k then xs[|xs| - 1].data.amount else 0)
  }

  /** The accumulating `Map`'s entries after `forEach` over xs: each expense adds its amount under its category id. */
  function RunningTotals(xs: seq<ExpenseRow>): map<int, int> {
    if xs == [] then map[]
    else
      var m := RunningTotals(xs[..|xs| - 1]);
      var x := xs[|xs| - 1];
      var c := x.data.categoryId;
      m[c := (if c in m then m[c] else 0) + x.data.amount]
  }

  /** The map's keys are the distinct category ids, and each holds that category's total. */
  lemma {:induction false} RunningTotalsSpec(xs: seq<ExpenseRow>)
    ensures forall k :: k in RunningTotals(xs) <==> k in DistinctCategoryIds(xs)
    ensures forall k :: k in RunningTotals(xs) ==> RunningTotals(xs)[k] == CategoryTotal(xs, k)
  {
    if xs != [] {
      var p, c := xs[..|xs| - 1], xs[|xs| - 1].data.categoryId;
      RunningTotalsSpec(p);
      if c !in DistinctCategoryIds(p) {
        DistinctCategoryIdsSpec(p);
        CategoryTotalAbsent(p, c);
      }
    }
  }

  /** `categories.get(id)?.name || 'Unknown'`: a missing category and an empty name both read 'Unknown'. */
  function CategoryName(cats: seq<CategoryRow>, k: int): (name: string)
    ensures Get(cats, k).None? ==> name == "Unknown"
    ensures Get(cats, k).Some? && Get(cats, k).value.name == "" ==> name == "Unknown"
    ensures Get(cats, k).Some? && Get(cats, k).value.name != "" ==> name == Get(cats, k).value.name
  {
    match Get(cats, k)
    case None => "Unknown"
    case Some(c) => if c.name != "" then c.name else "Unknown"
  }

  function TotalsRows(ks: seq<int>, xs: seq<ExpenseRow>, cats: seq<CategoryRow>): (rows: seq<CategoryTotalRow>)
    ensures |rows| == |ks|
    ensures forall i :: 0 <= i < |ks| ==>
      rows[i] == CategoryTotalRow(ks[i], CategoryName(cats, ks[i]), CategoryTotal(xs, ks[i]))
  {
    if ks == [] then []
    else
      var k := ks[|ks| - 1];
      TotalsRows(ks[..|ks| - 1], xs, cats) + [CategoryTotalRow(k, CategoryName(cats, k), CategoryTotal(xs, k))]
  }

  /** What `getCategoryExpenseTotals` returns for the in-range expenses `xs`. */
  function CategoryTotalsOf(xs: seq<ExpenseRow>, cats: seq<CategoryRow>): seq<CategoryTotalRow> {
    TotalsRows(DistinctCategoryIds(xs), xs, cats)
  }

  function SumTotals(rows: seq<CategoryTotalRow>): int {
    if rows == [] then 0 else SumTotals(rows[..|rows| - 1]) + rows[|rows| - 1].total
  }

  /** An id that never occurs among the expenses has total 0. */
  lemma {:induction false} CategoryTotalAbsent(xs: seq<ExpenseRow>, k: int)
    requires forall i :: 0 <= i < |xs| ==> xs[i].data.categoryId != k
    ensures CategoryTotal(xs, k) == 0
  {
    if xs != [] {
      CategoryTotalAbsent(xs[..|xs| - 1], k);
    }
  }

  /** Adding one expense to the input adds its amount to exactly the row of its category, if listed once. */
  lemma {:induction false} TotalsRowsStep(ks: seq<int>, p: seq<ExpenseRow>, x: ExpenseRow, cats: seq<CategoryRow>)
    requires NoDuplicates(ks)
    ensures SumTotals(TotalsRows(ks, p + [x], cats))
         == SumTotals(TotalsRows(ks, p, cats)) + (if x.data.categoryId in ks then x.data.amount else 0)
  {
    if ks != [] {
      var ks' := ks[..|ks| - 1];
      var k := ks[|ks| - 1];
      assert NoDuplicates(ks');
      TotalsRowsStep(ks', p, x, cats);
      assert (p + [x])[..|p + [x]| - 1] == p;
      assert x.data.categoryId in ks <==> x.data.categoryId in ks' || x.data.categoryId == k;
      assert k !in ks';
    }
  }

  /** The category rows partition the in-range expenses: their totals add up to the plain sum. */
  lemma {:induction false} CategoryTotalsPartition(xs: seq<ExpenseRow>, cats: seq<CategoryRow>)
    ensures SumTotals(CategoryTotalsOf(xs, cats)) == SumAmounts(xs)
    decreases |xs|
  {
    if xs != [] {
      var p, x := xs[..|xs| - 1], xs[|xs| - 1];
      var c, a := x.data.categoryId, x.data.amount;
      assert xs == p + [x];
      var ks := DistinctCategoryIds(p);
      DistinctCategoryIdsSpec(p);
      CategoryTotalsPartition(p, cats);
      assert SumTotals(TotalsRows(ks, p, cats)) == SumAmounts(p);
      TotalsRowsStep(ks, p, x, cats);
      assert SumAmounts(xs) == SumAmounts(p) + a;
      if c in ks {
        assert DistinctCategoryIds(xs) == ks;
      } else {
        assert DistinctCategoryIds(xs) == ks + [c];
        CategoryTotalAbsent(p, c);
        assert CategoryTotal(xs, c) == a;
        var rows := TotalsRows(ks + [c], xs, cats);
        assert (ks + [c])[..|ks|] == ks;
        assert rows == TotalsRows(ks, xs, cats) + [CategoryTotalRow(c, CategoryName(cats, c), a)];
        assert rows[..|rows| - 1] == TotalsRows(ks, xs, cats);
        assert SumTotals(rows) == SumTotals(TotalsRows(ks, xs, cats)) + a;
      }
    }
  }

  /** No two rows share a category id. */
  lemma CategoryTotalsDistinct(xs: seq<ExpenseRow>, cats: seq<CategoryRow>)
    ensures var rows := CategoryTotalsOf(xs, cats);
      forall i, j :: 0 <= i < j < |rows| ==> rows[i].categoryId != rows[j].categoryId
  {
    var ks := DistinctCategoryIds(xs);
    DistinctCategoryIdsSpec(xs);
    var rows := TotalsRows(ks, xs, cats);
    forall i, j | 0 <= i < j < |rows| ensures rows[i].categoryId != rows[j].categoryId {
      assert rows[i].categoryId == ks[i] && rows[j].categoryId == ks[j];
    }
  }

  /** Every category id occurring among the expenses has a row. */
  lemma CategoryTotalsCover(xs: seq<ExpenseRow>, cats: seq<CategoryRow>)
    ensures var rows := CategoryTotalsOf(xs, cats);
      forall j :: 0 <= j < |xs| ==> exists i :: 0 <= i < |rows| && rows[i].categoryId == xs[j].data.categoryId
  {
    var ks := DistinctCategoryIds(xs);
    DistinctCategoryIdsSpec(xs);
    var rows := CategoryTotalsOf(xs, cats);
    assert rows == TotalsRows(ks, xs, cats);
    forall j | 0 <= j < |xs| ensures exists i :: 0 <= i < |rows| && rows[i].categoryId == xs[j].data.categoryId {
      assert xs[j].data.categoryId in ks;
      var i :| 0 <= i < |ks| && ks[i] == xs[j].data.categoryId;
      assert rows[i].categoryId == ks[i];
    }
  }

  /** Every row belongs to a category id occurring among the expenses. */
  lemma CategoryTotalsOnlyOccurring(xs: seq<ExpenseRow>, cats: seq<CategoryRow>)
    ensures var rows := CategoryTotalsOf(xs, cats);
      forall i :: 0 <= i < |rows| ==> exists j :: 0 <= j < |xs| && xs[j].data.categoryId == rows[i].categoryId
  {
    var ks := DistinctCategoryIds(xs);
    DistinctCategoryIdsSpec(xs);
    var rows := TotalsRows(ks, xs, cats);
    forall i | 0 <= i < |rows| ensures exists j :: 0 <= j < |xs| && xs[j].data.categoryId == rows[i].categoryId {
      assert rows[i].categoryId == ks[i] && ks[i] in ks;
    }
  }

  // ---------------------------------------------------------------------------
  // The N-month trend series

  datatype TrendPoint = TrendPoint(month: string, total: int)

  /** The month of `new Date(now.getFullYear(), now.getMonth() - i, 1)`, as (year, 1-based month). */
  function TrendMonth(now: Instant, i: int): (ym: (int, int))
    ensures 1 <= ym.1 <= 12
  {
    NormalizedMonth(now.year, now.month - 1 - i)
  }

  /**
   * The point for the month i months before now, given how a calendar month's
   * total is computed: the month of `new Date(year, month - i, 1)` gives the
   * label and the month whose total is taken.
   */
  function TrendPointWith(total: (int, int) -> int, now: Instant, i: int): TrendPoint {
    var ym := TrendMonth(now, i);
    TrendPoint(MonthLabel(ym.1), total(ym.0, ym.1))
  }

  /** `getMonthlyExpenseTotal` of one user, as a function of (year, month). */
  function MonthTotals(t: seq<ExpenseRow>, userId: int): (int, int) -> int {
    (year, month) => MonthlyTotal(t, userId, year, month)
  }

  /** The point for the month i months before now, totalled over the expense table. */
  function TrendPointAt(t: seq<ExpenseRow>, userId: int, now: Instant, i: int): TrendPoint {
    TrendPointWith(MonthTotals(t, userId), now, i)
  }

  /** The first n points of a series of `months` points, built oldest first: i = months - 1 down to months - n. */
  function TrendsPrefix(total: (int, int) -> int, now: Instant, months: int, n: nat): (r: seq<TrendPoint>)
    ensures |r| == n
  {
    if n == 0 then [] else TrendsPrefix(total, now, months, n - 1) + [TrendPointWith(total, now, months - n)]
  }

  /** What `getMonthlyTrends(userId, months)` returns: all `months` points, none for a count of 0 or less. */
  function MonthlyTrends(t: seq<ExpenseRow>, userId: int, months: int, now: Instant): (r: seq<TrendPoint>)
    ensures |r| == if months > 0 then months else 0
  {
    TrendsPrefix(MonthTotals(t, userId), now, months, if months > 0 then months else 0)
  }

  /** Point k of a prefix is the point for the month `months - 1 - k` months before now. */
  lemma {:induction false} TrendsPrefixPoints(total: (int, int) -> int, now: Instant, months: int, n: nat)
    ensures forall k :: 0 <= k < n ==> TrendsPrefix(total, now, months, n)[k] == TrendPointWith(total, now, months - 1 - k)
  {
    if n > 0 {
      TrendsPrefixPoints(total, now, months, n - 1);
    }
  }

  /** Point k of the series is the point for the month `months - 1 - k` months before now. */
  lemma MonthlyTrendsPoints(t: seq<ExpenseRow>, userId: int, months: int, now: Instant)
    ensures forall k :: 0 <= k < |MonthlyTrends(t, userId, months, now)| ==>
      MonthlyTrends(t, userId, months, now)[k] == TrendPointAt(t, userId, now, months - 1 - k)
  {
    TrendsPrefixPoints(MonthTotals(t, userId), now, months, if months > 0 then months else 0);
  }

  /** Consecutive points are consecutive calendar months, carrying across year boundaries. */
  lemma TrendMonthsConsecutive(now: Instant, i: int)
    ensures NextMonth(TrendMonth(now, i + 1)) == TrendMonth(now, i)
  {
    NormalizedMonthStep(now.year, now.month - 1 - (i + 1));
  }

  /** The last point is the current month (a year 0..99 is read by `Date` as 1900..1999). */
  lemma TrendEndsAtCurrentMonth(now: Instant)
    requires ValidInstant(now)
    ensures TrendMonth(now, 0) == (ConstructorYear(now.year), now.month)
  {
  }

  /** Every point of the series is oldest-first, one month apart, ending at the current month. */
  lemma MonthlyTrendsShape(t: seq<ExpenseRow>, userId: int, months: int, now: Instant)
    requires ValidInstant(now) && months > 0
    ensures var r := MonthlyTrends(t, userId, months, now);
      r[months - 1].month == MonthLabel(now.month)
      && r[months - 1].total == MonthlyTotal(t, userId, ConstructorYear(now.year), now.month)
      && forall i :: 0 <= i < months - 1 ==> NextMonth(TrendMonth(now, i + 1)) == TrendMonth(now, i)
  {
    MonthlyTrendsPoints(t, userId, months, now);
    TrendEndsAtCurrentMonth(now);
    forall i | 0 <= i < months - 1 ensures NextMonth(TrendMonth(now, i + 1)) == TrendMonth(now, i) {
      TrendMonthsConsecutive(now, i);
    }
  }
}
