/** The persisted expense-list UI store: the list filters, the quick-add dialog and the expense being edited. */
module ExpenseUi {
  import opened Seqs
  import opened Calendar

  datatype DateRange = DateRange(start: Instant, end: Instant)

  /** Every filter is optional; `{}` has none of them. */
  datatype ExpenseFilters = ExpenseFilters(
    category: Option<string>, paymentMode: Option<string>, dateRange: Option<DateRange>, searchQuery: Option<string>)

  const NoFilters := ExpenseFilters(None, None, None, None)

  /**
   * A `Partial<ExpenseFilters>` update: the outer `None` is a key the update
   * does not have; `Some(None)` is a key set to `undefined`, which the spread copies.
   */
  datatype FiltersPatch = FiltersPatch(
    category: Option<Option<string>>, paymentMode: Option<Option<string>>,
    dateRange: Option<Option<DateRange>>, searchQuery: Option<Option<string>>)

  const EmptyFiltersPatch := FiltersPatch(None, None, None, None)

  /** `{ ...filters, ...patch }`: the keys the update has replace, the others are kept. */
  function MergeFilters(f: ExpenseFilters, p: FiltersPatch): (r: ExpenseFilters)
    ensures p.category.Some? ==> r.category == p.category.value
    ensures p.category.None? ==> r.category == f.category
    ensures p.paymentMode.Some? ==> r.paymentMode == p.paymentMode.value
    ensures p.paymentMode.None? ==> r.paymentMode == f.paymentMode
    ensures p.dateRange.Some? ==> r.dateRange == p.dateRange.value
    ensures p.dateRange.None? ==> r.dateRange == f.dateRange
    ensures p.searchQuery.Some? ==> r.searchQuery == p.searchQuery.value
    ensures p.searchQuery.None? ==> r.searchQuery == f.searchQuery
  {
    ExpenseFilters(Pick(p.category, f.category), Pick(p.paymentMode, f.paymentMode),
                   Pick(p.dateRange, f.dateRange), Pick(p.searchQuery, f.searchQuery))
  }

  /** The update holding the keys of `p` and of `q`, `q`'s values winning. */
  function ThenPatch(p: FiltersPatch, q: FiltersPatch): FiltersPatch {
    FiltersPatch(if q.category.Some? then q.category else p.category,
                 if q.paymentMode.Some? then q.paymentMode else p.paymentMode,
                 if q.dateRange.Some? then q.dateRange else p.dateRange,
                 if q.searchQuery.Some? then q.searchQuery else p.searchQuery)
  }

  /**
   * An empty update changes nothing, repeating an update changes nothing more,
   * and two updates in a row act as their combined update.
   */
  lemma MergeFiltersLaws(f: ExpenseFilters, p: FiltersPatch, q: FiltersPatch)
    ensures MergeFilters(f, EmptyFiltersPatch) == f
    ensures MergeFilters(MergeFilters(f, p), p) == MergeFilters(f, p)
    ensures MergeFilters(MergeFilters(f, p), q) == MergeFilters(f, ThenPatch(p, q))
  {
  }

  class ExpenseStore {
    var filters: ExpenseFilters
    var quickAddOpen: bool
    var selectedExpenseId: Option<int>

    constructor ()
      ensures filters == NoFilters && !quickAddOpen && selectedExpenseId.None?
    {
      filters, quickAddOpen, selectedExpenseId := NoFilters, false, None;
    }

    method SetFilters(p: FiltersPatch)
      modifies this`filters
      ensures filters == MergeFilters(old(filters), p)
    {
      filters := MergeFilters(filters, p);
    }

    /** Reset to `{}`; a second clear finds nothing left to remove. */
    method ClearFilters()
      modifies this`filters
      ensures filters == NoFilters
    {
      filters := NoFilters;
    }

    method SetQuickAddOpen(open: bool)
      modifies this`quickAddOpen
      ensures quickAddOpen == open
    {
      quickAddOpen := open;
    }

    /** `None` is `null`: nothing selected. */
    method SetSelectedExpenseId(id: Option<int>)
      modifies this`selectedExpenseId
      ensures selectedExpenseId == id
    {
      selectedExpenseId := id;
    }
  }
}
