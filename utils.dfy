/**
 * The client's budget and date helpers. Numbers are exact reals together with
 * the three special values a JavaScript division can produce; rounding is not
 * modelled.
 */
module Utils {
  import opened Seqs
  import opened Calendar

  datatype JsNumber = Finite(v: real) | PosInfinity | NegInfinity | NaN

  /** `x >= c` for a JavaScript number and a finite constant c: false for NaN. */
  predicate AtLeast(x: JsNumber, c: real) {
    match x
    case Finite(v) => v >= c
    case PosInfinity => true
    case NegInfinity => false
    case NaN => false
  }

  /**
   * `Math.min((spent / budget) * 100, 100)`. Dividing by a zero budget gives
   * +Infinity (capped to 100), -Infinity or NaN (0 / 0), and `Math.min` passes
   * NaN through.
   */
  function CalculateBudgetPercentage(spent: real, budget: real): (p: JsNumber)
    ensures p != PosInfinity
    ensures p.Finite? ==> p.v <= 100.0
    ensures budget != 0.0 && spent / budget * 100.0 <= 100.0 ==> p == Finite(spent / budget * 100.0)
    ensures budget > 0.0 ==> p.Finite? && (p.v == 100.0 <==> spent >= budget)
    ensures budget == 0.0 ==> (p == Finite(100.0) <==> spent > 0.0) && (p == NaN <==> spent == 0.0)
  {
    if budget > 0.0 then
      RatioAtLeast(spent, budget, 1.0);
      Finite(Min(spent / budget * 100.0, 100.0))
    else if budget < 0.0 then
      Finite(Min(spent / budget * 100.0, 100.0))
    else if spent > 0.0 then Finite(100.0)
    else if spent < 0.0 then NegInfinity
    else NaN
  }

  function Min(x: real, y: real): real {
    if x < y then x else y
  }

  /** For a positive budget, the percentage reaches `100 * f` exactly when spending reaches `f` of the budget. */
  lemma RatioAtLeast(spent: real, budget: real, f: real)
    requires budget > 0.0
    ensures spent / budget * 100.0 >= 100.0 * f <==> spent >= f * budget
  {
    var q := spent / budget;
    assert spent == q * budget;
    if q >= f {
      assert q * budget >= f * budget;
    } else {
      assert q * budget < f * budget;
    }
  }

  /** Red from 100 up, yellow from 85 up, green below 85 and for NaN. */
  function GetBudgetColor(percentage: JsNumber): (c: string)
    ensures c == "bg-red-500" <==> AtLeast(percentage, 100.0)
    ensures c == "bg-yellow-500" <==> AtLeast(percentage, 85.0) && !AtLeast(percentage, 100.0)
    ensures c == "bg-green-500" <==> !AtLeast(percentage, 85.0)
  {
    if AtLeast(percentage, 100.0) then "bg-red-500"
    else if AtLeast(percentage, 85.0) then "bg-yellow-500"
    else "bg-green-500"
  }

  /**
   * With a positive budget the colour follows the share spent: red once the
   * budget is used up, yellow from 85% of it, green below that.
   */
  lemma BudgetColorOfSpending(spent: real, budget: real)
    requires budget > 0.0
    ensures var c := GetBudgetColor(CalculateBudgetPercentage(spent, budget));
      && (c == "bg-red-500" <==> spent >= budget)
      && (c == "bg-yellow-500" <==> 0.85 * budget <= spent < budget)
      && (c == "bg-green-500" <==> spent < 0.85 * budget)
  {
    RatioAtLeast(spent, budget, 0.85);
    RatioAtLeast(spent, budget, 1.0);
  }

  // ---------------------------------------------------------------------------
  // formatRelativeTime

  /** Which phrase `formatRelativeTime` uses; the times and dates inside the phrases are locale formatting. */
  datatype RelativeTime = Today | Yesterday | DaysAgo(days: int) | CalendarDate

  /** `Math.floor(ms / 86400000)`: Euclidean division is floor division for a positive divisor. */
  function FloorDays(ms: int): (d: int)
    ensures d * MsPerDay <= ms < (d + 1) * MsPerDay
  {
    ms / MsPerDay
  }

  /**
   * The bucket for a date `dateMs` seen at `nowMs` (both epoch milliseconds);
   * `None` is an invalid date, for which every comparison fails and the date
   * format is used.
   */
  function FormatRelativeTime(nowMs: int, dateMs: Option<int>): (r: RelativeTime)
    ensures dateMs.None? ==> r == CalendarDate
    ensures dateMs.Some? ==> var diff := nowMs - dateMs.value;
      && (r == Today <==> 0 <= diff < MsPerDay)
      && (r == Yesterday <==> MsPerDay <= diff < 2 * MsPerDay)
      && (r == CalendarDate <==> diff >= 7 * MsPerDay)
      && (r.DaysAgo? ==> r.days != 0 && r.days != 1 && r.days < 7
                         && r.days * MsPerDay <= diff < (r.days + 1) * MsPerDay)
      && (diff < 0 ==> r.DaysAgo? && r.days < 0)
  {
    match dateMs
    case None => CalendarDate
    case Some(d) =>
      var days := FloorDays(nowMs - d);
      if days == 0 then Today
      else if days == 1 then Yesterday
      else if days < 7 then DaysAgo(days)
      else CalendarDate
  }
}
