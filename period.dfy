/** real_data_app.py, `get_companies_data_by_period`: the period a `date_filter`
    token stands for, and the per-account counter built on it. Dates are day
    ordinals (`date.toordinal()`), so `today - timedelta(days=k)` is `today - k`. */
module Period {
  import opened Wrappers

  /** A day as `datetime.date` numbers it: 0001-01-01 is day 1. */
  type Ordinal = n: int | n >= 1 witness 1

  /** An inclusive range of days, as `func.date(...).between(start, end)` uses it. */
  datatype Interval = Interval(start: int, end: int)

  /** `date - timedelta` before 0001-01-01 raises OverflowError. */
  datatype PeriodError = DateOutOfRange

  /** `today - timedelta(days=k)`. */
  function DaysBefore(today: Ordinal, k: nat): (r: Result<Ordinal, PeriodError>)
    ensures r.Ok? <==> today - k >= 1
    ensures r.Ok? ==> r.value == today - k
  {
    if today - k >= 1 then Ok(today - k) else Err(DateOutOfRange)
  }

  /** How many days before today each named period starts. */
  function Lookback(token: string): (k: Option<nat>)
    ensures k.Some? <==> token in {"today", "week", "month", "year"}
  {
    if token == "today" then Some(0)
    else if token == "week" then Some(7)
    else if token == "month" then Some(30)
    else if token == "year" then Some(365)
    else None
  }

  /** The `if date_filter == ...` chain at the head of `get_companies_data_by_period`. */
  function ResolvePeriod(token: string, today: Ordinal, startDate: Option<int>, endDate: Option<int>)
    : (r: Result<Interval, PeriodError>)
    // the named periods end today and start no later than they end
    ensures r.Ok? && Lookback(token).Some? ==>
      r.value.end == today && r.value.start == today - Lookback(token).value && r.value.start <= r.value.end
    // a custom range with both dates passes through unchecked
    ensures token == "custom" && startDate.Some? && endDate.Some? ==>
      r == Ok(Interval(startDate.value, endDate.value))
    // anything else is today alone
    ensures Lookback(token).None? && !(token == "custom" && startDate.Some? && endDate.Some?) ==>
      r == Ok(Interval(today, today))
    // only a look-back past the first representable day fails
    ensures r.Err? <==> Lookback(token).Some? && today - Lookback(token).value < 1
  {
    if token == "today" then Ok(Interval(today, today))
    else if token == "week" then
      (match DaysBefore(today, 7) case Ok(s) => Ok(Interval(s, today)) case Err(e) => Err(e))
    else if token == "month" then
      (match DaysBefore(today, 30) case Ok(s) => Ok(Interval(s, today)) case Err(e) => Err(e))
    else if token == "year" then
      (match DaysBefore(today, 365) case Ok(s) => Ok(Interval(s, today)) case Err(e) => Err(e))
    else if token == "custom" && startDate.Some? && endDate.Some? then Ok(Interval(startDate.value, endDate.value))
    else Ok(Interval(today, today))
  }

  /** The number of days an interval covers, both ends included. */
  function Days(iv: Interval): int {
    iv.end - iv.start + 1
  }

  /** `today` is one day; `week`, `month` and `year` include today and the
      7, 30 or 365 days before it. */
  lemma PeriodLengths(today: Ordinal)
    ensures Days(ResolvePeriod("today", today, None, None).value) == 1
    ensures today > 7 ==> Days(ResolvePeriod("week", today, None, None).value) == 8
    ensures today > 30 ==> Days(ResolvePeriod("month", today, None, None).value) == 31
    ensures today > 365 ==> Days(ResolvePeriod("year", today, None, None).value) == 366
    ensures ResolvePeriod("all", today, None, None) == Ok(Interval(today, today))
  {
  }

  /** What the database tells the counter: the `new` and `updated` counts of one
      account of one branch over an interval, or None when the query raises. */
  type CountQuery = (int, int, Interval) -> Option<(nat, nat)>

  /** The dictionary `get_companies_data_by_period` returns. `failed` marks the
      ' (エラー)' suffix on its period text. */
  datatype PeriodCounts = PeriodCounts(newCount: nat, updateCount: nat, unassignedCount: nat,
                                       period: Interval, failed: bool)

  /** `get_companies_data_by_period`. The period is resolved outside the `try`,
      so its OverflowError reaches the caller; a failing query is swallowed and
      reported as zeros. */
  function CountsByPeriod(areaId: int, accountId: int, token: string, today: Ordinal,
                          startDate: Option<int>, endDate: Option<int>, query: CountQuery)
    : (r: Result<PeriodCounts, PeriodError>)
    ensures r.Err? <==> ResolvePeriod(token, today, startDate, endDate).Err?
    ensures r.Ok? ==> r.value.period == ResolvePeriod(token, today, startDate, endDate).value
    ensures r.Ok? ==> r.value.unassignedCount == 0
    ensures r.Ok? ==> (r.value.failed <==> query(areaId, accountId, r.value.period).None?)
    ensures r.Ok? && r.value.failed ==> r.value.newCount == 0 && r.value.updateCount == 0
    ensures r.Ok? && !r.value.failed ==>
      query(areaId, accountId, r.value.period) == Some((r.value.newCount, r.value.updateCount))
  {
    match ResolvePeriod(token, today, startDate, endDate)
    case Err(e) => Err(e)
    case Ok(iv) =>
      match query(areaId, accountId, iv)
      case Some(counts) => Ok(PeriodCounts(counts.0, counts.1, 0, iv, false))
      case None => Ok(PeriodCounts(0, 0, 0, iv, true))
  }

  /** A custom range with both dates never raises. */
  lemma CustomNeverRaises(areaId: int, accountId: int, today: Ordinal, s: int, e: int, query: CountQuery)
    ensures CountsByPeriod(areaId, accountId, "custom", today, Some(s), Some(e), query).Ok?
  {
  }
}
