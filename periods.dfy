/**
 * Turning a request's comparison mode and date strings into the current and
 * previous report windows.  Date strings arrive already parsed: `None` stands
 * for a string `strptime('%Y-%m-%d')` rejects (or a missing one, whose
 * default text parses to the same fallback date).
 */
module Periods {
  import opened Calendar
  import opened Seqs

  /** The comparison-mode token and the two years it selects. */
  datatype Years = Years(current: int, previous: int)

  /** The dashboard's mode mapping; any unknown token means 2025 against 2024. */
  function ComparisonYears(mode: string): (y: Years)
    ensures y.previous < y.current
    ensures y.current == 2026 <==> mode == "2026-2025" || mode == "2026-2024"
    ensures !IsLeap(y.current)
  {
    if mode == "2026-2025" then Years(2026, 2025)
    else if mode == "2026-2024" then Years(2026, 2024)
    else Years(2025, 2024)
  }

  /**
   * The insights page's mapping, which also names a year two periods back;
   * the 2026-2024 mode has none.
   */
  function InsightYears(mode: string): (r: (Years, Option<int>))
    ensures r.0 == ComparisonYears(mode)
    ensures r.1.None? <==> mode == "2026-2024"
    ensures r.1.Some? ==> r.1.value == r.0.previous - 1
  {
    if mode == "2026-2025" then (Years(2026, 2025), Some(2024))
    else if mode == "2026-2024" then (Years(2026, 2024), None)
    else (Years(2025, 2024), Some(2023))
  }

  /** A parsed date, or the fallback a parse failure recovers to. */
  function ParsedOr(parsed: Option<Date>, fallback: Date): (d: Date)
    ensures parsed.Some? ==> d == parsed.value
    ensures parsed.None? ==> d == fallback
  {
    match parsed
    case Some(p) => p
    case None => fallback
  }

  /**
   * `d.replace(year=y)`; Python raises `ValueError` for 29 February moved to
   * a common year, modelled as `None`.
   */
  function Restamp(d: Date, y: int): (r: Option<Date>)
    requires ValidDate(d) && 1 <= y
    ensures r.None? <==> d.month == 2 && d.day == 29 && !IsLeap(y)
    ensures r.Some? ==> ValidDate(r.value) && r.value == Date(y, d.month, d.day)
  {
    if d.month == 2 && d.day == 29 && !IsLeap(y) then None else Some(Date(y, d.month, d.day))
  }

  /** The end date never runs past the newest row available for the filters. */
  function ClampEnd(end: Date, maxDate: Option<Date>): (r: Date)
    ensures AtMost(r, end)
    ensures maxDate.Some? ==> AtMost(r, maxDate.value)
    ensures r == end || (maxDate.Some? && r == maxDate.value && !AtMost(end, maxDate.value))
  {
    if maxDate.Some? && !AtMost(end, maxDate.value) then maxDate.value else end
  }

  datatype Period = Period(
    years: Years,
    start: Date, end: Date,
    previousStart: Date, previousEnd: Date)

  datatype PeriodError = RestampFailed

  datatype PeriodResult = Ok(period: Period) | Err(error: PeriodError)

  /** `d.replace(year=y)` raises: d is 29 February and y is a common year. */
  predicate LeapDayLost(d: Date, y: int) {
    d.month == 2 && d.day == 29 && !IsLeap(y)
  }

  /** The start, or the end, as parsed or defaulted, before any re-stamping. */
  function StartOf(years: Years, startParsed: Option<Date>): Date {
    ParsedOr(startParsed, Date(years.current, 1, 1))
  }

  function EndOf(years: Years, endParsed: Option<Date>): Date {
    ParsedOr(endParsed, Date(years.current, 12, 31))
  }

  /**
   * The windows a resolution should give: the parsed or default dates moved
   * onto the current year, the end clamped to the newest available date, and
   * the previous window the current one moved onto the previous year.
   */
  predicate WindowsOf(years: Years, startParsed: Option<Date>, endParsed: Option<Date>,
                      maxDate: Option<Date>, p: Period)
  {
    var start, end := StartOf(years, startParsed), EndOf(years, endParsed);
    p.years == years &&
    p.start == Date(years.current, start.month, start.day) &&
    p.end == ClampEnd(Date(years.current, end.month, end.day), maxDate) &&
    p.previousStart == Date(years.previous, p.start.month, p.start.day) &&
    p.previousEnd == Date(years.previous, p.end.month, p.end.day)
  }

  /** Some `replace(year=...)` of the resolution raises. */
  predicate ResolutionFails(years: Years, startParsed: Option<Date>, endParsed: Option<Date>, maxDate: Option<Date>) {
    var start, end := StartOf(years, startParsed), EndOf(years, endParsed);
    LeapDayLost(start, years.current) || LeapDayLost(end, years.current) ||
    LeapDayLost(start, years.previous) ||
    LeapDayLost(ClampEnd(Date(years.current, end.month, end.day), maxDate), years.previous)
  }

  /**
   * The dashboard's period resolution: parse with fallback to 1 January /
   * 31 December of the current year, re-stamp both dates onto the current
   * year, clamp the end to the newest available date, then re-stamp onto the
   * previous year.  `maxDate` is `Max('cd')` of the current year's filtered
   * rows (absent when there are none).
   */
  function DashboardPeriod(mode: string, startParsed: Option<Date>, endParsed: Option<Date>,
                           maxDate: Option<Date>): (r: PeriodResult)
    requires startParsed.Some? ==> ValidDate(startParsed.value)
    requires endParsed.Some? ==> ValidDate(endParsed.value)
    requires maxDate.Some? ==> ValidDate(maxDate.value)
    ensures r.Ok? ==> r.period.years == ComparisonYears(mode)
    ensures r.Ok? ==> r.period.start.year == r.period.years.current &&
                      r.period.previousStart.year == r.period.years.previous &&
                      r.period.previousEnd.year == r.period.years.previous
    ensures r.Ok? ==> ValidDate(r.period.start) && ValidDate(r.period.end) &&
                      ValidDate(r.period.previousStart) && ValidDate(r.period.previousEnd)
    ensures r.Ok? && maxDate.Some? ==> AtMost(r.period.end, maxDate.value)
    ensures r.Err? <==> ResolutionFails(ComparisonYears(mode), startParsed, endParsed, maxDate)
    ensures r.Ok? ==> WindowsOf(ComparisonYears(mode), startParsed, endParsed, maxDate, r.period)
    ensures r.Ok? && (maxDate.None? || maxDate.value.year == ComparisonYears(mode).current) ==>
      r.period.end.year == ComparisonYears(mode).current
  {
    var years := ComparisonYears(mode);
    ResolvePeriodWindows(years, startParsed, endParsed, maxDate);
    ResolvePeriod(years, startParsed, endParsed, maxDate)
  }

  /** The resolution once the mode has chosen the two years. */
  function ResolvePeriod(years: Years, startParsed: Option<Date>, endParsed: Option<Date>,
                         maxDate: Option<Date>): (r: PeriodResult)
    requires 1 <= years.previous < years.current
    requires startParsed.Some? ==> ValidDate(startParsed.value)
    requires endParsed.Some? ==> ValidDate(endParsed.value)
    requires maxDate.Some? ==> ValidDate(maxDate.value)
    ensures r.Ok? ==> r.period.years == years
    ensures r.Ok? ==> r.period.start.year == years.current &&
                      r.period.previousStart.year == years.previous &&
                      r.period.previousEnd.year == years.previous
    ensures r.Ok? ==> ValidDate(r.period.start) && ValidDate(r.period.end) &&
                      ValidDate(r.period.previousStart) && ValidDate(r.period.previousEnd)
    ensures r.Ok? && maxDate.Some? ==> AtMost(r.period.end, maxDate.value)
  {
    var start, end := StartOf(years, startParsed), EndOf(years, endParsed);
    var s := Restamp(start, years.current);
    var e := Restamp(end, years.current);
    if s.None? || e.None? then Err(RestampFailed)
    else
      var clamped := ClampEnd(e.value, maxDate);
      assert ValidDate(clamped);
      var ps := Restamp(s.value, years.previous);
      var pe := Restamp(clamped, years.previous);
      if ps.None? || pe.None? then Err(RestampFailed)
      else Ok(Period(years, s.value, clamped, ps.value, pe.value))
  }

  /**
   * What a resolution gives: it fails exactly when some `replace(year=...)`
   * meets a 29 February in a common year; otherwise its windows are the
   * parsed or default dates moved onto the current year (the end clamped to
   * the newest available date) and the previous window is the current one
   * moved onto the previous year.  With the newest available date in the
   * current year, as the filtered query guarantees, the end stays in it.
   */
  lemma ResolvePeriodWindows(years: Years, startParsed: Option<Date>, endParsed: Option<Date>,
                             maxDate: Option<Date>)
    requires 1 <= years.previous < years.current
    requires startParsed.Some? ==> ValidDate(startParsed.value)
    requires endParsed.Some? ==> ValidDate(endParsed.value)
    requires maxDate.Some? ==> ValidDate(maxDate.value)
    ensures ResolvePeriod(years, startParsed, endParsed, maxDate).Err? <==>
            ResolutionFails(years, startParsed, endParsed, maxDate)
    ensures ResolvePeriod(years, startParsed, endParsed, maxDate).Ok? ==>
            WindowsOf(years, startParsed, endParsed, maxDate, ResolvePeriod(years, startParsed, endParsed, maxDate).period)
    ensures ResolvePeriod(years, startParsed, endParsed, maxDate).Ok? &&
            (maxDate.None? || maxDate.value.year == years.current) ==>
            ResolvePeriod(years, startParsed, endParsed, maxDate).period.end.year == years.current
  {
    var start, end := StartOf(years, startParsed), EndOf(years, endParsed);
    var e := Date(years.current, end.month, end.day);
    if !LeapDayLost(end, years.current) {
      assert Restamp(end, years.current) == Some(e);
    }
  }

  /**
   * Resolution fails only on a 29 February handed to a common current year:
   * the current years 2025 and 2026 are common years, so once both dates have
   * been moved onto them no date is a 29 February any more, and the newest
   * available date lies in the current year.
   */
  lemma DashboardPeriodFailsOnlyOnLeapDay(mode: string, startParsed: Option<Date>,
                                          endParsed: Option<Date>, maxDate: Option<Date>)
    requires startParsed.Some? ==> ValidDate(startParsed.value)
    requires endParsed.Some? ==> ValidDate(endParsed.value)
    requires maxDate.Some? ==> ValidDate(maxDate.value) && maxDate.value.year == ComparisonYears(mode).current
    ensures DashboardPeriod(mode, startParsed, endParsed, maxDate).Err? <==>
      (startParsed.Some? && startParsed.value.month == 2 && startParsed.value.day == 29) ||
      (endParsed.Some? && endParsed.value.month == 2 && endParsed.value.day == 29)
  {
  }

  /** The plan page's window: first day of the start month to last day of the end month. */
  function MonthRangeWindow(year: int, startMonth: int, endMonth: int): (w: (Date, Date))
    requires 1 <= year && 1 <= startMonth <= 12 && 1 <= endMonth <= 12
    ensures ValidDate(w.0) && ValidDate(w.1)
    ensures w.0.day == 1 && NextDay(w.1).day == 1
    ensures AtMost(w.0, w.1) <==> startMonth <= endMonth
  {
    (Date(year, startMonth, 1), Date(year, endMonth, DaysInMonth(year, endMonth)))
  }
}
