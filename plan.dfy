/**
 * The plan workbook's monthly rows and their expansion into daily plan
 * records (`expand_to_daily` in the plan-versus-actual page): each day of a
 * row's month that falls in the requested window gets an equal share of the
 * month's turnover and tickets, and the month's basket unchanged.
 */
module Plan {
  import opened Calendar
  import opened Seqs

  /** One row of the workbook's `Main` sheet: `geo`, `Year`, `Month`, `Plan_turnover`, `Plan_tickets`, `Plan_basket`. */
  datatype PlanRow = PlanRow(geo: string, year: int, month: int, turnover: real, tickets: real, basket: real)

  /** A row whose month `date(year, month, 1)` and `calendar.monthrange` accept. */
  predicate ValidRow(r: PlanRow) {
    1 <= r.year && 1 <= r.month <= 12
  }

  predicate ValidRows(rows: seq<PlanRow>) {
    forall i :: 0 <= i < |rows| ==> ValidRow(rows[i])
  }

  const AllGeos: string := "all"

  /**
   * The workbook filter: the row's month lies between the first of the
   * window's first month and the first of its last month, and, unless every
   * location is asked for, the row is the selected location's.
   */
  predicate Selected(r: PlanRow, start: Date, end: Date, geo: string) {
    var planDate := Date(r.year, r.month, 1);
    AtMost(Date(start.year, start.month, 1), planDate) &&
    AtMost(planDate, Date(end.year, end.month, 1)) &&
    (geo == AllGeos || r.geo == geo)
  }

  function SelectedRows(rows: seq<PlanRow>, start: Date, end: Date, geo: string): (r: seq<PlanRow>)
    ensures forall x :: x in r ==> x in rows && Selected(x, start, end, geo)
    ensures ValidRows(rows) ==> ValidRows(r)
  {
    assert ValidRows(rows) ==> forall x :: x in rows ==> ValidRow(x);
    Filter(rows, (x: PlanRow) => Selected(x, start, end, geo))
  }

  /** One record of `expand_to_daily`; `year`, `month` and `day` are the date's own fields. */
  datatype DailyPlan = DailyPlan(geo: string, date: Date, plan: real, tickets: real, basket: real)

  predicate InWindow(start: Date, end: Date, d: Date) {
    AtMost(start, d) && AtMost(d, end)
  }

  /** `monthly_plan / days_in_month` */
  function DailyShare(r: PlanRow): real
    requires ValidRow(r)
  {
    r.turnover / DaysInMonth(r.year, r.month) as real
  }

  /** The record for one day of a row's month. */
  function DayOf(r: PlanRow, day: int): DailyPlan
    requires ValidRow(r)
  {
    var n := DaysInMonth(r.year, r.month) as real;
    DailyPlan(r.geo, Date(r.year, r.month, day), DailyShare(r), r.tickets / n, r.basket)
  }

  /** The records for days 1 .. upTo of a row's month, the in-window ones only, in day order. */
  function DaysOfRow(r: PlanRow, start: Date, end: Date, upTo: nat): seq<DailyPlan>
    requires ValidRow(r)
  {
    if upTo == 0 then []
    else
      DaysOfRow(r, start, end, upTo - 1) +
      (if InWindow(start, end, Date(r.year, r.month, upTo)) then [DayOf(r, upTo)] else [])
  }

  /** The records of a whole row. */
  function RowRecords(r: PlanRow, start: Date, end: Date): seq<DailyPlan>
    requires ValidRow(r)
  {
    DaysOfRow(r, start, end, DaysInMonth(r.year, r.month))
  }

  /**
   * Everything `expand_to_daily` returns: each row's records, row after row.
   * Every record is a valid date inside the window.
   */
  function Expanded(rows: seq<PlanRow>, start: Date, end: Date): (records: seq<DailyPlan>)
    requires ValidRows(rows)
    ensures forall i :: 0 <= i < |records| ==> ValidDate(records[i].date) && InWindow(start, end, records[i].date)
  {
    if rows == [] then []
    else
      var last := rows[|rows| - 1];
      DaysOfRowSpec(last, start, end, DaysInMonth(last.year, last.month));
      Expanded(rows[..|rows| - 1], start, end) + RowRecords(last, start, end)
  }

  /** `expand_to_daily` as the page runs it: a loop over the rows and, inside it, over the days of each month. */
  method ExpandToDaily(rows: seq<PlanRow>, start: Date, end: Date) returns (records: seq<DailyPlan>)
    requires ValidRows(rows)
    ensures records == Expanded(rows, start, end)
  {
    records := [];
    var i := 0;
    while i < |rows|
      invariant 0 <= i <= |rows|
      invariant records == Expanded(rows[..i], start, end)
    {
      var row := rows[i];
      var daysInMonth := DaysInMonth(row.year, row.month);
      var dailyPlan := row.turnover / daysInMonth as real;
      var dailyTickets := row.tickets / daysInMonth as real;
      var before := records;
      var day := 1;
      while day <= daysInMonth
        invariant 1 <= day <= daysInMonth + 1
        invariant records == before + DaysOfRow(row, start, end, day - 1)
      {
        var current := Date(row.year, row.month, day);
        if AtMost(start, current) && AtMost(current, end) {
          records := records + [DailyPlan(row.geo, current, dailyPlan, dailyTickets, row.basket)];
        }
        day := day + 1;
      }
      assert rows[..i + 1][..i] == rows[..i];
      i := i + 1;
    }
    assert rows[..|rows|] == rows;
  }

  // ------------------------------------------------------------ what the records are

  /** The daily plan values of some records, in order. */
  function Plans(records: seq<DailyPlan>): (r: seq<real>)
    ensures |r| == |records| && forall i :: 0 <= i < |records| ==> r[i] == records[i].plan
  {
    seq(|records|, i requires 0 <= i < |records| => records[i].plan)
  }

  function Turnovers(rows: seq<PlanRow>): (r: seq<real>)
    ensures |r| == |rows| && forall i :: 0 <= i < |rows| ==> r[i] == rows[i].turnover
  {
    seq(|rows|, i requires 0 <= i < |rows| => rows[i].turnover)
  }

  /**
   * A row's records are real dates of its own month and location, all in
   * the window, one per in-window day, each carrying an equal share of the
   * month's plan.
   */
  lemma {:induction false} DaysOfRowSpec(r: PlanRow, start: Date, end: Date, upTo: nat)
    requires ValidRow(r) && upTo <= DaysInMonth(r.year, r.month)
    ensures var rs := DaysOfRow(r, start, end, upTo);
      |rs| <= upTo &&
      forall i :: 0 <= i < |rs| ==>
        ValidDate(rs[i].date) && InWindow(start, end, rs[i].date) &&
        rs[i].geo == r.geo && rs[i].date.year == r.year && rs[i].date.month == r.month &&
        rs[i].date.day <= upTo &&
        rs[i].plan * DaysInMonth(r.year, r.month) as real == r.turnover &&
        rs[i].tickets * DaysInMonth(r.year, r.month) as real == r.tickets &&
        rs[i].basket == r.basket
  {
    if upTo > 0 {
      DaysOfRowSpec(r, start, end, upTo - 1);
    }
  }

  /** A row's records come in strictly increasing day order, so no day is expanded twice. */
  lemma {:induction false} DaysOfRowAscending(r: PlanRow, start: Date, end: Date, upTo: nat)
    requires ValidRow(r) && upTo <= DaysInMonth(r.year, r.month)
    ensures forall i, j :: 0 <= i < j < |DaysOfRow(r, start, end, upTo)| ==>
      DaysOfRow(r, start, end, upTo)[i].date.day < DaysOfRow(r, start, end, upTo)[j].date.day
  {
    if upTo > 0 {
      DaysOfRowSpec(r, start, end, upTo - 1);
      DaysOfRowAscending(r, start, end, upTo - 1);
    }
  }

  /** A month wholly inside the window is expanded into one record for each of its days, each with the daily share. */
  lemma {:induction false} WholeMonthSpread(r: PlanRow, start: Date, end: Date, upTo: nat)
    requires ValidRow(r) && upTo <= DaysInMonth(r.year, r.month)
    requires InWindow(start, end, Date(r.year, r.month, 1))
    requires InWindow(start, end, Date(r.year, r.month, DaysInMonth(r.year, r.month)))
    ensures |DaysOfRow(r, start, end, upTo)| == upTo
    ensures forall i :: 0 <= i < upTo ==> DaysOfRow(r, start, end, upTo)[i].plan == DailyShare(r)
  {
    if upTo > 0 {
      WholeMonthSpread(r, start, end, upTo - 1);
      assert InWindow(start, end, Date(r.year, r.month, upTo));
    }
  }

  /** A month wholly inside the window keeps its whole plan: the daily shares add back up to the month's turnover. */
  lemma WholeMonthKeepsPlan(r: PlanRow, start: Date, end: Date)
    requires ValidRow(r)
    requires InWindow(start, end, Date(r.year, r.month, 1))
    requires InWindow(start, end, Date(r.year, r.month, DaysInMonth(r.year, r.month)))
    ensures |RowRecords(r, start, end)| == DaysInMonth(r.year, r.month)
    ensures Sum(Plans(RowRecords(r, start, end))) == r.turnover
  {
    var n := DaysInMonth(r.year, r.month);
    WholeMonthSpread(r, start, end, n);
    SumConstant(Plans(RowRecords(r, start, end)), DailyShare(r));
    assert n as real * DailyShare(r) == r.turnover;
  }

  /** A month that ends before the window starts, or starts after it ends, contributes nothing. */
  lemma {:induction false} MonthOutsideIsDropped(r: PlanRow, start: Date, end: Date, upTo: nat)
    requires ValidRow(r) && upTo <= DaysInMonth(r.year, r.month)
    requires !AtMost(start, Date(r.year, r.month, DaysInMonth(r.year, r.month))) || !AtMost(Date(r.year, r.month, 1), end)
    ensures DaysOfRow(r, start, end, upTo) == []
  {
    if upTo > 0 {
      MonthOutsideIsDropped(r, start, end, upTo - 1);
    }
  }

  /** When every row's month lies wholly inside the window, the expansion keeps exactly the rows' total plan. */
  lemma {:induction false} ExpandedKeepsPlan(rows: seq<PlanRow>, start: Date, end: Date)
    requires ValidRows(rows)
    requires forall i :: 0 <= i < |rows| ==>
      InWindow(start, end, Date(rows[i].year, rows[i].month, 1)) &&
      InWindow(start, end, Date(rows[i].year, rows[i].month, DaysInMonth(rows[i].year, rows[i].month)))
    ensures Sum(Plans(Expanded(rows, start, end))) == Sum(Turnovers(rows))
  {
    if rows != [] {
      var init := rows[..|rows| - 1];
      var last := rows[|rows| - 1];
      ExpandedKeepsPlan(init, start, end);
      WholeMonthKeepsPlan(last, start, end);
      assert Plans(Expanded(rows, start, end)) == Plans(Expanded(init, start, end)) + Plans(RowRecords(last, start, end));
      SumAppend(Plans(Expanded(init, start, end)), Plans(RowRecords(last, start, end)));
      assert Turnovers(rows)[..|rows| - 1] == Turnovers(init);
    }
  }

  /**
   * In a window running from the first of one month to the last day of
   * another, every selected row's month lies wholly inside it.
   */
  lemma SelectedMonthIsWhole(r: PlanRow, start: Date, end: Date, geo: string)
    requires ValidRow(r) && ValidDate(start) && ValidDate(end)
    requires start.day == 1 && end.day == DaysInMonth(end.year, end.month)
    requires Selected(r, start, end, geo)
    ensures InWindow(start, end, Date(r.year, r.month, 1))
    ensures InWindow(start, end, Date(r.year, r.month, DaysInMonth(r.year, r.month)))
  {
  }
}
