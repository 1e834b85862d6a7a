/**
 * Proleptic Gregorian calendar dates at day granularity, as Python's
 * `datetime.date` and `calendar.monthrange` see them.  Every instant the
 * reports compare (`start 00:00`, `end 23:59:59.999999`) is reduced to its
 * day; `Ordinal` plays the role of `date.toordinal()`.
 */
module Calendar {

  datatype Date = Date(year: int, month: int, day: int)

  /** `calendar.isleap`: divisible by 4 and not by 100, or divisible by 400. */
  predicate IsLeap(y: int) {
    y % 4 == 0 && (y % 100 != 0 || y % 400 == 0)
  }

  function DaysInYear(y: int): int {
    if IsLeap(y) then 366 else 365
  }

  /** The second component of `calendar.monthrange(y, m)`. */
  function DaysInMonth(y: int, m: int): (n: int)
    requires 1 <= m <= 12
    ensures 28 <= n <= 31
    ensures n == 29 <==> m == 2 && IsLeap(y)
    ensures n == 30 <==> m == 4 || m == 6 || m == 9 || m == 11
  {
    if m == 2 then (if IsLeap(y) then 29 else 28)
    else if m == 4 || m == 6 || m == 9 || m == 11 then 30
    else 31
  }

  /** A date Python's `date(year, month, day)` constructor accepts (years from 1 on). */
  predicate ValidDate(d: Date) {
    1 <= d.year && 1 <= d.month <= 12 && 1 <= d.day <= DaysInMonth(d.year, d.month)
  }

  /** Python's `date` ordering: lexicographic on (year, month, day). */
  predicate AtMost(a: Date, b: Date) {
    a.year < b.year ||
    (a.year == b.year && (a.month < b.month || (a.month == b.month && a.day <= b.day)))
  }

  /** Days in the years 1 .. y-1. */
  function DaysBeforeYear(y: int): int
    decreases y
  {
    if y <= 1 then 0 else DaysBeforeYear(y - 1) + DaysInYear(y - 1)
  }

  /** Days in months 1 .. m-1 of year y (the cumulative month table). */
  function DaysBeforeMonth(y: int, m: int): int
    requires 1 <= m <= 12
  {
    var table := [0, 31, 59, 90, 120, 151, 181, 212, 243, 273, 304, 334];
    table[m - 1] + (if m > 2 && IsLeap(y) then 1 else 0)
  }

  /** `date.toordinal()`: 1 January of year 1 is day 1. */
  function Ordinal(d: Date): int
    requires ValidDate(d)
  {
    DaysBeforeYear(d.year) + DaysBeforeMonth(d.year, d.month) + d.day
  }

  /** `d + timedelta(days=1)`. */
  function NextDay(d: Date): (r: Date)
    requires ValidDate(d)
    ensures ValidDate(r)
    ensures Ordinal(r) == Ordinal(d) + 1
  {
    if d.day < DaysInMonth(d.year, d.month) then Date(d.year, d.month, d.day + 1)
    else if d.month < 12 then
      MonthStep(d.year, d.month);
      Date(d.year, d.month + 1, 1)
    else Date(d.year + 1, 1, 1)
  }

  lemma MonthStep(y: int, m: int)
    requires 1 <= m < 12
    ensures DaysBeforeMonth(y, m) + DaysInMonth(y, m) == DaysBeforeMonth(y, m + 1)
  {
  }

  lemma {:induction false} MonthsBefore(y: int, m1: int, m2: int)
    requires 1 <= m1 < m2 <= 12
    ensures DaysBeforeMonth(y, m1) + DaysInMonth(y, m1) <= DaysBeforeMonth(y, m2)
    decreases m2 - m1
  {
    MonthStep(y, m1);
    if m1 + 1 < m2 {
      MonthsBefore(y, m1 + 1, m2);
    }
  }

  lemma {:induction false} YearsBefore(y1: int, y2: int)
    requires 1 <= y1 < y2
    ensures DaysBeforeYear(y1) + DaysInYear(y1) <= DaysBeforeYear(y2)
    decreases y2 - y1
  {
    if y1 + 1 < y2 {
      YearsBefore(y1 + 1, y2);
    }
  }

  /** Python's date comparison agrees with comparing ordinals. */
  lemma OrdinalOrder(a: Date, b: Date)
    requires ValidDate(a) && ValidDate(b)
    ensures AtMost(a, b) <==> Ordinal(a) <= Ordinal(b)
    ensures a == b <==> Ordinal(a) == Ordinal(b)
  {
    if a.year != b.year {
      var (lo, hi) := if a.year < b.year then (a, b) else (b, a);
      YearsBefore(lo.year, hi.year);
      MonthsLast(lo.year, lo.month);
    } else if a.month != b.month {
      var (lo, hi) := if a.month < b.month then (a, b) else (b, a);
      MonthsBefore(a.year, lo.month, hi.month);
    }
  }

  lemma MonthsLast(y: int, m: int)
    requires 1 <= m <= 12
    ensures DaysBeforeMonth(y, m) + DaysInMonth(y, m) <= DaysInYear(y)
  {
  }

  /** The dates `start, start+1, ..., end` (empty when start is after end). */
  function DaysFrom(start: Date, end: Date): (r: seq<Date>)
    requires ValidDate(start) && ValidDate(end)
    decreases Ordinal(end) - Ordinal(start) + 1
  {
    OrdinalOrder(start, end);
    if !AtMost(start, end) then [] else [start] + DaysFrom(NextDay(start), end)
  }

  /** The walk from `start` takes `start` and goes on from the next day, or stops once past `end`. */
  lemma DaysFromStep(start: Date, end: Date)
    requires ValidDate(start) && ValidDate(end)
    ensures AtMost(start, end) ==> DaysFrom(start, end) == [start] + DaysFrom(NextDay(start), end)
    ensures !AtMost(start, end) ==> DaysFrom(start, end) == []
  {
  }

  /** Every listed date lies in the window, the list has one date per ordinal in it, in order. */
  lemma {:induction false} DaysFromSpec(start: Date, end: Date)
    requires ValidDate(start) && ValidDate(end)
    ensures |DaysFrom(start, end)| == if AtMost(start, end) then Ordinal(end) - Ordinal(start) + 1 else 0
    ensures forall i :: 0 <= i < |DaysFrom(start, end)| ==>
      ValidDate(DaysFrom(start, end)[i]) && Ordinal(DaysFrom(start, end)[i]) == Ordinal(start) + i
    ensures forall d :: d in DaysFrom(start, end) ==> AtMost(start, d) && AtMost(d, end)
    decreases Ordinal(end) - Ordinal(start) + 1
  {
    OrdinalOrder(start, end);
    if AtMost(start, end) {
      var next := NextDay(start);
      DaysFromSpec(next, end);
      OrdinalOrder(next, end);
      var r := DaysFrom(start, end);
      assert r == [start] + DaysFrom(next, end);
      forall d | d in r ensures AtMost(start, d) && AtMost(d, end) {
        if d != start {
          assert d in DaysFrom(next, end);
          OrdinalOrder(next, d);
          OrdinalOrder(start, d);
        }
      }
    }
  }
}
