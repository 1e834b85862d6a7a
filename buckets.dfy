/**
 * The periods the plan-versus-actual chart is bucketed by.  The daily chart
 * keys each record by its date (`%Y-%m-%d`) and walks every day of the
 * window; the monthly chart keys each record by its month (`%Y-%m`, here
 * the first day of that month) and walks from the first of the window's
 * first month, a month at a time, while the walk has not passed the end.
 */
module Buckets {
  import opened Calendar
  import opened Seqs

  /** The key a record is totalled under. */
  function BucketOf(monthly: bool, d: Date): Date {
    if monthly then Date(d.year, d.month, 1) else d
  }

  /** Months counted from year 0: consecutive months get consecutive numbers. */
  function MonthIndex(d: Date): int {
    d.year * 12 + d.month - 1
  }

  /** The monthly walk's step: `replace(month=month + 1)`, or `replace(year=year + 1, month=1)` from December. */
  function NextMonth(d: Date): (r: Date)
    requires 1 <= d.month <= 12
    ensures 1 <= r.month <= 12 && r.day == 1
    ensures MonthIndex(r) == MonthIndex(d) + 1
  {
    if d.month == 12 then Date(d.year + 1, 1, 1) else Date(d.year, d.month + 1, 1)
  }

  /** The first days of the months the monthly walk visits, starting from `current`. */
  function MonthsFrom(current: Date, end: Date): seq<Date>
    requires 1 <= current.month <= 12 && current.day == 1 && 1 <= end.month <= 12
    decreases MonthIndex(end) - MonthIndex(current) + 1
  {
    if !AtMost(current, end) then [] else [current] + MonthsFrom(NextMonth(current), end)
  }

  /** The walk visits every month from `current`'s to `end`'s, in order, each as its first day. */
  lemma {:induction false} MonthsFromSpec(current: Date, end: Date)
    requires 1 <= current.month <= 12 && current.day == 1 && ValidDate(end)
    ensures |MonthsFrom(current, end)| ==
      if MonthIndex(current) <= MonthIndex(end) then MonthIndex(end) - MonthIndex(current) + 1 else 0
    ensures forall i :: 0 <= i < |MonthsFrom(current, end)| ==>
      MonthsFrom(current, end)[i].day == 1 && 1 <= MonthsFrom(current, end)[i].month <= 12 &&
      MonthIndex(MonthsFrom(current, end)[i]) == MonthIndex(current) + i
    decreases MonthIndex(end) - MonthIndex(current) + 1
  {
    if AtMost(current, end) {
      MonthsFromSpec(NextMonth(current), end);
    }
  }

  /** The buckets the chart walks, in order: every day of the window, or every month it touches. */
  function ChartBuckets(monthly: bool, start: Date, end: Date): seq<Date>
    requires ValidDate(start) && ValidDate(end)
  {
    if monthly then MonthsFrom(Date(start.year, start.month, 1), end) else DaysFrom(start, end)
  }

  /** Two first-of-month dates with the same month number are the same date. */
  lemma SameMonth(a: Date, b: Date)
    requires 1 <= a.month <= 12 && 1 <= b.month <= 12 && a.day == b.day
    requires MonthIndex(a) == MonthIndex(b)
    ensures a == b
  {
  }

  /** No bucket is walked twice, and every date of the window falls in a walked bucket. */
  lemma BucketsSpec(monthly: bool, start: Date, end: Date)
    requires ValidDate(start) && ValidDate(end)
    ensures NoDuplicates(ChartBuckets(monthly, start, end))
    ensures forall d :: ValidDate(d) && AtMost(start, d) && AtMost(d, end) ==>
      BucketOf(monthly, d) in ChartBuckets(monthly, start, end)
  {
    if monthly {
      MonthlyBucketsSpec(start, end);
    } else {
      DailyBucketsSpec(start, end);
    }
  }

  lemma MonthlyBucketsSpec(start: Date, end: Date)
    requires ValidDate(start) && ValidDate(end)
    ensures NoDuplicates(ChartBuckets(true, start, end))
    ensures forall d :: ValidDate(d) && AtMost(start, d) && AtMost(d, end) ==>
      BucketOf(true, d) in ChartBuckets(true, start, end)
  {
    var first := Date(start.year, start.month, 1);
    var ms := MonthsFrom(first, end);
    MonthsFromSpec(first, end);
    forall i, j | 0 <= i < j < |ms| ensures ms[i] != ms[j] {
      assert MonthIndex(ms[i]) < MonthIndex(ms[j]);
    }
    forall d | ValidDate(d) && AtMost(start, d) && AtMost(d, end) ensures BucketOf(true, d) in ms {
      var k := MonthIndex(d) - MonthIndex(first);
      assert 0 <= k < |ms|;
      SameMonth(ms[k], BucketOf(true, d));
    }
  }

  lemma DailyBucketsSpec(start: Date, end: Date)
    requires ValidDate(start) && ValidDate(end)
    ensures NoDuplicates(ChartBuckets(false, start, end))
    ensures forall d :: ValidDate(d) && AtMost(start, d) && AtMost(d, end) ==>
      BucketOf(false, d) in ChartBuckets(false, start, end)
  {
    var ds := DaysFrom(start, end);
    DaysFromSpec(start, end);
    forall i, j | 0 <= i < j < |ds| ensures ds[i] != ds[j] {
      OrdinalOrder(ds[i], ds[j]);
    }
    forall d | ValidDate(d) && AtMost(start, d) && AtMost(d, end) ensures d in ds {
      OrdinalOrder(start, d);
      OrdinalOrder(d, end);
      OrdinalOrder(start, end);
      var k := Ordinal(d) - Ordinal(start);
      assert 0 <= k < |ds|;
      OrdinalOrder(ds[k], d);
    }
  }
}
