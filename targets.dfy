/**
 * `aggregate_data` of the plan-versus-actual page, daily and monthly, and
 * the KPIs computed from its result.  The plan records are totalled per
 * bucket, the actual-sales rows likewise, and then the walk over the
 * window's buckets appends eight values per bucket: the label, the plan,
 * 85 percent of the plan, the actual turnover, planned and actual tickets,
 * and planned and actual basket.  The four plan dictionaries keyed by the
 * same bucket are kept as one map to a four-field total, the two actual
 * dictionaries as one map to a two-field total.
 */
module Targets {
  import opened Calendar
  import opened Seqs
  import opened Ratios
  import opened Groups
  import opened Periods
  import opened Plan
  import opened Buckets

  /** One row of the actual-sales query: `values('un', 'cd').annotate(actual_turnover=Sum('tanxa'), tickets=Count('zedd', distinct=True))`. */
  datatype ActualDay = ActualDay(location: string, date: Date, turnover: real, tickets: nat)

  /** A bucket's entries in `plan_map`, `tickets_map`, `basket_map` and `basket_count`. */
  datatype PlanTotals = PlanTotals(plan: real, tickets: real, basket: real, count: nat)

  const NoPlan: PlanTotals := PlanTotals(0.0, 0.0, 0.0, 0)

  function AddPlan(t: PlanTotals, x: DailyPlan): PlanTotals {
    PlanTotals(t.plan + x.plan, t.tickets + x.tickets, t.basket + x.basket, t.count + 1)
  }

  /** A bucket's entries in `actual_map` and `tickets_actual_map`. */
  datatype ActualTotals = ActualTotals(turnover: real, tickets: nat)

  const NoActual: ActualTotals := ActualTotals(0.0, 0)

  function AddActual(t: ActualTotals, x: ActualDay): ActualTotals {
    ActualTotals(t.turnover + x.turnover, t.tickets + x.tickets)
  }

  /** The plan records of one bucket, totalled in record order. */
  function PlanIn(records: seq<DailyPlan>, monthly: bool, k: Date): PlanTotals {
    if records == [] then NoPlan
    else
      var last := records[|records| - 1];
      var before := PlanIn(records[..|records| - 1], monthly, k);
      if BucketOf(monthly, last.date) == k then AddPlan(before, last) else before
  }

  /** The actual-sales rows of one bucket, totalled in row order. */
  function ActualIn(actual: seq<ActualDay>, monthly: bool, k: Date): ActualTotals {
    if actual == [] then NoActual
    else
      var last := actual[|actual| - 1];
      var before := ActualIn(actual[..|actual| - 1], monthly, k);
      if BucketOf(monthly, last.date) == k then AddActual(before, last) else before
  }

  /** `.get(key, 0)` on the plan dictionaries. */
  function PlanAt(m: map<Date, PlanTotals>, k: Date): PlanTotals {
    if k in m then m[k] else NoPlan
  }

  /** `.get(key, 0)` on the actual dictionaries. */
  function ActualAt(m: map<Date, ActualTotals>, k: Date): ActualTotals {
    if k in m then m[k] else NoActual
  }

  /** The loop over the plan records: every bucket's entry is the total of its records. */
  method TotalPlans(records: seq<DailyPlan>, monthly: bool) returns (m: map<Date, PlanTotals>)
    ensures forall k :: PlanAt(m, k) == PlanIn(records, monthly, k)
  {
    m := map[];
    for i := 0 to |records|
      invariant forall k :: PlanAt(m, k) == PlanIn(records[..i], monthly, k)
    {
      var key := BucketOf(monthly, records[i].date);
      m := m[key := AddPlan(PlanAt(m, key), records[i])];
      assert records[..i + 1][..i] == records[..i];
    }
    assert records[..|records|] == records;
  }

  /** The loop over the actual-sales rows: every bucket's entry is the total of its rows. */
  method TotalActuals(actual: seq<ActualDay>, monthly: bool) returns (m: map<Date, ActualTotals>)
    ensures forall k :: ActualAt(m, k) == ActualIn(actual, monthly, k)
  {
    m := map[];
    for i := 0 to |actual|
      invariant forall k :: ActualAt(m, k) == ActualIn(actual[..i], monthly, k)
    {
      var key := BucketOf(monthly, actual[i].date);
      m := m[key := AddActual(ActualAt(m, key), actual[i])];
      assert actual[..i + 1][..i] == actual[..i];
    }
    assert actual[..|actual|] == actual;
  }

  // ------------------------------------------------------------ the chart columns

  /** The eight lists `aggregate_data` returns. */
  datatype Columns = Columns(
    labels: seq<Date>, plan: seq<real>, plan85: seq<real>, actual: seq<real>,
    ticketsPlan: seq<real>, ticketsActual: seq<nat>, basketPlan: seq<real>, basketActual: seq<real>)

  const NoColumns: Columns := Columns([], [], [], [], [], [], [], [])

  /** The eight values appended for one bucket; a basket is 0 where its count is. */
  function Append(c: Columns, k: Date, p: PlanTotals, a: ActualTotals): Columns {
    Columns(
      c.labels + [k], c.plan + [p.plan], c.plan85 + [p.plan * 0.85], c.actual + [a.turnover],
      c.ticketsPlan + [p.tickets], c.ticketsActual + [a.tickets],
      c.basketPlan + [Ratio(p.basket, p.count as real)],
      c.basketActual + [Ratio(a.turnover, a.tickets as real)])
  }

  /** The columns for a list of buckets, bucket after bucket. */
  function ColumnsOf(records: seq<DailyPlan>, actual: seq<ActualDay>, monthly: bool, keys: seq<Date>): Columns {
    if keys == [] then NoColumns
    else
      var last := keys[|keys| - 1];
      Append(ColumnsOf(records, actual, monthly, keys[..|keys| - 1]), last,
             PlanIn(records, monthly, last), ActualIn(actual, monthly, last))
  }

  /** One more bucket walked appends its totals to the columns. */
  lemma ColumnsStep(records: seq<DailyPlan>, actual: seq<ActualDay>, monthly: bool, walked: seq<Date>, k: Date)
    ensures ColumnsOf(records, actual, monthly, walked + [k]) ==
      Append(ColumnsOf(records, actual, monthly, walked), k, PlanIn(records, monthly, k), ActualIn(actual, monthly, k))
  {
    assert (walked + [k])[..|walked|] == walked;
  }

  /** The walk over every day of the window (`current += timedelta(days=1)`). */
  method WalkDays(plans: map<Date, PlanTotals>, actuals: map<Date, ActualTotals>,
                  records: seq<DailyPlan>, actual: seq<ActualDay>, start: Date, end: Date)
    returns (c: Columns)
    requires ValidDate(start) && ValidDate(end)
    requires forall k :: PlanAt(plans, k) == PlanIn(records, false, k)
    requires forall k :: ActualAt(actuals, k) == ActualIn(actual, false, k)
    ensures c == ColumnsOf(records, actual, false, ChartBuckets(false, start, end))
  {
    c := NoColumns;
    var current := start;
    ghost var walked: seq<Date> := [];
    while AtMost(current, end)
      invariant ValidDate(current)
      invariant walked + DaysFrom(current, end) == DaysFrom(start, end)
      invariant c == ColumnsOf(records, actual, false, walked)
      decreases |DaysFrom(current, end)|
    {
      DaysFromStep(current, end);
      ColumnsStep(records, actual, false, walked, current);
      c := Append(c, current, PlanAt(plans, current), ActualAt(actuals, current));
      walked := walked + [current];
      current := NextDay(current);
    }
    DaysFromStep(current, end);
    assert walked == DaysFrom(start, end);
  }

  /** The walk over the window's months, from the first of its first month while not past the end. */
  method WalkMonths(plans: map<Date, PlanTotals>, actuals: map<Date, ActualTotals>,
                    records: seq<DailyPlan>, actual: seq<ActualDay>, start: Date, end: Date)
    returns (c: Columns)
    requires ValidDate(start) && ValidDate(end)
    requires forall k :: PlanAt(plans, k) == PlanIn(records, true, k)
    requires forall k :: ActualAt(actuals, k) == ActualIn(actual, true, k)
    ensures c == ColumnsOf(records, actual, true, ChartBuckets(true, start, end))
  {
    c := NoColumns;
    var current := Date(start.year, start.month, 1);
    ghost var walked: seq<Date> := [];
    while AtMost(current, end)
      invariant 1 <= current.month <= 12 && current.day == 1
      invariant walked + MonthsFrom(current, end) == ChartBuckets(true, start, end)
      invariant c == ColumnsOf(records, actual, true, walked)
      decreases MonthIndex(end) - MonthIndex(current)
    {
      assert MonthsFrom(current, end) == [current] + MonthsFrom(NextMonth(current), end);
      ColumnsStep(records, actual, true, walked, current);
      c := Append(c, current, PlanAt(plans, current), ActualAt(actuals, current));
      walked := walked + [current];
      current := NextMonth(current);
    }
    assert MonthsFrom(current, end) == [];
    assert walked == ChartBuckets(true, start, end);
  }

  /** `aggregate_data` for the daily and the monthly chart. */
  method AggregateData(records: seq<DailyPlan>, actual: seq<ActualDay>, monthly: bool, start: Date, end: Date)
    returns (c: Columns)
    requires ValidDate(start) && ValidDate(end)
    ensures c == AggregateOf(records, actual, monthly, start, end)
  {
    var plans := TotalPlans(records, monthly);
    var actuals := TotalActuals(actual, monthly);
    if monthly {
      c := WalkMonths(plans, actuals, records, actual, start, end);
    } else {
      c := WalkDays(plans, actuals, records, actual, start, end);
    }
  }

  // ------------------------------------------------------------ what the columns hold

  /** Each bucket's plan total, bucket by bucket. */
  function PlanColumn(records: seq<DailyPlan>, monthly: bool, keys: seq<Date>): (r: seq<real>)
    ensures |r| == |keys| && forall i :: 0 <= i < |keys| ==> r[i] == PlanIn(records, monthly, keys[i]).plan
  {
    seq(|keys|, i requires 0 <= i < |keys| => PlanIn(records, monthly, keys[i]).plan)
  }

  /** Each bucket's actual turnover, bucket by bucket. */
  function ActualColumn(actual: seq<ActualDay>, monthly: bool, keys: seq<Date>): (r: seq<real>)
    ensures |r| == |keys| && forall i :: 0 <= i < |keys| ==> r[i] == ActualIn(actual, monthly, keys[i]).turnover
  {
    seq(|keys|, i requires 0 <= i < |keys| => ActualIn(actual, monthly, keys[i]).turnover)
  }

  /** One entry per bucket in every list; the labels are the buckets themselves, and each plan and actual entry is its bucket's total. */
  lemma {:induction false} ColumnsShape(records: seq<DailyPlan>, actual: seq<ActualDay>, monthly: bool, keys: seq<Date>)
    ensures var c := ColumnsOf(records, actual, monthly, keys);
      c.labels == keys && c.plan == PlanColumn(records, monthly, keys) &&
      c.actual == ActualColumn(actual, monthly, keys) &&
      |c.plan85| == |c.ticketsPlan| == |c.ticketsActual| == |c.basketPlan| == |c.basketActual| == |keys|
  {
    if keys != [] {
      var init, last := keys[..|keys| - 1], keys[|keys| - 1];
      ColumnsShape(records, actual, monthly, init);
      ColumnSnoc(records, actual, monthly, keys);
      var c0 := ColumnsOf(records, actual, monthly, init);
      var c := Append(c0, last, PlanIn(records, monthly, last), ActualIn(actual, monthly, last));
      assert ColumnsOf(records, actual, monthly, keys) == c;
      assert c.labels == init + [last] == keys;
    }
  }

  /** The plan and actual columns of a list of buckets extend those of all but its last bucket. */
  lemma ColumnSnoc(records: seq<DailyPlan>, actual: seq<ActualDay>, monthly: bool, keys: seq<Date>)
    requires keys != []
    ensures var init := keys[..|keys| - 1];
      var last := keys[|keys| - 1];
      PlanColumn(records, monthly, keys) == PlanColumn(records, monthly, init) + [PlanIn(records, monthly, last).plan] &&
      ActualColumn(actual, monthly, keys) == ActualColumn(actual, monthly, init) + [ActualIn(actual, monthly, last).turnover]
  {
  }

  /**
   * The other entries of a bucket: 85 percent of its plan, its planned and
   * actual tickets, the mean planned basket of its records and its actual
   * turnover per ticket, each basket 0 where its count is 0.
   */
  lemma {:induction false} ColumnsEntries(records: seq<DailyPlan>, actual: seq<ActualDay>, monthly: bool, keys: seq<Date>)
    ensures var c := ColumnsOf(records, actual, monthly, keys);
      |c.plan| == |c.plan85| == |c.ticketsPlan| == |c.ticketsActual| == |c.basketPlan| == |c.basketActual| == |keys| &&
      forall i :: 0 <= i < |keys| ==>
        var p := PlanIn(records, monthly, keys[i]);
        var a := ActualIn(actual, monthly, keys[i]);
        c.plan85[i] == c.plan[i] * 0.85 &&
        c.ticketsPlan[i] == p.tickets && c.ticketsActual[i] == a.tickets &&
        c.basketPlan[i] == Ratio(p.basket, p.count as real) &&
        c.basketActual[i] == Ratio(a.turnover, a.tickets as real)
  {
    var c := ColumnsOf(records, actual, monthly, keys);
    ColumnsShape(records, actual, monthly, keys);
    forall i | 0 <= i < |keys|
      ensures var p := PlanIn(records, monthly, keys[i]);
        var a := ActualIn(actual, monthly, keys[i]);
        c.plan85[i] == c.plan[i] * 0.85 &&
        c.ticketsPlan[i] == p.tickets && c.ticketsActual[i] == a.tickets &&
        c.basketPlan[i] == Ratio(p.basket, p.count as real) &&
        c.basketActual[i] == Ratio(a.turnover, a.tickets as real)
    {
      EntryAt(records, actual, monthly, keys, i);
    }
  }

  /** The entries of the bucket at one index, which later buckets do not move. */
  lemma {:induction false} EntryAt(records: seq<DailyPlan>, actual: seq<ActualDay>, monthly: bool, keys: seq<Date>, i: nat)
    requires i < |keys|
    ensures var c := ColumnsOf(records, actual, monthly, keys);
      var p := PlanIn(records, monthly, keys[i]);
      var a := ActualIn(actual, monthly, keys[i]);
      i < |c.plan| && i < |c.plan85| && i < |c.ticketsPlan| && i < |c.ticketsActual| &&
      i < |c.basketPlan| && i < |c.basketActual| &&
      c.plan[i] == p.plan && c.plan85[i] == p.plan * 0.85 &&
      c.ticketsPlan[i] == p.tickets && c.ticketsActual[i] == a.tickets &&
      c.basketPlan[i] == Ratio(p.basket, p.count as real) &&
      c.basketActual[i] == Ratio(a.turnover, a.tickets as real)
  {
    var init, last := keys[..|keys| - 1], keys[|keys| - 1];
    ColumnsShape(records, actual, monthly, init);
    var c0 := ColumnsOf(records, actual, monthly, init);
    var c := Append(c0, last, PlanIn(records, monthly, last), ActualIn(actual, monthly, last));
    assert ColumnsOf(records, actual, monthly, keys) == c;
    if i < |init| {
      EntryAt(records, actual, monthly, init, i);
      assert keys[i] == init[i];
    }
  }

  /** The buckets' plan totals add up to the records' plan total, when every record's bucket is walked exactly once. */
  lemma {:induction false} PlanConserved(records: seq<DailyPlan>, monthly: bool, keys: seq<Date>)
    requires NoDuplicates(keys)
    requires forall i :: 0 <= i < |records| ==> BucketOf(monthly, records[i].date) in keys
    ensures Sum(PlanColumn(records, monthly, keys)) == Sum(Plans(records))
  {
    if records == [] {
      SumConstant(PlanColumn(records, monthly, keys), 0.0);
    } else {
      var init := records[..|records| - 1];
      var x := records[|records| - 1];
      PlanConserved(init, monthly, keys);
      var j :| 0 <= j < |keys| && keys[j] == BucketOf(monthly, x.date);
      var before := PlanColumn(init, monthly, keys);
      PlanColumnSnoc(records, monthly, keys, j);
      SumUpdate(before, j, x.plan);
      assert Plans(records)[..|records| - 1] == Plans(init);
    }
  }

  /** The buckets' actual turnovers add up to the query rows' turnover, when every row's bucket is walked exactly once. */
  lemma {:induction false} ActualConserved(actual: seq<ActualDay>, monthly: bool, keys: seq<Date>)
    requires NoDuplicates(keys)
    requires forall i :: 0 <= i < |actual| ==> BucketOf(monthly, actual[i].date) in keys
    ensures Sum(ActualColumn(actual, monthly, keys)) == Sum(ActualTurnovers(actual))
  {
    if actual == [] {
      SumConstant(ActualColumn(actual, monthly, keys), 0.0);
    } else {
      var init := actual[..|actual| - 1];
      var x := actual[|actual| - 1];
      ActualConserved(init, monthly, keys);
      var j :| 0 <= j < |keys| && keys[j] == BucketOf(monthly, x.date);
      var before := ActualColumn(init, monthly, keys);
      ActualColumnSnoc(actual, monthly, keys, j);
      SumUpdate(before, j, x.turnover);
      assert ActualTurnovers(actual)[..|actual| - 1] == ActualTurnovers(init);
    }
  }

  /** One more record adds its plan to its own bucket's entry and to no other. */
  lemma PlanColumnSnoc(records: seq<DailyPlan>, monthly: bool, keys: seq<Date>, j: nat)
    requires records != [] && NoDuplicates(keys) && j < |keys|
    requires keys[j] == BucketOf(monthly, records[|records| - 1].date)
    ensures var before := PlanColumn(records[..|records| - 1], monthly, keys);
      PlanColumn(records, monthly, keys) == before[j := before[j] + records[|records| - 1].plan]
  {
    var before := PlanColumn(records[..|records| - 1], monthly, keys);
    forall i | 0 <= i < |keys| && i != j
      ensures PlanColumn(records, monthly, keys)[i] == before[i]
    {
      assert keys[i] != keys[j];
    }
  }

  /** One more row adds its turnover to its own bucket's entry and to no other. */
  lemma ActualColumnSnoc(actual: seq<ActualDay>, monthly: bool, keys: seq<Date>, j: nat)
    requires actual != [] && NoDuplicates(keys) && j < |keys|
    requires keys[j] == BucketOf(monthly, actual[|actual| - 1].date)
    ensures var before := ActualColumn(actual[..|actual| - 1], monthly, keys);
      ActualColumn(actual, monthly, keys) == before[j := before[j] + actual[|actual| - 1].turnover]
  {
    var before := ActualColumn(actual[..|actual| - 1], monthly, keys);
    forall i | 0 <= i < |keys| && i != j
      ensures ActualColumn(actual, monthly, keys)[i] == before[i]
    {
      assert keys[i] != keys[j];
    }
  }

  function ActualTurnovers(actual: seq<ActualDay>): (r: seq<real>)
    ensures |r| == |actual| && forall i :: 0 <= i < |actual| ==> r[i] == actual[i].turnover
  {
    seq(|actual|, i requires 0 <= i < |actual| => actual[i].turnover)
  }

  lemma {:induction false} SumScaled(s: seq<real>, t: seq<real>, f: real)
    requires |s| == |t| && forall i :: 0 <= i < |s| ==> t[i] == s[i] * f
    ensures Sum(t) == Sum(s) * f
  {
    if s != [] {
      SumScaled(s[..|s| - 1], t[..|t| - 1], f);
    }
  }

  // ------------------------------------------------------------ the KPIs

  /** The page's KPIs: revenue, tickets and basket, each against its plan. */
  datatype Kpis = Kpis(
    totalPlan: real, totalPlan85: real, totalActual: real, achievement: real,
    variance: real, variance85: real, variancePct: real, variancePct85: real,
    ticketsPlan: real, ticketsActual: nat, ticketsAchievement: real, ticketsVariance: real, ticketsVariancePct: real,
    basketPlan: real, basketActual: real, basketAchievement: real, basketVariance: real, basketVariancePct: real)

  /** `sum(xs) / len(xs) if len(xs) > 0 else 0` */
  function Average(xs: seq<real>): (m: real)
    ensures xs == [] ==> m == 0.0
    ensures xs != [] ==> m * |xs| as real == Sum(xs)
  {
    Ratio(Sum(xs), |xs| as real)
  }

  /**
   * The KPIs of the current period's columns.  Against each plan that is
   * positive, the achievement is the actual as a percentage of the plan and
   * the variance percentage is the achievement less 100; without a positive
   * plan both are 0.
   */
  function KpisOf(c: Columns): (k: Kpis)
    ensures k.totalPlan == Sum(c.plan) && k.totalPlan85 == Sum(c.plan85) && k.totalActual == Sum(c.actual)
    ensures k.ticketsPlan == Sum(c.ticketsPlan) && k.ticketsActual == SumNat(c.ticketsActual)
    ensures k.basketPlan == Average(c.basketPlan) && k.basketActual == Average(c.basketActual)
    ensures k.ticketsVariance == k.ticketsActual as real - k.ticketsPlan &&
            k.basketVariance == k.basketActual - k.basketPlan
    ensures k.variance == k.totalActual - k.totalPlan && k.variance85 == k.totalActual - k.totalPlan85
    ensures k.achievement == Percent(k.totalActual, k.totalPlan) &&
            k.variancePct85 == Percent(k.variance85, k.totalPlan85) &&
            k.ticketsAchievement == Percent(k.ticketsActual as real, k.ticketsPlan) &&
            k.basketAchievement == Percent(k.basketActual, k.basketPlan)
    ensures k.totalPlan > 0.0 ==> k.variancePct == k.achievement - 100.0
    ensures k.totalPlan <= 0.0 ==> k.achievement == 0.0 && k.variancePct == 0.0
    ensures k.totalPlan85 <= 0.0 ==> k.variancePct85 == 0.0
    ensures k.ticketsPlan > 0.0 ==> k.ticketsVariancePct == k.ticketsAchievement - 100.0
    ensures k.ticketsPlan <= 0.0 ==> k.ticketsAchievement == 0.0 && k.ticketsVariancePct == 0.0
    ensures k.basketPlan > 0.0 ==> k.basketVariancePct == k.basketAchievement - 100.0
    ensures k.basketPlan <= 0.0 ==> k.basketAchievement == 0.0 && k.basketVariancePct == 0.0
  {
    var totalPlan := Sum(c.plan);
    var totalPlan85 := Sum(c.plan85);
    var totalActual := Sum(c.actual);
    var ticketsPlan := Sum(c.ticketsPlan);
    var ticketsActual := SumNat(c.ticketsActual);
    var basketPlan := Average(c.basketPlan);
    var basketActual := Average(c.basketActual);
    PercentShift(totalActual, totalPlan);
    PercentShift(ticketsActual as real, ticketsPlan);
    PercentShift(basketActual, basketPlan);
    var variance85 := totalActual - totalPlan85;
    var variancePct85 := Percent(variance85, totalPlan85);
    Kpis(
      totalPlan, totalPlan85, totalActual, Percent(totalActual, totalPlan),
      totalActual - totalPlan, variance85,
      Percent(totalActual - totalPlan, totalPlan), variancePct85,
      ticketsPlan, ticketsActual, Percent(ticketsActual as real, ticketsPlan),
      ticketsActual as real - ticketsPlan, Percent(ticketsActual as real - ticketsPlan, ticketsPlan),
      basketPlan, basketActual, Percent(basketActual, basketPlan),
      basketActual - basketPlan, Percent(basketActual - basketPlan, basketPlan))
  }

  /** Against a positive plan, the variance percentage is the achievement less 100. */
  lemma PercentShift(actual: real, plan: real)
    ensures plan > 0.0 ==> Percent(actual - plan, plan) == Percent(actual, plan) - 100.0
    ensures plan <= 0.0 ==> Percent(actual - plan, plan) == Percent(actual, plan) == 0.0
  {
    if plan > 0.0 {
      var shifted := Percent(actual - plan, plan);
      var achieved := Percent(actual, plan);
      calc {
        (achieved - 100.0) * plan;
        achieved * plan - 100.0 * plan;
        actual * 100.0 - 100.0 * plan;
        (actual - plan) * 100.0;
        shifted * plan;
      }
    }
  }

  /**
   * Nothing is lost or counted twice: when every plan record and every query
   * row lies in the window, the plan, 85 percent and actual columns add up
   * to the records' plan, 85 percent of it, and the rows' turnover.
   */
  lemma ColumnsKeepTotals(records: seq<DailyPlan>, actual: seq<ActualDay>, monthly: bool, start: Date, end: Date)
    requires ValidDate(start) && ValidDate(end)
    requires forall i :: 0 <= i < |records| ==> ValidDate(records[i].date) && InWindow(start, end, records[i].date)
    requires forall i :: 0 <= i < |actual| ==> ValidDate(actual[i].date) && InWindow(start, end, actual[i].date)
    ensures var c := AggregateOf(records, actual, monthly, start, end);
      Sum(c.plan) == Sum(Plans(records)) &&
      Sum(c.plan85) == Sum(Plans(records)) * 0.85 &&
      Sum(c.actual) == Sum(ActualTurnovers(actual))
  {
    var keys := ChartBuckets(monthly, start, end);
    var c := ColumnsOf(records, actual, monthly, keys);
    BucketsSpec(monthly, start, end);
    PlanConserved(records, monthly, keys);
    ActualConserved(actual, monthly, keys);
    ColumnsShape(records, actual, monthly, keys);
    TargetTotal(records, actual, monthly, keys);
  }

  /** The 85 percent target is the plan, entry by entry, times 0.85. */
  lemma {:induction false} TargetColumn(records: seq<DailyPlan>, actual: seq<ActualDay>, monthly: bool, keys: seq<Date>)
    ensures |ColumnsOf(records, actual, monthly, keys).plan85| == |ColumnsOf(records, actual, monthly, keys).plan|
    ensures forall i :: 0 <= i < |ColumnsOf(records, actual, monthly, keys).plan| ==>
      ColumnsOf(records, actual, monthly, keys).plan85[i] == ColumnsOf(records, actual, monthly, keys).plan[i] * 0.85
  {
    if keys != [] {
      TargetColumn(records, actual, monthly, keys[..|keys| - 1]);
    }
  }

  /** The 85 percent target adds up to 85 percent of the plan. */
  lemma TargetTotal(records: seq<DailyPlan>, actual: seq<ActualDay>, monthly: bool, keys: seq<Date>)
    ensures Sum(ColumnsOf(records, actual, monthly, keys).plan85) == Sum(ColumnsOf(records, actual, monthly, keys).plan) * 0.85
  {
    var c := ColumnsOf(records, actual, monthly, keys);
    TargetColumn(records, actual, monthly, keys);
    SumScaled(c.plan, c.plan85, 0.85);
  }

  /**
   * The revenue KPIs of a month-range window, from the first of the start
   * month to the end of the last day of the end month: whether the chart is
   * daily or monthly, the plan total is the selected workbook rows' monthly
   * plans added up, the 85 percent total is 85 percent of it, and the actual
   * total is the turnover of every given actual row.  The actual rows are
   * those of the intended window (`InQueryIntended`); the page's own query
   * stops at midnight at the start of the last day (`InQueryAsWritten`).
   */
  lemma RevenueTotalsAgree(rows: seq<PlanRow>, actual: seq<ActualDay>, monthly: bool,
                           year: int, startMonth: int, endMonth: int, geo: string)
    requires 1 <= year && 1 <= startMonth <= 12 && 1 <= endMonth <= 12
    requires ValidRows(rows)
    requires forall i :: 0 <= i < |actual| ==>
      ValidDate(actual[i].date) &&
      InWindow(MonthRangeWindow(year, startMonth, endMonth).0, MonthRangeWindow(year, startMonth, endMonth).1, actual[i].date)
    ensures var w := MonthRangeWindow(year, startMonth, endMonth);
      var selected := SelectedRows(rows, w.0, w.1, geo);
      var k := KpisOf(AggregateOf(Expanded(selected, w.0, w.1), actual, monthly, w.0, w.1));
      k.totalPlan == Sum(Turnovers(selected)) &&
      k.totalPlan85 == Sum(Turnovers(selected)) * 0.85 &&
      k.totalActual == Sum(ActualTurnovers(actual))
  {
    var (start, end) := MonthRangeWindow(year, startMonth, endMonth);
    var selected := SelectedRows(rows, start, end, geo);
    ColumnsKeepTotals(Expanded(selected, start, end), actual, monthly, start, end);
    forall i | 0 <= i < |selected|
      ensures InWindow(start, end, Date(selected[i].year, selected[i].month, 1))
      ensures InWindow(start, end, Date(selected[i].year, selected[i].month, DaysInMonth(selected[i].year, selected[i].month)))
    {
      SelectedMonthIsWhole(selected[i], start, end, geo);
    }
    ExpandedKeepsPlan(selected, start, end);
  }

  // ------------------------------------------- the actual-sales query window

  /** When a sale happened: `cd` is a `DateTimeField`, so a day and the seconds since midnight. */
  datatype Stamp = Stamp(day: Date, second: nat)

  /**
   * `cd__gte=start_date, cd__lte=end_date` with `date` bounds, as the plan
   * page writes it: a `date` compared with a date-time field stands for
   * midnight, so of the last day only sales stamped exactly 00:00:00 pass.
   */
  predicate InQueryAsWritten(start: Date, end: Date, s: Stamp) {
    AtMost(start, s.day) && AtMost(s.day, end) && (s.day != end || s.second == 0)
  }

  /** The window the page evidently means: every sale of every day from `start` to `end`, as the dashboard's end-of-day bound does. */
  predicate InQueryIntended(start: Date, end: Date, s: Stamp) {
    InWindow(start, end, s.day)
  }

  /** The written query misses exactly the sales of the last day after midnight. */
  lemma QueryMissesLastDay(start: Date, end: Date, s: Stamp)
    ensures InQueryAsWritten(start, end, s) <==>
      InQueryIntended(start, end, s) && !(s.day == end && s.second > 0)
  {
  }

  /** A sale at noon on 31 January is in the January window the page means but not in its query. */
  lemma NoonOnLastDayIsMissed()
    ensures var w := MonthRangeWindow(2025, 1, 1);
      var noon := Stamp(w.1, 12 * 3600);
      w.1 == Date(2025, 1, 31) && InQueryIntended(w.0, w.1, noon) && !InQueryAsWritten(w.0, w.1, noon)
  {
    var w := MonthRangeWindow(2025, 1, 1);
    assert DaysInMonth(2025, 1) == 31;
    QueryMissesLastDay(w.0, w.1, Stamp(w.1, 12 * 3600));
  }

  /** What `aggregate_data` returns for a window, as a value. */
  function AggregateOf(records: seq<DailyPlan>, actual: seq<ActualDay>, monthly: bool, start: Date, end: Date): Columns
    requires ValidDate(start) && ValidDate(end)
  {
    ColumnsOf(records, actual, monthly, ChartBuckets(monthly, start, end))
  }
}
