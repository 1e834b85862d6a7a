/**
 * Employee figures: the dashboard's per-employee rollup (`get_employee_stats`),
 * the employee page's per-(employee, location) rollup
 * (`get_employee_performance`), and the year-over-year join that looks each
 * current employee up by name among the previous period's entries and
 * writes the comparison into the current entry in place.
 */
module Employees {
  import opened Seqs
  import opened Ratios
  import opened Groups
  import opened Sales
  import opened CrossSell
  import opened Summary

  /** `emp['tanam'] or 'Unknown'`: an empty name shows as "Unknown". */
  function DisplayName(n: string): (r: string)
    ensures r != ""
    ensures n != "" ==> r == n
  {
    if n == "" then "Unknown" else n
  }

  /** The previous-period comparison written into an entry by the join; `NotJoined` before it. */
  datatype Comparison =
    | NotJoined
    | Joined(revenuePrevious: real, ticketsPrevious: nat, revenueChange: real, ticketsChange: real)

  datatype EmployeeSummary = EmployeeSummary(
    name: string, revenue: real, tickets: nat, items: nat,
    avgBasket: real, itemsPerTicket: real, discountRate: real,
    yoy: Comparison)

  /** `Sum('tanxa', filter=Q(...))`: the amounts of the rows that pass, 0 for none. */
  function SumWhere(rows: seq<SaleRow>, cond: SaleRow -> bool): real
  {
    if rows == [] then 0.0
    else
      var last := rows[|rows| - 1];
      SumWhere(rows[..|rows| - 1], cond) + (if cond(last) then last.amount else 0.0)
  }

  /** With no negative amounts, a narrower filter never sums to more. */
  lemma {:induction false} SumWhereMonotone(rows: seq<SaleRow>, narrow: SaleRow -> bool, wide: SaleRow -> bool)
    requires forall r :: r in rows ==> r.amount >= 0.0
    requires forall r :: narrow(r) ==> wide(r)
    ensures 0.0 <= SumWhere(rows, narrow) <= SumWhere(rows, wide)
  {
    if rows != [] {
      SumWhereMonotone(rows[..|rows| - 1], narrow, wide);
    }
  }

  // ----------------------------------------------------- dashboard rollup

  /**
   * One employee's dashboard entry from the employee's rows: every row is an
   * item, the average basket is revenue per ticket, and the discount rate is
   * guarded by a positive standard-price total.
   */
  function EmployeeSummaryOf(name: string, own: seq<SaleRow>): (e: EmployeeSummary)
    ensures e.name == DisplayName(name) && e.revenue == Revenue(own) && e.items == |own| && e.yoy == NotJoined
    ensures own != [] ==> 1 <= e.tickets <= e.items && e.itemsPerTicket >= 1.0
    ensures e.tickets == TicketCount(own) && e.avgBasket == AvgBasket(own) && e.itemsPerTicket == ItemsPerTicket(own)
    ensures e.discountRate == DiscountRate(DiscountTotal(own), StdPriceTotal(own))
  {
    TicketCountBounds(own);
    var discount, std := DiscountTotal(own), StdPriceTotal(own);
    EmployeeSummary(DisplayName(name), Revenue(own), TicketCount(own), |own|,
                    AvgBasket(own), ItemsPerTicket(own), DiscountRate(discount, std), NotJoined)
  }

  /** The rows of employee n. */
  function RowsOf(rows: seq<SaleRow>, n: string): seq<SaleRow> {
    Select(rows, (r: SaleRow) => r.employee == n)
  }

  /** `order_by('-total_revenue')` */
  predicate RevenueFirst(a: EmployeeSummary, b: EmployeeSummary) { a.revenue >= b.revenue }

  /** The entries before sorting: one per distinct employee, in order of first appearance. */
  function UnsortedSummaries(rows: seq<SaleRow>): seq<EmployeeSummary> {
    Map(Distinct(Map(rows, (r: SaleRow) => r.employee)),
        (n: string) => EmployeeSummaryOf(n, RowsOf(rows, n)))
  }

  /**
   * `get_employee_stats` over the period's rows: ordered by revenue, highest
   * first, with one entry per distinct employee.
   */
  function DashboardEmployees(rows: seq<SaleRow>): (es: seq<EmployeeSummary>)
    ensures |es| == |Distinct(Map(rows, (r: SaleRow) => r.employee))|
    ensures forall i, j :: 0 <= i < j < |es| ==> es[i].revenue >= es[j].revenue
  {
    assert TotalPreorder(RevenueFirst);
    SortBySorted(UnsortedSummaries(rows), RevenueFirst);
    SortBy(UnsortedSummaries(rows), RevenueFirst)
  }

  /** Every entry is some employee's, with at least one ticket and at least one item per ticket. */
  lemma DashboardEntry(rows: seq<SaleRow>, e: EmployeeSummary)
    requires e in DashboardEmployees(rows)
    ensures exists r :: r in rows && e == EmployeeSummaryOf(r.employee, RowsOf(rows, r.employee))
    ensures e.tickets >= 1 && e.itemsPerTicket >= 1.0 && e.yoy == NotJoined
  {
    InSorted(e, UnsortedSummaries(rows), RevenueFirst);
    var n := UnsortedEntry(rows, e);
    var r := NameHasRow(rows, n);
    assert r in RowsOf(rows, n);
  }

  lemma UnsortedEntry(rows: seq<SaleRow>, e: EmployeeSummary) returns (n: string)
    requires e in UnsortedSummaries(rows)
    ensures n in Distinct(Map(rows, (r: SaleRow) => r.employee)) && e == EmployeeSummaryOf(n, RowsOf(rows, n))
  {
    var names := Distinct(Map(rows, (r: SaleRow) => r.employee));
    InMap(e, names, (n: string) => EmployeeSummaryOf(n, RowsOf(rows, n)));
    var i :| 0 <= i < |names| && e == EmployeeSummaryOf(names[i], RowsOf(rows, names[i]));
    n := names[i];
  }

  lemma NameHasRow(rows: seq<SaleRow>, n: string) returns (r: SaleRow)
    requires n in Distinct(Map(rows, (r: SaleRow) => r.employee))
    ensures r in rows && r.employee == n
  {
    InMap(n, rows, (r: SaleRow) => r.employee);
    var k :| 0 <= k < |rows| && n == rows[k].employee;
    r := rows[k];
  }

  /** Every employee with a row in the period has an entry carrying the employee's revenue. */
  lemma EveryEmployeeListed(rows: seq<SaleRow>, r: SaleRow)
    requires r in rows
    ensures exists e ::
      e in DashboardEmployees(rows) && e.name == DisplayName(r.employee) &&
      e.revenue == Revenue(RowsOf(rows, r.employee))
  {
    var i := NameListed(rows, r);
    var e := EmployeeSummaryOf(r.employee, RowsOf(rows, r.employee));
    assert UnsortedSummaries(rows)[i] == e;
    InSorted(e, UnsortedSummaries(rows), RevenueFirst);
  }

  lemma NameListed(rows: seq<SaleRow>, r: SaleRow) returns (i: nat)
    requires r in rows
    ensures var names := Distinct(Map(rows, (x: SaleRow) => x.employee));
      i < |names| && names[i] == r.employee
  {
    var keys := Map(rows, (x: SaleRow) => x.employee);
    var k :| 0 <= k < |rows| && rows[k] == r;
    assert keys[k] == r.employee;
    var names := Distinct(keys);
    assert r.employee in keys;
    assert r.employee in names;
    i :| 0 <= i < |names| && names[i] == r.employee;
  }

  // ----------------------------------------------------------- name join

  /** `{emp['name']: emp for emp in previous}`: a later entry with the same name overwrites an earlier one. */
  function NameIndex(previous: seq<EmployeeSummary>): (m: map<string, EmployeeSummary>)
    ensures forall n :: n in m <==> exists i :: 0 <= i < |previous| && previous[i].name == n
  {
    if previous == [] then map[]
    else
      var init := previous[..|previous| - 1];
      var last := previous[|previous| - 1];
      var m := NameIndex(init);
      assert forall i :: 0 <= i < |init| ==> init[i] == previous[i];
      m[last.name := last]
  }

  /** The entry the index keeps for a name is the last one carrying it. */
  lemma {:induction false} NameIndexLastWins(previous: seq<EmployeeSummary>, j: nat)
    requires j < |previous|
    requires forall k :: j < k < |previous| ==> previous[k].name != previous[j].name
    ensures NameIndex(previous)[previous[j].name] == previous[j]
  {
    var init := previous[..|previous| - 1];
    if j < |previous| - 1 {
      assert init[j] == previous[j];
      NameIndexLastWins(init, j);
    }
  }

  /**
   * `prev_data = previous_dict.get(name, {})`, then the previous revenue and
   * tickets (0 when absent) and `calc_change` of each.
   */
  function Compare(e: EmployeeSummary, index: map<string, EmployeeSummary>): (c: Comparison)
    ensures c.Joined?
    ensures e.name !in index ==> c == Joined(0.0, 0, 0.0, 0.0)
    ensures e.name in index ==> c.revenuePrevious == index[e.name].revenue && c.ticketsPrevious == index[e.name].tickets
    ensures ChangeSign(c.revenueChange, e.revenue, c.revenuePrevious)
    ensures ChangeSign(c.ticketsChange, e.tickets as real, c.ticketsPrevious as real)
  {
    var revenuePrevious := if e.name in index then index[e.name].revenue else 0.0;
    var ticketsPrevious := if e.name in index then index[e.name].tickets else 0;
    Joined(revenuePrevious, ticketsPrevious,
           CalcChange(e.revenue, revenuePrevious),
           CalcChange(e.tickets as real, ticketsPrevious as real))
  }

  /** The dashboard's join loop: each current entry gets its comparison, in place. */
  method JoinPrevious(current: array<EmployeeSummary>, previous: seq<EmployeeSummary>)
    modifies current
    ensures forall i :: 0 <= i < current.Length ==>
      current[i] == old(current[i]).(yoy := Compare(old(current[i]), NameIndex(previous)))
  {
    var index := NameIndex(previous);
    var i := 0;
    while i < current.Length
      invariant 0 <= i <= current.Length
      invariant forall k :: 0 <= k < i ==>
        current[k] == old(current[k]).(yoy := Compare(old(current[k]), index))
      invariant forall k :: i <= k < current.Length ==> current[k] == old(current[k])
    {
      var emp := current[i];
      current[i] := emp.(yoy := Compare(emp, index));
      i := i + 1;
    }
  }

  // ------------------------------------------------------ employee page

  const SkinCare: string := "SKIN CARE"

  /** The skincare share's numerator and denominator rows. */
  predicate IsSkinCare(r: SaleRow) { r.category == SkinCare }
  predicate NotPointOfSale(r: SaleRow) { r.category != PointOfSale }

  datatype EmployeePerformance = EmployeePerformance(
    summary: EmployeeSummary, location: string, skincarePct: real, cross: CrossSellMetrics)

  /** The employee page's own filters: locations, category and employee, no location exclusion. */
  predicate IsEmployeePageRow(w: Window, locations: seq<string>, category: string, employee: string,
                              r: SaleRow)
  {
    InWindow(w, r) &&
    (locations == [] || r.location in locations) &&
    (category == AnyValue || r.category == category) &&
    (employee == AnyValue || r.employee == employee)
  }

  /** The cross-sell metrics of a period with no breakdown (the previous period). */
  const NoCrossSell: CrossSellMetrics := CrossSellMetrics(0.0, 0.0, 0.0, 0.0, 0.0, 0, 0, 0, 0)

  /**
   * One (employee, location) entry: items leave out the service codes, and
   * the skincare share is the `SKIN CARE` revenue over the revenue without
   * point-of-sale material.
   */
  function PerformanceOf(key: (string, string), own: seq<SaleRow>, cross: CrossSellMetrics): (p: EmployeePerformance)
    ensures p.summary.name == DisplayName(key.0) && p.location == DisplayName(key.1) && p.cross == cross
    ensures p.summary.items == Count(own, CountedItem) && p.summary.yoy == NotJoined
    ensures own != [] ==> 1 <= p.summary.tickets <= |own|
    ensures (forall r :: r in own ==> r.amount >= 0.0) ==> 0.0 <= p.skincarePct <= 100.0
    ensures p.summary.revenue == Revenue(own) && p.summary.tickets == TicketCount(own) &&
            p.summary.avgBasket == AvgBasket(own)
    ensures p.summary.itemsPerTicket == Ratio(p.summary.items as real, p.summary.tickets as real)
    ensures p.summary.discountRate == DiscountRate(DiscountTotal(own), StdPriceTotal(own))
    ensures p.skincarePct == Percent(SumWhere(own, IsSkinCare), SumWhere(own, NotPointOfSale))
  {
    TicketCountBounds(own);
    var tickets := TicketCount(own);
    var items := Count(own, CountedItem);
    var discount, std := DiscountTotal(own), StdPriceTotal(own);
    var nonPop := SumWhere(own, NotPointOfSale);
    var skin := SumWhere(own, IsSkinCare);
    SkincareWithinNonPop(own);
    EmployeePerformance(
      EmployeeSummary(DisplayName(key.0), Revenue(own), tickets, items,
                      AvgBasket(own), Ratio(items as real, tickets as real),
                      DiscountRate(discount, std), NotJoined),
      DisplayName(key.1), Percent(skin, nonPop), cross)
  }

  lemma SkincareWithinNonPop(own: seq<SaleRow>)
    ensures (forall r :: r in own ==> r.amount >= 0.0) ==>
      0.0 <= SumWhere(own, IsSkinCare) <= SumWhere(own, NotPointOfSale)
  {
    if forall r :: r in own ==> r.amount >= 0.0 {
      SumWhereMonotone(own, IsSkinCare, NotPointOfSale);
    }
  }

  /** The rows of one (employee, location) pair. */
  function RowsOfPair(rows: seq<SaleRow>, key: (string, string)): seq<SaleRow> {
    Select(rows, (r: SaleRow) => r.employee == key.0 && r.location == key.1)
  }

  predicate PerformanceFirst(a: EmployeePerformance, b: EmployeePerformance) {
    a.summary.revenue >= b.summary.revenue
  }

  /**
   * `get_employee_performance` over the page's rows; `crossOf` gives the
   * cross-sell breakdown of an employee name (the current period's
   * breakdown, or none for the previous period). The page is ordered by
   * revenue, highest first, with one entry per (employee, location) pair.
   */
  function EmployeePerformances(rows: seq<SaleRow>, crossOf: string -> CrossSellMetrics): (ps: seq<EmployeePerformance>)
    ensures |ps| == |Distinct(Map(rows, (r: SaleRow) => (r.employee, r.location)))|
    ensures forall i, j :: 0 <= i < j < |ps| ==> ps[i].summary.revenue >= ps[j].summary.revenue
  {
    assert TotalPreorder(PerformanceFirst);
    SortBySorted(UnsortedPerformances(rows, crossOf), PerformanceFirst);
    SortBy(UnsortedPerformances(rows, crossOf), PerformanceFirst)
  }

  /** The current period's page: each entry's breakdown is that of an employee who sold on the page. */
  function CurrentPerformances(w: Window, locations: seq<string>, category: string, employee: string,
                               rows: seq<SaleRow>): (ps: seq<EmployeePerformance>)
    ensures forall i, j :: 0 <= i < j < |ps| ==> ps[i].summary.revenue >= ps[j].summary.revenue
    ensures forall p :: p in ps ==>
      p.summary.tickets >= 1 &&
      exists r :: r in rows && IsEmployeePageRow(w, locations, category, employee, r) &&
        p.cross == EmployeeBreakdown(w, locations, category, r.employee, rows)
  {
    var page := Select(rows, (r: SaleRow) => IsEmployeePageRow(w, locations, category, employee, r));
    var crossOf := (n: string) => EmployeeBreakdown(w, locations, category, n, rows);
    CrossOfEntries(page, crossOf);
    EmployeePerformances(page, crossOf)
  }

  /** The previous period's page: no cross-sell breakdown. */
  function PreviousPerformances(w: Window, locations: seq<string>, category: string, employee: string,
                                rows: seq<SaleRow>): (ps: seq<EmployeePerformance>)
    ensures forall i, j :: 0 <= i < j < |ps| ==> ps[i].summary.revenue >= ps[j].summary.revenue
    ensures forall p :: p in ps ==> p.summary.tickets >= 1 && p.cross == NoCrossSell
  {
    var page := Select(rows, (r: SaleRow) => IsEmployeePageRow(w, locations, category, employee, r));
    var crossOf := (n: string) => NoCrossSell;
    CrossOfEntries(page, crossOf);
    EmployeePerformances(page, crossOf)
  }

  /** Every entry has a ticket and the breakdown of an employee with a row. */
  lemma CrossOfEntries(rows: seq<SaleRow>, crossOf: string -> CrossSellMetrics)
    ensures forall p :: p in EmployeePerformances(rows, crossOf) ==>
      p.summary.tickets >= 1 && exists r :: r in rows && p.cross == crossOf(r.employee)
  {
    forall p | p in EmployeePerformances(rows, crossOf)
      ensures p.summary.tickets >= 1 && exists r :: r in rows && p.cross == crossOf(r.employee)
    {
      PerformanceEntry(rows, crossOf, p);
    }
  }

  function UnsortedPerformances(rows: seq<SaleRow>, crossOf: string -> CrossSellMetrics): seq<EmployeePerformance> {
    Map(Distinct(Map(rows, (r: SaleRow) => (r.employee, r.location))),
        (k: (string, string)) => PerformanceOf(k, RowsOfPair(rows, k), crossOf(k.0)))
  }

  /** Every entry is an (employee, location) pair that sold, with the employee's breakdown. */
  lemma PerformanceEntry(rows: seq<SaleRow>, crossOf: string -> CrossSellMetrics, p: EmployeePerformance)
    requires p in EmployeePerformances(rows, crossOf)
    ensures exists r :: r in rows && p == PerformanceOf((r.employee, r.location), RowsOfPair(rows, (r.employee, r.location)), crossOf(r.employee))
    ensures p.summary.tickets >= 1 && p.summary.yoy == NotJoined
  {
    InSorted(p, UnsortedPerformances(rows, crossOf), PerformanceFirst);
    var k := UnsortedPerformance(rows, crossOf, p);
    var r := PairHasRow(rows, k);
    assert r in RowsOfPair(rows, k);
  }

  lemma UnsortedPerformance(rows: seq<SaleRow>, crossOf: string -> CrossSellMetrics, p: EmployeePerformance)
    returns (k: (string, string))
    requires p in UnsortedPerformances(rows, crossOf)
    ensures k in Distinct(Map(rows, (r: SaleRow) => (r.employee, r.location)))
    ensures p == PerformanceOf(k, RowsOfPair(rows, k), crossOf(k.0))
  {
    var pairs := Distinct(Map(rows, (r: SaleRow) => (r.employee, r.location)));
    InMap(p, pairs, (k: (string, string)) => PerformanceOf(k, RowsOfPair(rows, k), crossOf(k.0)));
    var i :| 0 <= i < |pairs| && p == PerformanceOf(pairs[i], RowsOfPair(rows, pairs[i]), crossOf(pairs[i].0));
    k := pairs[i];
  }

  lemma PairHasRow(rows: seq<SaleRow>, k: (string, string)) returns (r: SaleRow)
    requires k in Distinct(Map(rows, (r: SaleRow) => (r.employee, r.location)))
    ensures r in rows && (r.employee, r.location) == k
  {
    InMap(k, rows, (r: SaleRow) => (r.employee, r.location));
    var j :| 0 <= j < |rows| && k == (rows[j].employee, rows[j].location);
    r := rows[j];
  }

  /**
   * Every (employee, location) pair with a row on the page has an entry,
   * carrying that pair's revenue and the employee's breakdown.
   */
  lemma EveryPairListed(rows: seq<SaleRow>, crossOf: string -> CrossSellMetrics, r: SaleRow)
    requires r in rows
    ensures exists p ::
      p in EmployeePerformances(rows, crossOf) &&
      p.summary.name == DisplayName(r.employee) && p.location == DisplayName(r.location) &&
      p.summary.revenue == Revenue(RowsOfPair(rows, (r.employee, r.location))) &&
      p.cross == crossOf(r.employee)
  {
    var k := (r.employee, r.location);
    var keys := Map(rows, (r: SaleRow) => (r.employee, r.location));
    var j :| 0 <= j < |rows| && rows[j] == r;
    assert keys[j] == k;
    var pairs := Distinct(keys);
    assert k in pairs;
    var i :| 0 <= i < |pairs| && pairs[i] == k;
    var p := PerformanceOf(k, RowsOfPair(rows, k), crossOf(k.0));
    assert UnsortedPerformances(rows, crossOf)[i] == p;
    InSorted(p, UnsortedPerformances(rows, crossOf), PerformanceFirst);
  }

  /**
   * An employee who sold at two locations has two entries, and both carry
   * the same cross-sell breakdown: it is computed per name, not per location.
   */
  lemma SameEmployeeSameBreakdown(rows: seq<SaleRow>, crossOf: string -> CrossSellMetrics,
                                  p: EmployeePerformance, q: EmployeePerformance)
    requires p in EmployeePerformances(rows, crossOf) && q in EmployeePerformances(rows, crossOf)
    requires p.summary.name == q.summary.name && p.summary.name != "Unknown"
    ensures p.cross == q.cross
  {
    PerformanceEntry(rows, crossOf, p);
    PerformanceEntry(rows, crossOf, q);
  }

  /** The page's change formula, written inline rather than through `calc_change`. */
  function InlineChange(current: real, previous: real): real {
    if previous > 0.0 then (current - previous) / previous * 100.0 else 0.0
  }

  /** The inline formula is `calc_change`: the page and the dashboard report the same changes. */
  lemma InlineChangeIsCalcChange(current: real, previous: real)
    ensures InlineChange(current, previous) == CalcChange(current, previous)
  {
  }

  /** The page's comparison of one entry, with the inline change formula. */
  function PageCompare(e: EmployeeSummary, index: map<string, EmployeeSummary>): (c: Comparison)
    ensures c == Compare(e, index)
  {
    var revenuePrevious := if e.name in index then index[e.name].revenue else 0.0;
    var ticketsPrevious := if e.name in index then index[e.name].tickets else 0;
    InlineChangeIsCalcChange(e.revenue, revenuePrevious);
    InlineChangeIsCalcChange(e.tickets as real, ticketsPrevious as real);
    Joined(revenuePrevious, ticketsPrevious,
           InlineChange(e.revenue, revenuePrevious),
           InlineChange(e.tickets as real, ticketsPrevious as real))
  }

  /** The page's index of the previous period, by display name. */
  function PerformanceIndex(previous: seq<EmployeePerformance>): map<string, EmployeeSummary> {
    NameIndex(Map(previous, (p: EmployeePerformance) => p.summary))
  }

  /** The page's join loop: each current entry gets its comparison, in place. */
  method JoinPreviousPerformance(current: array<EmployeePerformance>, previous: seq<EmployeePerformance>)
    modifies current
    ensures forall i :: 0 <= i < current.Length ==>
      current[i] == old(current[i]).(summary := old(current[i]).summary.(
        yoy := Compare(old(current[i]).summary, PerformanceIndex(previous))))
  {
    var index := PerformanceIndex(previous);
    var i := 0;
    while i < current.Length
      invariant 0 <= i <= current.Length
      invariant forall k :: 0 <= k < i ==>
        current[k] == old(current[k]).(summary := old(current[k]).summary.(
          yoy := Compare(old(current[k]).summary, index)))
      invariant forall k :: i <= k < current.Length ==> current[k] == old(current[k])
    {
      var emp := current[i];
      current[i] := emp.(summary := emp.summary.(yoy := PageCompare(emp.summary, index)));
      i := i + 1;
    }
  }
}
