/**
 * Year-on-year comparisons built from already-grouped query results: the
 * dashboard's top-category table, and the export's per-location comparison
 * sheet and totals row.  A dictionary built by a comprehension keeps the
 * last entry for a repeated key, and a missing entry reads as 0.
 */
module Comparisons {
  import opened Seqs
  import opened Groups
  import opened Ratios
  import Employees
  import Sales

  // ----------------------------------------------------------- categories

  /** `order_by('-total')`: more revenue first. */
  predicate MoreRevenue(a: Total<string>, b: Total<string>) {
    a.sum >= b.sum
  }

  lemma MoreRevenueTotal()
    ensures TotalPreorder(MoreRevenue)
  {
  }

  /** `values('prodg').annotate(total=...).order_by('-total')[:10]` */
  function TopCategories(totals: seq<Total<string>>): seq<Total<string>> {
    Top(totals, 10, MoreRevenue)
  }

  /** At most ten categories, by falling revenue, none left out earning more than one kept. */
  lemma TopCategoriesSpec(totals: seq<Total<string>>)
    ensures |TopCategories(totals)| <= 10
    ensures |TopCategories(totals)| == if 10 < |totals| then 10 else |totals|
    ensures forall i, j :: 0 <= i < j < |TopCategories(totals)| ==>
      TopCategories(totals)[i].sum >= TopCategories(totals)[j].sum
    ensures forall t :: t in TopCategories(totals) ==> t in totals
    ensures forall t, j ::
      (t in multiset(totals) - multiset(TopCategories(totals)) && 0 <= j < |TopCategories(totals)|) ==>
      TopCategories(totals)[j].sum >= t.sum
  {
    MoreRevenueTotal();
    TopSpec(totals, 10, MoreRevenue);
  }

  /** `{item['prodg']: total for item in ...}.get(key, 0)`: the last total under `key`, or 0. */
  function LastTotal(ts: seq<Total<string>>, key: string): (r: real)
    ensures (forall i :: 0 <= i < |ts| ==> ts[i].key != key) ==> r == 0.0
    ensures (exists i :: 0 <= i < |ts| && ts[i].key == key) ==>
      exists i :: 0 <= i < |ts| && ts[i].key == key && r == ts[i].sum
  {
    if ts == [] then 0.0
    else if ts[|ts| - 1].key == key then ts[|ts| - 1].sum
    else
      var r := LastTotal(ts[..|ts| - 1], key);
      assert forall i :: 0 <= i < |ts| - 1 ==> ts[..|ts| - 1][i] == ts[i];
      r
  }

  /** On grouped totals (one per key) the dictionary reads the key's own total. */
  lemma {:induction false} LastTotalIsGroupTotal(ts: seq<Total<string>>, key: string)
    requires DistinctKeys(ts)
    ensures LastTotal(ts, key) == SumOf(ts, key)
  {
    if ts != [] {
      var n := |ts| - 1;
      var i := IndexOf(ts, key);
      if ts[n].key == key {
        assert i == n;
      } else {
        var prefix := ts[..n];
        assert DistinctKeys(prefix);
        LastTotalIsGroupTotal(prefix, key);
        var j := IndexOf(prefix, key);
        assert forall m :: 0 <= m < n ==> prefix[m] == ts[m];
        assert i == j;
      }
    }
  }

  /** One line of `category_comparison`. */
  datatype CategoryRow = CategoryRow(name: string, previous: real, current: real, change: real, pctChange: real)

  /**
   * One line per top category, in the same order: its display name, its
   * revenue in each year (0 for a year it sold nothing), the change and the
   * percentage change.
   */
  function CategoryComparison(current: seq<Total<string>>, previous: seq<Total<string>>): (rows: seq<CategoryRow>)
    ensures |rows| == |current|
    ensures forall i :: 0 <= i < |rows| ==>
      rows[i].name == Employees.DisplayName(current[i].key) &&
      rows[i].current == current[i].sum &&
      rows[i].previous == LastTotal(previous, current[i].key) &&
      rows[i].change == rows[i].current - rows[i].previous &&
      rows[i].pctChange == CalcChange(rows[i].current, rows[i].previous)
  {
    seq(|current|, i requires 0 <= i < |current| =>
      var cur := current[i].sum;
      var prev := LastTotal(previous, current[i].key);
      CategoryRow(Employees.DisplayName(current[i].key), prev, cur, cur - prev, CalcChange(cur, prev)))
  }

  /** `prodg__in=top_categories` */
  function AmongTop(top: seq<Total<string>>): Total<string> -> bool {
    (t: Total<string>) => exists i :: 0 <= i < |top| && top[i].key == t.key
  }

  /**
   * The page's table: the ten best current categories against last year's
   * totals for those categories. Querying last year only for the top
   * categories is an optimisation: the table is the one built against all of
   * last year's totals, at most ten lines by falling current revenue.
   */
  function CategoryTable(currentTotals: seq<Total<string>>, previousTotals: seq<Total<string>>): (rows: seq<CategoryRow>)
    ensures rows == CategoryComparison(TopCategories(currentTotals), previousTotals)
    ensures |rows| <= 10
    ensures forall i, j :: 0 <= i < j < |rows| ==> rows[i].current >= rows[j].current
  {
    var top := TopCategories(currentTotals);
    TopCategoriesSpec(currentTotals);
    RestrictionIsHarmless(top, previousTotals);
    CategoryComparison(top, Filter(previousTotals, AmongTop(top)))
  }

  /** The rows of one year's category comparison query. */
  function CategoryQuery(w: Sales.Window, f: Sales.Filters, rows: seq<Sales.SaleRow>): seq<Sales.SaleRow> {
    Sales.Select(rows, (r: Sales.SaleRow) => Sales.IsCategoryComparisonRow(w, f, r))
  }

  /** The (`prodg`, `tanxa`) pair of each row. */
  function CategoryAmounts(rows: seq<Sales.SaleRow>): (pairs: seq<(string, real)>)
    ensures |pairs| == |rows|
    ensures forall i :: 0 <= i < |rows| ==> pairs[i] == (rows[i].category, rows[i].amount)
  {
    Map(rows, (r: Sales.SaleRow) => (r.category, r.amount))
  }

  /** `values('prodg').annotate(total=Sum('tanxa'))`: one total per category, its amounts summed. */
  function CategoryTotals(rows: seq<Sales.SaleRow>): (ts: seq<Total<string>>)
    ensures DistinctKeys(ts)
    ensures forall k :: SumOf(ts, k) == Sum(ValuesOf(CategoryAmounts(rows), k))
  {
    GroupSumSpec(CategoryAmounts(rows));
    GroupSum(CategoryAmounts(rows))
  }

  /** In totals with one entry per key, an entry's sum is what its key reads. */
  lemma EntryIsKeyTotal(ts: seq<Total<string>>, t: Total<string>)
    requires DistinctKeys(ts) && t in ts
    ensures SumOf(ts, t.key) == t.sum
  {
    var j :| 0 <= j < |ts| && ts[j] == t;
    var i := IndexOf(ts, t.key);
    assert i >= 0;
    assert i == j;
  }

  /**
   * The dashboard's category comparison from the sales rows.
   * Each line's current and previous revenue is the whole of that category's
   * sales in the current and previous window, 0 for a year without any.
   */
  function DashboardCategoryTable(wCurrent: Sales.Window, wPrevious: Sales.Window, f: Sales.Filters, rows: seq<Sales.SaleRow>): (table: seq<CategoryRow>)
    ensures table == CategoryComparison(
      TopCategories(CategoryTotals(CategoryQuery(wCurrent, f, rows))),
      CategoryTotals(CategoryQuery(wPrevious, f, rows)))
    ensures |table| <= 10
    ensures forall i, j :: 0 <= i < j < |table| ==> table[i].current >= table[j].current
    ensures var top := TopCategories(CategoryTotals(CategoryQuery(wCurrent, f, rows)));
      |table| == |top| &&
      forall i :: 0 <= i < |table| ==>
        table[i].current == Sum(ValuesOf(CategoryAmounts(CategoryQuery(wCurrent, f, rows)), top[i].key)) &&
        table[i].previous == Sum(ValuesOf(CategoryAmounts(CategoryQuery(wPrevious, f, rows)), top[i].key))
  {
    var current := CategoryTotals(CategoryQuery(wCurrent, f, rows));
    var previous := CategoryTotals(CategoryQuery(wPrevious, f, rows));
    CategoryLinesAreSums(current, previous);
    CategoryTable(current, previous)
  }

  /** Over grouped totals, each line reads its category's own totals. */
  lemma CategoryLinesAreSums(current: seq<Total<string>>, previous: seq<Total<string>>)
    requires DistinctKeys(current) && DistinctKeys(previous)
    ensures var top := TopCategories(current);
      var table := CategoryComparison(top, previous);
      forall i :: 0 <= i < |top| ==>
        table[i].current == SumOf(current, top[i].key) && table[i].previous == SumOf(previous, top[i].key)
  {
    var top := TopCategories(current);
    TopCategoriesSpec(current);
    forall i | 0 <= i < |top|
      ensures SumOf(current, top[i].key) == top[i].sum && LastTotal(previous, top[i].key) == SumOf(previous, top[i].key)
    {
      EntryIsKeyTotal(current, top[i]);
      LastTotalIsGroupTotal(previous, top[i].key);
    }
  }

  /** Restricting last year's totals to a key does not change what is read under that key. */
  lemma {:induction false} LastTotalFiltered(ts: seq<Total<string>>, keep: Total<string> -> bool, key: string)
    requires forall t: Total<string> :: t.key == key ==> keep(t)
    ensures LastTotal(Filter(ts, keep), key) == LastTotal(ts, key)
  {
    if ts != [] {
      var n := |ts| - 1;
      FilterAppend(ts[..n], [ts[n]], keep);
      assert ts == ts[..n] + [ts[n]];
      LastTotalFiltered(ts[..n], keep, key);
      var f := Filter(ts[..n], keep);
      if keep(ts[n]) {
        assert Filter([ts[n]], keep) == [ts[n]];
        assert (f + [ts[n]])[..|f|] == f;
      } else {
        assert Filter([ts[n]], keep) == [];
        assert f + [] == f;
      }
    }
  }

  /** Reading last year's totals only for the listed categories gives the same comparison. */
  lemma RestrictionIsHarmless(top: seq<Total<string>>, previousTotals: seq<Total<string>>)
    ensures CategoryComparison(top, Filter(previousTotals, AmongTop(top))) == CategoryComparison(top, previousTotals)
  {
    var keep := AmongTop(top);
    var restricted := CategoryComparison(top, Filter(previousTotals, keep));
    var full := CategoryComparison(top, previousTotals);
    forall i | 0 <= i < |top| ensures restricted[i] == full[i] {
      LastTotalFiltered(previousTotals, keep, top[i].key);
    }
    assert |restricted| == |full|;
  }

  /** A category new this year shows its whole revenue as the change and 0 percent. */
  lemma NewCategory(current: seq<Total<string>>, previous: seq<Total<string>>, i: nat)
    requires i < |current|
    requires forall j :: 0 <= j < |previous| ==> previous[j].key != current[i].key
    ensures var row := CategoryComparison(current, previous)[i];
      row.previous == 0.0 && row.change == row.current && row.pctChange == 0.0
  {
  }

  // ------------------------------------------------------------- locations

  /** One line of the export's location query (`values('un').annotate(...)`). */
  datatype LocationRow = LocationRow(location: string, total: real, tickets: nat, quantity: nat, threePlus: nat, oneCount: nat)

  ghost predicate DistinctLocations(rows: seq<LocationRow>) {
    forall i, j :: 0 <= i < j < |rows| ==> rows[i].location != rows[j].location
  }

  function Locations(rows: seq<LocationRow>): (r: seq<string>)
    ensures |r| == |rows| && forall i :: 0 <= i < |rows| ==> r[i] == rows[i].location
  {
    seq(|rows|, i requires 0 <= i < |rows| => rows[i].location)
  }

  /** Python's `<=` on strings: code point by code point, a proper prefix first. */
  predicate StrAtMost(a: string, b: string) {
    a == [] || (b != [] && (a[0] < b[0] || (a[0] == b[0] && StrAtMost(a[1..], b[1..]))))
  }

  lemma {:induction false} StrAtMostTotal(a: string, b: string)
    ensures StrAtMost(a, b) || StrAtMost(b, a)
  {
    if a != [] && b != [] && a[0] == b[0] {
      StrAtMostTotal(a[1..], b[1..]);
    }
  }

  lemma {:induction false} StrAtMostTransitive(a: string, b: string, c: string)
    requires StrAtMost(a, b) && StrAtMost(b, c)
    ensures StrAtMost(a, c)
  {
    if a != [] && a[0] == b[0] && b[0] == c[0] {
      StrAtMostTransitive(a[1..], b[1..], c[1..]);
    }
  }

  lemma {:induction false} StrAtMostAntisymmetric(a: string, b: string)
    requires StrAtMost(a, b) && StrAtMost(b, a)
    ensures a == b
  {
    if a != [] {
      StrAtMostAntisymmetric(a[1..], b[1..]);
      assert a == [a[0]] + a[1..] && b == [b[0]] + b[1..];
    }
  }

  lemma StrOrder()
    ensures TotalPreorder(StrAtMost)
  {
    forall a, b ensures StrAtMost(a, b) || StrAtMost(b, a) {
      StrAtMostTotal(a, b);
    }
    forall a, b, c | StrAtMost(a, b) && StrAtMost(b, c) ensures StrAtMost(a, c) {
      StrAtMostTransitive(a, b, c);
    }
  }

  /** `sorted(set(list(prev_dict.keys()) + list(curr_dict.keys())))` */
  function AllLocations(previous: seq<LocationRow>, current: seq<LocationRow>): seq<string> {
    SortBy(Distinct(Locations(previous) + Locations(current)), StrAtMost)
  }

  /** The sheet lists each location of either year once, in strictly increasing order. */
  lemma AllLocationsSpec(previous: seq<LocationRow>, current: seq<LocationRow>)
    ensures var all := AllLocations(previous, current);
      (forall i, j :: 0 <= i < j < |all| ==> StrAtMost(all[i], all[j]) && all[i] != all[j]) &&
      (forall l :: l in all <==> l in Locations(previous) || l in Locations(current))
  {
    var keys := Distinct(Locations(previous) + Locations(current));
    StrOrder();
    SortBySorted(keys, StrAtMost);
    SortByNoDuplicates(keys, StrAtMost);
    forall l ensures l in AllLocations(previous, current) <==> l in keys {
      InSorted(l, keys, StrAtMost);
    }
  }

  /** `{row['un']: row for row in data}.get(location, {})`: the last row for the location, if any. */
  function RowFor(rows: seq<LocationRow>, location: string): (r: Option<LocationRow>)
    ensures r.None? <==> location !in Locations(rows)
    ensures r.Some? ==> r.value in rows && r.value.location == location
  {
    if rows == [] then None
    else if rows[|rows| - 1].location == location then Some(rows[|rows| - 1])
    else
      var r := RowFor(rows[..|rows| - 1], location);
      assert Locations(rows) == Locations(rows[..|rows| - 1]) + [rows[|rows| - 1].location];
      r
  }

  /** `prev.get('total', 0) or 0` */
  function RevenueAt(rows: seq<LocationRow>, location: string): real {
    match RowFor(rows, location)
    case None => 0.0
    case Some(r) => r.total
  }

  /** `prev.get('tickets', 0) or 0` */
  function TicketsAt(rows: seq<LocationRow>, location: string): nat {
    match RowFor(rows, location)
    case None => 0
    case Some(r) => r.tickets
  }

  /** `((change / prev) * 100) if prev > 0 else 0`, as the comparison sheet writes it. */
  function ChangePercent(change: real, previous: real): real {
    if previous > 0.0 then change / previous * 100.0 else 0.0
  }

  /** The sheet's inline formula is `calc_change` of the two years' figures. */
  lemma ChangePercentIsCalcChange(current: real, previous: real)
    ensures ChangePercent(current - previous, previous) == CalcChange(current, previous)
  {
  }

  /** One line of the comparison sheet. */
  datatype LocationChange = LocationChange(
    location: string,
    prevRevenue: real, currRevenue: real, revenueChange: real, revenueChangePct: real,
    prevTickets: nat, currTickets: nat, ticketsChange: int, ticketsChangePct: real)

  function ChangeAt(previous: seq<LocationRow>, current: seq<LocationRow>, location: string): (c: LocationChange)
    ensures c.location == location
    ensures c.prevRevenue == RevenueAt(previous, location) && c.currRevenue == RevenueAt(current, location)
    ensures c.revenueChange == c.currRevenue - c.prevRevenue
    ensures c.revenueChangePct == CalcChange(c.currRevenue, c.prevRevenue)
    ensures c.prevTickets == TicketsAt(previous, location) && c.currTickets == TicketsAt(current, location)
    ensures c.ticketsChange == c.currTickets - c.prevTickets
    ensures c.ticketsChangePct == CalcChange(c.currTickets as real, c.prevTickets as real)
  {
    var pr := RevenueAt(previous, location);
    var cr := RevenueAt(current, location);
    var pt := TicketsAt(previous, location);
    var ct := TicketsAt(current, location);
    ChangePercentIsCalcChange(cr, pr);
    ChangePercentIsCalcChange(ct as real, pt as real);
    LocationChange(location, pr, cr, cr - pr, ChangePercent(cr - pr, pr),
                   pt, ct, ct - pt, ChangePercent((ct - pt) as real, pt as real))
  }

  /** The comparison sheet: one line per location of either year, in order. */
  function LocationComparison(previous: seq<LocationRow>, current: seq<LocationRow>): (rows: seq<LocationChange>)
    ensures |rows| == |AllLocations(previous, current)|
    ensures forall i :: 0 <= i < |rows| ==> rows[i] == ChangeAt(previous, current, AllLocations(previous, current)[i])
  {
    var all := AllLocations(previous, current);
    seq(|all|, i requires 0 <= i < |all| => ChangeAt(previous, current, all[i]))
  }

  /** A location missing from one year's sheet reads 0 revenue and 0 tickets for that year. */
  lemma MissingYearReadsZero(previous: seq<LocationRow>, current: seq<LocationRow>, location: string)
    requires location !in Locations(previous)
    ensures var c := ChangeAt(previous, current, location);
      c.prevRevenue == 0.0 && c.prevTickets == 0 && c.revenueChangePct == 0.0 && c.ticketsChangePct == 0.0 &&
      c.revenueChange == c.currRevenue && c.ticketsChange == c.currTickets
  {
  }

  function Revenues(rows: seq<LocationRow>): (r: seq<real>)
    ensures |r| == |rows| && forall i :: 0 <= i < |rows| ==> r[i] == rows[i].total
  {
    seq(|rows|, i requires 0 <= i < |rows| => rows[i].total)
  }

  function PreviousColumn(rows: seq<LocationChange>): (r: seq<real>)
    ensures |r| == |rows| && forall i :: 0 <= i < |rows| ==> r[i] == rows[i].prevRevenue
  {
    seq(|rows|, i requires 0 <= i < |rows| => rows[i].prevRevenue)
  }

  function CurrentColumn(rows: seq<LocationChange>): (r: seq<real>)
    ensures |r| == |rows| && forall i :: 0 <= i < |rows| ==> r[i] == rows[i].currRevenue
  {
    seq(|rows|, i requires 0 <= i < |rows| => rows[i].currRevenue)
  }

  /** One year's revenue read off location by location along `keys`. */
  function RevenuesAlong(keys: seq<string>, rows: seq<LocationRow>): (r: seq<real>)
    ensures |r| == |keys| && forall i :: 0 <= i < |keys| ==> r[i] == RevenueAt(rows, keys[i])
  {
    seq(|keys|, i requires 0 <= i < |keys| => RevenueAt(rows, keys[i]))
  }

  /** Adding two lists entry by entry adds their sums. */
  lemma {:induction false} SumPointwise(a: seq<real>, b: seq<real>, c: seq<real>)
    requires |a| == |b| == |c| && forall i :: 0 <= i < |c| ==> c[i] == a[i] + b[i]
    ensures Sum(c) == Sum(a) + Sum(b)
  {
    if c != [] {
      var n := |c| - 1;
      SumPointwise(a[..n], b[..n], c[..n]);
    }
  }

  /** Along distinct keys, a value placed under one present key sums to that value. */
  lemma {:induction false} SumSingle(keys: seq<string>, key: string, v: real, s: seq<real>)
    requires NoDuplicates(keys) && key in keys
    requires |s| == |keys| && forall i :: 0 <= i < |s| ==> s[i] == if keys[i] == key then v else 0.0
    ensures Sum(s) == v
  {
    var n := |s| - 1;
    if keys[n] == key {
      assert forall i :: 0 <= i < n ==> keys[i] != key;
      SumConstant(s[..n], 0.0);
    } else {
      assert key in keys[..n] by {
        var i :| 0 <= i < |keys| && keys[i] == key;
        assert i < n && keys[..n][i] == key;
      }
      SumSingle(keys[..n], key, v, s[..n]);
    }
  }

  /**
   * Read along distinct keys that cover every location of a year with one row
   * per location, the year's revenue sums to its total: no location is lost
   * and none is counted twice.
   */
  lemma {:induction false} RevenuesAlongKeepTotal(keys: seq<string>, rows: seq<LocationRow>)
    requires NoDuplicates(keys) && DistinctLocations(rows)
    requires forall i :: 0 <= i < |rows| ==> rows[i].location in keys
    ensures Sum(RevenuesAlong(keys, rows)) == Sum(Revenues(rows))
  {
    if rows == [] {
      SumConstant(RevenuesAlong(keys, rows), 0.0);
    } else {
      var n := |rows| - 1;
      var prefix := rows[..n];
      var last := rows[n];
      assert DistinctLocations(prefix);
      RevenuesAlongKeepTotal(keys, prefix);
      assert last.location !in Locations(prefix);
      var single := seq(|keys|, i requires 0 <= i < |keys| => if keys[i] == last.location then last.total else 0.0);
      forall i | 0 <= i < |keys|
        ensures RevenuesAlong(keys, rows)[i] == RevenuesAlong(keys, prefix)[i] + single[i]
      {
        if keys[i] != last.location {
          assert RowFor(rows, keys[i]) == RowFor(prefix, keys[i]);
        }
      }
      SumPointwise(RevenuesAlong(keys, prefix), single, RevenuesAlong(keys, rows));
      SumSingle(keys, last.location, last.total, single);
      assert Revenues(rows)[..n] == Revenues(prefix);
    }
  }

  /**
   * The comparison sheet's two revenue columns total exactly the revenue of
   * each year's sheet.
   */
  lemma ComparisonKeepsTotals(previous: seq<LocationRow>, current: seq<LocationRow>)
    requires DistinctLocations(previous) && DistinctLocations(current)
    ensures Sum(PreviousColumn(LocationComparison(previous, current))) == Sum(Revenues(previous))
    ensures Sum(CurrentColumn(LocationComparison(previous, current))) == Sum(Revenues(current))
  {
    var all := AllLocations(previous, current);
    var rows := LocationComparison(previous, current);
    AllLocationsSpec(previous, current);
    assert PreviousColumn(rows) == RevenuesAlong(all, previous);
    assert CurrentColumn(rows) == RevenuesAlong(all, current);
    forall i | 0 <= i < |previous| ensures previous[i].location in all {
      assert Locations(previous)[i] == previous[i].location;
    }
    forall i | 0 <= i < |current| ensures current[i].location in all {
      assert Locations(current)[i] == current[i].location;
    }
    RevenuesAlongKeepTotal(all, previous);
    RevenuesAlongKeepTotal(all, current);
  }

  // ------------------------------------------------------------ totals row

  /** The TOTAL line under a year's location sheet. */
  datatype TotalsLine = TotalsLine(
    revenue: real, tickets: nat, quantity: nat, threePlus: nat, oneItem: nat,
    avgBasket: real, threePlusRatio: real, oneItemRatio: real)

  function TicketCounts(rows: seq<LocationRow>): (r: seq<nat>)
    ensures |r| == |rows| && forall i :: 0 <= i < |rows| ==> r[i] == rows[i].tickets
  {
    seq(|rows|, i requires 0 <= i < |rows| => rows[i].tickets)
  }

  function Quantities(rows: seq<LocationRow>): (r: seq<nat>)
    ensures |r| == |rows| && forall i :: 0 <= i < |rows| ==> r[i] == rows[i].quantity
  {
    seq(|rows|, i requires 0 <= i < |rows| => rows[i].quantity)
  }

  function ThreePlusCounts(rows: seq<LocationRow>): (r: seq<nat>)
    ensures |r| == |rows| && forall i :: 0 <= i < |rows| ==> r[i] == rows[i].threePlus
  {
    seq(|rows|, i requires 0 <= i < |rows| => rows[i].threePlus)
  }

  function OneItemCounts(rows: seq<LocationRow>): (r: seq<nat>)
    ensures |r| == |rows| && forall i :: 0 <= i < |rows| ==> r[i] == rows[i].oneCount
  {
    seq(|rows|, i requires 0 <= i < |rows| => rows[i].oneCount)
  }

  /** The sheet's column sums and the ratios derived from them. */
  function TotalsOf(rows: seq<LocationRow>): TotalsLine {
    var revenue := Sum(Revenues(rows));
    var tickets := SumNat(TicketCounts(rows));
    var threePlus := SumNat(ThreePlusCounts(rows));
    var oneItem := SumNat(OneItemCounts(rows));
    TotalsLine(revenue, tickets, SumNat(Quantities(rows)), threePlus, oneItem,
               Ratio(revenue, tickets as real),
               Percent(threePlus as real, tickets as real),
               Percent(oneItem as real, tickets as real))
  }

  /** The accumulation loop of `create_sheet` and the totals row after it. */
  method AccumulateTotals(rows: seq<LocationRow>) returns (t: TotalsLine)
    ensures t == TotalsOf(rows)
  {
    var revenue, tickets, quantity, threePlus, oneItem := 0.0, 0, 0, 0, 0;
    var i := 0;
    while i < |rows|
      invariant 0 <= i <= |rows|
      invariant revenue == Sum(Revenues(rows)[..i])
      invariant tickets == SumNat(TicketCounts(rows)[..i])
      invariant quantity == SumNat(Quantities(rows)[..i])
      invariant threePlus == SumNat(ThreePlusCounts(rows)[..i])
      invariant oneItem == SumNat(OneItemCounts(rows)[..i])
    {
      SumPrefix(Revenues(rows), i);
      SumNatPrefix(TicketCounts(rows), i);
      SumNatPrefix(Quantities(rows), i);
      SumNatPrefix(ThreePlusCounts(rows), i);
      SumNatPrefix(OneItemCounts(rows), i);
      revenue := revenue + rows[i].total;
      tickets := tickets + rows[i].tickets;
      quantity := quantity + rows[i].quantity;
      threePlus := threePlus + rows[i].threePlus;
      oneItem := oneItem + rows[i].oneCount;
      i := i + 1;
    }
    assert Revenues(rows)[..i] == Revenues(rows);
    assert TicketCounts(rows)[..i] == TicketCounts(rows);
    assert Quantities(rows)[..i] == Quantities(rows);
    assert ThreePlusCounts(rows)[..i] == ThreePlusCounts(rows);
    assert OneItemCounts(rows)[..i] == OneItemCounts(rows);
    var avgBasket := if tickets > 0 then revenue / tickets as real else 0.0;
    var ratio3 := if tickets > 0 then threePlus as real / tickets as real * 100.0 else 0.0;
    var ratio1 := if tickets > 0 then oneItem as real / tickets as real * 100.0 else 0.0;
    t := TotalsLine(revenue, tickets, quantity, threePlus, oneItem, avgBasket, ratio3, ratio1);
  }

  /** Column by column, the three-plus and single-item counts stay within the tickets. */
  lemma {:induction false} CountsWithinTickets(rows: seq<LocationRow>)
    requires forall i :: 0 <= i < |rows| ==> rows[i].threePlus + rows[i].oneCount <= rows[i].tickets
    ensures SumNat(ThreePlusCounts(rows)) + SumNat(OneItemCounts(rows)) <= SumNat(TicketCounts(rows))
  {
    if rows != [] {
      var n := |rows| - 1;
      CountsWithinTickets(rows[..n]);
      assert ThreePlusCounts(rows)[..n] == ThreePlusCounts(rows[..n]);
      assert OneItemCounts(rows)[..n] == OneItemCounts(rows[..n]);
      assert TicketCounts(rows)[..n] == TicketCounts(rows[..n]);
    }
  }

  /**
   * When no location counts a ticket both as three-plus and as single-item,
   * the two ratios of the totals row are percentages that together do not
   * pass 100, and the average basket times the tickets gives back the revenue.
   */
  lemma TotalsRatios(rows: seq<LocationRow>)
    requires forall i :: 0 <= i < |rows| ==> rows[i].threePlus + rows[i].oneCount <= rows[i].tickets
    ensures var t := TotalsOf(rows);
      0.0 <= t.threePlusRatio && 0.0 <= t.oneItemRatio &&
      t.threePlusRatio + t.oneItemRatio <= 100.0 &&
      (t.tickets > 0 ==> t.avgBasket * t.tickets as real == t.revenue) &&
      (t.tickets == 0 ==> t.avgBasket == 0.0 && t.threePlusRatio == 0.0 && t.oneItemRatio == 0.0)
  {
    CountsWithinTickets(rows);
    var t := TotalsOf(rows);
    assert t.avgBasket == Ratio(t.revenue, t.tickets as real);
    assert t.threePlusRatio == Percent(t.threePlus as real, t.tickets as real);
    assert t.oneItemRatio == Percent(t.oneItem as real, t.tickets as real);
    LineRatios(t.revenue, t.tickets, t.threePlus, t.oneItem);
  }

  /** The ratios of one totals row, from its column sums. */
  lemma LineRatios(revenue: real, tickets: nat, threePlus: nat, oneItem: nat)
    requires threePlus + oneItem <= tickets
    ensures var avg, r3, r1 := Ratio(revenue, tickets as real),
        Percent(threePlus as real, tickets as real), Percent(oneItem as real, tickets as real);
      0.0 <= r3 && 0.0 <= r1 && r3 + r1 <= 100.0 &&
      (tickets > 0 ==> avg * tickets as real == revenue) &&
      (tickets == 0 ==> avg == 0.0 && r3 == 0.0 && r1 == 0.0)
  {
    SharesWithin(threePlus as real, oneItem as real, tickets as real);
  }

  /** Two disjoint parts of a whole take at most 100 percent of it between them. */
  lemma SharesWithin(a: real, b: real, whole: real)
    requires 0.0 <= a && 0.0 <= b && a + b <= whole
    ensures 0.0 <= Percent(a, whole) && 0.0 <= Percent(b, whole)
    ensures Percent(a, whole) + Percent(b, whole) <= 100.0
  {
    PercentAdds(a, b, whole);
  }

  /** The comparison sheet's current-year revenue column totals the current sheet's TOTAL line. */
  lemma ComparisonMatchesTotalsLine(previous: seq<LocationRow>, current: seq<LocationRow>)
    requires DistinctLocations(previous) && DistinctLocations(current)
    ensures Sum(CurrentColumn(LocationComparison(previous, current))) == TotalsOf(current).revenue
    ensures Sum(PreviousColumn(LocationComparison(previous, current))) == TotalsOf(previous).revenue
  {
    ComparisonKeepsTotals(previous, current);
  }
}
