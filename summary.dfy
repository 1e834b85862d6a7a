/**
 * Period summaries: the dashboard's `get_yearly_stats` and active-location
 * count, the dashboard's headline changes, and the insights page's
 * `get_year_stats`.  Each works on the rows its query has already selected.
 */
module Summary {
  import opened Seqs
  import opened Ratios
  import opened Groups
  import opened Sales
  import opened CrossSell
  import Distribution

  /** `Sum('tanxa')`, 0 for no rows. */
  function Revenue(rows: seq<SaleRow>): real {
    Sum(Map(rows, (r: SaleRow) => r.amount))
  }

  /** `Sum('discount_price')` and `Sum('std_price')`. */
  function DiscountTotal(rows: seq<SaleRow>): real {
    Sum(Map(rows, (r: SaleRow) => r.discountPrice))
  }

  function StdPriceTotal(rows: seq<SaleRow>): real {
    Sum(Map(rows, (r: SaleRow) => r.stdPrice))
  }

  /** `Count('zedd', distinct=True)`: one per ticket group. */
  function TicketCount(rows: seq<SaleRow>): nat {
    |TicketItemCounts(rows)|
  }

  /** A period has tickets exactly when it has rows, and never more tickets than rows. */
  lemma TicketCountBounds(rows: seq<SaleRow>)
    ensures TicketCount(rows) == 0 <==> rows == []
    ensures TicketCount(rows) <= |rows|
  {
    TicketItemCountsSpec(rows);
    NoTicketsIffNoRows(rows);
    var gs := GroupCount(Map(rows, (row: SaleRow) => row.ticket));
    SumCountsAtLeastLength(TicketItemCounts(rows));
  }

  lemma {:induction false} SumCountsAtLeastLength(s: seq<nat>)
    requires forall i :: 0 <= i < |s| ==> s[i] >= 1
    ensures SumCounts(s) >= |s|
  {
    if s != [] {
      SumCountsAtLeastLength(s[1..]);
    }
  }

  /** `total_revenue / total_tickets if total_tickets > 0 else 0`: revenue per ticket. */
  function AvgBasket(rows: seq<SaleRow>): (r: real)
    ensures rows == [] ==> r == 0.0
    ensures rows != [] ==> r * (TicketCount(rows) as real) == Revenue(rows)
  {
    TicketCountBounds(rows);
    Ratio(Revenue(rows), TicketCount(rows) as real)
  }

  /** Without tickets there is no revenue and no basket; with them the basket is revenue per ticket. */
  lemma BasketOfTickets(rows: seq<SaleRow>)
    ensures TicketCount(rows) == 0 ==> AvgBasket(rows) == 0.0 && Revenue(rows) == 0.0
    ensures TicketCount(rows) > 0 ==> AvgBasket(rows) == Ratio(Revenue(rows), TicketCount(rows) as real)
  {
    TicketCountBounds(rows);
  }

  /** `total_items / total_tickets if total_tickets > 0 else 0`, with every row an item: at least 1 when there are rows. */
  function ItemsPerTicket(rows: seq<SaleRow>): (r: real)
    ensures rows == [] ==> r == 0.0
    ensures rows != [] ==> r * (TicketCount(rows) as real) == |rows| as real && r >= 1.0
  {
    TicketCountBounds(rows);
    var r := Ratio(|rows| as real, TicketCount(rows) as real);
    if rows == [] then r
    else RatioAtLeastOne(|rows| as real, TicketCount(rows) as real); r
  }

  /** A line that counts as an item on the dashboard: not one of the service codes. */
  predicate CountedItem(r: SaleRow) {
    r.productCode !in ExcludedProductCodes
  }

  // ---------------------------------------------------- dashboard summary

  datatype YearlyStats = YearlyStats(
    totalRevenue: real, totalTickets: nat, totalItems: nat,
    discountTotal: real, stdPriceTotal: real,
    avgBasket: real, discountShare: real)

  /**
   * `get_yearly_stats` over the period's rows: revenue over distinct tickets,
   * items without the service codes, and the discount share guarded by a
   * non-zero standard-price total.
   */
  function YearlyStatsOf(rows: seq<SaleRow>): (s: YearlyStats)
    ensures s.totalTickets == 0 <==> rows == []
    ensures s.totalTickets <= |rows| && s.totalItems <= |rows|
    ensures s.totalItems == Count(rows, CountedItem)
    ensures s.totalRevenue == Revenue(rows) && s.discountTotal == DiscountTotal(rows) &&
            s.stdPriceTotal == StdPriceTotal(rows)
    ensures s.totalTickets == 0 ==> s.avgBasket == 0.0 && s.totalRevenue == 0.0
    ensures s.totalTickets > 0 ==> s.avgBasket == Ratio(s.totalRevenue, s.totalTickets as real)
    ensures s.discountShare == DiscountShare(s.discountTotal, s.stdPriceTotal)
  {
    TicketCountBounds(rows);
    BasketOfTickets(rows);
    var discount, std := DiscountTotal(rows), StdPriceTotal(rows);
    var share := DiscountShare(discount, std);
    YearlyStats(Revenue(rows), TicketCount(rows), Count(rows, CountedItem), discount, std, AvgBasket(rows), share)
  }

  /** The dashboard summary of one period. */
  function DashboardStats(w: Window, f: Filters, rows: seq<SaleRow>): (s: YearlyStats)
    ensures s.totalTickets == 0 <==> forall r :: r in rows ==> !IsStatsRow(w, f, r)
    ensures s.totalTickets <= |rows| && s.totalItems <= |rows|
  {
    SelectEmptyIff(rows, (r: SaleRow) => IsStatsRow(w, f, r));
    YearlyStatsOf(Select(rows, (r: SaleRow) => IsStatsRow(w, f, r)))
  }

  /** The locations with a sale in the period, `values('un').distinct()`. */
  function ActiveLocations(w: Window, f: Filters, rows: seq<SaleRow>): (locs: set<string>)
    ensures forall l :: l in locs <==> exists r :: r in rows && IsStatsRow(w, f, r) && r.location == l
    ensures f.locations != [] ==> forall l :: l in locs ==> l in f.locations
  {
    set r | r in rows && IsStatsRow(w, f, r) :: r.location
  }

  // -------------------------------------------------- dashboard headlines

  /**
   * The discount-share change as written: the previous share is read under
   * the key `'discount)share'`, which the stats dictionary never holds, so
   * the previous share is always taken as 0.
   */
  function DiscountShareChangeAsWritten(current: YearlyStats, previous: YearlyStats): real {
    CalcChange(current.discountShare, 0.0)
  }

  /** Whatever the two periods, the discount-share change as written is 0. */
  lemma DiscountShareChangeAsWrittenIsZero(current: YearlyStats, previous: YearlyStats)
    ensures DiscountShareChangeAsWritten(current, previous) == 0.0
  {
  }

  /** The discount-share change, comparing the two periods' shares. */
  function DiscountShareChange(current: YearlyStats, previous: YearlyStats): (r: real)
    ensures previous.discountShare <= 0.0 ==> r == 0.0
    ensures previous.discountShare > 0.0 ==>
      (r > 0.0 <==> current.discountShare > previous.discountShare) &&
      (r < 0.0 <==> current.discountShare < previous.discountShare)
  {
    CalcChange(current.discountShare, previous.discountShare)
  }

  /** A share going from 25 to 50 percent is a 100 percent rise, which the code as written reports as 0. */
  lemma DiscountShareChangeExample()
    ensures var previous := YearlyStats(100.0, 1, 1, 75.0, 100.0, 100.0, 25.0);
      var current := YearlyStats(100.0, 1, 1, 50.0, 100.0, 100.0, 50.0);
      DiscountShareChange(current, previous) == 100.0 &&
      DiscountShareChangeAsWritten(current, previous) == 0.0
  {
  }

  datatype Headlines = Headlines(
    revenueChange: real, ticketsChange: real, itemsChange: real, basketChange: real,
    discountShareChange: real, crossSellChange: real, singleItemChange: real,
    distAvgChange: real, distMedianChange: real,
    conversionRateCurrent: real, conversionRatePrevious: real, conversionChange: real,
    locationsChange: real)

  /** Rises exactly when the previous figure is positive and the current one exceeds it. */
  predicate ChangeSign(change: real, current: real, previous: real) {
    (change > 0.0 <==> previous > 0.0 && current > previous) &&
    (change < 0.0 <==> previous > 0.0 && current < previous)
  }

  /**
   * The dashboard's year-over-year changes. The discount-share change is the
   * corrected one: the page as written always shows 0 there
   * (`DiscountShareChangeAsWrittenIsZero`).
   */
  function DashboardHeadlines(
    current: YearlyStats, previous: YearlyStats,
    crossCurrent: CrossSellStats, crossPrevious: CrossSellStats,
    distCurrent: Distribution.TicketStats, distPrevious: Distribution.TicketStats,
    locationsCurrent: nat, locationsPrevious: nat): (h: Headlines)
    ensures ChangeSign(h.revenueChange, current.totalRevenue, previous.totalRevenue)
    ensures ChangeSign(h.ticketsChange, current.totalTickets as real, previous.totalTickets as real)
    ensures ChangeSign(h.itemsChange, current.totalItems as real, previous.totalItems as real)
    ensures ChangeSign(h.basketChange, current.avgBasket, previous.avgBasket)
    ensures ChangeSign(h.discountShareChange, current.discountShare, previous.discountShare)
    ensures ChangeSign(h.crossSellChange, crossCurrent.crossSellPct, crossPrevious.crossSellPct)
    ensures ChangeSign(h.singleItemChange, crossCurrent.singleItemPct, crossPrevious.singleItemPct)
    ensures ChangeSign(h.distAvgChange, distCurrent.avg, distPrevious.avg)
    ensures ChangeSign(h.distMedianChange, distCurrent.median, distPrevious.median)
    ensures current.totalItems == 0 ==> h.conversionRateCurrent == 0.0
    ensures current.totalItems > 0 ==>
      h.conversionRateCurrent * (current.totalItems as real) == (current.totalTickets as real) * 100.0
    ensures ChangeSign(h.conversionChange, h.conversionRateCurrent, h.conversionRatePrevious)
    ensures ChangeSign(h.locationsChange, locationsCurrent as real, locationsPrevious as real)
  {
    var conversionCurrent := ConversionRate(current.totalTickets, current.totalItems);
    var conversionPrevious := ConversionRate(previous.totalTickets, previous.totalItems);
    Headlines(
      CalcChange(current.totalRevenue, previous.totalRevenue),
      CalcChange(current.totalTickets as real, previous.totalTickets as real),
      CalcChange(current.totalItems as real, previous.totalItems as real),
      CalcChange(current.avgBasket, previous.avgBasket),
      DiscountShareChange(current, previous),
      CalcChange(crossCurrent.crossSellPct, crossPrevious.crossSellPct),
      CalcChange(crossCurrent.singleItemPct, crossPrevious.singleItemPct),
      CalcChange(distCurrent.avg, distPrevious.avg),
      CalcChange(distCurrent.median, distPrevious.median),
      conversionCurrent, conversionPrevious,
      CalcChange(conversionCurrent, conversionPrevious),
      CalcChange(locationsCurrent as real, locationsPrevious as real))
  }

  /**
   * The dashboard's item count leaves out the service codes but its ticket
   * count does not, so its conversion rate can pass 100 percent: two
   * tickets, one of them holding only a service line.
   */
  lemma ConversionRateCanPass100()
    ensures var a := SaleRow("t1", Calendar.Date(2025, 1, 2), "shop", "e", "p", "A1", SellingItem,
                             "c", "none", 10.0, 9.0, 10.0);
      var b := SaleRow("t2", Calendar.Date(2025, 1, 2), "shop", "e", "s", "M9157", SellingItem,
                       "c", "none", 1.0, 1.0, 1.0);
      var s := YearlyStatsOf([a, b]);
      s.totalTickets == 2 && s.totalItems == 1 && ConversionRate(s.totalTickets, s.totalItems) == 200.0
  {
    var a := SaleRow("t1", Calendar.Date(2025, 1, 2), "shop", "e", "p", "A1", SellingItem,
                     "c", "none", 10.0, 9.0, 10.0);
    var b := SaleRow("t2", Calendar.Date(2025, 1, 2), "shop", "e", "s", "M9157", SellingItem,
                     "c", "none", 1.0, 1.0, 1.0);
    var keys := Map([a, b], (row: SaleRow) => row.ticket);
    assert keys == ["t1", "t2"];
    assert keys[..1] == ["t1"];
    assert GroupCount(["t1"]) == [Group("t1", 1)];
    assert Bump([Group("t1", 1)], "t2") == [Group("t1", 1), Group("t2", 1)];
    assert GroupCount(keys) == [Group("t1", 1), Group("t2", 1)];
    assert TicketItemCounts([a, b]) == [1, 1];
    assert [a, b][1..] == [b];
    CountSnoc([], a, CountedItem);
    CountSnoc([a], b, CountedItem);
    assert [] + [a] == [a] && [a] + [b] == [a, b];
    assert CountedItem(a) && !CountedItem(b);
  }

  // ------------------------------------------------------ insights summary

  datatype YearStats = YearStats(
    totalRevenue: real, totalTickets: nat, totalItems: nat,
    avgBasket: real, itemsPerTicket: real, discountShare: real,
    crossSellRate: real, singleItemRate: real,
    topCategories: seq<Total<string>>, topProducts: seq<Total<string>>,
    topLocations: seq<Total<string>>)

  /** The insights page's cross-sell rows: selling items, non-zero amount, no point-of-sale material. */
  predicate IsInsightCrossSellRow(r: SaleRow) {
    r.productType == SellingItem && r.amount != 0.0 && r.category != PointOfSale
  }

  /** Higher revenue first, `order_by('-revenue')`. */
  predicate RevenueFirst(a: Total<string>, b: Total<string>) { a.sum >= b.sum }

  lemma RevenueFirstTotal()
    ensures TotalPreorder(RevenueFirst)
  {
  }

  /** The three grouping keys of the insights page's top-five lists. */
  function CategoryKey(r: SaleRow): string { r.category }
  function ProductKey(r: SaleRow): string { r.product }
  function LocationKey(r: SaleRow): string { r.location }

  /** The five keys with the highest revenue, `values(key).annotate(revenue=Sum('tanxa')).order_by('-revenue')[:5]`. */
  function TopFive(rows: seq<SaleRow>, key: SaleRow -> string): seq<Total<string>> {
    Top(GroupSum(Map(rows, (r: SaleRow) => (key(r), r.amount))), 5, RevenueFirst)
  }

  /** At most five, highest revenue first, and no key left out earned more than one kept. */
  lemma TopFiveSpec(rows: seq<SaleRow>, key: SaleRow -> string)
    ensures var ts := GroupSum(Map(rows, (r: SaleRow) => (key(r), r.amount)));
      var top := TopFive(rows, key);
      |top| <= 5 && |top| == (if 5 < |ts| then 5 else |ts|) &&
      (forall i, j :: 0 <= i < j < |top| ==> top[i].sum >= top[j].sum) &&
      (forall t :: t in top ==> t in ts) &&
      (forall t, j :: t in multiset(ts) - multiset(top) && 0 <= j < |top| ==> t.sum <= top[j].sum)
  {
    var ts := GroupSum(Map(rows, (r: SaleRow) => (key(r), r.amount)));
    RevenueFirstTotal();
    TopSpec(ts, 5, RevenueFirst);
  }

  /**
   * `get_year_stats` over the period's rows (already restricted to the
   * window and the filters, warehouse and test shop excluded): every row is
   * an item, the discount share is guarded by a positive standard-price
   * total, and the cross-sell rates come from the selling lines.
   */
  function YearStatsOf(rows: seq<SaleRow>): (s: YearStats)
    ensures s.totalItems == |rows|
    ensures s.totalTickets == 0 <==> rows == []
    ensures s.totalTickets <= s.totalItems
    ensures s.totalTickets == 0 ==> s.avgBasket == 0.0 && s.itemsPerTicket == 0.0
    ensures s.totalTickets > 0 ==> s.itemsPerTicket >= 1.0
    ensures 0.0 <= s.crossSellRate <= 100.0 && 0.0 <= s.singleItemRate <= 100.0
    ensures |s.topCategories| <= 5 && |s.topProducts| <= 5 && |s.topLocations| <= 5
    ensures s.totalRevenue == Revenue(rows) && s.totalTickets == TicketCount(rows)
    ensures s.avgBasket == AvgBasket(rows) && s.itemsPerTicket == ItemsPerTicket(rows)
    ensures s.discountShare == DiscountRate(DiscountTotal(rows), StdPriceTotal(rows))
    ensures var counts := TicketItemCounts(Select(rows, IsInsightCrossSellRow));
      s.crossSellRate == Percent(Count(counts, ThreePlus) as real, |counts| as real) &&
      s.singleItemRate == Percent(Count(counts, SingleItem) as real, |counts| as real)
    ensures s.topCategories == TopFive(rows, CategoryKey) && s.topProducts == TopFive(rows, ProductKey) &&
            s.topLocations == TopFive(rows, LocationKey)
  {
    TicketCountBounds(rows);
    var discount := DiscountTotal(rows);
    var std := StdPriceTotal(rows);
    var cross := CrossSellOf(TicketItemCounts(Select(rows, IsInsightCrossSellRow)));
    YearStats(Revenue(rows), TicketCount(rows), |rows|, AvgBasket(rows), ItemsPerTicket(rows),
              DiscountRate(discount, std),
              cross.crossSellPct, cross.singleItemPct,
              TopFive(rows, CategoryKey), TopFive(rows, ProductKey), TopFive(rows, LocationKey))
  }

  /** The insights summary of one year's window. */
  function InsightStats(w: Window, f: Filters, rows: seq<SaleRow>): (s: YearStats)
    ensures s.totalTickets == 0 <==> forall r :: r in rows ==> !IsChartRow(w, f, r)
    ensures s.totalTickets <= s.totalItems <= |rows|
    ensures var sel := Select(rows, (r: SaleRow) => IsChartRow(w, f, r));
      s.totalRevenue == Revenue(sel) && s.totalTickets == TicketCount(sel) && s.totalItems == |sel| &&
      s.avgBasket == AvgBasket(sel) && s.itemsPerTicket == ItemsPerTicket(sel) &&
      s.topCategories == TopFive(sel, CategoryKey) && s.topProducts == TopFive(sel, ProductKey) &&
      s.topLocations == TopFive(sel, LocationKey)
    ensures var counts := TicketItemCounts(Select(Select(rows, (r: SaleRow) => IsChartRow(w, f, r)), IsInsightCrossSellRow));
      s.crossSellRate == Percent(Count(counts, ThreePlus) as real, |counts| as real) &&
      s.singleItemRate == Percent(Count(counts, SingleItem) as real, |counts| as real)
  {
    SelectEmptyIff(rows, (r: SaleRow) => IsChartRow(w, f, r));
    YearStatsOf(Select(rows, (r: SaleRow) => IsChartRow(w, f, r)))
  }
}
