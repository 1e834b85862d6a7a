/**
 * A row of the `Sales` table and the row predicates each report query
 * applies.  Every query starts from a date window and the request's filters
 * (`apply_filters`) and adds its own exclusions; the exclusions are not the
 * same from query to query, and each predicate below follows its own query.
 */
module Sales {
  import opened Calendar
  import opened Seqs

  /** One sold line: `zedd`, `cd`, `un`, `tanam`, `prod`, `idprod`, `prodt`, `prodg`, `actions`, `tanxa`, `discount_price`, `std_price`. */
  datatype SaleRow = SaleRow(
    ticket: string,
    day: Date,
    location: string,
    employee: string,
    product: string,
    productCode: string,
    productType: string,
    category: string,
    campaign: string,
    amount: real,
    discountPrice: real,
    stdPrice: real)

  /** The warehouse and the test shop, left out of the daily chart query. */
  const ExcludedLocations: seq<string> := ["მთავარი საწყობი 2", "სატესტო"]

  /** Service product codes that are not counted as items. */
  const ExcludedProductCodes: seq<string> := ["M9157", "M9121", "M9850"]

  const SellingItem: string := "selling item"
  const PointOfSale: string := "POP"
  const AnyValue: string := "all"

  /** The request's filters; an empty location list means "no location filter". */
  datatype Filters = Filters(locations: seq<string>, category: string, product: string, campaign: string)

  /** `apply_filters`: each filter applies only when it is set. */
  predicate PassesFilters(f: Filters, r: SaleRow) {
    (f.locations == [] || r.location in f.locations) &&
    (f.category == AnyValue || r.category == f.category) &&
    (f.product == AnyValue || r.product == f.product) &&
    (f.campaign == AnyValue || r.campaign == f.campaign)
  }

  /** `cd__year = year`, `cd >= start 00:00`, `cd <= end 23:59:59.999999`. */
  datatype Window = Window(year: int, start: Date, end: Date)

  predicate InWindow(w: Window, r: SaleRow) {
    r.day.year == w.year && AtMost(w.start, r.day) && AtMost(r.day, w.end)
  }

  /** Rows of the daily revenue/ticket/item chart (warehouse and test shop excluded). */
  predicate IsChartRow(w: Window, f: Filters, r: SaleRow) {
    InWindow(w, r) && r.location !in ExcludedLocations && PassesFilters(f, r)
  }

  /** Rows of the summary statistics, employee statistics, active-location count and monthly arrays. */
  predicate IsStatsRow(w: Window, f: Filters, r: SaleRow) {
    InWindow(w, r) && PassesFilters(f, r)
  }

  /** Rows of the ticket-value distribution: selling items with a non-zero amount. */
  predicate IsDistributionRow(w: Window, f: Filters, r: SaleRow) {
    InWindow(w, r) && r.productType == SellingItem && r.amount != 0.0 && PassesFilters(f, r)
  }

  /** Rows of the daily cross-sell chart: the distribution's rows without point-of-sale material. */
  predicate IsDailyCrossSellRow(w: Window, f: Filters, r: SaleRow) {
    IsDistributionRow(w, f, r) && r.category != PointOfSale
  }

  /** Rows of the period cross-sell figures: the daily ones without the service product codes. */
  predicate IsCrossSellRow(w: Window, f: Filters, r: SaleRow) {
    IsDailyCrossSellRow(w, f, r) && r.productCode !in ExcludedProductCodes
  }

  /** Rows of the product analysis: the summary rows without point-of-sale material. */
  predicate IsProductRow(w: Window, f: Filters, r: SaleRow) {
    IsStatsRow(w, f, r) && r.category != PointOfSale
  }

  /**
   * Rows of the dashboard's year-on-year category comparison: only the date
   * window, the location list and the campaign apply; the category and
   * product filters and the warehouse exclusion do not.
   */
  predicate IsCategoryComparisonRow(w: Window, f: Filters, r: SaleRow) {
    InWindow(w, r) &&
    (f.locations == [] || r.location in f.locations) &&
    (f.campaign == AnyValue || r.campaign == f.campaign)
  }

  /** Rows selected by a query predicate, in table order. */
  function Select(rows: seq<SaleRow>, keep: SaleRow -> bool): (r: seq<SaleRow>)
    ensures forall x :: x in r ==> x in rows && keep(x)
    ensures forall x :: x in rows && keep(x) ==> x in r
  {
    FilterCounts(rows, keep);
    assert forall x :: x in rows ==> multiset(rows)[x] > 0;
    Filter(rows, keep)
  }

  /** A query none of whose rows qualify returns nothing. */
  lemma SelectNone(rows: seq<SaleRow>, keep: SaleRow -> bool)
    requires forall x :: x in rows ==> !keep(x)
    ensures Select(rows, keep) == []
  {
    FilterNone(rows, keep);
  }

  /** A query comes back empty exactly when none of its rows passes the filter. */
  lemma SelectEmptyIff(rows: seq<SaleRow>, keep: SaleRow -> bool)
    ensures Select(rows, keep) == [] <==> forall x :: x in rows ==> !keep(x)
    ensures |Select(rows, keep)| <= |rows|
  {
    if forall x :: x in rows ==> !keep(x) {
      SelectNone(rows, keep);
    } else {
      var x :| x in rows && keep(x);
      assert x in Select(rows, keep);
    }
  }

  /**
   * The queries are nested: every cross-sell row is a daily cross-sell row,
   * every daily cross-sell row a distribution row, every distribution row a
   * stats row, and so is every chart row and product row.
   */
  lemma QueriesNest(w: Window, f: Filters, r: SaleRow)
    ensures IsCrossSellRow(w, f, r) ==> IsDailyCrossSellRow(w, f, r)
    ensures IsDailyCrossSellRow(w, f, r) ==> IsDistributionRow(w, f, r)
    ensures IsDistributionRow(w, f, r) ==> IsStatsRow(w, f, r)
    ensures IsChartRow(w, f, r) ==> IsStatsRow(w, f, r)
    ensures IsProductRow(w, f, r) ==> IsStatsRow(w, f, r)
    ensures IsStatsRow(w, f, r) ==> IsCategoryComparisonRow(w, f, r)
  {
  }

  /**
   * The exclusions really differ: a warehouse sale counts in the summary and
   * the category comparison but not in the daily chart; a service-code line counts in the daily cross-sell
   * chart but not in the period figures; a point-of-sale line counts in the
   * distribution but not in either cross-sell query.
   */
  lemma ExclusionsDiffer(w: Window, f: Filters, r: SaleRow)
    requires IsStatsRow(w, f, r)
    ensures r.location == ExcludedLocations[0] ==> IsCategoryComparisonRow(w, f, r) && !IsChartRow(w, f, r)
    ensures IsDailyCrossSellRow(w, f, r) && r.productCode == "M9157" ==>
      !IsCrossSellRow(w, f, r)
    ensures r.category == PointOfSale ==>
      (IsDistributionRow(w, f, r) <==> r.productType == SellingItem && r.amount != 0.0) &&
      !IsDailyCrossSellRow(w, f, r) && !IsCrossSellRow(w, f, r)
  {
  }

  /**
   * The category comparison ignores the category and product filters: a row
   * of another category or product than the one asked for stays in it, while
   * every other query drops it.
   */
  lemma CategoryComparisonIgnoresFilters(w: Window, f: Filters, r: SaleRow)
    requires IsCategoryComparisonRow(w, f, r)
    requires (f.category != AnyValue && r.category != f.category) || (f.product != AnyValue && r.product != f.product)
    ensures !IsStatsRow(w, f, r) && !IsChartRow(w, f, r) && !IsProductRow(w, f, r) && !IsDistributionRow(w, f, r)
  {
  }
}
