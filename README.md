# Sales analytics: a verified model of the request-time pipeline

This project models the reporting core of a Django sales-analytics site for
a chain of shops. Every page starts from rows of the `Sales` table. A row is
one sold line. It has a ticket number (`zedd`), a day (`cd`), a location
(`un`), an employee (`tanam`), a product and product code, a category
(`prodg`), a product type, a campaign (`actions`), the amount (`tanxa`), the
discounted price and the standard price. The pages turn these rows into
summaries, charts, rankings and advice.

The model covers the following.

- **Access.** A user's profile (`can_access_location`, `get_allowed_locations`).
- **Location resolution.** How a request's location list becomes the list a
  report filters by. This is one block, repeated in four views
  (`sales_app/views.py` 68-95, 1632-1651, 2184-2202 and 2517-2534). The plan
  page has a single-location variant.
- **Periods.** How a comparison mode and two dates become the current and
  previous windows.
- **Row predicates.** The row predicate of each query: its own exclusions
  and which of the request's filters it applies. These differ from query to
  query; the category comparison, for one, applies neither the category nor
  the product filter.
- **Dashboard figures.**
  - the summary statistics and headline changes;
  - the three cross-selling classifications;
  - the ticket-value distribution with its order statistics;
  - the employee rollups and the year-on-year join by name;
  - the daily and monthly chart series;
  - the category comparison.
- **Export.** The location comparison sheet and its totals row.
- **Products.** Product scoring, tiering and the ranked lists.
- **Insights.** The insights page's decision tree.
- **Plan versus actual.** The expansion of monthly plan rows into daily
  records, the daily and monthly bucketing of `aggregate_data`, and the KPIs.
- **Raw SQL.** The guard on administrator-typed SQL.

**How the source is represented.**

- Query results are sequences of rows. Each ORM `values(...).annotate(...)`
  is a function over such a sequence.
- Amounts are exact `real`s.
- Dates are (year, month, day) triples in the proleptic Gregorian calendar,
  at day granularity.
- The loops of the source that accumulate state are Dafny methods. Each
  method is proved equal to a specification function, and the properties
  are proved about that function. These loops are:
  - the per-day cross-sell tally;
  - the distribution counter;
  - the two passes over the product records;
  - the in-place employee joins;
  - the twelve-slot monthly arrays;
  - `expand_to_daily`;
  - the dictionary and walk loops of `aggregate_data`;
  - the insight appends;
  - the export's running totals.
- A loop that only appends one entry per input, and keeps no other state,
  is a sequence comprehension or a `Map` over its input instead. There are
  three:
  - the entry loop of `get_employee_stats` (`sales_app/views.py:382-395`,
    `Employees.UnsortedSummaries`);
  - the category comparison loop (`sales_app/views.py:752-767`,
    `Comparisons.CategoryComparison`);
  - the comparison sheet's location loop (`sales_app/views.py:1932-1944`,
    `Comparisons.LocationComparison`).

A non-admin whose requested locations are all unauthorised is not refused:
they get their whole allowed list (`sales_app/views.py:83-84`); only a user
with an empty allowed list is refused.

## Model

| member | source | states |
|---|---|---|
| Access.CanAccessLocation | sales_app/models.py:14-18 | an admin can access every location; a non-admin can access exactly the locations in their allowed list |
| Access.GetAllowedLocations | sales_app/models.py:20-24 | an admin gets the empty list; a non-admin gets their stored list unchanged, in order |
| Access.CanAccessIffAllowed | sales_app/models.py:14-24 | for a non-admin, `can_access_location(l)` holds iff `l` is in `get_allowed_locations()` |
| Access.AdminEmptyMeansAll | sales_app/models.py:14-24 | for an admin the empty allowed list means "all": no location is listed, yet every location is accessible |
| Access.ForbiddenIffNoAllowedLocations | sales_app/views.py:68-88 | a request is refused iff the user is not an admin and has no allowed location, whatever was requested |
| Access.NonAdminStaysWithinAllowed | sales_app/views.py:71-88 | a non-admin's resolved list is never empty and never contains a location outside their allowed list |
| Access.NonAdminAllGivesAllowed | sales_app/views.py:71-95 | an empty request, or one containing "all", gives a non-admin their whole allowed list, shown as the single location or as "multiple" |
| Access.NonAdminSpecificRequest | sales_app/views.py:75-84 | unauthorised names are dropped and reported in the warning set; the rest keep their order and repeats; if none survive, the whole allowed list is used |
| Access.AdminResolution | sales_app/views.py:90-95 | an admin's request is kept verbatim, with no warning, unless it is empty or contains "all" anywhere; then it becomes `[]` (unrestricted) |
| Access.ResolveLocations | sales_app/views.py:68-95 | an admin is never refused or warned; a resolved list is shown as "all" iff it is empty, as its one location iff it has one, and as "multiple" iff it has more |
| Access.ResolveGeoAsWritten | sales_app/views.py:955-964 | the plan page's single-location resolution as written; an admin keeps the selected location |
| Access.GeoAsWrittenLeaksAll | sales_app/views.py:962-964 | as written, a non-admin with no allowed location who names a location gets `'all'`, i.e. no location filter |
| Access.ResolveGeo | sales_app/views.py:955-964 | corrected resolution: an admin keeps the selected location unwarned; a warning is given only for a location outside the allowed list; a non-admin's own location is kept unwarned |
| Access.ResolveGeoSound | sales_app/views.py:955-964 | corrected resolution: a non-admin is refused iff they have no location, and is otherwise shown one of their own locations; it agrees with the code as written in every other case |
| Periods.ComparisonYears | sales_app/views.py:42-51 | the previous year is before the current one; the current year is 2026 exactly for the two 2026 modes; every current year is a common year; unknown modes fall back |
| Periods.InsightYears | sales_app/views.py:2487-2498 | the same years as the dashboard; a third year, one before the previous year, exists for every mode except 2026-2024 |
| Periods.ParsedOr | sales_app/views.py:54-65 | a date that parses is kept; otherwise the fallback date is used |
| Periods.Restamp | sales_app/views.py:102-103 | moving a date to another year fails exactly for 29 February moved to a common year; otherwise it is the same month and day in the new year |
| Periods.ClampEnd | sales_app/views.py:120-122 | the end date never passes the newest available date; it is either unchanged or replaced by that newest date |
| Periods.DashboardPeriod | sales_app/views.py:54-126 | with the mode's two years: it fails iff some re-stamp meets a 29 February in a common year; on success the start is the parsed or default start moved onto the current year, the end is the parsed or default end moved onto the current year and clamped to the newest available date, and the previous window is the current one moved onto the previous year; the end stays in the current year when the newest available date is in it |
| Periods.ResolvePeriod | sales_app/views.py:96-126 | for any two years in order, on success the start and both previous dates lie in their years, all four dates are valid, and the end is at most the newest available date |
| Periods.ResolvePeriodWindows | sales_app/views.py:96-126 | for any two years in order: failure iff some re-stamp meets a 29 February in a common year; on success each window date is the parsed or default date moved onto its year, with the end clamped before it is moved; the end stays in the current year when the newest available date is in it |
| Periods.DashboardPeriodFailsOnlyOnLeapDay | sales_app/views.py:97-126 | resolution fails iff a parsed start or end date is 29 February, because both current years are common years |
| Periods.MonthRangeWindow | sales_app/views.py:974-982 | the window runs from the first day of the start month to the last day of the end month; it is non-empty iff the start month is not after the end month |
| Ratios.CalcChange | sales_app/views.py:465-468 | 0 when the previous value is 0 or negative; otherwise the previous value grown by the returned percentage gives the current one, and the sign says whether the figure rose or fell |
| Ratios.CalcChangeAtLeastMinus100 | sales_app/views.py:465-468 | a non-negative figure can fall by at most 100 percent |
| Ratios.Ratio | sales_app/views.py:196-199 | 0 when the denominator is not positive; otherwise the ratio times the denominator gives the numerator |
| Ratios.Percent | sales_app/views.py:283-284 | 0 for a non-positive whole; otherwise the percentage times the whole gives 100 times the part, and a part within the whole gives a value in [0, 100] |
| Ratios.PercentAdds | sales_app/views.py:283-284 | percentages of one whole add up as their parts do |
| Ratios.DiscountShare | sales_app/views.py:201-204 | 0 when the standard-price total is 0; otherwise the share is the percentage of the standard price not charged |
| Ratios.DiscountRate | sales_app/views.py:385 | the same share, guarded by a positive standard-price total |
| Ratios.DiscountGuardsAgree | sales_app/views.py:201-204 | the two guards agree unless the standard total is negative; a discounted total between 0 and the standard total gives a share in [0, 100] |
| Ratios.ConversionRate | sales_app/views.py:495-496 | 0 with no items; otherwise tickets as a percentage of items, within [0, 100] when tickets do not outnumber items |
| Sales.Select | sales_app/views.py:146-156 | a query returns exactly the rows that pass its predicate |
| Sales.SelectNone | sales_app/views.py:146-156 | a query none of whose rows pass returns nothing |
| Sales.QueriesNest | sales_app/views.py:158-302 | the queries nest: cross-sell ⊆ daily cross-sell ⊆ distribution ⊆ stats, chart and product rows are stats rows, and every stats row is a category comparison row |
| Sales.ExclusionsDiffer | sales_app/views.py:158-302 | the exclusions really differ: a warehouse sale is in the stats and the category comparison but not in the chart; a service code is in the daily cross-sell but not in the period figures; point-of-sale material is only in the distribution |
| Sales.CategoryComparisonIgnoresFilters | sales_app/views.py:729-737 | a row of another category or product than the one asked for stays in the category comparison but is dropped by the stats, chart, product and distribution queries |
| Sales.PassesFilters | sales_app/views.py:146-156 | `apply_filters`: the location list applies only when non-empty, and the category, product and campaign only when not "all" |
| Sales.IsChartRow | sales_app/views.py:158-168 | the daily chart's rows: in the window, not the warehouse or the test shop, and passing the filters |
| Sales.IsStatsRow | sales_app/views.py:179-186 | the summary's rows: in the window and passing the filters, with no location exclusion |
| Sales.IsDistributionRow | sales_app/views.py:295-302 | the distribution's rows: selling items with a non-zero amount, in the window and passing the filters |
| Sales.IsDailyCrossSellRow | sales_app/views.py:207-215 | the daily cross-sell rows: the distribution's rows without point-of-sale material |
| Sales.IsCrossSellRow | sales_app/views.py:260-274 | the period cross-sell rows: the daily cross-sell rows without the three service product codes |
| Sales.IsProductRow | sales_app/views.py:571-588 | the product analysis rows: the summary's rows without point-of-sale material |
| Sales.IsCategoryComparisonRow | sales_app/views.py:729-737 | the category comparison's rows: in the window, inside the location list when one is given, and of the campaign when one is chosen; no category or product filter and no location exclusion |
| Summary.TicketCountBounds | sales_app/views.py:190 | a period has tickets iff it has rows, and never more tickets than rows |
| Summary.AvgBasket | sales_app/views.py:196-199 | 0 without rows; otherwise the average basket times the ticket count is the revenue |
| Summary.ItemsPerTicket | sales_app/views.py:2589 | 0 without rows; otherwise items over tickets, and at least 1 |
| Summary.YearlyStatsOf | sales_app/views.py:188-205 | revenue, discount and standard-price totals are the sums of their columns; tickets are 0 iff there are no rows; items leave out the service codes; the average basket is revenue per ticket (0 without tickets); the discount share is `DiscountShare` of the two totals |
| Summary.BasketOfTickets | sales_app/views.py:196-199 | without tickets there is no revenue and the basket is 0; with tickets the basket is revenue over tickets |
| Sales.SelectEmptyIff | sales_app/views.py:146-156 | a query returns nothing iff none of its rows pass, and never more rows than it was given |
| Summary.DashboardStats | sales_app/views.py:179-205 | a period has no ticket iff no row passes the stats query; tickets and items never exceed the rows |
| Summary.ActiveLocations | sales_app/views.py:500-507 | the distinct locations are exactly those of the period's rows, all inside the location filter when one is set |
| Summary.DiscountShareChangeAsWrittenIsZero | sales_app/views.py:463 | as written, the discount-share change is always 0, because the previous share is read under a key that never exists |
| Summary.DiscountShareChangeAsWritten | sales_app/views.py:463 | the headline as written: the current share's change against a previous share read under a key that is never set, so against 0 |
| Summary.DiscountShareChange | sales_app/views.py:462-474 | corrected change: positive iff the share rose, negative iff it fell, 0 when the previous share is not positive |
| Summary.DiscountShareChangeExample | sales_app/views.py:463 | a share going from 25 to 50 percent is a rise of 100 percent, which the code as written reports as 0 |
| Summary.DashboardHeadlines | sales_app/views.py:470-497 | every headline change rises iff its previous figure is positive and the current one exceeds it, the discount-share change taken in its corrected form; the conversion rate is tickets per item as a percentage |
| Summary.ConversionRateCanPass100 | sales_app/views.py:190-191 | items leave out service codes but tickets do not, so two tickets with one counted item give a conversion rate of 200 percent |
| Summary.TopFiveSpec | sales_app/views.py:2605-2619 | five keys, or all of them when there are fewer, in descending revenue, drawn from the grouped totals, none left out earning more |
| Summary.YearStatsOf | sales_app/views.py:2560-2634 | revenue is the amounts' sum, tickets the distinct tickets, items the rows (tickets 0 iff no rows, never above items); the basket is revenue per ticket and items per ticket at least 1; the discount share is `DiscountRate` of the discount and standard-price totals; the cross-sell and single-item rates are the shares of three-plus and one-item tickets among the selling, non-POP lines' tickets; the top categories, products and locations are the five highest-revenue groups |
| Summary.InsightStats | sales_app/views.py:2548-2634 | over the rows that pass the insights query: no ticket iff none passes; revenue, tickets, items, basket, items per ticket and the three top-five lists are those of the passing rows, and the two cross-sell rates are the three-plus and one-item shares of their selling, non-POP tickets |
| Summary.IsInsightCrossSellRow | sales_app/views.py:2593 | the insights page's cross-sell rows: selling items with a non-zero amount and no point-of-sale material |
| Groups.GroupCountSpec | sales_app/views.py:276-278 | grouping by ticket is exact: one non-empty group per distinct key, each counting the rows with that key, the counts adding up to the rows |
| Groups.GroupSumSpec | sales_app/views.py:739-741 | summing by key is exact: one total per key that occurs, each the sum of its values, the totals adding up to the sum of all values |
| Seqs.TopSpec | sales_app/views.py:681-685 | `sorted(...)[:k]`: the first k in order, drawn from the input, and every element left out ranks after each listed one |
| CrossSell.ClassesPartition | sales_app/views.py:2280-2282 | with no empty ticket, every ticket is exactly one of one-item, two-item or three-plus |
| CrossSell.SingleAndCrossDisjoint | sales_app/views.py:281-282 | single-item and cross-sell tickets together are at most all tickets |
| CrossSell.CrossSellOf | sales_app/views.py:276-292 | the cross-sell tickets are those with three or more items and the single-item tickets those with exactly one; each percentage is its count over all tickets (0 without tickets); single + cross-sell ≤ total; both percentages lie in [0, 100] |
| CrossSell.TicketItemCountsSpec | sales_app/views.py:276-278 | one count per distinct ticket, each at least 1, adding up to the rows; a ticket with k rows counts k |
| CrossSell.NoTicketsIffNoRows | sales_app/views.py:280 | there are tickets iff there are rows |
| CrossSell.PeriodCrossSell | sales_app/views.py:260-292 | the period figures are the classification of the cross-sell query's tickets; there are none iff the query returns no row |
| CrossSell.EmployeeCrossSell | sales_app/views.py:2265-2295 | the one-, two- and three-plus-item counts are the tickets with exactly one, exactly two and at least three items; cross-sell equals three-plus; with tickets, each share is its count over the tickets and the average item count is the items over the tickets; an employee without tickets gets all zeros |
| CrossSell.IsEmployeeCrossSellRow | sales_app/views.py:2245-2258 | an employee's cross-sell rows: that employee's selling items in the window with a non-zero amount and no point-of-sale material, inside the location list when one is given and of the category when one is chosen |
| CrossSell.EmployeeClassesCoverTickets | sales_app/views.py:2280-2282 | the one, two and three-plus counts add up exactly to the tickets |
| CrossSell.EmployeeSharesSumTo100 | sales_app/views.py:2285-2295 | for an employee with tickets the three shares add up to 100 percent |
| CrossSell.EmployeeBreakdown | sales_app/views.py:2245-2295 | an employee with a qualifying row has at least one classified ticket |
| CrossSell.BreakdownOfTickets | sales_app/views.py:2261-2295 | over the selected rows, every ticket is in exactly one class, and the average item count is rows over tickets |
| CrossSell.DailyCrossSell | sales_app/views.py:241-258 | the result has the tallied days as keys, each holding that day's single-item and cross-sell shares |
| CrossSell.TalliesPerDay | sales_app/views.py:225-239 | a day is tallied iff it has a ticket; its tally counts that day's tickets, its single-item tickets and its cross-sell tickets |
| CrossSell.Tallies | sales_app/views.py:225-239 | the `date_stats` dictionary after the per-day loop: each (month, day, ticket) record adds one ticket to its day, one single-item ticket when it has one item, one cross-sell ticket when it has three or more |
| CrossSell.DailyCrossSellOfRows | sales_app/views.py:207-258 | the per-day chart has exactly the days on which the daily cross-sell query has a ticket; each day holds that day's tally as percentages, which equal the single-item share, the cross-sell share and the ticket count of the period classification (`CrossSellOf`) applied to that day's tickets alone |
| Distribution.BucketsPartition | sales_app/views.py:310-319 | a negative total is in no range; a non-negative total is in exactly one |
| Distribution.BucketCounts | sales_app/views.py:321-330 | eight counts, count i being the number of totals in range i |
| Distribution.Distribute | sales_app/views.py:321-330 | the counter loop puts each total in the first range holding it, giving the bucket counts |
| Distribution.CountsCoverNonNegative | sales_app/views.py:321-330 | the counts add up to the number of non-negative totals; negative totals are still counted as tickets |
| Distribution.BucketShares | sales_app/views.py:333-336 | each share is the count as a percentage of all tickets, 0 without tickets |
| Distribution.OrderStats | sales_app/views.py:339-349 | all 0 without tickets; otherwise the median, p25 and p75 are the totals of rank n div 2, n div 4 and 3n div 4 (`HasRank`: that many totals lie strictly below, and more lie at or below), so p25 ≤ median ≤ p75; the average is the mean |
| Distribution.SortedRank | sales_app/views.py:341-347 | the element at index k of the ascending list has rank k among the totals |
| Distribution.RankUnique | sales_app/views.py:341-347 | two values with the same rank are equal, so the rank fixes the statistic |
| Distribution.QuarterIndices | sales_app/views.py:341-347 | the indices n div 4 ≤ n div 2 ≤ 3n div 4 are all in range |
| Distribution.Mean | sales_app/views.py:340 | 0 without tickets; otherwise the mean times the count is the sum |
| Distribution.Ascending | sales_app/views.py:341-345 | `sorted` gives an ascending list of the same length drawn from the totals |
| Distribution.FourTicketExample | sales_app/views.py:339-349 | on four tickets the "median" is the upper of the two middle values, with no interpolation |
| Distribution.TicketTotalsAddUp | sales_app/views.py:305-307 | the ticket totals add up to the amounts of the rows |
| Distribution.TicketDistributionOf | sales_app/views.py:295-359 | over the distribution query's tickets: the ticket count, the bucket counts, the shares of those counts, and the order statistics; the median, p25 and p75 have ranks n div 2, n div 4 and 3n div 4 |
| Employees.DisplayName | sales_app/views.py:388 | an empty name shows as a non-empty placeholder; any other name is shown unchanged |
| Employees.SumWhereMonotone | sales_app/views.py:2311-2314 | with no negative amount, a narrower filter never sums to more |
| Employees.EmployeeSummaryOf | sales_app/views.py:383-395 | an entry carries its employee's revenue, distinct tickets, rows as items, revenue per ticket, items per ticket and discount rate of the two price totals; with rows it has between 1 and items tickets, and at least one item per ticket |
| Employees.UnsortedSummaries | sales_app/views.py:382-395 | one summary per distinct employee, in order of first appearance, each built from that employee's own rows |
| Employees.DashboardEmployees | sales_app/views.py:362-397 | one entry per distinct employee, in descending revenue |
| Employees.DashboardEntry | sales_app/views.py:383-397 | every entry is some employee's summary, with a ticket and not yet joined |
| Employees.EveryEmployeeListed | sales_app/views.py:372-397 | every employee with a row in the period has an entry carrying their revenue |
| Employees.NameIndex | sales_app/views.py:516 | the index holds exactly the names of the previous entries |
| Employees.NameIndexLastWins | sales_app/views.py:516 | for a repeated name the index keeps the last entry |
| Employees.Compare | sales_app/views.py:520-524 | a name missing from the previous period compares with zeros; otherwise with its previous revenue and tickets; each change rises iff the figure grew from a positive base |
| Employees.JoinPrevious | sales_app/views.py:519-524 | each current entry gets, in place, its comparison against the previous period's index and nothing else changes |
| Employees.PerformanceOf | sales_app/views.py:2320-2359 | one (employee, location) entry: revenue is the pair's amounts, tickets its distinct tickets (between 1 and the rows when there are rows), items leave out service codes; basket is revenue per ticket, items per ticket is items over tickets, the discount rate is that of the two price totals; the skincare share is `SKIN CARE` revenue as a percentage of non-POP revenue, within [0, 100] when no amount is negative |
| Employees.SkincareWithinNonPop | sales_app/views.py:2311-2314 | skincare revenue never exceeds revenue without point-of-sale material |
| Employees.EmployeePerformances | sales_app/views.py:2297-2361 | one entry per distinct (employee, location) pair, in descending revenue |
| Employees.IsEmployeePageRow | sales_app/views.py:2235-2243 | the employee page's rows: in the window, inside the location list when one is given, of the category and of the employee when each is chosen; no location exclusion |
| Employees.EveryPairListed | sales_app/views.py:2297-2361 | every (employee, location) pair with a row on the page has an entry carrying that pair's revenue and the employee's breakdown |
| Employees.CurrentPerformances | sales_app/views.py:2297-2361 | the current page, in descending revenue: each entry has a ticket and the cross-sell breakdown of an employee with a row on the page |
| Employees.PreviousPerformances | sales_app/views.py:2297-2361 | the previous page, in descending revenue: each entry has a ticket and no cross-sell breakdown |
| Employees.PerformanceEntry | sales_app/views.py:2309-2361 | every entry is a pair that sold, with that employee's breakdown |
| Employees.SameEmployeeSameBreakdown | sales_app/views.py:2333-2334 | two entries of one named employee at two locations carry the same cross-sell breakdown, computed per name |
| Employees.InlineChangeIsCalcChange | sales_app/views.py:2411-2412 | the page's inline change formula equals `calc_change` |
| Employees.PageCompare | sales_app/views.py:2407-2412 | the page's comparison is the dashboard's comparison |
| Employees.JoinPreviousPerformance | sales_app/views.py:2404-2412 | each current entry gets, in place, its comparison against the previous period's name index |
| Series.Labels | sales_app/views.py:421 | labels are strictly increasing (month, day) buckets, exactly the days the current period sold on |
| Series.DayFigures | sales_app/views.py:412-419 | the per-day map has exactly the days with a sale |
| Series.LookupIsDayTotals | sales_app/views.py:422-439 | looking a day up, with 0 as the default, gives that day's revenue, tickets and items |
| Series.PeriodSeries | sales_app/views.py:421-439 | one entry per label in each series, each the labelled day's revenue, tickets or items, 0 for a day without sales |
| Series.ShareSeries | sales_app/views.py:429-433 | one entry per label, the day's shares, 0 for a day without tickets |
| Series.Baskets | sales_app/views.py:445-452 | one basket per label, revenue over tickets, 0 without tickets |
| Series.DailySeries | sales_app/views.py:412-452 | all series are aligned on the current period's labels, and each entry is its label's figure |
| Series.DashboardDailySeries | sales_app/views.py:412-452 | from the sales rows: the labels and per-day figures are those of each period's chart rows, each cross-sell series is the per-day chart of that period's daily cross-sell query read by label, and each basket is revenue over tickets per label |
| Series.MissingDayReadsZero | sales_app/views.py:422-439 | a labelled day the previous period has no sale on reads 0 in every previous series |
| Series.FillMonths | sales_app/views.py:543-550 | twelve slots, slot m - 1 holding the last value written for month m, or 0 |
| Series.KeyedSlot | sales_app/views.py:546-550 | with one entry per month, a slot holds its month's value, or 0 for a month not listed |
| Series.MonthlyTicketsSlot | sales_app/views.py:530-547 | month m's slot reads month m's distinct tickets |
| Series.MonthlyBasketSlot | sales_app/views.py:553-564 | month m's basket slot is its revenue per ticket, 0 without sales |
| Series.MonthPresent | sales_app/views.py:530-534 | a month is listed iff it has a row |
| Series.MonthlyTicketSlots | sales_app/views.py:527-550 | the monthly ticket chart: twelve slots, slot m - 1 holding month m's distinct tickets |
| Series.MonthlyBasketSlots | sales_app/views.py:553-564 | the monthly basket chart: twelve slots, slot m - 1 holding month m's revenue per ticket |
| Comparisons.TopCategoriesSpec | sales_app/views.py:739-741 | ten categories, or all of them when there are fewer, in descending revenue, drawn from the totals, none left out earning more |
| Comparisons.LastTotal | sales_app/views.py:750-756 | a dictionary lookup: 0 for a missing key, otherwise some total under that key |
| Comparisons.LastTotalIsGroupTotal | sales_app/views.py:744-756 | on grouped totals the lookup reads the key's own total |
| Comparisons.CategoryComparison | sales_app/views.py:752-767 | one line per top category, in order: its display name, both years' revenue (0 for a missing year), the change and `calc_change` |
| Comparisons.LastTotalFiltered | sales_app/views.py:744-750 | restricting last year's totals to the top keys does not change what is read under those keys |
| Comparisons.CategoryTable | sales_app/views.py:739-767 | the table equals the comparison against all of last year's totals: at most ten lines, by falling current revenue |
| Comparisons.NewCategory | sales_app/views.py:756-759 | a category new this year shows its whole revenue as the change and 0 percent |
| Comparisons.CategoryQuery | sales_app/views.py:729-737 | one year's category comparison query: the rows that pass `IsCategoryComparisonRow` for that year's window |
| Comparisons.CategoryTotals | sales_app/views.py:739-748 | one total per category, keys distinct, each the sum of that category's amounts (0 for a category without rows) |
| Comparisons.CategoryLinesAreSums | sales_app/views.py:739-767 | over grouped totals, each line's current and previous revenue are its category's own totals |
| Comparisons.DashboardCategoryTable | sales_app/views.py:729-767 | from the sales rows: the comparison of the current query's top ten categories against the previous query's totals; each line's current and previous revenue are the sums of that category's amounts in the two windows; at most ten lines, by falling current revenue |
| Comparisons.AllLocationsSpec | sales_app/views.py:1929 | the locations are strictly ascending in Python's string order, and exactly those of either year |
| Comparisons.RowFor | sales_app/views.py:1927-1934 | a location's row is found iff the year has it, and it is one of that year's rows |
| Comparisons.ChangePercentIsCalcChange | sales_app/views.py:1939 | the sheet's inline percentage equals `calc_change` |
| Comparisons.ChangeAt | sales_app/views.py:1932-1944 | a location's line: both years' revenue and tickets, their changes, and `calc_change` of each |
| Comparisons.LocationComparison | sales_app/views.py:1927-1944 | one line per location of either year, in sorted order |
| Comparisons.MissingYearReadsZero | sales_app/views.py:1933-1944 | a location missing from a year reads 0 revenue and 0 tickets there, and 0 percent change |
| Comparisons.RevenuesAlongKeepTotal | sales_app/views.py:1927-1937 | read along distinct keys that cover every location, a year's revenue keeps its total |
| Comparisons.ComparisonKeepsTotals | sales_app/views.py:1927-1944 | the sheet's two revenue columns total exactly each year's revenue |
| Comparisons.AccumulateTotals | sales_app/views.py:1859-1871 | the running totals loop gives the sheet's column sums and derived ratios |
| Comparisons.CountsWithinTickets | sales_app/views.py:1860-1863 | summed over locations, three-plus and single-item counts stay within the tickets |
| Comparisons.TotalsRatios | sales_app/views.py:1869-1871 | the totals row's two ratios are percentages whose sum is at most 100; the basket times the tickets is the revenue; all 0 without tickets |
| Comparisons.TotalsOf | sales_app/views.py:1859-1871 | the export's TOTAL line: the sums of revenue, tickets, quantity, three-plus and one-item counts, the basket as revenue over tickets and the two shares as percentages of tickets |
| Comparisons.ComparisonMatchesTotalsLine | sales_app/views.py:1859-1944 | the comparison sheet's revenue columns total each year sheet's TOTAL line |
| Products.LatestDay | sales_app/views.py:598 | none without rows; otherwise the latest day of the rows |
| Products.ProductOf | sales_app/views.py:590-601 | a product's revenue, quantity and tickets are those of its rows; with rows it has a ticket and a last purchase, and positive revenue gives a positive average |
| Products.ProductsOf | sales_app/views.py:590-601 | one product record per distinct (name, code), in order of first appearance, each built from that product's own rows |
| Products.RecencyScore | sales_app/views.py:616 | never negative, at most 100 for a non-negative age, 0 iff 100 or more days, and score + days = 100 within 100 days |
| Products.RecencyDays | sales_app/views.py:612-619 | the days from the last purchase to the reference day, or 999 for a product never purchased |
| Products.NeverPurchasedScoresZero | sales_app/views.py:617-619 | the never-purchased sentinel of 999 days scores 0 |
| Products.RecencyScoreMonotone | sales_app/views.py:616 | a more recent purchase never scores lower |
| Products.MeasureProducts | sales_app/views.py:607-628 | the first loop updates every record in place to its measured form |
| Products.MaxPositive | sales_app/views.py:645-653 | the largest positive value: it bounds every positive value, it is positive iff some value is, and then it is one of them |
| Products.ScaleOf | sales_app/views.py:633-653 | no revenue anywhere iff there is no scale; otherwise all three maxima are positive and bound every product |
| Products.Normalized | sales_app/views.py:646-654 | 0 against a non-positive maximum; otherwise the value times 100 over the maximum, at most 100 for a value within the maximum |
| Products.CompositeBounds | sales_app/views.py:657-662 | the 40/30/20/10 composite of terms in [0, 100] lies in [0, 100] |
| Products.TierOf | sales_app/views.py:665-679 | S at 80 and above, A from 60, B from 40, C from 20, D below 20 |
| Products.TierMonotone | sales_app/views.py:665-679 | a higher score never gets a lower tier |
| Products.Rated | sales_app/views.py:631-679 | rating changes only the score and tier; the tier is "No Sales" iff nothing has revenue |
| Products.RateProducts | sales_app/views.py:631-679 | the second loop rates every record in place against the maxima of the records as they were before the loop |
| Products.ScoreAtMost100 | sales_app/views.py:645-662 | against maxima that bound it, a record with recency at most 100 scores at most 100 |
| Products.ScoredTiers | sales_app/views.py:631-679 | with no revenue anywhere every product is "No Sales"; otherwise none is, and each has the tier of its score |
| Products.ScoredAtMost100 | sales_app/views.py:607-662 | a product last bought no later than the reference day scores at most 100 |
| Products.Bestsellers | sales_app/views.py:681-685 | 15 products with revenue, or all of them when fewer have revenue, highest score first, none left out scoring higher |
| Products.LeastSellers | sales_app/views.py:688-691 | 15 products with revenue, or all of them when fewer have revenue, lowest score first, none left out scoring lower |
| Products.SlowMovers | sales_app/views.py:694-698 | the products with revenue and over 30 days since purchase, ten of them when more qualify, stalest first, none left out staler |
| Products.RisingStars | sales_app/views.py:702-706 | the products with revenue and recency over 70, ten of them when more qualify, ordered by (recency, tickets) descending, none left out ranking higher |
| Products.TopByRevenue | sales_app/views.py:709 | 10 products, or all of them when there are fewer, highest revenue first, none left out earning more |
| Products.NoRevenueNotRanked | sales_app/views.py:680-706 | a product without revenue is in none of the four ranked lists |
| Products.ProductsReady | sales_app/views.py:590-653 | products aggregated from rows up to the reference day are dated and last bought by that day; whenever some product has revenue, some product has a ticket and some has a positive average, so the `max` calls at lines 649 and 653 never see an empty sequence |
| Products.ScoreProducts | sales_app/views.py:607-679 | both loops over the records give the scored products |
| Products.ScoredProducts | sales_app/views.py:607-679 | the scored records keep each product's name, code and revenue, one per product in the same order |
| Products.ProductAnalysis | sales_app/views.py:588-709 | the analysis of a period's product rows: scored products, every score at most 100, and the five lists cut from them |
| Insights.TrendClassOf | sales_app/views.py:2661-2666 | positive, negative or neutral exactly as the change is above, below or at 0 |
| Insights.TrendIconOf | sales_app/views.py:2668-2673 | up, down or right exactly as the change is above, below or at 0 |
| Insights.BadgeMatchesArrow | sales_app/views.py:2661-2673 | the badge and the arrow always agree |
| Insights.RevenueSection | sales_app/views.py:2686-2733 | an insight iff revenue moved by more than 1 percent; retention advice iff revenue and tickets fell by more than 1 and 5 percent; bundle advice iff revenue and basket fell by more than 1 and 5 percent |
| Insights.CrossSellSection | sales_app/views.py:2735-2775 | an insight iff the period cross-sells at all; keep-going advice above +5, bundles below -5, single-item bundling in between when single-item tickets pass 30 percent |
| Insights.BasketSection | sales_app/views.py:2777-2818 | an insight iff the basket moved by more than 3 percent; premium advice when it rose no slower than items per ticket; investigation when both fell |
| Insights.FirstWithKey | sales_app/views.py:2827 | the first entry with the key, or none iff no entry has it |
| Insights.CategorySection | sales_app/views.py:2820-2865 | an insight iff the top category is also in last year's top list; grew above +10 with expansion advice, fell below -10 with investigation advice |
| Insights.LocationSection | sales_app/views.py:2867-2901 | an insight iff there are several top locations, both ends earn, and the first earns more than twice the last; then the practice-sharing advice |
| Insights.VarianceRatio | sales_app/views.py:2875-2878 | for positive revenues the spread exceeds 2 iff the top earns more than twice the bottom |
| Insights.TrendSection | sales_app/views.py:2903-2955 | an insight iff a third year exists and two-year revenue moved by more than 10 percent; accelerating iff last year's growth beats the year before's, decelerating iff it trails |
| Insights.RevenueStep | sales_app/views.py:2686-2733 | insight 1 as the page runs it appends the revenue section to both lists |
| Insights.CrossSellStep | sales_app/views.py:2735-2775 | insight 2 appends the cross-sell section |
| Insights.BasketStep | sales_app/views.py:2777-2818 | insight 3 appends the basket section |
| Insights.CategoryStep | sales_app/views.py:2820-2865 | insight 4 appends the category section |
| Insights.LocationStep | sales_app/views.py:2867-2901 | insight 5 appends the location section, the advice before the insight |
| Insights.TrendStep | sales_app/views.py:2903-2955 | insight 6 appends the trend section |
| Insights.Narrate | sales_app/views.py:2676-2955 | the six steps in turn produce the narration: every section's insights and advice, in order |
| Insights.SectionSizes | sales_app/views.py:2676-2955 | every section adds at most one insight; only the revenue section can add two pieces of advice |
| Insights.Narration | sales_app/views.py:2676-2955 | the page shows at most six insights and six recommendations |
| Insights.UnchangedYearIsQuiet | sales_app/views.py:2676-2955 | a year compared with itself, with no third year, produces only the stable cross-sell, steady category or location insight, and only bundling or practice-sharing advice |
| Calendar.DaysInMonth | sales_app/views.py:1070 | 28 to 31 days; 29 iff February of a leap year; 30 iff April, June, September or November |
| Calendar.NextDay | sales_app/views.py:1260 | the next day is a valid date one ordinal later |
| Calendar.OrdinalOrder | sales_app/views.py:1077 | date comparison agrees with comparing ordinals |
| Calendar.DaysFromSpec | sales_app/views.py:1239-1260 | the walk lists every date of the window once, in order, and nothing outside it |
| Plan.SelectedRows | sales_app/views.py:1003-1010 | exactly the workbook rows whose month lies between the window's first and last months, at the selected location unless "all" |
| Plan.ExpandToDaily | sales_app/views.py:1058-1089 | the loop over rows and days gives each row's in-window daily records, row after row |
| Plan.DaysOfRowSpec | sales_app/views.py:1070-1087 | a row's records are valid in-window days of its own month and location; each carries the month's plan and tickets over its day count, and its basket unchanged |
| Plan.DaysOfRowAscending | sales_app/views.py:1074 | a row's records are in strictly increasing day order, so no day is expanded twice |
| Plan.WholeMonthSpread | sales_app/views.py:1070-1087 | a month wholly in the window gives one record per day, each carrying the daily share of the month's plan |
| Plan.WholeMonthKeepsPlan | sales_app/views.py:1070-1087 | a month wholly in the window keeps its whole plan |
| Plan.MonthOutsideIsDropped | sales_app/views.py:1077 | a month wholly outside the window contributes nothing |
| Plan.Expanded | sales_app/views.py:1058-1089 | every expanded record is a valid date inside the window |
| Plan.ExpandedKeepsPlan | sales_app/views.py:1058-1089 | when every row's month lies wholly in the window, the records keep the rows' total plan |
| Plan.SelectedMonthIsWhole | sales_app/views.py:974-1010 | in a first-of-month to end-of-month window every selected row's month lies wholly inside |
| Buckets.NextMonth | sales_app/views.py:1158-1161 | the month step gives the first of the following month |
| Buckets.MonthsFromSpec | sales_app/views.py:1136-1161 | the monthly walk visits each month from the start month to the end month once, in order, as its first day |
| Buckets.BucketsSpec | sales_app/views.py:1136-1260 | no bucket is walked twice, and every date of the window falls in a walked bucket |
| Targets.TotalPlans | sales_app/views.py:1119-1124 | the plan loop leaves each bucket's entry equal to the total of that bucket's records |
| Targets.TotalActuals | sales_app/views.py:1130-1133 | the actual loop leaves each bucket's entry equal to the total of that bucket's rows |
| Targets.WalkDays | sales_app/views.py:1238-1260 | the daily walk appends the eight values of every day of the window |
| Targets.WalkMonths | sales_app/views.py:1135-1161 | the monthly walk appends the eight values of every month the window touches |
| Targets.AggregateData | sales_app/views.py:1098-1271 | `aggregate_data` for the daily and monthly charts gives the columns of its specification |
| Targets.AggregateOf | sales_app/views.py:1109-1260 | the `aggregate_data` columns: the plan records and actual days bucketed over the window's days or months |
| Targets.ColumnsShape | sales_app/views.py:1137-1147 | one entry per bucket in every list; labels are the buckets; each plan and actual entry is its bucket's total |
| Targets.ColumnsEntries | sales_app/views.py:1141-1156 | each bucket's 85 percent target, tickets and baskets, each basket 0 where its count is 0 |
| Targets.PlanConserved | sales_app/views.py:1119-1147 | the buckets' plans add up to the records' plan when every record's bucket is walked once |
| Targets.ActualConserved | sales_app/views.py:1130-1147 | the buckets' turnovers add up to the rows' turnover when every row's bucket is walked once |
| Targets.Average | sales_app/views.py:1298-1299 | 0 for no entries; otherwise the mean times the count is the sum |
| Targets.KpisOf | sales_app/views.py:1280-1302 | the revenue plan, 85-percent target and actual are the sums of their columns, the ticket plan and actual the sums of theirs, and the basket plan and actual the averages of theirs; each variance is actual less plan; each achievement is the actual as a percentage of its plan; against a positive plan the variance percentage is the achievement less 100, and without one both are 0 |
| Targets.PercentShift | sales_app/views.py:1283-1286 | against a positive plan the variance percentage is the achievement less 100 |
| Targets.ColumnsKeepTotals | sales_app/views.py:1098-1282 | with every record and row in the window, the plan, 85 percent and actual columns keep their totals |
| Targets.TargetColumn | sales_app/views.py:1143 | each 85 percent entry is the plan entry times 0.85 |
| Targets.TargetTotal | sales_app/views.py:1281 | the 85 percent total is 85 percent of the plan total |
| Targets.RevenueTotalsAgree | sales_app/views.py:974-1282 | in a month-range window, daily or monthly, the plan total is the selected rows' turnover, the target is 85 percent of it, and the actual total is the turnover of the sales up to the end of the last day |
| Targets.QueryMissesLastDay | sales_app/views.py:1026-1029 | as written, the actual query keeps a sale iff it falls in the window and is not after midnight on the last day |
| Targets.NoonOnLastDayIsMissed | sales_app/views.py:1026-1029 | in a January window, a sale at noon on 31 January is in the window but not in the query as written |
| SqlGuard.StripStart | sales_app/views.py:2013 | removes exactly the leading whitespace |
| SqlGuard.StripEnd | sales_app/views.py:2013 | removes exactly the trailing whitespace |
| SqlGuard.Upper | sales_app/views.py:2017 | upper-cases each character, keeping the length |
| SqlGuard.Check | sales_app/views.py:2013-2022 | empty text is ignored; otherwise it is refused iff it does not start with SELECT or WITH, forbidden iff it contains a prohibited keyword, and run otherwise |
| SqlGuard.StripUpper | sales_app/views.py:2017 | trimming and upper-casing commute |
| SqlGuard.CaseInsensitive | sales_app/views.py:2017-2022 | a query and its upper-cased form get the same verdict |
| SqlGuard.KeywordAnywhereRefuses | sales_app/views.py:2021-2022 | a SELECT containing any prohibited keyword anywhere is forbidden |
| SqlGuard.CreatedAtIsRefused | sales_app/views.py:2021-2022 | `select created_at` is forbidden, because CREATE is a substring |
| SqlGuard.ExecuteIsRedundant | sales_app/views.py:2021 | any text containing EXECUTE contains EXEC |
| SqlGuard.PlainSelectRuns | sales_app/views.py:2017-2026 | `select un` is run |

## Left out

- ORM query construction and execution are left out. Each query result is
  given as a sequence of rows. Groups appear in order of first appearance.
  Where the database's order between ties is unspecified (`order_by`
  on revenue), the model uses a stable sort.
- SQL NULLs and the source's `x or 0` are not modelled: every column of a
  row is present.
- Amounts are exact reals. Floating-point rounding, and `round(…, 2)` in
  the workbook, are not modelled.
- Time zones, `make_aware` and `datetime.max.time()` are not modelled.
  Instants are reduced to their day. The one exception is the plan page's
  actual query, where the time of day matters (`Targets.Stamp`, see
  Findings).
- Date strings arrive already parsed. `None` stands for a string that
  `strptime` rejects.
- The weekly branch of `aggregate_data` (`sales_app/views.py:1163-1214`) is
  left out. It buckets by ISO 8601 week (`isocalendar`), and ISO week
  numbering is not modelled.
- Chart labels are the bucket dates themselves. The label text (`%b %d`,
  month names) is not modelled.
- Reading the plan workbook with pandas is left out. Plan rows arrive
  parsed, with a valid year and month. A row without them would make
  `date(...)` raise.
- Workbook styling, HTTP responses, templates and the `messages` framework
  are left out. The access warning is returned as the set of denied
  locations.
- `format_currency`, `format_number` and the HTML text of insights are left
  out. The model decides which branch and which recommendation, not the
  wording.
- The CAGR power `** (1/2)` at `sales_app/views.py:2906` is left out. It is
  an irrational power, and no branch depends on it.
- `get_category_top_performers` (`sales_app/views.py:2363-2397`) is left
  out. It is one more query plus a call to the cross-selling breakdown,
  which `CrossSell.EmployeeBreakdown` models.
- Further dashboard queries are left out:
  - the top-tickets list (`sales_app/views.py:713-720`);
  - recent transactions (`sales_app/views.py:566-568`);
  - the per-location export query `get_location_data`, whose per-row ratios
    the database computes.
- Periods.MonthRangeWindow: takes the year and months already converted and
  in range. The page's error path is not modelled: `int(...)` on a
  non-numeric parameter, a month outside 1-12, or a year below 2 (the
  previous year's `date(prev_year, ...)` then fails) raises `ValueError`,
  an HTTP 500 (`sales_app/views.py:970-982`).
- Targets.RevenueTotalsAgree: holds for the windows of a valid year and
  month range only, for the same reason; the `ValueError` path has no
  totals to compare.
- Summary.DashboardHeadlines: its discount-share change is the corrected
  one. The page as written always shows 0 there (`sales_app/views.py:463`,
  `Summary.DiscountShareChangeAsWrittenIsZero`).
- Comparisons.ComparisonKeepsTotals: only the revenue columns are proved to
  keep their totals, not the ticket columns.
- SqlGuard.Check: upper-casing and whitespace are modelled on ASCII only.
  Python's Unicode `upper()` (for example 'ſ' to 'S') and Unicode
  whitespace are not modelled.
- Running the query after the guard, and `export_to_excel`, are left out.
- The two profile methods are pure functions of the profile, so "neither
  method changes the profile" holds by construction.
- Login and logout, the upload view, caching decorators, admin
  configuration and management commands are outside the core.

## Findings

| source | as written | input that shows it | evidently intended | confidence | as-written member | corrected member |
|---|---|---|---|---|---|---|
| sales_app/views.py:962-964 | A non-admin who names a location outside an empty allowed list falls back to `'all'`, which removes the location filter from the plan page. | a profile with `is_admin=False`, `allowed_locations=[]`, requesting `geo=X` | refuse, as the `'all'` branch at lines 958-961 does | not executed | Access.GeoAsWrittenLeaksAll | Access.ResolveGeoSound |
| sales_app/views.py:463 | The previous discount share is read under the key `'discount)share'`, which is never set, so `discount_share_change` is always 0. | previous share 25 percent, current share 50 percent: reported 0, intended 100 | `stats_previous.get('discount_share')` | not executed | Summary.DiscountShareChangeAsWrittenIsZero | Summary.DiscountShareChange |
| sales_app/views.py:1026-1029 | The actual-sales query filters the `DateTimeField` `cd` with `cd__lte=end_date`, a bare date, which compares against midnight at the start of the last day, so that day's later sales are dropped (likewise at lines 1043-1046 for the previous year). | a January window and a sale at 12:00 on 31 January | an end-of-day bound, as the dashboard uses with `datetime.max.time()` | not executed | Targets.NoonOnLastDayIsMissed | Targets.RevenueTotalsAgree |
