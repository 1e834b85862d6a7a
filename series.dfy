/**
 * The dashboard's chart series.  The daily chart is labelled by the current
 * period's (month, day) buckets in calendar order; every current and
 * previous series is read off its period's per-day figures by label, with 0
 * for a day the period has no sale on.  The monthly charts fill twelve
 * slots, month m at index m - 1, from the per-month figures.
 */
module Series {
  import opened Seqs
  import opened Ratios
  import opened Groups
  import opened Sales
  import opened Summary
  import opened CrossSell

  // ------------------------------------------------------- daily buckets

  /** `ExtractMonth('cd')`, `ExtractDay('cd')` */
  function RowDay(r: SaleRow): DayKey {
    (r.day.month, r.day.day)
  }

  /** `order_by('month', 'day')` */
  predicate DayBefore(a: DayKey, b: DayKey) {
    a.0 < b.0 || (a.0 == b.0 && a.1 <= b.1)
  }

  lemma DayBeforeTotal()
    ensures TotalPreorder(DayBefore)
  {
  }

  /** The rows of one (month, day) bucket. */
  function RowsOnDay(rows: seq<SaleRow>, k: DayKey): seq<SaleRow> {
    Select(rows, OnDayKey(k))
  }

  function OnDayKey(k: DayKey): SaleRow -> bool {
    r => RowDay(r) == k
  }

  /** One line of `get_yearly_data`: a bucket's revenue, distinct tickets and rows. */
  datatype DayTotals = DayTotals(revenue: real, tickets: nat, items: nat)

  function DayTotalsOf(rows: seq<SaleRow>, k: DayKey): DayTotals {
    var own := RowsOnDay(rows, k);
    DayTotals(Revenue(own), TicketCount(own), |own|)
  }

  /**
   * `labels = [f"{month}/{day}" for i in data_current]`: the current buckets
   * in calendar order. The labels are strictly increasing in (month, day),
   * and a bucket is labelled exactly when the current period has a sale on it.
   */
  function Labels(rows: seq<SaleRow>): (labels: seq<DayKey>)
    ensures forall i, j :: 0 <= i < j < |labels| ==>
      labels[i].0 < labels[j].0 || (labels[i].0 == labels[j].0 && labels[i].1 < labels[j].1)
    ensures forall k :: k in labels <==> exists r :: r in rows && RowDay(r) == k
  {
    var labels := SortBy(Distinct(Map(rows, RowDay)), DayBefore);
    SortedDistinctDays(rows, labels);
    LabelledDays(rows, labels);
    labels
  }

  lemma SortedDistinctDays(rows: seq<SaleRow>, labels: seq<DayKey>)
    requires labels == SortBy(Distinct(Map(rows, RowDay)), DayBefore)
    ensures forall i, j :: 0 <= i < j < |labels| ==>
      labels[i].0 < labels[j].0 || (labels[i].0 == labels[j].0 && labels[i].1 < labels[j].1)
  {
    var days := Distinct(Map(rows, RowDay));
    assert SortedBy(labels, DayBefore) && NoDuplicates(labels) by {
      DayBeforeTotal();
      SortBySorted(days, DayBefore);
      SortByNoDuplicates(days, DayBefore);
    }
    forall i, j | 0 <= i < j < |labels|
      ensures labels[i].0 < labels[j].0 || (labels[i].0 == labels[j].0 && labels[i].1 < labels[j].1)
    {
      assert DayBefore(labels[i], labels[j]) && labels[i] != labels[j];
    }
  }

  lemma LabelledDays(rows: seq<SaleRow>, labels: seq<DayKey>)
    requires labels == SortBy(Distinct(Map(rows, RowDay)), DayBefore)
    ensures forall k :: k in labels <==> exists r :: r in rows && RowDay(r) == k
  {
    var days := Distinct(Map(rows, RowDay));
    forall k ensures k in labels <==> exists r :: r in rows && RowDay(r) == k {
      InSorted(k, days, DayBefore);
      if k in Map(rows, RowDay) {
        InMap(k, rows, RowDay);
      }
      if exists r :: r in rows && RowDay(r) == k {
        var r :| r in rows && RowDay(r) == k;
        var i :| 0 <= i < |rows| && rows[i] == r;
        assert Map(rows, RowDay)[i] == k;
      }
    }
  }

  /** `{f"{month}/{day}": ... for i in data}`: the per-day figures of a period. */
  function DayFigures(rows: seq<SaleRow>): (m: map<DayKey, DayTotals>)
    ensures forall k :: k in m <==> exists r :: r in rows && RowDay(r) == k
  {
    map k | k in (set r | r in rows :: RowDay(r)) :: DayTotalsOf(rows, k)
  }

  /** `dict.get(key, default)` */
  function Get<K, V>(m: map<K, V>, k: K, default: V): V {
    if k in m then m[k] else default
  }

  /** A bucket without sales reads as 0, which is also what its (empty) rows add up to. */
  lemma LookupIsDayTotals(rows: seq<SaleRow>, k: DayKey)
    ensures Get(DayFigures(rows), k, DayTotals(0.0, 0, 0)) == DayTotalsOf(rows, k)
  {
    if k !in DayFigures(rows) {
      SelectNone(rows, OnDayKey(k));
      TicketCountBounds(RowsOnDay(rows, k));
    }
  }

  const NoShare: DayShare := DayShare(0.0, 0.0, 0)

  /** A period's revenue, ticket and item series, read off its per-day figures by label. */
  datatype DaySeries = DaySeries(revenue: seq<real>, tickets: seq<nat>, items: seq<nat>)

  /**
   * `[date_map.get(label, 0) for label in labels]` for revenue, tickets and
   * items: one entry per label, the labelled day's figure (0 without sales).
   */
  function PeriodSeries(labels: seq<DayKey>, rows: seq<SaleRow>): (s: DaySeries)
    ensures |s.revenue| == |labels| && |s.tickets| == |labels| && |s.items| == |labels|
    ensures forall i :: 0 <= i < |labels| ==>
      s.revenue[i] == Revenue(RowsOnDay(rows, labels[i])) &&
      s.tickets[i] == TicketCount(RowsOnDay(rows, labels[i])) &&
      s.items[i] == |RowsOnDay(rows, labels[i])|
  {
    var m := DayFigures(rows);
    var zero := DayTotals(0.0, 0, 0);
    var n := |labels|;
    assert forall i :: 0 <= i < n ==> Get(m, labels[i], zero) == DayTotalsOf(rows, labels[i]) by {
      forall i | 0 <= i < n ensures Get(m, labels[i], zero) == DayTotalsOf(rows, labels[i]) {
        LookupIsDayTotals(rows, labels[i]);
      }
    }
    DaySeries(seq(n, i requires 0 <= i < n => Get(m, labels[i], zero).revenue),
              seq(n, i requires 0 <= i < n => Get(m, labels[i], zero).tickets),
              seq(n, i requires 0 <= i < n => Get(m, labels[i], zero).items))
  }

  /** `[daily.get(label, {}).get(key, 0) for label in labels]` for the two per-day shares. */
  function ShareSeries(labels: seq<DayKey>, daily: map<DayKey, DayShare>): (r: (seq<real>, seq<real>))
    ensures |r.0| == |labels| && |r.1| == |labels|
    ensures forall i :: 0 <= i < |labels| ==>
      (labels[i] in daily ==> r.0[i] == daily[labels[i]].singleItemPct && r.1[i] == daily[labels[i]].crossSellPct) &&
      (labels[i] !in daily ==> r.0[i] == 0.0 && r.1[i] == 0.0)
  {
    var n := |labels|;
    (seq(n, i requires 0 <= i < n => Get(daily, labels[i], NoShare).singleItemPct),
     seq(n, i requires 0 <= i < n => Get(daily, labels[i], NoShare).crossSellPct))
  }

  /** The basket loop: per label, revenue over tickets when the day has a ticket, else 0. */
  method Baskets(revenue: seq<real>, tickets: seq<nat>) returns (basket: seq<real>)
    requires |revenue| == |tickets|
    ensures |basket| == |revenue|
    ensures forall i :: 0 <= i < |revenue| ==> basket[i] == Ratio(revenue[i], tickets[i] as real)
  {
    basket := [];
    var i := 0;
    while i < |revenue|
      invariant 0 <= i <= |revenue| && |basket| == i
      invariant forall k :: 0 <= k < i ==> basket[k] == Ratio(revenue[k], tickets[k] as real)
    {
      basket := basket + [if tickets[i] > 0 then revenue[i] / tickets[i] as real else 0.0];
      i := i + 1;
    }
  }

  datatype ChartSeries = ChartSeries(
    labels: seq<DayKey>, current: DaySeries, previous: DaySeries,
    singleItemPctCurrent: seq<real>, singleItemPctPrevious: seq<real>,
    crossSellPctCurrent: seq<real>, crossSellPctPrevious: seq<real>,
    basketCurrent: seq<real>, basketPrevious: seq<real>)

  /**
   * The daily chart of the two periods' chart rows and per-day cross-sell
   * figures, every series aligned on the current period's labels.
   */
  method DailySeries(current: seq<SaleRow>, previous: seq<SaleRow>,
                     crossCurrent: map<DayKey, DayShare>, crossPrevious: map<DayKey, DayShare>)
    returns (s: ChartSeries)
    ensures s.labels == Labels(current)
    ensures s.current == PeriodSeries(s.labels, current) && s.previous == PeriodSeries(s.labels, previous)
    ensures (s.singleItemPctCurrent, s.crossSellPctCurrent) == ShareSeries(s.labels, crossCurrent)
    ensures (s.singleItemPctPrevious, s.crossSellPctPrevious) == ShareSeries(s.labels, crossPrevious)
    ensures |s.basketCurrent| == |s.labels| && |s.basketPrevious| == |s.labels|
    ensures forall i :: 0 <= i < |s.labels| ==>
      s.basketCurrent[i] == Ratio(s.current.revenue[i], s.current.tickets[i] as real) &&
      s.basketPrevious[i] == Ratio(s.previous.revenue[i], s.previous.tickets[i] as real)
  {
    var labels := Labels(current);
    var seriesCurrent := PeriodSeries(labels, current);
    var seriesPrevious := PeriodSeries(labels, previous);
    var sharesCurrent := ShareSeries(labels, crossCurrent);
    var sharesPrevious := ShareSeries(labels, crossPrevious);
    var basketCurrent := Baskets(seriesCurrent.revenue, seriesCurrent.tickets);
    var basketPrevious := Baskets(seriesPrevious.revenue, seriesPrevious.tickets);
    s := ChartSeries(labels, seriesCurrent, seriesPrevious,
                     sharesCurrent.0, sharesPrevious.0, sharesCurrent.1, sharesPrevious.1,
                     basketCurrent, basketPrevious);
  }

  /**
   * The dashboard's daily chart from the sales rows themselves: the two
   * periods' chart rows give the labels and the per-day figures, and the
   * per-day cross-sell chart of each period gives its share series.
   */
  method DashboardDailySeries(wCurrent: Window, wPrevious: Window, f: Filters, rows: seq<SaleRow>)
    returns (s: ChartSeries)
    ensures var current := Select(rows, (r: SaleRow) => IsChartRow(wCurrent, f, r));
      s.labels == Labels(current) && s.current == PeriodSeries(s.labels, current)
    ensures s.previous == PeriodSeries(s.labels, Select(rows, (r: SaleRow) => IsChartRow(wPrevious, f, r)))
    ensures (s.singleItemPctCurrent, s.crossSellPctCurrent) ==
      ShareSeries(s.labels, DailyShares(DayTicketGroups(Select(rows, (r: SaleRow) => IsDailyCrossSellRow(wCurrent, f, r)))))
    ensures (s.singleItemPctPrevious, s.crossSellPctPrevious) ==
      ShareSeries(s.labels, DailyShares(DayTicketGroups(Select(rows, (r: SaleRow) => IsDailyCrossSellRow(wPrevious, f, r)))))
    ensures |s.basketCurrent| == |s.labels| && |s.basketPrevious| == |s.labels|
    ensures forall i :: 0 <= i < |s.labels| ==>
      s.basketCurrent[i] == Ratio(s.current.revenue[i], s.current.tickets[i] as real) &&
      s.basketPrevious[i] == Ratio(s.previous.revenue[i], s.previous.tickets[i] as real)
  {
    var current := Select(rows, (r: SaleRow) => IsChartRow(wCurrent, f, r));
    var previous := Select(rows, (r: SaleRow) => IsChartRow(wPrevious, f, r));
    var crossCurrent := DailyCrossSellOfRows(wCurrent, f, rows);
    var crossPrevious := DailyCrossSellOfRows(wPrevious, f, rows);
    s := DailySeries(current, previous, crossCurrent, crossPrevious);
  }

  /** A labelled day the previous period has no sale on reads as 0 in every previous series. */
  lemma MissingDayReadsZero(previous: seq<SaleRow>, k: DayKey)
    requires forall r :: r in previous ==> RowDay(r) != k
    ensures Revenue(RowsOnDay(previous, k)) == 0.0
    ensures TicketCount(RowsOnDay(previous, k)) == 0 && |RowsOnDay(previous, k)| == 0
  {
    var own := RowsOnDay(previous, k);
    SelectNone(previous, OnDayKey(k));
    TicketCountBounds(own);
  }

  // ----------------------------------------------------- monthly slots

  /** The slot value month m ends up with: the last entry written for it, or the initial zero. */
  function SlotValue<V>(entries: seq<(int, V)>, m: int, zero: V): V
  {
    if entries == [] then zero
    else
      var last := entries[|entries| - 1];
      if last.0 == m then last.1 else SlotValue(entries[..|entries| - 1], m, zero)
  }

  /**
   * `data = [0] * 12; for item in entries: data[item['month'] - 1] = value`:
   * twelve slots, each holding its month's value.
   */
  method FillMonths<V>(entries: seq<(int, V)>, zero: V) returns (slots: array<V>)
    requires forall i :: 0 <= i < |entries| ==> 1 <= entries[i].0 <= 12
    ensures fresh(slots) && slots.Length == 12
    ensures forall m :: 1 <= m <= 12 ==> slots[m - 1] == SlotValue(entries, m, zero)
  {
    slots := new V[12](_ => zero);
    var i := 0;
    while i < |entries|
      invariant 0 <= i <= |entries|
      invariant forall m :: 1 <= m <= 12 ==> slots[m - 1] == SlotValue(entries[..i], m, zero)
    {
      assert entries[..i + 1][..i] == entries[..i];
      var item := entries[i];
      slots[item.0 - 1] := item.1;
      i := i + 1;
    }
    assert entries[..|entries|] == entries;
  }

  /** One entry per key, the key's value beside it. */
  function Keyed<V>(keys: seq<int>, value: int -> V): (r: seq<(int, V)>)
    ensures |r| == |keys| && forall i :: 0 <= i < |keys| ==> r[i] == (keys[i], value(keys[i]))
  {
    Map(keys, (k: int) => (k, value(k)))
  }

  /** When each entry carries its key's value, a slot holds its key's value, or zero for a missing key. */
  lemma {:induction false} KeyedSlot<V>(keys: seq<int>, value: int -> V, m: int, zero: V)
    ensures SlotValue(Keyed(keys, value), m, zero) == if m in keys then value(m) else zero
  {
    if keys != [] {
      var init := keys[..|keys| - 1];
      KeyedSlot(init, value, m, zero);
      assert Keyed(keys, value)[..|keys| - 1] == Keyed(init, value);
      assert keys == init + [keys[|keys| - 1]];
    }
  }

  function RowsInMonth(rows: seq<SaleRow>, m: int): seq<SaleRow> {
    Select(rows, (r: SaleRow) => r.day.month == m)
  }

  /** The months with a sale, ascending (`values('month')...order_by('month')`). */
  function Months(rows: seq<SaleRow>): seq<int> {
    SortBy(Distinct(Map(rows, (r: SaleRow) => r.day.month)), (a: int, b: int) => a <= b)
  }

  /** `annotate(tickets=Count('zedd', distinct=True))` per month. */
  function MonthlyTickets(rows: seq<SaleRow>): seq<(int, nat)> {
    Keyed(Months(rows), (m: int) => TicketCount(RowsInMonth(rows, m)))
  }

  /** Per month, `total_revenue / total_tickets` when the month has a ticket. */
  function MonthlyBasket(rows: seq<SaleRow>): seq<(int, real)> {
    Keyed(Months(rows), (m: int) => Ratio(Revenue(RowsInMonth(rows, m)), TicketCount(RowsInMonth(rows, m)) as real))
  }

  /** A month's slot reads its month's tickets, whether or not the month has sales. */
  lemma MonthlyTicketsSlot(rows: seq<SaleRow>, m: int)
    ensures SlotValue(MonthlyTickets(rows), m, 0) == TicketCount(RowsInMonth(rows, m))
  {
    KeyedSlot(Months(rows), (k: int) => TicketCount(RowsInMonth(rows, k)), m, 0);
    MonthPresent(rows, m);
    TicketCountBounds(RowsInMonth(rows, m));
  }

  /** A month's basket slot is its revenue per ticket, 0 for a month without sales. */
  lemma MonthlyBasketSlot(rows: seq<SaleRow>, m: int)
    ensures var own := RowsInMonth(rows, m);
      SlotValue(MonthlyBasket(rows), m, 0.0) == Ratio(Revenue(own), TicketCount(own) as real)
  {
    KeyedSlot(Months(rows), (k: int) => Ratio(Revenue(RowsInMonth(rows, k)), TicketCount(RowsInMonth(rows, k)) as real), m, 0.0);
    MonthPresent(rows, m);
    TicketCountBounds(RowsInMonth(rows, m));
  }

  /** A month is listed exactly when it has a row. */
  lemma MonthPresent(rows: seq<SaleRow>, m: int)
    ensures m in Months(rows) <==> RowsInMonth(rows, m) != []
  {
    var months := Map(rows, (r: SaleRow) => r.day.month);
    InSorted(m, Distinct(months), (a: int, b: int) => a <= b);
    if m in months {
      InMap(m, rows, (r: SaleRow) => r.day.month);
      var i :| 0 <= i < |rows| && m == rows[i].day.month;
      assert rows[i] in RowsInMonth(rows, m);
    }
    if RowsInMonth(rows, m) != [] {
      var r := RowsInMonth(rows, m)[0];
      assert r in RowsInMonth(rows, m);
      var i :| 0 <= i < |rows| && rows[i] == r;
      assert months[i] == m;
    }
  }

  /** The monthly ticket chart of a period's rows: slot m - 1 holds month m's distinct tickets. */
  method MonthlyTicketSlots(rows: seq<SaleRow>) returns (slots: array<nat>)
    requires forall r :: r in rows ==> 1 <= r.day.month <= 12
    ensures fresh(slots) && slots.Length == 12
    ensures forall m :: 1 <= m <= 12 ==> slots[m - 1] == TicketCount(RowsInMonth(rows, m))
  {
    var entries := MonthlyTickets(rows);
    forall i | 0 <= i < |entries| ensures 1 <= entries[i].0 <= 12 {
      MonthsAreMonths(rows, entries[i].0);
    }
    slots := FillMonths(entries, 0);
    forall m | 1 <= m <= 12 ensures slots[m - 1] == TicketCount(RowsInMonth(rows, m)) {
      MonthlyTicketsSlot(rows, m);
    }
  }

  /** The monthly basket chart of a period's rows: slot m - 1 holds month m's revenue per ticket. */
  method MonthlyBasketSlots(rows: seq<SaleRow>) returns (slots: array<real>)
    requires forall r :: r in rows ==> 1 <= r.day.month <= 12
    ensures fresh(slots) && slots.Length == 12
    ensures forall m :: 1 <= m <= 12 ==>
      slots[m - 1] == Ratio(Revenue(RowsInMonth(rows, m)), TicketCount(RowsInMonth(rows, m)) as real)
  {
    var entries := MonthlyBasket(rows);
    forall i | 0 <= i < |entries| ensures 1 <= entries[i].0 <= 12 {
      MonthsAreMonths(rows, entries[i].0);
    }
    slots := FillMonths(entries, 0.0);
    forall m | 1 <= m <= 12
      ensures slots[m - 1] == Ratio(Revenue(RowsInMonth(rows, m)), TicketCount(RowsInMonth(rows, m)) as real)
    {
      MonthlyBasketSlot(rows, m);
    }
  }

  lemma MonthsAreMonths(rows: seq<SaleRow>, m: int)
    requires forall r :: r in rows ==> 1 <= r.day.month <= 12
    requires m in Months(rows)
    ensures 1 <= m <= 12
  {
    MonthPresent(rows, m);
    var r := RowsInMonth(rows, m)[0];
    assert r in RowsInMonth(rows, m);
  }
}
