/**
 * Cross-selling figures: tickets are grouped by `zedd`, each ticket's item
 * count is the number of its rows, and a ticket is "single item" when that
 * count is 1 and "cross-sell" when it is at least 3 (two-item tickets are
 * neither).  Three variants: the period figures, the per-day chart, and the
 * employee page's one/two/three-plus breakdown.
 */
module CrossSell {
  import opened Calendar
  import opened Seqs
  import opened Groups
  import opened Ratios
  import opened Sales

  predicate SingleItem(c: nat) { c == 1 }
  predicate TwoItems(c: nat) { c == 2 }
  predicate ThreePlus(c: nat) { c >= 3 }

  /** Every ticket has one, two, or three and more items; none has zero. */
  lemma {:induction false} ClassesPartition(counts: seq<nat>)
    requires forall i :: 0 <= i < |counts| ==> counts[i] >= 1
    ensures Count(counts, SingleItem) + Count(counts, TwoItems) + Count(counts, ThreePlus) == |counts|
  {
    if counts != [] {
      ClassesPartition(counts[1..]);
    }
  }

  /** Single-item and cross-sell tickets never overlap. */
  lemma {:induction false} SingleAndCrossDisjoint(counts: seq<nat>)
    ensures Count(counts, SingleItem) + Count(counts, ThreePlus) <= |counts|
  {
    if counts != [] {
      SingleAndCrossDisjoint(counts[1..]);
    }
  }

  datatype CrossSellStats = CrossSellStats(
    crossSellTickets: nat, crossSellPct: real,
    singleItemTickets: nat, singleItemPct: real,
    totalTickets: nat)

  /** `get_cross_selling_stats` (and the cross-sell part of `get_year_stats`) over the ticket item counts. */
  function CrossSellOf(counts: seq<nat>): (s: CrossSellStats)
    ensures s.totalTickets == |counts|
    ensures s.crossSellTickets == Count(counts, ThreePlus) && s.singleItemTickets == Count(counts, SingleItem)
    ensures s.crossSellPct == Percent(s.crossSellTickets as real, |counts| as real)
    ensures s.singleItemPct == Percent(s.singleItemTickets as real, |counts| as real)
    ensures s.singleItemTickets + s.crossSellTickets <= s.totalTickets
    ensures 0.0 <= s.crossSellPct <= 100.0 && 0.0 <= s.singleItemPct <= 100.0
    ensures s.totalTickets == 0 ==> s.crossSellPct == 0.0 && s.singleItemPct == 0.0
    ensures s.totalTickets > 0 ==>
      s.crossSellPct * (s.totalTickets as real) == (s.crossSellTickets as real) * 100.0 &&
      s.singleItemPct * (s.totalTickets as real) == (s.singleItemTickets as real) * 100.0
  {
    SingleAndCrossDisjoint(counts);
    var total := |counts|;
    var cross := Count(counts, ThreePlus);
    var single := Count(counts, SingleItem);
    CrossSellStats(cross, Percent(cross as real, total as real),
                   single, Percent(single as real, total as real), total)
  }

  /** Item counts per ticket of a list of rows, `values('zedd').annotate(item_count=Count(...))`. */
  function TicketItemCounts(rows: seq<SaleRow>): (r: seq<nat>)
  {
    Counts(GroupCount(Map(rows, (row: SaleRow) => row.ticket)))
  }

  /**
   * One count per distinct ticket, each at least 1, adding up to the number
   * of rows; a ticket with k rows contributes exactly the count k.
   */
  lemma TicketItemCountsSpec(rows: seq<SaleRow>)
    ensures var gs := GroupCount(Map(rows, (row: SaleRow) => row.ticket));
      TicketItemCounts(rows) == Counts(gs) &&
      (forall i :: 0 <= i < |gs| ==> gs[i].count >= 1) &&
      SumCounts(TicketItemCounts(rows)) == |rows| &&
      forall t :: CountOf(gs, t) == multiset(Map(rows, (row: SaleRow) => row.ticket))[t]
  {
    var gs := GroupCount(Map(rows, (row: SaleRow) => row.ticket));
    GroupCountSpec(Map(rows, (row: SaleRow) => row.ticket));
    CountsTotal(gs);
  }

  /** There are tickets exactly when there are rows. */
  lemma NoTicketsIffNoRows(rows: seq<SaleRow>)
    ensures TicketItemCounts(rows) == [] <==> rows == []
  {
    TicketItemCountsSpec(rows);
    if TicketItemCounts(rows) == [] {
      assert SumCounts(TicketItemCounts(rows)) == 0;
    }
  }

  /** The period cross-sell figures of a dashboard query: every row counted is a distinct ticket's item. */
  function PeriodCrossSell(w: Window, f: Filters, rows: seq<SaleRow>): (s: CrossSellStats)
    ensures s == CrossSellOf(TicketItemCounts(Select(rows, (r: SaleRow) => IsCrossSellRow(w, f, r))))
    ensures s.totalTickets == 0 <==> Select(rows, (r: SaleRow) => IsCrossSellRow(w, f, r)) == []
  {
    var selected := Select(rows, (r: SaleRow) => IsCrossSellRow(w, f, r));
    NoTicketsIffNoRows(selected);
    CrossSellOf(TicketItemCounts(selected))
  }

  // --------------------------------------------------- employee breakdown

  datatype CrossSellMetrics = CrossSellMetrics(
    crossSellPct: real, oneItemPct: real, twoItemPct: real, threePlusPct: real,
    avgItemsPerTicket: real,
    crossSellTickets: nat, oneItemTickets: nat, twoItemTickets: nat, threePlusTickets: nat)

  /**
   * `get_cross_selling_metrics` over one employee's ticket item counts: the
   * average item count is the item total over the tickets, and each share is
   * its class's ticket count over the tickets.
   */
  function EmployeeCrossSell(counts: seq<nat>): (m: CrossSellMetrics)
    ensures |counts| == 0 ==> m == CrossSellMetrics(0.0, 0.0, 0.0, 0.0, 0.0, 0, 0, 0, 0)
    ensures m.crossSellTickets == m.threePlusTickets && m.crossSellPct == m.threePlusPct
    ensures m.oneItemTickets == Count(counts, SingleItem) && m.twoItemTickets == Count(counts, TwoItems) &&
            m.threePlusTickets == Count(counts, ThreePlus)
    ensures |counts| > 0 ==> m.oneItemPct == Percent(m.oneItemTickets as real, |counts| as real)
    ensures |counts| > 0 ==> m.twoItemPct == Percent(m.twoItemTickets as real, |counts| as real)
    ensures |counts| > 0 ==> m.avgItemsPerTicket == Ratio(SumCounts(counts) as real, |counts| as real)
    ensures |counts| > 0 ==> m.threePlusPct == Percent(m.threePlusTickets as real, |counts| as real)
  {
    if |counts| == 0 then CrossSellMetrics(0.0, 0.0, 0.0, 0.0, 0.0, 0, 0, 0, 0)
    else
      var total := |counts| as real;
      var one := Count(counts, SingleItem);
      var two := Count(counts, TwoItems);
      var three := Count(counts, ThreePlus);
      var items := SumCounts(counts) as real;
      CrossSellMetrics(Percent(three as real, total), Percent(one as real, total),
                       Percent(two as real, total), Percent(three as real, total),
                       Ratio(items, total), three, one, two, three)
  }

  /** With no empty ticket, every ticket is counted in exactly one of the three classes. */
  lemma EmployeeClassesCoverTickets(counts: seq<nat>)
    requires forall i :: 0 <= i < |counts| ==> counts[i] >= 1
    ensures var m := EmployeeCrossSell(counts);
      m.oneItemTickets + m.twoItemTickets + m.threePlusTickets == |counts|
  {
    ClassesPartition(counts);
  }

  /** For a non-empty employee the three shares add up to 100 percent. */
  lemma EmployeeSharesSumTo100(counts: seq<nat>)
    requires |counts| > 0 && forall i :: 0 <= i < |counts| ==> counts[i] >= 1
    ensures var m := EmployeeCrossSell(counts);
      m.oneItemPct + m.twoItemPct + m.threePlusPct == 100.0
  {
    var total := |counts| as real;
    var one, two, three := Count(counts, SingleItem), Count(counts, TwoItems), Count(counts, ThreePlus);
    var m := EmployeeCrossSell(counts);
    assert m.oneItemPct == Percent(one as real, total);
    assert m.twoItemPct == Percent(two as real, total);
    assert m.threePlusPct == Percent(three as real, total);
    ClassesPartition(counts);
    PercentsAddUp(one as real, two as real, three as real, total);
  }

  lemma PercentsAddUp(a: real, b: real, c: real, t: real)
    requires t > 0.0 && a + b + c == t
    ensures Percent(a, t) + Percent(b, t) + Percent(c, t) == 100.0
  {
    assert a / t + b / t + c / t == (a + b + c) / t;
  }

  /**
   * The rows of one employee's breakdown: selling items with a non-zero
   * amount, no point-of-sale material, the location and category filters
   * only (the product, campaign and employee filters are not applied).
   */
  predicate IsEmployeeCrossSellRow(w: Window, locations: seq<string>, category: string,
                                   employee: string, r: SaleRow)
  {
    InWindow(w, r) && r.employee == employee && r.productType == SellingItem &&
    r.amount != 0.0 && r.category != PointOfSale &&
    (locations == [] || r.location in locations) &&
    (category == AnyValue || r.category == category)
  }

  /** `get_cross_selling_metrics(employee, ...)` over the table. */
  function EmployeeBreakdown(w: Window, locations: seq<string>, category: string,
                             employee: string, rows: seq<SaleRow>): (m: CrossSellMetrics)
    ensures forall r :: r in rows && IsEmployeeCrossSellRow(w, locations, category, employee, r) ==>
      m.oneItemTickets + m.twoItemTickets + m.threePlusTickets >= 1
  {
    var sel := Select(rows, (r: SaleRow) => IsEmployeeCrossSellRow(w, locations, category, employee, r));
    BreakdownOfTickets(sel);
    EmployeeCrossSell(TicketItemCounts(sel))
  }

  /**
   * Over a ticket's rows: every ticket falls in exactly one class, and the
   * average item count is the number of rows over the number of tickets.
   */
  lemma BreakdownOfTickets(sel: seq<SaleRow>)
    ensures var m := EmployeeCrossSell(TicketItemCounts(sel));
      m.oneItemTickets + m.twoItemTickets + m.threePlusTickets == |TicketItemCounts(sel)| &&
      (sel != [] <==> |TicketItemCounts(sel)| > 0) &&
      (sel != [] ==> m.avgItemsPerTicket == Ratio(|sel| as real, |TicketItemCounts(sel)| as real))
  {
    var counts := TicketItemCounts(sel);
    TicketItemCountsSpec(sel);
    NoTicketsIffNoRows(sel);
    EmployeeClassesCoverTickets(counts);
  }

  // ------------------------------------------------------- per-day chart

  /** (month, day) — the chart's `"m/d"` label. */
  type DayKey = (int, int)

  /** A (month, day, ticket) group with its item count. */
  type DayTicket = Group<(int, int, string)>

  function DayOf(g: DayTicket): DayKey { (g.key.0, g.key.1) }

  function OnDay(k: DayKey): DayTicket -> bool {
    g => DayOf(g) == k
  }

  /** The (month, day, ticket) groups of the per-day query. */
  function DayTicketGroups(rows: seq<SaleRow>): seq<DayTicket> {
    GroupCount(Map(rows, (r: SaleRow) => (r.day.month, r.day.day, r.ticket)))
  }

  datatype Tally = Tally(total: nat, single: nat, cross: nat)

  /** One step of the accumulation loop: count g's ticket on its day. */
  function AddTicket(m: map<DayKey, Tally>, g: DayTicket): map<DayKey, Tally> {
    var k := DayOf(g);
    var t := if k in m then m[k] else Tally(0, 0, 0);
    m[k := Tally(t.total + 1,
                 t.single + (if g.count == 1 then 1 else 0),
                 t.cross + (if g.count >= 3 then 1 else 0))]
  }

  /** The `date_stats` dict after the records have been read in order. */
  function Tallies(gs: seq<DayTicket>): map<DayKey, Tally>
  {
    if gs == [] then map[] else AddTicket(Tallies(gs[..|gs| - 1]), gs[|gs| - 1])
  }

  datatype DayShare = DayShare(singleItemPct: real, crossSellPct: real, totalTickets: nat)

  function ShareOf(t: Tally): DayShare {
    DayShare(Percent(t.single as real, t.total as real), Percent(t.cross as real, t.total as real), t.total)
  }

  /** The per-day percentages read off the tallies of the groups `gs`. */
  function DailyShares(gs: seq<DayTicket>): map<DayKey, DayShare> {
    map k | k in Tallies(gs) :: ShareOf(Tallies(gs)[k])
  }

  /**
   * `get_daily_cross_selling_stats`: the accumulation loop over the
   * (month, day, ticket) groups, then one set of percentages per day.
   */
  method DailyCrossSell(gs: seq<DayTicket>) returns (result: map<DayKey, DayShare>)
    ensures result.Keys == Tallies(gs).Keys
    ensures forall k :: k in result ==> result[k] == ShareOf(Tallies(gs)[k])
    ensures result == DailyShares(gs)
  {
    var dateStats: map<DayKey, Tally> := map[];
    var i := 0;
    while i < |gs|
      invariant 0 <= i <= |gs|
      invariant dateStats == Tallies(gs[..i])
    {
      assert gs[..i + 1][..i] == gs[..i];
      var key := DayOf(gs[i]);
      if key !in dateStats {
        dateStats := dateStats[key := Tally(0, 0, 0)];
      }
      var t := dateStats[key];
      dateStats := dateStats[key := Tally(t.total + 1,
                                          t.single + (if gs[i].count == 1 then 1 else 0),
                                          t.cross + (if gs[i].count >= 3 then 1 else 0))];
      i := i + 1;
    }
    assert gs[..|gs|] == gs;
    result := map k | k in dateStats :: ShareOf(dateStats[k]);
  }

  /**
   * The chart's per-day figures are the period classification restricted to
   * one day: a day appears iff it has a ticket, and its tally counts that
   * day's tickets, its single-item tickets and its cross-sell tickets.
   */
  lemma {:induction false} TalliesPerDay(gs: seq<DayTicket>, k: DayKey)
    ensures k in Tallies(gs) <==> Filter(gs, OnDay(k)) != []
    ensures k in Tallies(gs) ==>
      var counts := Counts(Filter(gs, OnDay(k)));
      Tallies(gs)[k] == Tally(|counts|, Count(counts, SingleItem), Count(counts, ThreePlus))
  {
    if gs != [] {
      var init, last := gs[..|gs| - 1], gs[|gs| - 1];
      TalliesPerDay(init, k);
      assert gs == init + [last];
      FilterAppend(init, [last], OnDay(k));
      var before := Filter(init, OnDay(k));
      assert Tallies(gs) == AddTicket(Tallies(init), last);
      if DayOf(last) == k {
        assert Filter([last], OnDay(k)) == [last];
        assert Filter(gs, OnDay(k)) == before + [last];
        CountsAppend(before, [last]);
        assert Counts([last]) == [last.count];
        var cs := Counts(before);
        FilterAppend(cs, [last.count], SingleItem);
        FilterAppend(cs, [last.count], ThreePlus);
        assert Count(cs + [last.count], SingleItem) == Count(cs, SingleItem) + (if last.count == 1 then 1 else 0);
        assert Count(cs + [last.count], ThreePlus) == Count(cs, ThreePlus) + (if last.count >= 3 then 1 else 0);
        if k !in Tallies(init) {
          assert before == [];
        }
      } else {
        assert Filter([last], OnDay(k)) == [];
        assert Filter(gs, OnDay(k)) == before;
      }
    }
  }

  lemma CountsAppend<K>(a: seq<Group<K>>, b: seq<Group<K>>)
    ensures Counts(a + b) == Counts(a) + Counts(b)
  {
    var l, r := Counts(a + b), Counts(a) + Counts(b);
    assert |l| == |r|;
    forall i | 0 <= i < |l| ensures l[i] == r[i] {
      if i < |a| {
        assert (a + b)[i] == a[i];
      } else {
        assert (a + b)[i] == b[i - |a|];
      }
    }
  }

  /**
   * The whole per-day chart of a dashboard query's rows: a day appears iff
   * the query has a ticket on it, and its shares are the period
   * classification of that day's tickets alone.
   */
  method DailyCrossSellOfRows(w: Window, f: Filters, rows: seq<SaleRow>) returns (result: map<DayKey, DayShare>)
    ensures var gs := DayTicketGroups(Select(rows, (r: SaleRow) => IsDailyCrossSellRow(w, f, r)));
      result.Keys == Tallies(gs).Keys && forall k :: k in result ==> result[k] == ShareOf(Tallies(gs)[k])
    ensures result == DailyShares(DayTicketGroups(Select(rows, (r: SaleRow) => IsDailyCrossSellRow(w, f, r))))
    ensures forall k :: k in result <==>
      Filter(DayTicketGroups(Select(rows, (r: SaleRow) => IsDailyCrossSellRow(w, f, r))), OnDay(k)) != []
    ensures forall k :: k in result ==>
      var day := CrossSellOf(Counts(Filter(DayTicketGroups(Select(rows, (r: SaleRow) => IsDailyCrossSellRow(w, f, r))), OnDay(k))));
      result[k] == DayShare(day.singleItemPct, day.crossSellPct, day.totalTickets)
  {
    var gs := DayTicketGroups(Select(rows, (r: SaleRow) => IsDailyCrossSellRow(w, f, r)));
    result := DailyCrossSell(gs);
    forall k ensures k in result <==> Filter(gs, OnDay(k)) != [] {
      TalliesPerDay(gs, k);
    }
    forall k | k in result
      ensures var day := CrossSellOf(Counts(Filter(gs, OnDay(k))));
        result[k] == DayShare(day.singleItemPct, day.crossSellPct, day.totalTickets)
    {
      TalliesPerDay(gs, k);
    }
  }
}
