/**
 * The ticket-value distribution: each ticket's total (the sum of its selling
 * lines with a non-zero amount) is put in the first half-open range
 * [lo, hi) that holds it, and the list of totals gives an average and three
 * index-based order statistics (no interpolation).
 */
module Distribution {
  import opened Seqs
  import opened Ratios
  import opened Groups
  import opened Sales

  /** Lower bounds of the ranges 0-50, 50-100, 100-150, 150-200, 200-300, 300-500, 500-1K, 1K+. */
  const Lower: seq<real> := [0.0, 50.0, 100.0, 150.0, 200.0, 300.0, 500.0, 1000.0]

  const Buckets: nat := 8

  /** Range i holds t; the last range has no upper bound (`float('inf')`). */
  predicate InBucket(i: nat, t: real)
    requires i < Buckets
  {
    Lower[i] <= t && (i == Buckets - 1 || t < Lower[i + 1])
  }

  function Within(i: nat): real -> bool
    requires i < Buckets
  {
    t => InBucket(i, t)
  }

  /** The ranges do not overlap and cover exactly the non-negative totals. */
  lemma BucketsPartition(t: real)
    ensures t < 0.0 ==> forall i :: 0 <= i < Buckets ==> !InBucket(i, t)
    ensures t >= 0.0 ==> exists i :: 0 <= i < Buckets && InBucket(i, t)
    ensures forall i, j :: 0 <= i < Buckets && 0 <= j < Buckets && InBucket(i, t) && InBucket(j, t) ==> i == j
  {
    if t >= 0.0 {
      if t < 50.0 { assert InBucket(0, t); }
      else if t < 100.0 { assert InBucket(1, t); }
      else if t < 150.0 { assert InBucket(2, t); }
      else if t < 200.0 { assert InBucket(3, t); }
      else if t < 300.0 { assert InBucket(4, t); }
      else if t < 500.0 { assert InBucket(5, t); }
      else if t < 1000.0 { assert InBucket(6, t); }
      else { assert InBucket(7, t); }
    }
  }

  /** The number of totals in range i. */
  function BucketCounts(totals: seq<real>): (r: seq<nat>)
    ensures |r| == Buckets
    ensures forall i :: 0 <= i < Buckets ==> r[i] == Count(totals, Within(i))
  {
    seq(Buckets, i requires 0 <= i < Buckets => Count(totals, Within(i)))
  }

  /** The counter loop: each amount goes to the first range holding it, or to none. */
  method Distribute(totals: seq<real>) returns (counts: seq<nat>)
    ensures counts == BucketCounts(totals)
  {
    counts := [0, 0, 0, 0, 0, 0, 0, 0];
    var n := 0;
    while n < |totals|
      invariant 0 <= n <= |totals| && |counts| == Buckets
      invariant forall i :: 0 <= i < Buckets ==> counts[i] == Count(totals[..n], Within(i))
    {
      var amount := totals[n];
      assert totals[..n + 1] == totals[..n] + [amount];
      forall i | 0 <= i < Buckets
        ensures Count(totals[..n + 1], Within(i)) == Count(totals[..n], Within(i)) + (if InBucket(i, amount) then 1 else 0)
      {
        CountSnoc(totals[..n], amount, Within(i));
      }
      BucketsPartition(amount);
      var j := 0;
      while j < Buckets
        invariant 0 <= j <= Buckets
        invariant forall i :: 0 <= i < j ==> !InBucket(i, amount)
        invariant forall i :: 0 <= i < Buckets ==> counts[i] == Count(totals[..n], Within(i))
      {
        if Lower[j] <= amount && (j == Buckets - 1 || amount < Lower[j + 1]) {
          counts := counts[j := counts[j] + 1];
          break;
        }
        j := j + 1;
      }
      n := n + 1;
    }
    assert totals[..|totals|] == totals;
  }

  /** Every non-negative total is in exactly one range, so the counts add up to them. */
  lemma {:induction false} CountsCoverNonNegative(totals: seq<real>)
    ensures SumNat(BucketCounts(totals)) == Count(totals, NonNegative)
    decreases |totals|
  {
    SumOfEight(BucketCounts(totals));
    if totals != [] {
      var init, last := totals[..|totals| - 1], totals[|totals| - 1];
      CountsCoverNonNegative(init);
      SumOfEight(BucketCounts(init));
      assert totals == init + [last];
      CountSnoc(init, last, NonNegative);
      forall i | 0 <= i < Buckets
        ensures Count(totals, Within(i)) == Count(init, Within(i)) + (if InBucket(i, last) then 1 else 0)
      {
        CountSnoc(init, last, Within(i));
      }
      BucketsPartition(last);
    }
  }

  lemma SumOfEight(c: seq<nat>)
    requires |c| == 8
    ensures SumNat(c) == c[0] + c[1] + c[2] + c[3] + c[4] + c[5] + c[6] + c[7]
  {
    forall k | 1 <= k <= 8 ensures SumNat(c[..k]) == SumNat(c[..k - 1]) + c[k - 1] {
      assert c[..k][..k - 1] == c[..k - 1];
    }
    assert c[..0] == [];
    assert c[..8] == c;
  }

  predicate NonNegative(t: real) { t >= 0.0 }

  /** The share of tickets in each range; the denominator counts negative totals too. */
  function BucketShares(counts: seq<nat>, totalTickets: nat): (r: seq<real>)
    ensures |r| == |counts|
    ensures forall i :: 0 <= i < |counts| ==>
      r[i] == Percent(counts[i] as real, totalTickets as real)
  {
    seq(|counts|, i requires 0 <= i < |counts| => Percent(counts[i] as real, totalTickets as real))
  }

  // ------------------------------------------------------ order statistics

  predicate AtMostReal(a: real, b: real) { a <= b }

  lemma AtMostRealTotal()
    ensures TotalPreorder(AtMostReal)
  {
  }

  datatype TicketStats = TicketStats(avg: real, median: real, p25: real, p75: real)

  /**
   * `avg_ticket`, `median_ticket`, `p25`, `p75`: the element at index
   * n div 2, n div 4 and 3n div 4 of the ascending list, and all 0 for no
   * tickets.
   */
  function OrderStats(totals: seq<real>): (s: TicketStats)
    ensures totals == [] ==> s == TicketStats(0.0, 0.0, 0.0, 0.0)
    ensures totals != [] ==> s.p25 <= s.median <= s.p75
    ensures totals != [] ==> s.median in totals && s.p25 in totals && s.p75 in totals
    ensures totals != [] ==>
      HasRank(totals, |totals| / 2, s.median) && HasRank(totals, |totals| / 4, s.p25) &&
      HasRank(totals, 3 * |totals| / 4, s.p75)
    ensures s.avg == Mean(totals)
  {
    if totals == [] then TicketStats(0.0, 0.0, 0.0, 0.0)
    else
      var n := |totals|;
      var sorted := SortBy(totals, AtMostReal);
      Ascending(totals);
      QuarterIndices(n);
      SortedRank(totals, n / 2);
      SortedRank(totals, n / 4);
      SortedRank(totals, 3 * n / 4);
      TicketStats(Mean(totals), sorted[n / 2], sorted[n / 4], sorted[3 * n / 4])
  }

  function Below(v: real): real -> bool { x => x < v }
  function NotAbove(v: real): real -> bool { x => x <= v }

  /**
   * v is the k-th smallest total, counting from 0 and without interpolation:
   * at most k totals lie strictly below it, and more than k lie at or below
   * it.  Exactly one value has each rank.
   */
  predicate HasRank(totals: seq<real>, k: nat, v: real) {
    Count(totals, Below(v)) <= k < Count(totals, NotAbove(v))
  }

  /** The element at index k of the ascending list has rank k. */
  lemma SortedRank(totals: seq<real>, k: nat)
    requires k < |totals|
    ensures HasRank(totals, k, SortBy(totals, AtMostReal)[k])
  {
    var s := SortBy(totals, AtMostReal);
    Ascending(totals);
    AscendingBelow(s, k);
    AscendingNotAbove(s, k);
    CountPermutation(s, totals, Below(s[k]));
    CountPermutation(s, totals, NotAbove(s[k]));
  }

  /** In an ascending list only the elements before index k can lie below the k-th. */
  lemma AscendingBelow(s: seq<real>, k: nat)
    requires k < |s| && forall i, j :: 0 <= i <= j < |s| ==> s[i] <= s[j]
    ensures Count(s, Below(s[k])) <= k
  {
    var v := s[k];
    assert s == s[..k] + s[k..];
    FilterAppend(s[..k], s[k..], Below(v));
    forall i | 0 <= i < |s[k..]| ensures !Below(v)(s[k..][i]) {
      assert s[k..][i] == s[k + i];
    }
    FilterNone(s[k..], Below(v));
  }

  /** In an ascending list the elements up to index k all lie at or below the k-th. */
  lemma AscendingNotAbove(s: seq<real>, k: nat)
    requires k < |s| && forall i, j :: 0 <= i <= j < |s| ==> s[i] <= s[j]
    ensures Count(s, NotAbove(s[k])) > k
  {
    var v, upTo := s[k], s[..k + 1];
    assert s == upTo + s[k + 1..];
    FilterAppend(upTo, s[k + 1..], NotAbove(v));
    forall i | 0 <= i < |upTo| ensures NotAbove(v)(upTo[i]) {
      assert upTo[i] == s[i];
    }
    FilterAll(upTo, NotAbove(v));
  }

  /** Two values of the same rank are equal: the rank pins the statistic down. */
  lemma RankUnique(totals: seq<real>, k: nat, v: real, u: real)
    requires HasRank(totals, k, v) && HasRank(totals, k, u)
    ensures v == u
  {
    if v < u {
      CountMonotone(totals, NotAbove(v), Below(u));
    } else if u < v {
      CountMonotone(totals, NotAbove(u), Below(v));
    }
  }

  lemma QuarterIndices(n: nat)
    requires n > 0
    ensures n / 4 <= n / 2 <= 3 * n / 4 < n
  {
  }

  /** `sum(totals) / len(totals)`, 0 for no tickets. */
  function Mean(totals: seq<real>): (m: real)
    ensures totals == [] ==> m == 0.0
    ensures totals != [] ==> m * (|totals| as real) == Sum(totals)
  {
    Ratio(Sum(totals), |totals| as real)
  }

  /** `sorted(totals)` is ascending and holds only the totals. */
  lemma Ascending(totals: seq<real>)
    ensures var s := SortBy(totals, AtMostReal);
      |s| == |totals| &&
      (forall i, j :: 0 <= i <= j < |s| ==> s[i] <= s[j]) &&
      (forall i :: 0 <= i < |s| ==> s[i] in totals)
  {
    var s := SortBy(totals, AtMostReal);
    AtMostRealTotal();
    SortBySorted(totals, AtMostReal);
    forall i | 0 <= i < |s| ensures s[i] in totals {
      assert s[i] in multiset(s);
    }
    forall i, j | 0 <= i <= j < |s| ensures s[i] <= s[j] {
      if i < j { assert AtMostReal(s[i], s[j]); }
    }
  }

  /** On four tickets the "median" is the upper of the two middle values. */
  lemma FourTicketExample()
    ensures OrderStats([40.0, 10.0, 30.0, 20.0]) == TicketStats(25.0, 30.0, 20.0, 40.0)
  {
    var s := [40.0, 10.0, 30.0, 20.0];
    OrderStatsOfFour(s);
    assert SortBy(s, AtMostReal) == [10.0, 20.0, 30.0, 40.0] by { SortFour(); }
    assert Mean(s) == 25.0 by { SumFour(); }
  }

  /** On four tickets the statistics pick the sorted totals at indices 2, 1 and 3. */
  lemma OrderStatsOfFour(totals: seq<real>)
    requires |totals| == 4
    ensures var sorted := SortBy(totals, AtMostReal);
      OrderStats(totals) == TicketStats(Mean(totals), sorted[2], sorted[1], sorted[3])
  {
    Ascending(totals);
  }

  lemma SortFour()
    ensures SortBy([40.0, 10.0, 30.0, 20.0], AtMostReal) == [10.0, 20.0, 30.0, 40.0]
  {
    var s := [40.0, 10.0, 30.0, 20.0];
    assert s[1..] == [10.0, 30.0, 20.0];
    SortThree();
    InsertForty();
  }

  lemma SortThree()
    ensures SortBy([10.0, 30.0, 20.0], AtMostReal) == [10.0, 20.0, 30.0]
  {
    var s := [10.0, 30.0, 20.0];
    assert s[1..] == [30.0, 20.0];
    assert s[1..][1..] == [20.0];
    assert SortBy([20.0], AtMostReal) == [20.0];
    assert [20.0][1..] == [];
    assert Insert(30.0, [20.0], AtMostReal) == [20.0, 30.0];
    assert SortBy([30.0, 20.0], AtMostReal) == [20.0, 30.0];
  }

  lemma InsertForty()
    ensures Insert(40.0, [10.0, 20.0, 30.0], AtMostReal) == [10.0, 20.0, 30.0, 40.0]
  {
    assert [30.0][1..] == [];
    assert Insert(40.0, [30.0], AtMostReal) == [30.0, 40.0];
    assert [20.0, 30.0][1..] == [30.0];
    assert Insert(40.0, [20.0, 30.0], AtMostReal) == [20.0, 30.0, 40.0];
    assert [10.0, 20.0, 30.0][1..] == [20.0, 30.0];
  }

  lemma SumFour()
    ensures Sum([40.0, 10.0, 30.0, 20.0]) == 100.0
  {
    var s := [40.0, 10.0, 30.0, 20.0];
    assert [40.0][..0] == [];
    assert Sum([40.0]) == 40.0;
    assert [40.0, 10.0][..1] == [40.0];
    assert Sum([40.0, 10.0]) == 50.0;
    assert [40.0, 10.0, 30.0][..2] == [40.0, 10.0];
    assert Sum([40.0, 10.0, 30.0]) == 80.0;
    assert s[..3] == [40.0, 10.0, 30.0];
  }

  // ------------------------------------------------------------ from rows

  datatype TicketDistribution = TicketDistribution(
    counts: seq<nat>, shares: seq<real>, totalTickets: nat, stats: TicketStats)

  /** Ticket totals, `values('zedd').annotate(ticket_total=Sum('tanxa'))`. */
  function TicketTotals(rows: seq<SaleRow>): seq<real> {
    Sums(GroupSum(Map(rows, (r: SaleRow) => (r.ticket, r.amount))))
  }

  /** The ticket totals add up to the rows' amounts: the average ticket is revenue over tickets. */
  lemma TicketTotalsAddUp(rows: seq<SaleRow>)
    ensures Sum(TicketTotals(rows)) == Sum(Map(rows, (r: SaleRow) => r.amount))
  {
    var pairs := Map(rows, (r: SaleRow) => (r.ticket, r.amount));
    GroupSumSpec(pairs);
    assert Values(pairs) == Map(rows, (r: SaleRow) => r.amount);
  }

  /** `get_ticket_distribution` over the selected rows. */
  method TicketDistributionOf(w: Window, f: Filters, rows: seq<SaleRow>) returns (d: TicketDistribution)
    ensures var totals := TicketTotals(Select(rows, (r: SaleRow) => IsDistributionRow(w, f, r)));
      d.totalTickets == |totals| &&
      d.counts == BucketCounts(totals) &&
      d.shares == BucketShares(d.counts, d.totalTickets) &&
      d.stats == OrderStats(totals)
    ensures var totals := TicketTotals(Select(rows, (r: SaleRow) => IsDistributionRow(w, f, r)));
      totals != [] ==>
        HasRank(totals, |totals| / 2, d.stats.median) && HasRank(totals, |totals| / 4, d.stats.p25) &&
        HasRank(totals, 3 * |totals| / 4, d.stats.p75)
  {
    var totals := TicketTotals(Select(rows, (r: SaleRow) => IsDistributionRow(w, f, r)));
    var counts := Distribute(totals);
    d := TicketDistribution(counts, BucketShares(counts, |totals|), |totals|, OrderStats(totals));
  }
}
