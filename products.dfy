/**
 * The product analysis: per (name, code) product of the period's rows, an
 * RFM-style score.  A first pass over the product records sets recency,
 * frequency, monetary value and revenue; a second pass normalises revenue,
 * ticket count and average value against the largest positive value among
 * the products, weighs them 40/30/20/10 with recency into a score and rates
 * the score in five tiers.  Four ranked lists and a revenue list are cut
 * from the rated products.
 */
module Products {
  import opened Calendar
  import opened Seqs
  import opened Sales
  import opened Summary
  import opened Groups
  import Distribution

  /** The rating of a product; `Unrated` is a product whose record has no tier yet. */
  datatype Tier = Unrated | TopPerformer | StrongSeller | Average | WeakSeller | PoorPerformer | NoSales

  /** The tier letter shown: S, A, B, C, D (both "Poor Performer" and "No Sales" are D). */
  function Letter(t: Tier): string {
    match t
    case Unrated => ""
    case TopPerformer => "S"
    case StrongSeller => "A"
    case Average => "B"
    case WeakSeller => "C"
    case PoorPerformer => "D"
    case NoSales => "D"
  }

  /** Higher is better; "No Sales" and "Poor Performer" share the lowest rank. */
  function Rank(t: Tier): nat {
    match t
    case TopPerformer => 4
    case StrongSeller => 3
    case Average => 2
    case WeakSeller => 1
    case _ => 0
  }

  /** One product record of `all_prod_data`, with the keys both passes add. */
  datatype Product = Product(
    name: string, code: string,
    totalRevenue: real, quantity: nat, tickets: nat, avgTicketValue: real,
    lastPurchase: Option<Date>,
    recencyDays: int, recencyScore: int, frequencyScore: nat, monetaryScore: real, revenue: real,
    performanceScore: real, tier: Tier)

  // ------------------------------------------------------------ records

  function ProductKey(r: SaleRow): (string, string) { (r.product, r.productCode) }

  function RowsOfProduct(rows: seq<SaleRow>, k: (string, string)): seq<SaleRow> {
    Select(rows, (r: SaleRow) => ProductKey(r) == k)
  }

  /** `Max('cd')`: the latest sale day, None for no rows. */
  function LatestDay(rows: seq<SaleRow>): (d: Option<Date>)
    ensures d.None? <==> rows == []
    ensures d.Some? ==> (exists i :: 0 <= i < |rows| && rows[i].day == d.value) &&
                        forall i :: 0 <= i < |rows| ==> AtMost(rows[i].day, d.value)
  {
    if rows == [] then None
    else
      var last := rows[|rows| - 1].day;
      var before := LatestDay(rows[..|rows| - 1]);
      if before.Some? && AtMost(last, before.value) then before else Some(last)
  }

  /** One product's aggregate: `Sum('tanxa')`, `Count('idreal1')`, distinct tickets, `Avg('tanxa')`, `Max('cd')`. */
  function ProductOf(k: (string, string), own: seq<SaleRow>): (p: Product)
    ensures p.totalRevenue == Revenue(own) && p.quantity == |own| && p.tickets == TicketCount(own)
    ensures own != [] ==> p.tickets >= 1 && p.lastPurchase.Some?
    ensures own != [] && p.totalRevenue > 0.0 ==> p.avgTicketValue > 0.0
  {
    TicketCountBounds(own);
    var avg := Distribution.Mean(Map(own, (r: SaleRow) => r.amount));
    PositiveMean(avg, |own|, Revenue(own));
    Product(k.0, k.1, Revenue(own), |own|, TicketCount(own), avg, LatestDay(own),
            0, 0, 0, 0.0, 0.0, 0.0, Unrated)
  }

  lemma PositiveMean(avg: real, n: nat, total: real)
    requires n > 0 ==> avg * (n as real) == total
    ensures n > 0 && total > 0.0 ==> avg > 0.0
  {
    if n > 0 {
      assert avg <= 0.0 ==> avg * (n as real) <= 0.0;
    }
  }

  /** `values('prod', 'idprod').annotate(...)`: one record per product, in order of first sale. */
  function ProductsOf(rows: seq<SaleRow>): seq<Product> {
    Map(Distinct(Map(rows, ProductKey)), (k: (string, string)) => ProductOf(k, RowsOfProduct(rows, k)))
  }

  // ---------------------------------------------------- first pass

  predicate Dated(p: Product) {
    p.lastPurchase.Some? ==> ValidDate(p.lastPurchase.value)
  }

  /** Whole days from the last purchase to the reference day; 999 when never purchased. */
  function RecencyDays(last: Option<Date>, reference: Date): int
    requires ValidDate(reference) && (last.Some? ==> ValidDate(last.value))
  {
    if last.Some? then Ordinal(reference) - Ordinal(last.value) else 999
  }

  /** `max(0, 100 - days_since)` */
  function RecencyScore(days: int): (s: int)
    ensures 0 <= s
    ensures days >= 0 ==> s <= 100
    ensures s == 0 <==> days >= 100
    ensures days <= 100 ==> s + days == 100
  {
    if 100 - days > 0 then 100 - days else 0
  }

  /** A product never purchased scores 0 for recency, and so does one bought 100 or more days ago. */
  lemma NeverPurchasedScoresZero(reference: Date)
    requires ValidDate(reference)
    ensures RecencyScore(RecencyDays(None, reference)) == 0
  {
  }

  /** A more recent purchase never scores lower. */
  lemma RecencyScoreMonotone(a: int, b: int)
    requires a <= b
    ensures RecencyScore(b) <= RecencyScore(a)
  {
  }

  /** The first loop's update of one record. */
  function Measured(p: Product, reference: Date): Product
    requires ValidDate(reference) && Dated(p)
  {
    var days := RecencyDays(p.lastPurchase, reference);
    p.(recencyDays := days, recencyScore := RecencyScore(days), frequencyScore := p.tickets,
       monetaryScore := p.avgTicketValue, revenue := p.totalRevenue)
  }

  /** The first loop over `all_prod_data`, updating each record in place. */
  method MeasureProducts(products: array<Product>, reference: Date)
    requires ValidDate(reference) && forall i :: 0 <= i < products.Length ==> Dated(products[i])
    modifies products
    ensures forall i :: 0 <= i < products.Length ==> products[i] == Measured(old(products[i]), reference)
  {
    var i := 0;
    while i < products.Length
      invariant 0 <= i <= products.Length
      invariant forall k :: 0 <= k < i ==> products[k] == Measured(old(products[k]), reference)
      invariant forall k :: i <= k < products.Length ==> products[k] == old(products[k])
    {
      var product := products[i];
      var days := if product.lastPurchase.Some? then Ordinal(reference) - Ordinal(product.lastPurchase.value) else 999;
      product := product.(recencyDays := days, recencyScore := if 100 - days > 0 then 100 - days else 0);
      product := product.(frequencyScore := product.tickets);
      product := product.(monetaryScore := product.avgTicketValue);
      product := product.(revenue := product.totalRevenue);
      products[i] := product;
      i := i + 1;
    }
  }

  // --------------------------------------------------- second pass

  predicate HasRevenue(p: Product) { p.revenue > 0.0 }

  /**
   * The maxima the second loop takes exist: when some product has revenue,
   * some product has a ticket and some a positive average value (`max` of
   * an empty sequence raises).
   */
  ghost predicate Scorable(ps: seq<Product>) {
    (exists i :: 0 <= i < |ps| && ps[i].revenue > 0.0) ==>
      (exists i :: 0 <= i < |ps| && ps[i].tickets > 0) &&
      (exists i :: 0 <= i < |ps| && ps[i].monetaryScore > 0.0)
  }

  function RevenueOf(p: Product): real { p.revenue }
  function TicketsOf(p: Product): real { p.tickets as real }
  function MonetaryOf(p: Product): real { p.monetaryScore }

  /**
   * `max(x for x in xs if x > 0)`, which exists when some value is positive;
   * 0 stands for "no positive value".
   */
  function MaxPositive(xs: seq<real>): (m: real)
    ensures m >= 0.0
    ensures forall i :: 0 <= i < |xs| && xs[i] > 0.0 ==> xs[i] <= m
    ensures m > 0.0 <==> exists i :: 0 <= i < |xs| && xs[i] > 0.0
    ensures m > 0.0 ==> m in xs
  {
    if xs == [] then 0.0
    else
      var rest := MaxPositive(xs[..|xs| - 1]);
      var x := xs[|xs| - 1];
      assert forall i :: 0 <= i < |xs| - 1 ==> xs[..|xs| - 1][i] == xs[i];
      if x > rest then x else rest
  }

  /** The maxima `max_revenue`, `max_frequency`, `max_monetary`, or none when no product has revenue. */
  datatype Scale = NoRevenue | Scale(maxRevenue: real, maxFrequency: real, maxMonetary: real)

  function ScaleOf(ps: seq<Product>): (s: Scale)
    requires Scorable(ps)
    ensures s.NoRevenue? <==> forall i :: 0 <= i < |ps| ==> ps[i].revenue <= 0.0
    ensures s.Scale? ==> s.maxRevenue > 0.0 && s.maxFrequency > 0.0 && s.maxMonetary > 0.0
    ensures s.Scale? ==> forall i :: 0 <= i < |ps| ==>
      ps[i].revenue <= s.maxRevenue && ps[i].tickets as real <= s.maxFrequency &&
      ps[i].monetaryScore <= s.maxMonetary
  {
    var maxRevenue := MaxPositive(Map(ps, RevenueOf));
    if maxRevenue <= 0.0 then NoRevenue
    else
      var maxFrequency := MaxPositive(Map(ps, TicketsOf));
      var maxMonetary := MaxPositive(Map(ps, MonetaryOf));
      assert exists i :: 0 <= i < |ps| && ps[i].revenue > 0.0 by {
        var i :| 0 <= i < |ps| && Map(ps, RevenueOf)[i] > 0.0;
      }
      var j :| 0 <= j < |ps| && ps[j].tickets > 0;
      var k :| 0 <= k < |ps| && ps[k].monetaryScore > 0.0;
      assert Map(ps, TicketsOf)[j] > 0.0 && Map(ps, MonetaryOf)[k] > 0.0;
      Scale(maxRevenue, maxFrequency, maxMonetary)
  }

  /** `value / max * 100` when the maximum is positive, else 0. */
  function Normalized(x: real, max: real): (r: real)
    ensures max <= 0.0 ==> r == 0.0
    ensures max > 0.0 ==> r * max == x * 100.0
    ensures max > 0.0 && x <= 0.0 ==> r <= 0.0
    ensures max > 0.0 && x <= max ==> r <= 100.0
  {
    if max > 0.0 then
      var r := x / max * 100.0;
      NormalizedBound(x, max, r);
      r
    else 0.0
  }

  lemma NormalizedBound(x: real, max: real, r: real)
    requires max > 0.0 && r == x / max * 100.0
    ensures r * max == x * 100.0
    ensures x <= 0.0 ==> r <= 0.0
    ensures x <= max ==> r <= 100.0
  {
    var q := x / max;
    assert q * max == x;
    if q > 1.0 {
      assert q * max > max;
    }
    if q > 0.0 {
      assert q * max > 0.0;
    }
  }

  /** `revenue * 0.40 + frequency * 0.30 + recency * 0.20 + monetary * 0.10` */
  function Composite(revenue: real, frequency: real, recency: real, monetary: real): real {
    revenue * 0.40 + frequency * 0.30 + recency * 0.20 + monetary * 0.10
  }

  /** With each term at most 100 the composite is at most 100, and with each at least 0 it is at least 0. */
  lemma CompositeBounds(revenue: real, frequency: real, recency: real, monetary: real)
    ensures revenue <= 100.0 && frequency <= 100.0 && recency <= 100.0 && monetary <= 100.0 ==>
      Composite(revenue, frequency, recency, monetary) <= 100.0
    ensures revenue >= 0.0 && frequency >= 0.0 && recency >= 0.0 && monetary >= 0.0 ==>
      Composite(revenue, frequency, recency, monetary) >= 0.0
  {
  }

  /** The tier bands: at least 80, 60, 40, 20, and below 20. */
  function TierOf(score: real): (t: Tier)
    ensures t == TopPerformer <==> score >= 80.0
    ensures t == StrongSeller <==> 60.0 <= score < 80.0
    ensures t == Average <==> 40.0 <= score < 60.0
    ensures t == WeakSeller <==> 20.0 <= score < 40.0
    ensures t == PoorPerformer <==> score < 20.0
  {
    if score >= 80.0 then TopPerformer
    else if score >= 60.0 then StrongSeller
    else if score >= 40.0 then Average
    else if score >= 20.0 then WeakSeller
    else PoorPerformer
  }

  /** A higher score never gets a lower tier. */
  lemma TierMonotone(a: real, b: real)
    requires a <= b
    ensures Rank(TierOf(a)) <= Rank(TierOf(b))
  {
  }

  /** The second loop's update of one record. */
  function Rated(p: Product, scale: Scale): (r: Product)
    ensures Basis(r) == Basis(p) && r.name == p.name && r.code == p.code && r.recencyDays == p.recencyDays
    ensures r.tier == NoSales <==> scale.NoRevenue?
  {
    match scale
    case NoRevenue => p.(performanceScore := 0.0, tier := NoSales)
    case Scale(maxRevenue, maxFrequency, maxMonetary) =>
      var score := Score(p, maxRevenue, maxFrequency, maxMonetary);
      p.(performanceScore := score, tier := TierOf(score))
  }

  /** The weighted composite of one record against the maxima. */
  function Score(p: Product, maxRevenue: real, maxFrequency: real, maxMonetary: real): real {
    Composite(Normalized(p.revenue, maxRevenue), Normalized(p.tickets as real, maxFrequency),
              p.recencyScore as real, Normalized(p.monetaryScore, maxMonetary))
  }

  /** What the normalisation reads of a record: revenue, tickets and average value. */
  function Basis(p: Product): (real, nat, real) { (p.revenue, p.tickets, p.monetaryScore) }

  /** Two lists whose records agree on what the normalisation reads have the same maxima. */
  lemma SameMaxima(a: seq<Product>, b: seq<Product>)
    requires |a| == |b| && forall i :: 0 <= i < |a| ==> Basis(a[i]) == Basis(b[i])
    ensures Scorable(a) <==> Scorable(b)
    ensures Scorable(a) ==> ScaleOf(a) == ScaleOf(b)
  {
    assert Map(a, RevenueOf) == Map(b, RevenueOf);
    assert Map(a, TicketsOf) == Map(b, TicketsOf);
    assert Map(a, MonetaryOf) == Map(b, MonetaryOf);
  }

  /** The records part way through the second loop: the first `i` rated, the rest as they were. */
  function RatedUpTo(start: seq<Product>, scale: Scale, i: nat): (r: seq<Product>)
    ensures |r| == |start|
    ensures forall k :: 0 <= k < |start| ==> r[k] == if k < i then Rated(start[k], scale) else start[k]
  {
    seq(|start|, k requires 0 <= k < |start| => if k < i then Rated(start[k], scale) else start[k])
  }

  /** Rating the next record moves the loop on by one. */
  lemma RatedStep(start: seq<Product>, scale: Scale, i: nat)
    requires i < |start|
    ensures RatedUpTo(start, scale, i)[i := Rated(start[i], scale)] == RatedUpTo(start, scale, i + 1)
  {
  }

  /** The records after the second loop: each rated against the maxima of them all. */
  function RatedAll(ps: seq<Product>): (r: seq<Product>)
    requires Scorable(ps)
    ensures |r| == |ps| && forall i :: 0 <= i < |ps| ==> r[i] == Rated(ps[i], ScaleOf(ps))
  {
    seq(|ps|, i requires 0 <= i < |ps| => Rated(ps[i], ScaleOf(ps)))
  }

  /** Part way through the second loop the maxima are still the starting ones. */
  lemma RoundScale(start: seq<Product>, i: nat)
    requires Scorable(start)
    ensures var current := RatedUpTo(start, ScaleOf(start), i);
      Scorable(current) && ScaleOf(current) == ScaleOf(start)
  {
    var scale := ScaleOf(start);
    RatedKeepsBasis(start, scale, i);
    SameMaxima(RatedUpTo(start, scale, i), start);
  }

  /** Rating changes only the score and the tier, not what the normalisation reads. */
  lemma RatedKeepsBasis(start: seq<Product>, scale: Scale, i: nat)
    ensures var current := RatedUpTo(start, scale, i);
      |current| == |start| && forall k :: 0 <= k < |start| ==> Basis(current[k]) == Basis(start[k])
  {
  }

  /**
   * The second loop over `all_prod_data`, updating each record in place; the
   * maxima are taken afresh in every round, from records that differ from the
   * starting ones only in score and tier.
   */
  method RateProducts(products: array<Product>)
    requires Scorable(products[..])
    modifies products
    ensures products[..] == RatedAll(old(products[..]))
  {
    ghost var start := products[..];
    ghost var initial := ScaleOf(start);
    var i := 0;
    while i < products.Length
      invariant 0 <= i <= products.Length
      invariant products[..] == RatedUpTo(start, initial, i)
    {
      RoundScale(start, i);
      var scale := ScaleOf(products[..]);
      assert scale == initial && products[i] == start[i];
      var product := Rated(products[i], scale);
      ghost var before := products[..];
      products[i] := product;
      assert products[..] == before[i := product];
      RatedStep(start, initial, i);
      i := i + 1;
    }
    assert products[..] == RatedAll(start);
  }

  /** Against maxima that bound it, a record whose recency score is at most 100 scores at most 100. */
  lemma ScoreAtMost100(p: Product, scale: Scale)
    requires scale.Scale? && scale.maxRevenue > 0.0 && scale.maxFrequency > 0.0 && scale.maxMonetary > 0.0
    requires p.revenue <= scale.maxRevenue && p.tickets as real <= scale.maxFrequency
    requires p.monetaryScore <= scale.maxMonetary && p.recencyScore <= 100
    ensures Rated(p, scale).performanceScore <= 100.0
  {
    CompositeBounds(Normalized(p.revenue, scale.maxRevenue), Normalized(p.tickets as real, scale.maxFrequency),
                    p.recencyScore as real, Normalized(p.monetaryScore, scale.maxMonetary));
  }

  // ------------------------------------------------ both passes together

  /** The records after the first loop. */
  function MeasuredAll(ps: seq<Product>, reference: Date): (r: seq<Product>)
    requires ValidDate(reference) && forall i :: 0 <= i < |ps| ==> Dated(ps[i])
    ensures |r| == |ps| && forall i :: 0 <= i < |ps| ==> r[i] == Measured(ps[i], reference)
  {
    seq(|ps|, i requires 0 <= i < |ps| => Measured(ps[i], reference))
  }

  /** The maxima exist for the raw records: revenue comes with a ticket and a positive average. */
  ghost predicate Rateable(ps: seq<Product>) {
    (exists i :: 0 <= i < |ps| && ps[i].totalRevenue > 0.0) ==>
      (exists i :: 0 <= i < |ps| && ps[i].tickets > 0) &&
      (exists i :: 0 <= i < |ps| && ps[i].avgTicketValue > 0.0)
  }

  /** The records after both loops: every product rated against the maxima of all of them. */
  function ScoredProducts(ps: seq<Product>, reference: Date): (r: seq<Product>)
    requires ValidDate(reference) && forall i :: 0 <= i < |ps| ==> Dated(ps[i])
    requires Rateable(ps)
    ensures |r| == |ps|
    ensures forall i :: 0 <= i < |ps| ==>
      r[i].name == ps[i].name && r[i].code == ps[i].code && r[i].revenue == ps[i].totalRevenue
  {
    RateableMeasured(ps, reference);
    RatedAll(MeasuredAll(ps, reference))
  }

  lemma RateableMeasured(ps: seq<Product>, reference: Date)
    requires ValidDate(reference) && forall i :: 0 <= i < |ps| ==> Dated(ps[i])
    requires Rateable(ps)
    ensures Scorable(MeasuredAll(ps, reference))
  {
    var m := MeasuredAll(ps, reference);
    if exists i :: 0 <= i < |m| && m[i].revenue > 0.0 {
      var i :| 0 <= i < |m| && m[i].revenue > 0.0;
      assert ps[i].totalRevenue > 0.0;
      var j :| 0 <= j < |ps| && ps[j].tickets > 0;
      var k :| 0 <= k < |ps| && ps[k].avgTicketValue > 0.0;
      assert m[j].tickets > 0 && m[k].monetaryScore > 0.0;
    }
  }

  /**
   * With no revenue anywhere every product is "No Sales"; otherwise none is,
   * and each carries the tier of its score.
   */
  lemma ScoredTiers(ps: seq<Product>, reference: Date, i: nat)
    requires ValidDate(reference) && forall i :: 0 <= i < |ps| ==> Dated(ps[i])
    requires Rateable(ps) && i < |ps|
    ensures var p := ScoredProducts(ps, reference)[i];
      (p.tier == NoSales <==> forall j :: 0 <= j < |ps| ==> ps[j].totalRevenue <= 0.0) &&
      (p.tier != NoSales ==> p.tier == TierOf(p.performanceScore))
  {
    var m := MeasuredAll(ps, reference);
    RateableMeasured(ps, reference);
    assert forall j :: 0 <= j < |ps| ==> m[j].revenue == ps[j].totalRevenue;
  }

  /** A product whose last purchase is not after the reference day scores at most 100. */
  lemma ScoredAtMost100(ps: seq<Product>, reference: Date, i: nat)
    requires ValidDate(reference) && forall i :: 0 <= i < |ps| ==> Dated(ps[i])
    requires Rateable(ps) && i < |ps|
    requires ps[i].lastPurchase.Some? ==> AtMost(ps[i].lastPurchase.value, reference)
    ensures ScoredProducts(ps, reference)[i].performanceScore <= 100.0
  {
    var m := MeasuredAll(ps, reference);
    RateableMeasured(ps, reference);
    var scale := ScaleOf(m);
    if ps[i].lastPurchase.Some? {
      OrdinalOrder(ps[i].lastPurchase.value, reference);
    }
    assert m[i].recencyScore <= 100;
    if scale.Scale? {
      ScoreAtMost100(m[i], scale);
    }
  }

  // ------------------------------------------------------ ranked lists

  predicate ScoreFirst(a: Product, b: Product) { a.performanceScore >= b.performanceScore }
  predicate ScoreLast(a: Product, b: Product) { a.performanceScore <= b.performanceScore }
  predicate StalestFirst(a: Product, b: Product) { a.recencyDays >= b.recencyDays }
  predicate EarnsMore(a: Product, b: Product) { a.revenue >= b.revenue }

  /** `key=lambda x: (x['recency_score'], x['frequency_score']), reverse=True` */
  predicate RisingFirst(a: Product, b: Product) {
    a.recencyScore > b.recencyScore || (a.recencyScore == b.recencyScore && a.frequencyScore >= b.frequencyScore)
  }

  predicate IsSlow(p: Product) { p.recencyDays > 30 && p.revenue > 0.0 }
  predicate IsRising(p: Product) { p.recencyScore > 70 && p.revenue > 0.0 }

  /**
   * A ranked list cut from the products that pass `keep`: at most k of them,
   * each a passing product, in order, and every passing product left out
   * ranks after each listed one.
   */
  lemma RankedFrom(ps: seq<Product>, keep: Product -> bool, k: nat, le: (Product, Product) -> bool)
    requires TotalPreorder(le)
    ensures var r := Top(Filter(ps, keep), k, le);
      |r| <= k && (forall p :: p in r ==> p in ps && keep(p)) && SortedBy(r, le) &&
      forall p, j :: p in ps && keep(p) && p !in r && 0 <= j < |r| ==> le(r[j], p)
  {
    var passing := Filter(ps, keep);
    var r := Top(passing, k, le);
    TopSpec(passing, k, le);
    forall p, j | p in ps && keep(p) && p !in r && 0 <= j < |r| ensures le(r[j], p) {
      LeftOut(ps, keep, r, p);
    }
  }

  lemma LeftOut(ps: seq<Product>, keep: Product -> bool, r: seq<Product>, p: Product)
    requires p in ps && keep(p) && p !in r
    ensures p in multiset(Filter(ps, keep)) - multiset(r)
  {
    FilterKeeps(ps, keep, p);
    assert p in multiset(Filter(ps, keep));
    assert p !in multiset(r);
  }

  /** The ten highest earners: in order, none left out earning more. */
  lemma TopByRevenueRanked(ps: seq<Product>)
    ensures var b := Top(ps, 10, EarnsMore);
      |b| <= 10 && (forall p :: p in b ==> p in ps) &&
      (forall i, j :: 0 <= i < j < |b| ==> b[i].revenue >= b[j].revenue) &&
      forall p, j :: p in ps && p !in b && 0 <= j < |b| ==> b[j].revenue >= p.revenue
  {
    var b := Top(ps, 10, EarnsMore);
    TopSpec(ps, 10, EarnsMore);
    forall p, j | p in ps && p !in b && 0 <= j < |b| ensures b[j].revenue >= p.revenue {
      assert p in multiset(ps) - multiset(b);
    }
  }

  /** Bestsellers: the top 15 products with revenue, highest score first, none left out scoring higher. */
  function Bestsellers(ps: seq<Product>): (b: seq<Product>)
    ensures |b| <= 15 && forall p :: p in b ==> p in ps && p.revenue > 0.0
    ensures |b| == if 15 < |Filter(ps, HasRevenue)| then 15 else |Filter(ps, HasRevenue)|
    ensures forall i, j :: 0 <= i < j < |b| ==> b[i].performanceScore >= b[j].performanceScore
    ensures forall p, j :: p in ps && p.revenue > 0.0 && p !in b && 0 <= j < |b| ==>
      b[j].performanceScore >= p.performanceScore
  {
    RankedFrom(ps, HasRevenue, 15, ScoreFirst);
    Top(Filter(ps, HasRevenue), 15, ScoreFirst)
  }

  /** Least sellers: the bottom 15 products with revenue, lowest score first, none left out scoring lower. */
  function LeastSellers(ps: seq<Product>): (b: seq<Product>)
    ensures |b| <= 15 && forall p :: p in b ==> p in ps && p.revenue > 0.0
    ensures |b| == if 15 < |Filter(ps, HasRevenue)| then 15 else |Filter(ps, HasRevenue)|
    ensures forall i, j :: 0 <= i < j < |b| ==> b[i].performanceScore <= b[j].performanceScore
    ensures forall p, j :: p in ps && p.revenue > 0.0 && p !in b && 0 <= j < |b| ==>
      b[j].performanceScore <= p.performanceScore
  {
    RankedFrom(ps, HasRevenue, 15, ScoreLast);
    Top(Filter(ps, HasRevenue), 15, ScoreLast)
  }

  /** Slow movers: up to 10 products with revenue not bought in the last 30 days, stalest first, none left out staler. */
  function SlowMovers(ps: seq<Product>): (b: seq<Product>)
    ensures |b| <= 10 && forall p :: p in b ==> p in ps && p.recencyDays > 30 && p.revenue > 0.0
    ensures |b| == if 10 < |Filter(ps, IsSlow)| then 10 else |Filter(ps, IsSlow)|
    ensures forall i, j :: 0 <= i < j < |b| ==> b[i].recencyDays >= b[j].recencyDays
    ensures forall p, j :: p in ps && IsSlow(p) && p !in b && 0 <= j < |b| ==> b[j].recencyDays >= p.recencyDays
  {
    RankedFrom(ps, IsSlow, 10, StalestFirst);
    Top(Filter(ps, IsSlow), 10, StalestFirst)
  }

  /**
   * Rising stars: up to 10 recently bought products with revenue, by
   * recency score then tickets, none left out ranking higher.
   */
  function RisingStars(ps: seq<Product>): (b: seq<Product>)
    ensures |b| <= 10 && forall p :: p in b ==> p in ps && p.recencyScore > 70 && p.revenue > 0.0
    ensures |b| == if 10 < |Filter(ps, IsRising)| then 10 else |Filter(ps, IsRising)|
    ensures forall i, j :: 0 <= i < j < |b| ==> RisingFirst(b[i], b[j])
    ensures forall p, j :: p in ps && IsRising(p) && p !in b && 0 <= j < |b| ==> RisingFirst(b[j], p)
  {
    RankedFrom(ps, IsRising, 10, RisingFirst);
    Top(Filter(ps, IsRising), 10, RisingFirst)
  }

  /** `prod_data`: the 10 highest-revenue products, revenue or not, none left out earning more. */
  function TopByRevenue(ps: seq<Product>): (b: seq<Product>)
    ensures |b| <= 10 && forall p :: p in b ==> p in ps
    ensures |b| == if 10 < |ps| then 10 else |ps|
    ensures forall i, j :: 0 <= i < j < |b| ==> b[i].revenue >= b[j].revenue
    ensures forall p, j :: p in ps && p !in b && 0 <= j < |b| ==> b[j].revenue >= p.revenue
  {
    TopByRevenueRanked(ps);
    Top(ps, 10, EarnsMore)
  }

  /** A product without revenue is in none of the four ranked lists. */
  lemma NoRevenueNotRanked(ps: seq<Product>, p: Product)
    requires p.revenue <= 0.0
    ensures p !in Bestsellers(ps) && p !in LeastSellers(ps) && p !in SlowMovers(ps) && p !in RisingStars(ps)
  {
  }

  // ------------------------------------------------------ the analysis

  /** Each product record comes from the non-empty rows of its (name, code). */
  lemma ProductEntry(rows: seq<SaleRow>, p: Product) returns (k: (string, string))
    requires p in ProductsOf(rows)
    ensures RowsOfProduct(rows, k) != [] && p == ProductOf(k, RowsOfProduct(rows, k))
  {
    var keys := Distinct(Map(rows, ProductKey));
    InMap(p, keys, (k: (string, string)) => ProductOf(k, RowsOfProduct(rows, k)));
    var i :| 0 <= i < |keys| && p == ProductOf(keys[i], RowsOfProduct(rows, keys[i]));
    k := keys[i];
    assert k in Map(rows, ProductKey);
    InMap(k, rows, ProductKey);
    var j :| 0 <= j < |rows| && k == ProductKey(rows[j]);
    KeyHasRows(rows, j);
  }

  /** The key of a row has that row among its rows. */
  lemma KeyHasRows(rows: seq<SaleRow>, j: nat)
    requires j < |rows|
    ensures rows[j] in RowsOfProduct(rows, ProductKey(rows[j]))
  {
    assert rows[j] in rows;
  }

  /**
   * Records aggregated from dated rows up to the reference day are dated,
   * last bought no later than that day, and can be rated: a product with
   * revenue has a ticket and a positive average.
   */
  lemma ProductsReady(rows: seq<SaleRow>, reference: Date)
    requires forall r :: r in rows ==> ValidDate(r.day) && AtMost(r.day, reference)
    ensures var ps := ProductsOf(rows);
      (forall i :: 0 <= i < |ps| ==> Dated(ps[i])) &&
      (forall i :: 0 <= i < |ps| && ps[i].lastPurchase.Some? ==> AtMost(ps[i].lastPurchase.value, reference)) &&
      Rateable(ps)
  {
    var ps := ProductsOf(rows);
    forall i | 0 <= i < |ps|
      ensures Dated(ps[i])
      ensures ps[i].lastPurchase.Some? ==> AtMost(ps[i].lastPurchase.value, reference)
      ensures ps[i].totalRevenue > 0.0 ==> ps[i].tickets > 0 && ps[i].avgTicketValue > 0.0
    {
      var k := ProductEntry(rows, ps[i]);
      var own := RowsOfProduct(rows, k);
      var j :| 0 <= j < |own| && own[j].day == ps[i].lastPurchase.value;
      assert own[j] in own;
    }
  }

  /** Both loops over an array holding the records: the records come out scored. */
  method ScoreProducts(ps: seq<Product>, reference: Date) returns (all: seq<Product>)
    requires ValidDate(reference) && forall i :: 0 <= i < |ps| ==> Dated(ps[i])
    requires Rateable(ps)
    ensures all == ScoredProducts(ps, reference)
  {
    var products := new Product[|ps|](i requires 0 <= i < |ps| => ps[i]);
    assert products[..] == ps;
    MeasureProducts(products, reference);
    assert products[..] == MeasuredAll(ps, reference);
    RateableMeasured(ps, reference);
    RateProducts(products);
    all := products[..];
  }

  /** What the product analysis hands to the page. */
  datatype ProductReport = ProductReport(
    products: seq<Product>, bestsellers: seq<Product>, leastSellers: seq<Product>,
    slowMovers: seq<Product>, risingStars: seq<Product>, topByRevenue: seq<Product>)

  /**
   * The product analysis of the period's product rows, measured against the
   * end of the window: the records after both loops, every score at most
   * 100, and the ranked lists cut from them.
   */
  method ProductAnalysis(w: Window, f: Filters, rows: seq<SaleRow>) returns (report: ProductReport)
    requires ValidDate(w.end) && forall r :: r in rows ==> ValidDate(r.day)
    ensures var ps := ProductsOf(Select(rows, (r: SaleRow) => IsProductRow(w, f, r)));
      Rateable(ps) && (forall i :: 0 <= i < |ps| ==> Dated(ps[i])) &&
      report.products == ScoredProducts(ps, w.end)
    ensures forall i :: 0 <= i < |report.products| ==> report.products[i].performanceScore <= 100.0
    ensures report.bestsellers == Bestsellers(report.products)
    ensures report.leastSellers == LeastSellers(report.products)
    ensures report.slowMovers == SlowMovers(report.products)
    ensures report.risingStars == RisingStars(report.products)
    ensures report.topByRevenue == TopByRevenue(report.products)
  {
    var selected := Select(rows, (r: SaleRow) => IsProductRow(w, f, r));
    assert forall r :: r in selected ==> ValidDate(r.day) && AtMost(r.day, w.end);
    var ps := ProductsOf(selected);
    ProductsReady(selected, w.end);
    var all := ScoreProducts(ps, w.end);
    forall i | 0 <= i < |all| ensures all[i].performanceScore <= 100.0 {
      ScoredAtMost100(ps, w.end, i);
    }
    report := ProductReport(all, Bestsellers(all), LeastSellers(all), SlowMovers(all), RisingStars(all),
                            TopByRevenue(all));
  }
}
