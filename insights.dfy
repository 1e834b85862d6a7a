/**
 * The insights page's narrator: a fixed decision tree over the summaries of
 * the current, previous and (optionally) the year before that.  Each of six
 * sections may add one insight and some recommendations; what is modelled
 * is which branch each section takes and which recommendations it appends,
 * not the text or the number formatting.
 */
module Insights {
  import opened Seqs
  import opened Ratios
  import opened Groups
  import opened Summary

  // ------------------------------------------------------ trend badges

  datatype TrendClass = Positive | Negative | Neutral
  datatype TrendIcon = Up | Down | Right

  /** `get_trend_class` */
  function TrendClassOf(change: real): (t: TrendClass)
    ensures t == Positive <==> change > 0.0
    ensures t == Negative <==> change < 0.0
    ensures t == Neutral <==> change == 0.0
  {
    if change > 0.0 then Positive else if change < 0.0 then Negative else Neutral
  }

  /** `get_trend_icon` */
  function TrendIconOf(change: real): (t: TrendIcon)
    ensures t == Up <==> change > 0.0
    ensures t == Down <==> change < 0.0
    ensures t == Right <==> change == 0.0
  {
    if change > 0.0 then Up else if change < 0.0 then Down else Right
  }

  /** The badge and the arrow always agree. */
  lemma BadgeMatchesArrow(change: real)
    ensures TrendClassOf(change) == Positive <==> TrendIconOf(change) == Up
    ensures TrendClassOf(change) == Negative <==> TrendIconOf(change) == Down
    ensures TrendClassOf(change) == Neutral <==> TrendIconOf(change) == Right
  {
  }

  // ------------------------------------------------------ what is said

  /** What the revenue insight attributes the change to. */
  datatype RevenueDriver = VolumeLed | BasketLed | BothDown | VolumeDown | BasketDown

  datatype CrossSellTrend = Improved | Declined | Stable

  /** What the basket insight attributes the change to. */
  datatype BasketCause = MoreItems | TradingUp | FewerItems | CheaperItems

  datatype CategoryMovement = Grew | Fell | Steady

  datatype Pace = Accelerating | Decelerating | Consistent

  datatype Insight =
    | RevenueInsight(change: real, driver: RevenueDriver)
    | CrossSellInsight(rate: real, trend: CrossSellTrend, singleItemWarning: bool)
    | BasketInsight(change: real, cause: BasketCause)
    | CategoryInsight(category: string, share: real, change: real, movement: CategoryMovement)
    | LocationInsight(top: string, bottom: string, ratio: real)
    | TrendInsight(change: real, pace: Pace)

  datatype Recommendation =
    | RetainCustomers
    | BundleForBasket
    | KeepCrossSelling
    | BuildBundles
    | SingleItemBundling(rate: real)
    | PremiumProducts
    | InvestigateSmallBaskets
    | ExpandCategory(category: string)
    | InvestigateCategory(category: string)
    | ShareLocationPractice(location: string)

  /** What one section adds. */
  datatype Section = Section(insights: seq<Insight>, recommendations: seq<Recommendation>)

  const Silent: Section := Section([], [])

  function Abs(x: real): real { if x < 0.0 then -x else x }

  /** The five year-over-year changes every section reads. */
  datatype Changes = Changes(revenue: real, tickets: real, basket: real, crossSell: real, singleItem: real)

  function ChangesOf(current: YearStats, previous: YearStats): Changes {
    Changes(CalcChange(current.totalRevenue, previous.totalRevenue),
            CalcChange(current.totalTickets as real, previous.totalTickets as real),
            CalcChange(current.avgBasket, previous.avgBasket),
            CalcChange(current.crossSellRate, previous.crossSellRate),
            CalcChange(current.singleItemRate, previous.singleItemRate))
  }

  // ------------------------------------------------------ the sections

  /** Insight 1: revenue moved by more than 1 percent. */
  function RevenueSection(ch: Changes): (s: Section)
    ensures s.insights != [] <==> Abs(ch.revenue) > 1.0
    ensures RetainCustomers in s.recommendations <==> ch.revenue < -1.0 && ch.tickets < -5.0
    ensures BundleForBasket in s.recommendations <==> ch.revenue < -1.0 && ch.basket < -5.0
    ensures forall r :: r in s.recommendations ==> r == RetainCustomers || r == BundleForBasket
  {
    if Abs(ch.revenue) > 1.0 then
      var driver :=
        if ch.revenue > 0.0 then (if ch.tickets > ch.basket then VolumeLed else BasketLed)
        else if ch.tickets < 0.0 && ch.basket < 0.0 then BothDown
        else if ch.tickets < 0.0 then VolumeDown
        else BasketDown;
      var recs :=
        if ch.revenue < 0.0 then
          (if ch.tickets < -5.0 then [RetainCustomers] else []) +
          (if ch.basket < -5.0 then [BundleForBasket] else [])
        else [];
      Section([RevenueInsight(ch.revenue, driver)], recs)
    else Silent
  }

  /** Insight 2: the period has cross-selling at all. */
  function CrossSellSection(current: YearStats, ch: Changes): (s: Section)
    ensures s.insights != [] <==> current.crossSellRate > 0.0
    ensures KeepCrossSelling in s.recommendations <==> current.crossSellRate > 0.0 && ch.crossSell > 5.0
    ensures BuildBundles in s.recommendations <==> current.crossSellRate > 0.0 && ch.crossSell < -5.0
    ensures SingleItemBundling(current.singleItemRate) in s.recommendations <==>
      current.crossSellRate > 0.0 && -5.0 <= ch.crossSell <= 5.0 && current.singleItemRate > 30.0
    ensures |s.recommendations| <= 1
  {
    if current.crossSellRate > 0.0 then
      if ch.crossSell > 5.0 then
        Section([CrossSellInsight(current.crossSellRate, Improved, false)], [KeepCrossSelling])
      else if ch.crossSell < -5.0 then
        Section([CrossSellInsight(current.crossSellRate, Declined, false)], [BuildBundles])
      else if current.singleItemRate > 30.0 then
        Section([CrossSellInsight(current.crossSellRate, Stable, true)], [SingleItemBundling(current.singleItemRate)])
      else
        Section([CrossSellInsight(current.crossSellRate, Stable, false)], [])
    else Silent
  }

  /** Insight 3: the average basket moved by more than 3 percent. */
  function BasketSection(current: YearStats, previous: YearStats, ch: Changes): (s: Section)
    ensures s.insights != [] <==> Abs(ch.basket) > 3.0
    ensures PremiumProducts in s.recommendations <==>
      ch.basket > 3.0 && CalcChange(current.itemsPerTicket, previous.itemsPerTicket) <= ch.basket
    ensures InvestigateSmallBaskets in s.recommendations <==>
      ch.basket < -3.0 && CalcChange(current.itemsPerTicket, previous.itemsPerTicket) < 0.0
    ensures |s.recommendations| <= 1
  {
    if Abs(ch.basket) > 3.0 then
      var items := CalcChange(current.itemsPerTicket, previous.itemsPerTicket);
      if ch.basket > 0.0 then
        if items > ch.basket then Section([BasketInsight(ch.basket, MoreItems)], [])
        else Section([BasketInsight(ch.basket, TradingUp)], [PremiumProducts])
      else if items < 0.0 then Section([BasketInsight(ch.basket, FewerItems)], [InvestigateSmallBaskets])
      else Section([BasketInsight(ch.basket, CheaperItems)], [])
    else Silent
  }

  /** `next((c for c in totals if c['prodg'] == key), None)` */
  function FirstWithKey(ts: seq<Total<string>>, key: string): (r: Option<Total<string>>)
    ensures r.None? <==> forall i :: 0 <= i < |ts| ==> ts[i].key != key
    ensures r.Some? ==>
      exists i :: 0 <= i < |ts| && ts[i] == r.value && r.value.key == key && forall j :: 0 <= j < i ==> ts[j].key != key
  {
    if ts == [] then None
    else if ts[0].key == key then Some(ts[0])
    else
      var rest := FirstWithKey(ts[1..], key);
      assert forall i :: 1 <= i < |ts| ==> ts[i] == ts[1..][i - 1];
      if rest.Some? then
        var i :| 0 <= i < |ts[1..]| && ts[1..][i] == rest.value && rest.value.key == key &&
          forall j :: 0 <= j < i ==> ts[1..][j].key != key;
        assert ts[i + 1] == rest.value;
        rest
      else rest
  }

  /**
   * Insight 4: the current top category, when the previous year's top list
   * has it too, with its share of the year's revenue and its change.
   */
  function CategorySection(current: YearStats, previous: YearStats): (s: Section)
    ensures s.insights != [] <==>
      current.topCategories != [] && FirstWithKey(previous.topCategories, current.topCategories[0].key).Some?
    ensures |s.recommendations| <= 1
    ensures forall i :: 0 <= i < |s.insights| ==>
      s.insights[i].CategoryInsight? &&
      s.insights[i].category == current.topCategories[0].key &&
      (s.insights[i].movement == Grew <==> s.insights[i].change > 10.0) &&
      (s.insights[i].movement == Fell <==> s.insights[i].change < -10.0) &&
      (s.insights[i].movement == Grew <==> ExpandCategory(s.insights[i].category) in s.recommendations) &&
      (s.insights[i].movement == Fell <==> InvestigateCategory(s.insights[i].category) in s.recommendations)
  {
    if current.topCategories == [] then Silent
    else
      var top := current.topCategories[0];
      var share := Percent(top.sum, current.totalRevenue);
      match FirstWithKey(previous.topCategories, top.key)
      case None => Silent
      case Some(prev) =>
        var change := CalcChange(top.sum, prev.sum);
        if change > 10.0 then Section([CategoryInsight(top.key, share, change, Grew)], [ExpandCategory(top.key)])
        else if change < -10.0 then Section([CategoryInsight(top.key, share, change, Fell)], [InvestigateCategory(top.key)])
        else Section([CategoryInsight(top.key, share, change, Steady)], [])
  }

  /**
   * Insight 5: more than one top location, both ends with positive revenue,
   * and the first earning more than twice the last.
   */
  function LocationSection(current: YearStats): (s: Section)
    ensures var ls := current.topLocations;
      s.insights != [] <==>
        |ls| > 1 && ls[0].sum > 0.0 && ls[|ls| - 1].sum > 0.0 && ls[0].sum > 2.0 * ls[|ls| - 1].sum
    ensures |s.insights| == |s.recommendations| <= 1
    ensures forall i :: 0 <= i < |s.insights| ==>
      s.insights[i].LocationInsight? && s.insights[i].ratio > 2.0 &&
      s.recommendations[i] == ShareLocationPractice(s.insights[i].top)
  {
    var ls := current.topLocations;
    if |ls| > 1 then
      var top := ls[0];
      var bottom := ls[|ls| - 1];
      if top.sum > 0.0 && bottom.sum > 0.0 then
        var ratio := top.sum / bottom.sum;
        VarianceRatio(top.sum, bottom.sum);
        if ratio > 2.0 then Section([LocationInsight(top.key, bottom.key, ratio)], [ShareLocationPractice(top.key)])
        else Silent
      else Silent
    else Silent
  }

  /** For positive revenues the spread exceeds 2 exactly when the top earns more than twice the bottom. */
  lemma VarianceRatio(top: real, bottom: real)
    requires top > 0.0 && bottom > 0.0
    ensures top / bottom > 2.0 <==> top > 2.0 * bottom
  {
    var q := top / bottom;
    assert q * bottom == top;
    if q > 2.0 {
      assert q * bottom > 2.0 * bottom;
    }
    if q <= 2.0 {
      assert q * bottom <= 2.0 * bottom;
    }
  }

  /**
   * Insight 6: over two years revenue moved by more than 10 percent; the pace
   * compares the last year's growth with the year before's.
   */
  function TrendSection(current: YearStats, previous: YearStats, twoYears: Option<YearStats>): (s: Section)
    ensures s.recommendations == []
    ensures s.insights != [] <==>
      twoYears.Some? && Abs(CalcChange(current.totalRevenue, twoYears.value.totalRevenue)) > 10.0
    ensures forall i :: 0 <= i < |s.insights| ==>
      s.insights[i].TrendInsight? &&
      var recent := CalcChange(current.totalRevenue, previous.totalRevenue);
      var older := CalcChange(previous.totalRevenue, twoYears.value.totalRevenue);
      (s.insights[i].pace == Accelerating <==> recent > older) &&
      (s.insights[i].pace == Decelerating <==> recent < older)
  {
    match twoYears
    case None => Silent
    case Some(before) =>
      var growth := CalcChange(current.totalRevenue, before.totalRevenue);
      if Abs(growth) > 10.0 then
        var recent := CalcChange(current.totalRevenue, previous.totalRevenue);
        var older := CalcChange(previous.totalRevenue, before.totalRevenue);
        var pace := if recent > older then Accelerating else if recent < older then Decelerating else Consistent;
        Section([TrendInsight(growth, pace)], [])
      else Silent
  }

  // ------------------------------------------------------ the narrator

  /** The two lists so far, with a section's insights and recommendations appended. */
  function Then(sofar: Section, s: Section): Section {
    Section(sofar.insights + s.insights, sofar.recommendations + s.recommendations)
  }

  /**
   * The six sections appended in page order: the page's insight and
   * recommendation lists, at most six of each.
   */
  function Narration(current: YearStats, previous: YearStats, twoYears: Option<YearStats>): (n: Section)
    ensures |n.insights| <= 6 && |n.recommendations| <= 6
  {
    var ch := ChangesOf(current, previous);
    SectionSizes(current, previous, twoYears, ch);
    Then(Then(Then(Then(Then(Then(Silent,
      RevenueSection(ch)),
      CrossSellSection(current, ch)),
      BasketSection(current, previous, ch)),
      CategorySection(current, previous)),
      LocationSection(current)),
      TrendSection(current, previous, twoYears))
  }

  /** Insight 1 as the page runs it, appending to both lists. */
  method RevenueStep(ch: Changes, sofar: Section) returns (next: Section)
    ensures next == Then(sofar, RevenueSection(ch))
  {
    var insights', recommendations' := sofar.insights, sofar.recommendations;
    if Abs(ch.revenue) > 1.0 {
      var driver;
      if ch.revenue > 0.0 {
        driver := if ch.tickets > ch.basket then VolumeLed else BasketLed;
      } else if ch.tickets < 0.0 && ch.basket < 0.0 {
        driver := BothDown;
      } else if ch.tickets < 0.0 {
        driver := VolumeDown;
      } else {
        driver := BasketDown;
      }
      insights' := insights' + [RevenueInsight(ch.revenue, driver)];
      if ch.revenue < 0.0 {
        if ch.tickets < -5.0 {
          recommendations' := recommendations' + [RetainCustomers];
        }
        if ch.basket < -5.0 {
          recommendations' := recommendations' + [BundleForBasket];
        }
      }
    }
    next := Section(insights', recommendations');
  }

  /** Insight 2 as the page runs it. */
  method CrossSellStep(current: YearStats, ch: Changes, sofar: Section) returns (next: Section)
    ensures next == Then(sofar, CrossSellSection(current, ch))
  {
    var insights', recommendations' := sofar.insights, sofar.recommendations;
    if current.crossSellRate > 0.0 {
      if ch.crossSell > 5.0 {
        insights' := insights' + [CrossSellInsight(current.crossSellRate, Improved, false)];
        recommendations' := recommendations' + [KeepCrossSelling];
      } else if ch.crossSell < -5.0 {
        insights' := insights' + [CrossSellInsight(current.crossSellRate, Declined, false)];
        recommendations' := recommendations' + [BuildBundles];
      } else if current.singleItemRate > 30.0 {
        insights' := insights' + [CrossSellInsight(current.crossSellRate, Stable, true)];
        recommendations' := recommendations' + [SingleItemBundling(current.singleItemRate)];
      } else {
        insights' := insights' + [CrossSellInsight(current.crossSellRate, Stable, false)];
      }
    }
    next := Section(insights', recommendations');
  }

  /** Insight 3 as the page runs it. */
  method BasketStep(current: YearStats, previous: YearStats, ch: Changes, sofar: Section) returns (next: Section)
    ensures next == Then(sofar, BasketSection(current, previous, ch))
  {
    var insights', recommendations' := sofar.insights, sofar.recommendations;
    if Abs(ch.basket) > 3.0 {
      var items := CalcChange(current.itemsPerTicket, previous.itemsPerTicket);
      if ch.basket > 0.0 {
        if items > ch.basket {
          insights' := insights' + [BasketInsight(ch.basket, MoreItems)];
        } else {
          insights' := insights' + [BasketInsight(ch.basket, TradingUp)];
          recommendations' := recommendations' + [PremiumProducts];
        }
      } else if items < 0.0 {
        insights' := insights' + [BasketInsight(ch.basket, FewerItems)];
        recommendations' := recommendations' + [InvestigateSmallBaskets];
      } else {
        insights' := insights' + [BasketInsight(ch.basket, CheaperItems)];
      }
    }
    next := Section(insights', recommendations');
  }

  /** Insight 4 as the page runs it. */
  method CategoryStep(current: YearStats, previous: YearStats, sofar: Section) returns (next: Section)
    ensures next == Then(sofar, CategorySection(current, previous))
  {
    var insights', recommendations' := sofar.insights, sofar.recommendations;
    if current.topCategories != [] {
      var top := current.topCategories[0];
      var share := Percent(top.sum, current.totalRevenue);
      var prev := FirstWithKey(previous.topCategories, top.key);
      if prev.Some? {
        var change := CalcChange(top.sum, prev.value.sum);
        if change > 10.0 {
          insights' := insights' + [CategoryInsight(top.key, share, change, Grew)];
          recommendations' := recommendations' + [ExpandCategory(top.key)];
        } else if change < -10.0 {
          insights' := insights' + [CategoryInsight(top.key, share, change, Fell)];
          recommendations' := recommendations' + [InvestigateCategory(top.key)];
        } else {
          insights' := insights' + [CategoryInsight(top.key, share, change, Steady)];
        }
      }
    }
    next := Section(insights', recommendations');
  }

  /** Insight 5 as the page runs it; the recommendation goes in before the insight. */
  method LocationStep(current: YearStats, sofar: Section) returns (next: Section)
    ensures next == Then(sofar, LocationSection(current))
  {
    var insights', recommendations' := sofar.insights, sofar.recommendations;
    var ls := current.topLocations;
    if |ls| > 1 {
      var top := ls[0];
      var bottom := ls[|ls| - 1];
      if top.sum > 0.0 && bottom.sum > 0.0 {
        var ratio := top.sum / bottom.sum;
        if ratio > 2.0 {
          recommendations' := recommendations' + [ShareLocationPractice(top.key)];
          insights' := insights' + [LocationInsight(top.key, bottom.key, ratio)];
        }
      }
    }
    next := Section(insights', recommendations');
  }

  /** Insight 6 as the page runs it. */
  method TrendStep(current: YearStats, previous: YearStats, twoYears: Option<YearStats>, sofar: Section)
    returns (next: Section)
    ensures next == Then(sofar, TrendSection(current, previous, twoYears))
  {
    var insights' := sofar.insights;
    if twoYears.Some? {
      var before := twoYears.value;
      var growth := CalcChange(current.totalRevenue, before.totalRevenue);
      if Abs(growth) > 10.0 {
        var recent := CalcChange(current.totalRevenue, previous.totalRevenue);
        var older := CalcChange(previous.totalRevenue, before.totalRevenue);
        var pace;
        if recent > older {
          pace := Accelerating;
        } else if recent < older {
          pace := Decelerating;
        } else {
          pace := Consistent;
        }
        insights' := insights' + [TrendInsight(growth, pace)];
      }
    }
    next := Section(insights', sofar.recommendations);
  }

  /** The decision tree as the page runs it: the six sections in turn, each appending to both lists. */
  method Narrate(current: YearStats, previous: YearStats, twoYears: Option<YearStats>)
    returns (insights: seq<Insight>, recommendations: seq<Recommendation>)
    ensures Section(insights, recommendations) == Narration(current, previous, twoYears)
  {
    var ch := ChangesOf(current, previous);
    var sofar := RevenueStep(ch, Silent);
    sofar := CrossSellStep(current, ch, sofar);
    sofar := BasketStep(current, previous, ch, sofar);
    sofar := CategoryStep(current, previous, sofar);
    sofar := LocationStep(current, sofar);
    sofar := TrendStep(current, previous, twoYears, sofar);
    insights, recommendations := sofar.insights, sofar.recommendations;
  }

  // ------------------------------------------------------ what the page can say

  /** Every section says at most one thing; only the revenue section can recommend two. */
  lemma SectionSizes(current: YearStats, previous: YearStats, twoYears: Option<YearStats>, ch: Changes)
    ensures |RevenueSection(ch).insights| <= 1 && |RevenueSection(ch).recommendations| <= 2
    ensures |CrossSellSection(current, ch).insights| <= 1
    ensures |BasketSection(current, previous, ch).insights| <= 1
    ensures |CategorySection(current, previous).insights| <= 1
    ensures |LocationSection(current).insights| <= 1
    ensures |TrendSection(current, previous, twoYears).insights| <= 1
  {
  }

  /**
   * A year compared with itself, with no year before it: every change is
   * zero, so the page says nothing about revenue, the basket or the trend;
   * cross-selling is at most stable, the top category is steady, and the
   * only recommendations left are single-item bundling and sharing a
   * location's practice.
   */
  lemma {:induction false} UnchangedYearIsQuiet(y: YearStats)
    ensures var n := Narration(y, y, None);
      (forall i :: 0 <= i < |n.insights| ==>
        (n.insights[i].CrossSellInsight? && n.insights[i].trend == Stable) ||
        (n.insights[i].CategoryInsight? && n.insights[i].movement == Steady) ||
        n.insights[i].LocationInsight?) &&
      forall r :: r in n.recommendations ==> r.SingleItemBundling? || r.ShareLocationPractice?
  {
    var ch := ChangesOf(y, y);
    assert ch == Changes(0.0, 0.0, 0.0, 0.0, 0.0);
    assert RevenueSection(ch) == Silent;
    assert BasketSection(y, y, ch) == Silent;
    assert TrendSection(y, y, None) == Silent;
    if y.topCategories != [] {
      var top := y.topCategories[0];
      assert FirstWithKey(y.topCategories, top.key) == Some(top);
      assert CalcChange(top.sum, top.sum) == 0.0;
    }
  }
}
