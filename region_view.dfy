/**
  The regional page's `regionalMetrics` memo (app/region-view/page.tsx):
  group every campaign's regional slices by region name, derive ratios and
  the bubble-map `value` for the selected metric, total the groups, and pick
  the seven regions with the most revenue.
 */
module RegionView {
  import opened Wrappers
  import opened Ratios
  import opened Folds
  import opened JsObjects
  import opened StableSort
  import opened Campaigns

  /** An entry of `regionData`: the first-seen country and the running sums. */
  datatype RegionTotals = RegionTotals(
    country: string,
    impressions: nat,
    clicks: nat,
    conversions: nat,
    spend: real,
    revenue: real)

  /** An element of `regionsArray`. */
  datatype RegionRow = RegionRow(
    region: string,
    country: string,
    impressions: nat,
    clicks: nat,
    conversions: nat,
    spend: real,
    revenue: real,
    value: real,
    ctr: real,
    conversionRate: real,
    roas: real,
    cpc: real)

  datatype RegionalMetrics = RegionalMetrics(
    regionsArray: seq<RegionRow>,
    topRegionsByRevenue: seq<RegionRow>,
    totalSpend: real,
    totalRevenue: real,
    totalImpressions: nat,
    totalConversions: nat,
    regionCount: nat)

  function RegionKey(s: RegionSlice): (r: string) { s.region }
  function SliceImpressions(s: RegionSlice): (r: nat) { s.impressions }
  function SliceClicks(s: RegionSlice): (r: nat) { s.clicks }
  function SliceConversions(s: RegionSlice): (r: nat) { s.conversions }
  function SliceSpend(s: RegionSlice): (r: real) { s.spend }
  function SliceRevenue(s: RegionSlice): (r: real) { s.revenue }

  /** The entry created on first sight of a region: that slice's country, zero sums. */
  function RegionSeed(s: RegionSlice): (r: RegionTotals)
  {
    RegionTotals(s.country, 0, 0, 0, 0.0, 0.0)
  }

  /** The five `+=` of the accumulation loop; the country is left alone. */
  function AddRegion(t: RegionTotals, s: RegionSlice): (r: RegionTotals)
  {
    t.(impressions := t.impressions + s.impressions,
       clicks := t.clicks + s.clicks,
       conversions := t.conversions + s.conversions,
       spend := t.spend + s.spend,
       revenue := t.revenue + s.revenue)
  }

  /** Every campaign's `regional_performance`, campaign by campaign. */
  function RegionSlices(cs: seq<Campaign>): (r: seq<RegionSlice>)
    decreases |cs|
  {
    if cs == [] then [] else RegionSlices(Init(cs)) + Last(cs).regionalPerformance
  }

  function GroupRegions(xs: seq<RegionSlice>): (r: Obj<RegionTotals>)
  {
    GroupBy(xs, RegionKey, RegionSeed, AddRegion)
  }

  /** `data[selectedMetric]` */
  function Selected(t: RegionTotals, m: Metric): (r: real)
  {
    match m
    case Revenue => t.revenue
    case Spend => t.spend
    case Impressions => t.impressions as real
    case Clicks => t.clicks as real
    case Conversions => t.conversions as real
  }

  /** One element of `regionsArray`, with its zero-guarded ratios. */
  function MakeRow(region: string, t: RegionTotals, m: Metric): (r: RegionRow)
  {
    RegionRow(region, t.country, t.impressions, t.clicks, t.conversions, t.spend, t.revenue,
              Selected(t, m),
              Percent(t.clicks as real, t.impressions as real),
              Percent(t.conversions as real, t.clicks as real),
              SafeDiv(t.revenue, t.spend),
              SafeDiv(t.spend, t.clicks as real))
  }

  function RowMaker(m: Metric): (r: (string, RegionTotals) -> RegionRow)
  {
    (k, t) => MakeRow(k, t, m)
  }

  function RowSpend(row: RegionRow): (r: real) { row.spend }
  function RowRevenue(row: RegionRow): (r: real) { row.revenue }
  function RowImpressions(row: RegionRow): (r: nat) { row.impressions }
  function RowConversions(row: RegionRow): (r: nat) { row.conversions }
  function TotalsSpend(t: RegionTotals): (r: real) { t.spend }
  function TotalsRevenue(t: RegionTotals): (r: real) { t.revenue }
  function TotalsImpressions(t: RegionTotals): (r: real) { t.impressions as real }
  function TotalsConversions(t: RegionTotals): (r: real) { t.conversions as real }

  /** The sort key of `(a, b) => b.revenue - a.revenue`: revenue, descending. */
  function NegRevenue(row: RegionRow): (r: real) { -row.revenue }

  function Min(a: nat, b: nat): (r: nat) { if a < b then a else b }

  /** `[...rows].sort((a, b) => b.revenue - a.revenue).slice(0, 7)` */
  function TopByRevenue(rows: seq<RegionRow>): (r: seq<RegionRow>)
  {
    var sorted := SortBy(rows, NegRevenue);
    sorted[..Min(7, |sorted|)]
  }

  /** The top regions are at most seven, by non-increasing revenue. */
  lemma TopByRevenueOrdered(rows: seq<RegionRow>)
    ensures var top := TopByRevenue(rows);
      && |top| == Min(7, |rows|)
      && (forall i, j :: 0 <= i < j < |top| ==> top[i].revenue >= top[j].revenue)
  {
    var sorted := SortBy(rows, NegRevenue);
    SortBySorted(rows, NegRevenue);
    forall i, j | 0 <= i < j < |TopByRevenue(rows)|
      ensures TopByRevenue(rows)[i].revenue >= TopByRevenue(rows)[j].revenue
    {
      assert NegRevenue(sorted[i]) <= NegRevenue(sorted[j]);
    }
  }

  /** The top regions come from `rows` without duplication and no row left out earns more. */
  lemma TopByRevenueDominates(rows: seq<RegionRow>)
    ensures var top := TopByRevenue(rows);
      && multiset(top) <= multiset(rows)
      && (forall x, t :: x in multiset(rows) - multiset(top) && t in top ==> x.revenue <= t.revenue)
  {
    var top := TopByRevenue(rows);
    SortByPrefixDominates(rows, NegRevenue, Min(7, |rows|));
    forall x, t | x in multiset(rows) - multiset(top) && t in top
      ensures x.revenue <= t.revenue
    {
      assert NegRevenue(t) <= NegRevenue(x);
    }
  }

  /** Top regions of equal revenue keep their order in `rows`. */
  lemma TopByRevenueStable(rows: seq<RegionRow>)
    ensures forall c :: KeyClass(TopByRevenue(rows), NegRevenue, c) <= KeyClass(rows, NegRevenue, c)
  {
    forall c ensures KeyClass(TopByRevenue(rows), NegRevenue, c) <= KeyClass(rows, NegRevenue, c) {
      SortByPrefixStable(rows, NegRevenue, Min(7, |rows|), c);
    }
  }

  /** The memo's result, computed from the grouped object. */
  function Derive(o: Obj<RegionTotals>, m: Metric): (r: RegionalMetrics)
    requires Valid(o)
  {
    var rows := Rows(o.keys, o.vals, RowMaker(m));
    RegionalMetrics(rows, TopByRevenue(rows),
                    Sum(rows, RowSpend), Sum(rows, RowRevenue),
                    Total(rows, RowImpressions), Total(rows, RowConversions),
                    |rows|)
  }

  /** What `regionalMetrics` holds for a present `campaigns` array. */
  function RegionReport(cs: seq<Campaign>, m: Metric): (r: RegionalMetrics)
  {
    GroupByValid(RegionSlices(cs), RegionKey, RegionSeed, AddRegion);
    Derive(GroupRegions(RegionSlices(cs)), m)
  }

  /** `regionsArray` for a present `campaigns` array: one row per grouped region. */
  function RegionRows(cs: seq<Campaign>, m: Metric): (r: seq<RegionRow>)
  {
    GroupByValid(RegionSlices(cs), RegionKey, RegionSeed, AddRegion);
    var o := GroupRegions(RegionSlices(cs));
    Rows(o.keys, o.vals, RowMaker(m))
  }

  /** The report lists exactly those rows and counts them. */
  /**
    The memo: `null` without campaigns; otherwise the nested `forEach` loops
    create each region's entry on first sight and add every slice to it.
   */
  method RegionalMetricsOf(campaigns: Option<seq<Campaign>>, selected: Metric)
    returns (r: Option<RegionalMetrics>)
    ensures r == if campaigns.None? then None else Some(RegionReport(campaigns.value, selected))
  {
    if campaigns.None? {
      return None;
    }
    var cs := campaigns.value;
    var regionData: Obj<RegionTotals> := Empty();
    for i := 0 to |cs|
      invariant regionData == GroupRegions(RegionSlices(cs[..i]))
    {
      var slices := cs[i].regionalPerformance;
      ghost var before := RegionSlices(cs[..i]);
      assert before + slices[..0] == before;
      for j := 0 to |slices|
        invariant regionData == GroupRegions(before + slices[..j])
      {
        var s := slices[j];
        if s.region !in regionData.vals {
          regionData := Obj(regionData.keys + [s.region], regionData.vals[s.region := RegionSeed(s)]);
        }
        regionData := regionData.(vals := regionData.vals[s.region := AddRegion(regionData.vals[s.region], s)]);
        TakeSnoc(before, slices, j);
      }
      TakeSnoc([], cs, i);
      assert slices[..|slices|] == slices;
    }
    assert cs[..|cs|] == cs;
    GroupByValid(RegionSlices(cs), RegionKey, RegionSeed, AddRegion);
    r := Some(Derive(regionData, selected));
  }

  /** Adding slices to an entry adds their sums and keeps its country. */
  lemma {:induction false} FoldRegion(t: RegionTotals, xs: seq<RegionSlice>)
    ensures FoldFrom(t, AddRegion, xs)
         == RegionTotals(t.country,
                         t.impressions + Total(xs, SliceImpressions),
                         t.clicks + Total(xs, SliceClicks),
                         t.conversions + Total(xs, SliceConversions),
                         t.spend + Sum(xs, SliceSpend),
                         t.revenue + Sum(xs, SliceRevenue))
    decreases |xs|
  {
    if xs != [] {
      FoldRegion(t, Init(xs));
    }
  }

  function RegionNames(rows: seq<RegionRow>): (names: seq<string>)
    ensures |names| == |rows|
    ensures forall i :: 0 <= i < |rows| ==> names[i] == rows[i].region
  {
    seq(|rows|, i requires 0 <= i < |rows| => rows[i].region)
  }

  /**
    One row per distinct region name, in the order the names are first seen:
    a name has a row exactly when some slice carries it.
   */
  lemma RegionsAreDistinctFirstSeen(cs: seq<Campaign>, m: Metric)
    ensures var xs := RegionSlices(cs);
      var rows := RegionRows(cs, m);
      && (forall k :: k in RegionNames(rows) <==> Matching(xs, RegionKey, k) != [])
      && (forall i, j :: 0 <= i < j < |rows| ==>
            FirstIndex(xs, RegionKey, rows[i].region) < FirstIndex(xs, RegionKey, rows[j].region))
  {
    var xs := RegionSlices(cs);
    var o := GroupRegions(xs);
    GroupByValid(xs, RegionKey, RegionSeed, AddRegion);
    GroupByOrder(xs, RegionKey, RegionSeed, AddRegion);
    var rows := RegionRows(cs, m);
    assert |rows| == |o.keys|;
    forall i | 0 <= i < |rows|
      ensures rows[i].region == o.keys[i]
    {
      assert rows[i] == MakeRow(o.keys[i], o.vals[o.keys[i]], m);
    }
    assert RegionNames(rows) == o.keys;
    forall k ensures k in RegionNames(rows) <==> Matching(xs, RegionKey, k) != [] {
      GroupByMeaning(xs, RegionKey, RegionSeed, AddRegion, k);
    }
  }

  /**
    Each row sums exactly the slices carrying its region name, keeps the
    country of the first of them, shows the selected metric as `value`, and
    derives its ratios with the zero guard.
   */
  lemma RegionRowMeaning(cs: seq<Campaign>, m: Metric, i: nat)
    requires i < |RegionRows(cs, m)|
    ensures var row := RegionRows(cs, m)[i];
      var ms := Matching(RegionSlices(cs), RegionKey, row.region);
      && ms != []
      && row.country == ms[0].country
      && row.impressions == Total(ms, SliceImpressions)
      && row.clicks == Total(ms, SliceClicks)
      && row.conversions == Total(ms, SliceConversions)
      && row.spend == Sum(ms, SliceSpend)
      && row.revenue == Sum(ms, SliceRevenue)
      && row.value == (match m
                       case Revenue => row.revenue
                       case Spend => row.spend
                       case Impressions => row.impressions as real
                       case Clicks => row.clicks as real
                       case Conversions => row.conversions as real)
      && row.ctr == Percent(row.clicks as real, row.impressions as real)
      && row.conversionRate == Percent(row.conversions as real, row.clicks as real)
      && row.roas == SafeDiv(row.revenue, row.spend)
      && row.cpc == SafeDiv(row.spend, row.clicks as real)
  {
    var xs := RegionSlices(cs);
    var o := GroupRegions(xs);
    GroupByValid(xs, RegionKey, RegionSeed, AddRegion);
    var k := o.keys[i];
    GroupByMeaning(xs, RegionKey, RegionSeed, AddRegion, k);
    var ms := Matching(xs, RegionKey, k);
    FoldRegion(RegionSeed(ms[0]), ms);
  }

  /**
    The totals are sums over `regionsArray`, and so over every regional
    slice of every campaign: grouping loses and duplicates nothing.
    `regionCount` is the number of rows.
   */
  lemma RegionTotalsPartition(cs: seq<Campaign>, m: Metric)
    ensures var r := RegionReport(cs, m);
      && r.totalRevenue == Sum(r.regionsArray, RowRevenue) == Sum(RegionSlices(cs), SliceRevenue)
      && r.totalSpend == Sum(r.regionsArray, RowSpend) == Sum(RegionSlices(cs), SliceSpend)
      && r.totalImpressions == Total(r.regionsArray, RowImpressions) == Total(RegionSlices(cs), SliceImpressions)
      && r.totalConversions == Total(r.regionsArray, RowConversions) == Total(RegionSlices(cs), SliceConversions)
      && r.regionCount == |r.regionsArray|
  {
    RegionImpressions(cs, m);
    RegionConversions(cs, m);
    var xs := RegionSlices(cs);
    var o := GroupRegions(xs);
    GroupByValid(xs, RegionKey, RegionSeed, AddRegion);
    SumRows(o.keys, o.vals, RowMaker(m), RowRevenue, TotalsRevenue);
    SumRows(o.keys, o.vals, RowMaker(m), RowSpend, TotalsSpend);
    GroupBySum(xs, RegionKey, RegionSeed, AddRegion, TotalsRevenue, SliceRevenue);
    GroupBySum(xs, RegionKey, RegionSeed, AddRegion, TotalsSpend, SliceSpend);
  }

  /** The impressions of the rows add up to those of every regional slice. */
  lemma RegionImpressions(cs: seq<Campaign>, m: Metric)
    ensures Total(RegionRows(cs, m), RowImpressions) == Total(RegionSlices(cs), SliceImpressions)
  {
    var xs := RegionSlices(cs);
    var o := GroupRegions(xs);
    GroupByValid(xs, RegionKey, RegionSeed, AddRegion);
    TotalAsSum(RegionRows(cs, m), RowImpressions);
    forall k, t ensures AsReal(RowImpressions)(RowMaker(m)(k, t)) == TotalsImpressions(t) {
      var r := RowMaker(m)(k, t);
      assert r.impressions == t.impressions;
      assert AsReal(RowImpressions)(r) == RowImpressions(r) as real;
    }
    forall t, x ensures TotalsImpressions(AddRegion(t, x)) == TotalsImpressions(t) + AsReal(SliceImpressions)(x) {
      assert AddRegion(t, x).impressions == t.impressions + x.impressions;
      assert AsReal(SliceImpressions)(x) == x.impressions as real;
    }
    SumRows(o.keys, o.vals, RowMaker(m), AsReal(RowImpressions), TotalsImpressions);
    GroupBySum(xs, RegionKey, RegionSeed, AddRegion, TotalsImpressions, AsReal(SliceImpressions));
    TotalAsSum(xs, SliceImpressions);
  }

  /** The conversions of the rows add up to those of every regional slice. */
  lemma RegionConversions(cs: seq<Campaign>, m: Metric)
    ensures Total(RegionRows(cs, m), RowConversions) == Total(RegionSlices(cs), SliceConversions)
  {
    var xs := RegionSlices(cs);
    var o := GroupRegions(xs);
    GroupByValid(xs, RegionKey, RegionSeed, AddRegion);
    TotalAsSum(RegionRows(cs, m), RowConversions);
    forall k, t ensures AsReal(RowConversions)(RowMaker(m)(k, t)) == TotalsConversions(t) {
      var r := RowMaker(m)(k, t);
      assert r.conversions == t.conversions;
      assert AsReal(RowConversions)(r) == RowConversions(r) as real;
    }
    forall t, x ensures TotalsConversions(AddRegion(t, x)) == TotalsConversions(t) + AsReal(SliceConversions)(x) {
      assert AddRegion(t, x).conversions == t.conversions + x.conversions;
      assert AsReal(SliceConversions)(x) == x.conversions as real;
    }
    SumRows(o.keys, o.vals, RowMaker(m), AsReal(RowConversions), TotalsConversions);
    GroupBySum(xs, RegionKey, RegionSeed, AddRegion, TotalsConversions, AsReal(SliceConversions));
    TotalAsSum(xs, SliceConversions);
  }
}
