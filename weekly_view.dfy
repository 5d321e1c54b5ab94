/**
  The weekly page's `weeklyMetrics` memo (app/weekly-view/page.tsx): group
  every campaign's weekly slices by `week_start`, order the weeks by calendar
  date, build the revenue and spend series, total them, and find the
  highest week of a series.

  Two library calls are parameters: `time(k)` is `new Date(k).getTime()` and
  `dateLabel(k)` is the short month/day text `toLocaleDateString` gives for the
  week starting at `k`.
 */
module WeeklyView {
  import opened Wrappers
  import opened Ratios
  import opened Folds
  import opened JsObjects
  import opened StableSort
  import opened Campaigns

  /** An entry of `weeklyData`. */
  datatype WeekTotals = WeekTotals(spend: real, revenue: real, impressions: nat, clicks: nat)

  /** An element of `sortedWeeks`. */
  datatype Week = Week(date: string, spend: real, revenue: real, impressions: nat, clicks: nat,
                       formattedDate: string)

  /** A point of a line-chart series. */
  datatype SeriesPoint = SeriesPoint(caption: string, value: real)

  datatype WeeklyMetrics = WeeklyMetrics(
    totalSpend: real,
    totalRevenue: real,
    totalImpressions: nat,
    totalClicks: nat,
    averageROAS: real,
    revenueByWeek: seq<SeriesPoint>,
    spendByWeek: seq<SeriesPoint>,
    weekCount: nat)

  function WeekKey(w: WeekSlice): (r: string) { w.weekStart }
  function SliceSpend(w: WeekSlice): (r: real) { w.spend }
  function SliceRevenue(w: WeekSlice): (r: real) { w.revenue }
  function SliceImpressions(w: WeekSlice): (r: nat) { w.impressions }
  function SliceClicks(w: WeekSlice): (r: nat) { w.clicks }

  function WeekSeed(w: WeekSlice): (r: WeekTotals)
  {
    WeekTotals(0.0, 0.0, 0, 0)
  }

  /** The four `+=` of the accumulation loop. */
  function AddWeek(t: WeekTotals, w: WeekSlice): (r: WeekTotals)
  {
    WeekTotals(t.spend + w.spend, t.revenue + w.revenue, t.impressions + w.impressions, t.clicks + w.clicks)
  }

  /** Every campaign's `weekly_performance`, campaign by campaign. */
  function WeekSlices(cs: seq<Campaign>): (r: seq<WeekSlice>)
    decreases |cs|
  {
    if cs == [] then [] else WeekSlices(Init(cs)) + Last(cs).weeklyPerformance
  }

  function GroupWeeks(xs: seq<WeekSlice>): (r: Obj<WeekTotals>)
  {
    GroupBy(xs, WeekKey, WeekSeed, AddWeek)
  }

  /** The sort key of `(a, b) => new Date(a[0]).getTime() - new Date(b[0]).getTime()`. */
  function DateKey(time: string -> int): (r: ((string, WeekTotals)) -> real)
  {
    (e: (string, WeekTotals)) => time(e.0) as real
  }

  function WeekMaker(dateLabel: string -> string): (r: ((string, WeekTotals)) -> Week)
  {
    (e: (string, WeekTotals)) => Week(e.0, e.1.spend, e.1.revenue, e.1.impressions, e.1.clicks, dateLabel(e.0))
  }

  /** `Object.entries(weeklyData).sort(by date)`, before the `.map` that adds the label. */
  function SortedEntries(o: Obj<WeekTotals>, time: string -> int): (r: seq<(string, WeekTotals)>)
    requires Valid(o)
  {
    SortBy(Entries(o), DateKey(time))
  }

  function SortedWeeks(o: Obj<WeekTotals>, time: string -> int, dateLabel: string -> string): (r: seq<Week>)
    requires Valid(o)
  {
    Map(SortedEntries(o, time), WeekMaker(dateLabel))
  }

  function RevenuePoint(w: Week): (r: SeriesPoint) { SeriesPoint(w.formattedDate, w.revenue) }
  function SpendPoint(w: Week): (r: SeriesPoint) { SeriesPoint(w.formattedDate, w.spend) }
  function WeekSpend(w: Week): (r: real) { w.spend }
  function WeekRevenue(w: Week): (r: real) { w.revenue }
  function WeekImpressions(w: Week): (r: nat) { w.impressions }
  function WeekClicks(w: Week): (r: nat) { w.clicks }

  /** The memo's result, computed from the grouped object. */
  function Derive(o: Obj<WeekTotals>, time: string -> int, dateLabel: string -> string): (r: WeeklyMetrics)
    requires Valid(o)
  {
    var weeks := SortedWeeks(o, time, dateLabel);
    var totalSpend := Sum(weeks, WeekSpend);
    var totalRevenue := Sum(weeks, WeekRevenue);
    WeeklyMetrics(totalSpend, totalRevenue, Total(weeks, WeekImpressions), Total(weeks, WeekClicks),
                  SafeDiv(totalRevenue, totalSpend),
                  Map(weeks, RevenuePoint), Map(weeks, SpendPoint),
                  |weeks|)
  }

  /** What `weeklyMetrics` holds for a present `campaigns` array. */
  function WeeklyReport(cs: seq<Campaign>, time: string -> int, dateLabel: string -> string): (r: WeeklyMetrics)
  {
    GroupByValid(WeekSlices(cs), WeekKey, WeekSeed, AddWeek);
    Derive(GroupWeeks(WeekSlices(cs)), time, dateLabel)
  }

  /**
    The memo: `null` without campaigns; otherwise the nested `forEach` loops
    create each week's entry on first sight and add every slice to it.
   */
  method WeeklyMetricsOf(campaigns: Option<seq<Campaign>>, time: string -> int, dateLabel: string -> string)
    returns (r: Option<WeeklyMetrics>)
    ensures r == if campaigns.None? then None else Some(WeeklyReport(campaigns.value, time, dateLabel))
  {
    if campaigns.None? {
      return None;
    }
    var cs := campaigns.value;
    var weeklyData: Obj<WeekTotals> := Empty();
    for i := 0 to |cs|
      invariant weeklyData == GroupWeeks(WeekSlices(cs[..i]))
    {
      var slices := cs[i].weeklyPerformance;
      ghost var before := WeekSlices(cs[..i]);
      assert before + slices[..0] == before;
      for j := 0 to |slices|
        invariant weeklyData == GroupWeeks(before + slices[..j])
      {
        weeklyData := AddWeekSlice(before + slices[..j], weeklyData, slices[j]);
        TakeSnoc(before, slices, j);
      }
      TakeSnoc([], cs, i);
      assert slices[..|slices|] == slices;
    }
    assert cs[..|cs|] == cs;
    GroupByValid(WeekSlices(cs), WeekKey, WeekSeed, AddWeek);
    r := Some(Derive(weeklyData, time, dateLabel));
  }

  /**
    The inner `forEach` callback: create the week's entry on first sight,
    then add the slice to it.
   */
  method AddWeekSlice(ghost xs: seq<WeekSlice>, weeklyData: Obj<WeekTotals>, week: WeekSlice)
    returns (data: Obj<WeekTotals>)
    requires weeklyData == GroupWeeks(xs)
    ensures data == GroupWeeks(xs + [week])
  {
    var weekKey := week.weekStart;
    data := weeklyData;
    if weekKey !in data.vals {
      data := Obj(data.keys + [weekKey], data.vals[weekKey := WeekSeed(week)]);
    }
    data := data.(vals := data.vals[weekKey := AddWeek(data.vals[weekKey], week)]);
    assert Init(xs + [week]) == xs && Last(xs + [week]) == week;
  }

  /**
    The highest-week scan `series.reduce((max, w) => w.value > max.value ? w : max)`:
    the index of a point whose value no point exceeds, and the first such,
    because a later point replaces the pick only when strictly greater.
    `reduce` without an initial value throws on an empty array, hence the
    precondition.
   */
  function HighestIndex(series: seq<SeriesPoint>): (k: nat)
    requires |series| > 0
    ensures k < |series|
    ensures forall j :: 0 <= j < |series| ==> series[j].value <= series[k].value
    ensures forall j :: 0 <= j < k ==> series[j].value < series[k].value
    decreases |series|
  {
    if |series| == 1 then 0
    else
      var m := HighestIndex(Init(series));
      if Last(series).value > series[m].value then |series| - 1 else m
  }

  /**
    The highest-week pick as the insight panel evidently intends it: no
    week when the series is empty (where the `reduce` as written throws),
    otherwise the first week of greatest value.
   */
  function HighestWeek(series: seq<SeriesPoint>): (k: Option<nat>)
    ensures k.None? <==> series == []
    ensures k.Some? ==> k.value < |series|
    ensures k.Some? ==> forall j :: 0 <= j < |series| ==> series[j].value <= series[k.value].value
    ensures k.Some? ==> forall j :: 0 <= j < k.value ==> series[j].value < series[k.value].value
  {
    if series == [] then None else Some(HighestIndex(series))
  }

  /** Adding slices to an entry adds their sums. */
  lemma {:induction false} FoldWeek(t: WeekTotals, xs: seq<WeekSlice>)
    ensures FoldFrom(t, AddWeek, xs)
         == WeekTotals(t.spend + Sum(xs, SliceSpend), t.revenue + Sum(xs, SliceRevenue),
                       t.impressions + Total(xs, SliceImpressions), t.clicks + Total(xs, SliceClicks))
    decreases |xs|
  {
    if xs != [] {
      FoldWeek(t, Init(xs));
    }
  }

  /**
    The weeks are the grouped entries reordered by ascending calendar date:
    a permutation, sorted, and stable, so weeks whose dates parse to the
    same instant keep first-seen order.
   */
  lemma WeeksSortedByDate(cs: seq<Campaign>, time: string -> int)
    ensures var o := GroupWeeks(WeekSlices(cs));
      Valid(o) &&
      var sorted := SortedEntries(o, time);
      && multiset(sorted) == multiset(Entries(o))
      && |sorted| == |o.keys|
      && (forall i, j :: 0 <= i < j < |sorted| ==> time(sorted[i].0) <= time(sorted[j].0))
      && (forall c :: KeyClass(sorted, DateKey(time), c) == KeyClass(Entries(o), DateKey(time), c))
  {
    var o := GroupWeeks(WeekSlices(cs));
    GroupByValid(WeekSlices(cs), WeekKey, WeekSeed, AddWeek);
    var sorted := SortedEntries(o, time);
    assert sorted == SortBy(Entries(o), DateKey(time));
    SortBySorted(Entries(o), DateKey(time));
    forall c ensures KeyClass(sorted, DateKey(time), c) == KeyClass(Entries(o), DateKey(time), c) {
      SortByStable(Entries(o), DateKey(time), c);
    }
  }

  /** There is one week per distinct `week_start` that occurs among the slices. */
  lemma WeekKeysPresent(cs: seq<Campaign>)
    ensures var xs := WeekSlices(cs);
      var o := GroupWeeks(xs);
      forall k :: k in o.keys <==> Matching(xs, WeekKey, k) != []
  {
    var xs := WeekSlices(cs);
    GroupByValid(xs, WeekKey, WeekSeed, AddWeek);
    forall k ensures k in GroupWeeks(xs).keys <==> Matching(xs, WeekKey, k) != [] {
      GroupByMeaning(xs, WeekKey, WeekSeed, AddWeek, k);
    }
  }

  /** Each sorted week sums exactly the slices that carry its key. */
  lemma SortedWeekTotals(cs: seq<Campaign>, time: string -> int, i: nat)
    requires i < |GroupWeeks(WeekSlices(cs)).keys|
    ensures var xs := WeekSlices(cs);
      var o := GroupWeeks(xs);
      Valid(o) &&
      var sorted := SortedEntries(o, time);
      i < |sorted| &&
      var ms := Matching(xs, WeekKey, sorted[i].0);
      && ms != []
      && sorted[i].1 == WeekTotals(Sum(ms, SliceSpend), Sum(ms, SliceRevenue),
                                   Total(ms, SliceImpressions), Total(ms, SliceClicks))
  {
    var xs := WeekSlices(cs);
    var o := GroupWeeks(xs);
    GroupByValid(xs, WeekKey, WeekSeed, AddWeek);
    var sorted := SortedEntries(o, time);
    SortBySorted(Entries(o), DateKey(time));
    assert sorted[i] in multiset(Entries(o));
    var e := sorted[i];
    var p :| 0 <= p < |o.keys| && Entries(o)[p] == e;
    GroupByMeaning(xs, WeekKey, WeekSeed, AddWeek, e.0);
    var ms := Matching(xs, WeekKey, e.0);
    FoldWeek(WeekSeed(ms[0]), ms);
  }

  /**
    The two series follow the sorted weeks point for point: same length as
    `weekCount`, same order, each value that week's revenue (or spend) and
    each label that week's label.
   */
  lemma SeriesFollowWeeks(cs: seq<Campaign>, time: string -> int, dateLabel: string -> string)
    ensures var r := WeeklyReport(cs, time, dateLabel);
      var o := GroupWeeks(WeekSlices(cs));
      Valid(o) &&
      var sorted := SortedEntries(o, time);
      && r.weekCount == |r.revenueByWeek| == |r.spendByWeek| == |sorted| == |o.keys|
      && (forall i :: 0 <= i < |sorted| ==>
            && r.revenueByWeek[i] == SeriesPoint(dateLabel(sorted[i].0), sorted[i].1.revenue)
            && r.spendByWeek[i] == SeriesPoint(dateLabel(sorted[i].0), sorted[i].1.spend))
  {
    GroupByValid(WeekSlices(cs), WeekKey, WeekSeed, AddWeek);
  }

  function EntrySpend(e: (string, WeekTotals)): (r: real) { e.1.spend }
  function EntryRevenue(e: (string, WeekTotals)): (r: real) { e.1.revenue }
  function TotalsSpend(t: WeekTotals): (r: real) { t.spend }
  function TotalsRevenue(t: WeekTotals): (r: real) { t.revenue }
  function EntryImpressions(e: (string, WeekTotals)): (r: real) { e.1.impressions as real }
  function EntryClicks(e: (string, WeekTotals)): (r: real) { e.1.clicks as real }
  function TotalsImpressions(t: WeekTotals): (r: real) { t.impressions as real }
  function TotalsClicks(t: WeekTotals): (r: real) { t.clicks as real }

  /**
    Total spend and revenue are the sums over every weekly slice of every
    campaign, and `averageROAS` is their zero-guarded quotient.
   */
  lemma WeeklyTotals(cs: seq<Campaign>, time: string -> int, dateLabel: string -> string)
    ensures var r := WeeklyReport(cs, time, dateLabel);
      && r.totalSpend == Sum(WeekSlices(cs), SliceSpend)
      && r.totalRevenue == Sum(WeekSlices(cs), SliceRevenue)
      && r.totalImpressions == Total(WeekSlices(cs), SliceImpressions)
      && r.totalClicks == Total(WeekSlices(cs), SliceClicks)
      && r.averageROAS == SafeDiv(r.totalRevenue, r.totalSpend)
  {
    WeeklyImpressions(cs, time, dateLabel);
    WeeklyClicks(cs, time, dateLabel);
    var xs := WeekSlices(cs);
    var o := GroupWeeks(xs);
    GroupByValid(xs, WeekKey, WeekSeed, AddWeek);
    var sorted := SortedEntries(o, time);
    SumMap(sorted, WeekMaker(dateLabel), WeekSpend, EntrySpend);
    SumMap(sorted, WeekMaker(dateLabel), WeekRevenue, EntryRevenue);
    SortBySum(Entries(o), DateKey(time), EntrySpend);
    SortBySum(Entries(o), DateKey(time), EntryRevenue);
    SumRows(o.keys, o.vals, Pair, EntrySpend, TotalsSpend);
    SumRows(o.keys, o.vals, Pair, EntryRevenue, TotalsRevenue);
    GroupBySum(xs, WeekKey, WeekSeed, AddWeek, TotalsSpend, SliceSpend);
    GroupBySum(xs, WeekKey, WeekSeed, AddWeek, TotalsRevenue, SliceRevenue);
  }

  lemma WeeklyImpressions(cs: seq<Campaign>, time: string -> int, dateLabel: string -> string)
    ensures WeeklyReport(cs, time, dateLabel).totalImpressions == Total(WeekSlices(cs), SliceImpressions)
  {
    var xs := WeekSlices(cs);
    var o := GroupWeeks(xs);
    GroupByValid(xs, WeekKey, WeekSeed, AddWeek);
    TotalAsSum(SortedWeeks(o, time, dateLabel), WeekImpressions);
    SumMap(SortedEntries(o, time), WeekMaker(dateLabel), AsReal(WeekImpressions), EntryImpressions);
    SortBySum(Entries(o), DateKey(time), EntryImpressions);
    SumRows(o.keys, o.vals, Pair, EntryImpressions, TotalsImpressions);
    GroupBySum(xs, WeekKey, WeekSeed, AddWeek, TotalsImpressions, AsReal(SliceImpressions));
    TotalAsSum(xs, SliceImpressions);
  }

  lemma WeeklyClicks(cs: seq<Campaign>, time: string -> int, dateLabel: string -> string)
    ensures WeeklyReport(cs, time, dateLabel).totalClicks == Total(WeekSlices(cs), SliceClicks)
  {
    var xs := WeekSlices(cs);
    var o := GroupWeeks(xs);
    GroupByValid(xs, WeekKey, WeekSeed, AddWeek);
    TotalAsSum(SortedWeeks(o, time, dateLabel), WeekClicks);
    SumMap(SortedEntries(o, time), WeekMaker(dateLabel), AsReal(WeekClicks), EntryClicks);
    SortBySum(Entries(o), DateKey(time), EntryClicks);
    SumRows(o.keys, o.vals, Pair, EntryClicks, TotalsClicks);
    GroupBySum(xs, WeekKey, WeekSeed, AddWeek, TotalsClicks, AsReal(SliceClicks));
    TotalAsSum(xs, SliceClicks);
  }

  lemma {:induction false} NoWeeklySlices(cs: seq<Campaign>)
    requires forall i :: 0 <= i < |cs| ==> cs[i].weeklyPerformance == []
    ensures WeekSlices(cs) == []
    decreases |cs|
  {
    if cs != [] {
      NoWeeklySlices(Init(cs));
    }
  }

  /**
    Campaigns present but without weekly data give empty series, so the
    page's `reduce` with no initial value has nothing to start from: the
    precondition of `HighestIndex` fails and the insight panel throws.
   */
  lemma EmptySeriesWithCampaigns(cs: seq<Campaign>, time: string -> int, dateLabel: string -> string)
    requires forall i :: 0 <= i < |cs| ==> cs[i].weeklyPerformance == []
    ensures var r := WeeklyReport(cs, time, dateLabel);
      r.revenueByWeek == [] && r.spendByWeek == [] && r.weekCount == 0
      && HighestWeek(r.revenueByWeek).None? && HighestWeek(r.spendByWeek).None?
  {
    NoWeeklySlices(cs);
    assert GroupWeeks([]) == Empty();
  }
}
