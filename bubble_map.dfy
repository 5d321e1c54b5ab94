/**
  The bubble map's data logic (src/components/ui/bubble-map.tsx): join the
  rows to a fixed table of city coordinates, keep the rows that end up with
  coordinates, pick each row's plotted value, and scale that value to a
  bubble radius and a colour bucket between the smallest and the largest
  plotted value. The map widgets themselves are not part of this model.
 */
module BubbleMap {
  import opened Wrappers
  import opened Folds
  import opened Campaigns
  import RegionView

  /**
    A data point: the optional fields are `undefined` when absent. `None`
    and `Some(0.0)` are both falsy, which is all the source asks of them.
   */
  datatype Point = Point(
    region: string,
    country: string,
    value: real,
    revenue: Option<real>,
    spend: Option<real>,
    impressions: Option<real>,
    clicks: Option<real>,
    conversions: Option<real>,
    lat: Option<real>,
    lng: Option<real>)

  datatype Coordinates = Coordinates(lat: real, lng: real)

  datatype Color = Red | Amber | Green

  /** A drawn circle: the enriched point, its plotted value, radius and colour. */
  datatype Bubble = Bubble(point: Point, value: real, radius: real, color: Color)

  /** What the component shows: the "No data available" panel or the map with its bubbles. */
  datatype View = NoData | MapView(bubbles: seq<Bubble>)

  /** `cityCoordinates` */
  function CityCoordinates(): (r: map<string, Coordinates>)
  {
    map["Abu Dhabi" := Coordinates(24.4539, 54.3773),
        "Dubai" := Coordinates(25.2048, 55.2708),
        "Sharjah" := Coordinates(25.3463, 55.4209),
        "Riyadh" := Coordinates(24.7136, 46.6753),
        "Doha" := Coordinates(25.2854, 51.531),
        "Kuwait City" := Coordinates(29.3759, 47.9774),
        "Manama" := Coordinates(26.2285, 50.586)]
  }

  /** `{ ...d, ...(cityCoordinates[d.region] || {}) }`: the table's coordinates win over the row's own. */
  function Merge(d: Point): (r: Point)
  {
    var table := CityCoordinates();
    if d.region in table then d.(lat := Some(table[d.region].lat), lng := Some(table[d.region].lng)) else d
  }

  /** JavaScript truthiness of an optional number (NaN is not modelled). */
  predicate Truthy(x: Option<real>)
  {
    x.Some? && x.value != 0.0
  }

  /** `d.lat && d.lng` */
  predicate HasCoordinates(d: Point)
  {
    Truthy(d.lat) && Truthy(d.lng)
  }

  /** `enriched` */
  function Enrich(data: seq<Point>): (r: seq<Point>)
  {
    Filter(Map(data, Merge), HasCoordinates)
  }

  /** `d[metric]` */
  function Field(d: Point, m: Metric): (r: Option<real>)
  {
    match m
    case Revenue => d.revenue
    case Spend => d.spend
    case Impressions => d.impressions
    case Clicks => d.clicks
    case Conversions => d.conversions
  }

  /** `d[metric] || d.value`: the metric's field unless it is absent or zero. */
  function PlotValue(d: Point, m: Metric): (v: real)
  {
    if Truthy(Field(d, m)) then Field(d, m).value else d.value
  }

  function Plotter(m: Metric): (r: Point -> real)
  {
    d => PlotValue(d, m)
  }

  /**
    The plotted value is the metric's own field or the point's `value`, and
    it is zero only when both are: the fallback never turns a non-zero
    reading into a zero one.
   */
  lemma PlotValueFallback(d: Point, m: Metric)
    ensures var v := PlotValue(d, m);
      && (Field(d, m) == Some(v) || v == d.value)
      && (v == 0.0 <==> !Truthy(Field(d, m)) && d.value == 0.0)
  {
  }

  /** `Math.max(...values)` on a non-empty list. */
  function MaxOf(xs: seq<real>): (hi: real)
    requires xs != []
    ensures hi in xs
    ensures forall i :: 0 <= i < |xs| ==> xs[i] <= hi
    decreases |xs|
  {
    if |xs| == 1 then xs[0]
    else
      var m := MaxOf(Init(xs));
      if Last(xs) > m then Last(xs) else m
  }

  /** `Math.min(...values)` on a non-empty list. */
  function MinOf(xs: seq<real>): (lo: real)
    requires xs != []
    ensures lo in xs
    ensures forall i :: 0 <= i < |xs| ==> lo <= xs[i]
    decreases |xs|
  {
    if |xs| == 1 then xs[0]
    else
      var m := MinOf(Init(xs));
      if Last(xs) < m then Last(xs) else m
  }

  /**
    `getRadius`: 10 when all values are equal, otherwise 6 plus 25 times the
    value's position between the smallest and the largest value.
   */
  function Radius(v: real, lo: real, hi: real): (r: real)
    ensures hi == lo ==> r == 10.0
    ensures hi != lo ==> (r - 6.0) * (hi - lo) == 25.0 * (v - lo)
  {
    if hi == lo then 10.0 else 6.0 + (v - lo) / (hi - lo) * 25.0
  }

  /**
    `getColor`: red above 70% of the range, amber above 40%, green
    otherwise. With no range (`hi == lo`) the division is by zero: a value
    equal to `lo` gives NaN, which no comparison accepts, so green; a value
    above gives +Infinity, so red; a value below gives -Infinity, so green.
   */
  function ColorOf(v: real, lo: real, hi: real): (c: Color)
    ensures lo < hi ==> (c == Red <==> v - lo > 0.7 * (hi - lo))
    ensures lo < hi ==> (c == Amber <==> 0.4 * (hi - lo) < v - lo <= 0.7 * (hi - lo))
    ensures lo < hi ==> (c == Green <==> v - lo <= 0.4 * (hi - lo))
    ensures lo == hi ==> (c == Red <==> v > lo)
    ensures lo == hi ==> (c == Green <==> v <= lo)
  {
    if hi == lo then (if v > lo then Red else Green)
    else
      var normalized := (v - lo) / (hi - lo);
      var c := if normalized > 0.7 then Red else if normalized > 0.4 then Amber else Green;
      if lo < hi then
        DivCompare(v - lo, hi - lo, 0.7);
        DivCompare(v - lo, hi - lo, 0.4);
        c
      else c
  }

  /** Comparing a quotient with a threshold is comparing the dividend with the scaled threshold. */
  lemma DivCompare(x: real, d: real, t: real)
    requires d > 0.0
    ensures x / d > t <==> x > t * d
    ensures x / d <= t <==> x <= t * d
  {
    var q := x / d;
    assert q * d == x;
    if q > t {
      assert (q - t) * d > 0.0;
    } else {
      assert (t - q) * d >= 0.0;
    }
  }

  function Draw(d: Point, lo: real, hi: real, m: Metric): (r: Bubble)
  {
    var v := PlotValue(d, m);
    Bubble(d, v, Radius(v, lo, hi), ColorOf(v, lo, hi))
  }

  function Drawer(lo: real, hi: real, m: Metric): (r: Point -> Bubble)
  {
    d => Draw(d, lo, hi, m)
  }

  /** The bubbles for the enriched points: none when no point has coordinates. */
  function Bubbles(enriched: seq<Point>, m: Metric): (r: seq<Bubble>)
  {
    if enriched == [] then []
    else
      var values := Map(enriched, Plotter(m));
      Map(enriched, Drawer(MinOf(values), MaxOf(values), m))
  }

  /** The component: `!data || data.length === 0` shows the empty panel, anything else the map. */
  function Render(data: Option<seq<Point>>, m: Metric): (view: View)
    ensures view.NoData? <==> data.None? || data.value == []
  {
    if data.None? || data.value == [] then NoData else MapView(Bubbles(Enrich(data.value), m))
  }

  /**
    `enriched` keeps, in order, the merged rows that have coordinates after
    the merge: each kept row is its input row with only `lat` and `lng`
    possibly replaced, by the table's when its region is a known city.
   */
  lemma EnrichMeaning(data: seq<Point>)
    ensures var kept := Kept(Map(data, Merge), HasCoordinates);
      var e := Enrich(data);
      && |e| == |kept|
      && (forall i, j :: 0 <= i < j < |kept| ==> kept[i] < kept[j])
      && (forall i :: 0 <= i < |kept| ==> kept[i] < |data| && e[i] == Merge(data[kept[i]]))
      && (forall j :: 0 <= j < |data| ==> (j in kept <==> HasCoordinates(Merge(data[j]))))
  {
    FilterExactly(Map(data, Merge), HasCoordinates);
  }

  /**
    A merged row differs from its input only in `lat` and `lng`; a row of a
    known city is kept with that city's coordinates, and a row of any other
    region is kept exactly when it carries non-zero coordinates of its own.
   */
  lemma MergeMeaning(d: Point)
    ensures var e := Merge(d);
      && e.(lat := d.lat, lng := d.lng) == d
      && (d.region in CityCoordinates() ==>
            e.lat == Some(CityCoordinates()[d.region].lat) && e.lng == Some(CityCoordinates()[d.region].lng)
            && HasCoordinates(e))
      && (d.region !in CityCoordinates() ==> e == d && (HasCoordinates(e) <==> HasCoordinates(d)))
  {
  }

  /**
    Rows without coordinates of their own, such as the regional page's
    rows, survive exactly when their region is one of the seven cities.
   */
  lemma UnknownRegionsDropped(data: seq<Point>)
    requires forall j :: 0 <= j < |data| ==> data[j].lat.None? && data[j].lng.None?
    ensures var kept := Kept(Map(data, Merge), HasCoordinates);
      forall j :: 0 <= j < |data| ==> (j in kept <==> data[j].region in CityCoordinates())
  {
    EnrichMeaning(data);
    forall j | 0 <= j < |data|
      ensures HasCoordinates(Merge(data[j])) <==> data[j].region in CityCoordinates()
    {
      MergeMeaning(data[j]);
    }
  }

  /** Within the range of values a radius lies in [6, 31], growing with the value. */
  lemma RadiusBounds(v: real, w: real, lo: real, hi: real)
    requires lo <= v <= hi && lo <= w <= hi
    ensures 6.0 <= Radius(v, lo, hi) <= 31.0
    ensures lo < hi && v <= w ==> Radius(v, lo, hi) <= Radius(w, lo, hi)
    ensures lo < hi ==> Radius(lo, lo, hi) == 6.0 && Radius(hi, lo, hi) == 31.0
  {
    if lo < hi {
      var d := hi - lo;
      DivCompare(v - lo, d, 1.0);
      DivCompare(v - lo, d, 0.0);
      DivCompare(w - lo, d, (v - lo) / d);
      assert (v - lo) / d * d == v - lo;
      assert (hi - lo) / d == 1.0;
    }
  }

  /**
    Every drawn bubble plots its own point's value, which lies between the
    smallest and largest plotted value, so its radius is within [6, 31];
    when every value is the same all bubbles have radius 10 and are green.
   */
  lemma BubblesInRange(enriched: seq<Point>, m: Metric)
    ensures var bs := Bubbles(enriched, m);
      && |bs| == |enriched|
      && (forall i :: 0 <= i < |bs| ==>
            && bs[i].point == enriched[i]
            && bs[i].value == PlotValue(enriched[i], m)
            && 6.0 <= bs[i].radius <= 31.0)
      && (enriched != [] ==>
            var values := Map(enriched, Plotter(m));
            MinOf(values) == MaxOf(values) ==>
              forall i :: 0 <= i < |bs| ==> bs[i].radius == 10.0 && bs[i].color == Green)
  {
    if enriched != [] {
      var values := Map(enriched, Plotter(m));
      var lo, hi := MinOf(values), MaxOf(values);
      forall i | 0 <= i < |enriched|
        ensures 6.0 <= Radius(values[i], lo, hi) <= 31.0
        ensures lo == hi ==> ColorOf(values[i], lo, hi) == Green
      {
        RadiusBounds(values[i], values[i], lo, hi);
      }
    }
  }

  /** The point the regional page hands to the map for one of its rows. */
  function PointOf(row: RegionView.RegionRow): (r: Point)
  {
    Point(row.region, row.country, row.value,
          Some(row.revenue), Some(row.spend), Some(row.impressions as real),
          Some(row.clicks as real), Some(row.conversions as real), None, None)
  }

  /**
    For the regional page's rows the fallback never changes anything: the
    plotted value is the row's `value`, the selected metric itself.
   */
  lemma RegionRowsPlotValue(row: RegionView.RegionRow, m: Metric)
    requires row.value == RegionView.Selected(
               RegionView.RegionTotals(row.country, row.impressions, row.clicks, row.conversions,
                                       row.spend, row.revenue), m)
    ensures PlotValue(PointOf(row), m) == row.value
  {
  }
}
