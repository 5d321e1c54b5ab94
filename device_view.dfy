/**
  The device page's `deviceMetrics` memo (app/device-view/page.tsx): a
  table of running sums with exactly the keys Mobile, Desktop and Tablet,
  one record per campaign with that campaign's latest numbers per device,
  the per-device rows with their guarded ratios, the totals, and the
  revenue shares of Mobile and Desktop.
 */
module DeviceView {
  import opened Wrappers
  import opened Ratios
  import opened Folds
  import opened JsObjects
  import opened Campaigns

  /** An entry of `deviceData`. */
  datatype DeviceTotals = DeviceTotals(
    impressions: nat,
    clicks: nat,
    conversions: nat,
    spend: real,
    revenue: real,
    campaigns: nat)

  /** One device's numbers inside a per-campaign record. */
  datatype DeviceCell = DeviceCell(revenue: real, spend: real, conversions: nat, roas: real)

  /** A `campaignDeviceData` record: the campaign and its cell per device name. */
  datatype CampaignDevices = CampaignDevices(
    campaignName: string,
    campaignId: string,
    medium: string,
    cells: map<string, DeviceCell>)

  /** An element of `devicesArray`. */
  datatype DeviceRow = DeviceRow(
    device: string,
    impressions: nat,
    clicks: nat,
    conversions: nat,
    spend: real,
    revenue: real,
    campaigns: nat,
    ctr: real,
    conversionRate: real,
    roas: real,
    avgRevenuePerCampaign: real)

  datatype DeviceMetrics = DeviceMetrics(
    devicesArray: seq<DeviceRow>,
    campaignPerformance: seq<CampaignDevices>,
    totalRevenue: real,
    totalSpend: real,
    totalConversions: nat,
    totalClicks: nat,
    mobileShare: real,
    desktopShare: real)

  /** The keys of the `deviceData` literal, in the order `Object.entries` lists them. */
  const DeviceNames: seq<string> := ["Mobile", "Desktop", "Tablet"]

  function Zero(): (r: DeviceTotals)
  {
    DeviceTotals(0, 0, 0, 0.0, 0.0, 0)
  }

  function InitialTable(): (r: map<string, DeviceTotals>)
  {
    map["Mobile" := Zero(), "Desktop" := Zero(), "Tablet" := Zero()]
  }

  function ZeroCell(): (r: DeviceCell)
  {
    DeviceCell(0.0, 0.0, 0, 0.0)
  }

  function InitialCells(): (r: map<string, DeviceCell>)
  {
    map["Mobile" := ZeroCell(), "Desktop" := ZeroCell(), "Tablet" := ZeroCell()]
  }

  function DeviceName(s: DeviceSlice): (r: string) { s.device }

  /** `deviceData[device.device]` is an entry: the slice names one of the three devices. */
  predicate Known(s: DeviceSlice)
  {
    s.device in InitialTable()
  }

  function SliceImpressions(s: DeviceSlice): (r: nat) { s.impressions }
  function SliceClicks(s: DeviceSlice): (r: nat) { s.clicks }
  function SliceConversions(s: DeviceSlice): (r: nat) { s.conversions }
  function SliceSpend(s: DeviceSlice): (r: real) { s.spend }
  function SliceRevenue(s: DeviceSlice): (r: real) { s.revenue }

  /** The five `+=` and the `campaigns++` of the accumulation loop. */
  function AddDevice(t: DeviceTotals, s: DeviceSlice): (r: DeviceTotals)
  {
    DeviceTotals(t.impressions + s.impressions, t.clicks + s.clicks, t.conversions + s.conversions,
                 t.spend + s.spend, t.revenue + s.revenue, t.campaigns + 1)
  }

  /** One slice's effect on the table: only a slice naming an existing entry touches it. */
  function Tally(table: map<string, DeviceTotals>, s: DeviceSlice): (r: map<string, DeviceTotals>)
  {
    if s.device in table then table[s.device := AddDevice(table[s.device], s)] else table
  }

  /** Every campaign's `device_performance`, campaign by campaign. */
  function DeviceSlices(cs: seq<Campaign>): (r: seq<DeviceSlice>)
    decreases |cs|
  {
    if cs == [] then [] else DeviceSlices(Init(cs)) + Last(cs).devicePerformance
  }

  /** `deviceData` after the loops have visited `xs`: its keys never change. */
  function DeviceTable(xs: seq<DeviceSlice>): (table: map<string, DeviceTotals>)
    ensures table.Keys == InitialTable().Keys
    decreases |xs|
  {
    if xs == [] then InitialTable() else Tally(DeviceTable(Init(xs)), Last(xs))
  }

  /** The cell a slice writes into its campaign's record, with its own guarded ROAS. */
  function CellOf(s: DeviceSlice): (r: DeviceCell)
  {
    DeviceCell(s.revenue, s.spend, s.conversions, SafeDiv(s.revenue, s.spend))
  }

  function SetCell(cells: map<string, DeviceCell>, s: DeviceSlice): (r: map<string, DeviceCell>)
  {
    if Known(s) then cells[s.device := CellOf(s)] else cells
  }

  /** The cells of a campaign's record after its slices `xs`: always the three devices. */
  function Cells(xs: seq<DeviceSlice>): (cells: map<string, DeviceCell>)
    ensures cells.Keys == InitialCells().Keys
    decreases |xs|
  {
    if xs == [] then InitialCells() else SetCell(Cells(Init(xs)), Last(xs))
  }

  /** The record pushed onto `campaignPerformance` for campaign `c`. */
  function RecordOf(c: Campaign): (r: CampaignDevices)
  {
    CampaignDevices(c.name, c.id, c.medium, Cells(c.devicePerformance))
  }

  function CellRevenue(record: CampaignDevices, device: string): (r: real)
  {
    if device in record.cells then record.cells[device].revenue else 0.0
  }

  /** The `campaignPerformance` filter: some device brought revenue. */
  predicate HasRevenue(r: CampaignDevices)
  {
    CellRevenue(r, "Mobile") > 0.0 || CellRevenue(r, "Desktop") > 0.0 || CellRevenue(r, "Tablet") > 0.0
  }

  /** One element of `devicesArray`, with its zero-guarded ratios. */
  function MakeRow(device: string, t: DeviceTotals): (r: DeviceRow)
  {
    DeviceRow(device, t.impressions, t.clicks, t.conversions, t.spend, t.revenue, t.campaigns,
              Percent(t.clicks as real, t.impressions as real),
              Percent(t.conversions as real, t.clicks as real),
              SafeDiv(t.revenue, t.spend),
              SafeDiv(t.revenue, t.campaigns as real))
  }

  function RowRevenue(row: DeviceRow): (r: real) { row.revenue }
  function RowSpend(row: DeviceRow): (r: real) { row.spend }
  function RowConversions(row: DeviceRow): (r: nat) { row.conversions }
  function RowClicks(row: DeviceRow): (r: nat) { row.clicks }

  /** The memo's result, from the finished table and the pushed records. */
  function Derive(table: map<string, DeviceTotals>, records: seq<CampaignDevices>): (r: DeviceMetrics)
    requires table.Keys == InitialTable().Keys
  {
    var rows := Rows(DeviceNames, table, MakeRow);
    var totalRevenue := Sum(rows, RowRevenue);
    DeviceMetrics(rows, Filter(records, HasRevenue),
                  totalRevenue, Sum(rows, RowSpend), Total(rows, RowConversions), Total(rows, RowClicks),
                  Percent(table["Mobile"].revenue, totalRevenue),
                  Percent(table["Desktop"].revenue, totalRevenue))
  }

  /** What `deviceMetrics` holds for a present `campaigns` array. */
  function DeviceReport(cs: seq<Campaign>): (r: DeviceMetrics)
  {
    Derive(DeviceTable(DeviceSlices(cs)), Map(cs, RecordOf))
  }

  /**
    The memo: `null` without campaigns; otherwise, for each campaign, a
    fresh record whose cells the known-device slices overwrite while the
    same slices add into the device table; the record is pushed after the
    campaign's slices.
   */
  method DeviceMetricsOf(campaigns: Option<seq<Campaign>>) returns (r: Option<DeviceMetrics>)
    ensures r == if campaigns.None? then None else Some(DeviceReport(campaigns.value))
  {
    if campaigns.None? {
      return None;
    }
    var cs := campaigns.value;
    var deviceData := InitialTable();
    var campaignPerformance: seq<CampaignDevices> := [];
    for i := 0 to |cs|
      invariant deviceData == DeviceTable(DeviceSlices(cs[..i]))
      invariant campaignPerformance == Map(cs[..i], RecordOf)
    {
      var c := cs[i];
      var cells;
      deviceData, cells := TallyCampaign(DeviceSlices(cs[..i]), deviceData, c.devicePerformance);
      campaignPerformance := campaignPerformance + [CampaignDevices(c.name, c.id, c.medium, cells)];
      TakeSnoc([], cs, i);
    }
    assert cs[..|cs|] == cs;
    r := Some(Derive(deviceData, campaignPerformance));
  }

  /**
    The inner loop for one campaign: each known-device slice adds into the
    device table and overwrites its cell in the campaign's fresh record.
   */
  method TallyCampaign(ghost before: seq<DeviceSlice>, table: map<string, DeviceTotals>, slices: seq<DeviceSlice>)
    returns (deviceData: map<string, DeviceTotals>, cells: map<string, DeviceCell>)
    requires table == DeviceTable(before)
    ensures deviceData == DeviceTable(before + slices)
    ensures cells == Cells(slices)
  {
    deviceData := table;
    cells := InitialCells();
    assert before + slices[..0] == before;
    for j := 0 to |slices|
      invariant deviceData == DeviceTable(before + slices[..j])
      invariant cells == Cells(slices[..j])
    {
      deviceData, cells := TallySlice(before + slices[..j], deviceData, slices[..j], cells, slices[j]);
      TakeSnoc(before, slices, j);
    }
    assert slices[..|slices|] == slices;
  }

  /** The `forEach` callback for one slice: a known device adds into the table and overwrites its cell. */
  method TallySlice(ghost xs: seq<DeviceSlice>, table: map<string, DeviceTotals>,
                    ghost ys: seq<DeviceSlice>, cells: map<string, DeviceCell>, s: DeviceSlice)
    returns (table': map<string, DeviceTotals>, cells': map<string, DeviceCell>)
    requires table == DeviceTable(xs) && cells == Cells(ys)
    ensures table' == DeviceTable(xs + [s]) && cells' == Cells(ys + [s])
  {
    TableStep(xs, s);
    CellsStep(ys, s);
    table', cells' := table, cells;
    if s.device in table {
      table' := table[s.device := AddDevice(table[s.device], s)];
      cells' := cells[s.device := CellOf(s)];
    }
  }

  /** One more slice: the table is tallied once more, and only a known device is in the table. */
  lemma TableStep(xs: seq<DeviceSlice>, s: DeviceSlice)
    ensures DeviceTable(xs + [s]) == Tally(DeviceTable(xs), s)
    ensures s.device in DeviceTable(xs) <==> Known(s)
  {
    assert Init(xs + [s]) == xs && Last(xs + [s]) == s;
  }

  /** One more slice: its cell is set once more. */
  lemma CellsStep(xs: seq<DeviceSlice>, s: DeviceSlice)
    ensures Cells(xs + [s]) == SetCell(Cells(xs), s)
  {
    assert Init(xs + [s]) == xs && Last(xs + [s]) == s;
  }

  /**
    Each device's entry sums exactly the slices that name it, and its
    `campaigns` counter is the number of those slices (two slices of one
    campaign count twice).
   */
  lemma {:induction false} DeviceTableMeaning(xs: seq<DeviceSlice>, d: string)
    requires d in DeviceNames
    ensures var t := DeviceTable(xs)[d];
      var ms := Matching(xs, DeviceName, d);
      && t.impressions == Total(ms, SliceImpressions)
      && t.clicks == Total(ms, SliceClicks)
      && t.conversions == Total(ms, SliceConversions)
      && t.spend == Sum(ms, SliceSpend)
      && t.revenue == Sum(ms, SliceRevenue)
      && t.campaigns == |ms|
    decreases |xs|
  {
    if xs != [] {
      DeviceTableMeaning(Init(xs), d);
      MatchingSnoc(xs, DeviceName, d);
      var m := Matching(Init(xs), DeviceName, d);
      if Last(xs).device == d {
        assert Init(m + [Last(xs)]) == m && Last(m + [Last(xs)]) == Last(xs);
      } else {
        assert Matching(xs, DeviceName, d) == m;
        assert DeviceTable(xs)[d] == DeviceTable(Init(xs))[d];
      }
    }
  }

  /** A slice naming any other device changes nothing: the table is that of the known slices alone. */
  lemma {:induction false} UnknownDevicesIgnored(xs: seq<DeviceSlice>)
    ensures DeviceTable(xs) == DeviceTable(Filter(xs, Known))
    decreases |xs|
  {
    if xs != [] {
      UnknownDevicesIgnored(Init(xs));
      var f := Filter(Init(xs), Known);
      if Known(Last(xs)) {
        assert Filter(xs, Known) == f + [Last(xs)];
        assert Init(f + [Last(xs)]) == f && Last(f + [Last(xs)]) == Last(xs);
      } else {
        assert Filter(xs, Known) == f;
      }
    }
  }

  /**
    A record's cell for a device holds the LAST of the campaign's slices
    naming it (an earlier slice is overwritten), or zeros when none does.
   */
  lemma {:induction false} CellsMeaning(xs: seq<DeviceSlice>, d: string)
    requires d in DeviceNames
    ensures var ms := Matching(xs, DeviceName, d);
      Cells(xs)[d] == if ms == [] then ZeroCell() else CellOf(Last(ms))
    decreases |xs|
  {
    if xs != [] {
      CellsMeaning(Init(xs), d);
      MatchingSnoc(xs, DeviceName, d);
    }
  }

  /**
    `devicesArray` lists Mobile, Desktop, Tablet in that order; each row
    carries its device's sums over the slices naming it and the guarded
    ratios of those sums.
   */
  lemma DeviceRowMeaning(cs: seq<Campaign>, i: nat)
    requires i < 3
    ensures var rows := DeviceReport(cs).devicesArray;
      var ms := Matching(DeviceSlices(cs), DeviceName, DeviceNames[i]);
      var row := rows[i];
      && |rows| == 3
      && row.device == DeviceNames[i]
      && row.impressions == Total(ms, SliceImpressions)
      && row.clicks == Total(ms, SliceClicks)
      && row.conversions == Total(ms, SliceConversions)
      && row.spend == Sum(ms, SliceSpend)
      && row.revenue == Sum(ms, SliceRevenue)
      && row.campaigns == |ms|
      && row.ctr == Percent(row.clicks as real, row.impressions as real)
      && row.conversionRate == Percent(row.conversions as real, row.clicks as real)
      && row.roas == SafeDiv(row.revenue, row.spend)
      && row.avgRevenuePerCampaign == SafeDiv(row.revenue, row.campaigns as real)
  {
    DeviceTableMeaning(DeviceSlices(cs), DeviceNames[i]);
  }

  function TableRevenue(t: map<string, DeviceTotals>): (r: real)
    requires t.Keys == InitialTable().Keys
  {
    t["Mobile"].revenue + t["Desktop"].revenue + t["Tablet"].revenue
  }

  function TableSpend(t: map<string, DeviceTotals>): (r: real)
    requires t.Keys == InitialTable().Keys
  {
    t["Mobile"].spend + t["Desktop"].spend + t["Tablet"].spend
  }

  function TableConversions(t: map<string, DeviceTotals>): (r: nat)
    requires t.Keys == InitialTable().Keys
  {
    t["Mobile"].conversions + t["Desktop"].conversions + t["Tablet"].conversions
  }

  function TableClicks(t: map<string, DeviceTotals>): (r: nat)
    requires t.Keys == InitialTable().Keys
  {
    t["Mobile"].clicks + t["Desktop"].clicks + t["Tablet"].clicks
  }

  /** One slice raises the three entries together by its own numbers exactly when it is known. */
  lemma TallyEffect(t: map<string, DeviceTotals>, s: DeviceSlice)
    requires t.Keys == InitialTable().Keys
    ensures var t' := Tally(t, s);
      && t'.Keys == t.Keys
      && TableRevenue(t') == TableRevenue(t) + (if Known(s) then s.revenue else 0.0)
      && TableSpend(t') == TableSpend(t) + (if Known(s) then s.spend else 0.0)
      && TableConversions(t') == TableConversions(t) + (if Known(s) then s.conversions else 0)
      && TableClicks(t') == TableClicks(t) + (if Known(s) then s.clicks else 0)
  {
    if s.device == "Mobile" {
    } else if s.device == "Desktop" {
    } else if s.device == "Tablet" {
    } else {
      assert !Known(s);
    }
  }

  /** The three entries together hold exactly the known-device slices. */
  lemma {:induction false} TableSums(xs: seq<DeviceSlice>)
    ensures var t := DeviceTable(xs);
      var known := Filter(xs, Known);
      && TableRevenue(t) == Sum(known, SliceRevenue)
      && TableSpend(t) == Sum(known, SliceSpend)
      && TableConversions(t) == Total(known, SliceConversions)
      && TableClicks(t) == Total(known, SliceClicks)
    decreases |xs|
  {
    if xs != [] {
      TableSums(Init(xs));
      TallyEffect(DeviceTable(Init(xs)), Last(xs));
      var f := Filter(Init(xs), Known);
      if Known(Last(xs)) {
        assert Filter(xs, Known) == f + [Last(xs)];
        assert Init(f + [Last(xs)]) == f && Last(f + [Last(xs)]) == Last(xs);
      } else {
        assert Filter(xs, Known) == f;
      }
    }
  }

  /** The totals of a derived result add up the three entries of its table. */
  lemma DerivedTotals(t: map<string, DeviceTotals>, records: seq<CampaignDevices>)
    requires t.Keys == InitialTable().Keys
    ensures var r := Derive(t, records);
      && r.totalRevenue == Sum(r.devicesArray, RowRevenue) == TableRevenue(t)
      && r.totalSpend == Sum(r.devicesArray, RowSpend) == TableSpend(t)
      && r.totalConversions == Total(r.devicesArray, RowConversions) == TableConversions(t)
      && r.totalClicks == Total(r.devicesArray, RowClicks) == TableClicks(t)
  {
    TableMoneySums(t);
    TableCountSums(t);
  }

  /** The rows of a table add up to the table's own revenue and spend. */
  lemma TableMoneySums(t: map<string, DeviceTotals>)
    requires t.Keys == InitialTable().Keys
    ensures var rows := Rows(DeviceNames, t, MakeRow);
      Sum(rows, RowRevenue) == TableRevenue(t) && Sum(rows, RowSpend) == TableSpend(t)
  {
    var rows := Rows(DeviceNames, t, MakeRow);
    SumThree(rows, RowRevenue);
    SumThree(rows, RowSpend);
  }

  /** The rows of a table add up to the table's own conversions and clicks. */
  lemma TableCountSums(t: map<string, DeviceTotals>)
    requires t.Keys == InitialTable().Keys
    ensures var rows := Rows(DeviceNames, t, MakeRow);
      Total(rows, RowConversions) == TableConversions(t) && Total(rows, RowClicks) == TableClicks(t)
  {
    var rows := Rows(DeviceNames, t, MakeRow);
    TotalThree(rows, RowConversions);
    TotalThree(rows, RowClicks);
  }

  /**
    The totals are the sums over `devicesArray`, and so over every slice
    that names Mobile, Desktop or Tablet; slices of other devices are in
    no total.
   */
  lemma DeviceTotalsPartition(cs: seq<Campaign>)
    ensures var r := DeviceReport(cs);
      var known := Filter(DeviceSlices(cs), Known);
      && r.totalRevenue == Sum(r.devicesArray, RowRevenue) == Sum(known, SliceRevenue)
      && r.totalSpend == Sum(r.devicesArray, RowSpend) == Sum(known, SliceSpend)
      && r.totalConversions == Total(r.devicesArray, RowConversions) == Total(known, SliceConversions)
      && r.totalClicks == Total(r.devicesArray, RowClicks) == Total(known, SliceClicks)
  {
    DerivedTotals(DeviceTable(DeviceSlices(cs)), Map(cs, RecordOf));
    TableSums(DeviceSlices(cs));
  }

  /** The shares of a derived result, for a table whose revenues are non-negative. */
  lemma DerivedShares(t: map<string, DeviceTotals>, records: seq<CampaignDevices>)
    requires t.Keys == InitialTable().Keys
    requires forall d :: d in t ==> t[d].revenue >= 0.0
    ensures var r := Derive(t, records);
      && (r.totalRevenue <= 0.0 ==> r.mobileShare == 0.0 && r.desktopShare == 0.0)
      && 0.0 <= r.mobileShare <= 100.0
      && 0.0 <= r.desktopShare <= 100.0
      && r.mobileShare + r.desktopShare <= 100.0
  {
    DerivedTotals(t, records);
    var total := TableRevenue(t);
    var m, k := t["Mobile"].revenue, t["Desktop"].revenue;
    PercentOfWhole(m, total);
    PercentOfWhole(k, total);
    PercentOfWhole(m + k, total);
    PercentAdd(m, k, total);
  }

  /**
    With non-negative slice revenues, the Mobile and Desktop shares are
    percentages in [0, 100] that together do not exceed 100; with no
    revenue both are 0.
   */
  lemma SharesBounded(cs: seq<Campaign>)
    requires forall s :: s in DeviceSlices(cs) ==> s.revenue >= 0.0
    ensures var r := DeviceReport(cs);
      && (r.totalRevenue <= 0.0 ==> r.mobileShare == 0.0 && r.desktopShare == 0.0)
      && 0.0 <= r.mobileShare <= 100.0
      && 0.0 <= r.desktopShare <= 100.0
      && r.mobileShare + r.desktopShare <= 100.0
  {
    var xs := DeviceSlices(cs);
    var t := DeviceTable(xs);
    forall d | d in t
      ensures t[d].revenue >= 0.0
    {
      DeviceTableMeaning(xs, d);
      SumNonNegative(Matching(xs, DeviceName, d), SliceRevenue);
    }
    DerivedShares(t, Map(cs, RecordOf));
  }

  /** The returned `campaignPerformance` holds one record per kept campaign. */
  lemma CampaignPerformanceLength(cs: seq<Campaign>)
    ensures |DeviceReport(cs).campaignPerformance| == |Kept(Map(cs, RecordOf), HasRevenue)|
  {
    KeptRecords(cs, DeviceReport(cs).campaignPerformance);
  }

  /**
    The `i`-th element of the returned `campaignPerformance` is the record,
    with the latest cell per device, of the `i`-th campaign in which some
    device brought revenue.
   */
  lemma CampaignPerformanceMeaning(cs: seq<Campaign>, i: nat)
    requires i < |Kept(Map(cs, RecordOf), HasRevenue)|
    ensures var kept := Kept(Map(cs, RecordOf), HasRevenue);
      var perf := DeviceReport(cs).campaignPerformance;
      && i < |perf|
      && kept[i] < |cs|
      && perf[i] == RecordOf(cs[kept[i]])
  {
    KeptRecords(cs, DeviceReport(cs).campaignPerformance);
  }

  /** The kept campaigns are, in increasing order, exactly those in which some device brought revenue. */
  lemma KeptCampaigns(cs: seq<Campaign>)
    ensures var kept := Kept(Map(cs, RecordOf), HasRevenue);
      && (forall i, j :: 0 <= i < j < |kept| ==> kept[i] < kept[j])
      && (forall j :: 0 <= j < |cs| ==> (j in kept <==> HasRevenue(RecordOf(cs[j]))))
  {
    FilterMapExactly(cs, RecordOf, HasRevenue);
  }

  lemma KeptRecords(cs: seq<Campaign>, perf: seq<CampaignDevices>)
    requires perf == Filter(Map(cs, RecordOf), HasRevenue)
    ensures var kept := Kept(Map(cs, RecordOf), HasRevenue);
      && |perf| == |kept|
      && (forall i :: 0 <= i < |kept| ==> kept[i] < |cs| && perf[i] == RecordOf(cs[kept[i]]))
  {
    FilterMapExactly(cs, RecordOf, HasRevenue);
  }

  /** Whether a campaign is kept depends on the last slice per device it has. */
  lemma KeptCampaign(c: Campaign)
    ensures HasRevenue(RecordOf(c)) <==>
      exists d :: d in DeviceNames && Matching(c.devicePerformance, DeviceName, d) != []
                  && Last(Matching(c.devicePerformance, DeviceName, d)).revenue > 0.0
  {
    var r := RecordOf(c);
    if CellRevenue(r, "Mobile") > 0.0 {
      DeviceRevenue(c, "Mobile");
    } else if CellRevenue(r, "Desktop") > 0.0 {
      DeviceRevenue(c, "Desktop");
    } else if CellRevenue(r, "Tablet") > 0.0 {
      DeviceRevenue(c, "Tablet");
    } else {
      forall d | d in DeviceNames
        ensures !(Matching(c.devicePerformance, DeviceName, d) != []
                  && Last(Matching(c.devicePerformance, DeviceName, d)).revenue > 0.0)
      {
        DeviceRevenue(c, d);
      }
    }
  }

  /** One device's cell in a campaign's record has revenue iff that device's last slice has. */
  lemma DeviceRevenue(c: Campaign, d: string)
    requires d in DeviceNames
    ensures var ms := Matching(c.devicePerformance, DeviceName, d);
      CellRevenue(RecordOf(c), d) > 0.0 <==> ms != [] && Last(ms).revenue > 0.0
  {
    CellsMeaning(c.devicePerformance, d);
  }
}
