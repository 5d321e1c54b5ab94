# Marketing dashboard aggregations, modelled in Dafny

The dashboard loads one list of campaigns. Four of its pages fold that list
into per-page metrics, each inside one `useMemo`:

- the **device view** totals the device slices of every campaign into a fixed
  Mobile / Desktop / Tablet table and keeps one per-device record for each
  campaign that has revenue on some device;
- the **demographic view** splits each campaign's spend and revenue across
  its audience slices in proportion to their audience percentage, and tallies
  them by gender and by age group;
- the **region view** groups the regional slices by region name in first-seen
  order, derives CTR, conversion rate, ROAS and CPC, and picks the seven
  regions with the most revenue;
- the **weekly view** groups the weekly slices by week start, sorts the weeks
  by date and derives the totals, the average ROAS and the two chart series.

The **bubble map** component joins the region rows to a fixed table of city
coordinates, keeps the rows that end up with coordinates, and scales each
row's plotted value to a radius and a colour bucket.

## How the model is organised

- `wrappers.dfy`: `Option`. A missing campaign list (`!marketingData?.campaigns`)
  is `None`, and each memo then returns `None`, as the page returns `null`.
- `ratios.dfy`: the zero-guarded quotient `d > 0 ? n / d : 0` and its
  percentage form. Every page uses them.
- `folds.dfy`: `Filter`, `Map`, sums and matching sub-sequences, defined on
  the last element. This is how a `forEach` over a growing prefix sees them.
- `js_objects.dfy`: a JavaScript object used as a dictionary. It is an
  insertion-ordered key list plus a map. It comes with `Upsert` (create on
  first sight, then add) and `GroupBy`, the fold of `Upsert` over a list.
  The lemmas say what a grouped entry holds, in which order the keys come
  out, and that summing over the entries is summing over the input.
- `stable_sort.dfy`: `Array.prototype.sort` as a stable insertion sort on a
  real-valued key. The lemmas prove it is sorted, a permutation and stable.
  They also prove that its prefix dominates the rest.
- `campaigns.dfy`: the campaign record and its slices.
- `region_view.dfy`, `weekly_view.dfy`, `device_view.dfy`,
  `demographic_view.dfy`: one module per page.
  - Each memo is a `method` with the page's nested loops.
  - Each method is proved equal to a specification function (`...Report`).
  - Lemmas then state what each field of that report means in terms of the
    input slices.
- `bubble_map.dfy`: `enriched`, `getRadius` and `getColor`, with the
  component's empty-data branch.

Date parsing (`new Date(k).getTime()`) and date formatting
(`toLocaleDateString`) are parameters `time` and `dateLabel` of the weekly
model.

## Model

| member | source | states |
|---|---|---|
| Ratios.SafeDiv | app/region-view/page.tsx:88-89 | The guarded quotient: with a positive divisor, the result times the divisor is the dividend. Otherwise it is 0. |
| Ratios.Percent | app/region-view/page.tsx:86-87 | The guarded percentage: with a positive divisor, the result times the divisor is 100 times the dividend. Otherwise it is 0. |
| Ratios.PercentAdd | app/device-view/page.tsx:112-113 | Percentages of the same whole add up: the Mobile and Desktop shares together are the share of their sum. |
| Ratios.PercentOfWhole | app/device-view/page.tsx:112-113 | A non-negative part of a whole is between 0 and 100 percent of it. |
| Folds.SumScale | app/demographic-view/page.tsx:57-59 | Scaling every summand by a constant scales the sum by that constant. |
| Folds.FilterMapExactly | app/device-view/page.tsx:86-107 | Filtering the mapped list keeps, in order, the images of exactly the positions whose image passes the filter. |
| JsObjects.GroupByValid | app/region-view/page.tsx:55-74 | Grouping by key gives an object whose key list is duplicate-free and matches its map's domain. |
| JsObjects.GroupByMeaning | app/region-view/page.tsx:57-72 | A key is present iff some input item has that key. Its entry is the first such item's seed, folded with every matching item in input order. |
| JsObjects.GroupByOrder | app/region-view/page.tsx:77 | `Object.entries` lists the keys in the order of their first occurrence in the input. |
| JsObjects.GroupBySum | app/region-view/page.tsx:93-94 | Summing a field over the grouped entries equals summing the matching item field over every input item, when the seed starts at 0 and each item adds its own amount. |
| JsObjects.SumRows | app/region-view/page.tsx:93-96 | Summing a field over rows made from the entries is summing the corresponding entry value. |
| JsObjects.FirstIndex | app/region-view/page.tsx:57 | The position of a key's first occurrence, or the length when it never occurs. |
| StableSort.SortBy | app/region-view/page.tsx:99-101 | Sorting keeps the length and the multiset of elements: it is a permutation. |
| StableSort.SortBySorted | app/weekly-view/page.tsx:65-66 | The sorted list is non-decreasing in the comparator's key. |
| StableSort.SortByStable | app/weekly-view/page.tsx:65-66 | Elements with equal keys keep their relative order, as the specification of `Array.prototype.sort` requires. |
| StableSort.SortBySum | app/weekly-view/page.tsx:74-77 | Sorting does not change the sum of any field. |
| StableSort.SortByPrefixDominates | app/region-view/page.tsx:99-101 | A prefix of the sorted list comes from the input without duplication, and no element left out has a smaller key than one kept. |
| StableSort.SortByPrefixStable | app/region-view/page.tsx:99-101 | Elements of equal key in the prefix appear in their input order. |
| RegionView.RegionalMetricsOf | app/region-view/page.tsx:43-112 | The memo's loops give `None` without a campaign list and otherwise exactly the report of the specification function. |
| RegionView.TopByRevenueOrdered | app/region-view/page.tsx:99-101 | `topRegionsByRevenue` has min(7, n) rows, in non-increasing revenue. |
| RegionView.TopByRevenueDominates | app/region-view/page.tsx:99-101 | The top rows are drawn from the table without duplication, and no row left out earns more than a row kept. |
| RegionView.TopByRevenueStable | app/region-view/page.tsx:99-101 | Among rows of equal revenue, the top rows keep the table order. |
| RegionView.FoldRegion | app/region-view/page.tsx:68-72 | Folding slices into a region entry adds each counter's sum over those slices and keeps the country. |
| RegionView.RegionsAreDistinctFirstSeen | app/region-view/page.tsx:77-110 | There is one row per region that occurs in some campaign, and no other. Rows come in the order each region was first seen. |
| RegionView.RegionRowMeaning | app/region-view/page.tsx:57-90 | A row's counters are the sums over its region's slices. Its country is that of the region's first slice. `value` is the selected metric. CTR, conversion rate, ROAS and CPC are the guarded ratios of those sums. |
| RegionView.RegionTotalsPartition | app/region-view/page.tsx:93-110 | The four totals are the sums over the rows and also over every regional slice of every campaign. `regionCount` is the number of rows. |
| RegionView.RegionImpressions | app/region-view/page.tsx:95 | The rows' impressions add up to those of every regional slice. |
| RegionView.RegionConversions | app/region-view/page.tsx:96 | The rows' conversions add up to those of every regional slice. |
| WeeklyView.WeeklyMetricsOf | app/weekly-view/page.tsx:39-101 | The memo's loops give `None` without a campaign list and otherwise exactly the weekly report. |
| WeeklyView.FoldWeek | app/weekly-view/page.tsx:57-60 | Folding slices into a week entry adds each counter's sum over those slices. |
| WeeklyView.AddWeekSlice | app/weekly-view/page.tsx:46-60 | One visit of the inner loop turns the object grouped so far into the object grouped with one more slice. |
| WeeklyView.WeeksSortedByDate | app/weekly-view/page.tsx:64-66 | The weeks are a permutation of the grouped entries, sorted by parsed date, stable among equal dates. |
| WeeklyView.WeekKeysPresent | app/weekly-view/page.tsx:44-61 | There is one week per distinct week start that occurs in some campaign, and no other. |
| WeeklyView.SortedWeekTotals | app/weekly-view/page.tsx:44-71 | Each sorted week holds the sums over exactly the slices with its week start. |
| WeeklyView.SeriesFollowWeeks | app/weekly-view/page.tsx:81-99 | Both chart series and `weekCount` follow the sorted weeks one for one, labelled with the formatted date. |
| WeeklyView.WeeklyTotals | app/weekly-view/page.tsx:74-78 | Total spend, revenue, impressions and clicks are the sums over every weekly slice. `averageROAS` is the guarded quotient of revenue by spend. |
| WeeklyView.WeeklyImpressions | app/weekly-view/page.tsx:76 | The reported `totalImpressions` is the total of impressions over every weekly slice, whatever the week order. |
| WeeklyView.WeeklyClicks | app/weekly-view/page.tsx:77 | The reported `totalClicks` is the total of clicks over every weekly slice, whatever the week order. |
| Folds.TotalAsSum | app/weekly-view/page.tsx:76-77 | A total of counts equals the sum of the same counts read as reals. |
| WeeklyView.HighestIndex | app/weekly-view/page.tsx:205-207 | On a non-empty series, the `reduce` picks a point whose value is at least every other value, and no earlier point has that value. |
| WeeklyView.HighestWeek | app/weekly-view/page.tsx:219-221 | Corrected pick: no week for an empty series, otherwise the first week of greatest value. |
| WeeklyView.NoWeeklySlices | app/weekly-view/page.tsx:44-45 | Campaigns without weekly data contribute no weekly slice. |
| WeeklyView.EmptySeriesWithCampaigns | app/weekly-view/page.tsx:205-207 | Campaigns present but without weekly data give empty series and a zero `weekCount`, so the highest-week `reduce` has no point to start from. |
| DeviceView.DeviceTable | app/device-view/page.tsx:43-76 | The device table always has exactly the keys Mobile, Desktop and Tablet. |
| DeviceView.Cells | app/device-view/page.tsx:59-82 | A campaign's per-device record always has exactly the three device cells. |
| DeviceView.DeviceMetricsOf | app/device-view/page.tsx:40-115 | The memo's loops give `None` without a campaign list and otherwise exactly the device report. |
| DeviceView.TallyCampaign | app/device-view/page.tsx:58-87 | Visiting one campaign's device slices extends the device table by those slices and builds that campaign's cells from them alone. |
| DeviceView.TallySlice | app/device-view/page.tsx:68-83 | One slice of a known device is added to its table entry and overwrites its cell. A slice of any other device changes neither. |
| DeviceView.TableStep | app/device-view/page.tsx:69-75 | One more slice is one tally step, and the guard `deviceData[device.device]` holds exactly for a known device. |
| DeviceView.DeviceTableMeaning | app/device-view/page.tsx:69-75 | A device's entry holds the sums over that device's slices. `campaigns` counts those slices. |
| DeviceView.UnknownDevicesIgnored | app/device-view/page.tsx:69 | Slices naming any other device leave the table unchanged. |
| DeviceView.CellsMeaning | app/device-view/page.tsx:77-82 | A device cell is the last slice of that device in the campaign, with its own guarded ROAS, or zeros when there is none. |
| DeviceView.DeviceRowMeaning | app/device-view/page.tsx:89-96 | The three rows come as Mobile, Desktop, Tablet. Each row carries its device's sums and the guarded CTR, conversion rate, ROAS and revenue per counted slice. |
| DeviceView.TallyEffect | app/device-view/page.tsx:69-75 | One slice raises the table's revenue, spend, conversions and clicks by its own amounts if its device is known, and leaves them unchanged otherwise. |
| DeviceView.TableSums | app/device-view/page.tsx:58-87 | The table's totals are the sums over the slices of known devices. |
| DeviceView.TableMoneySums | app/device-view/page.tsx:89-99 | The three rows' revenue and spend add up to the table's. |
| DeviceView.TableCountSums | app/device-view/page.tsx:89-101 | The three rows' conversions and clicks add up to the table's. |
| DeviceView.DerivedTotals | app/device-view/page.tsx:98-101 | Each reported total is the sum over the three rows and equals the table's total. |
| DeviceView.DeviceTotalsPartition | app/device-view/page.tsx:98-101 | The reported totals are the sums over every slice of a known device in every campaign. |
| DeviceView.DerivedShares | app/device-view/page.tsx:112-113 | With non-negative revenues, both shares are 0 when there is no revenue. Each lies in [0, 100] and together they do not exceed 100. |
| DeviceView.SharesBounded | app/device-view/page.tsx:112-113 | The same bounds for the shares of any campaign list whose slices have non-negative revenue. |
| DeviceView.CampaignPerformanceLength | app/device-view/page.tsx:86-107 | The returned `campaignPerformance` has one record per campaign with revenue on some device cell. |
| DeviceView.CampaignPerformanceMeaning | app/device-view/page.tsx:86-107 | The `i`-th record of the returned `campaignPerformance` is the record of the `i`-th campaign with revenue on some device cell. |
| DeviceView.KeptCampaigns | app/device-view/page.tsx:105-107 | The campaigns behind those records are, in increasing order, exactly the campaigns with revenue on some device cell. |
| DeviceView.KeptCampaign | app/device-view/page.tsx:105-107 | A campaign is kept iff, for some device, the last slice of that device has positive revenue. |
| DeviceView.DeviceRevenue | app/device-view/page.tsx:77-107 | A device's cell has positive revenue iff the campaign has a slice of that device and the last one has positive revenue. |
| DemographicView.MaleMeaning | app/demographic-view/page.tsx:62-79 | Male clicks, spend and revenue are the sums over the Male slices. The Male age-group table groups exactly those slices. |
| DemographicView.FemaleMeaning | app/demographic-view/page.tsx:80-98 | The same for the Female slices. |
| DemographicView.AgeDataMeaning | app/demographic-view/page.tsx:101-105 | `ageGroupData` groups every slice, of any gender, by age group and sums its allocated spend and revenue. |
| DemographicView.TalliesMeaning | app/demographic-view/page.tsx:50-107 | The step-by-step tallies equal the description by filters and groupings. |
| DemographicView.TalliesValid | app/demographic-view/page.tsx:67-103 | The three age-group objects keep duplicate-free keys matching their entries. |
| DemographicView.CountInto | app/demographic-view/page.tsx:67-78 | Updating a gender's age-group table in place gives the create-or-add of that slice. |
| DemographicView.MoneyInto | app/demographic-view/page.tsx:101-105 | Updating `ageGroupData` in place gives the create-or-add of that slice's money. |
| DemographicView.AddDemo | app/demographic-view/page.tsx:51-105 | The inner callback allots one slice its share and performs exactly one step of the tallies. |
| DemographicView.DemographicMetricsOf | app/demographic-view/page.tsx:40-139 | The memo's loops give `None` without a campaign list and otherwise exactly the demographic report. |
| DemographicView.AllocatedSpend | app/demographic-view/page.tsx:57-58 | The spend allotted over a campaign's slices is the campaign's spend times the sum of their percentages over 100. |
| DemographicView.AllocatedRevenue | app/demographic-view/page.tsx:57-59 | The revenue allotted over a campaign's slices is the campaign's revenue times the sum of their percentages over 100. |
| DemographicView.AllocationConserves | app/demographic-view/page.tsx:57-59 | When the audience percentages add up to 100, the allocation hands out exactly the campaign's spend and revenue. |
| DemographicView.GenderBuckets | app/demographic-view/page.tsx:62-105 | A slice changes only its own gender's tallies. Every slice, of any gender, updates `ageGroupData`. |
| DemographicView.GenderSplit | app/demographic-view/page.tsx:62-98 | Male, Female and any other gender partition the slices, so a sum over all slices is the sum of the three. |
| DemographicView.AgeGroupPartition | app/demographic-view/page.tsx:62-105 | `ageGroupData`'s spend (revenue) over all age groups is the Male plus the Female plus the other-gender allocation. |
| DemographicView.FoldCounts | app/demographic-view/page.tsx:75-78 | Folding slices into an age-group entry adds their counters and counts them in `campaigns`. |
| DemographicView.AgeRowsOrder | app/demographic-view/page.tsx:110-126 | Age rows exist exactly for the age groups that occur, in first-seen order. |
| DemographicView.AgeRowMeaning | app/demographic-view/page.tsx:110-126 | Each age row holds its group's sums and the guarded CTR and conversion rate of those sums. |
| DemographicView.GenderTotals | app/demographic-view/page.tsx:62-98 | The report's gender counters are the sums over that gender's allotted slices. |
| DemographicView.GenderRows | app/demographic-view/page.tsx:62-126 | The report's two age-group arrays are the rows of the Male and of the Female slices grouped by age. |
| DemographicView.TwoSlices | app/demographic-view/page.tsx:50-59 | A campaign with two audience slices gives two allotted slices, in breakdown order. |
| DemographicView.TwoSliceSplit | app/demographic-view/page.tsx:57-98 | With one Male and one Female slice, each gender receives its percentage of the campaign's spend and revenue, and clicks stay with their slice. |
| DemographicView.ChartOrder | app/demographic-view/page.tsx:233-252 | The chart entries are a permutation of `ageGroupData` in rank order: 18-24, 25-34, 35-44, 45-54, 55+, then any other group. Entries of equal rank stay stable. The bars carry each group's spend or revenue. |
| BubbleMap.PlotValueFallback | src/components/ui/bubble-map.tsx:73 | The plotted value is the metric's own field or the point's `value`, and it is zero only when the field is absent or zero and `value` is zero too. |
| BubbleMap.MaxOf | src/components/ui/bubble-map.tsx:74 | The maximum is one of the values and at least each of them. |
| BubbleMap.MinOf | src/components/ui/bubble-map.tsx:75 | The minimum is one of the values and at most each of them. |
| BubbleMap.Radius | src/components/ui/bubble-map.tsx:84-88 | 10 when all values are equal. Otherwise 6 plus 25 times the value's fraction of the way from the minimum to the maximum. |
| BubbleMap.ColorOf | src/components/ui/bubble-map.tsx:77-82 | Red above 70% of the range, amber above 40% up to 70%, green otherwise. With no range, the 0/0 or x/0 division makes a value above the minimum red and any other green. |
| BubbleMap.Render | src/components/ui/bubble-map.tsx:52-63 | The "No data available" panel shows exactly when the data is missing or empty. |
| BubbleMap.EnrichMeaning | src/components/ui/bubble-map.tsx:66-71 | `enriched` keeps, in order, exactly the merged points that have non-zero coordinates. Each is its input point after the merge. |
| BubbleMap.MergeMeaning | src/components/ui/bubble-map.tsx:34-70 | The merge changes at most `lat` and `lng`. A known city gets the table's coordinates and is kept. Any other region is unchanged. |
| BubbleMap.UnknownRegionsDropped | src/components/ui/bubble-map.tsx:66-71 | Points without coordinates of their own survive exactly when their region is one of the seven cities. |
| BubbleMap.RadiusBounds | src/components/ui/bubble-map.tsx:84-88 | Within the range, a radius lies in [6, 31] and grows with the value. The minimum gets 6 and the maximum 31. |
| BubbleMap.BubblesInRange | src/components/ui/bubble-map.tsx:66-113 | Each bubble plots its own point's value with a radius in [6, 31]. When all values are equal, every bubble has radius 10 and is green. |
| BubbleMap.RegionRowsPlotValue | app/region-view/page.tsx:85 | For a region row, the plotted value is the row's `value`, the selected metric. |

## Left out

- Loading the data (`fetch`, `useEffect`, the loading and error states) and memoisation itself: the model computes each memo's value from the campaign list.
- Rendering: JSX, cards, tables, charts, colours as hex strings, number formatting with `toLocaleString` and `toFixed`.
- The table component's sorting of the device and region tables, `line-chart.tsx` and `leaflet-map.tsx`: these are not part of this model.
- Date parsing and formatting: `time` and `dateLabel` are parameters of the weekly model, so weeks whose date does not parse (a NaN comparator) are not modelled.
- Floating point: all arithmetic is on exact reals. Rounding, overflow to Infinity and NaN are not modelled. The exception is the division by zero in `getColor` when all values are equal, whose outcome is stated.
- Object keys that JavaScript treats specially: inherited names such as `constructor` or `__proto__`, and integer-like keys, which `Object.entries` lists first in numeric order. The model lists own keys in insertion order.
- Slice fields the pages never read (such as a slice's own `ctr` or `roas`) and the `roas` of a map point are not part of the records.
- The peak revenue and peak spend lines of the weekly page (`Math.max` over a series): `BubbleMap.MaxOf` and `WeeklyView.HighestIndex` state the same maximum property.
- WeeklyView.HighestIndex: requires a non-empty series, because on an empty one the page's `reduce` throws (see Findings).
- DeviceView.SharesBounded: assumes non-negative slice revenues. With negative revenues, a share can exceed 100 or be negative, as in the source.

## Findings

| source | as written | input that shows it | evidently intended | confidence | as-written member | corrected member |
|---|---|---|---|---|---|---|
| app/weekly-view/page.tsx:205-221 | `revenueByWeek.reduce(...)` and `spendByWeek.reduce(...)` have no initial value | a campaign list with at least one campaign and no weekly slices: the series are empty and `reduce` throws a TypeError while rendering the insight panel | show no highest week when there are no weeks | not executed | WeeklyView.EmptySeriesWithCampaigns | WeeklyView.HighestWeek |
