/**
  The fetched dataset: campaigns with their per-segment breakdowns.
  Counts (impressions, clicks, conversions) are naturals; money and
  percentages are exact reals. An absent breakdown array (`?.forEach` on
  `undefined`) is the empty sequence.
 */
module Campaigns {

  datatype Performance = Performance(impressions: nat, clicks: nat, conversions: nat)

  /** One demographic cell: its share of the campaign's audience, in percent, and its raw counts. */
  datatype DemographicSlice = DemographicSlice(
    gender: string,
    ageGroup: string,
    percentageOfAudience: real,
    performance: Performance)

  /** Device-native numbers for one device of one campaign. */
  datatype DeviceSlice = DeviceSlice(
    device: string,
    impressions: nat,
    clicks: nat,
    conversions: nat,
    spend: real,
    revenue: real)

  datatype RegionSlice = RegionSlice(
    region: string,
    country: string,
    impressions: nat,
    clicks: nat,
    conversions: nat,
    spend: real,
    revenue: real)

  /** One week of one campaign, keyed by the week's start date as text. */
  datatype WeekSlice = WeekSlice(
    weekStart: string,
    spend: real,
    revenue: real,
    impressions: nat,
    clicks: nat)

  datatype Campaign = Campaign(
    id: string,
    name: string,
    medium: string,
    spend: real,
    revenue: real,
    demographicBreakdown: seq<DemographicSlice>,
    devicePerformance: seq<DeviceSlice>,
    regionalPerformance: seq<RegionSlice>,
    weeklyPerformance: seq<WeekSlice>)

  /** The metric a user selects on the regional page and that the bubble map plots. */
  datatype Metric = Revenue | Spend | Impressions | Clicks | Conversions
}
