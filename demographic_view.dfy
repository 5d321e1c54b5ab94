/**
  The demographic page's `demographicMetrics` memo
  (app/demographic-view/page.tsx): every demographic slice receives its
  share of the campaign's spend and revenue, Male and Female slices feed
  their gender's totals and age-group table, every slice feeds the
  gender-agnostic age-group table, and the charts order that table's
  entries by a fixed rank of the age-group labels.
 */
module DemographicView {
  import opened Wrappers
  import opened Ratios
  import opened Folds
  import opened JsObjects
  import opened StableSort
  import opened Campaigns

  /** A demographic slice with the spend and revenue allotted to it. */
  datatype Allocated = Allocated(
    gender: string,
    ageGroup: string,
    impressions: nat,
    clicks: nat,
    conversions: nat,
    spend: real,
    revenue: real)

  /** An entry of `maleAgeGroups` or `femaleAgeGroups`. */
  datatype AgeCounts = AgeCounts(impressions: nat, clicks: nat, conversions: nat, campaigns: nat)

  /** An entry of `ageGroupData`. */
  datatype AgeMoney = AgeMoney(spend: real, revenue: real)

  /** The state the accumulation loops build. */
  datatype Tallies = Tallies(
    maleClicks: nat,
    maleSpend: real,
    maleRevenue: real,
    femaleClicks: nat,
    femaleSpend: real,
    femaleRevenue: real,
    ageGroupData: Obj<AgeMoney>,
    maleAgeGroups: Obj<AgeCounts>,
    femaleAgeGroups: Obj<AgeCounts>)

  /** An element of `maleAgeGroupsArray` or `femaleAgeGroupsArray`. */
  datatype AgeRow = AgeRow(ageGroup: string, impressions: nat, clicks: nat, conversions: nat,
                           ctr: real, conversionRate: real)

  datatype DemographicMetrics = DemographicMetrics(
    maleClicks: nat,
    maleSpend: real,
    maleRevenue: real,
    femaleClicks: nat,
    femaleSpend: real,
    femaleRevenue: real,
    ageGroupData: Obj<AgeMoney>,
    maleAgeGroupsArray: seq<AgeRow>,
    femaleAgeGroupsArray: seq<AgeRow>)

  /** A bar of the spend-by-age or revenue-by-age chart. */
  datatype Bar = Bar(ageGroup: string, value: real)

  /** `demoSpend` and `demoRevenue`: the campaign's totals times the audience percentage over 100. */
  function Allocate(c: Campaign, d: DemographicSlice): (r: Allocated)
  {
    var share := d.percentageOfAudience / 100.0;
    Allocated(d.gender, d.ageGroup, d.performance.impressions, d.performance.clicks,
              d.performance.conversions, c.spend * share, c.revenue * share)
  }

  function Allocator(c: Campaign): (r: DemographicSlice -> Allocated)
  {
    d => Allocate(c, d)
  }

  /** Every campaign's allotted `demographic_breakdown`, campaign by campaign. */
  function AllocatedSlices(cs: seq<Campaign>): (r: seq<Allocated>)
    decreases |cs|
  {
    if cs == [] then [] else AllocatedSlices(Init(cs)) + Map(Last(cs).demographicBreakdown, Allocator(Last(cs)))
  }

  predicate IsMale(a: Allocated) { a.gender == "Male" }
  predicate IsFemale(a: Allocated) { a.gender == "Female" }
  predicate IsOther(a: Allocated) { a.gender != "Male" && a.gender != "Female" }

  function AgeKey(a: Allocated): (r: string) { a.ageGroup }
  function AClicks(a: Allocated): (r: nat) { a.clicks }
  function AImpressions(a: Allocated): (r: nat) { a.impressions }
  function AConversions(a: Allocated): (r: nat) { a.conversions }
  function ASpend(a: Allocated): (r: real) { a.spend }
  function ARevenue(a: Allocated): (r: real) { a.revenue }

  function CountSeed(a: Allocated): (r: AgeCounts) { AgeCounts(0, 0, 0, 0) }

  /** The three `+=` and the `campaigns++` of a gender's age-group entry. */
  function AddCounts(t: AgeCounts, a: Allocated): (r: AgeCounts)
  {
    AgeCounts(t.impressions + a.impressions, t.clicks + a.clicks, t.conversions + a.conversions, t.campaigns + 1)
  }

  function MoneySeed(a: Allocated): (r: AgeMoney) { AgeMoney(0.0, 0.0) }

  function AddMoney(t: AgeMoney, a: Allocated): (r: AgeMoney)
  {
    AgeMoney(t.spend + a.spend, t.revenue + a.revenue)
  }

  /** The loops' initial state: zero counters and three empty objects. */
  function Start(): (r: Tallies)
  {
    Tallies(0, 0.0, 0.0, 0, 0.0, 0.0, Empty(), Empty(), Empty())
  }

  /** The loops' state after visiting the allotted slices `xs` in order. */
  function TalliesOf(xs: seq<Allocated>): (r: Tallies)
    decreases |xs|
  {
    if xs == [] then Start() else Step(TalliesOf(Init(xs)), Last(xs))
  }

  /**
    The same state described by what it holds: the Male (Female) counters
    sum the Male (Female) slices, the gender tables group those slices by age
    group, and `ageGroupData` groups every slice by age group.
   */
  function Described(xs: seq<Allocated>): (r: Tallies)
  {
    var males := Filter(xs, IsMale);
    var females := Filter(xs, IsFemale);
    Tallies(Total(males, AClicks), Sum(males, ASpend), Sum(males, ARevenue),
            Total(females, AClicks), Sum(females, ASpend), Sum(females, ARevenue),
            GroupBy(xs, AgeKey, MoneySeed, AddMoney),
            GroupBy(males, AgeKey, CountSeed, AddCounts),
            GroupBy(females, AgeKey, CountSeed, AddCounts))
  }

  /** One pass of the inner loop body: the gender branch, then the age-group table. */
  function Step(t: Tallies, a: Allocated): (r: Tallies)
  {
    var g := if a.gender == "Male" then
               t.(maleClicks := t.maleClicks + a.clicks,
                  maleSpend := t.maleSpend + a.spend,
                  maleRevenue := t.maleRevenue + a.revenue,
                  maleAgeGroups := Upsert(t.maleAgeGroups, a, AgeKey, CountSeed, AddCounts))
             else if a.gender == "Female" then
               t.(femaleClicks := t.femaleClicks + a.clicks,
                  femaleSpend := t.femaleSpend + a.spend,
                  femaleRevenue := t.femaleRevenue + a.revenue,
                  femaleAgeGroups := Upsert(t.femaleAgeGroups, a, AgeKey, CountSeed, AddCounts))
             else t;
    g.(ageGroupData := Upsert(g.ageGroupData, a, AgeKey, MoneySeed, AddMoney))
  }

  /** One age-group row, with its zero-guarded percentages. */
  function MakeAgeRow(age: string, t: AgeCounts): (r: AgeRow)
  {
    AgeRow(age, t.impressions, t.clicks, t.conversions,
           Percent(t.clicks as real, t.impressions as real),
           Percent(t.conversions as real, t.clicks as real))
  }

  function Derive(t: Tallies): (r: DemographicMetrics)
    requires Valid(t.maleAgeGroups) && Valid(t.femaleAgeGroups)
  {
    DemographicMetrics(t.maleClicks, t.maleSpend, t.maleRevenue,
                       t.femaleClicks, t.femaleSpend, t.femaleRevenue,
                       t.ageGroupData,
                       Rows(t.maleAgeGroups.keys, t.maleAgeGroups.vals, MakeAgeRow),
                       Rows(t.femaleAgeGroups.keys, t.femaleAgeGroups.vals, MakeAgeRow))
  }

  /** The Male counters and table see exactly the Male slices. */
  lemma {:induction false} MaleMeaning(xs: seq<Allocated>)
    ensures var t, males := TalliesOf(xs), Filter(xs, IsMale);
      && t.maleClicks == Total(males, AClicks)
      && t.maleSpend == Sum(males, ASpend)
      && t.maleRevenue == Sum(males, ARevenue)
      && t.maleAgeGroups == GroupBy(males, AgeKey, CountSeed, AddCounts)
    decreases |xs|
  {
    if xs != [] {
      MaleMeaning(Init(xs));
      var a, m := Last(xs), Filter(Init(xs), IsMale);
      if IsMale(a) {
        assert Filter(xs, IsMale) == m + [a];
        assert Init(m + [a]) == m && Last(m + [a]) == a;
      } else {
        assert Filter(xs, IsMale) == m;
      }
    }
  }

  /** The Female counters and table see exactly the Female slices. */
  lemma {:induction false} FemaleMeaning(xs: seq<Allocated>)
    ensures var t, females := TalliesOf(xs), Filter(xs, IsFemale);
      && t.femaleClicks == Total(females, AClicks)
      && t.femaleSpend == Sum(females, ASpend)
      && t.femaleRevenue == Sum(females, ARevenue)
      && t.femaleAgeGroups == GroupBy(females, AgeKey, CountSeed, AddCounts)
    decreases |xs|
  {
    if xs != [] {
      FemaleMeaning(Init(xs));
      var a, f := Last(xs), Filter(Init(xs), IsFemale);
      if IsFemale(a) {
        assert Filter(xs, IsFemale) == f + [a];
        assert Init(f + [a]) == f && Last(f + [a]) == a;
      } else {
        assert Filter(xs, IsFemale) == f;
      }
    }
  }

  /** `ageGroupData` sees every slice, whatever its gender. */
  lemma {:induction false} AgeDataMeaning(xs: seq<Allocated>)
    ensures TalliesOf(xs).ageGroupData == GroupBy(xs, AgeKey, MoneySeed, AddMoney)
    decreases |xs|
  {
    if xs != [] {
      AgeDataMeaning(Init(xs));
    }
  }

  /**
    The step-by-step state is the described one: each slice goes to its
    own gender's counters and table only, and to the age-group table.
   */
  lemma TalliesMeaning(xs: seq<Allocated>)
    ensures TalliesOf(xs) == Described(xs)
  {
    MaleMeaning(xs);
    FemaleMeaning(xs);
    AgeDataMeaning(xs);
  }

  lemma TalliesSnoc(xs: seq<Allocated>, a: Allocated)
    ensures TalliesOf(xs + [a]) == Step(TalliesOf(xs), a)
  {
    assert Init(xs + [a]) == xs && Last(xs + [a]) == a;
  }

  lemma TalliesValid(xs: seq<Allocated>)
    ensures Valid(TalliesOf(xs).maleAgeGroups) && Valid(TalliesOf(xs).femaleAgeGroups)
    ensures Valid(TalliesOf(xs).ageGroupData)
  {
    TalliesMeaning(xs);
    GroupByValid(Filter(xs, IsMale), AgeKey, CountSeed, AddCounts);
    GroupByValid(Filter(xs, IsFemale), AgeKey, CountSeed, AddCounts);
    GroupByValid(xs, AgeKey, MoneySeed, AddMoney);
  }

  /** What `demographicMetrics` holds for a present `campaigns` array. */
  function DemographicReport(cs: seq<Campaign>): (r: DemographicMetrics)
  {
    TalliesValid(AllocatedSlices(cs));
    Derive(TalliesOf(AllocatedSlices(cs)))
  }

  /**
    A gender's age-group block: create the slice's age-group entry on first
    sight, then add the slice's counts and one to `campaigns`.
   */
  method CountInto(groups: Obj<AgeCounts>, a: Allocated) returns (r: Obj<AgeCounts>)
    ensures r == Upsert(groups, a, AgeKey, CountSeed, AddCounts)
  {
    r := groups;
    var age := a.ageGroup;
    if age !in r.vals {
      r := Obj(r.keys + [age], r.vals[age := AgeCounts(0, 0, 0, 0)]);
    }
    var e := r.vals[age];
    r := r.(vals := r.vals[age := AgeCounts(e.impressions + a.impressions, e.clicks + a.clicks,
                                            e.conversions + a.conversions, e.campaigns + 1)]);
  }

  /** The `ageGroupData` block: create the entry on first sight, then add spend and revenue. */
  method MoneyInto(data: Obj<AgeMoney>, a: Allocated) returns (r: Obj<AgeMoney>)
    ensures r == Upsert(data, a, AgeKey, MoneySeed, AddMoney)
  {
    r := data;
    var age := a.ageGroup;
    if age !in r.vals {
      r := Obj(r.keys + [age], r.vals[age := AgeMoney(0.0, 0.0)]);
    }
    var m := r.vals[age];
    r := r.(vals := r.vals[age := AgeMoney(m.spend + a.spend, m.revenue + a.revenue)]);
  }

  /**
    The memo: `null` without campaigns; otherwise the nested `forEach`
    loops allot each slice its share and add it to its gender's counters and
    age-group table and to the gender-agnostic age-group table.
   */
  method DemographicMetricsOf(campaigns: Option<seq<Campaign>>) returns (r: Option<DemographicMetrics>)
    ensures r == if campaigns.None? then None else Some(DemographicReport(campaigns.value))
  {
    if campaigns.None? {
      return None;
    }
    var cs := campaigns.value;
    var t := Start();
    for i := 0 to |cs|
      invariant t == TalliesOf(AllocatedSlices(cs[..i]))
    {
      var campaign := cs[i];
      var demos := campaign.demographicBreakdown;
      ghost var before := AllocatedSlices(cs[..i]);
      ghost var allotted := Map(demos, Allocator(campaign));
      assert before + allotted[..0] == before;
      for j := 0 to |demos|
        invariant t == TalliesOf(before + allotted[..j])
      {
        t := AddDemo(t, campaign, demos[j]);
        TalliesSnoc(before + allotted[..j], allotted[j]);
        TakeSnoc(before, allotted, j);
      }
      assert allotted[..|demos|] == allotted;
      TakeSnoc([], cs, i);
    }
    assert cs[..|cs|] == cs;
    TalliesValid(AllocatedSlices(cs));
    r := Some(Derive(t));
  }

  /**
    The inner `forEach` callback for one slice: allot it its share of the
    campaign's spend and revenue, add it to its gender's counters and
    age-group table, then to the gender-agnostic age-group table.
   */
  method AddDemo(t: Tallies, campaign: Campaign, demo: DemographicSlice) returns (t': Tallies)
    ensures t' == Step(t, Allocate(campaign, demo))
  {
    var clicks := demo.performance.clicks;
    var demoPercentage := demo.percentageOfAudience / 100.0;
    var demoSpend := campaign.spend * demoPercentage;
    var demoRevenue := campaign.revenue * demoPercentage;
    var a := Allocated(demo.gender, demo.ageGroup, demo.performance.impressions, clicks,
                       demo.performance.conversions, demoSpend, demoRevenue);
    assert a == Allocate(campaign, demo);
    t' := t;
    if demo.gender == "Male" {
      var groups := CountInto(t.maleAgeGroups, a);
      t' := t.(maleClicks := t.maleClicks + clicks, maleSpend := t.maleSpend + demoSpend,
               maleRevenue := t.maleRevenue + demoRevenue, maleAgeGroups := groups);
    } else if demo.gender == "Female" {
      var groups := CountInto(t.femaleAgeGroups, a);
      t' := t.(femaleClicks := t.femaleClicks + clicks, femaleSpend := t.femaleSpend + demoSpend,
               femaleRevenue := t.femaleRevenue + demoRevenue, femaleAgeGroups := groups);
    }
    var data := MoneyInto(t'.ageGroupData, a);
    t' := t'.(ageGroupData := data);
    assert t' == Step(t, a);
  }

  /** The spend allotted over a campaign's slices is its spend times their percentages over 100. */
  lemma AllocatedSpend(c: Campaign, xs: seq<DemographicSlice>)
    ensures Sum(Map(xs, Allocator(c)), ASpend) == c.spend * (Sum(xs, Percentage) / 100.0)
  {
    MappedSpend(c, xs);
    ScaledShares(c.spend, xs);
    SharesSum(xs);
  }

  /** The revenue allotted over a campaign's slices is its revenue times their percentages over 100. */
  lemma AllocatedRevenue(c: Campaign, xs: seq<DemographicSlice>)
    ensures Sum(Map(xs, Allocator(c)), ARevenue) == c.revenue * (Sum(xs, Percentage) / 100.0)
  {
    MappedRevenue(c, xs);
    ScaledShares(c.revenue, xs);
    SharesSum(xs);
  }

  lemma MappedSpend(c: Campaign, xs: seq<DemographicSlice>)
    ensures Sum(Map(xs, Allocator(c)), ASpend) == Sum(xs, ShareOf(c.spend))
  {
    forall d ensures ASpend(Allocator(c)(d)) == ShareOf(c.spend)(d) {
      assert Allocator(c)(d) == Allocate(c, d);
    }
    SumMap(xs, Allocator(c), ASpend, ShareOf(c.spend));
  }

  lemma MappedRevenue(c: Campaign, xs: seq<DemographicSlice>)
    ensures Sum(Map(xs, Allocator(c)), ARevenue) == Sum(xs, ShareOf(c.revenue))
  {
    forall d ensures ARevenue(Allocator(c)(d)) == ShareOf(c.revenue)(d) {
      assert Allocator(c)(d) == Allocate(c, d);
    }
    SumMap(xs, Allocator(c), ARevenue, ShareOf(c.revenue));
  }

  lemma ScaledShares(k: real, xs: seq<DemographicSlice>)
    ensures Sum(xs, ShareOf(k)) == k * Sum(xs, Share)
  {
    SumScale(xs, Share, ShareOf(k), k);
  }

  lemma SharesSum(xs: seq<DemographicSlice>)
    ensures Sum(xs, Share) == Sum(xs, Percentage) / 100.0
  {
    SumScale(xs, Percentage, Share, 1.0 / 100.0);
  }

  /** A slice's share of the amount `k`. */
  function ShareOf(k: real): (r: DemographicSlice -> real)
  {
    d => k * Share(d)
  }

  function Percentage(d: DemographicSlice): (r: real) { d.percentageOfAudience }

  /** The fraction of a campaign's money a slice is allotted. */
  function Share(d: DemographicSlice): (r: real) { d.percentageOfAudience / 100.0 }

  /**
    The allotment neither creates nor loses money: when a campaign's
    audience percentages add up to 100, its slices' allotted spend and
    revenue add up to the campaign's own.
   */
  lemma AllocationConserves(c: Campaign)
    requires Sum(c.demographicBreakdown, Percentage) == 100.0
    ensures Sum(Map(c.demographicBreakdown, Allocator(c)), ASpend) == c.spend
    ensures Sum(Map(c.demographicBreakdown, Allocator(c)), ARevenue) == c.revenue
  {
    AllocatedSpend(c, c.demographicBreakdown);
    AllocatedRevenue(c, c.demographicBreakdown);
    assert Sum(c.demographicBreakdown, Percentage) / 100.0 == 1.0;
  }

  /**
    A slice changes only its own gender's counters and age-group table
    (none of them for a gender other than Male or Female), and always
    enters `ageGroupData`.
   */
  lemma GenderBuckets(xs: seq<Allocated>, a: Allocated)
    ensures var before, after := TalliesOf(xs), TalliesOf(xs + [a]);
      && (a.gender != "Male" ==>
            after.maleClicks == before.maleClicks && after.maleSpend == before.maleSpend
            && after.maleRevenue == before.maleRevenue && after.maleAgeGroups == before.maleAgeGroups)
      && (a.gender != "Female" ==>
            after.femaleClicks == before.femaleClicks && after.femaleSpend == before.femaleSpend
            && after.femaleRevenue == before.femaleRevenue && after.femaleAgeGroups == before.femaleAgeGroups)
      && after.ageGroupData == Upsert(before.ageGroupData, a, AgeKey, MoneySeed, AddMoney)
  {
    TalliesSnoc(xs, a);
  }

  /** Every slice is Male, Female or other: the three filters split any sum. */
  lemma {:induction false} GenderSplit(xs: seq<Allocated>, f: Allocated -> real)
    ensures Sum(xs, f) == Sum(Filter(xs, IsMale), f) + Sum(Filter(xs, IsFemale), f) + Sum(Filter(xs, IsOther), f)
    decreases |xs|
  {
    if xs != [] {
      GenderSplit(Init(xs), f);
      var a := Last(xs);
      var m, w, o := Filter(Init(xs), IsMale), Filter(Init(xs), IsFemale), Filter(Init(xs), IsOther);
      assert Sum(xs, f) == Sum(Init(xs), f) + f(a);
      if IsMale(a) {
        assert Filter(xs, IsMale) == m + [a] && Filter(xs, IsFemale) == w && Filter(xs, IsOther) == o;
        assert Init(m + [a]) == m && Last(m + [a]) == a;
        assert Sum(m + [a], f) == Sum(m, f) + f(a);
      } else if IsFemale(a) {
        assert Filter(xs, IsMale) == m && Filter(xs, IsFemale) == w + [a] && Filter(xs, IsOther) == o;
        assert Init(w + [a]) == w && Last(w + [a]) == a;
        assert Sum(w + [a], f) == Sum(w, f) + f(a);
      } else {
        assert Filter(xs, IsMale) == m && Filter(xs, IsFemale) == w && Filter(xs, IsOther) == o + [a];
        assert Init(o + [a]) == o && Last(o + [a]) == a;
        assert Sum(o + [a], f) == Sum(o, f) + f(a);
      }
    }
  }

  function MoneySpend(m: AgeMoney): (r: real) { m.spend }
  function MoneyRevenue(m: AgeMoney): (r: real) { m.revenue }

  /**
    `ageGroupData` holds the money of every slice: its spend is the Male
    spend plus the Female spend plus the spend of slices of any other
    gender, and likewise its revenue.
   */
  lemma AgeGroupPartition(cs: seq<Campaign>)
    ensures var xs := AllocatedSlices(cs);
      var r := DemographicReport(cs);
      var data := r.ageGroupData;
      && SumValues(data.keys, data.vals, MoneySpend) == Sum(xs, ASpend)
           == r.maleSpend + r.femaleSpend + Sum(Filter(xs, IsOther), ASpend)
      && SumValues(data.keys, data.vals, MoneyRevenue) == Sum(xs, ARevenue)
           == r.maleRevenue + r.femaleRevenue + Sum(Filter(xs, IsOther), ARevenue)
  {
    var xs := AllocatedSlices(cs);
    MaleMeaning(xs);
    FemaleMeaning(xs);
    AgeDataMeaning(xs);
    GroupBySum(xs, AgeKey, MoneySeed, AddMoney, MoneySpend, ASpend);
    GroupBySum(xs, AgeKey, MoneySeed, AddMoney, MoneyRevenue, ARevenue);
    GenderSplit(xs, ASpend);
    GenderSplit(xs, ARevenue);
  }

  /** Adding slices to an age-group entry adds their counts and their number. */
  lemma {:induction false} FoldCounts(t: AgeCounts, xs: seq<Allocated>)
    ensures FoldFrom(t, AddCounts, xs)
         == AgeCounts(t.impressions + Total(xs, AImpressions), t.clicks + Total(xs, AClicks),
                      t.conversions + Total(xs, AConversions), t.campaigns + |xs|)
    decreases |xs|
  {
    if xs != [] {
      FoldCounts(t, Init(xs));
    }
  }

  /**
    The rows built from grouping slices `ys` by age group: one per age
    group present, in first-seen order.
   */
  lemma AgeRowsOrder(ys: seq<Allocated>)
    ensures var o := GroupBy(ys, AgeKey, CountSeed, AddCounts);
      Valid(o) &&
      var rows := Rows(o.keys, o.vals, MakeAgeRow);
      && (forall k :: k in o.keys <==> Matching(ys, AgeKey, k) != [])
      && (forall i, j :: 0 <= i < j < |rows| ==>
            FirstIndex(ys, AgeKey, rows[i].ageGroup) < FirstIndex(ys, AgeKey, rows[j].ageGroup))
  {
    var o := GroupBy(ys, AgeKey, CountSeed, AddCounts);
    GroupByValid(ys, AgeKey, CountSeed, AddCounts);
    GroupByOrder(ys, AgeKey, CountSeed, AddCounts);
    forall k ensures k in o.keys <==> Matching(ys, AgeKey, k) != [] {
      GroupByMeaning(ys, AgeKey, CountSeed, AddCounts, k);
    }
  }

  /**
    Each age row sums exactly its age group's slices and derives its
    percentages with the zero guard.
   */
  lemma AgeRowMeaning(ys: seq<Allocated>, i: nat)
    requires i < |GroupBy(ys, AgeKey, CountSeed, AddCounts).keys|
    ensures var o := GroupBy(ys, AgeKey, CountSeed, AddCounts);
      Valid(o) &&
      var row := Rows(o.keys, o.vals, MakeAgeRow)[i];
      var ms := Matching(ys, AgeKey, row.ageGroup);
      && ms != []
      && row.impressions == Total(ms, AImpressions)
      && row.clicks == Total(ms, AClicks)
      && row.conversions == Total(ms, AConversions)
      && row.ctr == Percent(row.clicks as real, row.impressions as real)
      && row.conversionRate == Percent(row.conversions as real, row.clicks as real)
  {
    var o := GroupBy(ys, AgeKey, CountSeed, AddCounts);
    GroupByValid(ys, AgeKey, CountSeed, AddCounts);
    var k := o.keys[i];
    GroupByMeaning(ys, AgeKey, CountSeed, AddCounts, k);
    var ms := Matching(ys, AgeKey, k);
    FoldCounts(CountSeed(ms[0]), ms);
  }

  /**
    The Male (Female) counters of the report are the sums over exactly the
    Male (Female) allotted slices.
   */
  lemma GenderTotals(cs: seq<Campaign>)
    ensures var xs := AllocatedSlices(cs);
      var males, females := Filter(xs, IsMale), Filter(xs, IsFemale);
      var r := DemographicReport(cs);
      && r.maleClicks == Total(males, AClicks)
      && r.maleSpend == Sum(males, ASpend)
      && r.maleRevenue == Sum(males, ARevenue)
      && r.femaleClicks == Total(females, AClicks)
      && r.femaleSpend == Sum(females, ASpend)
      && r.femaleRevenue == Sum(females, ARevenue)
  {
    var xs := AllocatedSlices(cs);
    MaleMeaning(xs);
    FemaleMeaning(xs);
  }

  /**
    The Male (Female) age-group rows of the report are built from exactly
    the Male (Female) allotted slices.
   */
  lemma GenderRows(cs: seq<Campaign>)
    ensures var xs := AllocatedSlices(cs);
      var males, females := Filter(xs, IsMale), Filter(xs, IsFemale);
      var r := DemographicReport(cs);
      var mo, fo := GroupBy(males, AgeKey, CountSeed, AddCounts), GroupBy(females, AgeKey, CountSeed, AddCounts);
      && Valid(mo) && Valid(fo)
      && r.maleAgeGroupsArray == Rows(mo.keys, mo.vals, MakeAgeRow)
      && r.femaleAgeGroupsArray == Rows(fo.keys, fo.vals, MakeAgeRow)
  {
    var xs := AllocatedSlices(cs);
    MaleMeaning(xs);
    FemaleMeaning(xs);
    GroupByValid(Filter(xs, IsMale), AgeKey, CountSeed, AddCounts);
    GroupByValid(Filter(xs, IsFemale), AgeKey, CountSeed, AddCounts);
  }

  /** A campaign split into one Male and one Female slice allots each slice its share. */
  lemma TwoSlices(c: Campaign, m: DemographicSlice, f: DemographicSlice)
    requires c.demographicBreakdown == [m, f]
    ensures AllocatedSlices([c]) == [Allocate(c, m), Allocate(c, f)]
  {
    var ds := c.demographicBreakdown;
    assert Init([c]) == [] && Last([c]) == c;
    assert Init(ds) == [m] && Last(ds) == f;
    assert Init([m]) == [] && Last([m]) == m;
  }

  /** With one Male and one Female slice, each gender's counters hold exactly its slice's allotment. */
  lemma TwoSliceTotals(c: Campaign, m: DemographicSlice, f: DemographicSlice)
    requires c.demographicBreakdown == [m, f]
    requires m.gender == "Male" && f.gender == "Female"
    ensures var r, a0, a1 := DemographicReport([c]), Allocate(c, m), Allocate(c, f);
      && r.maleSpend == a0.spend && r.femaleSpend == a1.spend
      && r.maleRevenue == a0.revenue && r.femaleRevenue == a1.revenue
      && r.maleClicks == a0.clicks && r.femaleClicks == a1.clicks
  {
    var a0, a1 := Allocate(c, m), Allocate(c, f);
    TwoSlices(c, m, f);
    GenderPair(a0, a1);
    SingleSums(a0);
    SingleSums(a1);
    GenderTotals([c]);
  }

  lemma GenderPair(a0: Allocated, a1: Allocated)
    requires a0.gender == "Male" && a1.gender == "Female"
    ensures Filter([a0, a1], IsMale) == [a0] && Filter([a0, a1], IsFemale) == [a1]
  {
    var xs := [a0, a1];
    assert Init(xs) == [a0] && Last(xs) == a1;
    assert Init([a0]) == [] && Last([a0]) == a0;
  }

  lemma SingleSums(a: Allocated)
    ensures Sum([a], ASpend) == a.spend && Sum([a], ARevenue) == a.revenue && Total([a], AClicks) == a.clicks
  {
    assert Init([a]) == [] && Last([a]) == a;
  }

  /**
    A campaign with one Male and one Female slice gives the Male counters
    the Male percentage of its spend and revenue and the Female counters
    the Female percentage; clicks stay with their slice.
   */
  lemma TwoSliceSplit(c: Campaign, m: DemographicSlice, f: DemographicSlice)
    requires c.demographicBreakdown == [m, f]
    requires m.gender == "Male" && f.gender == "Female"
    ensures var r := DemographicReport([c]);
      && r.maleSpend == c.spend * (m.percentageOfAudience / 100.0)
      && r.femaleSpend == c.spend * (f.percentageOfAudience / 100.0)
      && r.maleRevenue == c.revenue * (m.percentageOfAudience / 100.0)
      && r.femaleRevenue == c.revenue * (f.percentageOfAudience / 100.0)
      && r.maleClicks == m.performance.clicks
      && r.femaleClicks == f.performance.clicks
  {
    TwoSliceTotals(c, m, f);
  }

  /** `order[age] || 99`: the chart rank of an age-group label. */
  function AgeRank(age: string): (r: real)
  {
    if age == "18-24" then 1.0
    else if age == "25-34" then 2.0
    else if age == "35-44" then 3.0
    else if age == "45-54" then 4.0
    else if age == "55+" then 5.0
    else 99.0
  }

  function RankKey(e: (string, AgeMoney)): (r: real) { AgeRank(e.0) }

  /** `Object.entries(ageGroupData).sort(by rank)`, shared by both age-group charts. */
  function ChartEntries(data: Obj<AgeMoney>): (r: seq<(string, AgeMoney)>)
    requires Valid(data)
  {
    SortBy(Entries(data), RankKey)
  }

  function SpendBar(e: (string, AgeMoney)): (r: Bar) { Bar(e.0, e.1.spend) }
  function RevenueBar(e: (string, AgeMoney)): (r: Bar) { Bar(e.0, e.1.revenue) }

  /** The spend-by-age chart's bars. */
  function SpendBars(data: Obj<AgeMoney>): (r: seq<Bar>)
    requires Valid(data)
  {
    Map(ChartEntries(data), SpendBar)
  }

  /** The revenue-by-age chart's bars. */
  function RevenueBars(data: Obj<AgeMoney>): (r: seq<Bar>)
    requires Valid(data)
  {
    Map(ChartEntries(data), RevenueBar)
  }

  /**
    The chart entries are a permutation of `ageGroupData`'s entries ordered
    18-24, 25-34, 35-44, 45-54, 55+ and then every other label, labels of
    equal rank in insertion order; both charts have one bar per entry, in
    that order.
   */
  lemma ChartOrder(data: Obj<AgeMoney>)
    requires Valid(data)
    ensures var sorted := ChartEntries(data);
      && multiset(sorted) == multiset(Entries(data))
      && (forall i, j :: 0 <= i < j < |sorted| ==> AgeRank(sorted[i].0) <= AgeRank(sorted[j].0))
      && (forall c :: KeyClass(sorted, RankKey, c) == KeyClass(Entries(data), RankKey, c))
      && |SpendBars(data)| == |RevenueBars(data)| == |sorted| == |data.keys|
      && (forall i :: 0 <= i < |sorted| ==>
            SpendBars(data)[i] == Bar(sorted[i].0, sorted[i].1.spend)
            && RevenueBars(data)[i] == Bar(sorted[i].0, sorted[i].1.revenue))
  {
    SortBySorted(Entries(data), RankKey);
    forall c ensures KeyClass(ChartEntries(data), RankKey, c) == KeyClass(Entries(data), RankKey, c) {
      SortByStable(Entries(data), RankKey, c);
    }
  }
}
