/** The `/marketing-mix` routes: the per-week points of the geo and national
    series with their derived metrics, the response's date bounds, the
    channel aggregates sorted by spend, and the budget-shift scenario. */
module MarketingMixRoutes {
  import opened Wrappers
  import opened Numeric
  import opened Text
  import opened Records
  import opened Filtering
  import opened Summary
  import opened Totals
  import opened Schemas
  import opened MarketingMix
  import Shift

  /** `channel_totals.get(id, {}).get("name", id.title())`. */
  function DisplayName(totals: seq<ChannelTotals>, id: string): (name: string)
    ensures (forall k :: 0 <= k < |totals| ==> totals[k].id != id) ==> name == Title(id)
    ensures Shift.DistinctIds(totals) ==>
      forall k :: 0 <= k < |totals| && totals[k].id == id ==> name == totals[k].name
  {
    match Shift.IndexOf(totals, id)
    case Some(k) => totals[k].name
    case None => Title(id)
  }

  /** The stored totals name every known channel `Channel i`. */
  lemma DisplayNameKnown(national: seq<Record>, summary: SummaryMetrics, totals: seq<ChannelTotals>,
                         insights: seq<Insight>, j: nat)
    requires Derived(national, summary, totals, insights)
    requires j < CHANNEL_COUNT
    ensures DisplayName(totals, ChannelId(j)) == ChannelName(j)
  {
    forall p, q | 0 <= p < q < |totals| ensures totals[p].id != totals[q].id {
      ChannelIdsDistinct(p, q);
    }
  }

  function ChannelPointOf(totals: seq<ChannelTotals>, c: ChannelRecord): ChannelPoint {
    ChannelPoint(c.id, DisplayName(totals, c.id), c.spend, c.impressions, c.organicImpressions)
  }

  function ChannelPoints(totals: seq<ChannelTotals>, cs: seq<ChannelRecord>): (r: seq<ChannelPoint>)
    ensures |r| == |cs| && forall k :: 0 <= k < |cs| ==> r[k] == ChannelPointOf(totals, cs[k])
  {
    seq(|cs|, k requires 0 <= k < |cs| => ChannelPointOf(totals, cs[k]))
  }

  /** `record.conversions or 0.0`. */
  function ConversionsOrZero(r: Record): real {
    r.conversions.GetOr(0.0)
  }

  /** `spend_efficiency`: conversions per unit of spend, absent unless both
      are nonzero. */
  function Efficiency(totalSpend: real, conversions: real): (e: Option<real>)
    ensures e.Some? <==> totalSpend != 0.0 && conversions != 0.0
    ensures e.Some? ==> e.value * totalSpend == conversions
  {
    if totalSpend != 0.0 && conversions != 0.0 then Some(conversions / totalSpend) else None
  }

  /** `prev_conversions` when the loop reaches week `i`: the conversions of
      the latest earlier week that had any. */
  function PrevConversions(rs: seq<Record>, i: nat): (p: Option<real>)
    requires i <= |rs|
    ensures p.Some? ==> p.value != 0.0
  {
    if i == 0 then None
    else if ConversionsOrZero(rs[i - 1]) != 0.0 then Some(ConversionsOrZero(rs[i - 1]))
    else PrevConversions(rs, i - 1)
  }

  /** Week `j` is the latest week before `i` with nonzero conversions. */
  predicate LatestNonzero(rs: seq<Record>, i: int, j: int) {
    0 <= j < i <= |rs| && ConversionsOrZero(rs[j]) != 0.0 &&
    forall k :: j < k < i ==> ConversionsOrZero(rs[k]) == 0.0
  }

  lemma {:induction false} PrevConversionsLatest(rs: seq<Record>, i: nat)
    requires i <= |rs|
    ensures PrevConversions(rs, i).None? <==> forall j :: 0 <= j < i ==> ConversionsOrZero(rs[j]) == 0.0
    ensures PrevConversions(rs, i).Some? ==>
      exists j :: LatestNonzero(rs, i, j) && PrevConversions(rs, i).value == ConversionsOrZero(rs[j])
  {
    if i > 0 {
      PrevConversionsLatest(rs, i - 1);
      if ConversionsOrZero(rs[i - 1]) != 0.0 {
        assert PrevConversions(rs, i) == Some(ConversionsOrZero(rs[i - 1]));
        assert LatestNonzero(rs, i, i - 1);
      } else {
        assert PrevConversions(rs, i) == PrevConversions(rs, i - 1);
        if PrevConversions(rs, i - 1).Some? {
          var j :| LatestNonzero(rs, i - 1, j) && PrevConversions(rs, i - 1).value == ConversionsOrZero(rs[j]);
          assert LatestNonzero(rs, i, j);
        }
      }
    }
  }

  /** `lift_vs_prev`: the change relative to the previous nonzero week. */
  function LiftVsPrev(conversions: real, prev: Option<real>): Option<real> {
    if prev.Some? && prev.value != 0.0 then Some(Lift(conversions, prev.value)) else None
  }

  /** The point the loop appends for week `i` of a filtered series. */
  function PointOf(rs: seq<Record>, i: nat, totals: seq<ChannelTotals>): MetricPoint
    requires i < |rs|
  {
    var record := rs[i];
    var totalSpend := WeekSpend(record);
    var conversions := ConversionsOrZero(record);
    MetricPoint(
      record.time,
      record.conversions,
      record.revenuePerConversion,
      record.competitorSalesControl,
      record.sentimentScoreControl,
      record.promo,
      if record.GeoRecord? then record.population else None,
      ChannelPoints(totals, record.channels),
      totalSpend,
      Efficiency(totalSpend, conversions),
      LiftVsPrev(conversions, PrevConversions(rs, i)))
  }

  /** The points of a whole series, week by week. */
  function SeriesPoints(rs: seq<Record>, totals: seq<ChannelTotals>): seq<MetricPoint> {
    seq(|rs|, i requires 0 <= i < |rs| => PointOf(rs, i, totals))
  }

  /** `points` are those of the weeks `kept`, their channels filtered. */
  predicate FilteredSeriesPoints(points: seq<MetricPoint>, kept: seq<Record>, filter: Option<set<string>>,
                                 totals: seq<ChannelTotals>) {
    points == SeriesPoints(FilterAll(kept, filter), totals)
  }

  /** The loop of `get_geo_timeseries` and `get_national_timeseries`: one
      point per week, in order, `prev_conversions` carried across weeks. */
  method BuildPoints(series: seq<Record>, totals: seq<ChannelTotals>) returns (points: seq<MetricPoint>)
    ensures |points| == |series|
    ensures forall i :: 0 <= i < |series| ==> points[i] == PointOf(series, i, totals)
    ensures forall i :: 0 <= i < |series| ==> points[i].time == series[i].time
  {
    points := [];
    var prev: Option<real> := None;
    var i := 0;
    while i < |series|
      invariant i <= |series|
      invariant |points| == i
      invariant prev == PrevConversions(series, i)
      invariant forall q :: 0 <= q < i ==> points[q] == PointOf(series, q, totals)
    {
      var record := series[i];
      var totalSpend := Sum(Spends(record.channels));
      var conversions := record.conversions.GetOr(0.0);
      var efficiency := if totalSpend != 0.0 && conversions != 0.0 then Some(conversions / totalSpend) else None;
      var lift: Option<real> := None;
      if prev.Some? && prev.value != 0.0 {
        lift := Some(Lift(conversions, prev.value));
      }
      if conversions != 0.0 {
        prev := Some(conversions);
      }
      var population := if record.GeoRecord? then record.population else None;
      points := points + [MetricPoint(record.time, record.conversions, record.revenuePerConversion,
                                      record.competitorSalesControl, record.sentimentScoreControl, record.promo,
                                      population, ChannelPoints(totals, record.channels),
                                      totalSpend, efficiency, lift)];
      i := i + 1;
    }
  }

  /** What each point says about its week: its date and channels, the week's
      total spend, efficiency exactly when spend and conversions are nonzero,
      and a lift exactly when an earlier week had conversions, measured
      against the latest such week. */
  lemma PointMeaning(rs: seq<Record>, i: nat, totals: seq<ChannelTotals>)
    requires i < |rs|
    ensures var p := PointOf(rs, i, totals);
      && p.time == rs[i].time
      && p.totalSpend == WeekSpend(rs[i])
      && |p.channels| == |rs[i].channels|
      && (forall k :: 0 <= k < |rs[i].channels| ==>
            p.channels[k].id == rs[i].channels[k].id && p.channels[k].spend == rs[i].channels[k].spend)
      && (p.spendEfficiency.Some? <==> WeekSpend(rs[i]) != 0.0 && ConversionsOrZero(rs[i]) != 0.0)
      && (p.liftVsPrev.Some? <==> exists j :: 0 <= j < i && ConversionsOrZero(rs[j]) != 0.0)
      && (p.liftVsPrev.Some? ==>
            exists j :: LatestNonzero(rs, i, j) && p.liftVsPrev.value == Lift(ConversionsOrZero(rs[i]), ConversionsOrZero(rs[j])))
  {
    PrevConversionsLatest(rs, i);
  }

  /** Weeks whose values all meet the response validators' bounds. */
  predicate NonNegativeWeeks(rs: seq<Record>) {
    forall i :: 0 <= i < |rs| ==>
      && NonNegativeOption(rs[i].conversions)
      && NonNegativeOption(rs[i].revenuePerConversion)
      && forall k :: 0 <= k < |rs[i].channels| ==>
           rs[i].channels[k].spend >= 0.0 && rs[i].channels[k].impressions >= 0.0 &&
           NonNegativeOption(rs[i].channels[k].organicImpressions)
  }

  /** Non-negative data yields points the response model accepts. */
  lemma PointsValid(rs: seq<Record>, i: nat, totals: seq<ChannelTotals>)
    requires NonNegativeWeeks(rs) && i < |rs|
    ensures ValidMetricPoint(PointOf(rs, i, totals))
  {
    SumNonNegative(Spends(rs[i].channels));
  }

  /** The response's bounds: the stored first and last dates, narrowed by the
      requested ones when given. */
  function ClampBounds(stored: (Date, Date), start: Option<Date>, end: Option<Date>): (r: (Date, Date))
    ensures r.0 >= stored.0 && (start.Some? ==> r.0 >= start.value)
    ensures r.0 == stored.0 || (start.Some? && r.0 == start.value)
    ensures r.1 <= stored.1 && (end.Some? ==> r.1 <= end.value)
    ensures r.1 == stored.1 || (end.Some? && r.1 == end.value)
  {
    (if start.Some? then MaxDate(stored.0, start.value) else stored.0,
     if end.Some? then MinDate(stored.1, end.value) else stored.1)
  }

  /** Filtering the channels of a week keeps its date. */
  lemma FilterKeepsTime(kept: seq<Record>, filtered: seq<Record>, filter: Option<set<string>>)
    requires |filtered| == |kept|
    requires forall i :: 0 <= i < |kept| ==> FilterChannels(kept[i], filter) == Ok(filtered[i])
    ensures forall i :: 0 <= i < |kept| ==> filtered[i].time == kept[i].time
  {
    forall i | 0 <= i < |kept| ensures filtered[i].time == kept[i].time {
      if filter.Some? && filter.value != {} {
        assert filtered[i].(channels := kept[i].channels) == kept[i];
      }
    }
  }

  /** Every week kept by the date filter lies inside the clamped bounds
      when the stored bounds span the whole series. */
  lemma KeptWithinClamp(series: seq<Record>, stored: (Date, Date), start: Option<Date>, end: Option<Date>)
    requires forall x :: x in series ==> stored.0 <= x.time <= stored.1
    ensures var kept := InRange(series, start, end); var clamped := ClampBounds(stored, start, end);
      forall i :: 0 <= i < |kept| ==> clamped.0 <= kept[i].time <= clamped.1
  {
    var kept := InRange(series, start, end);
    InRangeMembers(series, start, end);
    forall i | 0 <= i < |kept| ensures ClampBounds(stored, start, end).0 <= kept[i].time <= ClampBounds(stored, start, end).1 {
      assert kept[i] in kept;
    }
  }

  /** The points of a series whose kept weeks were filtered: one per kept
      week, at its date, computed from the filtered weeks. */
  method FilteredPoints(kept: seq<Record>, filtered: seq<Record>, filter: Option<set<string>>,
                        totals: seq<ChannelTotals>)
    returns (points: seq<MetricPoint>)
    requires |filtered| == |kept|
    requires forall i :: 0 <= i < |kept| ==> FilterChannels(kept[i], filter) == Ok(filtered[i])
    ensures |points| == |kept|
    ensures forall i :: 0 <= i < |kept| ==> points[i].time == kept[i].time
    ensures points == SeriesPoints(FilterAll(kept, filter), totals)
  {
    FilteredFromIsFilterAll(kept, filtered, filter);
    assert filtered == FilterAll(kept, filter);
    FilterKeepsTime(kept, filtered, filter);
    points := BuildPoints(filtered, totals);
  }

  /** The response both timeseries routes build once the series is filtered
      and the stored bounds are known: the points of the filtered weeks, and
      the stored bounds clamped to the requested ones, which bound every kept
      week. */
  method SeriesResponseOf(geo: Option<string>, stored: seq<Record>, filtered: seq<Record>, bounds: (Date, Date),
                          start: Option<Date>, end: Option<Date>, filter: Option<set<string>>,
                          totals: seq<ChannelTotals>)
    returns (response: SeriesResponse)
    requires forall x :: x in stored ==> bounds.0 <= x.time <= bounds.1
    requires |filtered| == |InRange(stored, start, end)|
    requires forall i :: 0 <= i < |filtered| ==> FilterChannels(InRange(stored, start, end)[i], filter) == Ok(filtered[i])
    ensures var kept := InRange(stored, start, end);
      && response.geo == geo && |response.points| == |kept|
      && (forall i :: 0 <= i < |kept| ==>
            response.points[i].time == kept[i].time && response.start <= kept[i].time <= response.end)
      && FilteredSeriesPoints(response.points, kept, filter, totals)
    ensures (response.start, response.end) == ClampBounds(bounds, start, end)
  {
    var kept := InRange(stored, start, end);
    var points := FilteredPoints(kept, filtered, filter, totals);
    KeptWithinClamp(stored, bounds, start, end);
    var clamped := ClampBounds(bounds, start, end);
    response := SeriesResponse(geo, clamped.0, clamped.1, points);
  }

  /** `get_geo_timeseries`. */
  method GeoTimeseries(service: MarketingMixService, geo: string, start: Option<Date>, end: Option<Date>,
                       channels: Option<seq<string>>)
    returns (r: Result<SeriesResponse>)
    requires service.Loaded()
    ensures geo !in service.geoRecords ==> r == Err(Http(404))
    ensures geo in service.geoRecords ==> var kept := InRange(service.geoRecords[geo], start, end);
      && (r.Err? <==> kept != [] && FilterFails(ChannelFilterOf(channels)))
      && (r.Err? ==> r.error == ValueError)
      && (r.Ok? ==> r.value.geo == Some(geo) && |r.value.points| == |kept|)
      && (r.Ok? ==> forall i :: 0 <= i < |kept| ==>
            r.value.points[i].time == kept[i].time && r.value.start <= kept[i].time <= r.value.end)
      && (r.Ok? ==> FilteredSeriesPoints(r.value.points, kept, ChannelFilterOf(channels), service.channelTotals))
    ensures r.Ok? ==> var stored := service.geoRecords[geo];
      (r.value.start, r.value.end) == ClampBounds((stored[0].time, stored[|stored| - 1].time), start, end)
  {
    var series := service.GetGeoSeries(geo, start, end, channels);
    if series.Err? {
      return Err(series.error);
    }
    var bounds := service.GetGeoBounds(geo);
    assert bounds.Ok?;
    var response := SeriesResponseOf(Some(geo), service.geoRecords[geo], series.value, bounds.value, start, end,
                                     ChannelFilterOf(channels), service.channelTotals);
    r := Ok(response);
  }

  /** `get_national_timeseries`; without national data the bounds lookup
      answers 404 after the series has been filtered. */
  method NationalTimeseries(service: MarketingMixService, start: Option<Date>, end: Option<Date>,
                            channels: Option<seq<string>>)
    returns (r: Result<SeriesResponse>)
    requires service.Loaded()
    ensures var kept := InRange(service.nationalRecords, start, end);
      && (r.Err? <==> (kept != [] && FilterFails(ChannelFilterOf(channels))) || service.nationalRecords == [])
      && (r.Err? ==> r.error == if kept != [] then ValueError else Http(404))
      && (r.Ok? ==> r.value.geo == None && |r.value.points| == |kept|)
      && (r.Ok? ==> forall i :: 0 <= i < |kept| ==>
            r.value.points[i].time == kept[i].time && r.value.start <= kept[i].time <= r.value.end)
      && (r.Ok? ==> FilteredSeriesPoints(r.value.points, kept, ChannelFilterOf(channels), service.channelTotals))
    ensures r.Ok? ==> var stored := service.nationalRecords;
      (r.value.start, r.value.end) == ClampBounds((stored[0].time, stored[|stored| - 1].time), start, end)
  {
    var series := service.GetNationalSeries(start, end, channels);
    if series.Err? {
      return Err(series.error);
    }
    var bounds := service.GetNationalBounds();
    if bounds.Err? {
      assert InRange(service.nationalRecords, start, end) == [];
      return Err(Http(404));
    }
    var response := SeriesResponseOf(None, service.nationalRecords, series.value, bounds.value, start, end,
                                     ChannelFilterOf(channels), service.channelTotals);
    r := Ok(response);
  }

  function AggregateOf(t: ChannelTotals): ChannelAggregate {
    ChannelAggregate(t.id, t.name, t.spend, t.impressions, t.spendShare, t.averageWeeklySpend,
                     t.estimatedConversions, t.estimatedRevenue, t.roas, t.cac)
  }

  function Aggregates(totals: seq<ChannelTotals>): (r: seq<ChannelAggregate>)
    ensures |r| == |totals| && forall j :: 0 <= j < |totals| ==> r[j] == AggregateOf(totals[j])
  {
    seq(|totals|, j requires 0 <= j < |totals| => AggregateOf(totals[j]))
  }

  /** Ordered by `total_spend`, largest first. */
  predicate SpendDescending(xs: seq<ChannelAggregate>) {
    forall i, j :: 0 <= i < j < |xs| ==> xs[i].totalSpend >= xs[j].totalSpend
  }

  /** Insert `x` after every entry with at least its spend, so that equal
      spends keep their order as Python's stable `sort(reverse=True)` does. */
  function InsertDescending(sorted: seq<ChannelAggregate>, x: ChannelAggregate): (r: seq<ChannelAggregate>)
    ensures multiset(r) == multiset(sorted) + multiset{x}
    ensures |r| == |sorted| + 1
    ensures forall y :: y in r ==> y in sorted || y == x
  {
    if |sorted| == 0 || sorted[|sorted| - 1].totalSpend >= x.totalSpend then sorted + [x]
    else
      var n := |sorted| - 1;
      assert sorted == sorted[..n] + [sorted[n]];
      InsertDescending(sorted[..n], x) + [sorted[n]]
  }

  function SortDescending(xs: seq<ChannelAggregate>): (r: seq<ChannelAggregate>)
    ensures multiset(r) == multiset(xs)
    ensures |r| == |xs|
  {
    if |xs| == 0 then []
    else
      var n := |xs| - 1;
      assert xs == xs[..n] + [xs[n]];
      InsertDescending(SortDescending(xs[..n]), xs[n])
  }

  lemma {:induction false} InsertDescendingSorted(sorted: seq<ChannelAggregate>, x: ChannelAggregate)
    requires SpendDescending(sorted)
    ensures SpendDescending(InsertDescending(sorted, x))
  {
    if |sorted| > 0 && sorted[|sorted| - 1].totalSpend < x.totalSpend {
      var n := |sorted| - 1;
      assert SpendDescending(sorted[..n]);
      InsertDescendingSorted(sorted[..n], x);
      var front := InsertDescending(sorted[..n], x);
      forall k | 0 <= k < |front| ensures front[k].totalSpend >= sorted[n].totalSpend {
        var y := front[k];
        assert y in front;
        if y != x {
          var m :| 0 <= m < n && sorted[..n][m] == y;
          assert sorted[m] == y;
        }
      }
      var r := front + [sorted[n]];
      forall i, j | 0 <= i < j < |r| ensures r[i].totalSpend >= r[j].totalSpend {
        assert r[i] == front[i];
        if j < |front| {
          assert r[j] == front[j];
        } else {
          assert r[j] == sorted[n];
        }
      }
    }
  }

  lemma {:induction false} SortDescendingSorted(xs: seq<ChannelAggregate>)
    ensures SpendDescending(SortDescending(xs))
  {
    if |xs| > 0 {
      var n := |xs| - 1;
      SortDescendingSorted(xs[..n]);
      InsertDescendingSorted(SortDescending(xs[..n]), xs[n]);
    }
  }

  /** The aggregates of `xs` whose total spend is `v`, in their order in `xs`. */
  function WithSpend(xs: seq<ChannelAggregate>, v: real): seq<ChannelAggregate> {
    if |xs| == 0 then []
    else WithSpend(xs[..|xs| - 1], v) + (if xs[|xs| - 1].totalSpend == v then [xs[|xs| - 1]] else [])
  }

  lemma WithSpendSnoc(xs: seq<ChannelAggregate>, y: ChannelAggregate, v: real)
    ensures WithSpend(xs + [y], v) == WithSpend(xs, v) + (if y.totalSpend == v then [y] else [])
  {
    assert (xs + [y])[..|xs|] == xs;
  }

  lemma {:induction false} InsertDescendingWithSpend(sorted: seq<ChannelAggregate>, x: ChannelAggregate, v: real)
    ensures WithSpend(InsertDescending(sorted, x), v) == WithSpend(sorted, v) + (if x.totalSpend == v then [x] else [])
  {
    if |sorted| == 0 || sorted[|sorted| - 1].totalSpend >= x.totalSpend {
      WithSpendSnoc(sorted, x, v);
    } else {
      var n := |sorted| - 1;
      var last := sorted[n];
      var front := InsertDescending(sorted[..n], x);
      assert InsertDescending(sorted, x) == front + [last];
      InsertDescendingWithSpend(sorted[..n], x, v);
      WithSpendSnoc(front, last, v);
      if x.totalSpend == v {
        assert last.totalSpend != v;
        assert WithSpend(sorted, v) == WithSpend(sorted[..n], v);
      } else {
        assert WithSpend(front, v) == WithSpend(sorted[..n], v);
      }
    }
  }

  /** The sort is stable: aggregates with equal spend keep their order. */
  lemma {:induction false} SortDescendingStable(xs: seq<ChannelAggregate>, v: real)
    ensures WithSpend(SortDescending(xs), v) == WithSpend(xs, v)
  {
    if |xs| > 0 {
      var n := |xs| - 1;
      SortDescendingStable(xs[..n], v);
      InsertDescendingWithSpend(SortDescending(xs[..n]), xs[n], v);
    }
  }

  /** `get_channel_totals`: one aggregate per channel, largest spend first. */
  function ChannelAggregates(totals: seq<ChannelTotals>): (r: seq<ChannelAggregate>)
    ensures |r| == |totals|
    ensures multiset(r) == multiset(Aggregates(totals))
    ensures SpendDescending(r)
  {
    SortDescendingSorted(Aggregates(totals));
    SortDescending(Aggregates(totals))
  }

  /** Channels with equal spend are listed in channel order. */
  lemma ChannelAggregatesStable(totals: seq<ChannelTotals>, v: real)
    ensures WithSpend(ChannelAggregates(totals), v) == WithSpend(Aggregates(totals), v)
  {
    SortDescendingStable(Aggregates(totals), v);
  }

  lemma {:induction false} IdTotalNonNegative(cs: seq<ChannelRecord>, id: string, m: Measure)
    requires forall k :: 0 <= k < |cs| ==> Amount(cs[k], m) >= 0.0
    ensures IdTotal(cs, id, m) >= 0.0
  {
    if |cs| > 0 {
      IdTotalNonNegative(cs[..|cs| - 1], id, m);
    }
  }

  lemma {:induction false} RecordsTotalNonNegative(rs: seq<Record>, id: string, m: Measure)
    requires NonNegativeWeeks(rs)
    ensures RecordsTotal(rs, id, m) >= 0.0
  {
    if |rs| > 0 {
      var n := |rs| - 1;
      assert NonNegativeWeeks(rs[..n]) by {
        forall i | 0 <= i < n ensures rs[..n][i] == rs[i] { }
      }
      RecordsTotalNonNegative(rs[..n], id, m);
      IdTotalNonNegative(rs[n].channels, id, m);
    }
  }

  /** A ratio of a non-negative part to a whole at least as large lies in
      [0, 1]. */
  lemma ShareInUnit(part: real, whole: real)
    requires 0.0 <= part <= whole && whole != 0.0
    ensures 0.0 <= part / whole <= 1.0
  {
  }

  /** A priced entry with non-negative spend, impressions and totals passes
      the `ChannelAggregate` validators. */
  lemma EntryValid(t: ChannelTotals, base: real, conversions: real, revenue: real)
    requires base > 0.0 && 0.0 <= t.spend <= base
    requires t.impressions >= 0.0 && t.averageWeeklySpend >= 0.0
    requires conversions >= 0.0 && revenue >= 0.0
    requires t.spendShare == t.spend / base
    requires t.estimatedConversions == conversions * t.spendShare
    requires t.estimatedRevenue == revenue * t.spendShare
    requires t.spend != 0.0 ==> t.roas * t.spend == t.estimatedRevenue
    requires t.spend == 0.0 ==> t.roas == 0.0
    requires t.cac.Some? ==> t.estimatedConversions != 0.0 && t.cac.value * t.estimatedConversions == t.spend
    ensures ValidChannelAggregate(AggregateOf(t))
  {
    ShareInUnit(t.spend, base);
    ProductNonNegative(conversions, t.spendShare);
    ProductNonNegative(revenue, t.spendShare);
    if t.spend != 0.0 {
      QuotientNonNegative(t.roas, t.spend, t.estimatedRevenue);
    }
    if t.cac.Some? {
      QuotientNonNegative(t.cac.value, t.estimatedConversions, t.spend);
    }
  }

  /** Over non-negative national data the stored totals of channel j pass the
      `ChannelAggregate` validators. */
  lemma AggregateValid(national: seq<Record>, summary: SummaryMetrics, totals: seq<ChannelTotals>,
                       insights: seq<Insight>, j: nat)
    requires Derived(national, summary, totals, insights)
    requires NonNegativeWeeks(national)
    requires j < CHANNEL_COUNT
    ensures ValidChannelAggregate(AggregateOf(totals[j]))
  {
    var spends := TotalsSpends(totals);
    StoredSpendsNonNegative(national, spends);
    RecordsTotalNonNegative(national, ChannelId(j), ImpressionsOf);
    AverageNonNegative(totals[j].spend, |national|);
    ConversionsAndRevenueNonNegative(national);
    PricedValid(totals, j, summary.totalConversions, summary.totalRevenue);
  }

  /** A priced entry passes the validators when every spend, its
      impressions and its average, and the summary totals are non-negative. */
  lemma PricedValid(ts: seq<ChannelTotals>, j: int, conversions: real, revenue: real)
    requires Priced(ts, conversions, revenue) && 0 <= j < |ts|
    requires forall q :: 0 <= q < |ts| ==> TotalsSpends(ts)[q] >= 0.0
    requires ts[j].impressions >= 0.0 && ts[j].averageWeeklySpend >= 0.0
    requires conversions >= 0.0 && revenue >= 0.0
    ensures ValidChannelAggregate(AggregateOf(ts[j]))
  {
    BaseCoversSpend(TotalsSpends(ts), j);
    PricedAt(ts, conversions, revenue, j);
    EntryValid(ts[j], ShareBase(TotalsSpends(ts)), conversions, revenue);
  }

  lemma StoredSpendsNonNegative(national: seq<Record>, spends: seq<real>)
    requires spends == ChannelSpends(national) && NonNegativeWeeks(national)
    ensures forall q :: 0 <= q < |spends| ==> spends[q] >= 0.0
  {
    forall q | 0 <= q < |spends| ensures spends[q] >= 0.0 {
      RecordsTotalNonNegative(national, ChannelId(q), SpendOf);
    }
  }

  /** With non-negative spends, the divisor of the shares is positive and at
      least every spend. */
  lemma BaseCoversSpend(spends: seq<real>, j: int)
    requires forall q :: 0 <= q < |spends| ==> spends[q] >= 0.0
    requires 0 <= j < |spends|
    ensures ShareBase(spends) > 0.0 && 0.0 <= spends[j] <= ShareBase(spends)
  {
    ElementAtMostSum(spends, j);
    SumNonNegative(spends);
  }

  lemma AverageNonNegative(spend: real, weeks: nat)
    requires spend >= 0.0
    ensures AverageWeekly(spend, weeks) >= 0.0
  {
    if weeks > 0 {
      QuotientNonNegative(AverageWeekly(spend, weeks), weeks as real, spend);
    }
  }

  lemma ConversionsAndRevenueNonNegative(rs: seq<Record>)
    requires NonNegativeWeeks(rs)
    ensures TotalConversions(rs) >= 0.0 && TotalRevenue(rs) >= 0.0
  {
    assert forall i :: 0 <= i < |rs| ==> rs[i].conversions.Some? ==> rs[i].conversions.value >= 0.0;
    TotalConversionsNonNegative(rs);
    TotalRevenueNonNegative(rs);
  }

  lemma ProductNonNegative(a: real, b: real)
    requires a >= 0.0 && b >= 0.0
    ensures a * b >= 0.0
  {
  }

  /** If `q * d == n` with `d` positive and `n` non-negative, `q` is
      non-negative. */
  lemma QuotientNonNegative(q: real, d: real, n: real)
    requires d >= 0.0 && d != 0.0 && n >= 0.0 && q * d == n
    ensures q >= 0.0
  {
    if q < 0.0 {
      ProductNegative(q, d);
    }
  }

  lemma ProductNegative(q: real, d: real)
    requires q < 0.0 && d > 0.0
    ensures q * d < 0.0
  {
  }

  /** Every aggregate `/channels` returns over non-negative data is valid. */
  lemma ChannelAggregatesValid(national: seq<Record>, summary: SummaryMetrics, totals: seq<ChannelTotals>,
                               insights: seq<Insight>)
    requires Derived(national, summary, totals, insights)
    requires NonNegativeWeeks(national)
    ensures forall a :: a in ChannelAggregates(totals) ==> ValidChannelAggregate(a)
  {
    var unsorted := Aggregates(totals);
    forall a | a in ChannelAggregates(totals) ensures ValidChannelAggregate(a) {
      assert a in multiset(unsorted);
      var j :| 0 <= j < |unsorted| && unsorted[j] == a;
      AggregateValid(national, summary, totals, insights, j);
    }
  }

  function ProjectionOf(t: ChannelTotals): ScenarioChannelProjection {
    ScenarioChannelProjection(t.id, t.name, t.spend, t.estimatedConversions, t.estimatedRevenue, t.roas, t.cac)
  }

  /** A projection priced as `simulate_budget_shift` re-prices a channel
      against `base`: its spend's share splits the conversions and the
      revenue, ROAS is revenue over spend (0 without spend) and CAC is spend
      over conversions (absent without conversions). */
  predicate PricedProjection(p: ScenarioChannelProjection, base: real, conversions: real, revenue: real)
    requires base != 0.0
  {
    && p.estimatedConversions == conversions * (p.spend / base)
    && p.estimatedRevenue == revenue * (p.spend / base)
    && p.roas == (if p.spend != 0.0 then p.estimatedRevenue / p.spend else 0.0)
    && p.cac == (if p.estimatedConversions != 0.0 then Some(p.spend / p.estimatedConversions) else None)
  }

  /** The projection of a priced entry is priced against the same base. */
  lemma ProjectionPriced(ts: seq<ChannelTotals>, j: int, conversions: real, revenue: real)
    requires 0 <= j < |ts| && PricedEntry(ts, j, conversions, revenue)
    ensures PricedProjection(ProjectionOf(ts[j]), ShareBase(TotalsSpends(ts)), conversions, revenue)
  {
  }

  /** The projection loop of `simulate_shift` over the shifted totals. */
  method Project(totals: seq<ChannelTotals>, baseConversions: real, baseRevenue: real)
    returns (response: ScenarioResponse)
    ensures |response.channels| == |totals|
    ensures forall j :: 0 <= j < |totals| ==> response.channels[j] == ProjectionOf(totals[j])
    ensures response.projectedConversions == Sum(EstimatedConversions(totals))
    ensures response.projectedRevenue == Sum(EstimatedRevenues(totals))
    ensures response.totalSpend == Sum(TotalsSpends(totals))
    ensures response.deltaConversions == response.projectedConversions - baseConversions
    ensures response.deltaRevenue == response.projectedRevenue - baseRevenue
  {
    var channels: seq<ScenarioChannelProjection> := [];
    var projectedConversions := 0.0;
    var projectedRevenue := 0.0;
    var j := 0;
    while j < |totals|
      invariant j <= |totals|
      invariant |channels| == j
      invariant forall q :: 0 <= q < j ==> channels[q] == ProjectionOf(totals[q])
      invariant projectedConversions == Sum(EstimatedConversions(totals)[..j])
      invariant projectedRevenue == Sum(EstimatedRevenues(totals)[..j])
    {
      assert EstimatedConversions(totals)[..j + 1][..j] == EstimatedConversions(totals)[..j];
      assert EstimatedRevenues(totals)[..j + 1][..j] == EstimatedRevenues(totals)[..j];
      projectedConversions := projectedConversions + totals[j].estimatedConversions;
      projectedRevenue := projectedRevenue + totals[j].estimatedRevenue;
      channels := channels + [ProjectionOf(totals[j])];
      j := j + 1;
    }
    assert EstimatedConversions(totals)[..j] == EstimatedConversions(totals);
    assert EstimatedRevenues(totals)[..j] == EstimatedRevenues(totals);
    response := ScenarioResponse(Sum(TotalsSpends(totals)), projectedConversions, projectedRevenue,
                                 projectedConversions - baseConversions, projectedRevenue - baseRevenue, channels);
  }

  /** The response of `simulate_shift` for totals the shift produced from
      the stored summary: priced against it and with its total spend. The
      stored totals before the shift have that total spend too, so each
      projection is priced against their `sum(...) or 1.0` divisor. */
  method ShiftResponse(totals: seq<ChannelTotals>, stored: seq<ChannelTotals>, summary: SummaryMetrics)
    returns (response: ScenarioResponse)
    requires |totals| == CHANNEL_COUNT
    requires Priced(totals, summary.totalConversions, summary.totalRevenue)
    requires Sum(TotalsSpends(totals)) == summary.totalSpend
    requires Sum(TotalsSpends(stored)) == summary.totalSpend
    ensures |response.channels| == CHANNEL_COUNT
    ensures forall j :: 0 <= j < CHANNEL_COUNT ==> response.channels[j] == ProjectionOf(totals[j])
    ensures forall j :: 0 <= j < CHANNEL_COUNT ==>
      PricedProjection(response.channels[j], ShareBase(TotalsSpends(stored)), summary.totalConversions, summary.totalRevenue)
    ensures response.projectedConversions == Sum(EstimatedConversions(totals))
    ensures response.projectedRevenue == Sum(EstimatedRevenues(totals))
    ensures response.projectedConversions == (if summary.totalSpend != 0.0 then summary.totalConversions else 0.0)
    ensures response.projectedRevenue == (if summary.totalSpend != 0.0 then summary.totalRevenue else 0.0)
    ensures response.totalSpend == summary.totalSpend
    ensures response.deltaConversions == response.projectedConversions - summary.totalConversions
    ensures response.deltaRevenue == response.projectedRevenue - summary.totalRevenue
    ensures summary.totalSpend != 0.0 ==> response.deltaConversions == 0.0 && response.deltaRevenue == 0.0
  {
    response := Project(totals, summary.totalConversions, summary.totalRevenue);
    forall j | 0 <= j < CHANNEL_COUNT
      ensures PricedProjection(response.channels[j], ShareBase(TotalsSpends(stored)),
                               summary.totalConversions, summary.totalRevenue)
    {
      ProjectionPriced(totals, j, summary.totalConversions, summary.totalRevenue);
    }
    if summary.totalSpend != 0.0 {
      PricedConversionsAddUp(totals, summary.totalConversions, summary.totalRevenue);
      PricedRevenueAddsUp(totals, summary.totalConversions, summary.totalRevenue);
    } else {
      PricedZeroSpendAddsUp(totals, summary.totalConversions, summary.totalRevenue);
    }
  }

  /** `simulate_shift`: the request validators (422 on failure), the shift
      itself, and the projection. Since the shifted shares still sum to one,
      the projection reproduces the summary and both deltas are zero whenever
      the summary's total spend is nonzero. */
  method SimulateShift(service: MarketingMixService, request: ScenarioRequest) returns (r: Result<ScenarioResponse>)
    requires service.Valid()
    ensures !ValidScenarioRequest(request) ==> r == Err(Http(422))
    ensures ValidScenarioRequest(request) ==>
      (r.Err? <==> Shift.ShiftError(service.channelTotals, request.sourceChannel, request.targetChannel,
                                    request.shiftRatio).Some?)
    ensures ValidScenarioRequest(request) && r.Err? ==>
      r.error == Shift.ShiftError(service.channelTotals, request.sourceChannel, request.targetChannel,
                                  request.shiftRatio).value
    ensures r.Err? ==> r.error.Http? && r.error.status in {400, 404, 422}
    ensures r.Ok? ==> |r.value.channels| == CHANNEL_COUNT
    ensures r.Ok? ==> forall j :: 0 <= j < CHANNEL_COUNT ==>
      r.value.channels[j].id == service.channelTotals[j].id && r.value.channels[j].name == service.channelTotals[j].name
    ensures r.Ok? ==>
      var s, t := Shift.IndexOf(service.channelTotals, request.sourceChannel).value,
                  Shift.IndexOf(service.channelTotals, request.targetChannel).value;
      var amount := Shift.ShiftAmount(service.channelTotals[s].spend, request.shiftRatio);
      && r.value.channels[s].spend == service.channelTotals[s].spend - amount
      && r.value.channels[t].spend == service.channelTotals[t].spend + amount
      && (forall j :: 0 <= j < CHANNEL_COUNT && j != s && j != t ==>
            r.value.channels[j].spend == service.channelTotals[j].spend)
    ensures r.Ok? ==>
      r.value.projectedConversions == (if service.summary.totalSpend != 0.0 then service.summary.totalConversions else 0.0)
    ensures r.Ok? ==>
      r.value.projectedRevenue == (if service.summary.totalSpend != 0.0 then service.summary.totalRevenue else 0.0)
    ensures r.Ok? ==> forall j :: 0 <= j < CHANNEL_COUNT ==>
      PricedProjection(r.value.channels[j], ShareBase(TotalsSpends(service.channelTotals)),
                       service.summary.totalConversions, service.summary.totalRevenue)
    ensures r.Ok? ==> r.value.totalSpend == service.summary.totalSpend
    ensures r.Ok? ==> r.value.deltaConversions == r.value.projectedConversions - service.summary.totalConversions
    ensures r.Ok? ==> r.value.deltaRevenue == r.value.projectedRevenue - service.summary.totalRevenue
    ensures r.Ok? && service.summary.totalSpend != 0.0 ==>
      r.value.deltaConversions == 0.0 && r.value.deltaRevenue == 0.0
  {
    if !ValidScenarioRequest(request) {
      return Err(Http(422));
    }
    var shifted := service.SimulateBudgetShift(request.sourceChannel, request.targetChannel, request.shiftRatio);
    if shifted.Err? {
      return Err(shifted.error);
    }
    DerivedSpendsTotal(service.nationalRecords, service.summary, service.channelTotals, service.insights);
    var response := ShiftResponse(shifted.value, service.channelTotals, service.summary);
    r := Ok(response);
  }
}
