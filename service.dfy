/** `MarketingMixService`: the loaded geo and national series, the channel
    totals, summary and insights derived from them at start-up, and the
    queries the API serves from that state. */
module MarketingMix {
  import opened Wrappers
  import opened Numeric
  import opened Text
  import opened Records
  import opened Filtering
  import opened Loading
  import opened Summary
  import opened Totals
  import Shift

  /** One entry of `geo_metadata`. */
  datatype GeoMeta = GeoMeta(geo: string, start: Date, end: Date, sampleSize: nat)

  /** Ordered by geo name as `metadata.sort(key=lambda item: item["geo"])`
      leaves it. */
  predicate SortedByGeo(ms: seq<GeoMeta>) {
    forall i, j :: 0 <= i < j < |ms| ==> !LexLess(ms[j].geo, ms[i].geo)
  }

  /** Insert `x` after every entry whose geo is not greater than its own. */
  function InsertByGeo(sorted: seq<GeoMeta>, x: GeoMeta): (r: seq<GeoMeta>)
    ensures multiset(r) == multiset(sorted) + multiset{x}
    ensures forall y :: y in r ==> y in sorted || y == x
  {
    if |sorted| == 0 || !LexLess(x.geo, sorted[|sorted| - 1].geo) then sorted + [x]
    else
      var n := |sorted| - 1;
      assert sorted == sorted[..n] + [sorted[n]];
      InsertByGeo(sorted[..n], x) + [sorted[n]]
  }

  /** Python's stable sort by geo, as an insertion sort. */
  function SortByGeo(ms: seq<GeoMeta>): (r: seq<GeoMeta>)
    ensures multiset(r) == multiset(ms)
  {
    if |ms| == 0 then []
    else
      var n := |ms| - 1;
      assert ms == ms[..n] + [ms[n]];
      InsertByGeo(SortByGeo(ms[..n]), ms[n])
  }

  lemma {:induction false} InsertByGeoSorted(sorted: seq<GeoMeta>, x: GeoMeta)
    requires SortedByGeo(sorted)
    ensures SortedByGeo(InsertByGeo(sorted, x))
  {
    if |sorted| == 0 {
    } else if !LexLess(x.geo, sorted[|sorted| - 1].geo) {
      var n := |sorted| - 1;
      var r := sorted + [x];
      forall i | 0 <= i < n ensures !LexLess(x.geo, sorted[i].geo) {
        NotLessTransitive(sorted[i].geo, sorted[n].geo, x.geo);
      }
      assert forall i, j :: 0 <= i < j < |r| ==> !LexLess(r[j].geo, r[i].geo);
    } else {
      var n := |sorted| - 1;
      var last := sorted[n];
      assert SortedByGeo(sorted[..n]);
      InsertByGeoSorted(sorted[..n], x);
      var front := InsertByGeo(sorted[..n], x);
      forall k | 0 <= k < |front| ensures !LexLess(last.geo, front[k].geo) {
        if front[k] == x {
          LexLessAsymmetric(x.geo, last.geo);
        } else {
          assert front[k] in sorted[..n];
          var j :| 0 <= j < n && sorted[..n][j] == front[k];
          assert !LexLess(sorted[n].geo, sorted[j].geo);
        }
      }
      var r := front + [last];
      forall i, j | 0 <= i < j < |r| ensures !LexLess(r[j].geo, r[i].geo) {
        if j == |front| {
          assert r[i] == front[i];
        }
      }
    }
  }

  lemma {:induction false} SortByGeoSorted(ms: seq<GeoMeta>)
    ensures SortedByGeo(SortByGeo(ms))
  {
    if |ms| > 0 {
      var n := |ms| - 1;
      SortByGeoSorted(ms[..n]);
      InsertByGeoSorted(SortByGeo(ms[..n]), ms[n]);
    }
  }

  /** No two entries name the same geo. */
  predicate DistinctGeos(ms: seq<GeoMeta>) {
    forall i, j :: 0 <= i < j < |ms| ==> ms[i].geo != ms[j].geo
  }

  lemma {:induction false} DistinctGeosOnce(ms: seq<GeoMeta>, x: GeoMeta)
    requires DistinctGeos(ms)
    ensures multiset(ms)[x] <= 1
  {
    if |ms| > 0 {
      var n := |ms| - 1;
      assert ms == ms[..n] + [ms[n]];
      DistinctGeosOnce(ms[..n], x);
      if x == ms[n] {
        assert x !in ms[..n];
      }
    }
  }

  lemma RepeatedTwice(ms: seq<GeoMeta>, i: int, j: int)
    requires 0 <= i < j < |ms| && ms[i] == ms[j]
    ensures multiset(ms)[ms[i]] >= 2
  {
    assert ms == ms[..j] + [ms[j]] + ms[j + 1..];
    assert ms[i] in ms[..j];
  }

  /** Reordering a list with one entry per geo keeps one entry per geo, when
      an entry is determined by its geo. */
  lemma DistinctGeosPermutation(a: seq<GeoMeta>, b: seq<GeoMeta>)
    requires DistinctGeos(a) && multiset(a) == multiset(b)
    requires forall x, y :: x in b && y in b && x.geo == y.geo ==> x == y
    ensures DistinctGeos(b)
  {
    forall i, j | 0 <= i < j < |b| ensures b[i].geo != b[j].geo {
      if b[i].geo == b[j].geo {
        assert b[i] == b[j];
        RepeatedTwice(b, i, j);
        DistinctGeosOnce(a, b[i]);
      }
    }
  }

  /** Sorting by geo keeps the entries, and one entry per geo when an entry
      is determined by its geo. */
  lemma SortByGeoKeeps(ms: seq<GeoMeta>)
    ensures SortedByGeo(SortByGeo(ms))
    ensures forall e :: e in SortByGeo(ms) <==> e in ms
    ensures DistinctGeos(ms) && (forall x, y :: x in ms && y in ms && x.geo == y.geo ==> x == y) ==>
      DistinctGeos(SortByGeo(ms))
  {
    var sorted := SortByGeo(ms);
    SortByGeoSorted(ms);
    assert forall e :: e in sorted <==> e in multiset(ms);
    if DistinctGeos(ms) && (forall x, y :: x in ms && y in ms && x.geo == y.geo ==> x == y) {
      DistinctGeosPermutation(ms, sorted);
    }
  }

  /** The metadata entry of a non-empty stored group. */
  function MetaOf(geo: string, rs: seq<Record>): GeoMeta
    requires rs != []
  {
    GeoMeta(geo, rs[0].time, rs[|rs| - 1].time, |rs|)
  }

  /** The geo groups as `_load_geo_data` stores them. */
  predicate StoredGeo(m: map<string, seq<Record>>) {
    forall g :: g in m ==> GoodGroup(g, m[g]) && SortedByTime(m[g])
  }

  /** The national weeks as `_load_national_data` stores them. */
  predicate StoredNational(rs: seq<Record>) {
    SortedByTime(rs) &&
    forall i :: 0 <= i < |rs| ==> rs[i].NationalRecord? && WellFormedChannels(rs[i].channels)
  }

  lemma StoredNationalKnown(rs: seq<Record>)
    requires StoredNational(rs)
    ensures KnownChannels(rs)
  {
    forall i, k | 0 <= i < |rs| && 0 <= k < |rs[i].channels|
      ensures ChannelIndex(rs[i].channels[k].id).Some?
    {
      assert rs[i].channels[k].id == ChannelId(k);
    }
  }

  /** The per-channel sums `_compute_channel_totals` computes from the
      national weeks, before pricing. */
  ghost predicate TotalsDerived(national: seq<Record>, totals: seq<ChannelTotals>) {
    && |totals| == CHANNEL_COUNT
    && (forall j :: 0 <= j < CHANNEL_COUNT ==> totals[j].id == ChannelId(j) && totals[j].name == ChannelName(j))
    && TotalsSpends(totals) == ChannelSpends(national)
    && (forall j :: 0 <= j < CHANNEL_COUNT ==> totals[j].impressions == RecordsTotal(national, ChannelId(j), ImpressionsOf))
    && (forall j :: 0 <= j < CHANNEL_COUNT ==>
          totals[j].averageWeeklySpend == AverageWeekly(totals[j].spend, |national|))
  }

  /** What `_compute_summary`, `_compute_channel_totals` and
      `_build_insights` derive from the national weeks. */
  ghost predicate Derived(national: seq<Record>, summary: SummaryMetrics, totals: seq<ChannelTotals>, insights: seq<Insight>) {
    && summary == SummaryOf(national)
    && TotalsDerived(national, totals)
    && Priced(totals, summary.totalConversions, summary.totalRevenue)
    && insights == BuildInsights(totals, summary.recentConversionLift)
  }

  /** The derivation step of `_load_all`. */
  method Derive(national: seq<Record>) returns (summary: SummaryMetrics, totals: seq<ChannelTotals>, insights: seq<Insight>)
    requires StoredNational(national)
    ensures Derived(national, summary, totals, insights)
  {
    summary := ComputeSummary(national);
    StoredNationalKnown(national);
    totals := ComputeChannelTotals(national, summary);
    assert TotalsSpends(totals) == ChannelSpends(national);
    insights := BuildInsights(totals, summary.recentConversionLift);
  }

  /** In a derived state the channel spends add up to the summary's total
      spend, so both share the same `sum(...) or 1.0` divisor. */
  lemma DerivedSpendsTotal(national: seq<Record>, summary: SummaryMetrics, totals: seq<ChannelTotals>,
                           insights: seq<Insight>)
    requires StoredNational(national) && Derived(national, summary, totals, insights)
    ensures Sum(TotalsSpends(totals)) == summary.totalSpend
  {
    ChannelSpendsSumToTotal(national);
  }

  /** Every channel with spend in a derived state reports the summary's
      ROAS. */
  lemma DerivedChannelRoas(national: seq<Record>, summary: SummaryMetrics, totals: seq<ChannelTotals>,
                           insights: seq<Insight>, j: int)
    requires StoredNational(national) && Derived(national, summary, totals, insights)
    requires summary.totalSpend != 0.0
    requires 0 <= j < |totals| && totals[j].spend != 0.0
    ensures totals[j].roas == summary.roas
  {
    ChannelRoasIsSummaryRoas(totals, national, summary, j);
  }

  class MarketingMixService {
    var geoRecords: map<string, seq<Record>>
    var nationalRecords: seq<Record>
    var channelTotals: seq<ChannelTotals>
    var summary: SummaryMetrics
    var insights: seq<Insight>

    /** What `_load_all` establishes: stored series grouped and sorted, the
        summary and channel totals computed from the national weeks, and the
        insights built from them. */
    ghost predicate Valid()
      reads this
    {
      Loaded() && Derived(nationalRecords, summary, channelTotals, insights)
    }

    /** The stored series as `_load_geo_data` and `_load_national_data`
        leave them; all the series and bounds lookups need. */
    ghost predicate Loaded()
      reads this
    {
      StoredGeo(geoRecords) && StoredNational(nationalRecords)
    }

    /** The tail of `_load_all` over loaded data: `_compute_summary`,
        `_compute_channel_totals`, `_build_insights`. */
    constructor (geo: map<string, seq<Record>>, national: seq<Record>)
      requires StoredGeo(geo) && StoredNational(national)
      ensures geoRecords == geo && nationalRecords == national
      ensures Valid()
    {
      var s, totals, ins := Derive(national);
      geoRecords, nationalRecords := geo, national;
      summary, channelTotals, insights := s, totals, ins;
    }

    /** `get_geo_series`: 404 for an unknown geo, otherwise the stored
        records within the bounds, in stored order, their channels filtered. */
    method GetGeoSeries(geo: string, start: Option<Date>, end: Option<Date>, channels: Option<seq<string>>)
      returns (r: Result<seq<Record>>)
      requires Loaded()
      ensures geo !in geoRecords ==> r == Err(Http(404))
      ensures geo in geoRecords ==> var kept := InRange(geoRecords[geo], start, end);
        && (r.Err? <==> kept != [] && FilterFails(ChannelFilterOf(channels)))
        && (r.Err? ==> r.error == ValueError)
        && (r.Ok? ==> |r.value| == |kept| && SortedByTime(r.value))
        && (r.Ok? ==> forall i :: 0 <= i < |kept| ==> FilterChannels(kept[i], ChannelFilterOf(channels)) == Ok(r.value[i]))
    {
      if geo !in geoRecords {
        return Err(Http(404));
      }
      var channelFilter := ChannelFilterOf(channels);
      var series := geoRecords[geo];
      r := FilterSeries(series, start, end, channelFilter);
      if r.Ok? {
        FilteredSorted(series, start, end, channelFilter, r.value);
      }
    }

    /** `get_national_series`: the national weeks within the bounds, in
        stored order, their channels filtered. */
    method GetNationalSeries(start: Option<Date>, end: Option<Date>, channels: Option<seq<string>>)
      returns (r: Result<seq<Record>>)
      requires Loaded()
      ensures var kept := InRange(nationalRecords, start, end);
        && (r.Err? <==> kept != [] && FilterFails(ChannelFilterOf(channels)))
        && (r.Err? ==> r.error == ValueError)
        && (r.Ok? ==> |r.value| == |kept| && SortedByTime(r.value))
        && (r.Ok? ==> forall i :: 0 <= i < |kept| ==> FilterChannels(kept[i], ChannelFilterOf(channels)) == Ok(r.value[i]))
    {
      var channelFilter := ChannelFilterOf(channels);
      r := FilterSeries(nationalRecords, start, end, channelFilter);
      if r.Ok? {
        FilteredSorted(nationalRecords, start, end, channelFilter, r.value);
      }
    }

    /** `get_geo_bounds`: 404 for an unknown or empty geo, otherwise the first
        and last stored dates, which bound every stored date. */
    method GetGeoBounds(geo: string) returns (r: Result<(Date, Date)>)
      requires Loaded()
      ensures r.Err? <==> geo !in geoRecords || geoRecords[geo] == []
      ensures r.Err? ==> r.error == Http(404)
      ensures r.Ok? ==> r.value.0 <= r.value.1
      ensures r.Ok? ==> forall x :: x in geoRecords[geo] ==> r.value.0 <= x.time <= r.value.1
      ensures r.Ok? ==> r.value == (geoRecords[geo][0].time, geoRecords[geo][|geoRecords[geo]| - 1].time)
    {
      if geo !in geoRecords || geoRecords[geo] == [] {
        return Err(Http(404));
      }
      var records := geoRecords[geo];
      assert SortedByTime(records);
      SortedBounds(records);
      r := Ok((records[0].time, records[|records| - 1].time));
    }

    /** `get_national_bounds`: 404 without national data, otherwise the first
        and last stored dates, which bound every stored date. */
    method GetNationalBounds() returns (r: Result<(Date, Date)>)
      requires Loaded()
      ensures r.Err? <==> nationalRecords == []
      ensures r.Err? ==> r.error == Http(404)
      ensures r.Ok? ==> forall x :: x in nationalRecords ==> r.value.0 <= x.time <= r.value.1
      ensures r.Ok? ==> r.value == (nationalRecords[0].time, nationalRecords[|nationalRecords| - 1].time)
    {
      if nationalRecords == [] {
        return Err(Http(404));
      }
      SortedBounds(nationalRecords);
      r := Ok((nationalRecords[0].time, nationalRecords[|nationalRecords| - 1].time));
    }

    /** `get_geo_sample_size`: the number of stored weeks, 0 for an unknown
        geo; positive exactly when the geo has bounds. */
    function GeoSampleSize(geo: string): (n: nat)
      reads this
      ensures n > 0 <==> geo in geoRecords && geoRecords[geo] != []
    {
      if geo in geoRecords then |geoRecords[geo]| else 0
    }

    /** `geo_metadata`: one entry per non-empty geo, sorted by geo name. */
    method GeoMetadata() returns (m: seq<GeoMeta>)
      ensures SortedByGeo(m) && DistinctGeos(m)
      ensures forall e :: e in m <==>
        e.geo in geoRecords && geoRecords[e.geo] != [] && e == MetaOf(e.geo, geoRecords[e.geo])
    {
      var remaining := geoRecords.Keys;
      var metadata: seq<GeoMeta> := [];
      while remaining != {}
        invariant remaining <= geoRecords.Keys
        invariant forall e :: e in metadata <==>
          e.geo in geoRecords && e.geo !in remaining && geoRecords[e.geo] != [] && e == MetaOf(e.geo, geoRecords[e.geo])
        invariant DistinctGeos(metadata)
        decreases |remaining|
      {
        var geo :| geo in remaining;
        remaining := remaining - {geo};
        var records := geoRecords[geo];
        if records == [] {
          continue;
        }
        metadata := metadata + [GeoMeta(geo, records[0].time, records[|records| - 1].time, |records|)];
      }
      m := SortByGeo(metadata);
      SortByGeoKeeps(metadata);
    }

    /** `simulate_budget_shift` on the stored totals, which it does not
        change: the source channel loses `source_spend * shift_ratio`, the
        target gains it, every other channel and every id and name stay as
        they are, and the summary's total spend is kept. */
    method SimulateBudgetShift(source: string, target: string, ratio: real) returns (r: Result<seq<ChannelTotals>>)
      requires Valid()
      ensures r.Err? <==> Shift.ShiftError(channelTotals, source, target, ratio).Some?
      ensures r.Err? ==> r.error == Shift.ShiftError(channelTotals, source, target, ratio).value
      ensures r.Ok? ==> |r.value| == CHANNEL_COUNT
      ensures r.Ok? ==> Priced(r.value, summary.totalConversions, summary.totalRevenue)
      ensures r.Ok? ==> forall j :: 0 <= j < CHANNEL_COUNT ==>
        r.value[j].id == channelTotals[j].id && r.value[j].name == channelTotals[j].name &&
        r.value[j].impressions == channelTotals[j].impressions &&
        r.value[j].averageWeeklySpend == channelTotals[j].averageWeeklySpend
      ensures r.Ok? ==> var s, t := Shift.IndexOf(channelTotals, source).value, Shift.IndexOf(channelTotals, target).value;
        && r.value[s].spend == channelTotals[s].spend - Shift.ShiftAmount(channelTotals[s].spend, ratio)
        && r.value[t].spend == channelTotals[t].spend + Shift.ShiftAmount(channelTotals[s].spend, ratio)
        && (forall j :: 0 <= j < CHANNEL_COUNT && j != s && j != t ==> r.value[j].spend == channelTotals[j].spend)
        && (0.0 < ratio ==> r.value[s].spend < channelTotals[s].spend && channelTotals[t].spend < r.value[t].spend)
      ensures r.Ok? ==> Sum(TotalsSpends(r.value)) == summary.totalSpend
    {
      forall i, j | 0 <= i < j < |channelTotals| ensures channelTotals[i].id != channelTotals[j].id {
        ChannelIdsDistinct(i, j);
      }
      r := Shift.SimulateBudgetShift(channelTotals, summary.totalConversions, summary.totalRevenue, source, target, ratio);
      ChannelSpendsSumToTotal(nationalRecords);
    }
  }

  /** `MarketingMixService()` over the rows of the two CSV files: load both
      data sets (the first bad date raises `ValueError`), then derive the
      totals. */
  method Open(geoRows: seq<Row>, nationalRows: seq<Row>, floatOf: FloatParser, dateOf: DateParser)
    returns (r: Result<MarketingMixService>)
    ensures r.Err? <==> GroupRows(geoRows, floatOf, dateOf).Err? || NationalRecordsOf(nationalRows, floatOf, dateOf).Err?
    ensures r.Err? ==> r.error == ValueError
    ensures r.Ok? ==> fresh(r.value) && r.value.Valid()
    ensures r.Ok? ==> r.value.geoRecords.Keys == GroupRows(geoRows, floatOf, dateOf).value.Keys
    ensures r.Ok? ==> multiset(r.value.nationalRecords) == multiset(NationalRecordsOf(nationalRows, floatOf, dateOf).value)
    ensures r.Ok? ==> r.value.nationalRecords == SortByTime(NationalRecordsOf(nationalRows, floatOf, dateOf).value)
    ensures r.Ok? ==> var groups := GroupRows(geoRows, floatOf, dateOf).value;
      forall g :: g in groups ==> r.value.geoRecords[g] == SortByTime(groups[g])
  {
    var geo := LoadGeoData(geoRows, floatOf, dateOf);
    if geo.Err? {
      return Err(geo.error);
    }
    var national := LoadNationalData(nationalRows, floatOf, dateOf);
    if national.Err? {
      return Err(national.error);
    }
    var groups := GroupRows(geoRows, floatOf, dateOf).value;
    GroupRowsGood(geoRows, floatOf, dateOf);
    forall g | g in geo.value ensures GoodGroup(g, geo.value[g]) {
      GoodGroupPermutation(g, groups[g], geo.value[g]);
    }
    NationalRecordsWellFormed(nationalRows, floatOf, dateOf);
    var rs := national.value;
    forall i | 0 <= i < |rs| ensures rs[i].NationalRecord? && WellFormedChannels(rs[i].channels) {
      assert rs[i] in multiset(rs);
    }
    var service := new MarketingMixService(geo.value, rs);
    r := Ok(service);
  }
}
