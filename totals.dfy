/** `_compute_channel_totals`: spend and impressions per channel over the
    national weeks, and the shares, estimates, ROAS and CAC derived from
    them. The dictionary keyed by channel id (built in `CHANNEL_NAMES`
    order) is a sequence whose j-th entry is channel j. */
module Totals {
  import opened Wrappers
  import opened Numeric
  import opened Records
  import opened Summary

  /** The two per-channel quantities the totals accumulate. */
  datatype Measure = SpendOf | ImpressionsOf

  function Amount(c: ChannelRecord, m: Measure): real {
    match m
    case SpendOf => c.spend
    case ImpressionsOf => c.impressions
  }

  /** The amount a channel list holds for one channel id. */
  function IdTotal(cs: seq<ChannelRecord>, id: string, m: Measure): real {
    if |cs| == 0 then 0.0
    else IdTotal(cs[..|cs| - 1], id, m) + (if cs[|cs| - 1].id == id then Amount(cs[|cs| - 1], m) else 0.0)
  }

  /** The amount a series of weeks holds for one channel id. */
  function RecordsTotal(rs: seq<Record>, id: string, m: Measure): real {
    if |rs| == 0 then 0.0
    else RecordsTotal(rs[..|rs| - 1], id, m) + IdTotal(rs[|rs| - 1].channels, id, m)
  }

  /** The metrics dictionary of one channel. */
  datatype ChannelTotals = ChannelTotals(
    id: string,
    name: string,
    spend: real,
    impressions: real,
    spendShare: real,
    averageWeeklySpend: real,
    estimatedConversions: real,
    estimatedRevenue: real,
    roas: real,
    cac: Option<real>)

  function TotalsSpends(ts: seq<ChannelTotals>): (r: seq<real>)
    ensures |r| == |ts| && forall j :: 0 <= j < |ts| ==> r[j] == ts[j].spend
  {
    seq(|ts|, j requires 0 <= j < |ts| => ts[j].spend)
  }

  /** `sum(spends) or 1.0`: the divisor of every share. */
  function ShareBase(spends: seq<real>): (t: real)
    ensures t != 0.0
    ensures Sum(spends) != 0.0 ==> t == Sum(spends)
  {
    if Sum(spends) != 0.0 then Sum(spends) else 1.0
  }

  /** The metrics both `_compute_channel_totals` and `simulate_budget_shift`
      derive from a channel's spend: its share of `base`, the summary's
      conversions and revenue split by that share, ROAS (0 without spend)
      and CAC (`None` without estimated conversions). */
  function Reprice(t: ChannelTotals, base: real, conversions: real, revenue: real): (r: ChannelTotals)
    requires base != 0.0
    ensures r.id == t.id && r.name == t.name && r.spend == t.spend
    ensures r.impressions == t.impressions && r.averageWeeklySpend == t.averageWeeklySpend
  {
    var share := t.spend / base;
    var estimatedConversions := conversions * share;
    var estimatedRevenue := revenue * share;
    t.(spendShare := share,
       estimatedConversions := estimatedConversions,
       estimatedRevenue := estimatedRevenue,
       roas := if t.spend != 0.0 then estimatedRevenue / t.spend else 0.0,
       cac := if estimatedConversions != 0.0 then Some(t.spend / estimatedConversions) else None)
  }

  /** What the repriced metrics mean: the share times the divisor is the
      spend, the estimates are the totals scaled by the share, ROAS is
      estimated revenue per unit of spend (0 without spend), CAC is spend per
      estimated conversion (absent exactly when there are none). */
  lemma RepriceMeaning(t: ChannelTotals, base: real, conversions: real, revenue: real)
    requires base != 0.0
    ensures var r := Reprice(t, base, conversions, revenue);
      && r.spendShare * base == t.spend
      && r.estimatedConversions == conversions * r.spendShare
      && r.estimatedRevenue == revenue * r.spendShare
      && (r.spend != 0.0 ==> r.roas * r.spend == r.estimatedRevenue)
      && (r.spend == 0.0 ==> r.roas == 0.0)
      && (r.cac.Some? <==> r.estimatedConversions != 0.0)
      && (r.cac.Some? ==> r.cac.value * r.estimatedConversions == r.spend)
  {
    var r := Reprice(t, base, conversions, revenue);
    assert r.spendShare == t.spend / base;
    if r.spend != 0.0 {
      assert r.roas == r.estimatedRevenue / r.spend;
    }
    if r.cac.Some? {
      assert r.cac.value == r.spend / r.estimatedConversions;
    }
  }

  /** Every entry's derived metrics agree with its spend, the spends of all
      entries, and the summary's conversions and revenue. */
  predicate Priced(ts: seq<ChannelTotals>, conversions: real, revenue: real) {
    forall j :: 0 <= j < |ts| ==> PricedEntry(ts, j, conversions, revenue)
  }

  /** Entry j of `ts` is priced; the facts about one entry are drawn out
      only where an entry is named. */
  predicate PricedEntry(ts: seq<ChannelTotals>, j: int, conversions: real, revenue: real)
    requires 0 <= j < |ts|
  {
    ts[j] == Reprice(ts[j], ShareBase(TotalsSpends(ts)), conversions, revenue)
  }

  function Shares(ts: seq<ChannelTotals>): (r: seq<real>)
    ensures |r| == |ts| && forall j :: 0 <= j < |ts| ==> r[j] == ts[j].spendShare
  {
    seq(|ts|, j requires 0 <= j < |ts| => ts[j].spendShare)
  }

  function EstimatedConversions(ts: seq<ChannelTotals>): (r: seq<real>)
    ensures |r| == |ts| && forall j :: 0 <= j < |ts| ==> r[j] == ts[j].estimatedConversions
  {
    seq(|ts|, j requires 0 <= j < |ts| => ts[j].estimatedConversions)
  }

  function EstimatedRevenues(ts: seq<ChannelTotals>): (r: seq<real>)
    ensures |r| == |ts| && forall j :: 0 <= j < |ts| ==> r[j] == ts[j].estimatedRevenue
  {
    seq(|ts|, j requires 0 <= j < |ts| => ts[j].estimatedRevenue)
  }

  /** The entry the first phase of `_compute_channel_totals` holds for
      channel j once its spend and impressions are summed. */
  function Accumulated(j: nat, spend: real, impressions: real): (t: ChannelTotals)
    requires j < CHANNEL_COUNT
  {
    ChannelTotals(ChannelId(j), ChannelName(j), spend, impressions, 0.0, 0.0, 0.0, 0.0, 0.0, None)
  }

  /** `spend / max(len(records), 1)`: the average over the weeks, the spend
      itself when there are none. */
  function AverageWeekly(spend: real, weeks: nat): (a: real)
    ensures weeks == 0 ==> a == spend
    ensures weeks > 0 ==> a * weeks as real == spend
  {
    spend / (if weeks > 0 then weeks else 1) as real
  }

  /** Every channel a week carries is one of the five known ids, so the
      lookup `totals[channel.id]` never fails. */
  predicate KnownChannels(rs: seq<Record>) {
    forall i, k :: 0 <= i < |rs| && 0 <= k < |rs[i].channels| ==> ChannelIndex(rs[i].channels[k].id).Some?
  }

  lemma IdTotalStep(cs: seq<ChannelRecord>, k: int, id: string, m: Measure)
    requires 0 <= k < |cs|
    ensures IdTotal(cs[..k + 1], id, m) == IdTotal(cs[..k], id, m) + (if cs[k].id == id then Amount(cs[k], m) else 0.0)
  {
    assert cs[..k + 1][..k] == cs[..k];
  }

  lemma RecordsTotalStep(rs: seq<Record>, i: int, id: string, m: Measure)
    requires 0 <= i < |rs|
    ensures RecordsTotal(rs[..i + 1], id, m) == RecordsTotal(rs[..i], id, m) + IdTotal(rs[i].channels, id, m)
  {
    assert rs[..i + 1][..i] == rs[..i];
  }

  /** The first phase of `_compute_channel_totals`: for every week and every
      channel of it, add the channel's spend and impressions to the running
      totals of its id. */
  method AccumulateChannels(records: seq<Record>) returns (spend: seq<real>, impressions: seq<real>)
    requires KnownChannels(records)
    ensures |spend| == CHANNEL_COUNT && |impressions| == CHANNEL_COUNT
    ensures forall j :: 0 <= j < CHANNEL_COUNT ==> spend[j] == RecordsTotal(records, ChannelId(j), SpendOf)
    ensures forall j :: 0 <= j < CHANNEL_COUNT ==> impressions[j] == RecordsTotal(records, ChannelId(j), ImpressionsOf)
  {
    spend := [0.0, 0.0, 0.0, 0.0, 0.0];
    impressions := [0.0, 0.0, 0.0, 0.0, 0.0];
    var i := 0;
    while i < |records|
      invariant i <= |records|
      invariant |spend| == CHANNEL_COUNT && |impressions| == CHANNEL_COUNT
      invariant forall j :: 0 <= j < CHANNEL_COUNT ==> spend[j] == RecordsTotal(records[..i], ChannelId(j), SpendOf)
      invariant forall j :: 0 <= j < CHANNEL_COUNT ==> impressions[j] == RecordsTotal(records[..i], ChannelId(j), ImpressionsOf)
    {
      spend, impressions := AccumulateWeek(records[i].channels, spend, impressions);
      forall j | 0 <= j < CHANNEL_COUNT
        ensures spend[j] == RecordsTotal(records[..i + 1], ChannelId(j), SpendOf)
        ensures impressions[j] == RecordsTotal(records[..i + 1], ChannelId(j), ImpressionsOf)
      {
        RecordsTotalStep(records, i, ChannelId(j), SpendOf);
        RecordsTotalStep(records, i, ChannelId(j), ImpressionsOf);
      }
      i := i + 1;
    }
    assert records[..i] == records;
  }

  /** The inner loop over one week's channels: each channel's spend and
      impressions go to the running totals of its id. */
  method AccumulateWeek(channels: seq<ChannelRecord>, spend0: seq<real>, impressions0: seq<real>)
    returns (spend: seq<real>, impressions: seq<real>)
    requires |spend0| == CHANNEL_COUNT && |impressions0| == CHANNEL_COUNT
    requires forall k :: 0 <= k < |channels| ==> ChannelIndex(channels[k].id).Some?
    ensures |spend| == CHANNEL_COUNT && |impressions| == CHANNEL_COUNT
    ensures forall j :: 0 <= j < CHANNEL_COUNT ==> spend[j] == spend0[j] + IdTotal(channels, ChannelId(j), SpendOf)
    ensures forall j :: 0 <= j < CHANNEL_COUNT ==>
      impressions[j] == impressions0[j] + IdTotal(channels, ChannelId(j), ImpressionsOf)
  {
    spend, impressions := spend0, impressions0;
    var k := 0;
    while k < |channels|
      invariant k <= |channels|
      invariant |spend| == CHANNEL_COUNT && |impressions| == CHANNEL_COUNT
      invariant forall j :: 0 <= j < CHANNEL_COUNT ==> spend[j] == spend0[j] + IdTotal(channels[..k], ChannelId(j), SpendOf)
      invariant forall j :: 0 <= j < CHANNEL_COUNT ==>
        impressions[j] == impressions0[j] + IdTotal(channels[..k], ChannelId(j), ImpressionsOf)
    {
      var channel := channels[k];
      var idx := ChannelIndex(channel.id).value;
      forall j | 0 <= j < CHANNEL_COUNT
        ensures IdTotal(channels[..k + 1], ChannelId(j), SpendOf) ==
          IdTotal(channels[..k], ChannelId(j), SpendOf) + (if j == idx then channel.spend else 0.0)
        ensures IdTotal(channels[..k + 1], ChannelId(j), ImpressionsOf) ==
          IdTotal(channels[..k], ChannelId(j), ImpressionsOf) + (if j == idx then channel.impressions else 0.0)
      {
        IdTotalStep(channels, k, ChannelId(j), SpendOf);
        IdTotalStep(channels, k, ChannelId(j), ImpressionsOf);
        if j != idx {
          ChannelIdsDistinct(j, idx);
        }
      }
      spend := spend[idx := spend[idx] + channel.spend];
      impressions := impressions[idx := impressions[idx] + channel.impressions];
      k := k + 1;
    }
    assert channels[..k] == channels;
  }

  /** `_compute_channel_totals`: sum each channel's spend and impressions over
      the weeks, then price every channel against the summary. */
  method ComputeChannelTotals(records: seq<Record>, summary: SummaryMetrics) returns (totals: seq<ChannelTotals>)
    requires KnownChannels(records)
    ensures |totals| == CHANNEL_COUNT
    ensures forall j :: 0 <= j < CHANNEL_COUNT ==>
      totals[j].id == ChannelId(j) && totals[j].name == ChannelName(j)
    ensures forall j :: 0 <= j < CHANNEL_COUNT ==>
      totals[j].spend == RecordsTotal(records, ChannelId(j), SpendOf) &&
      totals[j].impressions == RecordsTotal(records, ChannelId(j), ImpressionsOf)
    ensures forall j :: 0 <= j < CHANNEL_COUNT ==>
      totals[j].averageWeeklySpend == AverageWeekly(totals[j].spend, |records|)
    ensures Priced(totals, summary.totalConversions, summary.totalRevenue)
  {
    var spend, impressions := AccumulateChannels(records);
    var accumulated := seq(CHANNEL_COUNT, j requires 0 <= j < CHANNEL_COUNT =>
      Accumulated(j, spend[j], impressions[j]).(averageWeeklySpend := AverageWeekly(spend[j], |records|)));
    totals := RepriceAll(accumulated, summary.totalConversions, summary.totalRevenue);
  }

  /** The pricing loop `for channel_id, metrics in totals.items()` shared by
      `_compute_channel_totals` and `simulate_budget_shift`: every entry is
      re-priced against the sum of all spends. */
  method RepriceAll(ts: seq<ChannelTotals>, conversions: real, revenue: real) returns (r: seq<ChannelTotals>)
    ensures |r| == |ts| && Priced(r, conversions, revenue)
    ensures forall j :: 0 <= j < |ts| ==>
      r[j].id == ts[j].id && r[j].name == ts[j].name && r[j].spend == ts[j].spend &&
      r[j].impressions == ts[j].impressions && r[j].averageWeeklySpend == ts[j].averageWeeklySpend
    ensures TotalsSpends(r) == TotalsSpends(ts)
  {
    var base := ShareBase(TotalsSpends(ts));
    r := [];
    var j := 0;
    while j < |ts|
      invariant j <= |ts|
      invariant |r| == j
      invariant forall q :: 0 <= q < j ==> r[q] == Reprice(ts[q], base, conversions, revenue)
    {
      r := r + [Reprice(ts[j], base, conversions, revenue)];
      j := j + 1;
    }
    assert TotalsSpends(r) == TotalsSpends(ts);
    forall q | 0 <= q < |r|
      ensures PricedEntry(r, q, conversions, revenue)
    {
      RepriceIdempotent(ts[q], base, conversions, revenue);
    }
  }

  /** Pricing depends only on the spend, which it keeps, so pricing twice is
      pricing once. */
  lemma RepriceIdempotent(t: ChannelTotals, base: real, conversions: real, revenue: real)
    requires base != 0.0
    ensures var r := Reprice(t, base, conversions, revenue);
      Reprice(r, base, conversions, revenue) == r
  {
    var r := Reprice(t, base, conversions, revenue);
    var q := Reprice(r, base, conversions, revenue);
    assert q.spendShare == r.spendShare;
    assert q.estimatedConversions == r.estimatedConversions && q.estimatedRevenue == r.estimatedRevenue;
    assert q.roas == r.roas && q.cac == r.cac;
  }

  /** The meaning of one priced entry's metrics. */
  lemma PricedAt(ts: seq<ChannelTotals>, conversions: real, revenue: real, j: int)
    requires Priced(ts, conversions, revenue)
    requires 0 <= j < |ts|
    ensures var base, t := ShareBase(TotalsSpends(ts)), ts[j];
      && t.spendShare == t.spend / base
      && t.estimatedConversions == conversions * t.spendShare
      && t.estimatedRevenue == revenue * t.spendShare
      && (t.spend != 0.0 ==> t.roas * t.spend == t.estimatedRevenue)
      && (t.spend == 0.0 ==> t.roas == 0.0)
      && (t.cac.Some? <==> t.estimatedConversions != 0.0)
      && (t.cac.Some? ==> t.cac.value * t.estimatedConversions == t.spend)
  {
    var base := ShareBase(TotalsSpends(ts));
    RepriceMeaning(ts[j], base, conversions, revenue);
    assert PricedEntry(ts, j, conversions, revenue);
  }

  /** Priced shares are the spends divided by their sum, so they sum to one
      whenever some channel has spend. */
  lemma PricedSharesSumToOne(ts: seq<ChannelTotals>, conversions: real, revenue: real)
    requires Priced(ts, conversions, revenue)
    requires Sum(TotalsSpends(ts)) != 0.0
    ensures Sum(Shares(ts)) == 1.0
  {
    var spends := TotalsSpends(ts);
    forall j | 0 <= j < |ts| ensures Shares(ts)[j] == DivideAll(spends, Sum(spends))[j] {
      PricedAt(ts, conversions, revenue, j);
    }
    assert Shares(ts) == DivideAll(spends, Sum(spends));
    SharesSumToOne(spends);
  }

  /** Each estimate of a priced entry is the summary total scaled by the
      entry's share. */
  lemma PricedEstimates(ts: seq<ChannelTotals>, conversions: real, revenue: real)
    requires Priced(ts, conversions, revenue)
    ensures forall j :: 0 <= j < |ts| ==> EstimatedConversions(ts)[j] == conversions * Shares(ts)[j]
    ensures forall j :: 0 <= j < |ts| ==> EstimatedRevenues(ts)[j] == revenue * Shares(ts)[j]
  {
    forall j | 0 <= j < |ts|
      ensures EstimatedConversions(ts)[j] == conversions * Shares(ts)[j]
      ensures EstimatedRevenues(ts)[j] == revenue * Shares(ts)[j]
    {
      PricedAt(ts, conversions, revenue, j);
    }
  }

  /** The estimated conversions split the summary's conversions exactly,
      whenever some channel has spend. */
  lemma PricedConversionsAddUp(ts: seq<ChannelTotals>, conversions: real, revenue: real)
    requires Priced(ts, conversions, revenue)
    requires Sum(TotalsSpends(ts)) != 0.0
    ensures Sum(EstimatedConversions(ts)) == conversions
  {
    PricedSharesSumToOne(ts, conversions, revenue);
    PricedEstimates(ts, conversions, revenue);
    SumScaled(Shares(ts), EstimatedConversions(ts), conversions);
    ScaleByOne(conversions, Sum(Shares(ts)));
  }

  /** The estimated revenues split the summary's revenue exactly, whenever
      some channel has spend. */
  lemma PricedRevenueAddsUp(ts: seq<ChannelTotals>, conversions: real, revenue: real)
    requires Priced(ts, conversions, revenue)
    requires Sum(TotalsSpends(ts)) != 0.0
    ensures Sum(EstimatedRevenues(ts)) == revenue
  {
    PricedSharesSumToOne(ts, conversions, revenue);
    PricedEstimates(ts, conversions, revenue);
    SumScaled(Shares(ts), EstimatedRevenues(ts), revenue);
    ScaleByOne(revenue, Sum(Shares(ts)));
  }

  /** Without total spend the divisor is 1, every share is the bare spend,
      and the estimates add up to nothing. */
  lemma {:induction false} PricedZeroSpendAddsUp(ts: seq<ChannelTotals>, conversions: real, revenue: real)
    requires Priced(ts, conversions, revenue)
    requires Sum(TotalsSpends(ts)) == 0.0
    ensures Sum(EstimatedConversions(ts)) == 0.0 && Sum(EstimatedRevenues(ts)) == 0.0
  {
    forall j | 0 <= j < |ts| ensures Shares(ts)[j] == TotalsSpends(ts)[j] {
      PricedAt(ts, conversions, revenue, j);
    }
    assert Shares(ts) == TotalsSpends(ts);
    PricedEstimates(ts, conversions, revenue);
    SumScaled(Shares(ts), EstimatedConversions(ts), conversions);
    SumScaled(Shares(ts), EstimatedRevenues(ts), revenue);
  }

  lemma ScaleByOne(a: real, one: real)
    requires one == 1.0
    ensures a * one == a
  {
  }

  /** Because revenue is split by spend share, every channel with spend has
      the same ROAS: total revenue over total spend. */
  lemma PricedRoasUniform(ts: seq<ChannelTotals>, conversions: real, revenue: real, j: int)
    requires Priced(ts, conversions, revenue)
    requires 0 <= j < |ts| && ts[j].spend != 0.0
    ensures ts[j].roas == revenue / ShareBase(TotalsSpends(ts))
  {
    var base := ShareBase(TotalsSpends(ts));
    var t := ts[j];
    PricedAt(ts, conversions, revenue, j);
    assert t.roas * t.spend == revenue * (t.spend / base);
    assert revenue * (t.spend / base) == (revenue / base) * t.spend;
  }

  lemma CancelShare(spend: real, base: real, conversions: real)
    requires spend != 0.0 && base != 0.0 && conversions != 0.0
    ensures conversions * (spend / base) != 0.0
    ensures spend / (conversions * (spend / base)) == base / conversions
  {
    var share := spend / base;
    assert share * base == spend;
    assert share != 0.0;
    var e := conversions * share;
    assert e * base == conversions * spend;
    assert (base / conversions) * e == share * base;
  }

  /** Likewise every channel with spend has the same CAC, total spend over
      total conversions, and there is a CAC exactly when both are non-zero. */
  lemma PricedCacUniform(ts: seq<ChannelTotals>, conversions: real, revenue: real, j: int)
    requires Priced(ts, conversions, revenue)
    requires 0 <= j < |ts|
    ensures ts[j].cac.Some? <==> ts[j].spend != 0.0 && conversions != 0.0
    ensures ts[j].cac.Some? ==> ts[j].cac.value == ShareBase(TotalsSpends(ts)) / conversions
  {
    var base := ShareBase(TotalsSpends(ts));
    var t := ts[j];
    PricedAt(ts, conversions, revenue, j);
    if t.spend != 0.0 && conversions != 0.0 {
      CancelShare(t.spend, base, conversions);
      assert t.cac.value * t.estimatedConversions == t.spend;
      assert t.cac.value == t.spend / t.estimatedConversions;
    } else if t.spend == 0.0 {
      assert t.spendShare == 0.0;
    }
  }

  /** The spend `_compute_channel_totals` sums for each channel. */
  function ChannelSpends(rs: seq<Record>): (r: seq<real>)
    ensures |r| == CHANNEL_COUNT
    ensures forall j :: 0 <= j < CHANNEL_COUNT ==> r[j] == RecordsTotal(rs, ChannelId(j), SpendOf)
  {
    seq(CHANNEL_COUNT, j requires 0 <= j < CHANNEL_COUNT => RecordsTotal(rs, ChannelId(j), SpendOf))
  }

  /** In a list holding id exactly once, at k, the amount for id is that
      channel's. */
  lemma {:induction false} IdTotalSingle(cs: seq<ChannelRecord>, id: string, k: int, m: Measure)
    requires 0 <= k < |cs| && cs[k].id == id
    requires forall i :: 0 <= i < |cs| && i != k ==> cs[i].id != id
    ensures IdTotal(cs, id, m) == Amount(cs[k], m)
  {
    var n := |cs| - 1;
    if k < n {
      IdTotalSingle(cs[..n], id, k, m);
    } else {
      IdTotalAbsent(cs[..n], id, m);
    }
  }

  lemma {:induction false} IdTotalAbsent(cs: seq<ChannelRecord>, id: string, m: Measure)
    requires forall i :: 0 <= i < |cs| ==> cs[i].id != id
    ensures IdTotal(cs, id, m) == 0.0
  {
    if |cs| > 0 {
      IdTotalAbsent(cs[..|cs| - 1], id, m);
    }
  }

  /** The per-channel spends add up to the summary's total spend: every
      channel of every week is counted once, under its own id. */
  lemma {:induction false} ChannelSpendsSumToTotal(rs: seq<Record>)
    requires forall i :: 0 <= i < |rs| ==> WellFormedChannels(rs[i].channels)
    ensures Sum(ChannelSpends(rs)) == TotalSpend(rs)
  {
    if |rs| == 0 {
      SumZeros(ChannelSpends(rs));
    } else {
      var n := |rs| - 1;
      var front := rs[..n];
      assert forall i :: 0 <= i < |front| ==> front[i] == rs[i];
      ChannelSpendsSumToTotal(front);
      ChannelSpendsStep(rs);
      SumAddAll(ChannelSpends(front), Spends(rs[n].channels));
      TotalSpendStep(rs);
    }
  }

  /** One more week adds its spend to the total spend. */
  lemma TotalSpendStep(rs: seq<Record>)
    requires |rs| > 0
    ensures TotalSpend(rs) == TotalSpend(rs[..|rs| - 1]) + WeekSpend(rs[|rs| - 1])
  {
    var n := |rs| - 1;
    assert WeekSpends(rs) == WeekSpends(rs[..n]) + [WeekSpend(rs[n])];
    SumAppend(WeekSpends(rs[..n]), [WeekSpend(rs[n])]);
  }

  /** One more week adds its channel spends, channel by channel. */
  lemma ChannelSpendsStep(rs: seq<Record>)
    requires |rs| > 0 && WellFormedChannels(rs[|rs| - 1].channels)
    ensures ChannelSpends(rs) == AddAll(ChannelSpends(rs[..|rs| - 1]), Spends(rs[|rs| - 1].channels))
  {
    var last := rs[|rs| - 1];
    var week := Spends(last.channels);
    forall j | 0 <= j < CHANNEL_COUNT ensures ChannelSpends(rs)[j] == AddAll(ChannelSpends(rs[..|rs| - 1]), week)[j] {
      forall i | 0 <= i < CHANNEL_COUNT && i != j ensures last.channels[i].id != ChannelId(j) {
        ChannelIdsDistinct(i, j);
      }
      IdTotalSingle(last.channels, ChannelId(j), j, SpendOf);
    }
  }

  /** With the channel totals and the summary both computed from the same
      weeks, every channel with spend reports the summary's ROAS. */
  lemma ChannelRoasIsSummaryRoas(ts: seq<ChannelTotals>, rs: seq<Record>, s: SummaryMetrics, j: int)
    requires forall i :: 0 <= i < |rs| ==> WellFormedChannels(rs[i].channels)
    requires TotalsSpends(ts) == ChannelSpends(rs)
    requires s.totalSpend == TotalSpend(rs)
    requires s.roas == if s.totalSpend != 0.0 then s.totalRevenue / s.totalSpend else 0.0
    requires Priced(ts, s.totalConversions, s.totalRevenue)
    requires s.totalSpend != 0.0
    requires 0 <= j < |ts| && ts[j].spend != 0.0
    ensures ts[j].roas == s.roas
  {
    ChannelSpendsSumToTotal(rs);
    PricedRoasUniform(ts, s.totalConversions, s.totalRevenue, j);
  }

  /** The three headline insights `_build_insights` formats as text: the
      channel with the largest spend share, the channel with the largest ROAS,
      and the direction of the recent conversion lift. */
  datatype Insight =
    | SpendShareLeader(name: string, share: real)
    | RoasLeader(name: string, roas: real)
    | ConversionsIncreased(lift: real)
    | ConversionsDecreased(drop: real)

  /** `k` is the first index holding the largest value of `xs`. */
  predicate FirstMax(xs: seq<real>, k: int) {
    0 <= k < |xs| &&
    (forall i :: 0 <= i < |xs| ==> xs[i] <= xs[k]) &&
    (forall i :: 0 <= i < k ==> xs[i] < xs[k])
  }

  /** The index `max(..., key=...)` picks: the first of the largest values. */
  function FirstMaxIndex(xs: seq<real>): (k: nat)
    requires |xs| > 0
    ensures FirstMax(xs, k)
  {
    var n := |xs| - 1;
    if n == 0 then 0
    else
      var k := FirstMaxIndex(xs[..n]);
      assert forall i :: 0 <= i < n ==> xs[..n][i] == xs[i];
      if xs[n] > xs[k] then n else k
  }

  function RoasValues(ts: seq<ChannelTotals>): (r: seq<real>)
    ensures |r| == |ts| && forall j :: 0 <= j < |ts| ==> r[j] == ts[j].roas
  {
    seq(|ts|, j requires 0 <= j < |ts| => ts[j].roas)
  }

  /** `_build_insights`: nothing without channel totals; otherwise the share
      leader, the ROAS leader (each the first channel reaching the maximum)
      and whether conversions rose or fell. */
  function BuildInsights(ts: seq<ChannelTotals>, recentConversionLift: real): (r: seq<Insight>)
    ensures |ts| == 0 <==> r == []
    ensures |ts| > 0 ==> |r| == 3
  {
    if |ts| == 0 then []
    else
      var top := FirstMaxIndex(Shares(ts));
      var fastest := FirstMaxIndex(RoasValues(ts));
      [SpendShareLeader(ts[top].name, ts[top].spendShare),
       RoasLeader(ts[fastest].name, ts[fastest].roas),
       if recentConversionLift >= 0.0 then ConversionsIncreased(recentConversionLift)
       else ConversionsDecreased(-recentConversionLift)]
  }

  /** The three insights: the channel with the largest spend share and the
      one with the largest ROAS (the first such channel on a tie), then
      whether conversions rose or fell in the latest week, with a positive
      drop when they fell. */
  lemma BuildInsightsMeaning(ts: seq<ChannelTotals>, recentConversionLift: real)
    requires |ts| > 0
    ensures var r := BuildInsights(ts, recentConversionLift);
      && (exists k :: FirstMax(Shares(ts), k) && r[0] == SpendShareLeader(ts[k].name, ts[k].spendShare))
      && (exists k :: FirstMax(RoasValues(ts), k) && r[1] == RoasLeader(ts[k].name, ts[k].roas))
      && (recentConversionLift >= 0.0 ==> r[2] == ConversionsIncreased(recentConversionLift))
      && (recentConversionLift < 0.0 ==> r[2] == ConversionsDecreased(-recentConversionLift) && r[2].drop > 0.0)
  {
    var top := FirstMaxIndex(Shares(ts));
    var fastest := FirstMaxIndex(RoasValues(ts));
    assert FirstMax(Shares(ts), top) && FirstMax(RoasValues(ts), fastest);
  }

  /** The derived metrics are determined by the spends: two priced lists that
      agree on everything else are equal. */
  lemma PricedUnique(a: seq<ChannelTotals>, b: seq<ChannelTotals>, conversions: real, revenue: real)
    requires |a| == |b|
    requires forall j :: 0 <= j < |a| ==>
      a[j].id == b[j].id && a[j].name == b[j].name && a[j].spend == b[j].spend &&
      a[j].impressions == b[j].impressions && a[j].averageWeeklySpend == b[j].averageWeeklySpend
    requires Priced(a, conversions, revenue) && Priced(b, conversions, revenue)
    ensures a == b
  {
    assert TotalsSpends(a) == TotalsSpends(b);
    var base := ShareBase(TotalsSpends(a));
    forall j | 0 <= j < |a| ensures a[j] == b[j] {
      assert PricedEntry(a, j, conversions, revenue) && PricedEntry(b, j, conversions, revenue);
      assert a[j] == Reprice(a[j], base, conversions, revenue);
      assert b[j] == Reprice(b[j], base, conversions, revenue);
      RepriceKeptFields(a[j], b[j], base, conversions, revenue);
    }
  }

  /** Pricing looks only at the fields it keeps. */
  lemma RepriceKeptFields(x: ChannelTotals, y: ChannelTotals, base: real, conversions: real, revenue: real)
    requires base != 0.0
    requires x.id == y.id && x.name == y.name && x.spend == y.spend
    requires x.impressions == y.impressions && x.averageWeeklySpend == y.averageWeeklySpend
    ensures Reprice(x, base, conversions, revenue) == Reprice(y, base, conversions, revenue)
  {
    var rx, ry := Reprice(x, base, conversions, revenue), Reprice(y, base, conversions, revenue);
    assert rx.spendShare == ry.spendShare;
    assert rx.estimatedConversions == ry.estimatedConversions;
    assert rx.estimatedRevenue == ry.estimatedRevenue;
    assert rx.roas == ry.roas;
    assert rx.cac == ry.cac;
  }
}
