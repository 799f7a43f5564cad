/** The marketing-mix records (`ChannelRecord`, `GeoRecord`,
    `NationalRecord`) and how one parsed CSV row becomes one of them. A CSV
    row is the string map `csv.DictReader` yields; Python's `float(...)` and
    `date.fromisoformat(...)` are the partial functions `floatOf` and
    `dateOf`, given by the caller. */
module Records {
  import opened Wrappers
  import opened Numeric
  import opened Text

  const CHANNEL_COUNT: nat := 5

  /** One CSV row: column name to cell text. */
  type Row = map<string, string>

  /** `float(raw)`: `None` when Python raises `ValueError`. */
  type FloatParser = string -> Option<real>

  /** `date.fromisoformat(raw)`: `None` when Python raises `ValueError`. */
  type DateParser = string -> Option<Date>

  datatype ChannelRecord = ChannelRecord(
    id: string,
    spend: real,
    impressions: real,
    organicImpressions: Option<real>)

  /** A geo-level week (`GeoRecord`) or a national week (`NationalRecord`). */
  datatype Record =
    | GeoRecord(
        geo: string,
        time: Date,
        conversions: Option<real>,
        revenuePerConversion: Option<real>,
        competitorSalesControl: Option<real>,
        sentimentScoreControl: Option<real>,
        promo: Option<real>,
        population: Option<real>,
        channels: seq<ChannelRecord>)
    | NationalRecord(
        time: Date,
        conversions: Option<real>,
        revenuePerConversion: Option<real>,
        competitorSalesControl: Option<real>,
        sentimentScoreControl: Option<real>,
        promo: Option<real>,
        channels: seq<ChannelRecord>)

  /** `row.get(key)`. */
  function Get(row: Row, key: string): Option<string> {
    if key in row then Some(row[key]) else None
  }

  /** The decimal spelling of a channel index below ten. */
  function Digit(i: nat): (r: char)
    requires i < 10
    ensures IsDigit(r)
  {
    ('0' as int + i) as char
  }

  /** `f"channel{i}"`, the id of the i-th channel. */
  function ChannelId(i: nat): (r: string)
    requires i < CHANNEL_COUNT
    ensures StartsWith(r, "channel") && |r| == 8 && IsDigit(r[7])
  {
    "channel" + [Digit(i)]
  }

  /** `f"Channel {i}"`, the display name `CHANNEL_NAMES` gives channel i. */
  function ChannelName(i: nat): string
    requires i < CHANNEL_COUNT
  {
    "Channel " + [Digit(i)]
  }

  /** The index of a known channel id (the keys of `CHANNEL_NAMES`). */
  function ChannelIndex(id: string): (r: Option<nat>)
    ensures r.Some? <==> exists i :: 0 <= i < CHANNEL_COUNT && ChannelId(i) == id
    ensures r.Some? ==> r.value < CHANNEL_COUNT && ChannelId(r.value) == id
  {
    if |id| == 8 && id[..7] == "channel" && '0' <= id[7] <= '4' then
      var i := id[7] as int - '0' as int;
      assert ChannelId(i) == id;
      Some(i)
    else
      assert forall i :: 0 <= i < CHANNEL_COUNT ==> ChannelId(i)[..7] == "channel";
      None
  }

  lemma ChannelIdsDistinct(i: nat, j: nat)
    requires i < CHANNEL_COUNT && j < CHANNEL_COUNT && i != j
    ensures ChannelId(i) != ChannelId(j)
  {
    assert ChannelId(i)[7] != ChannelId(j)[7];
  }

  /** `_parse_float`: a missing or empty cell is `None`, and so is text
      `float` rejects. */
  function ParseFloat(raw: Option<string>, floatOf: FloatParser): (r: Option<real>)
    ensures !NonEmpty(raw) ==> r == None
    ensures NonEmpty(raw) ==> r == floatOf(raw.value)
  {
    if !NonEmpty(raw) then None else floatOf(raw.value)
  }

  /** `_parse_date`: a missing or empty cell raises `ValueError`, and so
      does text `fromisoformat` rejects. */
  function ParseDate(raw: Option<string>, dateOf: DateParser): (r: Result<Date>)
    ensures !NonEmpty(raw) ==> r == Err(ValueError)
    ensures NonEmpty(raw) ==> (r.Ok? <==> dateOf(raw.value).Some?)
    ensures r.Ok? ==> NonEmpty(raw) && Some(r.value) == dateOf(raw.value)
    ensures r.Err? ==> r.error == ValueError
  {
    if !NonEmpty(raw) then Err(ValueError)
    else match dateOf(raw.value)
      case None => Err(ValueError)
      case Some(d) => Ok(d)
  }

  function SpendKey(i: nat): string requires i < CHANNEL_COUNT { "Channel" + [Digit(i)] + "_spend" }
  function ImpressionKey(i: nat): string requires i < CHANNEL_COUNT { "Channel" + [Digit(i)] + "_impression" }
  const ORGANIC_KEY := "Organic_channel0_impression"

  /** The i-th entry `_build_channels` makes from a row: a parsed value
      that is missing (or zero) counts as `0.0`, and only channel0 looks up
      organic impressions. */
  function ChannelAt(row: Row, i: nat, floatOf: FloatParser): (c: ChannelRecord)
    requires i < CHANNEL_COUNT
  {
    ChannelRecord(
      ChannelId(i),
      ParseFloat(Get(row, SpendKey(i)), floatOf).GetOr(0.0),
      ParseFloat(Get(row, ImpressionKey(i)), floatOf).GetOr(0.0),
      if ChannelId(i) == ChannelId(0) then ParseFloat(Get(row, ORGANIC_KEY), floatOf) else None)
  }

  /** The channel list of one row, channel0 to channel4. */
  function ChannelsOf(row: Row, floatOf: FloatParser): (cs: seq<ChannelRecord>)
  {
    seq(CHANNEL_COUNT, i requires 0 <= i < CHANNEL_COUNT => ChannelAt(row, i, floatOf))
  }

  /** `_build_channels`: a loop over the five channel indices. */
  method BuildChannels(row: Row, floatOf: FloatParser) returns (channels: seq<ChannelRecord>)
    ensures |channels| == CHANNEL_COUNT
    ensures forall i :: 0 <= i < CHANNEL_COUNT ==> channels[i] == ChannelAt(row, i, floatOf)
  {
    channels := [];
    var idx := 0;
    while idx < CHANNEL_COUNT
      invariant idx <= CHANNEL_COUNT
      invariant |channels| == idx
      invariant forall i :: 0 <= i < idx ==> channels[i] == ChannelAt(row, i, floatOf)
    {
      channels := channels + [ChannelAt(row, idx, floatOf)];
      idx := idx + 1;
    }
  }

  /** The shape every built channel list has: exactly the five known ids in
      order, and organic impressions only on channel0. */
  predicate WellFormedChannels(cs: seq<ChannelRecord>) {
    |cs| == CHANNEL_COUNT &&
    (forall i :: 0 <= i < CHANNEL_COUNT ==> cs[i].id == ChannelId(i)) &&
    (forall i :: 1 <= i < CHANNEL_COUNT ==> cs[i].organicImpressions == None)
  }

  lemma BuildChannelsShape(row: Row, floatOf: FloatParser)
    ensures WellFormedChannels(ChannelsOf(row, floatOf))
    ensures forall i :: 0 <= i < CHANNEL_COUNT && SpendKey(i) !in row ==>
      ChannelsOf(row, floatOf)[i].spend == 0.0
    ensures forall i :: 0 <= i < CHANNEL_COUNT && ImpressionKey(i) !in row ==>
      ChannelsOf(row, floatOf)[i].impressions == 0.0
  {
    forall i | 1 <= i < CHANNEL_COUNT
      ensures ChannelsOf(row, floatOf)[i].organicImpressions == None
    {
      ChannelIdsDistinct(i, 0);
    }
  }

  /** `row.get("geo") or row.get("Geo")`, `None` when both are falsy. */
  function GeoOf(row: Row): (r: Option<string>)
    ensures r.Some? ==> r.value != ""
  {
    if NonEmpty(Get(row, "geo")) then Get(row, "geo")
    else if NonEmpty(Get(row, "Geo")) then Get(row, "Geo")
    else None
  }

  /** The `GeoRecord(...)` of `_load_geo_data`: only the date can fail. */
  function GeoRecordOf(row: Row, geo: string, floatOf: FloatParser, dateOf: DateParser): (r: Result<Record>)
    ensures r.Ok? ==> r.value.GeoRecord? && r.value.geo == geo
    ensures r.Ok? <==> ParseDate(Get(row, "time"), dateOf).Ok?
  {
    var t :- ParseDate(Get(row, "time"), dateOf);
    Ok(GeoRecord(geo, t,
      ParseFloat(Get(row, "conversions"), floatOf),
      ParseFloat(Get(row, "revenue_per_conversion"), floatOf),
      ParseFloat(Get(row, "competitor_sales_control"), floatOf),
      ParseFloat(Get(row, "sentiment_score_control"), floatOf),
      ParseFloat(Get(row, "Promo"), floatOf),
      ParseFloat(Get(row, "population"), floatOf),
      ChannelsOf(row, floatOf)))
  }

  /** The `NationalRecord(...)` of `_load_national_data`. */
  function NationalRecordOf(row: Row, floatOf: FloatParser, dateOf: DateParser): (r: Result<Record>)
    ensures r.Ok? ==> r.value.NationalRecord?
    ensures r.Ok? <==> ParseDate(Get(row, "time"), dateOf).Ok?
  {
    var t :- ParseDate(Get(row, "time"), dateOf);
    Ok(NationalRecord(t,
      ParseFloat(Get(row, "conversions"), floatOf),
      ParseFloat(Get(row, "revenue_per_conversion"), floatOf),
      ParseFloat(Get(row, "competitor_sales_control"), floatOf),
      ParseFloat(Get(row, "sentiment_score_control"), floatOf),
      ParseFloat(Get(row, "Promo"), floatOf),
      ChannelsOf(row, floatOf)))
  }

  /** The spend of one week: `sum(channel.spend for channel in record.channels)`. */
  function Spends(cs: seq<ChannelRecord>): (r: seq<real>)
    ensures |r| == |cs| && forall i :: 0 <= i < |cs| ==> r[i] == cs[i].spend
  {
    seq(|cs|, i requires 0 <= i < |cs| => cs[i].spend)
  }

  function WeekSpend(r: Record): real {
    Sum(Spends(r.channels))
  }

  /** Sorted by time, as `records.sort(key=lambda r: r.time)` leaves them. */
  predicate SortedByTime(rs: seq<Record>) {
    forall i, j :: 0 <= i < j < |rs| ==> rs[i].time <= rs[j].time
  }

  /** The first and last dates of a sorted series bound all of its dates. */
  lemma SortedBounds(rs: seq<Record>)
    requires SortedByTime(rs) && rs != []
    ensures forall x :: x in rs ==> rs[0].time <= x.time <= rs[|rs| - 1].time
  {
    forall x | x in rs ensures rs[0].time <= x.time <= rs[|rs| - 1].time {
      var i :| 0 <= i < |rs| && rs[i] == x;
      assert rs[0].time <= rs[i].time;
    }
  }

  lemma SortedAppendOne(front: seq<Record>, last: Record)
    requires SortedByTime(front)
    requires forall k :: 0 <= k < |front| ==> front[k].time <= last.time
    ensures SortedByTime(front + [last])
  {
  }
}
