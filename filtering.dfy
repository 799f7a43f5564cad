/** Channel-id normalisation and the channel and date filters the service
    applies to stored series (`_normalise_channel_id`, `_filter_channels`
    and the loops of `get_geo_series` / `get_national_series`). */
module Filtering {
  import opened Wrappers
  import opened Numeric
  import opened Text
  import opened Records

  /** `_normalise_channel_id`: lower-case and strip, then accept an id that
      starts with "channel" as is, turn a run of digits d into "channel" + d,
      and reject anything else with `ValueError`. (The middle test, membership
      in `CHANNEL_NAMES`, can never decide: every name starts with "channel".) */
  function NormaliseChannelId(channel: string): (r: Result<string>)
    ensures var s := Strip(Lower(channel));
      && (r.Ok? <==> StartsWith(s, "channel") || IsDigits(s))
      && (StartsWith(s, "channel") ==> r == Ok(s))
      && (!StartsWith(s, "channel") && IsDigits(s) ==> r == Ok("channel" + s))
      && (r.Err? ==> r.error == ValueError)
    ensures r.Ok? ==> |r.value| > 0 && !IsSpace(r.value[|r.value| - 1])
  {
    var s := Strip(Lower(channel));
    if StartsWith(s, "channel") then Ok(s)
    else if ChannelIndex(s).Some? then Ok(s)
    else if IsDigits(s) then Ok("channel" + s)
    else Err(ValueError)
  }

  lemma ChannelPrefixLowerCase()
    ensures NoUpper("channel")
  {
    forall i | 0 <= i < 7 ensures !('A' <= "channel"[i] <= 'Z') {
      assert 'a' <= "channel"[i] <= 'z';
    }
  }

  /** An accepted id comes out lower-case and starting with "channel". */
  lemma NormalisedForm(channel: string)
    ensures NormaliseChannelId(channel).Ok? ==>
      StartsWith(NormaliseChannelId(channel).value, "channel") && NoUpper(NormaliseChannelId(channel).value)
  {
    var s := Strip(Lower(channel));
    LowerNoUpper(channel);
    StripNoUpper(Lower(channel));
    if StartsWith(s, "channel") {
      assert NormaliseChannelId(channel) == Ok(s);
    } else if IsDigits(s) {
      assert NormaliseChannelId(channel) == Ok("channel" + s);
      ChannelPrefixLowerCase();
      NoUpperAppend("channel", s);
      assert ("channel" + s)[..7] == "channel";
    }
  }

  /** A normalised id normalises to itself. */
  lemma NormaliseIdempotent(channel: string)
    requires NormaliseChannelId(channel).Ok?
    ensures NormaliseChannelId(NormaliseChannelId(channel).value) == NormaliseChannelId(channel)
  {
    NormalisedForm(channel);
    NormaliseAccepted(NormaliseChannelId(channel).value);
  }

  /** A lower-case id that starts with "channel" and ends in a non-space is
      accepted unchanged. */
  lemma NormaliseAccepted(r: string)
    requires StartsWith(r, "channel") && NoUpper(r) && !IsSpace(r[|r| - 1])
    ensures NormaliseChannelId(r) == Ok(r)
  {
    LowerUnchanged(r);
    assert r[0] == r[..7][0] == 'c';
    StripUnchanged(r);
  }

  /** The request's channel list as `get_*_series` turns it into a filter:
      `{c.lower() for c in channels} if channels else None`. */
  function ChannelFilterOf(channels: Option<seq<string>>): (f: Option<set<string>>)
    ensures channels.None? || channels.value == [] <==> f.None?
    ensures f.Some? ==> f.value != {} && forall c :: c in channels.value ==> Lower(c) in f.value
  {
    if channels.None? || channels.value == [] then None
    else
      var cs := channels.value;
      var f := set c | c in cs :: Lower(c);
      assert Lower(cs[0]) in f;
      assert forall c :: c in cs ==> Lower(c) in f;
      Some(f)
  }

  /** The normalised allowed set, or the `ValueError` of the first bad id. */
  function AllowedIds(filter: set<string>): (r: Result<set<string>>)
    ensures r.Err? <==> exists c :: c in filter && NormaliseChannelId(c).Err?
    ensures r.Err? ==> r.error == ValueError
    ensures r.Ok? ==> forall id :: id in r.value <==>
      exists c :: c in filter && NormaliseChannelId(c) == Ok(id)
  {
    if exists c :: c in filter && NormaliseChannelId(c).Err? then Err(ValueError)
    else Ok(set c | c in filter :: NormaliseChannelId(c).value)
  }

  /** `[c for c in channels if c.id in allowed]`. */
  function KeepAllowed(cs: seq<ChannelRecord>, allowed: set<string>): (r: seq<ChannelRecord>)
    ensures |r| <= |cs|
  {
    if |cs| == 0 then []
    else
      var last := cs[|cs| - 1];
      var front := KeepAllowed(cs[..|cs| - 1], allowed);
      front + (if last.id in allowed then [last] else [])
  }

  /** The filter keeps exactly the channels whose id is allowed. */
  lemma {:induction false} KeepAllowedMembers(cs: seq<ChannelRecord>, allowed: set<string>)
    ensures forall c :: c in KeepAllowed(cs, allowed) <==> c in cs && c.id in allowed
  {
    if |cs| > 0 {
      var n := |cs| - 1;
      var last := cs[n];
      KeepAllowedMembers(cs[..n], allowed);
      assert cs == cs[..n] + [last];
      assert KeepAllowed(cs, allowed) == KeepAllowed(cs[..n], allowed) + (if last.id in allowed then [last] else []);
    }
  }

  /** Filtering commutes with concatenation, so kept channels stay in order. */
  lemma {:induction false} KeepAllowedAppend(a: seq<ChannelRecord>, b: seq<ChannelRecord>, allowed: set<string>)
    ensures KeepAllowed(a + b, allowed) == KeepAllowed(a, allowed) + KeepAllowed(b, allowed)
  {
    if |b| == 0 {
      assert a + b == a;
    } else {
      var n := |b| - 1;
      assert (a + b)[..|a + b| - 1] == a + b[..n];
      KeepAllowedAppend(a, b[..n], allowed);
    }
  }

  /** When every id is allowed nothing is dropped. */
  lemma {:induction false} KeepAllowedEverything(cs: seq<ChannelRecord>, allowed: set<string>)
    requires forall i :: 0 <= i < |cs| ==> cs[i].id in allowed
    ensures KeepAllowed(cs, allowed) == cs
  {
    if |cs| > 0 {
      KeepAllowedEverything(cs[..|cs| - 1], allowed);
      assert cs == cs[..|cs| - 1] + [cs[|cs| - 1]];
    }
  }

  /** `_filter_channels`: no filter returns the record itself; otherwise a
      copy of the same kind whose channel list keeps exactly the channels
      with an allowed id, every other field copied. */
  function FilterChannels(record: Record, filter: Option<set<string>>): (r: Result<Record>)
    ensures filter.None? || filter.value == {} ==> r == Ok(record)
    ensures filter.Some? && filter.value != {} ==>
      (r.Err? <==> AllowedIds(filter.value).Err?) &&
      (r.Ok? ==> r.value.(channels := record.channels) == record &&
                 r.value.channels == KeepAllowed(record.channels, AllowedIds(filter.value).value))
    ensures r.Err? ==> r.error == ValueError
  {
    if filter.None? || filter.value == {} then Ok(record)
    else
      var allowed :- AllowedIds(filter.value);
      Ok(record.(channels := KeepAllowed(record.channels, allowed)))
  }

  /** The stored records the date bounds let through (`start` and `end`
      apply only when given), in stored order. */
  function InRange(series: seq<Record>, start: Option<Date>, end: Option<Date>): (r: seq<Record>)
    ensures |r| <= |series|
  {
    if |series| == 0 then []
    else
      var last := series[|series| - 1];
      assert series == series[..|series| - 1] + [last];
      InRange(series[..|series| - 1], start, end) + (if InBounds(last.time, start, end) then [last] else [])
  }

  predicate InBounds(t: Date, start: Option<Date>, end: Option<Date>) {
    (start.None? || start.value <= t) && (end.None? || t <= end.value)
  }

  /** The date filter keeps exactly the records within the bounds. */
  lemma {:induction false} InRangeMembers(series: seq<Record>, start: Option<Date>, end: Option<Date>)
    ensures forall x :: x in InRange(series, start, end) ==> x in series && InBounds(x.time, start, end)
    ensures forall x :: x in series && InBounds(x.time, start, end) ==> x in InRange(series, start, end)
  {
    if |series| > 0 {
      var n := |series| - 1;
      InRangeMembers(series[..n], start, end);
      assert series == series[..n] + [series[n]];
    }
  }

  lemma {:induction false} InRangeAppend(a: seq<Record>, b: seq<Record>, start: Option<Date>, end: Option<Date>)
    ensures InRange(a + b, start, end) == InRange(a, start, end) + InRange(b, start, end)
  {
    if |b| == 0 {
      assert a + b == a;
    } else {
      var n := |b| - 1;
      assert (a + b)[..|a + b| - 1] == a + b[..n];
      InRangeAppend(a, b[..n], start, end);
    }
  }

  /** Filtering a series sorted by time leaves it sorted by time. */
  lemma {:induction false} InRangeSorted(series: seq<Record>, start: Option<Date>, end: Option<Date>)
    requires SortedByTime(series)
    ensures SortedByTime(InRange(series, start, end))
  {
    if |series| > 0 {
      var n := |series| - 1;
      var last := series[n];
      assert SortedByTime(series[..n]);
      InRangeSorted(series[..n], start, end);
      var front := InRange(series[..n], start, end);
      InRangeMembers(series[..n], start, end);
      if InBounds(last.time, start, end) {
        forall k | 0 <= k < |front| ensures front[k].time <= last.time {
          assert front[k] in series[..n];
          var j :| 0 <= j < n && series[..n][j] == front[k];
          assert series[j].time <= series[n].time;
        }
        SortedAppendOne(front, last);
      }
    }
  }

  /** With no bounds, every stored record passes. */
  lemma {:induction false} InRangeUnbounded(series: seq<Record>)
    ensures InRange(series, None, None) == series
  {
    if |series| > 0 {
      InRangeUnbounded(series[..|series| - 1]);
      assert series == series[..|series| - 1] + [series[|series| - 1]];
    }
  }

  /** Whether a channel filter raises: only a non-empty filter holding an
      id `_normalise_channel_id` rejects does, whatever the record. */
  predicate FilterFails(filter: Option<set<string>>) {
    filter.Some? && filter.value != {} && AllowedIds(filter.value).Err?
  }

  lemma FilterFailsExactly(record: Record, filter: Option<set<string>>)
    ensures FilterChannels(record, filter).Err? <==> FilterFails(filter)
  {
  }

  lemma InRangeStep(series: seq<Record>, i: int, start: Option<Date>, end: Option<Date>)
    requires 0 <= i < |series|
    ensures InRange(series[..i + 1], start, end) ==
      InRange(series[..i], start, end) + (if InBounds(series[i].time, start, end) then [series[i]] else [])
  {
    assert series[..i + 1][..i] == series[..i];
  }

  /** `filtered` is `kept` with the channels of each record filtered. */
  predicate FilteredFrom(kept: seq<Record>, filtered: seq<Record>, filter: Option<set<string>>) {
    |filtered| == |kept| &&
    forall k :: 0 <= k < |kept| ==> FilterChannels(kept[k], filter) == Ok(filtered[k])
  }

  lemma FilteredFromAppend(kept: seq<Record>, filtered: seq<Record>, filter: Option<set<string>>,
                           record: Record, out: Record)
    requires FilteredFrom(kept, filtered, filter)
    requires FilterChannels(record, filter) == Ok(out)
    ensures FilteredFrom(kept + [record], filtered + [out], filter)
  {
    var after := kept + [record];
    forall k | 0 <= k < |after|
      ensures FilterChannels(after[k], filter) == Ok((filtered + [out])[k])
    {
      if k < |kept| {
        assert after[k] == kept[k];
      }
    }
  }

  /** `kept` with the channels of every record filtered; a record the filter
      rejects stays as it is, which only happens when the whole series fails. */
  function FilterAll(kept: seq<Record>, filter: Option<set<string>>): (r: seq<Record>)
    ensures |r| == |kept|
  {
    seq(|kept|, k requires 0 <= k < |kept| =>
      var out := FilterChannels(kept[k], filter);
      if out.Ok? then out.value else kept[k])
  }

  /** A filter that does not fail filters every record, and only `FilterAll`
      is `kept` with its channels filtered. */
  lemma FilteredFromIsFilterAll(kept: seq<Record>, filtered: seq<Record>, filter: Option<set<string>>)
    ensures !FilterFails(filter) ==> FilteredFrom(kept, FilterAll(kept, filter), filter)
    ensures FilteredFrom(kept, filtered, filter) <==>
      (!FilterFails(filter) && filtered == FilterAll(kept, filter)) || (kept == [] && filtered == [])
  {
    var all := FilterAll(kept, filter);
    forall k | 0 <= k < |kept| ensures FilterChannels(kept[k], filter).Err? <==> FilterFails(filter) {
      FilterFailsExactly(kept[k], filter);
    }
    if FilteredFrom(kept, filtered, filter) && kept != [] {
      assert FilterChannels(kept[0], filter).Ok?;
      assert filtered == all;
    }
  }

  /** The loop shared by `get_geo_series` and `get_national_series`: skip the
      records outside the bounds, filter the channels of the others. The first
      record that gets through raises the filter's `ValueError`, if any. */
  method FilterSeries(series: seq<Record>, start: Option<Date>, end: Option<Date>, filter: Option<set<string>>)
    returns (r: Result<seq<Record>>)
    ensures r.Err? <==> InRange(series, start, end) != [] && FilterFails(filter)
    ensures r.Err? ==> r.error == ValueError
    ensures r.Ok? ==> |r.value| == |InRange(series, start, end)|
    ensures r.Ok? ==> forall i :: 0 <= i < |r.value| ==>
      FilterChannels(InRange(series, start, end)[i], filter) == Ok(r.value[i])
  {
    var filtered: seq<Record> := [];
    ghost var kept: seq<Record> := [];
    var i := 0;
    while i < |series|
      invariant i <= |series|
      invariant kept == InRange(series[..i], start, end)
      invariant kept == [] || !FilterFails(filter)
      invariant FilteredFrom(kept, filtered, filter)
    {
      var record := series[i];
      InRangeStep(series, i, start, end);
      if start.Some? && record.time < start.value {
        i := i + 1;
        continue;
      }
      if end.Some? && record.time > end.value {
        i := i + 1;
        continue;
      }
      var out := FilterChannels(record, filter);
      FilterFailsExactly(record, filter);
      if out.Err? {
        InRangeMembers(series, start, end);
        assert record in InRange(series, start, end);
        return Err(out.error);
      }
      FilteredFromAppend(kept, filtered, filter, record, out.value);
      filtered := filtered + [out.value];
      kept := kept + [record];
      i := i + 1;
    }
    assert series[..i] == series;
    r := Ok(filtered);
  }

  /** Channel filtering keeps the date, so the filtered series of a series
      sorted by time is sorted by time. */
  lemma FilteredSorted(series: seq<Record>, start: Option<Date>, end: Option<Date>,
                       filter: Option<set<string>>, filtered: seq<Record>)
    requires SortedByTime(series)
    requires |filtered| == |InRange(series, start, end)|
    requires forall i :: 0 <= i < |filtered| ==> FilterChannels(InRange(series, start, end)[i], filter) == Ok(filtered[i])
    ensures SortedByTime(filtered)
  {
    var kept := InRange(series, start, end);
    InRangeSorted(series, start, end);
    forall i | 0 <= i < |filtered| ensures filtered[i].time == kept[i].time {
      assert FilterChannels(kept[i], filter) == Ok(filtered[i]);
    }
  }
}
