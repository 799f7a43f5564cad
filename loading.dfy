/** Loading the two data sets from their parsed CSV rows: `_load_geo_data`
    groups geo rows by geo and sorts each group by date, `_load_national_data`
    collects national rows and sorts them by date. */
module Loading {
  import opened Wrappers
  import opened Numeric
  import opened Records

  /** Insert `x` after every record of `sorted` that is not later than it. */
  function InsertByTime(sorted: seq<Record>, x: Record): (r: seq<Record>)
    ensures multiset(r) == multiset(sorted) + multiset{x}
    ensures |r| == |sorted| + 1
    ensures forall y :: y in r ==> y in sorted || y == x
  {
    if |sorted| == 0 || sorted[|sorted| - 1].time <= x.time then sorted + [x]
    else
      var n := |sorted| - 1;
      assert sorted == sorted[..n] + [sorted[n]];
      InsertByTime(sorted[..n], x) + [sorted[n]]
  }

  /** `records.sort(key=lambda r: r.time)`, as an insertion sort. */
  function SortByTime(rs: seq<Record>): (r: seq<Record>)
    ensures multiset(r) == multiset(rs)
    ensures |r| == |rs|
  {
    if |rs| == 0 then []
    else
      var n := |rs| - 1;
      assert rs == rs[..n] + [rs[n]];
      InsertByTime(SortByTime(rs[..n]), rs[n])
  }

  lemma {:induction false} InsertByTimeSorted(sorted: seq<Record>, x: Record)
    requires SortedByTime(sorted)
    ensures SortedByTime(InsertByTime(sorted, x))
  {
    if |sorted| > 0 && sorted[|sorted| - 1].time > x.time {
      var n := |sorted| - 1;
      assert SortedByTime(sorted[..n]);
      InsertByTimeSorted(sorted[..n], x);
      var front := InsertByTime(sorted[..n], x);
      forall k | 0 <= k < |front| ensures front[k].time <= sorted[n].time {
        if front[k] != x {
          assert front[k] in sorted[..n];
          var j :| 0 <= j < n && sorted[..n][j] == front[k];
          assert sorted[j].time <= sorted[n].time;
        }
      }
      SortedAppendOne(front, sorted[n]);
    }
  }

  lemma {:induction false} SortByTimeSorted(rs: seq<Record>)
    ensures SortedByTime(SortByTime(rs))
  {
    if |rs| > 0 {
      var n := |rs| - 1;
      SortByTimeSorted(rs[..n]);
      InsertByTimeSorted(SortByTime(rs[..n]), rs[n]);
    }
  }

  /** The records of `rs` dated `d`, in their order in `rs`. */
  function AtTime(rs: seq<Record>, d: Date): seq<Record> {
    if |rs| == 0 then []
    else AtTime(rs[..|rs| - 1], d) + (if rs[|rs| - 1].time == d then [rs[|rs| - 1]] else [])
  }

  lemma AtTimeSnoc(rs: seq<Record>, y: Record, d: Date)
    ensures AtTime(rs + [y], d) == AtTime(rs, d) + (if y.time == d then [y] else [])
  {
    assert (rs + [y])[..|rs|] == rs;
  }

  lemma {:induction false} InsertByTimeAtTime(sorted: seq<Record>, x: Record, d: Date)
    ensures AtTime(InsertByTime(sorted, x), d) == AtTime(sorted, d) + (if x.time == d then [x] else [])
  {
    if |sorted| == 0 || sorted[|sorted| - 1].time <= x.time {
      AtTimeSnoc(sorted, x, d);
    } else {
      var n := |sorted| - 1;
      var last := sorted[n];
      var front := InsertByTime(sorted[..n], x);
      assert InsertByTime(sorted, x) == front + [last];
      InsertByTimeAtTime(sorted[..n], x, d);
      AtTimeSnoc(front, last, d);
      if x.time == d {
        assert last.time != d;
        assert AtTime(sorted, d) == AtTime(sorted[..n], d);
      } else {
        assert AtTime(front, d) == AtTime(sorted[..n], d);
      }
    }
  }

  /** The sort is stable: records with the same date keep their relative
      order, as Python's `list.sort` guarantees. */
  lemma {:induction false} SortByTimeStable(rs: seq<Record>, d: Date)
    ensures AtTime(SortByTime(rs), d) == AtTime(rs, d)
  {
    if |rs| > 0 {
      var n := |rs| - 1;
      SortByTimeStable(rs[..n], d);
      InsertByTimeAtTime(SortByTime(rs[..n]), rs[n], d);
    }
  }

  /** The groups `_load_geo_data` has built after reading `rows`, before
      sorting: each row with a geo appends its record to that geo's list; a
      row without one is skipped; a bad date raises `ValueError`. */
  function GroupRows(rows: seq<Row>, floatOf: FloatParser, dateOf: DateParser): Result<map<string, seq<Record>>>
  {
    if |rows| == 0 then Ok(map[])
    else
      var m :- GroupRows(rows[..|rows| - 1], floatOf, dateOf);
      var row := rows[|rows| - 1];
      match GeoOf(row)
      case None => Ok(m)
      case Some(g) =>
        var rec :- GeoRecordOf(row, g, floatOf, dateOf);
        Ok(m[g := (if g in m then m[g] else []) + [rec]])
  }

  /** A stored geo group: non-empty, every record a `GeoRecord` of that geo
      with the five channels. */
  predicate GoodGroup(g: string, rs: seq<Record>) {
    rs != [] &&
    forall i :: 0 <= i < |rs| ==> rs[i].GeoRecord? && rs[i].geo == g && WellFormedChannels(rs[i].channels)
  }

  /** Grouping fails exactly on a row that has a geo and a bad date. */
  lemma {:induction false} GroupRowsFails(rows: seq<Row>, floatOf: FloatParser, dateOf: DateParser)
    ensures GroupRows(rows, floatOf, dateOf).Err? <==>
      exists i :: 0 <= i < |rows| && GeoOf(rows[i]).Some? && ParseDate(Get(rows[i], "time"), dateOf).Err?
  {
    if |rows| > 0 {
      var n := |rows| - 1;
      GroupRowsFails(rows[..n], floatOf, dateOf);
      assert forall i :: 0 <= i < n ==> rows[..n][i] == rows[i];
    }
  }

  /** Every group is non-empty and holds only records of its own geo. */
  lemma {:induction false} GroupRowsGood(rows: seq<Row>, floatOf: FloatParser, dateOf: DateParser)
    requires GroupRows(rows, floatOf, dateOf).Ok?
    ensures forall g :: g in GroupRows(rows, floatOf, dateOf).value ==>
      GoodGroup(g, GroupRows(rows, floatOf, dateOf).value[g])
  {
    if |rows| > 0 {
      var n := |rows| - 1;
      var row := rows[n];
      GroupRowsGood(rows[..n], floatOf, dateOf);
      var m := GroupRows(rows[..n], floatOf, dateOf).value;
      if GeoOf(row).Some? {
        var g := GeoOf(row).value;
        var rec := GeoRecordOf(row, g, floatOf, dateOf).value;
        BuildChannelsShape(row, floatOf);
        var old_ := if g in m then m[g] else [];
        assert old_ != [] ==> GoodGroup(g, old_);
        assert GoodGroup(g, old_ + [rec]);
      }
    }
  }

  /** The groups are exactly the geos named by the rows. */
  lemma {:induction false} GroupRowsKeys(rows: seq<Row>, floatOf: FloatParser, dateOf: DateParser)
    requires GroupRows(rows, floatOf, dateOf).Ok?
    ensures forall g :: g in GroupRows(rows, floatOf, dateOf).value <==>
      exists i :: 0 <= i < |rows| && GeoOf(rows[i]) == Some(g)
  {
    if |rows| > 0 {
      var n := |rows| - 1;
      GroupRowsKeys(rows[..n], floatOf, dateOf);
      assert forall i :: 0 <= i < n ==> rows[..n][i] == rows[i];
    }
  }

  /** `_load_geo_data` after the file has been read into `rows`. */
  method LoadGeoData(rows: seq<Row>, floatOf: FloatParser, dateOf: DateParser)
    returns (r: Result<map<string, seq<Record>>>)
    ensures r.Err? <==> GroupRows(rows, floatOf, dateOf).Err?
    ensures r.Err? ==> r.error == ValueError
    ensures r.Ok? ==> var groups := GroupRows(rows, floatOf, dateOf).value;
      r.value.Keys == groups.Keys &&
      forall g :: g in groups ==>
        SortedByTime(r.value[g]) && multiset(r.value[g]) == multiset(groups[g]) &&
        r.value[g] == SortByTime(groups[g])
  {
    var byGeo: map<string, seq<Record>> := map[];
    var i := 0;
    while i < |rows|
      invariant i <= |rows|
      invariant GroupRows(rows[..i], floatOf, dateOf) == Ok(byGeo)
    {
      var row := rows[i];
      assert rows[..i + 1][..i] == rows[..i];
      var geo := GeoOf(row);
      if geo.None? {
        i := i + 1;
        continue;
      }
      var record := GeoRecordOf(row, geo.value, floatOf, dateOf);
      if record.Err? {
        GroupRowsErrorPersists(rows, i + 1, floatOf, dateOf);
        return Err(record.error);
      }
      var g := geo.value;
      byGeo := byGeo[g := (if g in byGeo then byGeo[g] else []) + [record.value]];
      i := i + 1;
    }
    assert rows[..i] == rows;
    var sorted := map g | g in byGeo :: SortByTime(byGeo[g]);
    forall g | g in byGeo ensures SortedByTime(sorted[g]) {
      SortByTimeSorted(byGeo[g]);
    }
    r := Ok(sorted);
  }

  /** Once a prefix of the rows fails, the whole file fails. */
  lemma {:induction false} GroupRowsErrorPersists(rows: seq<Row>, k: nat, floatOf: FloatParser, dateOf: DateParser)
    requires k <= |rows|
    requires GroupRows(rows[..k], floatOf, dateOf).Err?
    ensures GroupRows(rows, floatOf, dateOf).Err?
    ensures GroupRows(rows, floatOf, dateOf).error == ValueError
    decreases |rows| - k
  {
    if k == |rows| {
      assert rows[..k] == rows;
      GroupRowsErrorIsValueError(rows, floatOf, dateOf);
    } else {
      assert rows[..k + 1][..k] == rows[..k];
      GroupRowsErrorPersists(rows, k + 1, floatOf, dateOf);
    }
  }

  lemma {:induction false} GroupRowsErrorIsValueError(rows: seq<Row>, floatOf: FloatParser, dateOf: DateParser)
    ensures GroupRows(rows, floatOf, dateOf).Err? ==> GroupRows(rows, floatOf, dateOf).error == ValueError
  {
    if |rows| > 0 {
      GroupRowsErrorIsValueError(rows[..|rows| - 1], floatOf, dateOf);
    }
  }

  /** The national records read from `rows`, in file order; the first bad
      date raises `ValueError`. */
  function NationalRecordsOf(rows: seq<Row>, floatOf: FloatParser, dateOf: DateParser): (r: Result<seq<Record>>)
    ensures r.Ok? ==> |r.value| == |rows|
    ensures r.Ok? ==> forall i :: 0 <= i < |rows| ==> NationalRecordOf(rows[i], floatOf, dateOf) == Ok(r.value[i])
    ensures r.Err? <==> exists i :: 0 <= i < |rows| && NationalRecordOf(rows[i], floatOf, dateOf).Err?
    ensures r.Err? ==> r.error == ValueError
  {
    if |rows| == 0 then Ok([])
    else
      var n := |rows| - 1;
      assert forall i :: 0 <= i < n ==> rows[..n][i] == rows[i];
      var front :- NationalRecordsOf(rows[..n], floatOf, dateOf);
      var rec :- NationalRecordOf(rows[n], floatOf, dateOf);
      Ok(front + [rec])
  }

  /** `_load_national_data` after the file has been read into `rows`. */
  method LoadNationalData(rows: seq<Row>, floatOf: FloatParser, dateOf: DateParser)
    returns (r: Result<seq<Record>>)
    ensures r.Err? <==> NationalRecordsOf(rows, floatOf, dateOf).Err?
    ensures r.Err? ==> r.error == ValueError
    ensures r.Ok? ==> SortedByTime(r.value)
    ensures r.Ok? ==> multiset(r.value) == multiset(NationalRecordsOf(rows, floatOf, dateOf).value)
    ensures r.Ok? ==> r.value == SortByTime(NationalRecordsOf(rows, floatOf, dateOf).value)
  {
    var records: seq<Record> := [];
    var i := 0;
    while i < |rows|
      invariant i <= |rows|
      invariant NationalRecordsOf(rows[..i], floatOf, dateOf) == Ok(records)
    {
      var record := NationalRecordOf(rows[i], floatOf, dateOf);
      if record.Err? {
        return Err(record.error);
      }
      NationalRecordsStep(rows, i, floatOf, dateOf);
      records := records + [record.value];
      i := i + 1;
    }
    assert rows[..i] == rows;
    SortByTimeSorted(records);
    r := Ok(SortByTime(records));
  }

  /** Converting one more row appends its record. */
  lemma NationalRecordsStep(rows: seq<Row>, i: nat, floatOf: FloatParser, dateOf: DateParser)
    requires i < |rows| && NationalRecordsOf(rows[..i], floatOf, dateOf).Ok?
    requires NationalRecordOf(rows[i], floatOf, dateOf).Ok?
    ensures NationalRecordsOf(rows[..i + 1], floatOf, dateOf)
      == Ok(NationalRecordsOf(rows[..i], floatOf, dateOf).value + [NationalRecordOf(rows[i], floatOf, dateOf).value])
  {
    assert rows[..i + 1][..i] == rows[..i] && rows[..i + 1][i] == rows[i];
  }

  /** Every loaded national record carries the five channels. */
  lemma NationalRecordsWellFormed(rows: seq<Row>, floatOf: FloatParser, dateOf: DateParser)
    requires NationalRecordsOf(rows, floatOf, dateOf).Ok?
    ensures forall x :: x in NationalRecordsOf(rows, floatOf, dateOf).value ==>
      x.NationalRecord? && WellFormedChannels(x.channels)
  {
    var rs := NationalRecordsOf(rows, floatOf, dateOf).value;
    forall i | 0 <= i < |rs| ensures rs[i].NationalRecord? && WellFormedChannels(rs[i].channels) {
      BuildChannelsShape(rows[i], floatOf);
    }
  }

  /** Reordering a stored group keeps it a stored group. */
  lemma GoodGroupPermutation(g: string, a: seq<Record>, b: seq<Record>)
    requires GoodGroup(g, a) && multiset(a) == multiset(b)
    ensures GoodGroup(g, b)
  {
    assert |b| == |multiset(b)| == |multiset(a)| == |a|;
    forall i | 0 <= i < |b| ensures b[i].GeoRecord? && b[i].geo == g && WellFormedChannels(b[i].channels) {
      assert b[i] in multiset(b);
      assert b[i] in a;
    }
  }
}
