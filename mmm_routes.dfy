/** The post-processing of the `/mmm` routes around the fitted model: the
    date mask and per-week contribution totals and shares of
    `get_contributions`, channel selection and validation in
    `_build_response_curve` and `get_response_curves_multiple`, and the
    saturation and diminishing-returns points of each response curve. The
    model's posterior means, quantiles and response curves are inputs. Every
    error these routes raise inside their `try` block, a 400 included, leaves
    them as a 500. */
module MmmRoutes {
  import opened Wrappers
  import opened Numeric
  import opened Filtering
  import opened Schemas

  /** The `1e-10` added to every spend before dividing. */
  const EPS: real := 0.0000000001

  /** What `except Exception` turns any error into. */
  function CatchAll(e: Error): (r: Error)
    ensures r == Http(500)
  {
    Http(500)
  }

  // ---------------------------------------------------------------
  // The date mask
  // ---------------------------------------------------------------

  /** The indices the mask keeps, in increasing order. */
  function Kept(keep: seq<bool>): (r: seq<nat>)
    ensures |r| <= |keep|
    ensures forall k :: 0 <= k < |r| ==> r[k] < |keep|
  {
    if |keep| == 0 then []
    else
      var n := |keep| - 1;
      Kept(keep[..n]) + (if keep[n] then [n] else [])
  }

  /** Every index `Kept` lists is marked. */
  lemma {:induction false} KeptMarked(keep: seq<bool>)
    ensures forall k :: 0 <= k < |Kept(keep)| ==> keep[Kept(keep)[k]]
  {
    if |keep| > 0 {
      var n := |keep| - 1;
      var front := keep[..n];
      KeptMarked(front);
      var p, r := Kept(front), Kept(keep);
      assert r == p + (if keep[n] then [n] else []);
      forall k | 0 <= k < |r|
        ensures keep[r[k]]
      {
        if k < |p| {
          assert r[k] == p[k] && front[p[k]] == keep[p[k]];
        } else {
          assert keep[n] && r[k] == n;
        }
      }
    }
  }

  /** Every marked index is listed by `Kept`. */
  lemma {:induction false} KeptComplete(keep: seq<bool>)
    ensures forall i :: 0 <= i < |keep| && keep[i] ==> i in Kept(keep)
  {
    if |keep| > 0 {
      var n := |keep| - 1;
      var front := keep[..n];
      KeptComplete(front);
      var p, r := Kept(front), Kept(keep);
      assert r == p + (if keep[n] then [n] else []);
      forall i | 0 <= i < |keep| && keep[i]
        ensures i in r
      {
        if i < n {
          assert front[i];
          var j :| 0 <= j < |p| && p[j] == i;
          assert r[j] == i;
        } else {
          assert r[|r| - 1] == n;
        }
      }
    }
  }

  /** `Kept` lists its indices in strictly increasing order, so each once. */
  lemma {:induction false} KeptIncreasing(keep: seq<bool>)
    ensures forall a, b :: 0 <= a < b < |Kept(keep)| ==> Kept(keep)[a] < Kept(keep)[b]
  {
    if |keep| > 0 {
      var n := |keep| - 1;
      var front := keep[..n];
      KeptIncreasing(front);
      var p, r := Kept(front), Kept(keep);
      assert r == p + (if keep[n] then [n] else []);
      forall a, b | 0 <= a < b < |r|
        ensures r[a] < r[b]
      {
        assert r[a] == p[a] && p[a] < n;
        if b < |p| {
          assert r[b] == p[b];
        } else {
          assert r[b] == n;
        }
      }
    }
  }

  /** `xs[mask]`. */
  function Select<T>(xs: seq<T>, keep: seq<bool>): (r: seq<T>)
    requires |xs| == |keep|
    ensures |r| == |Kept(keep)|
    ensures forall k :: 0 <= k < |r| ==> r[k] == xs[Kept(keep)[k]]
  {
    if |xs| == 0 then []
    else
      var n := |xs| - 1;
      Select(xs[..n], keep[..n]) + (if keep[n] then [xs[n]] else [])
  }

  /** The mask `times >= start` and `times <= end`, each only when given. */
  function DateMask(times: seq<Date>, start: Option<Date>, end: Option<Date>): (mask: seq<bool>)
    ensures |mask| == |times|
    ensures forall i :: 0 <= i < |times| ==> (mask[i] <==> InBounds(times[i], start, end))
  {
    seq(|times|, i requires 0 <= i < |times| => InBounds(times[i], start, end))
  }

  /** `pd.to_datetime(raw)` of a query bound; an empty bound is absent and a
      bound that does not parse fails the request. */
  function ParseBound(raw: Option<string>, dateOf: string -> Option<Date>): (r: Result<Option<Date>>)
    ensures !NonEmpty(raw) ==> r == Ok(None)
    ensures NonEmpty(raw) ==> (r.Err? <==> dateOf(raw.value).None?)
    ensures r.Ok? && NonEmpty(raw) ==> r.value == dateOf(raw.value)
    ensures r.Err? ==> r.error == Http(500)
  {
    if !NonEmpty(raw) then Ok(None)
    else match dateOf(raw.value)
      case None => Err(CatchAll(ValueError))
      case Some(d) => Ok(Some(d))
  }

  // ---------------------------------------------------------------
  // Contributions
  // ---------------------------------------------------------------

  /** `contrib_mean / total_mean if total_mean > 0 else 0.0`. */
  function Share(mean: real, totalMean: real): (s: real)
    ensures totalMean > 0.0 ==> s * totalMean == mean
    ensures totalMean <= 0.0 ==> s == 0.0
  {
    if totalMean > 0.0 then mean / totalMean else 0.0
  }

  /** The channel entries of one week. */
  function IntervalsAt(channels: seq<string>, meanRow: seq<real>, lowerRow: seq<real>, upperRow: seq<real>)
    : (r: seq<ContributionInterval>)
    requires |meanRow| == |channels| && |lowerRow| == |channels| && |upperRow| == |channels|
    ensures |r| == |channels|
  {
    seq(|channels|, c requires 0 <= c < |channels| =>
      ContributionInterval(channels[c], channels[c], meanRow[c], lowerRow[c], upperRow[c], Share(meanRow[c], Sum(meanRow))))
  }

  /** The point of one week: the totals over channels and the entries. */
  function ContributionPointOf(time: Date, channels: seq<string>, meanRow: seq<real>, lowerRow: seq<real>,
                               upperRow: seq<real>): ContributionPoint
    requires |meanRow| == |channels| && |lowerRow| == |channels| && |upperRow| == |channels|
  {
    ContributionPoint(time, Sum(meanRow), Sum(lowerRow), Sum(upperRow), IntervalsAt(channels, meanRow, lowerRow, upperRow))
  }

  function IntervalShares(cs: seq<ContributionInterval>): (r: seq<real>)
    ensures |r| == |cs| && forall c :: 0 <= c < |cs| ==> r[c] == cs[c].share
  {
    seq(|cs|, c requires 0 <= c < |cs| => cs[c].share)
  }

  /** A week with a positive total splits it entirely: its shares sum to one. */
  lemma SharesSumToOneAt(channels: seq<string>, meanRow: seq<real>, lowerRow: seq<real>, upperRow: seq<real>)
    requires |meanRow| == |channels| && |lowerRow| == |channels| && |upperRow| == |channels|
    requires Sum(meanRow) > 0.0
    ensures Sum(IntervalShares(IntervalsAt(channels, meanRow, lowerRow, upperRow))) == 1.0
  {
    var shares := IntervalShares(IntervalsAt(channels, meanRow, lowerRow, upperRow));
    assert shares == DivideAll(meanRow, Sum(meanRow));
    SharesSumToOne(meanRow);
  }

  /** Non-negative channel means give shares the `ContributionInterval`
      validator accepts. */
  lemma SharesValidAt(channels: seq<string>, meanRow: seq<real>, lowerRow: seq<real>, upperRow: seq<real>)
    requires |meanRow| == |channels| && |lowerRow| == |channels| && |upperRow| == |channels|
    requires forall c :: 0 <= c < |meanRow| ==> meanRow[c] >= 0.0
    ensures forall c :: 0 <= c < |channels| ==> ValidContributionInterval(IntervalsAt(channels, meanRow, lowerRow, upperRow)[c])
  {
    forall c | 0 <= c < |channels|
      ensures IntervalsAt(channels, meanRow, lowerRow, upperRow)[c].share >= 0.0
    {
      if Sum(meanRow) > 0.0 {
        ShareNonNegative(meanRow[c], Sum(meanRow));
      }
    }
  }

  lemma ShareNonNegative(mean: real, total: real)
    requires mean >= 0.0 && total > 0.0
    ensures Share(mean, total) >= 0.0
  {
  }

  /** Posterior summaries with one row per week and one column per channel. */
  predicate Matrix(rows: seq<seq<real>>, height: nat, width: nat) {
    |rows| == height && forall t :: 0 <= t < |rows| ==> |rows[t]| == width
  }

  /** The loop over the weeks of `get_contributions`, after masking. */
  method BuildContributionPoints(times: seq<Date>, channels: seq<string>,
                                 mean: seq<seq<real>>, lower: seq<seq<real>>, upper: seq<seq<real>>)
    returns (points: seq<ContributionPoint>)
    requires Matrix(mean, |times|, |channels|) && Matrix(lower, |times|, |channels|) && Matrix(upper, |times|, |channels|)
    ensures |points| == |times|
    ensures forall t :: 0 <= t < |times| ==>
      points[t] == ContributionPointOf(times[t], channels, mean[t], lower[t], upper[t])
  {
    points := [];
    var t := 0;
    while t < |times|
      invariant t <= |times|
      invariant |points| == t
      invariant forall q :: 0 <= q < t ==>
        points[q] == ContributionPointOf(times[q], channels, mean[q], lower[q], upper[q])
    {
      var totalMean := Sum(mean[t]);
      var channelData: seq<ContributionInterval> := [];
      var c := 0;
      while c < |channels|
        invariant c <= |channels|
        invariant channelData == IntervalsAt(channels, mean[t], lower[t], upper[t])[..c]
      {
        var contribMean := mean[t][c];
        var share := if totalMean > 0.0 then contribMean / totalMean else 0.0;
        channelData := channelData + [ContributionInterval(channels[c], channels[c], contribMean, lower[t][c], upper[t][c], share)];
        c := c + 1;
      }
      assert channelData == IntervalsAt(channels, mean[t], lower[t], upper[t]);
      points := points + [ContributionPoint(times[t], totalMean, Sum(lower[t]), Sum(upper[t]), channelData)];
      t := t + 1;
    }
  }

  /** `get_contributions`: parse the bounds, mask the weeks, and build one
      point per kept week; the response's `start` and `end` are the first and
      last kept weeks, so a mask that keeps nothing fails. */
  method Contributions(times: seq<Date>, channels: seq<string>,
                       mean: seq<seq<real>>, lower: seq<seq<real>>, upper: seq<seq<real>>,
                       start: Option<string>, end: Option<string>, dateOf: string -> Option<Date>)
    returns (r: Result<ContributionSeries>)
    requires Matrix(mean, |times|, |channels|) && Matrix(lower, |times|, |channels|) && Matrix(upper, |times|, |channels|)
    ensures r.Err? ==> r.error == Http(500)
    ensures ParseBound(start, dateOf).Err? || ParseBound(end, dateOf).Err? ==> r.Err?
    ensures ParseBound(start, dateOf).Ok? && ParseBound(end, dateOf).Ok? ==>
      var kept := Kept(DateMask(times, ParseBound(start, dateOf).value, ParseBound(end, dateOf).value));
      && (r.Err? <==> |kept| == 0)
      && (r.Ok? ==> |r.value.points| == |kept|)
      && (r.Ok? ==> forall k :: 0 <= k < |kept| ==>
            r.value.points[k] == ContributionPointOf(times[kept[k]], channels, mean[kept[k]], lower[kept[k]], upper[kept[k]]))
      && (r.Ok? ==> r.value.start == times[kept[0]] && r.value.end == times[kept[|kept| - 1]])
  {
    var s := ParseBound(start, dateOf);
    if s.Err? {
      return Err(s.error);
    }
    var e := ParseBound(end, dateOf);
    if e.Err? {
      return Err(e.error);
    }
    r := MaskedContributions(times, channels, mean, lower, upper, s.value, e.value);
  }

  /** The part of `get_contributions` after the bounds are parsed: mask the
      weeks, build one point per kept week, and fail when none is kept. */
  method MaskedContributions(times: seq<Date>, channels: seq<string>,
                             mean: seq<seq<real>>, lower: seq<seq<real>>, upper: seq<seq<real>>,
                             start: Option<Date>, end: Option<Date>)
    returns (r: Result<ContributionSeries>)
    requires Matrix(mean, |times|, |channels|) && Matrix(lower, |times|, |channels|) && Matrix(upper, |times|, |channels|)
    ensures r.Err? ==> r.error == Http(500)
    ensures var kept := Kept(DateMask(times, start, end));
      && (r.Err? <==> |kept| == 0)
      && (r.Ok? ==> |r.value.points| == |kept|)
      && (r.Ok? ==> forall k :: 0 <= k < |kept| ==>
            r.value.points[k] == ContributionPointOf(times[kept[k]], channels, mean[kept[k]], lower[kept[k]], upper[kept[k]]))
      && (r.Ok? ==> r.value.start == times[kept[0]] && r.value.end == times[kept[|kept| - 1]])
  {
    var mask := DateMask(times, start, end);
    ghost var kept := Kept(mask);
    var keptTimes := Select(times, mask);
    var keptMean, keptLower, keptUpper := Select(mean, mask), Select(lower, mask), Select(upper, mask);
    SelectMatrix(mean, mask, |channels|);
    SelectMatrix(lower, mask, |channels|);
    SelectMatrix(upper, mask, |channels|);
    var points := BuildContributionPoints(keptTimes, channels, keptMean, keptLower, keptUpper);
    assert |keptTimes| == |kept|;
    if |keptTimes| == 0 {
      return Err(CatchAll(ValueError));
    }
    assert keptTimes[0] == times[kept[0]] && keptTimes[|kept| - 1] == times[kept[|kept| - 1]];
    SelectedPoints(times, channels, mean, lower, upper, mask, points);
    r := Ok(ContributionSeries(keptTimes[0], keptTimes[|keptTimes| - 1], points));
  }

  /** The points built from the masked rows are the points of the kept weeks. */
  lemma SelectedPoints(times: seq<Date>, channels: seq<string>, mean: seq<seq<real>>, lower: seq<seq<real>>,
                       upper: seq<seq<real>>, keep: seq<bool>, points: seq<ContributionPoint>)
    requires |keep| == |times|
    requires Matrix(mean, |times|, |channels|) && Matrix(lower, |times|, |channels|) && Matrix(upper, |times|, |channels|)
    requires Matrix(Select(mean, keep), |Kept(keep)|, |channels|) && Matrix(Select(lower, keep), |Kept(keep)|, |channels|)
    requires Matrix(Select(upper, keep), |Kept(keep)|, |channels|)
    requires |points| == |Kept(keep)|
    requires forall t :: 0 <= t < |points| ==>
      points[t] == ContributionPointOf(Select(times, keep)[t], channels, Select(mean, keep)[t], Select(lower, keep)[t], Select(upper, keep)[t])
    ensures forall k :: 0 <= k < |points| ==>
      points[k] == ContributionPointOf(times[Kept(keep)[k]], channels, mean[Kept(keep)[k]], lower[Kept(keep)[k]], upper[Kept(keep)[k]])
  {
    var kept := Kept(keep);
    forall k | 0 <= k < |points|
      ensures points[k] == ContributionPointOf(times[kept[k]], channels, mean[kept[k]], lower[kept[k]], upper[kept[k]])
    {
      assert Select(times, keep)[k] == times[kept[k]] && Select(mean, keep)[k] == mean[kept[k]];
      assert Select(lower, keep)[k] == lower[kept[k]] && Select(upper, keep)[k] == upper[kept[k]];
    }
  }

  /** Masking the rows of a matrix keeps its width. */
  lemma SelectMatrix(rows: seq<seq<real>>, keep: seq<bool>, width: nat)
    requires Matrix(rows, |keep|, width)
    ensures Matrix(Select(rows, keep), |Kept(keep)|, width)
  {
    var r := Select(rows, keep);
    forall t | 0 <= t < |r|
      ensures |r[t]| == width
    {
      assert r[t] == rows[Kept(keep)[t]];
    }
  }

  // ---------------------------------------------------------------
  // Response curves
  // ---------------------------------------------------------------

  /** One channel's response curve as the model reports it over the spend
      grid: the spend, and the mean and credible bounds of the outcome. */
  datatype Curve = Curve(spend: seq<real>, mean: seq<real>, lower: seq<real>, upper: seq<real>)

  /** The four arrays run over the same grid, whose spends are non-negative. */
  predicate WellShaped(c: Curve) {
    && |c.mean| == |c.spend| && |c.lower| == |c.spend| && |c.upper| == |c.spend|
    && forall i :: 0 <= i < |c.spend| ==> c.spend[i] >= 0.0
  }

  /** `mean_response / (spend_array + 1e-10)` at one grid point. */
  function Roi(c: Curve, i: nat): real
    requires WellShaped(c) && i < |c.spend|
  {
    c.mean[i] / (c.spend[i] + EPS)
  }

  /** `roi[1] if len(roi) > 1 else roi[0]`. */
  function InitialRoi(c: Curve): real
    requires WellShaped(c) && |c.spend| > 0
  {
    if |c.spend| > 1 then Roi(c, 1) else Roi(c, 0)
  }

  /** Grid point i has `roi <= initial_roi * 0.5`. */
  predicate Saturated(c: Curve, i: nat)
    requires WellShaped(c) && 0 < |c.spend| && i < |c.spend|
  {
    Roi(c, i) <= InitialRoi(c) * 0.5
  }

  /** The first grid point at or after `from` that is saturated. */
  function FirstSaturated(c: Curve, from: nat): (r: Option<nat>)
    requires WellShaped(c) && 0 < |c.spend| && from <= |c.spend|
    ensures r.Some? ==> from <= r.value < |c.spend| && Saturated(c, r.value)
    ensures r.Some? ==> forall j :: from <= j < r.value ==> !Saturated(c, j)
    ensures r.None? ==> forall j :: from <= j < |c.spend| ==> !Saturated(c, j)
    decreases |c.spend| - from
  {
    if from == |c.spend| then None
    else if Saturated(c, from) then Some(from)
    else FirstSaturated(c, from + 1)
  }

  /** `saturation_spend` as written: the spend at the first saturated grid
      point, counting the zero-spend point itself, else the last spend; an
      empty grid fails on `roi[0]`. */
  function SaturationSpend(c: Curve): (r: Result<real>)
    requires WellShaped(c)
    ensures r.Err? <==> |c.spend| == 0
    ensures r.Err? ==> r.error == Http(500)
    ensures r.Ok? ==> r.value in c.spend
  {
    if |c.spend| == 0 then Err(CatchAll(ValueError))
    else match FirstSaturated(c, 0)
      case Some(i) => Ok(c.spend[i])
      case None => Ok(c.spend[|c.spend| - 1])
  }

  /** As written, the saturation spend is the spend at the first grid point
      whose ROI is at most half the initial ROI, or the last spend when none
      is. */
  lemma SaturationSpendMeaning(c: Curve)
    requires WellShaped(c) && |c.spend| > 0
    ensures var r := SaturationSpend(c).value;
      || (exists i: nat :: i < |c.spend| && Saturated(c, i) && r == c.spend[i] &&
                           forall j :: 0 <= j < i ==> !Saturated(c, j))
      || ((forall j :: 0 <= j < |c.spend| ==> !Saturated(c, j)) && r == c.spend[|c.spend| - 1])
  {
  }

  /** The grid's first point has zero spend and zero response, so its ROI
      is 0, at most half of any non-negative initial ROI: as written, the
      saturation spend is then always 0, whatever the curve does after. */
  lemma SaturationAtZeroSpend(c: Curve)
    requires WellShaped(c) && |c.spend| > 1
    requires c.spend[0] == 0.0 && c.mean[0] == 0.0 && InitialRoi(c) >= 0.0
    ensures SaturationSpend(c) == Ok(0.0)
  {
    assert Saturated(c, 0);
  }

  /** A curve that keeps more than half its initial ROI everywhere past the
      start, yet gets saturation spend 0 as written. */
  lemma SaturationAsWrittenExample()
    ensures var c := Curve([0.0, 1.0, 2.0], [0.0, 1.0, 1.5], [0.0, 1.0, 1.5], [0.0, 1.0, 1.5]);
      && WellShaped(c)
      && Roi(c, 2) > InitialRoi(c) * 0.5
      && SaturationSpend(c) == Ok(0.0)
  {
    var c := Curve([0.0, 1.0, 2.0], [0.0, 1.0, 1.5], [0.0, 1.0, 1.5], [0.0, 1.0, 1.5]);
    assert Roi(c, 1) == 1.0 / (1.0 + EPS);
    assert Roi(c, 2) == 1.5 / (2.0 + EPS);
    assert InitialRoi(c) >= 0.0;
    SaturationAtZeroSpend(c);
  }

  /** `saturation_spend` as evidently intended: ROI is compared with the
      initial ROI only from the point that ROI was measured at onwards. */
  function SaturationSpendFromInitial(c: Curve): (r: Result<real>)
    requires WellShaped(c)
    ensures r.Err? <==> |c.spend| == 0
    ensures r.Err? ==> r.error == Http(500)
    ensures r.Ok? ==> r.value in c.spend
  {
    if |c.spend| == 0 then Err(CatchAll(ValueError))
    else
      var from := if |c.spend| > 1 then 1 else 0;
      match FirstSaturated(c, from)
      case Some(i) => Ok(c.spend[i])
      case None => Ok(c.spend[|c.spend| - 1])
  }

  /** The intended saturation point: the spend at the first grid point from
      the initial one on whose ROI is at most half the initial ROI, or the
      last spend when there is none; on a grid of more than one point it is
      never the zero-spend start. */
  lemma SaturationSpendFromInitialMeaning(c: Curve)
    requires WellShaped(c) && |c.spend| > 1
    ensures var r := SaturationSpendFromInitial(c).value;
      || (exists i: nat :: 1 <= i < |c.spend| && Saturated(c, i) && r == c.spend[i] &&
                      forall j :: 1 <= j < i ==> !Saturated(c, j))
      || ((forall j :: 1 <= j < |c.spend| ==> !Saturated(c, j)) && r == c.spend[|c.spend| - 1])
  {
  }

  /** On the example curve the intended saturation point is the last spend. */
  lemma SaturationFromInitialExample()
    ensures SaturationSpendFromInitial(Curve([0.0, 1.0, 2.0], [0.0, 1.0, 1.5], [0.0, 1.0, 1.5], [0.0, 1.0, 1.5])) == Ok(2.0)
  {
    var c := Curve([0.0, 1.0, 2.0], [0.0, 1.0, 1.5], [0.0, 1.0, 1.5], [0.0, 1.0, 1.5]);
    assert Roi(c, 1) == 1.0 / (1.0 + EPS);
    assert Roi(c, 2) == 1.5 / (2.0 + EPS);
    assert !Saturated(c, 1) && !Saturated(c, 2);
  }

  /** `np.diff(mean, n=2)[i] < 0`: the response bends downwards at i + 1. */
  predicate Concave(mean: seq<real>, i: nat)
    requires i + 2 < |mean|
  {
    mean[i + 2] - 2.0 * mean[i + 1] + mean[i] < 0.0
  }

  function FirstConcave(mean: seq<real>, from: nat): (r: Option<nat>)
    requires from + 2 <= |mean|
    ensures r.Some? ==> from <= r.value && r.value + 2 < |mean| && Concave(mean, r.value)
    ensures r.Some? ==> forall j :: from <= j < r.value ==> !Concave(mean, j)
    ensures r.None? ==> forall j :: from <= j && j + 2 < |mean| ==> !Concave(mean, j)
    decreases |mean| - from
  {
    if from + 2 == |mean| then None
    else if Concave(mean, from) then Some(from)
    else FirstConcave(mean, from + 1)
  }

  /** `diminishing_returns_start`: the spend at the first point where the
      second difference of the mean response is negative, else the first
      spend; fewer than three points give the first spend, none fails. */
  function DiminishingReturnsStart(c: Curve): (r: Result<real>)
    requires WellShaped(c)
    ensures r.Err? <==> |c.spend| == 0
    ensures r.Err? ==> r.error == Http(500)
    ensures r.Ok? ==> r.value in c.spend
    ensures |c.spend| in {1, 2} ==> r == Ok(c.spend[0])
    ensures |c.spend| > 2 ==>
      || (exists i: nat :: i + 2 < |c.spend| && Concave(c.mean, i) && r == Ok(c.spend[i]) &&
                      forall j :: 0 <= j < i ==> !Concave(c.mean, j))
      || ((forall j :: 0 <= j && j + 2 < |c.spend| ==> !Concave(c.mean, j)) && r == Ok(c.spend[0]))
  {
    if |c.spend| == 0 then Err(CatchAll(ValueError))
    else if |c.mean| > 2 then
      match FirstConcave(c.mean, 0)
      case Some(i) => Ok(c.spend[i])
      case None => Ok(c.spend[0])
    else Ok(c.spend[0])
  }

  /** The `points_list` loop: one point per grid index, in order. */
  method PointsList(c: Curve) returns (points: seq<ResponseCurvePoint>)
    requires WellShaped(c)
    ensures |points| == |c.spend|
    ensures forall i :: 0 <= i < |c.spend| ==>
      points[i] == ResponseCurvePoint(c.spend[i], c.mean[i], c.lower[i], c.upper[i])
  {
    points := [];
    var i := 0;
    while i < |c.spend|
      invariant i <= |c.spend| && |points| == i
      invariant forall q :: 0 <= q < i ==> points[q] == ResponseCurvePoint(c.spend[q], c.mean[q], c.lower[q], c.upper[q])
    {
      points := points + [ResponseCurvePoint(c.spend[i], c.mean[i], c.lower[i], c.upper[i])];
      i := i + 1;
    }
  }

  /** `channel or (channels[0] if channels else None)`, then the two checks
      that raise 400. */
  function SelectChannel(channel: Option<string>, channels: seq<string>): (r: Result<string>)
    ensures r.Ok? ==> r.value in channels && r.value != ""
    ensures NonEmpty(channel) ==> (r.Ok? <==> channel.value in channels)
    ensures NonEmpty(channel) && r.Ok? ==> r.value == channel.value
    ensures !NonEmpty(channel) ==> (r.Ok? <==> |channels| > 0 && channels[0] != "")
    ensures !NonEmpty(channel) && r.Ok? ==> r.value == channels[0]
    ensures r.Err? ==> r.error == Http(400)
  {
    var selected := if NonEmpty(channel) then channel else if |channels| > 0 then Some(channels[0]) else None;
    if !NonEmpty(selected) then Err(Http(400))
    else if selected.value !in channels then Err(Http(400))
    else Ok(selected.value)
  }

  /** The body of `_build_response_curve`. */
  datatype ResponseCurve = ResponseCurve(
    channel: string,
    spend: seq<real>,
    mean: seq<real>,
    lower: seq<real>,
    upper: seq<real>,
    credibleInterval: real,
    modelVersion: int)

  /** `_build_response_curve` over the model's channels and curves; the
      selection's 400 comes out as a 500, and `spend_max` is never read. */
  function BuildResponseCurve(channel: Option<string>, points: int, spendMax: Option<real>, credibleInterval: real,
                              channels: seq<string>, curves: string -> Curve): (r: Result<ResponseCurve>)
    ensures r.Err? <==> SelectChannel(channel, channels).Err?
    ensures r.Err? ==> r.error == Http(500)
    ensures r.Ok? ==> r.value.channel == SelectChannel(channel, channels).value && r.value.channel in channels
    ensures r.Ok? ==> r.value.spend == curves(r.value.channel).spend && r.value.mean == curves(r.value.channel).mean
    ensures r.Ok? ==> r.value.lower == curves(r.value.channel).lower && r.value.upper == curves(r.value.channel).upper
    ensures r.Ok? ==> r.value.credibleInterval == credibleInterval && r.value.modelVersion == 1
  {
    match SelectChannel(channel, channels)
    case Err(e) => Err(CatchAll(e))
    case Ok(selected) =>
      var curve := curves(selected);
      Ok(ResponseCurve(selected, curve.spend, curve.mean, curve.lower, curve.upper, credibleInterval, 1))
  }

  /** `spend_max` has no effect on the response. */
  lemma SpendMaxIgnored(channel: Option<string>, points: int, a: Option<real>, b: Option<real>, credibleInterval: real,
                        channels: seq<string>, curves: string -> Curve)
    ensures BuildResponseCurve(channel, points, a, credibleInterval, channels, curves) ==
            BuildResponseCurve(channel, points, b, credibleInterval, channels, curves)
  {
  }

  /** `channels if channels else all_channels`. */
  function SelectedChannels(requested: Option<seq<string>>, allChannels: seq<string>): seq<string> {
    if requested.Some? && requested.value != [] then requested.value else allChannels
  }

  /** The entry of one channel in `get_response_curves_multiple`; an empty
      grid fails on `roi[0]`. */
  function CurveChannelOf(id: string, c: Curve): (r: Result<ResponseCurveChannel>)
    requires WellShaped(c)
    ensures r.Err? <==> |c.spend| == 0
    ensures r.Err? ==> r.error == Http(500)
  {
    if |c.spend| == 0 then Err(CatchAll(ValueError))
    else
      Ok(ResponseCurveChannel(id, id, seq(|c.spend|, i requires 0 <= i < |c.spend| =>
           ResponseCurvePoint(c.spend[i], c.mean[i], c.lower[i], c.upper[i])),
         SaturationSpend(c).value, DiminishingReturnsStart(c).value))
  }

  /** A channel's entry lists the grid point by point under the channel's
      id, with the saturation spend as the route computes it and the start
      of diminishing returns. */
  lemma CurveChannelOfMeaning(id: string, c: Curve)
    requires WellShaped(c) && |c.spend| > 0
    ensures var r := CurveChannelOf(id, c).value;
      && r.id == id && r.name == id && |r.points| == |c.spend|
      && (forall i :: 0 <= i < |c.spend| ==>
            r.points[i] == ResponseCurvePoint(c.spend[i], c.mean[i], c.lower[i], c.upper[i]))
      && Ok(r.saturationSpend) == SaturationSpend(c)
      && Ok(r.diminishingReturnsStart) == DiminishingReturnsStart(c)
  {
  }

  /** As served, a channel whose grid starts at zero spend and zero response
      reports saturation spend 0. */
  lemma CurveChannelSaturatesAtZero(id: string, c: Curve)
    requires WellShaped(c) && |c.spend| > 1
    requires c.spend[0] == 0.0 && c.mean[0] == 0.0 && InitialRoi(c) >= 0.0
    ensures CurveChannelOf(id, c).Ok? && CurveChannelOf(id, c).value.saturationSpend == 0.0
  {
    SaturationAtZeroSpend(c);
  }

  /** Over a grid with non-negative responses and bounds, a channel's entry
      passes the `ResponseCurveChannel` validators. */
  lemma CurveChannelValid(id: string, c: Curve)
    requires WellShaped(c) && |c.spend| > 0
    requires forall i :: 0 <= i < |c.spend| ==> c.mean[i] >= 0.0 && c.lower[i] >= 0.0 && c.upper[i] >= 0.0
    ensures ValidResponseCurveChannel(CurveChannelOf(id, c).value)
  {
    var r := CurveChannelOf(id, c).value;
    assert r.saturationSpend in c.spend && r.diminishingReturnsStart in c.spend;
  }

  /** `get_response_curves_multiple`: every requested channel must be known
      (a 400, surfacing as a 500), then one entry per selected channel, in
      request order. */
  method ResponseCurvesMultiple(requested: Option<seq<string>>, allChannels: seq<string>, curves: string -> Curve)
    returns (r: Result<seq<ResponseCurveChannel>>)
    requires forall ch :: ch in allChannels ==> WellShaped(curves(ch))
    ensures r.Err? ==> r.error == Http(500)
    ensures var selected := SelectedChannels(requested, allChannels);
      && (r.Err? <==> exists k :: 0 <= k < |selected| && (selected[k] !in allChannels || |curves(selected[k]).spend| == 0))
      && (r.Ok? ==> |r.value| == |selected|)
      && (r.Ok? ==> forall k :: 0 <= k < |selected| ==> Ok(r.value[k]) == CurveChannelOf(selected[k], curves(selected[k])))
  {
    var selected := SelectedChannels(requested, allChannels);
    var k := 0;
    while k < |selected|
      invariant k <= |selected|
      invariant forall q :: 0 <= q < k ==> selected[q] in allChannels
    {
      if selected[k] !in allChannels {
        return Err(CatchAll(Http(400)));
      }
      k := k + 1;
    }
    var result: seq<ResponseCurveChannel> := [];
    k := 0;
    while k < |selected|
      invariant k <= |selected| && |result| == k
      invariant forall q :: 0 <= q < k ==> Ok(result[q]) == CurveChannelOf(selected[q], curves(selected[q]))
    {
      var curve := curves(selected[k]);
      var points := PointsList(curve);
      var saturation := SaturationSpend(curve);
      var diminishing := DiminishingReturnsStart(curve);
      if saturation.Err? || diminishing.Err? {
        return Err(CatchAll(ValueError));
      }
      assert points == seq(|curve.spend|, i requires 0 <= i < |curve.spend| =>
        ResponseCurvePoint(curve.spend[i], curve.mean[i], curve.lower[i], curve.upper[i]));
      result := result + [ResponseCurveChannel(selected[k], selected[k], points, saturation.value, diminishing.value)];
      k := k + 1;
    }
    r := Ok(result);
  }
}
