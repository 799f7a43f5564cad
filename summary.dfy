/** `_compute_summary`: the headline metrics over the national series. */
module Summary {
  import opened Wrappers
  import opened Numeric
  import opened Records

  datatype SummaryMetrics = SummaryMetrics(
    totalSpend: real,
    totalConversions: real,
    totalRevenue: real,
    roas: real,
    cac: real,
    promoRate: real,
    recentConversionLift: real,
    recentSpendLift: real)

  /** The conversions a week adds to the total: only truthy ones count. */
  function CountedConversions(r: Record): real {
    if Truthy(r.conversions) then r.conversions.value else 0.0
  }

  /** The revenue a week adds: conversions times revenue per conversion,
      when both are truthy. */
  function CountedRevenue(r: Record): real {
    if Truthy(r.conversions) && Truthy(r.revenuePerConversion)
    then Revenue(r.conversions.value, r.revenuePerConversion.value) else 0.0
  }

  /** The revenue of a week's conversions. */
  function Revenue(conversions: real, revenuePerConversion: real): real {
    conversions * revenuePerConversion
  }

  predicate IsPromoWeek(r: Record) {
    r.promo.Some? && r.promo.value > 0.0
  }

  function WeekSpends(rs: seq<Record>): (r: seq<real>)
    ensures |r| == |rs| && forall i :: 0 <= i < |rs| ==> r[i] == WeekSpend(rs[i])
  {
    seq(|rs|, i requires 0 <= i < |rs| => WeekSpend(rs[i]))
  }

  /** The sum of every channel's spend over every week. */
  function TotalSpend(rs: seq<Record>): real {
    Sum(WeekSpends(rs))
  }

  function TotalConversions(rs: seq<Record>): real {
    if |rs| == 0 then 0.0 else TotalConversions(rs[..|rs| - 1]) + CountedConversions(rs[|rs| - 1])
  }

  function TotalRevenue(rs: seq<Record>): real {
    if |rs| == 0 then 0.0 else TotalRevenue(rs[..|rs| - 1]) + CountedRevenue(rs[|rs| - 1])
  }

  function PromoWeeks(rs: seq<Record>): (n: nat)
    ensures n <= |rs|
  {
    if |rs| == 0 then 0 else PromoWeeks(rs[..|rs| - 1]) + (if IsPromoWeek(rs[|rs| - 1]) then 1 else 0)
  }

  /** The most recent truthy conversions count, if any. */
  function LastConversions(rs: seq<Record>): (r: Option<real>)
    ensures r.Some? ==> r.value != 0.0
    ensures r.Some? <==> exists i :: 0 <= i < |rs| && Truthy(rs[i].conversions)
  {
    if |rs| == 0 then None
    else if Truthy(rs[|rs| - 1].conversions) then rs[|rs| - 1].conversions
    else
      assert forall i :: 0 <= i < |rs| - 1 ==> rs[..|rs| - 1][i] == rs[i];
      LastConversions(rs[..|rs| - 1])
  }

  /** The most recent non-zero weekly spend, if any. */
  function LastSpend(rs: seq<Record>): (r: Option<real>)
    ensures r.Some? ==> r.value != 0.0
  {
    if |rs| == 0 then None
    else if WeekSpend(rs[|rs| - 1]) != 0.0 then Some(WeekSpend(rs[|rs| - 1]))
    else LastSpend(rs[..|rs| - 1])
  }

  /** The conversion lift the summary computes at the last week of `rs`:
      only when that week has a conversions value and some earlier week
      had truthy conversions. */
  function ConversionLiftAtEnd(rs: seq<Record>): Option<real>
    requires |rs| > 0
  {
    var n := |rs| - 1;
    match (rs[n].conversions, LastConversions(rs[..n]))
    case (Some(c), Some(p)) => Some(Lift(c, p))
    case _ => None
  }

  /** The spend lift at the last week: whenever an earlier week had spend. */
  function SpendLiftAtEnd(rs: seq<Record>): Option<real>
    requires |rs| > 0
  {
    var n := |rs| - 1;
    match LastSpend(rs[..n])
    case Some(p) => Some(Lift(WeekSpend(rs[n]), p))
    case None => None
  }

  /** The relative change from `before` to `now`. */
  function Lift(now: real, before: real): real
    requires before != 0.0
  {
    (now - before) / before
  }

  /** The last conversion lift computed over `rs`, `0.0` if none was. */
  function RecentConversionLift(rs: seq<Record>): real {
    if |rs| == 0 then 0.0
    else ConversionLiftAtEnd(rs).GetOr(RecentConversionLift(rs[..|rs| - 1]))
  }

  function RecentSpendLift(rs: seq<Record>): real {
    if |rs| == 0 then 0.0
    else SpendLiftAtEnd(rs).GetOr(RecentSpendLift(rs[..|rs| - 1]))
  }

  /** The headline metrics of the national weeks: the three totals, revenue
      per unit of spend and spend per conversion (0 when undefined), the
      share of promotion weeks, and the latest week-over-week lifts. */
  function SummaryOf(records: seq<Record>): SummaryMetrics {
    var spend := TotalSpend(records);
    var conversions := TotalConversions(records);
    var revenue := TotalRevenue(records);
    SummaryMetrics(spend, conversions, revenue,
                   if spend != 0.0 then revenue / spend else 0.0,
                   if conversions != 0.0 then spend / conversions else 0.0,
                   PromoWeeks(records) as real / (if |records| > 0 then |records| else 1) as real,
                   RecentConversionLift(records), RecentSpendLift(records))
  }

  /** `_compute_summary`: one pass over the national weeks. */
  method ComputeSummary(records: seq<Record>) returns (s: SummaryMetrics)
    ensures s == SummaryOf(records)
    ensures s.totalSpend == TotalSpend(records)
    ensures s.totalConversions == TotalConversions(records)
    ensures s.totalRevenue == TotalRevenue(records)
    ensures 0.0 <= s.promoRate <= 1.0
    ensures s.recentConversionLift == RecentConversionLift(records)
    ensures s.recentSpendLift == RecentSpendLift(records)
  {
    var totalSpend, totalConversions, totalRevenue := 0.0, 0.0, 0.0;
    var totalPromoWeeks: nat := 0;
    var previousConversions: Option<real> := None;
    var previousSpend: Option<real> := None;
    var recentConversionLift, recentSpendLift := 0.0, 0.0;
    var i := 0;
    while i < |records|
      invariant i <= |records|
      invariant totalSpend == TotalSpend(records[..i])
      invariant totalConversions == TotalConversions(records[..i])
      invariant totalRevenue == TotalRevenue(records[..i])
      invariant totalPromoWeeks == PromoWeeks(records[..i])
      invariant previousConversions == LastConversions(records[..i])
      invariant previousSpend == LastSpend(records[..i])
      invariant recentConversionLift == RecentConversionLift(records[..i])
      invariant recentSpendLift == RecentSpendLift(records[..i])
    {
      var weekSpend := WeekSpend(records[i]);
      totalSpend, totalConversions, totalRevenue, totalPromoWeeks :=
        AddWeek(records, i, weekSpend, totalSpend, totalConversions, totalRevenue, totalPromoWeeks);
      previousConversions, previousSpend, recentConversionLift, recentSpendLift :=
        TrackLifts(records, i, weekSpend, previousConversions, previousSpend, recentConversionLift, recentSpendLift);
      i := i + 1;
    }
    assert records[..i] == records;
    var roas := if totalSpend != 0.0 then totalRevenue / totalSpend else 0.0;
    var avgCac := if totalConversions != 0.0 then totalSpend / totalConversions else 0.0;
    var weeks := if |records| > 0 then |records| else 1;
    var promoRatio := totalPromoWeeks as real / weeks as real;
    RatioAtMostOne(totalPromoWeeks, weeks);
    s := SummaryMetrics(totalSpend, totalConversions, totalRevenue, roas, avgCac, promoRatio,
                        recentConversionLift, recentSpendLift);
  }

  /** The first half of the loop body of `_compute_summary`: add the week
      to the four running totals. */
  method AddWeek(records: seq<Record>, i: nat, weekSpend: real,
                 totalSpend: real, totalConversions: real, totalRevenue: real, totalPromoWeeks: nat)
    returns (spend: real, conversions: real, revenue: real, promoWeeks: nat)
    requires i < |records| && weekSpend == WeekSpend(records[i])
    requires totalSpend == TotalSpend(records[..i])
    requires totalConversions == TotalConversions(records[..i])
    requires totalRevenue == TotalRevenue(records[..i])
    requires totalPromoWeeks == PromoWeeks(records[..i])
    ensures spend == TotalSpend(records[..i + 1])
    ensures conversions == TotalConversions(records[..i + 1])
    ensures revenue == TotalRevenue(records[..i + 1])
    ensures promoWeeks == PromoWeeks(records[..i + 1])
  {
    var record := records[i];
    spend, conversions, revenue, promoWeeks := totalSpend + weekSpend, totalConversions, totalRevenue, totalPromoWeeks;
    if Truthy(record.conversions) {
      conversions := conversions + record.conversions.value;
      if Truthy(record.revenuePerConversion) {
        revenue := revenue + Revenue(record.conversions.value, record.revenuePerConversion.value);
      }
    }
    if record.promo.Some? && record.promo.value > 0.0 {
      promoWeeks := promoWeeks + 1;
    }
    TotalsStep(records, i);
  }

  /** The second half: the two lifts, then the two "previous" values. */
  method TrackLifts(records: seq<Record>, i: nat, weekSpend: real,
                    previousConversions: Option<real>, previousSpend: Option<real>,
                    recentConversionLift: real, recentSpendLift: real)
    returns (lastConversions: Option<real>, lastSpend: Option<real>, conversionLift: real, spendLift: real)
    requires i < |records| && weekSpend == WeekSpend(records[i])
    requires previousConversions == LastConversions(records[..i])
    requires previousSpend == LastSpend(records[..i])
    requires recentConversionLift == RecentConversionLift(records[..i])
    requires recentSpendLift == RecentSpendLift(records[..i])
    ensures lastConversions == LastConversions(records[..i + 1])
    ensures lastSpend == LastSpend(records[..i + 1])
    ensures conversionLift == RecentConversionLift(records[..i + 1])
    ensures spendLift == RecentSpendLift(records[..i + 1])
  {
    var record := records[i];
    lastConversions, lastSpend, conversionLift, spendLift :=
      previousConversions, previousSpend, recentConversionLift, recentSpendLift;
    if record.conversions.Some? && previousConversions.Some? {
      conversionLift := Lift(record.conversions.value, previousConversions.value);
    }
    if Truthy(record.conversions) {
      lastConversions := record.conversions;
    }
    if previousSpend.Some? {
      spendLift := Lift(weekSpend, previousSpend.value);
    }
    if weekSpend != 0.0 {
      lastSpend := Some(weekSpend);
    }
    LastStep(records, i);
    LiftStep(records, i);
  }

  lemma RatioAtMostOne(a: nat, b: nat)
    requires 0 < b && a <= b
    ensures 0.0 <= a as real / b as real <= 1.0
  {
    assert a as real / b as real * b as real == a as real;
  }

  /** How the four running totals of `_compute_summary` move when one more
      week is read. */
  lemma TotalsStep(records: seq<Record>, i: int)
    requires 0 <= i < |records|
    ensures TotalSpend(records[..i + 1]) == TotalSpend(records[..i]) + WeekSpend(records[i])
    ensures TotalConversions(records[..i + 1]) == TotalConversions(records[..i]) + CountedConversions(records[i])
    ensures TotalRevenue(records[..i + 1]) == TotalRevenue(records[..i]) + CountedRevenue(records[i])
    ensures PromoWeeks(records[..i + 1]) == PromoWeeks(records[..i]) + (if IsPromoWeek(records[i]) then 1 else 0)
  {
    var prefix := records[..i + 1];
    assert prefix[..i] == records[..i];
    assert WeekSpends(prefix)[..i] == WeekSpends(records[..i]);
  }

  /** How the two "previous" values move when one more week is read. */
  lemma LastStep(records: seq<Record>, i: int)
    requires 0 <= i < |records|
    ensures LastConversions(records[..i + 1]) ==
      (if Truthy(records[i].conversions) then records[i].conversions else LastConversions(records[..i]))
    ensures LastSpend(records[..i + 1]) ==
      (if WeekSpend(records[i]) != 0.0 then Some(WeekSpend(records[i])) else LastSpend(records[..i]))
  {
    assert records[..i + 1][..i] == records[..i];
  }

  /** How the two recent lifts move when one more week is read. */
  lemma LiftStep(records: seq<Record>, i: int)
    requires 0 <= i < |records|
    ensures var p := LastConversions(records[..i]);
      RecentConversionLift(records[..i + 1]) ==
        if records[i].conversions.Some? && p.Some? then Lift(records[i].conversions.value, p.value)
        else RecentConversionLift(records[..i])
    ensures var p := LastSpend(records[..i]);
      RecentSpendLift(records[..i + 1]) ==
        if p.Some? then Lift(WeekSpend(records[i]), p.value) else RecentSpendLift(records[..i])
  {
    assert records[..i + 1][..i] == records[..i];
  }

  /** Truthy conversions never make the total negative when all are
      non-negative. */
  lemma {:induction false} TotalConversionsNonNegative(rs: seq<Record>)
    requires forall i :: 0 <= i < |rs| ==> rs[i].conversions.Some? ==> rs[i].conversions.value >= 0.0
    ensures TotalConversions(rs) >= 0.0
  {
    if |rs| > 0 {
      TotalConversionsNonNegative(rs[..|rs| - 1]);
    }
  }

  lemma {:induction false} TotalRevenueNonNegative(rs: seq<Record>)
    requires forall i :: 0 <= i < |rs| ==> rs[i].conversions.Some? ==> rs[i].conversions.value >= 0.0
    requires forall i :: 0 <= i < |rs| ==> rs[i].revenuePerConversion.Some? ==> rs[i].revenuePerConversion.value >= 0.0
    ensures TotalRevenue(rs) >= 0.0
  {
    if |rs| > 0 {
      TotalRevenueNonNegative(rs[..|rs| - 1]);
    }
  }

  /** The conversion lift computed at week k, if one is. */
  function ConversionLiftAt(rs: seq<Record>, k: int): Option<real>
    requires 0 <= k < |rs|
  {
    ConversionLiftAtEnd(rs[..k + 1])
  }

  /** The recent conversion lift is the one computed at the last week that
      has a conversions value and a truthy week before it. */
  lemma {:induction false} RecentConversionLiftIsLast(rs: seq<Record>, j: int)
    requires 0 <= j < |rs|
    requires ConversionLiftAt(rs, j).Some?
    requires forall k :: j < k < |rs| ==> ConversionLiftAt(rs, k).None?
    ensures RecentConversionLift(rs) == ConversionLiftAt(rs, j).value
    decreases |rs|
  {
    var n := |rs| - 1;
    assert rs[..n + 1] == rs;
    assert ConversionLiftAtEnd(rs) == ConversionLiftAt(rs, n);
    if j == n {
      assert RecentConversionLift(rs) == ConversionLiftAtEnd(rs).value;
    } else {
      var front := rs[..n];
      assert front[..j + 1] == rs[..j + 1];
      assert ConversionLiftAt(front, j) == ConversionLiftAt(rs, j);
      forall k | j < k < n ensures ConversionLiftAt(front, k).None? {
        assert front[..k + 1] == rs[..k + 1];
        assert ConversionLiftAt(rs, k).None?;
      }
      RecentConversionLiftIsLast(front, j);
      assert ConversionLiftAtEnd(rs).None?;
      assert RecentConversionLift(rs) == RecentConversionLift(front);
    }
  }

  /** With no week computing a lift, the recent lift stays 0. */
  lemma {:induction false} RecentConversionLiftDefault(rs: seq<Record>)
    requires forall k :: 0 <= k < |rs| ==> ConversionLiftAt(rs, k).None?
    ensures RecentConversionLift(rs) == 0.0
  {
    if |rs| > 0 {
      var n := |rs| - 1;
      var front := rs[..n];
      assert rs[..n + 1] == rs;
      assert ConversionLiftAtEnd(rs) == ConversionLiftAt(rs, n);
      forall k | 0 <= k < n ensures ConversionLiftAt(front, k).None? {
        assert front[..k + 1] == rs[..k + 1];
        assert ConversionLiftAt(rs, k).None?;
      }
      RecentConversionLiftDefault(front);
      assert RecentConversionLift(rs) == RecentConversionLift(front);
    }
  }
}
