/** `simulate_budget_shift`: move a fraction of one channel's spend to
    another and re-price every channel, on a copy of the stored totals. */
module Shift {
  import opened Wrappers
  import opened Numeric
  import opened Totals

  /** The position of `id` among the channel totals, `None` when the
      dictionary has no such key. */
  function IndexOf(ts: seq<ChannelTotals>, id: string): (r: Option<nat>)
    ensures r.Some? ==> r.value < |ts| && ts[r.value].id == id
    ensures r.None? <==> forall j :: 0 <= j < |ts| ==> ts[j].id != id
  {
    if |ts| == 0 then None
    else if ts[0].id == id then Some(0)
    else
      match IndexOf(ts[1..], id)
      case Some(k) => Some(k + 1)
      case None => None
  }

  /** The keys of a dictionary are distinct. */
  predicate DistinctIds(ts: seq<ChannelTotals>) {
    forall i, j :: 0 <= i < j < |ts| ==> ts[i].id != ts[j].id
  }

  /** Whether `simulate_budget_shift` accepts the request; the checks run in
      this order: distinct channels, a ratio in [0, 0.5], two known channels,
      and a source with positive spend. */
  function ShiftError(ts: seq<ChannelTotals>, source: string, target: string, ratio: real): (e: Option<Error>)
    ensures e.Some? ==> e.value == Http(400) || e.value == Http(404)
    ensures e.None? ==> IndexOf(ts, source).Some? && IndexOf(ts, target).Some?
  {
    if source == target then Some(Http(400))
    else if !(0.0 <= ratio <= 0.5) then Some(Http(400))
    else if IndexOf(ts, source).None? || IndexOf(ts, target).None? then Some(Http(404))
    else if ts[IndexOf(ts, source).value].spend <= 0.0 then Some(Http(400))
    else None
  }

  /** The spend moved: `source_spend * shift_ratio`. */
  function ShiftAmount(sourceSpend: real, ratio: real): (amount: real)
    ensures 0.0 < sourceSpend && 0.0 <= ratio <= 0.5 ==> 0.0 <= amount <= sourceSpend / 2.0
    ensures 0.0 < sourceSpend && 0.0 < ratio ==> 0.0 < amount
  {
    sourceSpend * ratio
  }

  /** `simulate_budget_shift` over the stored totals and the summary's
      conversions and revenue. */
  method SimulateBudgetShift(totals: seq<ChannelTotals>, conversions: real, revenue: real,
                             source: string, target: string, ratio: real)
    returns (r: Result<seq<ChannelTotals>>)
    requires DistinctIds(totals)
    ensures r.Err? <==> ShiftError(totals, source, target, ratio).Some?
    ensures r.Err? ==> r.error == ShiftError(totals, source, target, ratio).value
    ensures r.Ok? ==> |r.value| == |totals| && Priced(r.value, conversions, revenue)
    ensures r.Ok? ==> forall j :: 0 <= j < |totals| ==>
      r.value[j].id == totals[j].id && r.value[j].name == totals[j].name &&
      r.value[j].impressions == totals[j].impressions &&
      r.value[j].averageWeeklySpend == totals[j].averageWeeklySpend
    ensures r.Ok? ==> var s, t := IndexOf(totals, source).value, IndexOf(totals, target).value;
      && r.value[s].spend == totals[s].spend - ShiftAmount(totals[s].spend, ratio)
      && r.value[t].spend == totals[t].spend + ShiftAmount(totals[s].spend, ratio)
      && (forall j :: 0 <= j < |totals| && j != s && j != t ==> r.value[j].spend == totals[j].spend)
      && (0.0 < ratio ==> r.value[s].spend < totals[s].spend && totals[t].spend < r.value[t].spend)
    ensures r.Ok? ==> Sum(TotalsSpends(r.value)) == Sum(TotalsSpends(totals))
  {
    if source == target {
      return Err(Http(400));
    }
    if !(0.0 <= ratio <= 0.5) {
      return Err(Http(400));
    }
    var s, t := IndexOf(totals, source), IndexOf(totals, target);
    if s.None? || t.None? {
      return Err(Http(404));
    }
    var si, ti := s.value, t.value;
    var sourceSpend := totals[si].spend;
    if sourceSpend <= 0.0 {
      return Err(Http(400));
    }
    var shifted := MoveSpend(totals, si, ti, ShiftAmount(sourceSpend, ratio));
    var repriced := RepriceAll(shifted, conversions, revenue);
    r := Ok(repriced);
  }

  /** `totals[source].spend -= amount; totals[target].spend += amount` on
      the copy: only the two spends change, and their sum does not. */
  function MoveSpend(ts: seq<ChannelTotals>, s: nat, t: nat, amount: real): (r: seq<ChannelTotals>)
    requires s < |ts| && t < |ts| && s != t
    ensures |r| == |ts|
    ensures forall j :: 0 <= j < |ts| ==>
      r[j].id == ts[j].id && r[j].name == ts[j].name &&
      r[j].impressions == ts[j].impressions && r[j].averageWeeklySpend == ts[j].averageWeeklySpend
    ensures r[s].spend == ts[s].spend - amount && r[t].spend == ts[t].spend + amount
    ensures forall j :: 0 <= j < |ts| && j != s && j != t ==> r[j].spend == ts[j].spend
    ensures Sum(TotalsSpends(r)) == Sum(TotalsSpends(ts))
  {
    var shifted := ts[s := ts[s].(spend := ts[s].spend - amount)][t := ts[t].(spend := ts[t].spend + amount)];
    ShiftConserves(ts, shifted, s, t, amount);
    shifted
  }

  /** Taking `amount` from one channel and giving it to another leaves the
      total spend unchanged. */
  lemma ShiftConserves(ts: seq<ChannelTotals>, shifted: seq<ChannelTotals>, s: int, t: int, amount: real)
    requires 0 <= s < |ts| && 0 <= t < |ts| && s != t
    requires shifted == ts[s := ts[s].(spend := ts[s].spend - amount)][t := ts[t].(spend := ts[t].spend + amount)]
    ensures Sum(TotalsSpends(shifted)) == Sum(TotalsSpends(ts))
  {
    var spends := TotalsSpends(ts);
    var once := spends[s := spends[s] - amount];
    assert TotalsSpends(shifted) == once[t := spends[t] + amount];
    SumUpdate(spends, s, spends[s] - amount);
    SumUpdate(once, t, spends[t] + amount);
  }
}
