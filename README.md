# Marketing-mix analytics API, modelled in Dafny

This project models the core of a marketing-analytics HTTP API. It has
four parts:

- **The marketing-mix service** (`apps/api/services/marketing_mix_service.py`).
  It loads weekly per-geo and national records with spend and impressions
  for five media channels. It derives per-channel totals, a summary and
  headline insights. It serves filtered time series and simulates moving
  budget between channels.
- **The two routers that present these results.**
  - `apps/api/routers/marketing_mix.py`: per-week metric points, clamped
    bounds, channel aggregates sorted by spend, and a budget-shift
    projection.
  - `apps/api/routers/mmm.py`: the post-processing of a fitted media-mix
    model's output. That is contribution shares per week, the date mask,
    channel selection, and the saturation and diminishing-returns points of
    response curves.
- **The request and response validators** (`apps/api/schemas/*.py`).
- **The derivation of the asynchronous database URL** (`apps/api/config.py`).

Modules, one per file:

- `Wrappers`: Option and Result, plus Python truthiness of an optional
  number or string.
- `Numeric`: dates as day numbers, and sums over `real` with their lemmas.
- `Text`: the ASCII string methods the code uses. These are `lower`,
  `strip`, `title`, `startswith`, `isdigit`, `<` and `replace`.
- `Records`: channel, geo and national records, and how a CSV row becomes
  one.
- `Filtering`: channel-id normalisation, channel filtering and the date
  window.
- `Loading`: grouping and sorting the loaded rows.
- `Summary`: `_compute_summary`.
- `Totals`: `_compute_channel_totals`, the re-pricing shared with the
  shift, and `_build_insights`.
- `Shift`: `simulate_budget_shift`.
- `MarketingMix`: the `MarketingMixService` class, whose fields are the
  stored records and the derived tables, and its construction from rows.
- `Schemas`: response types and validity predicates.
- `MarketingMixRoutes`: the routes of `apps/api/routers/marketing_mix.py`.
- `MmmRoutes`: the routes of `apps/api/routers/mmm.py`.
- `Config`: `Settings.ASYNC_DATABASE_URL` and the reverse rewrite the
  migrations apply.

Numbers are mathematical reals and dates are integers (day numbers).
Python's `float()` and `date.fromisoformat` are taken as parameters: a
partial function from text to a number or a date. The media-mix model's
posterior means and quantiles, and its response curves, are inputs to the
`/mmm` routes.

## Model

| member | source | states |
|---|---|---|
| Records.ChannelId | apps/api/services/marketing_mix_service.py:14 | channel ids are "channel" followed by one digit |
| Records.ChannelIndex | apps/api/services/marketing_mix_service.py:14 | an id is one of the five channel ids exactly when an index is found, and that index maps back to it |
| Records.ChannelIdsDistinct | apps/api/services/marketing_mix_service.py:14 | the five channel ids differ pairwise |
| Records.ParseFloat | apps/api/services/marketing_mix_service.py:411-417 | a missing or empty value gives None; otherwise the float parser's answer, None when it fails |
| Records.ParseDate | apps/api/services/marketing_mix_service.py:420-423 | a missing or empty value raises ValueError; otherwise the date if it parses, else ValueError |
| Records.BuildChannels | apps/api/services/marketing_mix_service.py:258-274 | exactly five channel records, the i-th built from the i-th spend and impression columns |
| Records.BuildChannelsShape | apps/api/services/marketing_mix_service.py:258-274 | ids channel0..channel4 in order; a missing spend or impression column gives 0; only channel0 can carry organic impressions |
| Records.GeoOf | apps/api/services/marketing_mix_service.py:207-209 | a geo, when found, is never empty |
| Records.GeoRecordOf | apps/api/services/marketing_mix_service.py:211-225 | a row becomes a geo record of its geo exactly when its date parses |
| Records.NationalRecordOf | apps/api/services/marketing_mix_service.py:241-253 | a row becomes a national record exactly when its date parses |
| Records.SortedAppendOne | apps/api/services/marketing_mix_service.py:229 | appending a record no earlier than all others keeps a series sorted by time |
| Filtering.NormaliseChannelId | apps/api/services/marketing_mix_service.py:426-434 | the lower-cased, stripped id is accepted if it starts with "channel"; all digits gives "channel"+digits; anything else is a ValueError; an accepted id never ends in white space |
| Filtering.NormalisedForm | apps/api/services/marketing_mix_service.py:426-434 | an accepted id is lower-case and starts with "channel" |
| Filtering.NormaliseAccepted | apps/api/services/marketing_mix_service.py:426-434 | a lower-case id starting with "channel" and ending in a non-space is accepted unchanged |
| Filtering.NormaliseIdempotent | apps/api/services/marketing_mix_service.py:426-434 | normalising an accepted id again changes nothing |
| Filtering.ChannelFilterOf | apps/api/services/marketing_mix_service.py:97 | no filter or an empty list gives no filter; otherwise the set of lower-cased ids |
| Filtering.AllowedIds | apps/api/services/marketing_mix_service.py:279 | fails exactly when some filter entry does not normalise; otherwise the set of normalised ids |
| Filtering.KeepAllowed | apps/api/services/marketing_mix_service.py:280 | the filter never adds channels |
| Filtering.KeepAllowedMembers | apps/api/services/marketing_mix_service.py:280 | keeps exactly the channels whose id is allowed, and nothing else |
| Filtering.KeepAllowedAppend | apps/api/services/marketing_mix_service.py:280 | the filter works channel by channel, preserving order across concatenation |
| Filtering.FilterChannels | apps/api/services/marketing_mix_service.py:276-301 | no filter returns the record unchanged; otherwise a copy identical but for its allowed-channel subsequence; a bad id raises ValueError |
| Filtering.FilterFailsExactly | apps/api/services/marketing_mix_service.py:276-301 | channel filtering fails exactly when some requested id does not normalise, whatever the record |
| Filtering.InRangeMembers | apps/api/services/marketing_mix_service.py:100-105 | keeps exactly the records with start <= time <= end, each bound applying only when given |
| Filtering.InRangeAppend | apps/api/services/marketing_mix_service.py:100-105 | the date filter works record by record, preserving order |
| Filtering.InRangeSorted | apps/api/services/marketing_mix_service.py:100-105 | filtering a time-sorted series leaves it sorted |
| Filtering.InRangeUnbounded | apps/api/services/marketing_mix_service.py:102-105 | without bounds every record is kept |
| Filtering.FilterSeries | apps/api/services/marketing_mix_service.py:100-107 | the loop yields one channel-filtered record per in-range record, in order; ValueError exactly when something is in range and the filter is bad |
| Filtering.FilteredSorted | apps/api/services/marketing_mix_service.py:100-107 | the filtered series of a sorted series is sorted by time |
| Filtering.FilterAll | apps/api/services/marketing_mix_service.py:106-107 | one channel-filtered record per kept record |
| Filtering.FilteredFromIsFilterAll | apps/api/services/marketing_mix_service.py:100-107 | when it succeeds, the loop's output is exactly every kept record channel-filtered, and no other output qualifies |
| Loading.SortByTime | apps/api/services/marketing_mix_service.py:229 | sorting by time is a permutation |
| Loading.SortByTimeSorted | apps/api/services/marketing_mix_service.py:229 | the sorted series is non-decreasing in time |
| Loading.InsertByTimeAtTime | apps/api/services/marketing_mix_service.py:229 | inserting one record puts it after the records already there with its date, and leaves every other date's records as they were |
| Loading.SortByTimeStable | apps/api/services/marketing_mix_service.py:229 | the sort is stable: the records of any one date come out in their input order |
| Loading.GroupRowsFails | apps/api/services/marketing_mix_service.py:206-226 | loading the geo file fails exactly when a row with a geo has a bad date |
| Loading.GroupRowsGood | apps/api/services/marketing_mix_service.py:206-226 | every group is non-empty and holds only geo records of its own geo with five channels |
| Loading.GroupRowsKeys | apps/api/services/marketing_mix_service.py:206-226 | the groups are exactly the geos named by some row |
| Loading.LoadGeoData | apps/api/services/marketing_mix_service.py:198-230 | the same geos as the grouping, each group exactly the stable time sort of its rows' records (sorted, a permutation); ValueError exactly when the grouping fails |
| Loading.NationalRecordsOf | apps/api/services/marketing_mix_service.py:240-254 | one record per row in file order, or ValueError exactly when some row's date is bad |
| Loading.LoadNationalData | apps/api/services/marketing_mix_service.py:232-256 | exactly the stable time sort of the rows' records (sorted, a permutation), or ValueError exactly when a date is bad |
| Loading.NationalRecordsWellFormed | apps/api/services/marketing_mix_service.py:241-253 | every loaded national record carries the five channels |
| Loading.GoodGroupPermutation | apps/api/services/marketing_mix_service.py:228-229 | sorting a group keeps it a valid group |
| Summary.AddWeek | apps/api/services/marketing_mix_service.py:347-354 | after one more week the four running totals equal the totals over the weeks read so far |
| Summary.TrackLifts | apps/api/services/marketing_mix_service.py:356-367 | after one more week the previous values and the two lifts are those of the weeks read so far |
| Summary.ComputeSummary | apps/api/services/marketing_mix_service.py:336-382 | the result is the summary of the weeks: the three totals are the sums over the weeks, ROAS is revenue over spend and CAC spend over conversions (0 when the divisor is 0), the promo rate is the share of promo weeks (in [0, 1]), and both lifts are the last week-over-week lifts |
| Summary.TotalConversionsNonNegative | apps/api/services/marketing_mix_service.py:349-350 | non-negative weekly conversions give non-negative total conversions |
| Summary.TotalRevenueNonNegative | apps/api/services/marketing_mix_service.py:351-352 | non-negative conversions and revenue per conversion give non-negative total revenue |
| Summary.RecentConversionLiftIsLast | apps/api/services/marketing_mix_service.py:356-363 | the reported lift is the one computed at the last week where a lift was defined |
| Summary.RecentConversionLiftDefault | apps/api/services/marketing_mix_service.py:343 | with no week defining a lift, the reported lift is 0 |
| Totals.ShareBase | apps/api/services/marketing_mix_service.py:314 | the denominator is the total spend, or 1 when that is 0; never 0 |
| Totals.RepriceMeaning | apps/api/services/marketing_mix_service.py:319-333 | share × base = spend; estimates = totals × share; ROAS × spend = estimated revenue, or 0 without spend; CAC × estimated conversions = spend, absent exactly when there are none |
| Totals.AverageWeekly | apps/api/services/marketing_mix_service.py:315-321 | the average times the number of weeks is the spend; with no weeks it is the spend itself |
| Totals.AccumulateWeek | apps/api/services/marketing_mix_service.py:309-312 | after one week's channels each id's running totals grow by exactly that id's spend and impressions in the week |
| Totals.AccumulateChannels | apps/api/services/marketing_mix_service.py:308-312 | the nested loop's running totals are each channel's spend and impressions summed over all weeks |
| Totals.ComputeChannelTotals | apps/api/services/marketing_mix_service.py:303-334 | five entries with the channel ids and names, summed spend and impressions, the weekly average, and all derived metrics priced |
| Totals.RepriceAll | apps/api/services/marketing_mix_service.py:171-184 | re-pricing keeps ids, names and spends and makes every entry consistent with the spends |
| Totals.RepriceIdempotent | apps/api/services/marketing_mix_service.py:171-184 | re-pricing an already priced entry changes nothing |
| Totals.PricedSharesSumToOne | apps/api/services/marketing_mix_service.py:314-320 | with non-zero total spend the shares sum to 1 |
| Totals.PricedConversionsAddUp | apps/api/services/marketing_mix_service.py:322 | with non-zero total spend the estimated conversions add up to the total conversions |
| Totals.PricedRevenueAddsUp | apps/api/services/marketing_mix_service.py:323 | with non-zero total spend the estimated revenue adds up to the total revenue |
| Totals.PricedZeroSpendAddsUp | apps/api/services/marketing_mix_service.py:171-184 | with zero total spend the divisor is 1 and the estimated conversions and revenue each add up to 0 |
| Totals.PricedRoasUniform | apps/api/services/marketing_mix_service.py:324-328 | every channel with spend has the same ROAS, total revenue over the share base |
| Totals.PricedCacUniform | apps/api/services/marketing_mix_service.py:329-333 | CAC is present exactly for channels with spend when conversions are non-zero, and is then the share base over total conversions |
| Totals.ChannelSpendsStep | apps/api/services/marketing_mix_service.py:308-312 | one more week adds its spends to the per-channel totals, channel by channel |
| Totals.ChannelSpendsSumToTotal | apps/api/services/marketing_mix_service.py:308-314 | the per-channel spend totals add up to the summary's total spend |
| Totals.ChannelRoasIsSummaryRoas | apps/api/services/marketing_mix_service.py:324-328 | with non-zero spend, each spending channel's ROAS equals the summary ROAS |
| Totals.PricedUnique | apps/api/services/marketing_mix_service.py:319-333 | the derived metrics are determined by the spends and the two totals |
| Totals.FirstMaxIndex | apps/api/services/marketing_mix_service.py:389-394 | `max` with a key picks the first index holding the largest value |
| Totals.BuildInsights | apps/api/services/marketing_mix_service.py:384-407 | no totals give no insights; otherwise exactly three |
| Totals.BuildInsightsMeaning | apps/api/services/marketing_mix_service.py:389-407 | the first insight names a channel with the largest share (the first such), the second a channel with the largest ROAS (the first such), the third whether conversions rose or fell, with the lift |
| Shift.IndexOf | apps/api/services/marketing_mix_service.py:156 | finds the entry with the key, or reports that no entry has it |
| Shift.ShiftError | apps/api/services/marketing_mix_service.py:150-161 | checks run in order: same channels 400, ratio outside [0, 0.5] 400, unknown channel 404, no source spend 400 |
| Shift.ShiftAmount | apps/api/services/marketing_mix_service.py:163 | the amount moved is between 0 and half the source spend, and positive when the source spend and the ratio are |
| Shift.SimulateBudgetShift | apps/api/services/marketing_mix_service.py:147-186 | errors exactly as checked; the source loses and the target gains the amount (strictly, for a positive ratio), other spends unchanged, total spend conserved, every channel re-priced |
| Shift.ShiftConserves | apps/api/services/marketing_mix_service.py:163-165 | moving an amount between two channels leaves the total spend unchanged |
| MarketingMix.SortByGeoSorted | apps/api/services/marketing_mix_service.py:84 | the metadata sort orders entries by geo name |
| MarketingMix.DistinctGeosPermutation | apps/api/services/marketing_mix_service.py:84 | a reordering of entries with distinct geos still has distinct geos |
| MarketingMix.SortByGeoKeeps | apps/api/services/marketing_mix_service.py:84 | the metadata sort is sorted, keeps exactly the same entries and keeps geos distinct |
| MarketingMix.Derive | apps/api/services/marketing_mix_service.py:191-196 | the summary is that of the national weeks in all eight fields (totals, ROAS, CAC, promo rate, both lifts); the totals carry the five ids and names, each channel's summed spend and impressions and weekly average, priced against the summary; the insights are built from them |
| MarketingMix.DerivedChannelRoas | apps/api/services/marketing_mix_service.py:324-328 | in the derived tables every spending channel's ROAS equals the summary ROAS |
| MarketingMix.DerivedSpendsTotal | apps/api/services/marketing_mix_service.py:308-314 | in the derived tables the channel spends add up to the summary's total spend |
| MarketingMix.MarketingMixService.constructor | apps/api/services/marketing_mix_service.py:56-63 | stores the loaded records and sets the summary (all eight fields), totals and insights to what Derive states for the national records |
| MarketingMix.MarketingMixService.GetGeoSeries | apps/api/services/marketing_mix_service.py:87-107 | unknown geo 404; otherwise the in-range records in stored order, channel-filtered, sorted by time; ValueError exactly when a kept record meets a bad filter |
| MarketingMix.MarketingMixService.GetNationalSeries | apps/api/services/marketing_mix_service.py:118-132 | the in-range national records in stored order, channel-filtered and sorted by time |
| MarketingMix.MarketingMixService.GetGeoBounds | apps/api/services/marketing_mix_service.py:109-113 | 404 exactly for an unknown or empty geo; otherwise the first and last dates, which bound every stored date |
| MarketingMix.MarketingMixService.GetNationalBounds | apps/api/services/marketing_mix_service.py:134-137 | 404 exactly without national data; otherwise the first and last dates, which bound every date |
| MarketingMix.MarketingMixService.GeoSampleSize | apps/api/services/marketing_mix_service.py:115-116 | positive exactly for a geo with stored weeks |
| MarketingMix.MarketingMixService.GeoMetadata | apps/api/services/marketing_mix_service.py:71-85 | one entry (geo, first date, last date, size) per non-empty geo and nothing else, no geo twice, sorted by geo |
| Shift.MoveSpend | apps/api/services/marketing_mix_service.py:163-165 | only the source and target spends change, by the amount in opposite directions, so the total spend is unchanged |
| MarketingMix.MarketingMixService.SimulateBudgetShift | apps/api/services/marketing_mix_service.py:147-186 | errors exactly as checked; five re-priced channels with the stored ids, names, impressions and weekly averages; the source loses and the target gains the shift amount (strictly, for a positive ratio), other spends unchanged, so the spends total the summary's total spend |
| MarketingMix.Open | apps/api/services/marketing_mix_service.py:191-196 | ValueError exactly when either file has a bad date; otherwise a valid service whose national records are the stable time sort of the file's records and whose every geo holds the stable time sort of its rows |
| MarketingMixRoutes.DisplayName | apps/api/routers/marketing_mix.py:77 | an id absent from the totals is shown in title case; a present one by its stored name |
| MarketingMixRoutes.DisplayNameKnown | apps/api/routers/marketing_mix.py:132 | each channel id is shown with its "Channel i" name |
| MarketingMixRoutes.Efficiency | apps/api/routers/marketing_mix.py:58 | present exactly when spend and conversions are both non-zero, and then efficiency × spend = conversions |
| MarketingMixRoutes.PrevConversionsLatest | apps/api/routers/marketing_mix.py:54-63 | the carried previous value is absent exactly before the first non-zero week, and otherwise is the latest non-zero conversions |
| MarketingMixRoutes.BuildPoints | apps/api/routers/marketing_mix.py:53-88 | one point per record, in order, each the point for that week with the carried previous conversions |
| MarketingMixRoutes.PointMeaning | apps/api/routers/marketing_mix.py:56-87 | each point has the week's time, total spend and named channels; the efficiency rule; a lift exactly after an earlier non-zero week, relative to the latest one |
| MarketingMixRoutes.PointsValid | apps/api/schemas/marketing_mix.py:12-28 | weeks with non-negative values give points the validators accept |
| MarketingMixRoutes.ClampBounds | apps/api/routers/marketing_mix.py:90-94 | start is the later of the stored start and the requested one, end the earlier of the two ends |
| MarketingMixRoutes.FilteredPoints | apps/api/routers/marketing_mix.py:53-88 | the points of a filtered series are the points of the kept weeks, each channel-filtered |
| MarketingMixRoutes.SeriesResponseOf | apps/api/routers/marketing_mix.py:88-96 | the response carries the points of the kept weeks, channel-filtered, and the clamped bounds |
| MarketingMixRoutes.GeoTimeseries | apps/api/routers/marketing_mix.py:42-96 | unknown geo 404; ValueError exactly for a bad filter on kept weeks; otherwise exactly the points of the kept weeks, channel-filtered, in order, inside the clamped bounds |
| MarketingMixRoutes.NationalTimeseries | apps/api/routers/marketing_mix.py:99-151 | errors for a bad filter or no national data; otherwise exactly the points of the kept weeks, channel-filtered, in order, with the clamped bounds |
| MarketingMixRoutes.SortDescendingSorted | apps/api/routers/marketing_mix.py:174 | the sort orders by total spend, largest first, and is a permutation |
| MarketingMixRoutes.ChannelAggregates | apps/api/routers/marketing_mix.py:154-175 | one aggregate per channel (a permutation of the totals' aggregates), by descending spend |
| MarketingMixRoutes.InsertDescendingWithSpend | apps/api/routers/marketing_mix.py:174 | inserting one aggregate puts it after those already there with its spend, and leaves every other spend's aggregates as they were |
| MarketingMixRoutes.SortDescendingStable | apps/api/routers/marketing_mix.py:174 | the descending sort is stable: aggregates with equal spend keep their input order |
| MarketingMixRoutes.ChannelAggregatesStable | apps/api/routers/marketing_mix.py:154-175 | channels with equal spend appear in the order of the totals |
| MarketingMixRoutes.ChannelAggregatesValid | apps/api/schemas/marketing_mix.py:70-80 | with non-negative national data every aggregate passes the validators: shares in [0, 1], everything else non-negative |
| MarketingMixRoutes.Project | apps/api/routers/marketing_mix.py:210-230 | the projections copy the channels; projected totals are the sums of the estimates; deltas are projected minus base |
| MarketingMixRoutes.ProjectionPriced | apps/api/routers/marketing_mix.py:216-226 | the projection of a re-priced channel carries its re-priced estimates, ROAS and CAC |
| MarketingMixRoutes.ShiftResponse | apps/api/routers/marketing_mix.py:210-239 | one projection per channel, copying it and priced against the summary: estimates split by spend share, ROAS revenue over spend (0 without spend), CAC spend over conversions (absent without conversions); projected totals are the sums of the estimates, so the summary's totals when total spend is non-zero and 0 otherwise; both deltas are projected minus base |
| MarketingMixRoutes.SimulateShift | apps/api/routers/marketing_mix.py:198-239 | invalid request 422; otherwise exactly the service's shift error; the projections keep the ids and names, the source loses and the target gains the shift amount, other spends unchanged; each projection's estimated conversions and revenue, ROAS and CAC are the re-priced values against the stored spend divisor; projected totals are the summary's totals when total spend is non-zero and 0 otherwise; total spend unchanged; deltas are projected minus base, both 0 when total spend is non-zero |
| MmmRoutes.Kept | apps/api/routers/mmm.py:63-70 | the kept positions are positions of the mask, no more of them than the mask has |
| MmmRoutes.KeptMarked | apps/api/routers/mmm.py:63-70 | every kept position is one the mask marks |
| MmmRoutes.KeptComplete | apps/api/routers/mmm.py:63-70 | every position the mask marks is kept |
| MmmRoutes.KeptIncreasing | apps/api/routers/mmm.py:69-70 | kept positions come in increasing order, so masking keeps the weeks in time order |
| MmmRoutes.Select | apps/api/routers/mmm.py:69-70 | masking keeps the k-th marked element at position k, so times and contributions stay aligned |
| MmmRoutes.DateMask | apps/api/routers/mmm.py:63-68 | a time is kept exactly when it lies within the bounds given |
| MmmRoutes.ParseBound | apps/api/routers/mmm.py:63-68 | an empty bound is absent; an unparsable one fails with 500 |
| MmmRoutes.Share | apps/api/routers/mmm.py:89 | share × total = mean when the total is positive, else 0 |
| MmmRoutes.SharesSumToOneAt | apps/api/routers/mmm.py:82-97 | a week with positive total mean has shares summing to 1 |
| MmmRoutes.SharesValidAt | apps/api/schemas/mmm.py:17 | non-negative means give shares the validator accepts |
| MmmRoutes.BuildContributionPoints | apps/api/routers/mmm.py:80-105 | one point per week with the totals over channels and one entry per channel |
| MmmRoutes.MaskedContributions | apps/api/routers/mmm.py:63-115 | with the bounds parsed: 500 exactly when no week is kept; otherwise one point per kept week, in order, start and end the first and last kept weeks |
| MmmRoutes.Contributions | apps/api/routers/mmm.py:37-115 | 500 for a bad bound or no week kept; otherwise one point per kept week, in order, start and end the first and last kept weeks |
| MmmRoutes.SaturationSpend | apps/api/routers/mmm.py:232-236 | fails exactly on an empty grid; the result is one of the grid's spends |
| MmmRoutes.SaturationSpendMeaning | apps/api/routers/mmm.py:233-236 | as written, the spend at the first point whose ROI is at most half the initial ROI, or the last spend |
| MmmRoutes.SaturationAtZeroSpend | apps/api/routers/mmm.py:233-236 | as written, a grid starting at zero spend and zero response always gives saturation spend 0 |
| MmmRoutes.SaturationAsWrittenExample | apps/api/routers/mmm.py:233-236 | a curve that never halves its ROI still gets saturation spend 0 |
| MmmRoutes.SaturationSpendFromInitial | apps/api/routers/mmm.py:232-236 | the intended saturation point fails exactly on an empty grid and is one of the grid's spends |
| MmmRoutes.SaturationSpendFromInitialMeaning | apps/api/routers/mmm.py:232-236 | the first point from the initial one whose ROI is at most half the initial ROI, or the last spend |
| MmmRoutes.SaturationFromInitialExample | apps/api/routers/mmm.py:232-236 | on the example curve the intended saturation spend is the last spend |
| MmmRoutes.DiminishingReturnsStart | apps/api/routers/mmm.py:238-244 | the spend at the first negative second difference, else the first spend; the first spend for fewer than 3 points; always a grid spend |
| MmmRoutes.PointsList | apps/api/routers/mmm.py:223-230 | exactly one point per grid index, in order |
| MmmRoutes.SelectChannel | apps/api/routers/mmm.py:129-135 | the requested channel, or else the first one, must be non-empty and known, else 400 |
| MmmRoutes.BuildResponseCurve | apps/api/routers/mmm.py:118-168 | fails exactly when selection fails, as a 500; otherwise that channel's curve: its spend, mean, lower and upper arrays, the credible interval and model version 1 |
| MmmRoutes.SpendMaxIgnored | apps/api/routers/mmm.py:121 | `spend_max` has no effect on the response |
| MmmRoutes.CurveChannelOf | apps/api/routers/mmm.py:209-252 | a channel's entry fails (500) exactly on an empty grid |
| MmmRoutes.CurveChannelOfMeaning | apps/api/routers/mmm.py:209-252 | the entry carries the id and name, one point per grid index, the saturation spend as the code computes it and the diminishing-returns start |
| MmmRoutes.CurveChannelSaturatesAtZero | apps/api/routers/mmm.py:232-252 | as served, a curve starting at zero spend and zero response reports saturation spend 0 |
| MmmRoutes.CurveChannelValid | apps/api/schemas/mmm.py:35-46 | non-negative curves give entries the validators accept |
| MmmRoutes.ResponseCurvesMultiple | apps/api/routers/mmm.py:181-259 | an empty request selects all channels; 500 exactly when a channel is unknown or has an empty grid; otherwise one entry per selected channel, in order, built as the code does |
| Config.AsyncDatabaseUrl | apps/api/config.py:17-26 | ValueError exactly when DATABASE_URL is empty and some POSTGRES_* setting is missing; the assembled URL starts with the asyncpg scheme |
| Config.UrlOverridesFields | apps/api/config.py:18-20 | with DATABASE_URL set, the POSTGRES_* settings are ignored |
| Config.NoSyncAfterRewrite | apps/api/config.py:20 | no "postgresql://" survives the rewrite |
| Config.AsyncUrlHasNoSyncScheme | apps/api/config.py:18-20 | the URL derived from DATABASE_URL contains no "postgresql://" |
| Config.AsyncUrlIdempotent | apps/api/config.py:18-20 | feeding the derived URL back in as DATABASE_URL gives it back unchanged |
| Config.RewriteRoundTrip | apps/api/alembic/env.py:98 | the reverse rewrite undoes the forward one on any text without "postgresql+asyncpg://" |
| Config.AsyncUrlRoundTrip | apps/api/alembic/env.py:98 | the migrations recover DATABASE_URL from the derived URL when it did not already name asyncpg |

## Left out

- Reading the CSV files is not modelled. The rows are given as input. A
  missing file's `RuntimeError` is also left out (I/O).
- `float()` and `date.fromisoformat` are parameters rather than models of
  Python's parsers.
- The module-level service singleton and its accessor are left out
  (process wiring).
- The service's `list_geos` is not modelled: it lists the stored geos in
  the order the file first names them, and the model stores geos in a map,
  which keeps no order. The `/geos` route only relabels the fields of
  `geo_metadata`, which is modelled (`GeoMetadata`).
- `get_channel_totals` and `get_summary_metrics` on the service are not
  modelled. They are field reads of the class. Insights are kept as values
  (leader names, shares, ROAS, lift) rather than the formatted text, which
  is float presentation.
- The `/summary` route is left out. It only relabels summary fields.
- The media-mix model itself is left out because it is a foreign library:
  loading, the analyzer, `incremental_outcome`, `response_curves`, means
  and quantiles over draws, and `linspace`. `/healthz` and the response
  curve's `points` argument only feed that library, so they are left out
  too.
- Floating-point rounding is not modelled. Numbers are reals, and the
  1e-10 in the ROI is the constant `EPS`.
- MmmRoutes.ResponseCurvesMultiple: requires each known channel's curve to
  have aligned arrays and non-negative spends. A negative spend grid would
  make the division by spend + 1e-10 behave differently in numpy.
- The geo and national point types share one `MetricPoint` with an
  optional population, and a `SeriesResponse` with an optional geo.
- Pydantic validation is modelled as predicates. A `ScenarioRequest` that
  fails them is a 422 before the handler runs. Response validation is
  stated as lemmas that computed results pass it.
- Config.AsyncUrlIdempotent: covers the URL taken from `DATABASE_URL`
  only. The assembled fallback is not idempotent when a POSTGRES_* setting
  itself contains "postgresql://".
- Authentication is left out: JWT decoding, signatures and the key cache
  are network I/O and foreign cryptography.
- The database session, the user model and migration wiring beyond the
  URL rewrite are left out (framework plumbing).
- Strings are ASCII. Case mapping and white space follow ASCII only.

## Findings

| source | as written | input that shows it | evidently intended | confidence | as-written member | corrected member |
|---|---|---|---|---|---|---|
| apps/api/routers/mmm.py:233-236 | the search for `roi <= initial_roi * 0.5` starts at index 0, the zero-spend point, whose ROI is 0 | spend [0, 1, 2], mean [0, 1, 1.5]: ROI stays above half of roi[1], yet the result is 0 | search from the point the initial ROI is taken at, giving 2 here | not executed | MmmRoutes.SaturationAsWrittenExample | MmmRoutes.SaturationSpendFromInitialMeaning |

The routes serve the search as written: `CurveChannelOf` and
`ResponseCurvesMultiple` use `SaturationSpend`, and
`CurveChannelSaturatesAtZero` shows what that serves for curves starting
at zero. `SaturationSpendFromInitial` is the corrected search, with its
meaning proved beside it.
