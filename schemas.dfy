/** The request and response shapes of the API and the field constraints
    their validators enforce, as validity predicates. A constraint `ge=0` on
    an optional field applies only when the value is present. */
module Schemas {
  import opened Wrappers
  import opened Numeric
  import opened Text

  /** At least zero when present. */
  predicate NonNegativeOption(x: Option<real>) {
    x.None? || x.value >= 0.0
  }

  datatype ChannelPoint = ChannelPoint(
    id: string,
    name: string,
    spend: real,
    impressions: real,
    organicImpressions: Option<real>)

  predicate ValidChannelPoint(p: ChannelPoint) {
    p.spend >= 0.0 && p.impressions >= 0.0 && NonNegativeOption(p.organicImpressions)
  }

  /** `GeoMetricPoint`, and `NationalMetricPoint` with `population` absent. */
  datatype MetricPoint = MetricPoint(
    time: Date,
    conversions: Option<real>,
    revenuePerConversion: Option<real>,
    competitorSalesControl: Option<real>,
    sentimentScoreControl: Option<real>,
    promo: Option<real>,
    population: Option<real>,
    channels: seq<ChannelPoint>,
    totalSpend: real,
    spendEfficiency: Option<real>,
    liftVsPrev: Option<real>)

  predicate ValidMetricPoint(p: MetricPoint) {
    && NonNegativeOption(p.conversions)
    && NonNegativeOption(p.revenuePerConversion)
    && p.totalSpend >= 0.0
    && (forall k :: 0 <= k < |p.channels| ==> ValidChannelPoint(p.channels[k]))
  }

  /** `GeoSeriesResponse` (with a geo) and `NationalSeriesResponse` (without). */
  datatype SeriesResponse = SeriesResponse(geo: Option<string>, start: Date, end: Date, points: seq<MetricPoint>)

  datatype GeoListItem = GeoListItem(geo: string, start: Date, end: Date, sampleSize: int)

  predicate ValidGeoListItem(item: GeoListItem) {
    item.sampleSize >= 0
  }

  datatype ChannelAggregate = ChannelAggregate(
    id: string,
    name: string,
    totalSpend: real,
    totalImpressions: real,
    spendShare: real,
    averageWeeklySpend: real,
    estimatedConversions: real,
    estimatedRevenue: real,
    roas: real,
    cac: Option<real>)

  predicate ValidChannelAggregate(a: ChannelAggregate) {
    && a.totalSpend >= 0.0
    && a.totalImpressions >= 0.0
    && 0.0 <= a.spendShare <= 1.0
    && a.averageWeeklySpend >= 0.0
    && a.estimatedConversions >= 0.0
    && a.estimatedRevenue >= 0.0
    && a.roas >= 0.0
    && NonNegativeOption(a.cac)
  }

  datatype ScenarioRequest = ScenarioRequest(sourceChannel: string, targetChannel: string, shiftRatio: real)

  /** The pattern `^channel\d+`: the prefix "channel" and at least one
      digit; nothing is required of what follows. */
  predicate ChannelPattern(s: string) {
    StartsWith(s, "channel") && |s| > 7 && IsDigit(s[7])
  }

  predicate ValidScenarioRequest(req: ScenarioRequest) {
    ChannelPattern(req.sourceChannel) && ChannelPattern(req.targetChannel) && 0.0 <= req.shiftRatio <= 0.5
  }

  datatype ScenarioChannelProjection = ScenarioChannelProjection(
    id: string,
    name: string,
    spend: real,
    estimatedConversions: real,
    estimatedRevenue: real,
    roas: real,
    cac: Option<real>)

  datatype ScenarioResponse = ScenarioResponse(
    totalSpend: real,
    projectedConversions: real,
    projectedRevenue: real,
    deltaConversions: real,
    deltaRevenue: real,
    channels: seq<ScenarioChannelProjection>)

  datatype ContributionInterval = ContributionInterval(
    id: string,
    name: string,
    mean: real,
    lower: real,
    upper: real,
    share: real)

  /** Only the share is constrained; mean and bounds may be negative. */
  predicate ValidContributionInterval(c: ContributionInterval) {
    c.share >= 0.0
  }

  datatype ContributionPoint = ContributionPoint(
    time: Date,
    totalMean: real,
    totalLower: real,
    totalUpper: real,
    channels: seq<ContributionInterval>)

  datatype ContributionSeries = ContributionSeries(start: Date, end: Date, points: seq<ContributionPoint>)

  datatype ResponseCurvePoint = ResponseCurvePoint(spend: real, mean: real, lower: real, upper: real)

  predicate ValidResponseCurvePoint(p: ResponseCurvePoint) {
    p.spend >= 0.0 && p.mean >= 0.0 && p.lower >= 0.0 && p.upper >= 0.0
  }

  datatype ResponseCurveChannel = ResponseCurveChannel(
    id: string,
    name: string,
    points: seq<ResponseCurvePoint>,
    saturationSpend: real,
    diminishingReturnsStart: real)

  predicate ValidResponseCurveChannel(c: ResponseCurveChannel) {
    && c.saturationSpend >= 0.0
    && c.diminishingReturnsStart >= 0.0
    && (forall k :: 0 <= k < |c.points| ==> ValidResponseCurvePoint(c.points[k]))
  }
}
