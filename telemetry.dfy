/**
  The three telemetry snapshots served by `GET /api/dashboard`,
  `GET /api/intelligence` and `GET /api/reports`: fixed figures from the
  threat table mixed with fresh random draws and offsets from one clock
  reading `now`.
*/
module Telemetry {
  import opened PyNum
  import opened PyRandom
  import opened Clock
  import opened Tables

  // ----- Dashboard -----

  const DetectionKinds: seq<string> := ["Deepfake Video", "AI Text", "Synthetic Audio"]
  const DetectionStatuses: seq<string> := ["VERIFIED", "PENDING", "FLAGGED"]

  /** The draws behind one fabricated recent detection, in the order its fields are built. */
  datatype DetectionDraw = DetectionDraw(
    idBelow: nat, kindBelow: nat, confidenceUnit: real, minutesBelow: nat, statusBelow: nat)

  predicate DetectionDrawOk(d: DetectionDraw) {
    d.idBelow < 9000 && d.kindBelow < 3 && 0.0 <= d.confidenceUnit < 1.0
    && d.minutesBelow < 60 && d.statusBelow < 3
  }

  datatype Detection = Detection(id: string, kind: string, confidence: real, timestamp: Instant, status: string)

  /**
    What every recent detection satisfies: an id "TS-" plus a four-digit
    number in [1000, 9999], a listed kind and status, a confidence in
    [0.7, 0.99], and a time between one and sixty minutes before now.
  */
  predicate WellFormedDetection(now: Instant, d: Detection) {
    && |d.id| == 7 && d.id[..3] == "TS-" && AllDigits(d.id[3..])
    && 1000 <= ParseDecimal(d.id[3..]) <= 9999
    && d.kind in DetectionKinds && d.status in DetectionStatuses
    && 0.7 <= d.confidence <= 0.99
    && now - 60 * MicrosPerMinute <= d.timestamp <= now - MicrosPerMinute
  }

  /** `TS-` followed by `str(n)`. */
  function DetectionId(n: int): (s: string)
    requires 1000 <= n <= 9999
    ensures |s| == 7 && s[..3] == "TS-" && AllDigits(s[3..]) && ParseDecimal(s[3..]) == n
  {
    assert Pow10(4) == 10000;
    DecimalLength(n, 4);
    ParseToDecimal(n);
    var s := "TS-" + ToDecimal(n);
    assert s[3..] == ToDecimal(n);
    s
  }

  /** `round(uniform(lo, hi), 2)` for bounds that are whole hundredths. */
  function RoundedUniform2(lo: int, hi: int, unit: real): (r: real)
    requires 0 <= lo <= hi && 0.0 <= unit < 1.0
    ensures lo as real / 100.0 <= r <= hi as real / 100.0
  {
    var x := Uniform(lo as real / 100.0, hi as real / 100.0, unit);
    assert Pow10(2) == 100;
    RoundWithin(x, 2, lo, hi);
    Round(x, 2)
  }

  /** One element of `recent_detections`. */
  function RecentDetection(now: Instant, d: DetectionDraw): (r: Detection)
    requires DetectionDrawOk(d)
    ensures WellFormedDetection(now, r)
  {
    Detection(
      DetectionId(RandInt(1000, 9999, d.idBelow)),
      Choice(DetectionKinds, d.kindBelow),
      RoundedUniform2(70, 99, d.confidenceUnit),
      now - RandInt(1, 60, d.minutesBelow) * MicrosPerMinute,
      Choice(DetectionStatuses, d.statusBelow))
  }

  datatype DashboardDraws = DashboardDraws(totalScansBelow: nat, detections: nat -> DetectionDraw)

  predicate DashboardDrawsOk(d: DashboardDraws) {
    d.totalScansBelow < 5001 && forall i: nat :: i < 10 ==> DetectionDrawOk(d.detections(i))
  }

  datatype Dashboard = Dashboard(
    totalScans: int,
    threatsDetected: nat,
    accuracyRate: real,
    lastScan: Instant,
    systemStatus: string,
    activeModels: nat,
    recentDetections: seq<Detection>)

  /** `get_dashboard_data`. */
  function DashboardData(now: Instant, draws: DashboardDraws): (r: Dashboard)
    requires DashboardDrawsOk(draws)
    ensures 45000 <= r.totalScans <= 50000
    ensures r.threatsDetected == Threats.activeThreats && r.accuracyRate == Threats.accuracyRate
    ensures r.lastScan == now && r.systemStatus == "OPERATIONAL"
    ensures r.activeModels == |DetectionModels| == 4
    ensures |r.recentDetections| == 10
    ensures forall i :: 0 <= i < |r.recentDetections| ==> WellFormedDetection(now, r.recentDetections[i])
  {
    DetectionModelsShape();
    Dashboard(
      RandInt(45000, 50000, draws.totalScansBelow),
      Threats.activeThreats,
      Threats.accuracyRate,
      now,
      "OPERATIONAL",
      |DetectionModels|,
      seq(10, i requires 0 <= i < 10 => RecentDetection(now, draws.detections(i))))
  }

  // ----- Intelligence -----

  datatype Cluster = Cluster(
    region: string, threatCount: nat, riskLevel: string, latitude: real, longitude: real, lastUpdated: Instant)

  const ClusterRegions: seq<string> := ["North America", "Europe", "Asia"]

  const TimelineKinds: seq<string> := ["Deepfake", "AI Text", "Synthetic Audio"]

  datatype TimelineDraw = TimelineDraw(threatsBelow: nat, kindBelow: nat)

  predicate TimelineDrawOk(d: TimelineDraw) {
    d.threatsBelow < 21 && d.kindBelow < 3
  }

  datatype TimelineEntry = TimelineEntry(timestamp: Instant, threatsDetected: int, kind: string)

  datatype SourceAnalysis = SourceAnalysis(verifiedSources: nat, suspiciousSources: int, newSourcesToday: int)

  datatype IntelligenceDraws = IntelligenceDraws(
    timeline: nat -> TimelineDraw, suspiciousBelow: nat, newSourcesBelow: nat)

  predicate IntelligenceDrawsOk(d: IntelligenceDraws) {
    && (forall i: nat :: i < 24 ==> TimelineDrawOk(d.timeline(i)))
    && d.suspiciousBelow < 301 && d.newSourcesBelow < 41
  }

  datatype Intelligence = Intelligence(
    geospatialClusters: seq<Cluster>, threatTimeline: seq<TimelineEntry>, sourceAnalysis: SourceAnalysis)

  /** The hourly entry `hoursAgo` hours back from now. */
  function TimelineAt(now: Instant, hoursAgo: nat, d: TimelineDraw): (e: TimelineEntry)
    requires TimelineDrawOk(d)
    ensures 5 <= e.threatsDetected <= 25 && e.kind in TimelineKinds
    ensures now - e.timestamp == hoursAgo * MicrosPerHour
  {
    TimelineEntry(
      now - hoursAgo * MicrosPerHour,
      RandInt(5, 25, d.threatsBelow),
      Choice(TimelineKinds, d.kindBelow))
  }

  /** `get_intelligence_data`. */
  function IntelligenceData(now: Instant, draws: IntelligenceDraws): (r: Intelligence)
    requires IntelligenceDrawsOk(draws)
    ensures |r.geospatialClusters| == 3
    ensures forall i :: 0 <= i < 3 ==>
      && r.geospatialClusters[i].region == ClusterRegions[i]
      && Threats.threatsByRegion[i].0 == ClusterRegions[i]
      && r.geospatialClusters[i].threatCount == Threats.threatsByRegion[i].1
      && r.geospatialClusters[i].lastUpdated == now
    ensures r.geospatialClusters[0].riskLevel == "HIGH"
    ensures r.geospatialClusters[0].latitude == 39.8283 && r.geospatialClusters[0].longitude == -98.5795
    ensures r.geospatialClusters[1].latitude == 54.5260 && r.geospatialClusters[1].longitude == 15.2551
    ensures r.geospatialClusters[2].latitude == 35.6762 && r.geospatialClusters[2].longitude == 139.6503
    ensures r.geospatialClusters[1].riskLevel == "MEDIUM" && r.geospatialClusters[2].riskLevel == "MEDIUM"
    ensures |r.threatTimeline| == 24 && r.threatTimeline[0].timestamp == now
    ensures forall i :: 0 < i < 24 ==> r.threatTimeline[i].timestamp == r.threatTimeline[i - 1].timestamp - MicrosPerHour
    ensures forall i :: 0 <= i < 24 ==>
      5 <= r.threatTimeline[i].threatsDetected <= 25 && r.threatTimeline[i].kind in TimelineKinds
    ensures r.sourceAnalysis.verifiedSources == Threats.verifiedSources
    ensures 200 <= r.sourceAnalysis.suspiciousSources <= 500 && 10 <= r.sourceAnalysis.newSourcesToday <= 50
  {
    assert Threats.threatsByRegion[0].0 == "North America";
    assert Threats.threatsByRegion[1].0 == "Europe";
    assert Threats.threatsByRegion[2].0 == "Asia";
    Intelligence(
      [ Cluster("North America", Lookup(Threats.threatsByRegion, "North America"), "HIGH", 39.8283, -98.5795, now),
        Cluster("Europe", Lookup(Threats.threatsByRegion, "Europe"), "MEDIUM", 54.5260, 15.2551, now),
        Cluster("Asia", Lookup(Threats.threatsByRegion, "Asia"), "MEDIUM", 35.6762, 139.6503, now) ],
      seq(24, i requires 0 <= i < 24 => TimelineAt(now, i, draws.timeline(i))),
      SourceAnalysis(
        Threats.verifiedSources,
        RandInt(200, 500, draws.suspiciousBelow),
        RandInt(10, 50, draws.newSourcesBelow)))
  }

  /** The timeline runs back from now, one entry per hour, so no two entries share a time. */
  lemma TimelineStrictlyEarlier(now: Instant, draws: IntelligenceDraws, i: int, j: int)
    requires IntelligenceDrawsOk(draws)
    requires 0 <= i < j < 24
    ensures IntelligenceData(now, draws).threatTimeline[j].timestamp
      == IntelligenceData(now, draws).threatTimeline[i].timestamp - (j - i) * MicrosPerHour
  {
    var t := IntelligenceData(now, draws).threatTimeline;
    assert t[i] == TimelineAt(now, i, draws.timeline(i));
    assert t[j] == TimelineAt(now, j, draws.timeline(j));
  }

  /** The clusters' counts are the table's regional counts, the "Other" region left out. */
  lemma ClusterCounts(now: Instant, draws: IntelligenceDraws)
    requires IntelligenceDrawsOk(draws)
    ensures var c := IntelligenceData(now, draws).geospatialClusters;
      c[0].threatCount == 1247 && c[1].threatCount == 892 && c[2].threatCount == 456
  {
  }

  // ----- Reports -----

  datatype DailyReport = DailyReport(
    date: Instant, totalScans: int, threatsDetected: int, falsePositives: int, accuracyRate: real)

  datatype Trend = Trend(day: string, scans: int, threats: int)

  datatype TrendDraw = TrendDraw(scansBelow: nat, threatsBelow: nat)

  predicate TrendDrawOk(d: TrendDraw) {
    d.scansBelow < 401 && d.threatsBelow < 51
  }

  datatype Performance = Performance(
    averageProcessingTime: string, systemUptime: string, apiCallsToday: int, dataProcessed: string)

  datatype ReportsDraws = ReportsDraws(
    scansBelow: nat, threatsBelow: nat, falsePositivesBelow: nat, accuracyUnit: real,
    trends: nat -> TrendDraw,
    processingUnit: real, apiCallsBelow: nat, dataBelow: nat)

  predicate ReportsDrawsOk(d: ReportsDraws) {
    && d.scansBelow < 1001 && d.threatsBelow < 101 && d.falsePositivesBelow < 11
    && 0.0 <= d.accuracyUnit < 1.0
    && (forall i: nat :: i < 7 ==> TrendDrawOk(d.trends(i)))
    && 0.0 <= d.processingUnit < 1.0 && d.apiCallsBelow < 5001 && d.dataBelow < 401
  }

  datatype Reports = Reports(
    dailyReport: DailyReport,
    weeklyTrends: seq<Trend>,
    topThreatTypes: seq<(string, nat)>,
    performanceMetrics: Performance)

  /** The trend row for the day `daysAgo` days before now. */
  function TrendAt(now: Instant, daysAgo: nat, d: TrendDraw): (t: Trend)
    requires TrendDrawOk(d)
    ensures t.day == DayName(now - daysAgo * MicrosPerDay)
    ensures 800 <= t.scans <= 1200 && 30 <= t.threats <= 80
  {
    Trend(DayName(now - daysAgo * MicrosPerDay), RandInt(800, 1200, d.scansBelow), RandInt(30, 80, d.threatsBelow))
  }

  /** `f"{uniform(0.5, 2.0):.1f}s"`: one digit, a point, one digit, "s"; between 0.5 and 2.0 seconds in tenths. */
  function AverageProcessingTime(unit: real): (s: string)
    requires 0.0 <= unit < 1.0
    ensures |s| == 4 && IsDigit(s[0]) && s[1] == '.' && IsDigit(s[2]) && s[3] == 's'
    ensures 5 <= (s[0] as int - '0' as int) * 10 + (s[2] as int - '0' as int) <= 20
  {
    var x := Uniform(0.5, 2.0, unit);
    RoundHalfEvenWithin(x * 10.0, 5, 20);
    FormatFixed1Value(x);
    var f := FormatFixed1(x);
    var n := RoundHalfEven(x * 10.0);
    assert f == ToDecimal(n / 10) + "." + [DigitChar(n % 10)];
    assert |ToDecimal(n / 10)| == 1;
    f + "s"
  }

  /** `f"{randint(100, 500)}GB"`: three digits worth 100 to 500, then "GB". */
  function DataProcessed(below: nat): (s: string)
    requires below < 401
    ensures |s| == 5 && s[3..] == "GB" && AllDigits(s[..3]) && 100 <= ParseDecimal(s[..3]) <= 500
  {
    var n := RandInt(100, 500, below);
    DecimalLength(n, 3);
    ParseToDecimal(n);
    var s := ToDecimal(n) + "GB";
    assert s[..3] == ToDecimal(n);
    s
  }

  /** `get_reports_data`. */
  function ReportsData(now: Instant, draws: ReportsDraws): (r: Reports)
    requires ReportsDrawsOk(draws)
    ensures r.dailyReport.date == now
    ensures 1000 <= r.dailyReport.totalScans <= 2000 && 50 <= r.dailyReport.threatsDetected <= 150
    ensures 5 <= r.dailyReport.falsePositives <= 15 && 0.95 <= r.dailyReport.accuracyRate <= 0.99
    ensures |r.weeklyTrends| == 7 && r.weeklyTrends[0].day == DayName(now)
    ensures forall i :: 0 <= i < 7 ==> r.weeklyTrends[i].day == DayName(now - i * MicrosPerDay)
    ensures forall i, j :: 0 <= i < j < 7 ==> r.weeklyTrends[i].day != r.weeklyTrends[j].day
    ensures forall i :: 0 <= i < 7 ==>
      800 <= r.weeklyTrends[i].scans <= 1200 && 30 <= r.weeklyTrends[i].threats <= 80
    ensures r.topThreatTypes == Threats.threatsByType
    ensures r.performanceMetrics.systemUptime == "99.9%"
    ensures 5000 <= r.performanceMetrics.apiCallsToday <= 10000
    ensures var t := r.performanceMetrics.averageProcessingTime;
      && |t| == 4 && IsDigit(t[0]) && t[1] == '.' && IsDigit(t[2]) && t[3] == 's'
      && 5 <= (t[0] as int - '0' as int) * 10 + (t[2] as int - '0' as int) <= 20
    ensures var g := r.performanceMetrics.dataProcessed;
      && |g| == 5 && g[3..] == "GB" && AllDigits(g[..3]) && 100 <= ParseDecimal(g[..3]) <= 500
  {
    var accuracy := Uniform(0.95, 0.99, draws.accuracyUnit);
    assert Pow10(3) == 1000;
    RoundWithin(accuracy, 3, 950, 990);
    WeekOfDistinctDays(now);
    var trends := seq(7, i requires 0 <= i < 7 => TrendAt(now, i, draws.trends(i)));
    assert trends[0].day == DayName(now);
    Reports(
      DailyReport(
        now,
        RandInt(1000, 2000, draws.scansBelow),
        RandInt(50, 150, draws.threatsBelow),
        RandInt(5, 15, draws.falsePositivesBelow),
        Round(accuracy, 3)),
      trends,
      Threats.threatsByType,
      Performance(
        AverageProcessingTime(draws.processingUnit),
        "99.9%",
        RandInt(5000, 10000, draws.apiCallsBelow),
        DataProcessed(draws.dataBelow)))
  }

  /** The seven days going back from any instant have seven different names. */
  lemma WeekOfDistinctDays(now: Instant)
    ensures forall i, j :: 0 <= i < j < 7 ==>
      DayName(now - i * MicrosPerDay) != DayName(now - j * MicrosPerDay)
  {
    forall i, j | 0 <= i < j < 7
      ensures DayName(now - i * MicrosPerDay) != DayName(now - j * MicrosPerDay)
    {
      DaysBackDistinct(now, i, j);
    }
  }
}
