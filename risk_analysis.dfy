/** Risk analysis: two fixed data sets (strategies and assets) shown on two
    tabs, filtered by a maximum risk level, and turned into charts,
    recommendations and download files. */
module RiskAnalysis {
  import opened Options
  import opened Seqs

  /** The metrics the charts and the PDF read besides the risk level. */
  datatype Metrics = Metrics(
    stdDev: real, maxDrawdown: real, valueAtRisk: real, conditionalValueAtRisk: real,
    sharpeRatio: real, beta: real, alpha: real, correlation: real)

  datatype TrendPoint = TrendPoint(month: string, riskLevel: int)

  datatype RiskItem = RiskItem(
    name: string,
    riskLevel: int,
    metrics: Metrics,
    historicalTrends: seq<TrendPoint>,
    recommended: string)

  /** Six monthly risk levels, January to June. */
  function FirstHalfYear(levels: seq<int>): (r: seq<TrendPoint>)
    requires |levels| == 6
    ensures |r| == 6 && forall i :: 0 <= i < 6 ==> r[i].riskLevel == levels[i]
  {
    var months := ["Jan", "Feb", "Mar", "Apr", "May", "Jun"];
    seq(6, i requires 0 <= i < 6 => TrendPoint(months[i], levels[i]))
  }

  function Strategies(): seq<RiskItem> {
    [
      RiskItem("Strategy A", 30, Metrics(5.0, 10.0, 8.0, 12.0, 1.5, 1.2, 1.0, 0.7),
               FirstHalfYear([28, 30, 25, 32, 30, 35]),
               "Consider diversifying your assets."),
      RiskItem("Strategy B", 25, Metrics(4.0, 7.0, 5.0, 8.0, 1.2, 1.0, 0.6, 0.5),
               FirstHalfYear([24, 25, 23, 27, 26, 29]),
               "Consider increasing your equity exposure."),
      RiskItem("Strategy C", 20, Metrics(3.0, 5.0, 3.0, 4.0, 1.8, 0.8, 0.4, 0.3),
               FirstHalfYear([22, 20, 19, 21, 20, 22]),
               "This strategy is relatively low risk."),
      RiskItem("Strategy D", 40, Metrics(6.0, 15.0, 10.0, 14.0, 1.0, 1.5, 1.2, 0.8),
               FirstHalfYear([38, 40, 39, 41, 42, 43]),
               "High risk; ensure proper hedging strategies."),
      RiskItem("Strategy E", 35, Metrics(5.0, 12.0, 7.0, 9.0, 1.4, 1.1, 0.9, 0.6),
               FirstHalfYear([34, 35, 33, 36, 38, 37]),
               "Consider adjusting your portfolio towards safer assets."),
      RiskItem("Strategy F", 45, Metrics(7.0, 20.0, 15.0, 18.0, 0.9, 1.7, 1.5, 0.9),
               FirstHalfYear([42, 44, 45, 46, 48, 49]),
               "Very high risk; reconsider your allocation.")
    ]
  }

  function Assets(): seq<RiskItem> {
    [
      RiskItem("Asset X", 25, Metrics(4.0, 8.0, 5.0, 6.0, 1.2, 0.8, 0.5, 0.4),
               FirstHalfYear([24, 25, 22, 26, 25, 28]),
               "Stable asset - low risk."),
      RiskItem("Asset Y", 30, Metrics(5.0, 10.0, 7.0, 9.0, 1.1, 1.1, 0.7, 0.5),
               FirstHalfYear([28, 30, 29, 31, 32, 34]),
               "Moderate risk; ensure good diversification."),
      RiskItem("Asset Z", 15, Metrics(2.0, 3.0, 2.0, 2.5, 1.6, 0.5, 0.3, 0.2),
               FirstHalfYear([14, 15, 14, 15, 15, 16]),
               "Very low risk; ideal for conservative investors."),
      RiskItem("Asset W", 35, Metrics(6.0, 12.0, 8.0, 10.0, 1.0, 1.3, 0.9, 0.6),
               FirstHalfYear([32, 34, 36, 37, 39, 40]),
               "Consider your exposure to this asset."),
      RiskItem("Asset V", 28, Metrics(5.0, 8.0, 6.0, 7.0, 1.3, 1.2, 0.8, 0.4),
               FirstHalfYear([26, 28, 27, 29, 30, 31]),
               "Moderate risk; aligns well with growth strategies.")
    ]
  }

  // ---- Tabs --------------------------------------------------------------

  datatype Tab = StrategiesTab | AssetsTab

  /** `tabMap[index]`; any other index has no entry. */
  function TabForIndex(index: int): (r: Option<Tab>)
    ensures r.Some? <==> index == 0 || index == 1
  {
    if index == 0 then Some(StrategiesTab)
    else if index == 1 then Some(AssetsTab)
    else None
  }

  /** The key the tab is stored under and named by in file names. */
  function TabKey(t: Tab): string {
    match t
    case StrategiesTab => "strategies"
    case AssetsTab => "assets"
  }

  /** `riskData[selectedTab]`. */
  function DataFor(t: Tab): seq<RiskItem> {
    match t
    case StrategiesTab => Strategies()
    case AssetsTab => Assets()
  }

  // ---- The risk filter ---------------------------------------------------

  /** The select's choices: the placeholder (no filter) and "Up to 20" … "Up
      to 50". */
  function OfferedThresholds(): seq<Option<int>> {
    [None, Some(20), Some(30), Some(40), Some(50)]
  }

  function WithinThreshold(threshold: Option<int>): RiskItem -> bool {
    (item: RiskItem) => threshold.None? || item.riskLevel <= threshold.value
  }

  /** `filteredData`: with no filter every item; otherwise the items whose
      risk level is at most the threshold, inclusive. */
  function FilterByRisk(data: seq<RiskItem>, threshold: Option<int>): seq<RiskItem> {
    Filter(data, WithinThreshold(threshold))
  }

  /** The filtered data keeps exactly the items within the threshold, in
      their order; without a threshold it keeps everything. */
  lemma FilterByRiskSpec(data: seq<RiskItem>, threshold: Option<int>)
    ensures IsSubsequence(FilterByRisk(data, threshold), data)
    ensures forall item :: item in FilterByRisk(data, threshold) <==>
              item in data && (threshold.None? || item.riskLevel <= threshold.value)
    ensures threshold.None? ==> FilterByRisk(data, threshold) == data
  {
    FilterIsSubsequence(data, WithinThreshold(threshold));
    if threshold.None? {
      FilterKeepsAll(data, WithinThreshold(threshold));
    }
  }

  /** A lower threshold shows a sub-list of what a higher one shows. */
  lemma LowerThresholdNarrows(data: seq<RiskItem>, low: int, high: int)
    requires low <= high
    ensures IsSubsequence(FilterByRisk(data, Some(low)), FilterByRisk(data, Some(high)))
  {
    FilterMonotone(data, WithinThreshold(Some(low)), WithinThreshold(Some(high)));
  }

  // ---- What a panel renders ----------------------------------------------

  /** One row of the bar and radar charts: the item without its Sharpe
      ratio, its trend and its recommendation. */
  datatype ChartRow = ChartRow(
    name: string, riskLevel: int, stdDev: real, maxDrawdown: real,
    valueAtRisk: real, conditionalValueAtRisk: real, beta: real, alpha: real, correlation: real)

  function ChartRowOf(item: RiskItem): ChartRow {
    var m := item.metrics;
    ChartRow(item.name, item.riskLevel, m.stdDev, m.maxDrawdown, m.valueAtRisk,
             m.conditionalValueAtRisk, m.beta, m.alpha, m.correlation)
  }

  /** What the tab panel renders from the filtered data. `trend` is the
      first item's history; `None` is the empty case, where `data[0]` is
      undefined and the render fails. */
  datatype RiskPanel = RiskPanel(
    chart: seq<ChartRow>,
    trend: Option<seq<TrendPoint>>,
    recommendations: seq<string>,
    csvData: seq<RiskItem>,
    csvFilename: string,
    pdfData: seq<RiskItem>,
    pdfFilename: string)

  function PanelOf(t: Tab, data: seq<RiskItem>): RiskPanel {
    RiskPanel(
      seq(|data|, i requires 0 <= i < |data| => ChartRowOf(data[i])),
      if data == [] then None else Some(data[0].historicalTrends),
      seq(|data|, i requires 0 <= i < |data| => data[i].name + ": " + data[i].recommended),
      data,
      CsvFilename(t),
      data,
      PdfFilename(t))
  }

  /** The panel of a tab under a risk filter. */
  function Panel(t: Tab, threshold: Option<int>): RiskPanel {
    PanelOf(t, FilterByRisk(DataFor(t), threshold))
  }

  /** Every chart, recommendation and download shows the same filtered
      items, each within the threshold; the trend chart shows the history of
      the first of them. Stated for any data set, so for both tabs. */
  lemma PanelAgreesWithFilter(t: Tab, all: seq<RiskItem>, threshold: Option<int>)
    ensures var data := FilterByRisk(all, threshold);
            var p := PanelOf(t, data);
            && p.csvData == data && p.pdfData == data
            && p.csvFilename == CsvFilename(t) && p.pdfFilename == PdfFilename(t)
            && |p.chart| == |data| && |p.recommendations| == |data|
            && (forall i :: 0 <= i < |data| ==>
                  p.chart[i] == ChartRowOf(data[i])
                  && p.recommendations[i] == data[i].name + ": " + data[i].recommended
                  && (threshold.Some? ==> p.chart[i].riskLevel <= threshold.value))
            && (p.trend.Some? <==> data != [])
            && (p.trend.Some? ==> p.trend.value == data[0].historicalTrends)
  {
    var data := FilterByRisk(all, threshold);
    assert forall i :: 0 <= i < |data| ==> data[i] in data;
  }

  /** The download names `${selectedTab}_risk_data.csv` and
      `${selectedTab}_risk_report.pdf`. */
  function CsvFilename(t: Tab): string {
    TabKey(t) + "_risk_data.csv"
  }

  function PdfFilename(t: Tab): string {
    TabKey(t) + "_risk_report.pdf"
  }

  /** Every offered choice is "no filter" or a threshold of at least 20. */
  lemma OfferedThresholdsAtLeast20(threshold: Option<int>)
    requires threshold in OfferedThresholds()
    ensures threshold.None? || threshold.value >= 20
  {
  }

  /** Data holding an item within the threshold filters to a non-empty list. */
  lemma FilterKeepsFitting(data: seq<RiskItem>, threshold: Option<int>, k: int)
    requires 0 <= k < |data| && (threshold.None? || data[k].riskLevel <= threshold.value)
    ensures FilterByRisk(data, threshold) != []
  {
    assert data[k] in data && WithinThreshold(threshold)(data[k]);
  }

  /** The data on a tab is never empty under a filter of 20 or more, so
      under none of the offered ones: each data set has an item at risk
      level 20 or below (Strategy C at 20, Asset Z at 15), so the trend
      chart always has a first item. */
  lemma NeverEmptyFrom20(t: Tab, threshold: Option<int>)
    requires threshold.None? || threshold.value >= 20
    ensures FilterByRisk(DataFor(t), threshold) != []
    ensures Panel(t, threshold).trend.Some?
  {
    var data := DataFor(t);
    assert data[2].riskLevel <= 20;
    FilterKeepsFitting(data, threshold, 2);
  }

  // ---- The component's state ---------------------------------------------

  /** The state of the `RiskAnalysis` component. */
  class RiskView {
    var selectedTab: Tab
    var riskFilter: Option<int>

    constructor ()
      ensures selectedTab == StrategiesTab && riskFilter == None
    {
      selectedTab := StrategiesTab;
      riskFilter := None;
    }

    /** What the open tab renders. */
    function Current(): RiskPanel
      reads this
    {
      Panel(selectedTab, riskFilter)
    }

    /** `handleTabChange`: the tab list only reports index 0 or 1. The
        filter carries over to the other tab. */
    method TabChange(index: int)
      requires index == 0 || index == 1
      modifies this`selectedTab
      ensures Some(selectedTab) == TabForIndex(index)
      ensures TabKey(selectedTab) == (if index == 0 then "strategies" else "assets")
    {
      selectedTab := TabForIndex(index).value;
    }

    /** The risk select's `onChange`; the placeholder gives `None`. */
    method SetRiskFilter(threshold: Option<int>)
      modifies this`riskFilter
      ensures riskFilter == threshold
    {
      riskFilter := threshold;
    }
  }
}
