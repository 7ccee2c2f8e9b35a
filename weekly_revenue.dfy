/** The earnings overview card: earnings series for three periods, a
    details toggle, and performance-metric names split into words for
    display. */
module WeeklyRevenue {
  import opened Options
  import opened Text

  /** One point of an earnings series. `labelField` is the name of the
      property holding the x-axis label ("date", "week" or "month"). */
  datatype EarningsPoint = EarningsPoint(labelField: string, axisLabel: string, earnings: int)

  const Periods: seq<string> := ["Daily", "Weekly", "Monthly"]

  function Daily(date: string, earnings: int): EarningsPoint { EarningsPoint("date", date, earnings) }
  function Weekly(week: string, earnings: int): EarningsPoint { EarningsPoint("week", week, earnings) }
  function Monthly(month: string, earnings: int): EarningsPoint { EarningsPoint("month", month, earnings) }

  /** `earningsData[selectedPeriod]`; a period that is not a key has no
      series. */
  function ChartData(period: string): (r: Option<seq<EarningsPoint>>)
    ensures r.Some? <==> period in Periods
  {
    if period == "Daily" then
      Some([Daily("2023-09-01", 20), Daily("2023-09-02", 25), Daily("2023-09-03", 18), Daily("2023-09-04", 22),
            Daily("2023-09-05", 30), Daily("2023-09-06", 35), Daily("2023-09-07", 40)])
    else if period == "Weekly" then
      Some([Weekly("Week 1", 100), Weekly("Week 2", 120), Weekly("Week 3", 150), Weekly("Week 4", 130),
            Weekly("Week 5", 160)])
    else if period == "Monthly" then
      Some([Monthly("Jan", 400), Monthly("Feb", 450), Monthly("Mar", 500), Monthly("Apr", 600),
            Monthly("May", 700)])
    else None
  }

  /** The x-axis `dataKey` chosen from the period. */
  function XAxisKey(period: string): string {
    if period == "Daily" then "date" else if period == "Weekly" then "week" else "month"
  }

  /** For every period the select offers, the x-axis reads the property that
      each point of that period's series carries. */
  lemma AxisKeyMatchesData(period: string)
    requires period in Periods
    ensures ChartData(period).Some?
    ensures forall i :: 0 <= i < |ChartData(period).value| ==> ChartData(period).value[i].labelField == XAxisKey(period)
  {
  }

  // ---- Metric labels ------------------------------------------------------

  /** `metric.replace(/([A-Z])/g, ' $1')`: a space before every capital. */
  function SpaceBeforeCapitals(s: string): string {
    if s == [] then []
    else (if IsUpper(s[0]) then [' ', s[0]] else [s[0]]) + SpaceBeforeCapitals(s[1..])
  }

  function CountUpper(s: string): nat {
    if s == [] then 0 else (if IsUpper(s[0]) then 1 else 0) + CountUpper(s[1..])
  }

  /** The string with its spaces taken out. */
  function RemoveSpaces(s: string): string {
    if s == [] then [] else (if s[0] == ' ' then [] else [s[0]]) + RemoveSpaces(s[1..])
  }

  /** The label grows by one space per capital. */
  lemma {:induction false} SpaceBeforeCapitalsLength(s: string)
    ensures |SpaceBeforeCapitals(s)| == |s| + CountUpper(s)
  {
    if s != [] {
      SpaceBeforeCapitalsLength(s[1..]);
    }
  }

  lemma {:induction false} RemoveSpacesAppend(a: string, b: string)
    ensures RemoveSpaces(a + b) == RemoveSpaces(a) + RemoveSpaces(b)
  {
    if a == [] {
      assert a + b == b;
    } else {
      assert (a + b)[1..] == a[1..] + b;
      RemoveSpacesAppend(a[1..], b);
    }
  }

  /** Taking the inserted spaces out gives back a key without spaces, so
      distinct keys keep distinct labels. */
  lemma {:induction false} RemoveSpacesInverts(s: string)
    requires forall i :: 0 <= i < |s| ==> s[i] != ' '
    ensures RemoveSpaces(SpaceBeforeCapitals(s)) == s
  {
    if s != [] {
      var head: string := if IsUpper(s[0]) then [' ', s[0]] else [s[0]];
      RemoveSpacesInverts(s[1..]);
      RemoveSpacesAppend(head, SpaceBeforeCapitals(s[1..]));
      assert RemoveSpaces(head) == [s[0]] by {
        if IsUpper(s[0]) {
          assert head[1..] == [s[0]];
          assert RemoveSpaces(head[1..]) == [s[0]] + RemoveSpaces([]);
        }
      }
      assert s == [s[0]] + s[1..];
    }
  }

  /** A key with no capital is shown as it is. */
  lemma {:induction false} NoCapitalsUnchanged(s: string)
    requires forall i :: 0 <= i < |s| ==> !IsUpper(s[i])
    ensures SpaceBeforeCapitals(s) == s
  {
    if s != [] {
      NoCapitalsUnchanged(s[1..]);
      assert s == [s[0]] + s[1..];
    }
  }

  /** The replacement works piece by piece. */
  lemma {:induction false} SpaceBeforeCapitalsAppend(a: string, b: string)
    ensures SpaceBeforeCapitals(a + b) == SpaceBeforeCapitals(a) + SpaceBeforeCapitals(b)
  {
    if a == [] {
      assert a + b == b;
    } else {
      assert (a + b)[1..] == a[1..] + b;
      SpaceBeforeCapitalsAppend(a[1..], b);
    }
  }

  /** The keys of `performanceMetrics`, in order. */
  const MetricKeys: seq<string> := ["AnnualizedReturn", "Volatility", "SharpeRatio", "MaxDrawdown", "CompoundingEffect"]

  /** Every metric key starts with a capital and has no space, so its
      label begins with a space and gives the key back. */
  lemma MetricKeysShape()
    ensures forall i :: 0 <= i < |MetricKeys| ==> MetricKeys[i] != [] && IsUpper(MetricKeys[i][0])
    ensures forall i, j :: 0 <= i < |MetricKeys| && 0 <= j < |MetricKeys[i]| ==> MetricKeys[i][j] != ' '
  {
  }

  /** A key starting with a capital, as every metric key does, is shown
      with a leading space before that capital. */
  lemma LeadingCapitalGetsSpace(s: string)
    requires s != [] && IsUpper(s[0])
    ensures var r := SpaceBeforeCapitals(s);
            && |r| >= 2 && r[0] == ' ' && r[1] == s[0]
            && r[2..] == SpaceBeforeCapitals(s[1..])
  {
  }

  // ---- The component's state ---------------------------------------------

  function DetailsButtonLabel(showDetails: bool): string {
    if showDetails then "Hide Details" else "Show Compounding Details"
  }

  /** The state of the `EarningsOverview` card. */
  class EarningsView {
    var selectedPeriod: string
    var showDetails: bool

    constructor ()
      ensures selectedPeriod == "Daily" && !showDetails
      ensures DetailsButtonLabel(showDetails) == "Show Compounding Details"
    {
      selectedPeriod := "Daily";
      showDetails := false;
    }

    method SetPeriod(period: string)
      modifies this`selectedPeriod
      ensures selectedPeriod == period
    {
      selectedPeriod := period;
    }

    /** The details button flips the panel and its own label. */
    method ToggleDetails()
      modifies this`showDetails
      ensures showDetails == !old(showDetails)
      ensures DetailsButtonLabel(showDetails) == (if old(showDetails) then "Show Compounding Details" else "Hide Details")
    {
      showDetails := !showDetails;
    }
  }
}
