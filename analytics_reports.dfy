/** Investment performance reports: a set of strategies chosen by
    checkboxes, one tab per chosen strategy, and for each its returns, its
    cumulative returns and its metrics. */
module AnalyticsReports {
  import opened Options
  import opened Seqs

  datatype MonthlyReturn = MonthlyReturn(month: string, ret: int)
  datatype MonthlyValue = MonthlyValue(month: string, value: real)

  datatype StrategyData = StrategyData(
    historicalReturns: seq<MonthlyReturn>,
    riskAdjustedPerformance: seq<MonthlyValue>,
    averageReturn: real,
    volatility: real,
    sharpeRatio: real)

  /** The checkbox values, which are also the keys of the data table. */
  const StrategyNames: seq<string> := ["Strategy1", "Strategy2", "Strategy3"]

  /** `strategiesData[name]`; a name that is not a key has no data. */
  function StrategyDataFor(name: string): (r: Option<StrategyData>)
    ensures r.Some? <==> name in StrategyNames
  {
    if name == "Strategy1" then
      Some(StrategyData(
        [MonthlyReturn("Jan", 5), MonthlyReturn("Feb", 7), MonthlyReturn("Mar", 8),
         MonthlyReturn("Apr", 6), MonthlyReturn("May", 9), MonthlyReturn("Jun", 4)],
        [MonthlyValue("Jan", 0.8), MonthlyValue("Feb", 0.75), MonthlyValue("Mar", 0.85),
         MonthlyValue("Apr", 0.7), MonthlyValue("May", 0.9), MonthlyValue("Jun", 0.6)],
        6.5, 1.5, 1.2))
    else if name == "Strategy2" then
      Some(StrategyData(
        [MonthlyReturn("Jan", 3), MonthlyReturn("Feb", 6), MonthlyReturn("Mar", 5),
         MonthlyReturn("Apr", 7), MonthlyReturn("May", 8), MonthlyReturn("Jun", 5)],
        [MonthlyValue("Jan", 0.6), MonthlyValue("Feb", 0.65), MonthlyValue("Mar", 0.7),
         MonthlyValue("Apr", 0.75), MonthlyValue("May", 0.8), MonthlyValue("Jun", 0.65)],
        5.0, 1.2, 1.0))
    else if name == "Strategy3" then
      Some(StrategyData(
        [MonthlyReturn("Jan", 4), MonthlyReturn("Feb", 5), MonthlyReturn("Mar", 6),
         MonthlyReturn("Apr", 5), MonthlyReturn("May", 6), MonthlyReturn("Jun", 7)],
        [MonthlyValue("Jan", 0.7), MonthlyValue("Feb", 0.8), MonthlyValue("Mar", 0.75),
         MonthlyValue("Apr", 0.8), MonthlyValue("May", 0.85), MonthlyValue("Jun", 0.75)],
        5.5, 1.0, 1.1))
    else None
  }

  // ---- Choosing strategies -----------------------------------------------

  function Unequal(value: string): string -> bool {
    (s: string) => s != value
  }

  /** `handleStrategyChange`: a chosen strategy is removed (every copy of
      it), any other is appended. */
  function ToggleStrategy(prev: seq<string>, value: string): seq<string> {
    if value in prev then Filter(prev, Unequal(value)) else prev + [value]
  }

  /** A toggle flips the membership of the value and of nothing else. */
  lemma ToggleMembership(prev: seq<string>, value: string)
    ensures forall x :: x in ToggleStrategy(prev, value) <==> (if x == value then value !in prev else x in prev)
  {
  }

  /** Checking a box and unchecking it again restores the selection. */
  lemma {:induction false} ToggleTwiceWhenAbsent(prev: seq<string>, value: string)
    requires value !in prev
    ensures ToggleStrategy(ToggleStrategy(prev, value), value) == prev
  {
    var once := prev + [value];
    assert value in once;
    FilterAppend(prev, [value], Unequal(value));
    FilterKeepsAll(prev, Unequal(value));
    assert Filter([value], Unequal(value)) == [];
  }

  /** Unchecking and checking again brings the same strategies back, the
      toggled one now last. */
  lemma {:induction false} ToggleTwiceWhenPresent(prev: seq<string>, value: string)
    requires value in prev
    ensures var r := ToggleStrategy(ToggleStrategy(prev, value), value);
            && r == Filter(prev, Unequal(value)) + [value]
            && forall x :: x in r <==> x in prev
  {
    var once := Filter(prev, Unequal(value));
    assert value !in once;
  }

  /** Toggling never creates a duplicate tab. */
  lemma {:induction false} ToggleKeepsNoDuplicates(prev: seq<string>, value: string)
    requires NoDuplicates(prev)
    ensures NoDuplicates(ToggleStrategy(prev, value))
  {
    if value in prev {
      FilterNoDuplicates(prev, Unequal(value));
    }
  }

  /** Toggling only checkbox values keeps every tab backed by data. */
  lemma ToggleKeepsKnown(prev: seq<string>, value: string)
    requires forall s :: s in prev ==> s in StrategyNames
    requires value in StrategyNames
    ensures forall s :: s in ToggleStrategy(prev, value) ==> StrategyDataFor(s).Some?
  {
  }

  // ---- Cumulative returns ------------------------------------------------

  /** `reduce((sum, curr) => sum + curr.return, 0)`, a left fold. */
  function SumReturns(s: seq<MonthlyReturn>): int {
    if s == [] then 0 else SumReturns(s[..|s| - 1]) + s[|s| - 1].ret
  }

  datatype CumulativePoint = CumulativePoint(month: string, cumulativeReturn: int)

  /** `CumulativeReturnsChart`: each month with the sum of the returns up to
      and including it. */
  function CumulativeReturns(data: seq<MonthlyReturn>): (r: seq<CumulativePoint>)
    ensures |r| == |data|
    ensures forall i :: 0 <= i < |data| ==> r[i].month == data[i].month
  {
    seq(|data|, i requires 0 <= i < |data| => CumulativePoint(data[i].month, SumReturns(data[..i + 1])))
  }

  /** The running sum starts at the first return and grows by each month's
      return: consecutive differences give the returns back. */
  lemma {:induction false} CumulativeSteps(data: seq<MonthlyReturn>)
    ensures var c := CumulativeReturns(data);
            && (|data| > 0 ==> c[0].cumulativeReturn == data[0].ret)
            && forall i :: 0 <= i < |data| - 1 ==>
                 c[i + 1].cumulativeReturn == c[i].cumulativeReturn + data[i + 1].ret
  {
    var c := CumulativeReturns(data);
    if |data| > 0 {
      assert data[..1][..0] == [];
      assert SumReturns(data[..1]) == SumReturns(data[..1][..0]) + data[0].ret;
    }
    forall i | 0 <= i < |data| - 1
      ensures c[i + 1].cumulativeReturn == c[i].cumulativeReturn + data[i + 1].ret
    {
      assert data[..i + 2][..i + 1] == data[..i + 1];
    }
  }

  /** The last point is the total of all returns. */
  lemma CumulativeEndsAtTotal(data: seq<MonthlyReturn>)
    requires |data| > 0
    ensures CumulativeReturns(data)[|data| - 1].cumulativeReturn == SumReturns(data)
  {
    var c := CumulativeReturns(data);
    assert c[|data| - 1].cumulativeReturn == SumReturns(data[..|data|]);
    assert data[..|data|] == data;
  }

  /** Strategy 1's returns 5, 7, 8, 6, 9, 4 accumulate to 5, 12, 20, 26, 35,
      39. */
  lemma Strategy1Cumulative()
    ensures var c := CumulativeReturns(StrategyDataFor("Strategy1").value.historicalReturns);
            && |c| == 6
            && c[0].cumulativeReturn == 5 && c[1].cumulativeReturn == 12 && c[2].cumulativeReturn == 20
            && c[3].cumulativeReturn == 26 && c[4].cumulativeReturn == 35 && c[5].cumulativeReturn == 39
  {
    var data := StrategyDataFor("Strategy1").value.historicalReturns;
    CumulativeSteps(data);
  }

  // ---- The metrics radar -------------------------------------------------

  datatype RadarPoint = RadarPoint(subject: string, value: real)

  /** `RadarChartComponent`: the three headline metrics. */
  function MetricsRadar(d: StrategyData): (r: seq<RadarPoint>)
    ensures |r| == 3
    ensures r[0].value == d.averageReturn && r[1].value == d.volatility && r[2].value == d.sharpeRatio
  {
    [RadarPoint("Average Return", d.averageReturn), RadarPoint("Volatility", d.volatility),
     RadarPoint("Sharpe Ratio", d.sharpeRatio)]
  }

  // ---- The component's state ---------------------------------------------

  /** The state of the `AnalyticsReports` component. */
  class ReportsView {
    var selectedStrategies: seq<string>
    var dateRange: string
    var customStartDate: string
    var customEndDate: string

    /** The selection holds only checkbox values, each once. */
    ghost predicate Valid()
      reads this
    {
      NoDuplicates(selectedStrategies) && forall s :: s in selectedStrategies ==> s in StrategyNames
    }

    constructor ()
      ensures Valid()
      ensures selectedStrategies == ["Strategy1"] && dateRange == "Last 6 Months"
      ensures customStartDate == "" && customEndDate == ""
    {
      selectedStrategies := ["Strategy1"];
      dateRange := "Last 6 Months";
      customStartDate := "";
      customEndDate := "";
    }

    /** One tab per chosen strategy, in order, each with its data. */
    function Tabs(): (r: seq<StrategyData>)
      requires Valid()
      reads this
      ensures |r| == |selectedStrategies|
      ensures forall i :: 0 <= i < |r| ==> Some(r[i]) == StrategyDataFor(selectedStrategies[i])
    {
      var names := selectedStrategies;
      seq(|names|, i requires 0 <= i < |names| =>
        assert names[i] in names;
        StrategyDataFor(names[i]).value)
    }

    /** A checkbox's `onChange`. */
    method StrategyChange(value: string)
      requires Valid() && value in StrategyNames
      modifies this`selectedStrategies
      ensures Valid()
      ensures selectedStrategies == ToggleStrategy(old(selectedStrategies), value)
    {
      ToggleKeepsNoDuplicates(selectedStrategies, value);
      ToggleKeepsKnown(selectedStrategies, value);
      selectedStrategies := ToggleStrategy(selectedStrategies, value);
    }

    /** `handleDateRangeChange`; the range does not change the data shown. */
    method DateRangeChange(range: string)
      modifies this`dateRange
      ensures dateRange == range
    {
      dateRange := range;
    }

    /** The date inputs are shown only for a custom range. */
    predicate ShowsCustomDates()
      reads this
    {
      dateRange == "Custom"
    }

    method SetCustomStartDate(date: string)
      modifies this`customStartDate
      ensures customStartDate == date
    {
      customStartDate := date;
    }

    method SetCustomEndDate(date: string)
      modifies this`customEndDate
      ensures customEndDate == date
    {
      customEndDate := date;
    }
  }
}
