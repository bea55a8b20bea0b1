/** `plot_data` of covid.py without the drawing calls: the series it hands to the axis.
    The bars are the daily changes of the selected cumulative series; each smoothed line is
    the backward moving average of those changes; every x axis counts days back from the
    latest one, which sits at 0. */
module Plot {
  import opened Wrappers
  import opened Vectors
  import opened Smoothing
  import opened Table
  import opened Location

  /** One drawn series: x positions and y values. */
  datatype Curve = Curve(xs: seq<int>, ys: seq<real>)

  /** What `plot_data` puts on its axis: the title, the daily-case bars and one line per window. */
  datatype Chart = Chart(title: string, bars: Curve, lines: seq<Curve>)

  /** The smoothing windows `plot_data` uses unless told otherwise. */
  const DefaultSmoothings: seq<nat> := [3, 7]

  /** `x - x[-1]`: each x as an offset from the last one; an IndexError on an empty x. */
  function ShiftToLast(x: seq<int>): (r: Result<seq<int>>)
    ensures r.Err? <==> x == []
    ensures r.Err? ==> r.error == IndexError
    ensures r.Ok? ==> |r.value| == |x| && r.value[|x| - 1] == 0
    ensures r.Ok? ==> forall i, j :: 0 <= i < |x| && 0 <= j < |x| ==> r.value[i] - r.value[j] == x[i] - x[j]
    ensures r.Ok? && (forall i, j :: 0 <= i <= j < |x| ==> x[i] <= x[j]) ==>
      forall i :: 0 <= i < |x| ==> r.value[i] <= 0
  {
    if x == [] then Err(IndexError) else Ok(seq(|x|, i requires 0 <= i < |x| => x[i] - x[|x| - 1]))
  }

  /** Days counted back from the latest: |xs|-1 days ago, ..., 1 day ago, 0. */
  predicate DaysBack(xs: seq<int>)
  {
    forall i :: 0 <= i < |xs| ==> xs[i] == i - (|xs| - 1)
  }

  /** The bars for cumulative counts y: one per day after the first, the change from the day before. */
  predicate DailyBars(c: Curve, y: seq<int>)
  {
    |y| >= 2 && |c.xs| == |y| - 1 && |c.ys| == |y| - 1 && DaysBack(c.xs) &&
    forall i :: 0 <= i < |c.ys| ==> c.ys[i] == (y[i + 1] - y[i]) as real
  }

  /** A smoothed line for cumulative counts y: point k is the mean daily change over the `lag`
      days that end there, which is (y[k+lag] - y[k]) / lag. */
  predicate SmoothedLine(c: Curve, y: seq<int>, lag: nat)
  {
    1 <= lag < |y| && |c.xs| == |y| - lag && |c.ys| == |y| - lag && DaysBack(c.xs) &&
    forall k :: 0 <= k < |c.ys| ==> c.ys[k] == ((y[k + lag] - y[k]) as real) / (lag as real)
  }

  /** The x axis and the daily changes `plot_data` draws as bars. */
  lemma DailyBarsOf(y: seq<int>)
    requires |y| >= 2
    ensures ShiftToLast(Arange(|y| - 1)).Ok?
    ensures DailyBars(Curve(ShiftToLast(Arange(|y| - 1)).value, Diff(ToReals(y))), y)
  {
  }

  /** The kept x values of the smoothing, shifted to the last one, count back to 0. */
  lemma SmoothedDays(n: nat, lag: nat)
    requires 1 <= lag <= n
    ensures var xs := SliceFrom(Arange(n), lag - 1);
      |xs| == n - lag + 1 && ShiftToLast(xs).Ok? && DaysBack(ShiftToLast(xs).value)
  {
  }

  /** A window mean of the daily changes is the change across the window divided by its width. */
  lemma SmoothedValueAt(y: seq<int>, lag: nat, k: nat)
    requires 1 <= lag < |y| && k + lag < |y|
    ensures var d := Diff(ToReals(y));
      Mean(d[k..k + lag]) == ((y[k + lag] - y[k]) as real) / (lag as real)
  {
    var yr := ToReals(y);
    DiffWindowSum(yr, k, k + lag);
  }

  /** The smoothed daily changes telescope: each point is (y[k+lag] - y[k]) / lag, and the x axis
      counts back to 0. */
  lemma SmoothedLineOf(y: seq<int>, lag: nat)
    requires 1 <= lag < |y|
    ensures var sm := BackwardMovingAverage(Arange(|y| - 1), Diff(ToReals(y)), lag);
      sm.Ok? && ShiftToLast(sm.value.xs).Ok? &&
      SmoothedLine(Curve(ShiftToLast(sm.value.xs).value, sm.value.ys), y, lag)
  {
    var n := |y| - 1;
    var d := Diff(ToReals(y));
    assert |d| == n;
    var sm := BackwardMovingAverage(Arange(n), d, lag);
    SmoothedDays(n, lag);
    var ys := sm.value.ys;
    assert |ys| == |y| - lag;
    forall k | 0 <= k < |ys|
      ensures ys[k] == ((y[k + lag] - y[k]) as real) / (lag as real)
    {
      WindowMeanAt(Arange(n), d, lag, k);
      SmoothedValueAt(y, lag, k);
    }
  }

  /** The bars: the daily changes at x = arange(size-1) shifted to end at 0. Reading the last x
      fails with an IndexError when the series has fewer than two days. */
  function DailyCurve(y: seq<int>): (r: Result<Curve>)
    ensures r.Ok? <==> |y| >= 2
    ensures r.Err? ==> r.error == IndexError
    ensures r.Ok? ==> DailyBars(r.value, y)
  {
    var shifted := ShiftToLast(Arange(|y| - 1));
    if shifted.Err? then Err(shifted.error)
    else
      DailyBarsOf(y);
      Ok(Curve(shifted.value, Diff(ToReals(y))))
  }

  /** One smoothed line: the backward moving average of the daily changes over `lag` days, its
      kept x values shifted to end at 0. A window wider than the daily changes is an IndexError. */
  function SmoothedCurve(y: seq<int>, lag: nat): (r: Result<Curve>)
    requires lag >= 1
    ensures r.Ok? <==> lag < |y|
    ensures r.Err? ==> r.error == IndexError
    ensures r.Ok? ==> SmoothedLine(r.value, y, lag)
  {
    var sm := BackwardMovingAverage(Arange(|y| - 1), Diff(ToReals(y)), lag);
    if sm.Err? then Err(sm.error)
    else
      SmoothedLineOf(y, lag);
      Ok(Curve(ShiftToLast(sm.value.xs).value, sm.value.ys))
  }

  /** Draws the selected cumulative series y: its daily changes as bars, one smoothed line per
      window, and the title; the first failure ends the call with that error and no chart. */
  method PlotSeries(y: seq<int>, location: string, smoothings: seq<nat>) returns (r: Result<Chart>)
    requires forall m :: 0 <= m < |smoothings| ==> smoothings[m] >= 1
    ensures Plotted(r, y, location, smoothings)
  {
    var bars := DailyCurve(y);
    if bars.Err? {
      NothingPlotted(y, location, smoothings);
      return Err(bars.error);
    }
    var lines: seq<Curve> := [];
    for n := 0 to |smoothings|
      invariant LinesDrawn(lines, y, smoothings, n)
    {
      var line := SmoothedCurve(y, smoothings[n]);
      if line.Err? {
        NothingPlotted(y, location, smoothings);
        return Err(line.error);
      }
      LinesDrawnStep(lines, y, smoothings, n, line.value);
      lines := lines + [line.value];
    }
    ChartPlotted(y, location, smoothings, bars.value, lines);
    r := Ok(Chart(location + " cases", bars.value, lines));
  }

  /** The first n windows all fit in y, and lines holds their smoothed lines in order. */
  ghost predicate LinesDrawn(lines: seq<Curve>, y: seq<int>, smoothings: seq<nat>, n: nat)
  {
    n <= |smoothings| && |lines| == n &&
    forall m :: 0 <= m < n ==> smoothings[m] < |y| && SmoothedLine(lines[m], y, smoothings[m])
  }

  /** Appending the line of the next window keeps the drawn lines in step with the windows. */
  lemma LinesDrawnStep(lines: seq<Curve>, y: seq<int>, smoothings: seq<nat>, n: nat, line: Curve)
    requires LinesDrawn(lines, y, smoothings, n) && n < |smoothings|
    requires smoothings[n] < |y| && SmoothedLine(line, y, smoothings[n])
    ensures LinesDrawn(lines + [line], y, smoothings, n + 1)
  {
    var next := lines + [line];
    forall m | 0 <= m < n + 1
      ensures smoothings[m] < |y| && SmoothedLine(next[m], y, smoothings[m])
    {
      if m < n {
        assert next[m] == lines[m];
      }
    }
  }

  /** With too short a series or a window that does not fit, the outcome is an IndexError. */
  lemma NothingPlotted(y: seq<int>, location: string, smoothings: seq<nat>)
    requires |y| < 2 || exists m :: 0 <= m < |smoothings| && smoothings[m] >= |y|
    ensures Plotted(Err(IndexError), y, location, smoothings)
  {
  }

  /** The bars and one line per window, all drawn, make the chart. */
  lemma ChartPlotted(y: seq<int>, location: string, smoothings: seq<nat>, bars: Curve, lines: seq<Curve>)
    requires DailyBars(bars, y) && LinesDrawn(lines, y, smoothings, |smoothings|)
    ensures Plotted(Ok(Chart(location + " cases", bars, lines)), y, location, smoothings)
  {
  }

  /** `plot_data` without the drawing: selects the series for the location (an unknown name or a
      missing row fails before anything is drawn), then plots it. */
  method PlotData(table: seq<Row>, location: string, start: nat, smoothings: seq<nat>) returns (r: Result<Chart>)
    requires Rectangular(table)
    requires forall m :: 0 <= m < |smoothings| ==> smoothings[m] >= 1
    ensures Select(table, location, start).Err? ==> r == Err(Select(table, location, start).error)
    ensures Select(table, location, start).Ok? ==> Plotted(r, Select(table, location, start).value, location, smoothings)
  {
    var selected := LocationSeries(table, location, start);
    if selected.Err? {
      return Err(selected.error);
    }
    r := PlotSeries(selected.value, location, smoothings);
  }

  /** The outcome of plotting the selected cumulative series y: it succeeds exactly when y has
      at least two days and every window fits in the daily changes; then the chart holds the
      bars, one smoothed line per window in order, and the title. */
  ghost predicate Plotted(r: Result<Chart>, y: seq<int>, location: string, smoothings: seq<nat>)
  {
    (r.Ok? <==> |y| >= 2 && forall m :: 0 <= m < |smoothings| ==> smoothings[m] < |y|) &&
    (r.Err? ==> r.error == IndexError) &&
    (r.Ok? ==>
      r.value.title == location + " cases" &&
      DailyBars(r.value.bars, y) &&
      |r.value.lines| == |smoothings| &&
      forall m :: 0 <= m < |smoothings| ==> SmoothedLine(r.value.lines[m], y, smoothings[m]))
  }

  /** With the default windows of 3 and 7 days, a chart is drawn exactly when the selected
      series covers at least eight days. */
  lemma DefaultWindowsNeedEightDays(r: Result<Chart>, y: seq<int>, location: string)
    requires Plotted(r, y, location, DefaultSmoothings)
    ensures r.Ok? <==> |y| >= 8
  {
    if |y| >= 8 {
      assert forall m :: 0 <= m < |DefaultSmoothings| ==> DefaultSmoothings[m] < |y|;
    } else {
      assert DefaultSmoothings[1] == 7;
    }
  }
}
