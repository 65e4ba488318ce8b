/** The live chart page (src/features/monitoring/ui/realtime-charts.tsx):
    full-history re-basing (`toChartData`), the choice between the windowed
    and the full-history series, and the once-a-second tick. */
module RealtimeCharts {
  import opened Common
  import opened Types
  import opened SlidingWindow

  /** Window options used for both the heart-rate and contraction charts. */
  const WINDOW_SIZE: real := 100.0
  const MAX_POINTS: int := 250

  datatype ChartMode = Window | Scroll

  /** `toChartData`: x is seconds since the first point, y the value. */
  function ToChartData(points: seq<Sample>): (r: ChartData)
    ensures points == [] ==> r == ChartData([], [])
    ensures |r.xs| == |points| && |r.ys| == |points|
  {
    if |points| == 0 then ChartData([], [])
    else
      var base := points[0].timeSec;
      ChartData(seq(|points|, i requires 0 <= i < |points| => points[i].timeSec - base),
                seq(|points|, i requires 0 <= i < |points| => points[i].value))
  }

  /** Undo the re-basing: rebuild samples from the series and the base time. */
  function Unbase(base: int, chart: ChartData): (s: seq<Sample>)
    requires |chart.xs| == |chart.ys|
    ensures |s| == |chart.xs|
  {
    seq(|chart.xs|, i requires 0 <= i < |chart.xs| => Sample(chart.xs[i] + base, chart.ys[i]))
  }

  /** Re-basing loses nothing but the first time stamp: the series start at
      x = 0, and adding that time stamp back gives the points again. */
  lemma ToChartDataRoundTrip(points: seq<Sample>)
    requires points != []
    ensures ToChartData(points).xs[0] == 0
    ensures Unbase(points[0].timeSec, ToChartData(points)) == points
  {
    var r := Unbase(points[0].timeSec, ToChartData(points));
    assert forall i :: 0 <= i < |points| ==> r[i] == points[i];
  }

  /** On time-ordered points the x series is non-negative and non-decreasing. */
  lemma ToChartDataOrdered(points: seq<Sample>)
    requires NonDecreasingTimes(points)
    ensures var xs := ToChartData(points).xs;
      forall i, j :: 0 <= i <= j < |xs| ==> 0 <= xs[i] <= xs[j]
  {
  }

  /** The hook's `chartData` and `toChartData` are the same re-basing. */
  lemma WindowChartIsToChartData(w: seq<Sample>)
    ensures WindowChart(w) == ToChartData(w)
  {
  }

  /** What the page plots and the point count it shows, per mode. */
  function Displayed(mode: ChartMode, window: SlidingWindowHook, all: seq<Sample>): (r: (ChartData, nat))
    reads window
    ensures |r.0.xs| == |r.0.ys| == r.1
    ensures mode == Window ==> r.0 == window.Chart() && r.1 == |window.windowData|
    ensures mode == Scroll ==> r.1 == |all| && (all != [] ==> Unbase(all[0].timeSec, r.0) == all)
  {
    if mode == Window then (window.Chart(), window.DataCount())
    else
      var chart := ToChartData(all);
      assert all != [] ==> Unbase(all[0].timeSec, chart) == all by {
        if all != [] { ToChartDataRoundTrip(all); }
      }
      (chart, |all|)
  }

  /** The once-a-second interval (installed in window mode only): it calls
      `updateTime` on both hooks, which does not move either window. */
  method Tick(mode: ChartMode, bpmWindow: SlidingWindowHook, ucWindow: SlidingWindowHook, now: real)
    modifies bpmWindow, ucWindow
    ensures bpmWindow.windowData == old(bpmWindow.windowData)
    ensures ucWindow.windowData == old(ucWindow.windowData)
    ensures mode == Window ==> bpmWindow.currentTime == now && ucWindow.currentTime == now
    ensures mode == Scroll ==>
      bpmWindow.currentTime == old(bpmWindow.currentTime) && ucWindow.currentTime == old(ucWindow.currentTime)
  {
    if mode == Window {
      bpmWindow.UpdateTime(now);
      ucWindow.UpdateTime(now);
    }
  }

  /** Samples one per second at times 0..150, the clock at 150 and a
      100-second window: exactly the samples of times 50..150 are kept and
      the plotted x series starts at 0. */
  lemma WindowOfSteadyStream(v: real)
    ensures var data := seq(151, i requires 0 <= i < 151 => Sample(i, v));
      && WindowData(data, WINDOW_SIZE, MAX_POINTS, 150.0) == data[50..]
      && WindowChart(data[50..]).xs[0] == 0
  {
    var data := seq(151, i requires 0 <= i < 151 => Sample(i, v));
    assert NonDecreasingTimes(data);
    FilterOfOrderedIsSuffix(data, 150.0 - WINDOW_SIZE);
    var k := FirstInWindow(data, 150.0 - WINDOW_SIZE);
    assert data[50].timeSec == 50;
    assert k == 50;
  }
}
