/** The sliding-window hook (src/shared/hooks/use-sliding-window.ts): keep
    the samples of the last `windowSize` seconds, at most `maxPoints` of
    them, and re-base their times to start at 0 for plotting.

    The hook reads the wall clock inside a memo that depends only on
    `[data, windowSize, maxPoints]`; here that clock reading is the explicit
    parameter `now` of `WindowData`, taken when the memo is recomputed. The
    `currentTime` cell that `updateTime` sets is never read by the memo, so
    the model keeps it as a separate field that `UpdateTime` alone changes. */
module SlidingWindow {
  import opened Common
  import opened Types

  /** Plot series: x values (seconds since the first point) and y values. */
  datatype ChartData = ChartData(xs: seq<int>, ys: seq<real>)

  /** The filter predicate: the sample is not older than `windowStart`. */
  function InWindow(windowStart: real): Sample -> bool
  {
    (p: Sample) => p.timeSec as real >= windowStart
  }

  /** The samples of `data` that pass the time filter. */
  function Passing(data: seq<Sample>, windowSize: real, now: real): seq<Sample>
  {
    Filter(data, InWindow(now - windowSize))
  }

  /** `windowData`: filter by time, then keep the last `maxPoints` when more
      pass (JavaScript `slice(-maxPoints)`, so `maxPoints == 0` keeps all). */
  function WindowData(data: seq<Sample>, windowSize: real, maxPoints: int, now: real): (r: seq<Sample>)
    ensures data == [] ==> r == []
    ensures forall p :: p in r ==> p.timeSec as real >= now - windowSize
    ensures IsSubsequence(r, data)
    ensures maxPoints >= 1 ==> |r| <= maxPoints
    ensures var f := Passing(data, windowSize, now);
      && (|f| <= maxPoints ==> r == f)
      && (|f| > maxPoints >= 1 ==> r == f[|f| - maxPoints..])
      && (maxPoints == 0 ==> r == f)
  {
    if |data| == 0 then []
    else
      var filtered := Passing(data, windowSize, now);
      if |filtered| > maxPoints then
        var r := SliceFrom(filtered, -maxPoints);
        SuffixIsSubsequence(filtered, |filtered| - |r|);
        SubsequenceTransitive(r, filtered, data);
        assert forall p :: p in r ==> p in filtered;
        r
      else filtered
  }

  /** `chartData`: re-base the window's times on its first sample. */
  function WindowChart(w: seq<Sample>): (r: ChartData)
    ensures |r.xs| == |w| && |r.ys| == |w|
    ensures w == [] ==> r == ChartData([], [])
    ensures w != [] ==> r.xs[0] == 0
  {
    if |w| == 0 then ChartData([], [])
    else
      var t0 := w[0].timeSec;
      ChartData(seq(|w|, i requires 0 <= i < |w| => w[i].timeSec - t0),
                seq(|w|, i requires 0 <= i < |w| => w[i].value))
  }

  ghost predicate NonDecreasingTimes(s: seq<Sample>)
  {
    forall i, j :: 0 <= i < j < |s| ==> s[i].timeSec <= s[j].timeSec
  }

  /** Index of the first sample not older than `windowStart` (or |s|). */
  function FirstInWindow(s: seq<Sample>, windowStart: real): (k: nat)
    ensures k <= |s|
    ensures forall i :: 0 <= i < k ==> (s[i].timeSec as real) < windowStart
    ensures k < |s| ==> s[k].timeSec as real >= windowStart
  {
    if s == [] then 0
    else if s[0].timeSec as real >= windowStart then 0
    else 1 + FirstInWindow(s[1..], windowStart)
  }

  /** On time-ordered data the filter keeps a suffix: everything from the
      first sample inside the window on. */
  lemma FilterOfOrderedIsSuffix(s: seq<Sample>, windowStart: real)
    requires NonDecreasingTimes(s)
    ensures Filter(s, InWindow(windowStart)) == s[FirstInWindow(s, windowStart)..]
  {
    var k := FirstInWindow(s, windowStart);
    forall i | k <= i < |s| ensures InWindow(windowStart)(s[i]) {
      assert s[k].timeSec <= s[i].timeSec;
    }
    FilterOfSplit(s, InWindow(windowStart), k);
  }

  /** One instance of the hook: its options, its memoized window and the
      `currentTime` cell. */
  class SlidingWindowHook {
    const windowSize: real
    const maxPoints: int
    var windowData: seq<Sample>
    var currentTime: real

    /** First render: the memo is computed at clock reading `now`. */
    constructor (data: seq<Sample>, windowSize: real, maxPoints: int, now: real)
      ensures this.windowSize == windowSize && this.maxPoints == maxPoints
      ensures windowData == WindowData(data, windowSize, maxPoints, now)
      ensures currentTime == 0.0
    {
      this.windowSize := windowSize;
      this.maxPoints := maxPoints;
      windowData := WindowData(data, windowSize, maxPoints, now);
      currentTime := 0.0;
    }

    /** A render in which the `data` dependency changed: the memo is
        recomputed with the clock read at that moment. */
    method Recompute(data: seq<Sample>, now: real)
      modifies this
      ensures windowData == WindowData(data, windowSize, maxPoints, now)
      ensures currentTime == old(currentTime)
    {
      windowData := WindowData(data, windowSize, maxPoints, now);
    }

    /** `updateTime`: sets `currentTime` and nothing else; the window does
        not slide. */
    method UpdateTime(now: real)
      modifies this
      ensures currentTime == now
      ensures windowData == old(windowData)
    {
      currentTime := now;
    }

    function Chart(): ChartData
      reads this
    {
      WindowChart(windowData)
    }

    /** `dataCount` */
    function DataCount(): (n: nat)
      reads this
      ensures n == |Chart().xs| == |Chart().ys|
    {
      |windowData|
    }
  }
}
