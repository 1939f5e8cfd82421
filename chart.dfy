/** The two computed parts of the chart (gold_evo.py, `plot_prices`): the
    20-record trailing moving average of the close, and the points where the
    high and low markers are drawn. */
module Chart {
  import opened Stats
  import opened Summary

  /** The moving-average window, `rolling(window=20, min_periods=1)`. */
  const MovingAverageWidth: nat := 20

  /** First index of the window that ends at index i: a growing window until
      it holds `MovingAverageWidth` records, then a sliding one. */
  function WindowStart(i: nat): (lo: nat)
    ensures lo <= i
    ensures i - lo + 1 == if i + 1 < MovingAverageWidth then i + 1 else MovingAverageWidth
  {
    if i + 1 < MovingAverageWidth then 0 else i + 1 - MovingAverageWidth
  }

  /** Running window sums: each step adds the close entering the window and,
      once the window is full, subtracts the one leaving it. */
  function WindowSums(c: seq<real>): (r: seq<real>)
    ensures |r| == |c|
  {
    if |c| == 0 then []
    else
      var prev := WindowSums(c[..|c| - 1]);
      var i := |c| - 1;
      var carried := if i == 0 then 0.0 else prev[i - 1];
      var leaving := if i >= MovingAverageWidth then c[i - MovingAverageWidth] else 0.0;
      prev + [carried + c[i] - leaving]
  }

  /** `Close.rolling(window=20, min_periods=1).mean()`. */
  function MovingAverage(c: seq<real>): (r: seq<real>)
    ensures |r| == |c|
  {
    var sums := WindowSums(c);
    seq(|c|, i requires 0 <= i < |c| => sums[i] / ((i - WindowStart(i) + 1) as real))
  }

  /** The running sum at index i is the sum of the window ending at i. */
  lemma {:induction false} WindowSumsAt(c: seq<real>, i: nat)
    requires i < |c|
    ensures WindowSums(c)[i] == Sum(c[WindowStart(i)..i + 1])
  {
    var n := |c| - 1;
    var p := c[..n];
    if i < n {
      WindowSumsAt(p, i);
      assert p[WindowStart(i)..i + 1] == c[WindowStart(i)..i + 1];
    } else if i == 0 {
      assert c[0..1] == [c[0]];
    } else {
      WindowSumsAt(p, i - 1);
      assert p[WindowStart(i - 1)..i] == c[WindowStart(i - 1)..i];
      var last := c[WindowStart(i)..i + 1];
      assert last[..|last| - 1] == c[WindowStart(i)..i];
      if i >= MovingAverageWidth {
        var wide := c[i - MovingAverageWidth..i];
        SumFront(wide);
        assert wide[1..] == c[WindowStart(i)..i];
      }
    }
  }

  /** Entry i of the moving average is the mean of the closes from
      max(0, i - 19) to i inclusive. */
  lemma {:induction false} MovingAverageAt(c: seq<real>, i: nat)
    requires i < |c|
    ensures MovingAverage(c)[i] == Mean(c[WindowStart(i)..i + 1])
  {
    WindowSumsAt(c, i);
  }

  /** Before the window is full the average is the plain mean of the prefix. */
  lemma {:induction false} MovingAveragePrefix(c: seq<real>, i: nat)
    requires i < |c| && i + 1 < MovingAverageWidth
    ensures MovingAverage(c)[i] == Mean(c[..i + 1])
  {
    MovingAverageAt(c, i);
  }

  /** Each average lies between the smallest and the largest close of its window. */
  lemma {:induction false} MovingAverageBounds(c: seq<real>, i: nat)
    requires i < |c|
    ensures var w := c[WindowStart(i)..i + 1];
      MinOf(w) <= MovingAverage(c)[i] <= MaxOf(w)
  {
    MovingAverageAt(c, i);
    MeanBetween(c[WindowStart(i)..i + 1]);
  }

  /** The average is trailing: appending later closes does not change the
      averages already computed. */
  lemma {:induction false} MovingAverageTrailing(c: seq<real>, d: seq<real>)
    ensures MovingAverage(c + d)[..|c|] == MovingAverage(c)
  {
    forall i | 0 <= i < |c| ensures MovingAverage(c + d)[i] == MovingAverage(c)[i] {
      MovingAverageAt(c + d, i);
      MovingAverageAt(c, i);
      assert (c + d)[WindowStart(i)..i + 1] == c[WindowStart(i)..i + 1];
    }
  }

  /** A flat close series is its own moving average. */
  lemma {:induction false} MovingAverageOfFlatSeries(c: seq<real>, v: real)
    requires AllEqual(c, v)
    ensures MovingAverage(c) == c
  {
    forall i | 0 <= i < |c| ensures MovingAverage(c)[i] == c[i] {
      MovingAverageAt(c, i);
      var w := c[WindowStart(i)..i + 1];
      assert AllEqual(w, v);
      ConstantStatistics(w, v);
    }
  }

  /** The two markers: where the up-triangle (high) and down-triangle (low) go. */
  datatype Markers = Markers(hiIdx: nat, highVal: real, loIdx: nat, lowVal: real)

  /** The marker points `plot_prices` computes, by `idxmax`/`max` on High and
      `idxmin`/`min` on Low. */
  function ChartMarkers(bars: seq<Bar>): (m: Markers)
    requires |bars| >= 1
    ensures m.hiIdx < |bars| && m.loIdx < |bars|
    ensures m.highVal == bars[m.hiIdx].high && m.lowVal == bars[m.loIdx].low
  {
    var highs, lows := Highs(bars), Lows(bars);
    MaxAtArgMax(highs);
    MinAtArgMin(lows);
    Markers(ArgMax(highs), MaxOf(highs), ArgMin(lows), MinOf(lows))
  }

  /** The markers sit on the first bar with the highest High and the first bar
      with the lowest Low. */
  lemma {:induction false} MarkersAreFirstExtremes(bars: seq<Bar>)
    requires |bars| >= 1
    ensures var m := ChartMarkers(bars);
      && (forall i :: 0 <= i < |bars| ==> bars[i].high <= m.highVal && m.lowVal <= bars[i].low)
      && (forall j :: 0 <= j < m.hiIdx ==> bars[j].high < m.highVal)
      && (forall j :: 0 <= j < m.loIdx ==> m.lowVal < bars[j].low)
  {
    var m, hs, ls := ChartMarkers(bars), Highs(bars), Lows(bars);
    forall i | 0 <= i < |bars| ensures bars[i].high <= m.highVal && m.lowVal <= bars[i].low {
      assert hs[i] == bars[i].high && ls[i] == bars[i].low;
    }
    forall j | 0 <= j < m.hiIdx ensures bars[j].high < m.highVal {
      assert hs[j] == bars[j].high;
    }
    forall j | 0 <= j < m.loIdx ensures m.lowVal < bars[j].low {
      assert ls[j] == bars[j].low;
    }
  }

  /** The chart marks the same high and low, on the same dates, that the
      summary reports. */
  lemma {:induction false} MarkersMatchSummary(bars: seq<Bar>)
    requires ReturnBasesNonZero(Closes(bars)) && |bars| >= 1 && bars[0].open != 0.0
    ensures var m, s := ChartMarkers(bars), Summarize(bars).value;
      && m.highVal == s.high && bars[m.hiIdx].date == s.highDate
      && m.lowVal == s.low && bars[m.loIdx].date == s.lowDate
  {
    var s := Summarize(bars).value;
    assert s.high == MaxOf(Highs(bars)) && s.highDate == bars[ArgMax(Highs(bars))].date;
    assert s.low == MinOf(Lows(bars)) && s.lowDate == bars[ArgMin(Lows(bars))].date;
  }
}
