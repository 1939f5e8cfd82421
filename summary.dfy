/** The semester summary (gold_evo.py, `summary`): period return, the high and
    the low with their dates, and the statistics of the close-to-close daily
    returns. Prices are exact reals; the series is a sequence of daily bars. */
module Summary {
  import opened Calendar
  import opened Stats

  /** One daily record of the fetched price table. */
  datatype Bar = Bar(date: Date, open: real, high: real, low: real, close: real)

  datatype Option<T> = None | Some(value: T)

  /** The exceptions `summary` can raise: reading the first open of an empty
      table, and dividing by a first open of zero. */
  datatype Error = IndexError | ZeroDivisionError

  datatype Result<T> = Ok(value: T) | Err(error: Error)

  /** Mean, best and worst daily return, in percent; `stdPctSquared` is the
      square of the reported standard deviation in percent (that is, the
      sample variance of the returns times 100^2). A field pandas reports as
      NaN is `None` here; the whole block is `None` when there is no return. */
  datatype ReturnStats = ReturnStats(meanPct: real, stdPctSquared: Option<real>, bestPct: real, worstPct: real)

  /** The dictionary `summary` returns, with the high and low dates as dates. */
  datatype SummaryRecord = SummaryRecord(
    startOpen: real, endClose: real, pctChange: real,
    high: real, highDate: Date, low: real, lowDate: Date,
    dailyReturns: Option<ReturnStats>)

  function Highs(bars: seq<Bar>): seq<real> {
    seq(|bars|, i requires 0 <= i < |bars| => bars[i].high)
  }

  function Lows(bars: seq<Bar>): seq<real> {
    seq(|bars|, i requires 0 <= i < |bars| => bars[i].low)
  }

  function Closes(bars: seq<Bar>): seq<real> {
    seq(|bars|, i requires 0 <= i < |bars| => bars[i].close)
  }

  /** The dates of the series are strictly increasing. */
  predicate Ascending(bars: seq<Bar>) {
    forall i, j :: 0 <= i < j < |bars| ==> Precedes(bars[i].date, bars[j].date)
  }

  /** Every close that serves as the base of a daily return is non-zero. */
  predicate ReturnBasesNonZero(c: seq<real>) {
    forall i :: 0 <= i < |c| - 1 ==> c[i] != 0.0
  }

  /** Percentage change from `o` to `c`: applying it to `o` gives back `c`. */
  function PctChange(o: real, c: real): (p: real)
    requires o != 0.0
    ensures o + o * p / 100.0 == c
  {
    var q := (c - o) / o;
    assert o * q == c - o;
    q * 100.0
  }

  /** The change is zero exactly when the end equals the start; for a positive
      start its sign is the sign of end minus start. */
  lemma {:induction false} PctChangeSign(o: real, c: real)
    requires o != 0.0
    ensures PctChange(o, c) == 0.0 <==> c == o
    ensures o > 0.0 ==> (PctChange(o, c) > 0.0 <==> c > o)
    ensures o > 0.0 ==> (PctChange(o, c) < 0.0 <==> c < o)
  {
    var p := PctChange(o, c);
    assert o * p == (c - o) * 100.0;
    if o > 0.0 {
      if p > 0.0 { assert o * p > 0.0; }
      if p < 0.0 { assert o * (-p) > 0.0; }
      if c > o { assert p == (c - o) / o * 100.0; assert (c - o) / o > 0.0; }
      if c < o { assert (o - c) / o > 0.0; assert p == -((o - c) / o * 100.0); }
    }
  }

  /** The relative change from one close to the next: growing `prev` by it
      gives `next`. */
  function DailyReturn(prev: real, next: real): (r: real)
    requires prev != 0.0
    ensures prev * (1.0 + r) == next
  {
    (next - prev) / prev
  }

  /** `Close.pct_change().dropna()`: entry k is the return from close k to close k + 1. */
  function DailyReturns(c: seq<real>): (r: seq<real>)
    requires ReturnBasesNonZero(c)
    ensures |r| == if |c| == 0 then 0 else |c| - 1
    ensures forall k :: 0 <= k < |r| ==> r[k] == DailyReturn(c[k], c[k + 1])
  {
    if |c| < 2 then []
    else DailyReturns(c[..|c| - 1]) + [DailyReturn(c[|c| - 2], c[|c| - 1])]
  }

  /** Compounding: `start` grown by each return in turn. */
  function Compound(start: real, r: seq<real>): real {
    if |r| == 0 then start else Compound(start, r[..|r| - 1]) * (1.0 + r[|r| - 1])
  }

  /** Compounding the daily returns from the first close gives the last close:
      the returns lose nothing about the close series. */
  lemma {:induction false} CompoundDailyReturns(c: seq<real>)
    requires |c| > 0 && ReturnBasesNonZero(c)
    ensures Compound(c[0], DailyReturns(c)) == c[|c| - 1]
  {
    if |c| >= 2 {
      var p := c[..|c| - 1];
      var r := DailyReturns(c);
      var a, b := c[|c| - 2], c[|c| - 1];
      assert r == DailyReturns(p) + [DailyReturn(a, b)];
      assert r[..|r| - 1] == DailyReturns(p);
      CompoundDailyReturns(p);
      assert Compound(c[0], r) == a * (1.0 + DailyReturn(a, b));
    }
  }

  /** The return block of the summary, computed from the daily returns. */
  function ReturnStatistics(r: seq<real>): (st: Option<ReturnStats>)
    ensures st.Some? <==> |r| >= 1
    ensures st.Some? ==> st.value.worstPct <= st.value.meanPct <= st.value.bestPct
    ensures st.Some? ==> (st.value.stdPctSquared.Some? <==> |r| >= 2)
    ensures st.Some? && st.value.stdPctSquared.Some? ==> st.value.stdPctSquared.value >= 0.0
    ensures st.Some? ==> st.value.meanPct == Mean(r) * 100.0
    ensures st.Some? && |r| >= 2 ==> st.value.stdPctSquared == Some(SampleVariance(r) * 10000.0)
  {
    if |r| == 0 then None
    else
      MeanBetween(r);
      var variance := if |r| >= 2 then (SampleVarianceNonNegative(r); Some(SampleVariance(r) * 10000.0)) else None;
      Some(ReturnStats(Mean(r) * 100.0, variance, MaxOf(r) * 100.0, MinOf(r) * 100.0))
  }

  /** `summary(df)`. */
  function Summarize(bars: seq<Bar>): (r: Result<SummaryRecord>)
    requires |bars| > 0 && bars[0].open != 0.0 ==> ReturnBasesNonZero(Closes(bars))
    ensures r == Err(IndexError) <==> |bars| == 0
    ensures r == Err(ZeroDivisionError) <==> |bars| > 0 && bars[0].open == 0.0
    ensures r.Ok? ==> (r.value.dailyReturns.Some? <==> |bars| >= 2)
  {
    if |bars| == 0 then Err(IndexError)
    else
      var o := bars[0].open;
      var c := bars[|bars| - 1].close;
      if o == 0.0 then Err(ZeroDivisionError)
      else
        var highs, lows := Highs(bars), Lows(bars);
        Ok(SummaryRecord(
          o, c, PctChange(o, c),
          MaxOf(highs), bars[ArgMax(highs)].date,
          MinOf(lows), bars[ArgMin(lows)].date,
          ReturnStatistics(DailyReturns(Closes(bars)))))
  }

  /** The period figures: first open, last close, and the change between them
      with its sign. */
  lemma {:induction false} SummaryPeriodChange(bars: seq<Bar>)
    requires ReturnBasesNonZero(Closes(bars)) && |bars| >= 1 && bars[0].open != 0.0
    ensures var s := Summarize(bars).value;
      && s.startOpen == bars[0].open && s.endClose == bars[|bars| - 1].close
      && s.startOpen + s.startOpen * s.pctChange / 100.0 == s.endClose
      && (s.pctChange == 0.0 <==> s.endClose == s.startOpen)
      && (s.startOpen > 0.0 ==> (s.pctChange > 0.0 <==> s.endClose > s.startOpen))
  {
    PctChangeSign(bars[0].open, bars[|bars| - 1].close);
  }

  /** The high is the largest High, reached first on the reported date. */
  lemma {:induction false} SummaryHigh(bars: seq<Bar>)
    requires ReturnBasesNonZero(Closes(bars)) && |bars| >= 1 && bars[0].open != 0.0
    ensures var s := Summarize(bars).value;
      && (forall i :: 0 <= i < |bars| ==> bars[i].high <= s.high)
      && exists k :: 0 <= k < |bars| && bars[k].high == s.high && bars[k].date == s.highDate
                   && forall j :: 0 <= j < k ==> bars[j].high < s.high
  {
    var s, hs := Summarize(bars).value, Highs(bars);
    var k := ArgMax(hs);
    assert s.high == MaxOf(hs) && s.highDate == bars[k].date;
    MaxAtArgMax(hs);
    forall i | 0 <= i < |bars| ensures bars[i].high <= s.high {
      assert hs[i] == bars[i].high;
    }
    forall j | 0 <= j < k ensures bars[j].high < s.high {
      assert hs[j] == bars[j].high;
    }
    assert bars[k].high == hs[k];
  }

  /** The low is the smallest Low, reached first on the reported date. */
  lemma {:induction false} SummaryLow(bars: seq<Bar>)
    requires ReturnBasesNonZero(Closes(bars)) && |bars| >= 1 && bars[0].open != 0.0
    ensures var s := Summarize(bars).value;
      && (forall i :: 0 <= i < |bars| ==> s.low <= bars[i].low)
      && exists k :: 0 <= k < |bars| && bars[k].low == s.low && bars[k].date == s.lowDate
                   && forall j :: 0 <= j < k ==> s.low < bars[j].low
  {
    var s, ls := Summarize(bars).value, Lows(bars);
    var k := ArgMin(ls);
    assert s.low == MinOf(ls) && s.lowDate == bars[k].date;
    MinAtArgMin(ls);
    forall i | 0 <= i < |bars| ensures s.low <= bars[i].low {
      assert ls[i] == bars[i].low;
    }
    forall j | 0 <= j < k ensures s.low < bars[j].low {
      assert ls[j] == bars[j].low;
    }
    assert bars[k].low == ls[k];
  }

  /** With dates ascending, a tie for the high or the low resolves to the earliest date. */
  lemma {:induction false} SummaryTiesResolveToEarliestDate(bars: seq<Bar>)
    requires ReturnBasesNonZero(Closes(bars)) && |bars| >= 1 && bars[0].open != 0.0 && Ascending(bars)
    ensures var s := Summarize(bars).value;
      && (forall j :: 0 <= j < |bars| && bars[j].high == s.high ==> OnOrBefore(s.highDate, bars[j].date))
      && (forall j :: 0 <= j < |bars| && bars[j].low == s.low ==> OnOrBefore(s.lowDate, bars[j].date))
  {
    var s := Summarize(bars).value;
    var h, l := ArgMax(Highs(bars)), ArgMin(Lows(bars));
    MaxAtArgMax(Highs(bars));
    MinAtArgMin(Lows(bars));
    forall j | 0 <= j < |bars| && bars[j].high == s.high
      ensures OnOrBefore(s.highDate, bars[j].date)
    {
      assert Highs(bars)[j] == bars[j].high;
      if j != h { assert h < j; assert Precedes(bars[h].date, bars[j].date); }
    }
    forall j | 0 <= j < |bars| && bars[j].low == s.low
      ensures OnOrBefore(s.lowDate, bars[j].date)
    {
      assert Lows(bars)[j] == bars[j].low;
      if j != l { assert l < j; assert Precedes(bars[l].date, bars[j].date); }
    }
  }

  /** The best day is the largest return and the worst the smallest, each
      reached on some day, in percent. */
  lemma {:induction false} ReturnStatisticsExtremes(r: seq<real>)
    requires |r| >= 1
    ensures var st := ReturnStatistics(r).value;
      && (forall k :: 0 <= k < |r| ==> st.worstPct <= r[k] * 100.0 <= st.bestPct)
      && (exists k :: 0 <= k < |r| && st.bestPct == r[k] * 100.0)
      && (exists k :: 0 <= k < |r| && st.worstPct == r[k] * 100.0)
  {
    var st := ReturnStatistics(r).value;
    assert st.bestPct == MaxOf(r) * 100.0 && st.worstPct == MinOf(r) * 100.0;
    var kb :| 0 <= kb < |r| && r[kb] == MaxOf(r);
    var kw :| 0 <= kw < |r| && r[kw] == MinOf(r);
  }

  /** With two or more bars the return block is present: its best and worst
      days are the extreme daily returns and its mean lies between them. */
  lemma {:induction false} SummaryReturnBounds(bars: seq<Bar>)
    requires ReturnBasesNonZero(Closes(bars)) && |bars| >= 2 && bars[0].open != 0.0
    ensures var st := Summarize(bars).value.dailyReturns.value;
      var r := DailyReturns(Closes(bars));
      && |r| == |bars| - 1
      && st.meanPct == Mean(r) * 100.0
      && st.worstPct <= st.meanPct <= st.bestPct
      && (forall k :: 0 <= k < |r| ==> st.worstPct <= r[k] * 100.0 <= st.bestPct)
      && (exists k :: 0 <= k < |r| && st.bestPct == r[k] * 100.0)
      && (exists k :: 0 <= k < |r| && st.worstPct == r[k] * 100.0)
  {
    var r := DailyReturns(Closes(bars));
    assert Summarize(bars).value.dailyReturns == ReturnStatistics(r);
    ReturnStatisticsExtremes(r);
  }

  /** A flat close series has every daily return equal to zero. */
  lemma {:induction false} DailyReturnsOfFlatCloses(c: seq<real>, v: real)
    requires ReturnBasesNonZero(c) && AllEqual(c, v)
    ensures AllEqual(DailyReturns(c), 0.0)
  {
    var r := DailyReturns(c);
    forall k | 0 <= k < |r| ensures r[k] == 0.0 {
      assert c[k + 1] == v && c[k] == v;
      assert DailyReturn(v, v) == 0.0;
    }
  }

  /** All-zero returns give a return block of zeros. */
  lemma {:induction false} ReturnStatisticsOfZeros(r: seq<real>)
    requires |r| >= 1 && AllEqual(r, 0.0)
    ensures var st := ReturnStatistics(r).value;
      && st.meanPct == 0.0 && st.bestPct == 0.0 && st.worstPct == 0.0
      && (st.stdPctSquared.Some? ==> st.stdPctSquared.value == 0.0)
  {
    ConstantStatistics(r, 0.0);
    if |r| >= 2 {
      SampleVarianceZeroIff(r);
    }
  }

  /** When every close is the same, all return statistics are zero, and the
      period change is zero exactly when the first open equals that close. */
  lemma {:induction false} SummaryConstantCloses(bars: seq<Bar>, v: real)
    requires ReturnBasesNonZero(Closes(bars)) && |bars| >= 2 && bars[0].open != 0.0
    requires forall i :: 0 <= i < |bars| ==> bars[i].close == v
    ensures var s := Summarize(bars).value;
      && s.dailyReturns.value.meanPct == 0.0
      && s.dailyReturns.value.bestPct == 0.0
      && s.dailyReturns.value.worstPct == 0.0
      && (s.dailyReturns.value.stdPctSquared.Some? ==> s.dailyReturns.value.stdPctSquared.value == 0.0)
      && (s.pctChange == 0.0 <==> bars[0].open == v)
  {
    var c := Closes(bars);
    var r := DailyReturns(c);
    var s := Summarize(bars).value;
    assert s.dailyReturns == ReturnStatistics(r);
    assert s.pctChange == PctChange(bars[0].open, v);
    assert AllEqual(c, v) by {
      forall i | 0 <= i < |c| ensures c[i] == v { assert c[i] == bars[i].close; }
    }
    DailyReturnsOfFlatCloses(c, v);
    ReturnStatisticsOfZeros(r);
    PctChangeSign(bars[0].open, v);
  }

  /** With three or more bars the standard deviation is reported; it is zero
      exactly when every daily return is the same. */
  lemma {:induction false} SummaryStdZeroIff(bars: seq<Bar>)
    requires ReturnBasesNonZero(Closes(bars)) && |bars| >= 3 && bars[0].open != 0.0
    ensures var st := Summarize(bars).value.dailyReturns.value;
      var r := DailyReturns(Closes(bars));
      && st.stdPctSquared.Some?
      && (st.stdPctSquared.value == 0.0 <==> AllEqual(r, r[0]))
  {
    SampleVarianceZeroIff(DailyReturns(Closes(bars)));
  }

  /** The daily returns of the closes 102, 107, 104. */
  lemma ExampleReturns()
    ensures ReturnBasesNonZero([102.0, 107.0, 104.0])
    ensures DailyReturns([102.0, 107.0, 104.0]) == [5.0 / 102.0, -3.0 / 107.0]
  {
  }

  /** The return block of those two returns: about 1.049 % mean, 4.902 % best,
      -2.804 % worst and 5.449 % standard deviation. For two returns a and b
      the sample variance is (a - b)^2 / 2, and a - b = 841/10914 here. */
  lemma ExampleReturnStatistics()
    ensures ReturnStatistics([5.0 / 102.0, -3.0 / 107.0]) == Some(ReturnStats(
      (5.0 / 102.0 - 3.0 / 107.0) / 2.0 * 100.0,
      Some((841.0 / 10914.0) * (841.0 / 10914.0) / 2.0 * 10000.0),
      5.0 / 102.0 * 100.0,
      -3.0 / 107.0 * 100.0))
  {
    var r := [5.0 / 102.0, -3.0 / 107.0];
    assert r[..1] == [5.0 / 102.0] && r[..1][..0] == [];
    assert Sum(r[..1]) == 5.0 / 102.0;
    assert Sum(r) == Sum(r[..1]) + r[1];
    assert MaxOf(r) == 5.0 / 102.0 && MinOf(r) == -3.0 / 107.0;
    var m, d := Mean(r), 841.0 / 10914.0 / 2.0;
    assert r[0] - m == d && r[1] - m == -d;
    assert SquaredDeviations(r[..1], m) == Square(d);
    assert SquaredDeviations(r, m) == Square(d) + Square(-d);
    assert SampleVariance(r) == (841.0 / 10914.0) * (841.0 / 10914.0) / 2.0;
  }

  /** Three trading days in January 2024. */
  lemma ThreeDayExample()
    ensures var bars := [
        Bar(Date(2024, 1, 2), 100.0, 105.0, 99.0, 102.0),
        Bar(Date(2024, 1, 3), 102.0, 108.0, 101.0, 107.0),
        Bar(Date(2024, 1, 4), 107.0, 107.0, 103.0, 104.0)];
      && ReturnBasesNonZero(Closes(bars))
      && Summarize(bars) == Ok(SummaryRecord(
           100.0, 104.0, 4.0,
           108.0, Date(2024, 1, 3), 99.0, Date(2024, 1, 2),
           ReturnStatistics([5.0 / 102.0, -3.0 / 107.0])))
  {
    var bars := [
        Bar(Date(2024, 1, 2), 100.0, 105.0, 99.0, 102.0),
        Bar(Date(2024, 1, 3), 102.0, 108.0, 101.0, 107.0),
        Bar(Date(2024, 1, 4), 107.0, 107.0, 103.0, 104.0)];
    assert Closes(bars) == [102.0, 107.0, 104.0];
    ExampleReturns();
    var hs, ls := Highs(bars), Lows(bars);
    assert hs == [105.0, 108.0, 107.0];
    assert ls == [99.0, 101.0, 103.0];
    assert ArgMax(hs) == 1 && ArgMin(ls) == 0;
    MaxAtArgMax(hs);
    MinAtArgMin(ls);
    assert PctChange(100.0, 104.0) == 4.0;
  }
}
