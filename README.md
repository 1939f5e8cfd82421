# Semester price summary: a Dafny model

`gold_evo.py` downloads the daily open/high/low/close table of one instrument
(gold futures by default) for the current half-year. It prints a summary of
the table and draws a chart with a 20-day moving average and markers at the
high and the low. This project models the computation inside that script:

- `calendar.dfy` (module `Calendar`): `semester_start`. This is the half-year
  rule that picks January 1 or July 1. It also models the window
  [semester start, today] that `main` passes to the download.
- `stats.dfy` (module `Stats`): the column reductions the script calls on
  pandas series. These are `max`/`min`, `idxmax`/`idxmin` with
  first-occurrence tie-break, `mean`, and `std` (delta degrees of freedom 1).
  `std` is modelled by its square, the sample variance. `Sum` is the helper
  that defines the mean.
- `summary.dfy` (module `Summary`): `summary`. It covers the first open, the
  last close, the percentage change, the high and low with their dates, the
  close-to-close daily returns, and their mean, best and worst day and
  standard deviation. The exceptions `summary` raises are modelled as a
  `Result`.
- `chart.dfy` (module `Chart`): the two computed parts of `plot_prices`. One
  is `rolling(window=20, min_periods=1).mean()` of the close. It is defined
  through running window sums and proved equal to the mean of a growing,
  then sliding, window. The other is the high/low marker selection.

Prices are Dafny `real`s, so the arithmetic is exact. A price table is a
`seq<Bar>` with one fixed record shape. The script has a branch for a
multi-column High/Low block (gold_evo.py:40-44, 91-95). That branch computes
the same values on the first column, so this one record type covers both
paths.

Decisions about partial operations:

- An empty table makes `df["Open"].iloc[0]` raise `IndexError`. The model
  returns `Err(IndexError)`.
- On an empty table `idxmax` in `plot_prices` (gold_evo.py:97) would raise
  `ValueError`; `ChartMarkers` requires a non-empty table instead. Its one
  call site always meets that: `fetch_prices` rejects an empty download
  (gold_evo.py:26-27), and `main` calls `summary` (line 135), which raises
  on an empty table at line 35, before `plot_prices` (line 138).
- `o` is a Python float, so a first open of zero makes `(c - o) / o` raise
  `ZeroDivisionError`. The model returns `Err(ZeroDivisionError)`.
- A daily return divides by the previous close. `DailyReturns` therefore
  requires every close except the last to be non-zero (`ReturnBasesNonZero`).
  `Summarize` requires the same whenever the first open is non-zero, so a
  zero first open always yields `Err(ZeroDivisionError)`. At a zero close
  pandas produces one of two things. If the next close is non-zero, the
  return is an infinity, which the reals do not have. If the next close is
  zero too, the return is 0/0 = NaN, and `dropna()` (gold_evo.py:54) removes
  it, so the series then has fewer than n − 1 entries.
- With a single bar, the return series is empty and pandas reports NaN for
  its mean, max, min and std. The model reports `None` for the whole return
  block. With exactly one return, pandas' sample std is NaN, and
  `stdPctSquared` is `None`.
- A date argument is a Python `date`, which always holds a valid calendar
  date. `Calendar.Valid` states that as a precondition.

Two consequences of measuring the period change from the first open:

- For a one-bar table the change is (Close[0] − Open[0]) / Open[0] × 100,
  which is zero only when that bar's open equals its close.
- With every close equal to v, the change is zero exactly when the first open
  is v (`SummaryConstantCloses`).

## Model

| member | source | states |
|---|---|---|
| `Calendar.SemesterStart` | gold_evo.py:19-20 | the result is January 1 or July 1 of today's year, in the same half-year as today (month ≤ 6 gives January), and not after today; these facts determine it |
| `Calendar.SemesterStartIsLatest` | gold_evo.py:19-20 | every January 1 or July 1 on or before today is on or before the semester start, so the start is the latest half-year start not after today |
| `Calendar.SemesterStartMonotone` | gold_evo.py:19-20 | a later date never gets an earlier start, and two dates of the same half-year get the same start |
| `Calendar.SemesterStartIdempotent` | gold_evo.py:19-20 | a semester start is its own semester start |
| `Calendar.CurrentWindow` | gold_evo.py:126-130 | the window passed to the download ends today and starts on the semester start: a half-year start in today's half, not after today |
| `Stats.MaxOf` | gold_evo.py:46 | `max`: the result occurs in the column and no entry exceeds it |
| `Stats.MinOf` | gold_evo.py:47 | `min`: the result occurs in the column and no entry is below it |
| `Stats.ArgMax` | gold_evo.py:48 | `idxmax`: a valid index whose entry is at least every entry and strictly above every earlier entry (the first occurrence) |
| `Stats.ArgMin` | gold_evo.py:49 | `idxmin`: a valid index whose entry is at most every entry and strictly below every earlier entry (the first occurrence) |
| `Stats.MaxAtArgMax` | gold_evo.py:46-48 | the separately computed `max` equals the entry at `idxmax` |
| `Stats.MinAtArgMin` | gold_evo.py:47-49 | the separately computed `min` equals the entry at `idxmin` |
| `Stats.Mean` | gold_evo.py:55 | `mean`: n copies of the result add up to the sum of the n entries |
| `Stats.MeanBetween` | gold_evo.py:55-58 | the mean of a non-empty sequence lies between its minimum and its maximum |
| `Stats.ConstantStatistics` | gold_evo.py:55-58 | a sequence whose every entry is v has mean, maximum and minimum v |
| `Stats.SampleVariance` | gold_evo.py:56 | the square of `std` (ddof 1): n − 1 copies of it add up to the squared deviations from the mean |
| `Stats.SampleVarianceNonNegative` | gold_evo.py:56 | the sample variance (squared deviations over n − 1) is never negative |
| `Stats.SampleVarianceZeroIff` | gold_evo.py:56 | the sample variance is zero exactly when all entries are equal |
| `Summary.PctChange` | gold_evo.py:37 | the percentage change round-trips: applying it to the open gives back the close, which determines it for a non-zero open |
| `Summary.PctChangeSign` | gold_evo.py:37 | the change is zero exactly when close equals open; for a positive open it is positive exactly when close > open and negative exactly when close < open |
| `Summary.DailyReturn` | gold_evo.py:54 | one close-to-close return: the previous close grown by it is the next close |
| `Summary.DailyReturns` | gold_evo.py:54 | `pct_change().dropna()` has n − 1 entries; entry k is (close[k+1] − close[k]) / close[k], so the first bar contributes no return |
| `Summary.CompoundDailyReturns` | gold_evo.py:54 | compounding the daily returns from the first close yields the last close |
| `Summary.ReturnStatistics` | gold_evo.py:54-58 | the return block exists exactly when there is a return; its mean is the mean of the returns × 100, between worst and best; the std is present exactly with two or more returns, and its square is the sample (ddof 1) variance × 100², never negative |
| `Summary.ReturnStatisticsExtremes` | gold_evo.py:57-58 | the best (worst) day bounds every daily return × 100 from above (below) and equals one of them |
| `Summary.Summarize` | gold_evo.py:33-72 | `IndexError` exactly on an empty table; `ZeroDivisionError` exactly when the first open is zero; otherwise a record whose return block is present exactly when there are two or more bars |
| `Summary.SummaryPeriodChange` | gold_evo.py:35-37 | start_open is the first open, end_close the last close; the change round-trips from open to close, is zero exactly when they are equal, and for a positive open is positive exactly when the close is larger |
| `Summary.SummaryHigh` | gold_evo.py:46-51 | the high is at least every High; some bar k has High equal to it and the reported date, and every bar before k has a smaller High |
| `Summary.SummaryLow` | gold_evo.py:47-52 | the low is at most every Low; some bar k has Low equal to it and the reported date, and every bar before k has a larger Low |
| `Summary.SummaryTiesResolveToEarliestDate` | gold_evo.py:48-52 | with ascending dates, the reported high (low) date is on or before the date of every bar that attains the high (low) |
| `Summary.SummaryReturnBounds` | gold_evo.py:54-58 | with two or more bars there are n − 1 returns; the mean is their mean × 100 and worst ≤ mean ≤ best; best and worst bound every daily return × 100 and are attained |
| `Summary.DailyReturnsOfFlatCloses` | gold_evo.py:54 | a flat close series has all daily returns zero |
| `Summary.ReturnStatisticsOfZeros` | gold_evo.py:55-58 | all-zero returns give mean, best, worst and std all zero |
| `Summary.SummaryConstantCloses` | gold_evo.py:35-58 | if every close is v: mean, best, worst and std are 0, and the change is 0 exactly when the first open is v |
| `Summary.SummaryStdZeroIff` | gold_evo.py:56 | with three or more bars the std is reported, and it is zero exactly when every daily return is the same |
| `Summary.ExampleReturns` | gold_evo.py:54 | closes 102, 107, 104 give returns 5/102 and −3/107 |
| `Summary.ExampleReturnStatistics` | gold_evo.py:55-58 | those returns give mean (5/102 − 3/107)/2 × 100 ≈ 1.049 %, best ≈ 4.902 %, worst ≈ −2.804 %, and std² = (841/10914)²/2 × 100², a std ≈ 5.449 % |
| `Summary.ThreeDayExample` | gold_evo.py:33-72 | the three-day January 2024 table gives open 100, close 104, change 4 %, high 108 on 2024-01-03, low 99 on 2024-01-02 |
| `Chart.WindowStart` | gold_evo.py:87 | the window ending at index i has min(i + 1, 20) entries and starts at or before i |
| `Chart.WindowSums` | gold_evo.py:87 | one running window sum per close; `WindowSumsAt` pins each one |
| `Chart.MovingAverage` | gold_evo.py:87 | the moving average has one entry per close |
| `Chart.WindowSumsAt` | gold_evo.py:87 | the running sum (add the entering close, subtract the leaving one) at i equals the sum of closes max(0, i − 19) … i |
| `Chart.MovingAverageAt` | gold_evo.py:87 | MA20[i] is the mean of closes max(0, i − 19) … i inclusive |
| `Chart.MovingAveragePrefix` | gold_evo.py:87 | for i < 19, MA20[i] is the mean of closes 0 … i |
| `Chart.MovingAverageBounds` | gold_evo.py:87 | MA20[i] lies between the minimum and the maximum close of its window |
| `Chart.MovingAverageTrailing` | gold_evo.py:87 | appending later closes leaves the earlier averages unchanged |
| `Chart.MovingAverageOfFlatSeries` | gold_evo.py:87 | a flat close series is its own moving average |
| `Chart.ChartMarkers` | gold_evo.py:91-100 | both marker indices are valid bars, and each marker's value is the High (Low) of the bar it is drawn at |
| `Chart.MarkersAreFirstExtremes` | gold_evo.py:91-100 | the high marker is at least every High and above every earlier High; the low marker is at most every Low and below every earlier Low |
| `Chart.MarkersMatchSummary` | gold_evo.py:91-100 | the chart's markers have the same values, on the same dates, as the summary's high and low |

## Left out

- Data download (`fetch_prices`, gold_evo.py:23-30): a network call to the price provider. This covers the empty-result `RuntimeError`, the exclusive `end + 1 day` bound and the timezone stripping of the index. Callers are modelled as receiving the table as a `seq<Bar>`.
- The square root in the standard deviation (gold_evo.py:56): `ReturnStats.stdPctSquared` is the square of the reported figure, that is the sample variance × 100². Its properties are proved on the variance.
- Date strings (gold_evo.py:51-52): `strftime` is replaced by the `Date` of the bar at the extremum.
- Drawing (gold_evo.py:77-85, 88, 102-116): style choice, axes, scatter markers, annotation text, tick formatting and `savefig`. These are rendering calls that receive the values `Chart` models.
- `main` (gold_evo.py:119-166) and the import guard (gold_evo.py:10-16): argument parsing, reading today's date (a parameter of `CurrentWindow` here), CSV export, console formatting and `sys.exit`.
- Floating point: prices are exact reals, with no rounding, NaN or infinity. NaN results of pandas on too-short input are `None`.
- Summarize: when the first open is non-zero, requires every close but the last to be non-zero. At a zero close followed by a non-zero one, pandas yields an infinite return, which the reals cannot represent. At a zero close followed by another zero, pandas yields NaN and `dropna()` drops it, which shortens the return series; the model does not cover that case either.
