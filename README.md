# covidplots: smoothing and location aggregation

This project models the arithmetic core of `covid.py`, a script that plots daily
COVID-19 case counts for the USA, Colorado and Boulder County from the Johns Hopkins
time-series table. The model covers two things:

- **`backward_moving_average`**. It forms the prefix sums `C` of a series. The first
  value is the boundary `C[lag-1]/lag`. The rest are the differences
  `(C[lag:] - C[:-lag])/lag`. These are paired with `x[lag-1:]`.
- **`plot_data`, without the drawing.** It picks a location's cumulative series:
  - Boulder County is the first row whose `Admin2` is `Boulder`.
  - Colorado and the USA start from a zero vector and add up every matching row.
  - Any other name is a `ValueError`.

  It then takes the daily changes (`np.diff`) and shifts each x axis so that the
  latest day is at 0. It computes one smoothed line per window. The model returns the
  curves that would be drawn, as a `Chart` value, instead of mutating a matplotlib axis.

The table is an already-parsed `seq` of rows, and the numbers are exact (`int`, `real`).
Exceptions are values of `Result`: `IndexError` where numpy indexes an empty or too
short array, `ValueError` for an unknown location.

Modules (one file each):

- `Wrappers` (`wrappers.dfy`): `Error` and `Result`.
- `Vectors` (`vectors.dfy`): the numpy operations used (`s[i:]`, `arange`, `zeros_like`,
  `+`, `diff`, `cumsum`) and their sum facts.
- `Smoothing` (`smoothing.dfy`): `backward_moving_average`.
- `Table` (`table.dfy`): rows, `np.where`, column totals.
- `Location` (`location.dfy`): the `if`/`elif` selection chain and the accumulation loop.
- `Plot` (`plot.dfy`): the bars, the smoothed lines and `plot_data` itself.

Main results:

- Every smoothed value `k` is the mean of `y[k..k+lag]`.
- Composed with `np.diff`, the smoothed value `k` of the daily changes is
  `(y[k+lag] - y[k]) / lag`.
- The state and country aggregate equals the column totals over all matching rows.
- Every x axis counts days back to 0.

## Model

| member | source | states |
|---|---|---|
| Smoothing.BackwardMovingAverage | covid.py:10-13 | fails with IndexError exactly when lag exceeds the length of y; otherwise the x values are `x[lag-1:]` and there are `len(y) - lag + 1` smoothed values |
| Smoothing.WindowValues | covid.py:12-13 | the vector `np.r_[C[lag-1]/lag, (C[lag:] - C[:-lag])/lag]` has `len(C) - lag + 1` values, and value k is the prefix-sum difference around the window ending at `k+lag-1`, divided by lag |
| Smoothing.WindowMeanAt | covid.py:11-13 | smoothed value k is the mean of the `lag` inputs `y[k] .. y[k+lag-1]`, both for the boundary value and for the prefix-sum differences |
| Smoothing.WindowMeans | covid.py:11-13 | for x and y of equal length, there are as many x values as smoothed values, value k sits at `x[k+lag-1]`, and it is the mean of the window of `lag` inputs that ends there |
| Smoothing.FirstIsLeadingMean | covid.py:11-13 | the boundary value `C[lag-1]/lag` is the mean of the first `lag` inputs |
| Smoothing.ConstantIsFixed | covid.py:11-13 | a constant input gives every smoothed value equal to that constant |
| Smoothing.WholeWindow | covid.py:11-13 | a window as wide as the series gives exactly one point, the overall mean, at the last x |
| Smoothing.SevenDayExample | covid.py:10-13 | inputs 1..7 with a 7-day window give the single value 4 |
| Smoothing.PrefixDifference | covid.py:11-13 | the prefix-sum difference read for output k equals the sum of the window `y[k..k+lag]` |
| Vectors.CumSum | covid.py:11 | `cumsum` keeps the length of its input; its elements are the prefix sums (see `Vectors.CumSumIsPrefixSum`) |
| Vectors.Diff | covid.py:45 | `np.diff` has one value fewer than its input, none for an empty input, and adding value i to `y[i]` gives `y[i+1]` |
| Vectors.CumSumIsPrefixSum | covid.py:11 | element i of `cumsum` is `y[0] + ... + y[i]` |
| Vectors.WindowSum | covid.py:12 | the difference of two prefix sums is the sum of the inputs between them |
| Vectors.DiffWindowSum | covid.py:45 | the daily changes over a stretch add up to the change of the cumulative count across it |
| Vectors.CumSumOfDiff | covid.py:45-48 | `cumsum` undoes `diff`: the running totals of the daily changes are the cumulative counts less the first |
| Vectors.SumConstant | covid.py:11-13 | a window of equal values sums to its length times the value |
| Vectors.MeanConstant | covid.py:11-13 | a window of equal values has that value as its mean |
| Vectors.SumSplit | covid.py:11-12 | a sum splits into the sums of the two parts at any point |
| Table.Where | covid.py:27-35 | the positions `np.where` returns are rows of the table |
| Table.WhereSorted | covid.py:27-35 | `np.where` lists only matching rows, in strictly ascending order |
| Table.WhereComplete | covid.py:27-35 | every matching row is listed by `np.where` |
| Table.WhereHead | covid.py:27-36 | the lookup result is empty exactly when no row matches, and otherwise its head is the first matching row |
| Table.WhereTotal | covid.py:30-38 | adding up column j over the rows `np.where` lists equals the total of column j over every matching row |
| Location.Select | covid.py:26-40 | the result is a ValueError exactly when the location is not one of the three known names |
| Location.CountySeries | covid.py:26-28 | the county series exists exactly when some row's Admin2 is Boulder, and is otherwise an IndexError; it is the series of the first such row |
| Location.MatchTotal | covid.py:29-38 | a state or country total exists exactly when some row has that name, and is otherwise an IndexError; it has one value per date column, the total of that column over all matching rows |
| Location.AddRowStep | covid.py:32-38 | adding the next matching row's series keeps y equal to the total of the rows processed so far |
| Location.SumMatchingRows | covid.py:30-38 | the loop that starts from zeros and adds each matching row yields, for each date column, the total over all matching rows; with no matching row it fails with IndexError |
| Location.LocationSeries | covid.py:26-40 | the `if`/`elif` chain returns exactly the selected series or error |
| Location.CountyIsFirstMatch | covid.py:26-28 | Boulder County is the series of the first row whose Admin2 is Boulder; with no such row it fails with IndexError |
| Location.RegionIsColumnTotal | covid.py:29-38 | Colorado and the USA are the elementwise totals of all rows of that state or country; with no such row they fail with IndexError |
| Location.TwoCountyExample | covid.py:29-45 | two Colorado counties with counts 10,12,15 and 5,5,8 add up to 15,17,23, whose daily changes are 2 and 6 |
| Plot.ShiftToLast | covid.py:45-49 | `x - x[-1]` fails with IndexError exactly on an empty x; otherwise it has the length of x, keeps every gap `x[i] - x[j]`, ends at 0, and so holds `x[i] - x[-1]`; it is non-positive when x ascends |
| Plot.DailyCurve | covid.py:42-45 | the bars exist exactly when the series has two or more days; they are the daily changes `y[i+1] - y[i]`, unclamped, at x offsets that count back to 0 |
| Plot.SmoothedCurve | covid.py:47-49 | a smoothed line exists exactly when the window is shorter than the series; its point k is `(y[k+lag] - y[k]) / lag` and its x offsets count back to 0 |
| Plot.SmoothedLineOf | covid.py:48-49 | the moving average of the daily changes telescopes to the change across each window divided by its width |
| Plot.SmoothedDays | covid.py:48-49 | the kept x values `arange(n)[lag-1:]`, shifted by the last one, count back to 0 |
| Plot.SmoothedValueAt | covid.py:45-48 | a window mean of the daily changes is the change across the window divided by its width |
| Plot.PlotSeries | covid.py:42-51 | the chart is drawn exactly when the series has two or more days and every window fits; it then holds the bars, one smoothed line per window in order, and the title "location cases" |
| Plot.PlotData | covid.py:24-51 | an unknown location or a missing row fails with that error before anything is drawn; otherwise the outcome is that of plotting the selected series |
| Plot.DefaultWindowsNeedEightDays | covid.py:24 | with the default windows 3 and 7, a chart is drawn exactly when the selected series covers at least eight days |

## Left out

- Downloading the CSV with `urllib` and writing it to disk (covid.py:16-18). This is network and file I/O.
- Parsing with `pd.read_csv` (covid.py:19). The table is given as an already-parsed sequence of rows.
- Row lookup through `df.iloc` and `.values` is modelled as plain indexing.
  - Each row's cells are given as numbers by column position.
  - The text columns before the first date column are never summed, because they are sliced away first.
  - A rectangular table (every row the same width) is a precondition, as for any data frame.
- All matplotlib work: the figure, `fill_between`, `plot`, titles, limits, legends, `savefig`, `show` (covid.py:21, 45, 49, 51, 58-67). The model returns the drawn data as a `Chart` value instead.
  - The bar style, colours and labels are not modelled.
  - If a later window fails, the source has already drawn the earlier lines on the axis. That partial drawing is not modelled: the run ends with the exception either way.
- The three top-level calls and the shared axis settings (covid.py:54-67) are script glue and rendering. They are not part of this model.
- Floating point is not modelled. The `astype(np.float)` cast and the division by `lag` are exact `real` arithmetic here, so there is no rounding.
- `np.float` no longer exists in current numpy releases (1.24 and later). The model treats the cast as a plain conversion to numbers.
- `print` progress messages (covid.py:16, 25) have no effect on the result.
- Smoothing.BackwardMovingAverage: requires `lag >= 1`, and its callers pass only 3 and 7. With `lag = 0` the source does not divide at all for two or more inputs: `cum_sum[:-0]` is empty, and subtracting it from `cum_sum[0:]` is a `ValueError` (shapes do not broadcast). For one input the broadcast succeeds and `cum_sum[-1]/0` gives `inf` or `nan` with a warning, not an exception. For an empty input `cum_sum[-1]` is an `IndexError`. These cases are not modelled.
- Smoothing.BackwardMovingAverage: the window is a `nat`, so negative windows are excluded. Python would accept them and slice from the end.
