# Close / SMA20 / RSI14 indicator engine

A Dafny model of `compute_indicators` in `test.py` and of the row selection
in its `main`. From a series of daily closing prices the engine builds a
frame of three aligned columns:

- **Close**: the input, unchanged;
- **SMA20**: `close.rolling(window=20, min_periods=20).mean()`;
- **RSI14**: from `delta = close.diff()`, `gain = delta.clip(lower=0)`,
  `loss = -delta.clip(upper=0)`, their 14-value rolling means `avg_gain`
  and `avg_loss` (with `min_periods=14`), `rs = avg_gain / avg_loss` and
  `100 - 100 / (1 + rs)`.

`main` then keeps the columns Close, SMA20, RSI14 and prints the last five
rows, or reports that nothing was downloaded.

Files:

- `floats.dfy` (module `Floats`): `Option` for a value that may be NaN, and
  `Float`, a float64 without rounding (a real, +inf, -inf or NaN) with
  IEEE-754 addition, subtraction and division, so that `x / 0` is an
  infinity or NaN and never an error.
- `series.dfy` (module `Series`): the pandas operations used, on sequences
  indexed by position: `RollingMean` with pandas' rule that a window yields a
  mean only if it holds at least `min_periods` non-NaN observations, `Diff`,
  `ClipLower`, `ClipUpper`, `Negate`, and lemmas about them.
- `indicators.dfy` (module `Indicators`): the frame, each step of the
  computation, a closed form of the RSI (100·G / (G + L)) as an independent
  reference, and the lemmas that pin down where each column has a value and
  what that value is.
- `report.dfy` (module `Report`): the column selection, `tail(5)` and the
  empty-download branch of `main`.

Series that can only hold finite values or NaN (SMA20, delta, gain, loss and
both averages) are `seq<Option<real>>`, `None` standing for NaN. The ratio
and the RSI chain can pass through infinity, so they are `Float` values and
the RSI14 column is a `seq<Float>`; `RsiRange` proves that it never actually
holds an infinity.

Two points where the code decides what a looser reading of "RSI" would not:
a run of 14 unchanged closes has no losses but yields "no value" (0/0), not
100, so `RsiAllGains` asks for at least one rise among the 14 changes; and
the comment on line 15 says "Wilder-style" while the code takes a plain
rolling mean, which is what is modelled.

## Model

| member | source | states |
|---|---|---|
| `Indicators.ComputeIndicators` | test.py:6-24 | the frame has exactly one entry per input close in every column, in input order, and its Close column is the input unchanged |
| `Series.RollingMeanFull` | test.py:13 | a rolling mean whose `min_periods` equals its window has a value at i exactly when a full window ends at i and holds no NaN, and that value is the mean of the window |
| `Indicators.SmaAt` | test.py:13 | SMA20 is "no value" at every i < 19 and, from i = 19 on, the sum of the 20 closes ending at i divided by 20 |
| `Indicators.SmaUndefinedWhenShort` | test.py:13 | with fewer than 20 closes SMA20 is "no value" everywhere |
| `Series.RollingMean` | test.py:19-20 | `rolling(window, min_periods).mean()` (also used on line 13): one entry per input position; what each entry is, for `min_periods` equal to the window, is stated by `Series.RollingMeanFull` |
| `Indicators.Sma20` | test.py:13 | the SMA20 column has one entry per close; its entries are stated by `Indicators.SmaAt` |
| `Series.Diff` | test.py:16 | `diff()` has one entry per close; that entry 0 is "no value" and entry i is close[i] - close[i-1] is stated by `Indicators.GainLossAt` |
| `Series.ClipLower` | test.py:17 | clipping keeps NaN as NaN and a value as a value; a value at or above the bound is kept and a value below it becomes the bound |
| `Series.ClipUpper` | test.py:18 | clipping keeps NaN as NaN and a value as a value; a value at or below the bound is kept and a value above it becomes the bound |
| `Indicators.Gain` | test.py:17 | one gain per close; the gains are stated by `Indicators.ChangeAt` and `Indicators.GainLossAt` |
| `Indicators.Loss` | test.py:18 | one loss per close; the losses are stated by `Indicators.ChangeAt` and `Indicators.GainLossAt` |
| `Indicators.AvgGain` | test.py:19 | one gain average per close; its entries are stated by `Indicators.AvgGainAt` |
| `Indicators.AvgLoss` | test.py:20 | one loss average per close; its entries are stated by `Indicators.AvgLossAt` |
| `Floats.Div` | test.py:21-22 | IEEE division without rounding: NaN absorbs; a finite quotient q of finite a, b with b != 0 satisfies q·b = a; a/0 is +inf, -inf or NaN as a is positive, negative or zero; finite/inf is 0; inf/inf is NaN |
| `Floats.Add` | test.py:22 | IEEE addition without rounding: NaN absorbs, inf + -inf is NaN, finite + finite is their sum, an infinity plus a finite value is that infinity |
| `Floats.Sub` | test.py:22 | IEEE subtraction without rounding: NaN absorbs, finite - finite is their difference, finite - (+inf) is -inf and finite - (-inf) is +inf, an infinity minus a finite value is that infinity |
| `Indicators.Rs` | test.py:21 | one ratio per close, each the IEEE quotient of the two averages; what it leads to is stated by `Indicators.RsiAt` and `Indicators.RsiFromAverages` |
| `Indicators.RsiOfRatio` | test.py:22 | `100 - 100 / (1 + rs)`: a NaN ratio gives NaN and an infinite ratio gives exactly 100; for finite ratios see `Indicators.RsiOfFiniteRatio` |
| `Indicators.Rsi14` | test.py:21-22 | the RSI14 column has one entry per close; its entries are stated by `Indicators.RsiAt` and `Indicators.RsiRange` |
| `Series.Negate` | test.py:18 | negation keeps NaN as NaN and negates every value |
| `Indicators.ChangeAt` | test.py:16-18 | from index 1 on, the gain is max(close[i] - close[i-1], 0) and the loss max(close[i-1] - close[i], 0) |
| `Indicators.GainLossAt` | test.py:16-18 | the change, gain and loss are "no value" at index 0; from index 1 on the change is close[i] - close[i-1], gain and loss are values, both at least 0, gain - loss is the change, and at most one of them is non-zero |
| `Indicators.AvgGainAt` | test.py:16-19 | the gain average has a value exactly from index 14 on (not 13: the change at index 0 is missing), and it is the mean of the 14 gains ending at i |
| `Indicators.AvgLossAt` | test.py:16-20 | the loss average has a value exactly from index 14 on, and it is the mean of the 14 losses ending at i |
| `Indicators.WindowsAt` | test.py:19-20 | from index 14 on, the 14 observations averaged at i are the gains and losses of the changes at i-13 .. i, in order |
| `Indicators.AveragesNonNegative` | test.py:17-20 | from index 14 on both averages are values and at least 0 |
| `Indicators.RatioChainAlgebra` | test.py:22 | for a positive loss average, 1 + g/l is positive and 100 - 100/(1 + g/l) equals 100·g/(g + l), which lies in [0, 100) |
| `Indicators.RsiOfFiniteRatio` | test.py:21-22 | with a positive loss average the ratio and the RSI chain stay finite and give the closed form 100·g/(g + l) |
| `Indicators.RsiOfInfiniteRatio` | test.py:21-22 | a zero loss average with a positive gain average makes the ratio +inf and the RSI exactly 100, the closed form's value, with no failure |
| `Indicators.RsiOfZeroOverZero` | test.py:21-22 | both averages zero make the ratio 0/0 = NaN and the RSI "no value", the closed form's value, with no failure |
| `Indicators.RsiFromAverages` | test.py:21-22 | for non-negative averages the IEEE chain `100 - 100 / (1 + g / l)` equals the closed form 100·g/(g + l), with 0/0 giving "no value" and x/0 giving 100 |
| `Indicators.RsiReferenceRange` | test.py:21-22 | the closed form is never infinite; it is "no value" exactly when both averages are 0, otherwise in [0, 100]; 0 exactly when g = 0 < l; 100 exactly when l = 0 < g |
| `Indicators.RsiAt` | test.py:16-22 | RSI14 is "no value" at every i < 14; from 14 on both averages exist and RSI14 is the closed form of them |
| `Indicators.RsiRange` | test.py:19-22 | RSI14 is never infinite and lies in [0, 100] wherever it has a value; from 14 on it is 0 exactly when the gain average is 0 and the loss average positive, 100 exactly when the loss average is 0 and the gain average positive, "no value" exactly when both are 0 |
| `Indicators.NoFallNoLoss` | test.py:16-20 | if no close among the 14 changes ending at i falls, the loss average at i is 0 |
| `Indicators.NoRiseNoGain` | test.py:16-19 | if no close among the 14 changes ending at i rises, the gain average at i is 0 |
| `Indicators.RiseGivesGain` | test.py:16-19 | one rise among the 14 changes ending at i makes the gain average at i positive |
| `Indicators.RsiAllGains` | test.py:16-22 | no fall and at least one rise among the 14 changes ending at i give RSI14 = 100 at i |
| `Indicators.RsiFlat` | test.py:16-22 | 14 unchanged closes ending at i give RSI14 "no value" at i, not an error |
| `Report.SelectColumns` | test.py:35 | the selection has one row per frame position, in order, with the columns Close, SMA20, RSI14 of that position |
| `Report.Tail` | test.py:36 | `tail(n)` has min(n, len) rows, the last ones, in their original order |
| `Report.Run` | test.py:31-36 | an empty download gives the "no data" outcome for that ticker and only then; otherwise the table has min(5, n) rows, row j being close, SMA20 and RSI14 of position n - min(5, n) + j |
| `Report.RunRows` | test.py:35-36 | each printed row carries its own close, has an SMA20 exactly from position 19 on, no RSI14 before position 14, and an RSI14 that is never infinite and lies in [0, 100] |

## Left out

- Downloading the prices (`yf.download`, test.py:30) is network I/O through a library that is not part of this model; the closes are a parameter of `Report.Run`.
- Reading the ticker from the command line with its default "AAPL" (test.py:29) and the printing (test.py:32, 36): the ticker is a parameter and the table is the result.
- The dates that index the frame: position i stands for the i-th trading day, so "same index" is "same length and order".
- Coercing a scalar or single-row `Close` into a Series (test.py:8-9) is a pandas type quirk; the input is a sequence of defined closes.
- Floating point: rounding, the drift of pandas' incremental rolling sums and signed zeros are not modelled; values are reals, with NaN and the infinities as explicit cases.
- `Series.RollingMean` does not model windows that contain an infinity; none of the series it is applied to can hold one (their type excludes it).
