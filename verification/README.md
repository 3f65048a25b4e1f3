# ACF/PACF model-order advisor

This project models the analysis core of a time-series analysis and
visualisation tool, `ACFPACFAnalyzer` in `src/analysis/acf_pacf.py`. The
analyzer computes the autocorrelation function (ACF) and the partial
autocorrelation function (PACF) of a series. It finds the lag at which each
function "cuts off", meaning it becomes insignificant and stays so. From the
two cutoffs it suggests AR, MA or ARMA model orders `(p, d, q)`. It also
turns the p-values of the augmented Dickey-Fuller (ADF), KPSS and Ljung-Box
tests into verdicts.

The numerical work of statsmodels is not modelled. Its results are inputs:
one coefficient and confidence interval per lag, the test statistics and
p-values, or the message of the exception the call raised. Reals are exact.

Modules:

- `Wrappers` (`wrappers.dfy`): `Option` for a cutoff that may be absent,
  `Result` for a statsmodels call that may raise.
- `CutoffDetector` (`cutoff.dfy`): `_find_cutoff`. The method `FindCutoff`
  keeps the source's loop with its early returns. It is proved equal to the
  recursive specification `Cutoff`. The lemmas state what a returned lag
  means: it lies in range, its window is insignificant, it is the first such
  lag, and `None` means that no scanned lag qualifies.
- `Correlograms` (`correlogram.dfy`): how `calculate_acf` and
  `calculate_pacf` package their results. Lags are numbered from 0. The
  bounds are the interval ends minus the coefficient. A failed call becomes
  the error value.
- `OrderAdvisor` (`advisor.dfy`): `suggest_arima_order`. The method keeps
  the source's if/elif chain, the Python truthiness test in the mixed case
  and the three-entry default fallback. It is proved to produce exactly the
  four-way table `DecisionTable`, because the detector never returns lag 0.
- `StationarityTests` (`stationarity.dfy`): the verdicts of
  `test_stationarity` and `ljung_box_test`. Each test's failure is kept as
  that test's own error entry.

Three points of the code's behaviour a reader may not expect:

- The boundary relaxation of the cutoff rule applies to the last two
  positions of the whole coefficient sequence (`i >= len(values) - 2`), not
  to the last two positions of the scanned range.
- The confirmation window `[i, min(i+3, len))` is never clipped when it is
  checked: for `i < len - 2` it always holds three values
  (`CutoffDetector.CutoffWindow`).
- The advisor does not reject ACF and PACF results of different lengths.
  It computes the threshold from the ACF length alone.

## Model

| member | source | states |
|---|---|---|
| `CutoffDetector.ScanLength` | src/analysis/acf_pacf.py:200 | the scan visits `min(len(values), max_order)` positions, none when `max_order <= 0`, never more than the sequence holds |
| `CutoffDetector.FindCutoff` | src/analysis/acf_pacf.py:188-208 | the loop with its early returns yields exactly the specified cutoff `Cutoff` (loop invariant: the rest of the scan still gives that value) |
| `CutoffDetector.CutoffCharacterization` | src/analysis/acf_pacf.py:200-208 | the result is `Some(k)` iff `k` is the first confirmed 1-based lag within the scanned range; it is `None` iff no scanned position passes the confirmation rule |
| `CutoffDetector.CutoffInRange` | src/analysis/acf_pacf.py:200-207 | a returned cutoff `k` satisfies `1 <= k <= len(values)` and `k <= max_order` |
| `CutoffDetector.CutoffWindow` | src/analysis/acf_pacf.py:201-207 | for a returned `k`, `values[k-1]` is insignificant; if `k-1 < len-2`, positions `k-1, k, k+1` all are, since the window is never clipped |
| `CutoffDetector.CutoffIsLeast` | src/analysis/acf_pacf.py:200-205 | no position before a returned cutoff passes the confirmation rule |
| `CutoffDetector.NoCutoffWhenAllSignificant` | src/analysis/acf_pacf.py:200-208 | if every scanned coefficient has `abs >= threshold`, the result is `None` |
| `CutoffDetector.CutoffFromWindow` | src/analysis/acf_pacf.py:200-205 | conversely, if the values from position `k-1` up to `k+1` (clipped) are insignificant and no earlier position is confirmed, the result is `Some(k)` |
| `CutoffDetector.CutoffFromSome` | src/analysis/acf_pacf.py:200-207 | the scan from position `i` returns `Some(k)` iff `k-1` is the first confirmed position at or after `i` |
| `CutoffDetector.CutoffFromNone` | src/analysis/acf_pacf.py:200-208 | the scan from position `i` returns `None` iff no position from `i` on is confirmed |
| `Correlograms.Package` | src/analysis/acf_pacf.py:44-55 | every column has one entry per lag; lags are `0..len-1`; each bound added back to the coefficient gives the interval end; the raw interval is kept |
| `Correlograms.CalculateAcf` | src/analysis/acf_pacf.py:22-57 | `alpha` defaults to 0.05; a result is packaged iff statsmodels succeeded; a failure becomes an ACF error carrying the message |
| `Correlograms.CalculatePacf` | src/analysis/acf_pacf.py:59-97 | the same for the PACF; the result also records the estimation method, `ywm` by default |
| `Correlograms.BandOffsetsAreHalfWidth` | src/analysis/acf_pacf.py:44-46 | an interval `coefficient -/+ w` at lag `k` is packaged as bounds `-w` and `+w` at that lag: a band centred on zero |
| `Correlograms.BoundsLocateCoefficient` | src/analysis/acf_pacf.py:84-85 | a coefficient lies inside its interval iff its lower bound is `<= 0` and its upper bound `>= 0` |
| `OrderAdvisor.DropLagZero` | src/analysis/acf_pacf.py:114-115 | the remaining entry `i` is the coefficient at lag `i+1`; an empty array stays empty |
| `OrderAdvisor.SuggestArimaOrder` | src/analysis/acf_pacf.py:99-186 | `max_order` defaults to 5; both cutoffs are the detector's results on the coefficients without lag 0; the threshold is returned unchanged; the if/elif chain with truthiness test and fallback yields exactly the four-way decision table; exactly one suggestion is made, so the list is never empty and the fallback is never taken |
| `OrderAdvisor.SuggestionShapes` | src/analysis/acf_pacf.py:128-159 | every suggestion has `d = 0`; AR has `p >= 1, q = 0`; MA has `p = 0, q >= 1`; ARMA has `p, q >= 1` |
| `OrderAdvisor.SuggestedOrdersBounded` | src/analysis/acf_pacf.py:122-159 | every `p` or `q` taken from a cutoff is `<= max_order`; with `max_order >= 1` no suggested order exceeds it |
| `OrderAdvisor.MixedCaseAlwaysTruthy` | src/analysis/acf_pacf.py:153-159 | when both cutoffs are present, both are non-zero, so the truthiness test `pacf_cutoff and acf_cutoff` always holds |
| `OrderAdvisor.AllSignificantGivesArma11` | src/analysis/acf_pacf.py:144-150 | if every scanned ACF and PACF coefficient is significant, the only suggestion is the tail-off ARMA(1, 0, 1) |
| `StationarityTests.AdfVerdict` | src/analysis/acf_pacf.py:222-233 | ADF `is_stationary` iff `p < 0.05`; the interpretation agrees with it; statistic, p-value and critical values are kept; a failure becomes its error entry |
| `StationarityTests.KpssVerdict` | src/analysis/acf_pacf.py:235-246 | KPSS `is_stationary` iff `p > 0.05`; the interpretation agrees with it; a failure becomes its error entry |
| `StationarityTests.TestStationarity` | src/analysis/acf_pacf.py:210-248 | both keys `adf` and `kpss` are always present; each entry is an error iff its own test failed, whatever the other test did |
| `StationarityTests.OppositePolarity` | src/analysis/acf_pacf.py:229-243 | for the same p-value, ADF and KPSS never both say stationary; they agree only at `p = 0.05`, where both say non-stationary |
| `StationarityTests.AllAbove` | src/analysis/acf_pacf.py:268 | `all(p > level)` holds iff every p-value exceeds the level |
| `StationarityTests.LjungBoxTest` | src/analysis/acf_pacf.py:250-272 | `lags` defaults to 10; the columns match the table row by row; lags are `1..lags`; `is_white_noise` iff every p-value is above 0.05; the interpretation agrees with it; a failure becomes the error result |
| `StationarityTests.WhiteNoiseAtFewerLags` | src/analysis/acf_pacf.py:262-268 | white noise over a table implies white noise over any prefix of it, that is, over fewer lags |

## Left out

- The statsmodels routines `acf`, `pacf`, `adfuller`, `kpss` and `acorr_ljungbox` are floating-point numerics in a foreign library. Their outputs are parameters, and so are the messages of the exceptions they raise.
- `OrderAdvisor.SuggestArimaOrder`: does not compute `1.96 / np.sqrt(n)`. It takes the threshold as a parameter and requires it to be the positive root of `t * t * n = 1.96 * 1.96` when `n > 0`. For `n = 0`, numpy yields infinity, and the threshold is left unconstrained.
- The explanation and interpretation texts are Chinese strings. They appear as the datatypes `Explanation`, `Interpretation` and `NoiseInterpretation`, which record the pattern and the lags that each text mentions.
- Floating point is not modelled. Reals are exact, so NaN coefficients and p-values, and the binary rounding of `0.05` and `1.96`, are not covered.
- `nlags` (default 40) of `calculate_acf` and `calculate_pacf` is passed only to statsmodels. It decides how many estimates arrive, so it is not a parameter of the model.
- The `confidence_level` field set in the analyzer's constructor is never read by the core, so it is not modelled.
- `data.dropna()` before each test is part of the input the statsmodels outputs are computed from, so it is not modelled.
- Series loading, preprocessing, plotting, the Streamlit interface and the package re-exports are not part of this model.
