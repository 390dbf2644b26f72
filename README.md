# Capital-budgeting metrics engine, modelled in Dafny

This project models `calculate_metrics`, the function that turns one set of
financial inputs into capital-budgeting metrics. The inputs are the
investment capital I, the lifespan T, the yearly revenue and cost lists, the
WACC and the tax rate, both given in percent. The function works in six steps:

1. It pads the caller's revenue and cost lists in place to T entries. Each
   short list is extended by repeating its last element.
2. It builds the after-tax cash-flow series. Year 0 is `-I`. Year i is
   `(R[i-1] - C[i-1]) * (1 - tax)`.
3. It computes the NPV at `k = wacc / 100`.
4. It builds the discounted series. Year i is divided by `(1+k)^i`, and year 0
   is copied unchanged.
5. It takes the running sums of both series.
6. It finds the Payback Period (PP) and the Discounted Payback Period (DPP).
   Each is a search for the first year after year 0 in which the running sum
   is non-negative. The result is interpolated inside that year.

Amounts are Dafny `real`s, which are exact rationals. The model therefore
proves exact identities and says nothing about floating-point rounding.

Files:

- `cash_flow_math.dfy` (module `CashFlowMath`): `Sum`, running sums (numpy's
  `cumsum`), `Pow`, and `Npv`. `Npv` is the defining sum
  `Σ cf[t] / (1+k)^t` for t = 0..T, which is what numpy's `npv` computes. The
  module also has the discounted-series predicate and the lemmas that connect
  these definitions.
- `payback_search.dfy` (module `PaybackSearch`): the first-crossing search, as
  a reference function and as the `for … break` loop, plus the lemmas about
  the payback value.
- `metrics_engine.dfy` (module `MetricsEngine`): the input record as a class
  whose revenue and cost lists are padded in place, the two series-building
  loops, and the whole engine.

Edge cases, as the code handles them:

- **Zero divisor at the crossing year.** The code does not guard it (it does
  not, say, return `i - 1`). It divides anyway, and numpy yields inf or nan. The model
  returns `DivisionByZero` and proves when this can happen: only when
  `I <= 0`, and only at year 1.
- **Lists longer than T.** The code does not truncate them. The model keeps
  them unchanged and proves that only their first T entries are read.
- **Empty revenue or cost list with T >= 1.** The code has no up-front input
  validation. It fails with an `IndexError` from `R_array[-1]`, and the model
  returns that error. Revenue is padded before cost is checked, so when the
  cost list is the one that is empty, the revenue list has already been
  extended.
- **T <= 0.** The code does not reject it. `range(T)` is then empty, so the
  series is `[-I]` and both paybacks are undefined.

## Model

| member | source | states |
|---|---|---|
| `MetricsEngine.Repeat` | python.py:155 | `[x] * n` has length n and every entry equals x |
| `MetricsEngine.Padded` | python.py:153-157 | a list shorter than T ends up with length T, its original prefix unchanged and every added entry equal to the original last element; a list of length >= T is returned unchanged (no truncation); defined only when the list is non-empty or no padding is needed |
| `MetricsEngine.FinancialInputs.PadToLifespan` | python.py:153-157 | pads revenue and then cost in place; an empty list with T >= 1 gives `IndexError` for that list; a cost error leaves revenue already padded; fields other than the two lists do not change |
| `MetricsEngine.BuildCashFlows` | python.py:159-166 | the series has length T+1, index 0 is `-I`, and index i in 1..T is `(R[i-1]-C[i-1])*(1-tax)`; list entries at or beyond T are never read |
| `MetricsEngine.Discount` | python.py:193-198 | the result is the discounted series of the cash flows: same length, index 0 copied, index i >= 1 equal to `cf[i]/(1+k)^i` |
| `MetricsEngine.NetCashFlow` | python.py:164-165 | the after-tax net flow `(R - C) * (1 - tax)`: with no tax it is R - C; with a tax rate below 100% it is positive exactly when revenue exceeds cost and zero exactly when they are equal |
| `MetricsEngine.ComputeMetrics` | python.py:159-211 | on lists already padded to T, the result satisfies `IsMetricsOf`: the cash flows have the shape above; npv is the defining NPV sum; the discounted series is as defined; both running sums are `np.cumsum` of their series; pp and dpp are the first-crossing values over them |
| `MetricsEngine.MetricsFacts` | python.py:171-211 | for any metrics satisfying `IsMetricsOf`: the last discounted running sum equals the NPV; when I > 0 neither payback divides by zero and each defined one lies in (0, T]; when k = 0 the discounted series equals the nominal one and dpp = pp |
| `MetricsEngine.CalculateMetrics` | python.py:140-234 | the result is an error exactly when padding fails. The error names the list: `IndexError(AnnualRevenue)` leaves both lists unchanged, and `IndexError(AnnualCost)` leaves revenue already padded and cost unchanged. Otherwise both lists are padded in place, the result satisfies `IsMetricsOf` on the padded lists, and the facts of `MetricsFacts` hold for it |
| `CashFlowMath.PrefixSums` | python.py:181 | `np.cumsum` (also used at line 201) keeps the length, starts at s[0], and ends at the total sum |
| `CashFlowMath.PrefixSumsIsRunningSum` | python.py:181 | each running sum after the first is the previous running sum plus the next cash flow |
| `CashFlowMath.PrefixSumsAreSums` | python.py:201 | running-sum entry i is the sum of entries 0..i |
| `CashFlowMath.Npv` | python.py:171 | `np.npv(k, cf)` as its defining sum Σ cf[t]/(1+k)^t over every year t of the series: a single year-0 flow is not discounted, and with 1+k > 0 non-negative flows give a non-negative NPV |
| `CashFlowMath.Pow` | python.py:197 | `(1+k)**i` is non-zero when 1+k is non-zero, and positive when 1+k is positive |
| `CashFlowMath.PowOfOne` | python.py:197 | `1**i == 1`, the basis of the zero-rate identities |
| `CashFlowMath.DiscountedSumIsNpv` | python.py:171 | the sum of the discounted series, and so the last entry of its running sum (python.py:201), equals `np.npv(k, cash_flows)` |
| `CashFlowMath.ZeroRateDiscountIsIdentity` | python.py:194-198 | with k = 0 the discounted series equals the nominal series |
| `CashFlowMath.ZeroRateNpvIsSum` | python.py:171 | with k = 0 the NPV is the plain sum of the cash flows |
| `CashFlowMath.ConstantFlowSum` | python.py:160-166 | an outlay -I followed by n equal flows ncf sums to -I + n*ncf |
| `CashFlowMath.ConstantFlowNpvAtZeroRate` | python.py:160-171 | with k = 0 and a constant yearly net flow ncf over n years, NPV = -I + n*ncf |
| `PaybackSearch.FirstNonNegative` | python.py:183-185 | returns the first index >= from whose running sum is non-negative (all earlier candidates are negative), and None exactly when every candidate is negative |
| `PaybackSearch.CrossingValue` | python.py:187-190 | the interpolation `(i-1) + abs(cum[i-1])/cf[i]` at crossing year i (also lines 207-210); it is the zero-divisor outcome exactly when cf[i] = 0, and otherwise the fraction past year i-1 times cf[i] equals the amount still owed, abs(cum[i-1]) |
| `PaybackSearch.PaybackOf` | python.py:183-191 | the value both search loops yield (also lines 204-211): undefined exactly when every running sum from index 1 on is negative; the zero-divisor outcome exactly when the first non-negative index has a zero cash flow |
| `PaybackSearch.FirstCrossing` | python.py:182-191 | the loop skips index 0 and breaks at the first non-negative running sum; the result is undefined exactly when every running sum from index 1 on is negative; otherwise it is `(i-1) + abs(cum[i-1])/cf[i]` at that first index, or the zero-divisor outcome |
| `PaybackSearch.PaybackWithinCrossingYear` | python.py:185-190 | with a strictly negative year-0 flow, the cash flow of the crossing year i is positive, so the divisor is non-zero, and the payback lies in (i-1, i] |
| `PaybackSearch.PaybackBounds` | python.py:183-191 | with I > 0 the payback of a series over its running sums never divides by zero, and a defined payback lies in (0, T]; this holds for PP and for DPP |
| `PaybackSearch.DivisionByZeroOnlyWithoutOutlay` | python.py:187-190 | the divisor is zero only when the year-0 flow is >= 0 (I <= 0), the crossing is at year 1, and the year-1 flow is 0 |
| `PaybackSearch.CrossingExample` | python.py:183-191 | cash flows -100, 60, 60, 60 have running sums -100, -40, 20, 80 and pay back in 1 + 40/60 years |
| `PaybackSearch.NoPaybackExample` | python.py:183-191 | cash flows -100, 10, 10, 10 never pay back (the result is None) |

## Left out

- IRR (`np.irr`, python.py:173-176) is left out. It is a library root-finder that returns a float or NaN, with no exact specification to model. `Metrics` has no IRR field.
- The LLM extraction and analysis calls are left out. These are network I/O with a retry and back-off loop.
- Reading uploaded files is left out. It is file I/O.
- The Streamlit UI and session state are left out. This covers widgets, formatting and the `if metrics['pp']` display test.
- The display dictionary `cash_flow_df` (python.py:214-223) is left out, together with its year, investment, revenue and cost echo columns. Its four series columns are carried in `Metrics` as `cashFlows`, `discounted`, `cumulative` and `cumulativeDiscounted`.
- Floating-point behaviour is not modelled: rounding in `(1+k)**i` and in the divisions, and the exact inf and nan values. A zero divisor at the crossing is represented by the single outcome `DivisionByZero`.
- MetricsEngine.CalculateMetrics: requires `wacc_percent != -100`. When 1+k = 0, the code divides by `0**i` and produces non-finite floats, which this model does not represent. Any other rate is allowed, including negative values of 1+k, because the exponents are integers.
- `data` is a typed record, so the `KeyError` for a missing dictionary key and non-numeric field values are not modelled.
- The model does not capture aliasing of the revenue and cost lists. The two lists are separate fields, so one Python list passed as both is not represented.
- The model assumes a NumPy that still provides `np.npv`. It was removed from NumPy in version 1.20, and `np.irr` with it. On such a NumPy, line 171 raises `AttributeError` outside any `try`, and the whole function fails. That failure is not modelled.
- MetricsEngine.ComputeMetrics: requires `wacc_percent != -100` for the same reason as CalculateMetrics.
