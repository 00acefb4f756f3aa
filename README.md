# TubbySnowPlow treaty-layer core in Dafny

TubbySnowPlow is a small catastrophe-reinsurance simulator. It takes a
sample of simulated annual catastrophe losses and the terms of a treaty
layer (deductible, attachment point, limit), and reports how the layer
would perform. This project models the computation behind that report:

- **Layer transform** (`LayerTransform`). Each annual loss is eroded by
  the deductible (`np.maximum(losses - deductible, 0)`). The attachment is
  then subtracted, and the result is clipped to `[0, limit]` with
  `np.clip`.
- **Summary metrics** (`RiskMetrics`, `Reductions`). These are the expected
  loss (EL, the mean layer loss), the population variance behind
  `std_dev`, the coefficient-of-variation guard, the 1.55× suggested
  premium, the payout probability and the EL/limit percentage.
- **Exceedance-probability curve** (`ExceedanceCurve`). The layer losses
  are sorted ascending and then reversed. Rank `i` gets the return period
  `1 / ((i + 1) / N)`. The 1-in-200-year loss is read at rank `N / 200`
  when `N >= 200`. The curve table pairs each return period with its loss.
- **One recomputation pass** (`TreatyAssessment.Assess`). It takes raw
  losses and terms and returns a `Report`, or `InsufficientData` for an
  empty sample.

Every operation in the script is a whole-array expression or a one-shot
assignment, so the model uses pure functions over `seq<real>` plus lemmas.
Dafny's `real` is exact, so means and return periods are exact rationals.
NaN and `None` outcomes are modelled as `Option`.

Modelling choices that follow the script as written:

- The script puts no sign constraint on the treaty terms: its
  `number_input` widgets have no minimum. With a negative limit,
  `np.clip(v, 0, limit)` returns `limit`, and `LayerLoss` states exactly
  that.
- The script's `std_dev` is NumPy's default population estimator
  (`ddof = 0`), so the model's variance divides by `N`, not `N - 1`.
- The script does not require the raw losses to be non-negative (an
  uploaded column may hold any numbers), and neither does the model.

## Model

| member | source | states |
|---|---|---|
| LayerTransform.GrossLoss | tubbysnowplow.py:53 | the loss after the deductible is never negative, is zero exactly when the loss does not exceed the deductible, and otherwise is the loss minus the deductible |
| LayerTransform.Clip | tubbysnowplow.py:54 | with `lo <= hi`, `np.clip` lands in `[lo, hi]`, raises a value below `lo` to `lo`, lowers a value above `hi` to `hi` and leaves in-range values alone; with `lo > hi` it returns `hi` |
| LayerTransform.LayerLoss | tubbysnowplow.py:53-54 | with `limit >= 0` a layer loss lies in `[0, limit]`, negative raw losses included; with `limit < 0` it equals `limit`; with a non-negative attachment the layer pays exactly when `limit > 0` and the raw loss exceeds deductible + attachment |
| LayerTransform.LayerLosses | tubbysnowplow.py:53-54 | the layer-loss sequence has the raw sequence's length, entry `i` is the transform of raw loss `i` under the same terms, and every entry is in `[0, limit]` when `limit >= 0` |
| LayerTransform.LayerLossMonotone | tubbysnowplow.py:53-54 | a higher deductible, a higher attachment or a lower limit never raises a layer loss, and a larger raw loss never pays less |
| LayerTransform.LayerLossesMonotone | tubbysnowplow.py:53-54 | the same monotonicity holds year by year over the whole sample |
| LayerTransform.LayerLossIsSlice | tubbysnowplow.py:53-54 | with non-negative attachment and limit, the layer is the slice of the loss between deductible + attachment and deductible + attachment + limit |
| Reductions.CountAbove | tubbysnowplow.py:64 | the number of entries above a threshold never exceeds the sample size |
| Reductions.CountAboveNone | tubbysnowplow.py:64 | the count is zero exactly when no entry exceeds the threshold |
| Reductions.CountAboveAll | tubbysnowplow.py:64 | the count equals the sample size exactly when every entry exceeds the threshold |
| Reductions.Mean | tubbysnowplow.py:55 | `N` times the mean is the total, which fixes the mean; non-negative entries have a non-negative mean |
| Reductions.SumNonNegative | tubbysnowplow.py:55 | non-negative entries have a non-negative total |
| Reductions.SumBounds | tubbysnowplow.py:55 | entries within `[lo, hi]` put the total within `[N·lo, N·hi]` |
| Reductions.SumMonotone | tubbysnowplow.py:55 | a year-by-year smaller sample has a smaller total |
| Reductions.SumAppend | tubbysnowplow.py:55 | the total of two samples joined end to end is the sum of their totals |
| Reductions.MeanBounds | tubbysnowplow.py:55 | the mean of entries within `[lo, hi]` lies within `[lo, hi]` |
| Reductions.SumPermutation | tubbysnowplow.py:55 | the total, and hence the mean, does not depend on the order of the sample |
| Reductions.CountAbovePermutation | tubbysnowplow.py:64 | the number of paying years does not depend on the order of the sample |
| Reductions.SumZeroIffNonePositive | tubbysnowplow.py:55 | a non-negative sample totals zero exactly when no entry is positive |
| RiskMetrics.ExpectedLossBounds | tubbysnowplow.py:53-55 | with `limit >= 0` the EL lies in `[0, limit]` |
| RiskMetrics.ExpectedLossMonotone | tubbysnowplow.py:53-55 | raising the deductible or attachment never increases EL; raising the limit never decreases it |
| RiskMetrics.SquaredDeviations | tubbysnowplow.py:56 | the total squared deviation is non-negative and is zero for a sample equal to the centre |
| RiskMetrics.Variance | tubbysnowplow.py:56 | the population variance (the square of `std_dev`) is non-negative and is zero for a constant sample |
| RiskMetrics.CvSquared | tubbysnowplow.py:57 | the squared coefficient of variation is unavailable exactly when EL is zero; otherwise it times `EL^2` gives back the variance, and it is non-negative for a non-negative variance |
| RiskMetrics.SuggestedPremium | tubbysnowplow.py:63 | the 1.55 loading raises a positive EL, keeps a zero EL at zero and lowers a negative one |
| RiskMetrics.ExpectedLossZeroIffNoPayout | tubbysnowplow.py:55-64 | for non-negative layer losses, EL is zero exactly when the payout probability is zero, so the CV is unavailable exactly when no year pays |
| RiskMetrics.PayoutProbability | tubbysnowplow.py:64 | the payout probability lies in `[0, 1]`, is 0 exactly when no year pays and is 1 exactly when every year pays |
| RiskMetrics.PayoutYearsExceedRetention | tubbysnowplow.py:53-64 | with a non-negative attachment and a positive limit, the paying years are exactly the years whose raw loss exceeds deductible + attachment |
| RiskMetrics.ElRatio | tubbysnowplow.py:65 | the EL/limit percentage is unavailable exactly when the limit is zero, and otherwise is EL as a percentage of the limit |
| RiskMetrics.ElRatioBounds | tubbysnowplow.py:65 | with a positive limit and an EL in `[0, limit]`, the EL/limit percentage lies in `[0, 100]` |
| ExceedanceCurve.Insert | tubbysnowplow.py:59 | insertion adds exactly the one element (as a multiset), and the new head is the smaller of `x` and the old head |
| ExceedanceCurve.InsertAscending | tubbysnowplow.py:59 | inserting into an ascending sequence keeps it ascending |
| ExceedanceCurve.SortAscending | tubbysnowplow.py:59 | `np.sort` returns an ascending permutation of its input |
| ExceedanceCurve.Reversed | tubbysnowplow.py:59 | `[::-1]` puts entry `|s|-1-i` at position `i` and keeps the same multiset |
| ExceedanceCurve.SortedLosses | tubbysnowplow.py:59 | `sorted_losses` is a permutation of the layer losses in non-increasing order |
| ExceedanceCurve.DescendingPermutationUnique | tubbysnowplow.py:59 | any two non-increasing permutations of the same losses are equal, so the curve does not depend on tie-breaking |
| ExceedanceCurve.SortedLossesFirstIsMax | tubbysnowplow.py:59 | the first sorted loss is a layer loss and is at least every layer loss (the sample maximum) |
| ExceedanceCurve.ReturnPeriods | tubbysnowplow.py:60 | the return-period list has one entry per simulated year |
| ExceedanceCurve.ReturnPeriodsShape | tubbysnowplow.py:60 | entry `i` equals `N/(i+1)`, the first is `N`, the last is 1, and the entries strictly decrease |
| ExceedanceCurve.Loss1In200 | tubbysnowplow.py:61 | the 1-in-200 loss is present exactly when `N >= 200`, and then the rank `N / 200` is in range and the value is the sorted loss at that rank |
| ExceedanceCurve.ExceedanceAtRank | tubbysnowplow.py:59-61 | in a descending arrangement of the sample, at most `k` years exceed the loss at rank `k`, and any lower level is exceeded in more than `k` years |
| ExceedanceCurve.Loss1In200IsExceedanceLevel | tubbysnowplow.py:59-61 | the 1-in-200 loss is the empirical 0.5% exceedance level: at most `N / 200` years exceed it, and every lower level is exceeded more often |
| ExceedanceCurve.EpCurve | tubbysnowplow.py:67-70 | the curve table has one row per rank, pairing return period `i` with sorted loss `i` |
| ExceedanceCurve.EpCurveMonotone | tubbysnowplow.py:59-70 | along the curve, return periods strictly fall and losses never rise; the first row pairs period `N` with the maximum loss |
| TreatyAssessment.Assess | tubbysnowplow.py:47-70 | the pass fails exactly on an empty sample, and otherwise yields a layer sequence, sorted losses, return periods and curve, each of length `N` |
| TreatyAssessment.ReportMetrics | tubbysnowplow.py:53-65 | payout probability in `[0, 1]`; CV unavailable exactly when EL = 0; premium = 1.55 × EL; EL ratio unavailable exactly when limit = 0; with `limit >= 0`, EL in `[0, limit]`, premium ≥ EL, and CV unavailable exactly when no year pays; with `limit > 0`, EL ratio in `[0, 100]` |
| TreatyAssessment.ReportCurve | tubbysnowplow.py:53-70 | sorted losses are a non-increasing permutation of the layer losses with the same mean; return periods run from `N` to 1; the 1-in-200 loss is present iff `N >= 200`, at rank `N / 200`; curve row `i` is `(N/(i+1), sorted[i])` |
| TreatyAssessment.WorkedExample | tubbysnowplow.py:53-65 | raw losses 0, 10M, 30M, 60M under 50M xs 20M give layer losses 0, 0, 10M, 40M, EL 12.5M, payout probability 0.5, premium 19.375M, EL ratio 25%, maximum 40M and no 1-in-200 loss |
| TreatyAssessment.SingleYearExample | tubbysnowplow.py:59-70 | one year of 5M under a 10M limit gives the one-point curve `[(1, 5M)]` and no 1-in-200 loss |
| TreatyAssessment.AllZeroExample | tubbysnowplow.py:53-64 | an all-zero sample under non-negative retention and a positive limit gives EL 0, an unavailable CV, payout probability 0 and a zero maximum |

## Left out

- Streamlit presentation is not modelled: the page set-up, widgets, metric formatting, chart, historical-events table and captions (tubbysnowplow.py:1-24, 48-51, 72-101). It computes nothing.
- CSV upload parsing (`pd.read_csv(...).dropna()`, tubbysnowplow.py:26-34) is not modelled. It is pandas I/O, so the model takes the parsed sample as a `seq<real>`.
- Synthetic Gamma sampling (tubbysnowplow.py:36-45) is not modelled. It draws from unseeded global randomness, so the sample is a parameter of the model instead.
- `std_dev` itself is not modelled, because Dafny's `real` has no square root. The report carries the population variance (`std_dev` squared) and the coefficient of variation squared (`variance / EL^2`). For `limit >= 0`, EL is never negative, so the coefficient of variation is the square root of `cvSquared`. For `limit < 0`, every layer loss equals the limit, so the variance is 0.
- RiskMetrics.Variance: states non-negativity and that a constant sample has zero variance, but not the converse. The solver could not close the non-linear step from a zero sum of squares to equal entries.
- Floating-point behaviour is not modelled; exact reals and integer division are used instead. This covers rounding in `1 / ((i + 1) / N)`, `int(len * (1/200))` read as `N / 200`, and float overflow.
- Empty samples are modelled as an error rather than as the script's behaviour. A zero-byte CSV never reaches the computation: `pd.read_csv` raises, lines 33-34 catch it, `losses` stays `None` and line 99 shows the prompt. An upload whose first column is entirely blank is different. `dropna()` leaves an empty array, the check at line 47 (`losses is not None`) passes, and lines 53-65 run with `N = 0`. That gives NumPy's NaN for EL, payout probability and the ratios, plus an empty curve. `Assess` returns `InsufficientData` for that case as a whole.
- The `if loss_1_in_200:` display test (tubbysnowplow.py:80) is not modelled. It shows a computed 0.0 as "not available", but it is a presentation-layer check; the model keeps "absent" and "zero" apart.
- Exposure value, loss cost, skewness, percentiles and an explicit `max_loss` are not modelled, because the script does not compute them. The maximum is stated about the first sorted loss instead.
- Idempotence of the layer transform is not stated as a lemma. Every definition here is a mathematical function, so equal inputs give equal outputs by construction.
