# Marginal main-effect estimator, modelled in Dafny

This project models `MarginalExplainer` from `marginal.py`. It is a
Monte-Carlo estimator of the main effect of each feature of a black-box
model on individual examples. The estimator is configured with a model, a
background dataset, a sample budget `nsamples`, a dependence mode
(`independent` / `dependent`) and a representation (`mobius` /
`comobius` / `average`). For every example and every requested feature,
`explain` does the following:

- splits the budget into batches of at most `batch_size`;
- draws that many background rows for each batch;
- builds the Möbius matrix (background rows carrying the target's value at
  the feature), the co-Möbius matrix (the target carrying each background
  row's value at the feature), or both;
- sums the model's score differences batch by batch;
- divides the total by `nsamples`.

Modules. `Config`, `Construct`, `Batching`, `Sampler` and `Estimator`
mirror the parts of `MarginalExplainer`. `Wrappers`, `Matrices`,
`Contributions` and `Properties` are supporting modules.

- `Wrappers` (`wrappers.dfy`): the `Option` and `Result` types.
- `Matrices` (`matrices.dfy`): rows as `seq<real>`, matrices as sequences
  of rows, and the model as a function `Row -> real`. A batch's score is
  the sum of its rows' scores.
- `Config` (`config.dfy`): the constructor's validation.
- `Construct` (`construct.dfy`): the Möbius and co-Möbius matrices. A
  feature is one column (`Single`, an integer index) or a pair of columns
  (`Pair(a, b)`, the index list or array `[a, b]`, which numpy treats as
  fancy indexing).
- `Batching` (`batching.dfy`): the partition
  `range(0, nsamples, batch_size)`.
- `Sampler` (`sampler.dfy`): background sampling. The random draw is an
  index sequence the caller supplies.
- `Contributions` (`contributions.dfy`): the contribution of one background
  row to a main effect, and the sum of these contributions over a batch.
  This is the reference definition the batch differences are checked
  against.
- `Estimator` (`explain.dfy`): the per-batch difference, the batch loop,
  the loops over features and examples, and `explain` itself.
- `Properties` (`properties.dfy`): properties that link these parts.

The central fact is the contract of `Estimator.BatchDifference`. Every
batch difference is a sum of per-row contributions. For co-Möbius, the term
`number_to_draw * f(x)` pairs one `f(x)` with each drawn row. So a cell
is the mean contribution over all `nsamples` drawn rows. The other
properties follow from this:

- batch-size invariance;
- zero effect for a model that ignores the feature;
- the averaging identity;
- the closed form for the sum-of-inputs model.

How the model departs from the code:

- **Random draws.** `np.random.choice(nsamples, n, replace=False)` is
  replaced by `draws[j][k][b]`. This is the index sequence for example
  `j`, feature `k` and batch `b`. It must have the batch's size, hold
  distinct values, and stay below `nsamples`.
- **Dependent sampling.** As written, the dependent branch of
  `_sample_background` reads `sample_indices` before assigning it, so
  Python raises (`UnboundLocalError`) as soon as a batch runs. The model
  returns `Failure(SamplingFailed(UnboundSampleIndices))` there. Every
  batch raises in dependent mode (marginal.py:70), so the zero-effect
  lemmas are stated for successful results.
- **Unchecked budget.** The docstring (marginal.py:19) puts no sign
  condition on `nsamples`, and the constructor checks only
  `len(data) < nsamples` (marginal.py:35). `NewExplainer` accepts any
  budget up to `|data|`, zero and negative budgets included, just as the
  code does.
- **Draw sizes.** `np.random.choice(nsamples, n, replace=False)` raises
  `ValueError` when `n` is negative or above `nsamples`. The model reports
  this as `InvalidDrawSize`.
- **Zero batch size.** `batch_size == 0` makes `range` raise before the
  first batch. This is modelled as `ZeroBatchSize`, and it happens only
  when there is at least one example and one feature.
- **Negative batch size.** With a positive budget, a negative
  `batch_size` gives an empty range, so every cell is 0. With a negative
  budget the range is not empty. Its first batch asks for
  `min(nsamples, batch_size) < 0` rows, and sampling raises: `ValueError`
  in independent mode, `UnboundLocalError` in dependent mode.
- **Negative budget.** With a positive `batch_size` and a negative
  budget the range is empty, so every cell is `0 / nsamples = 0`.

## Model

| member | source | states |
|---|---|---|
| Config.NewExplainer | marginal.py:29-49 | Construction succeeds exactly when `nsamples <= len(data)` and both tags are recognised. Errors are reported in the code's order: budget first, then dependence, then representation. A budget equal to the data size is accepted. On success the model, data, budget and tags are stored unchanged. |
| Config.ParseDependence | marginal.py:38-40 | Only `independent` and `dependent` are recognised. A recognised tag maps to the mode whose tag it is. |
| Config.ParseRepresentation | marginal.py:47-49 | Only `mobius`, `comobius` and `average` are recognised. A recognised tag maps to the mode whose tag it is. |
| Config.DependenceTagRoundTrip | marginal.py:38-40 | Parsing a mode's tag gives back that mode. |
| Config.RepresentationTagRoundTrip | marginal.py:47-49 | Parsing a representation's tag gives back that representation. |
| Config.DefaultsAccepted | marginal.py:11-49 | With the default `independent` / `mobius` arguments, construction succeeds whenever the data covers the budget. |
| Construct.MobiusVector | marginal.py:89-90 | One row per background sample, and each row keeps its width. Columns of the feature hold the target's values. Every other cell is the background sample's. |
| Construct.ComobiusVector | marginal.py:92-95 | One row per background sample, each as wide as the target. Columns of the feature hold that background row's values. Every other cell is the target's. |
| Construct.ConstructSampleVector | marginal.py:97-102 | `mobius` returns only the Möbius matrix, `comobius` only the co-Möbius matrix, and `average` returns the pair (Möbius, co-Möbius). |
| Construct.ComobiusIsSwappedMobius | marginal.py:89-95 | Each co-Möbius row is the Möbius construction with target and background row exchanged. |
| Construct.MobiusIdempotent | marginal.py:89-90 | Applying the Möbius construction to its own output changes nothing. |
| Construct.MobiusFixesAgreeingRows | marginal.py:89-90 | Background rows that already carry the target's values in the feature's columns are returned unchanged. |
| Batching.BatchSizesFrom | marginal.py:131-132 | Every batch size is between 1 and `batch_size`. The sizes from an offset sum to what remains of the budget. There are none exactly when the offset has reached the budget. |
| Batching.BatchSizes | marginal.py:131-132 | For a positive `batch_size` and a budget of at least 0, the sizes sum to exactly `nsamples`, and none exceeds `nsamples`. There are none when the budget is not positive. A step that is not positive gives none either; `CellEffect` handles those steps. |
| Batching.BatchSizesFromMatchRange | marginal.py:131-132 | Batch `b` sits at offset `offset + b*batch_size` and has size `min(nsamples, i + batch_size) - i`. The number of batches is the least count whose full batches cover the rest of the budget. |
| Batching.BatchSizesMatchRange | marginal.py:131-132 | The batches of `explain` follow `range(0, nsamples, batch_size)`. Every batch except the last is full, and the number of batches is the ceiling of `nsamples / batch_size`. |
| Sampler.Gather | marginal.py:65 | `data[idx]` has one row per index, and each row is the data row at that index. |
| Sampler.SampleBackground | marginal.py:63-72 | Independent sampling succeeds exactly when `0 <= n <= nsamples`, the sizes `np.random.choice` accepts without replacement, and otherwise fails with `InvalidDrawSize`. On success it returns the rows at the drawn indices, all from the first `nsamples` rows. Dependent sampling always fails with the unbound-index error. |
| Sampler.DrawFitsBudget | marginal.py:64 | A draw without replacement of `n` indices below `bound` exists only if `n <= bound`. |
| Sampler.DrawExists | marginal.py:64 | Every `n <= bound` admits such a draw. |
| Estimator.BatchDifference | marginal.py:136-149 | In every representation, the batch difference equals the sum of the per-row contributions of the batch's rows (`Contributions.SumContributions`). Möbius gives `f(row with target's feature) - f(row)`, co-Möbius `f(x) - f(x with row's feature)`, and `average` the mean of the two. |
| Estimator.Accumulate | marginal.py:131-151 | The batch loop fails exactly when some batch runs in dependent mode. Otherwise it returns the sum of the per-batch differences. |
| Estimator.CellEffect | marginal.py:131-153 | A cell fails exactly in three cases: a zero step; a positive step and budget in dependent mode; or a negative step and budget, whose first batch asks for a negative number of rows. It reports the error raised first. Otherwise it is the sum of its per-batch differences divided by `nsamples`. |
| Estimator.ExplainRow | marginal.py:130-153 | One value per requested feature, each being that feature's cell. It fails exactly when some cell fails. |
| Estimator.ExplainRows | marginal.py:129-153 | One result row per example, each as long as the feature list, and every cell as in `CellEffect`. |
| Estimator.Requested | marginal.py:120-121 | A given feature list is used as it is. When it is omitted, every column is requested as a single feature, in column order. |
| Estimator.AllFeatures | marginal.py:120-121 | The default feature list is `Single(0) .. Single(F-1)`, and all of them are in range. |
| Estimator.Explain | marginal.py:104-154 | The result has `rows(X)` rows and `len(feature_indices)` columns, or `F` columns when the list is omitted. Each cell is the sum of its per-batch differences over `nsamples`. It fails exactly when there is a cell and that cell fails. |
| Contributions.MobiusDifferenceIsRowSum | marginal.py:136-137 | The Möbius batch difference is the sum over drawn rows of `f(row with target's feature) - f(row)`. |
| Contributions.ComobiusDifferenceIsRowSum | marginal.py:138-144 | `number_to_draw * f(x) - sum f(co-Möbius)` is the sum over drawn rows of `f(x) - f(x with the row's feature)`. |
| Contributions.AverageContributionsAreMean | marginal.py:145-149 | For each row, the `average` contribution is the mean of its Möbius and co-Möbius contributions. |
| Properties.AverageDifferenceIsMean | marginal.py:145-149 | On the same draws, the `average` batch difference is half of (Möbius difference + co-Möbius difference). |
| Properties.DrawnRowsAreGatheredFlatten | marginal.py:131-133 | The rows drawn across a cell's batches are the data rows at the concatenated indices. |
| Properties.DrawnRowsCount | marginal.py:131-133 | A cell draws exactly as many rows as its batch sizes add up to. |
| Properties.BatchDifferencesAreContributions | marginal.py:131-151 | The accumulated per-batch differences equal the summed contributions of all rows drawn for the cell. |
| Properties.CellIsMeanContribution | marginal.py:131-153 | In independent mode with a positive step, a cell succeeds. It is the mean contribution over exactly `nsamples` drawn rows. |
| Properties.BatchSizeInvariance | marginal.py:131-153 | Two positive batch sizes that draw the same indices in the same order give the same cell, whether that is a value or an error. |
| Properties.IgnoredFeatureContributesNothing | marginal.py:136-149 | If the model ignores the feature's columns, every row contributes 0 in every representation. |
| Properties.IgnoredFeatureCell | marginal.py:131-151 | If the model ignores the feature's columns, a cell's per-batch differences sum to 0. |
| Properties.IgnoredFeaturesHaveNoEffect | marginal.py:120-154 | If the model ignores every requested feature, every cell of a successful result is 0. |
| Properties.ConstantModelHasNoEffect | marginal.py:136-154 | With a constant model, every cell of a successful result is 0 for every representation. |
| Properties.NegativeBudgetGivesZeros | marginal.py:129-153 | With a negative budget and a positive step, `explain` succeeds and every cell is 0. |
| Properties.AverageCell | marginal.py:145-151 | On the same draws, the `average` cell's accumulated differences are the mean of the Möbius and co-Möbius ones. |
| Properties.AverageIsMeanOfRepresentations | marginal.py:136-154 | With the same draws, `average` succeeds exactly when `mobius` and `comobius` do. Each of its cells is the mean of theirs. |
| Properties.SumModelContributions | marginal.py:136-137 | For the sum-of-inputs model and a single feature `i`, the Möbius contributions total `n*x[i] - sum of column i` over the drawn rows. |
| Properties.SumModelMean | marginal.py:136-137 | Dividing that total by the number of drawn rows gives `x[i] - mean(column i)`. |
| Properties.SumModelMobiusEffect | marginal.py:136-153 | For the sum-of-inputs model in Möbius mode, the main effect of feature `i` is `x[i]` minus the mean of column `i` over the drawn rows, whatever rows are drawn. |

## Left out

- Random number generation: `np.random.choice` is replaced by caller-supplied index sequences. They must satisfy what a draw without replacement guarantees.
- The dependent sampling policy (marginal.py:66-72): as written it raises, and it is modelled only as that failure. No ranking or slicing of background rows is modelled, because the code never reaches them.
- The advisory `warnings.warn` for dependent mode (marginal.py:42-45) and `tqdm` progress reporting (marginal.py:126-127): side effects that do not change any result.
- Mixed dtypes: `X` and `data` are assumed to share one floating dtype. With an integer array on one side and a float array on the other, the assignments at marginal.py:90 and :95 truncate the copied values to the receiving array's dtype. That cast is not modelled: `MobiusVector` and `ComobiusVector` copy values exactly.
- Floating point: all arithmetic is exact `real`. This idealises numpy doubles, including the instability of scaling `v(N)` by `number_to_draw` (marginal.py:139-142) and summation order.
- The model's internals: the model is an arbitrary function from a row to a score. Its score on a batch is the sum of its scores on the rows. Exceptions it might raise are not modelled.
- Estimator.Explain: requires `nsamples != 0`. With a zero budget and a step other than 0, the range is empty and numpy divides 0 by 0, giving NaN cells; `real` has no NaN. (A zero step raises `ValueError` from `range` whatever the budget.) Negative budgets are modelled.
- Estimator.Explain: requires every feature index to lie in `[0, F)` and the background data to have the same `F` columns as `X`. Out-of-range indices raise `IndexError` in numpy, and negative ones wrap around. Neither is modelled.
- Feature groups are single columns or pairs of columns. A pair stands for an index list or array `[a, b]`. numpy would also accept longer index lists.
- A tuple `(a, b)` as a feature index is not modelled. At marginal.py:90, `target_example[(a, b)]` indexes a one-dimensional row with two indices. This raises `IndexError` before any cell is written.
- The network builder in `benchmarking/remove_and_retrain/build_model.py` is not part of this model. It is a Keras construction helper, and the estimator treats it as an opaque scoring function.
