# Meta-optimizer windowing and bookkeeping, modelled in Dafny

This project models the index and windowing discipline of `MetaOptimizer` and
`MetaOptimizerForRegression` (`tasks/meta_optimizer.py`), the training loop of an
in-context learner: an aggregator turns a sequence of samples into one context
per prefix, and a predictor answers queries from a context. The model covers:

- **Windowing** (`Windowing`): `forward` trims the aggregated context at
  `min_train_samples - 1` (written `m` below), splits it into `z_train = z[1:]` and
  `z_nexttoken = z[:-1]`, draws one previously seen train index per window and
  slices the next-token targets.
- **Objective selection** (`MetaOptimizers.MetaOptimizer.Forward`): the module's
  `training` flag as a class field. The optimized branch runs first in the
  caller's mode. The monitored branch runs second, with `training` cleared and
  gradients disabled. The flag is then restored, and an unknown objective fails
  before any predictor call. A ghost trace records each model call with the mode
  it ran in.
- **Loss selection** (`MetaOptimizers.MetaOptimizer.LossesAndMetrics`).
- **Diagnostic accumulation** (`Diagnostics`): the loop of `on_train_end`. It trims
  the boundary rows and folds the per-batch curves. Point `i` is labelled with
  `n_samples = i + m`.
- **Probe bookkeeping** (`ProbeIndexing`, `Regression`): the context-size filter,
  the tile / repeat-interleave pairing and the grouping counter of
  `log_model_vs_true`, plus the single-output-key check of `loss_function`.

A batch is a sequence of per-sample rows. The channels of the source's
dictionaries share the sample axis and are all sliced the same way, so one
sequence slice stands for the slice of every channel. Tensors, the aggregator,
the predictor and the loss are type parameters and function-valued parameters.
Losses are exact `real`s. The random draws of `random.randint` are a given
sequence, constrained by `Windowing.ValidDraws`. The ambient autograd mode is a
parameter of `Forward`.

The alignment results assume the aggregator returns one context per prefix
length 0..S, so `|z| == S + 1`. The source never checks this. It is a
`requires` of the alignment lemmas only. `Forward` and
`Regression.LogModelVsTrue` take any `z`, and the probe's out-of-range sample
index is an error case of the model. Under the assumption, all four windowed
sequences have length `S - m + 1`. The train context of window k is `z[m + k]`
and its next-token context is `z[m - 1 + k]`. For a causal aggregator, the train
target lies in the prefix its context summarizes, and the next-token target is
the first sample after it. Curve point `i` of `on_train_end` uses the train row
of window `i` and the next-token row of window `i + 1`. Both were predicted from
`z[i + m]`, the context of exactly `n_samples = i + m` samples.

Two details of the code shape the model:

- `forward` calls the aggregator before it checks the objective. An unknown
  objective therefore raises after one aggregator call, and the trace in the
  model records that call before the failure.
- `on_train_end` drops the last train row and the first next-token row for
  every objective, "train" and "prequential" alike, and the model does the
  same.

## Model

| member | source | states |
|---|---|---|
| `Windowing.Window` | tasks/meta_optimizer.py:69-82 | one train index and one next-token target per window (`len(range(m-1, S))`); the k-th train index lies in [0, m-1+k] and `x_train[k]` is the sample at it; `x_nexttoken[k] == x[m-1+k]` |
| `Windowing.WindowAlignment` | tasks/meta_optimizer.py:61-72 | when `\|z\| == S+1`, `x_train`, `x_nexttoken`, `z_train`, `z_nexttoken` all have length S-m+1 (zero when S < m-1); `z_train[k] == z[m+k]`, `z_nexttoken[k] == z[m-1+k]` |
| `Windowing.TargetsAgainstContexts` | tasks/meta_optimizer.py:69-82 | for a causal aggregator, the train target of window k lies within the prefix its context `z_train[k]` summarizes; the next-token target is the first sample after the prefix `z_nexttoken[k]` summarizes |
| `MetaOptimizers.MetaOptimizer.constructor` | tasks/meta_optimizer.py:27-41 | a new module is in training mode, with the given objective (checked against its Literal type) and `min_train_samples` |
| `MetaOptimizers.MetaOptimizer.Forward` | tasks/meta_optimizer.py:68-99 | `training` is the same after the call as before; for "train" / "prequential" the optimized branch (train / next-token) runs first with the original flag and ambient grad mode, the other second with `training == false` and grad disabled, and the outputs are the windowed data with those predictions; any other objective fails with `InvalidMetaObjective` after the aggregator call and before any predictor call |
| `MetaOptimizers.LogPrefix` | tasks/meta_optimizer.py:206 | the log prefix is `train_tasks` exactly when `training` holds and `val_tasks` exactly when it does not |
| `MetaOptimizers.MetaOptimizer.LossesAndMetrics` | tasks/meta_optimizer.py:206-216 | returns the train-branch loss when the objective is "train" and the next-token loss otherwise; logs exactly two entries, in order: `<prefix>/loss_train` with the train-branch loss and `<prefix>/loss_nexttoken` with the next-token loss |
| `MetaOptimizers.LossFollowsOptimizedBranch` | tasks/meta_optimizer.py:206-212 | for a valid objective, the returned loss is the loss of the branch `forward` runs first and with gradients |
| `Diagnostics.TrainCurve` | tasks/meta_optimizer.py:157-161 | a batch's train curve drops the last row; entry i is the sum of row i over tasks divided by `num_tasks` |
| `Diagnostics.NextTokenCurve` | tasks/meta_optimizer.py:157-161 | a batch's next-token curve drops the first row; entry i is the sum of row i+1 over tasks divided by `num_tasks` |
| `Diagnostics.FoldAsWritten` | tasks/meta_optimizer.py:163-167 | the accumulators stay None exactly when there is no batch curve; otherwise they hold the as-written folds of the train and next-token curves |
| `Diagnostics.AccumulateSampleLosses` | tasks/meta_optimizer.py:140-167 | no batch (an empty dataset among others, with `num_tasks == 0`) leaves the accumulators None; otherwise they equal the as-written fold of the per-batch train and next-token curves |
| `Diagnostics.AccumulatedAsWritten` | tasks/meta_optimizer.py:163-167 | the accumulator keeps the curves' length |
| `Diagnostics.AsWrittenCountsFirstTwice` | tasks/meta_optimizer.py:163-167 | the as-written accumulator is the sum of all batch curves plus the first batch's curve once more |
| `Diagnostics.AsWrittenAt` | tasks/meta_optimizer.py:163-167 | entry i of the as-written accumulator is `2*b1[i] + b2[i] + ... + bn[i]` |
| `Diagnostics.SumVecs` | tasks/meta_optimizer.py:163-167 | the intended accumulation (the plain sum of the batch curves) keeps the curves' length |
| `Diagnostics.SumVecsAt` | tasks/meta_optimizer.py:163-167 | entry i of the intended sum is the sum of entry i across all batches |
| `Diagnostics.SumOfBatchMeans` | tasks/meta_optimizer.py:158-161 | summing per-batch task sums divided by `num_tasks` gives the sum over every task of the population divided by `num_tasks`, whatever the batch split |
| `Diagnostics.CorrectedTrainCurveIsPopulationMean` | tasks/meta_optimizer.py:155-167 | the intended train curve at point i is the population mean of kept train row i, independent of batching |
| `Diagnostics.FirstBatchCountedTwice` | tasks/meta_optimizer.py:163-166 | one batch, one task, kept loss 1.0: the as-written curve is 2.0, the intended one 1.0 |
| `Diagnostics.SplitBatchesCurve` | tasks/meta_optimizer.py:140-167 | two batches of one task each, kept train loss 1.0: 1.5 as written, 1.0 summed plainly |
| `Diagnostics.OneBatchCurve` | tasks/meta_optimizer.py:140-167 | the same two tasks in one batch: 2.0 as written, 1.0 summed plainly |
| `Diagnostics.AsWrittenDependsOnBatching` | tasks/meta_optimizer.py:140-167 | the same two tasks give 1.5 split into two batches and 2.0 in one batch as written, 1.0 both ways when summed plainly |
| `Diagnostics.SampleLossPoints` | tasks/meta_optimizer.py:169-172 | one point per accumulated entry; point i carries `n_samples == i + m` and entry i of both curves |
| `Diagnostics.ReportSampleLosses` | tasks/meta_optimizer.py:140-180 | one dataloader end to end: no batch fails (`len(None)`), whatever `num_tasks`, including 0 for an empty dataset; a next-token curve shorter than the train curve fails at its first missing index; otherwise point i carries `n_samples == i + m` and entry i of the as-written accumulated train and next-token curves |
| `Diagnostics.CurvePointContext` | tasks/meta_optimizer.py:155-170 | the train row and next-token row kept at point i were both predicted from `z[i+m]`, the context of `n_samples = i + m` samples |
| `ProbeIndexing.FilterContextSizes` | tasks/meta_optimizer.py:331-333 | the kept sizes are exactly the requested n with `m <= n < len(z) - 1` |
| `ProbeIndexing.FilterConcat` | tasks/meta_optimizer.py:331-333 | the filter keeps the requested order: it distributes over concatenation |
| `ProbeIndexing.FilterKeepsIncrease` | tasks/meta_optimizer.py:331-333 | strictly increasing requested sizes stay strictly increasing after the filter |
| `ProbeIndexing.Group` | tasks/meta_optimizer.py:353-357 | the counter `n_context_idx` stays a valid index for every `i < max(sizes)`, whatever the sizes, and every size before it is at most i |
| `ProbeIndexing.GroupCountsSizes` | tasks/meta_optimizer.py:353-362 | for strictly increasing, non-negative sizes, the group of sample i is the number of sizes `<= i` and its `n_context` is the smallest size `> i` |
| `ProbeIndexing.TaskRows` | tasks/meta_optimizer.py:355-366 | one context row per sample `i < max(sizes)` for a task |
| `ProbeIndexing.TaskContextRows` | tasks/meta_optimizer.py:354-366 | one pass of the grouping loop for a task: fails on sample index `S` when `max(sizes)` exceeds the sample count S; otherwise yields that task's rows |
| `ProbeIndexing.ContextTable` | tasks/meta_optimizer.py:353-366 | the grouping loop fails with `max` of an empty list when no size survives and some task is visited, and on sample index `S` when `max(sizes)` exceeds the sample count S and some task is visited; otherwise it yields the task-by-task table of rows |
| `ProbeIndexing.ContextTableLength` | tasks/meta_optimizer.py:353-366 | the table has `n_probe_tasks * max(sizes)` rows |
| `ProbeIndexing.ContextTableAt` | tasks/meta_optimizer.py:353-366 | row `t * max(sizes) + i` of the table is sample i of task t |
| `ProbeIndexing.Select` | tasks/meta_optimizer.py:335 | entry j of `z[n_context_points]` is `z[ns[j]]`, the context at the j-th filtered size |
| `ProbeIndexing.Tile` | tasks/meta_optimizer.py:336 | `repeat(resolution, ...)` has `resolution * P` rows |
| `ProbeIndexing.RepeatInterleave` | tasks/meta_optimizer.py:338 | `repeat_interleave(P)` has `resolution * P` rows |
| `ProbeIndexing.View` | tasks/meta_optimizer.py:340 | `view(resolution, P, ...)` has `resolution` rows of P entries |
| `ProbeIndexing.TileAt` | tasks/meta_optimizer.py:336 | row `r*P + j` of the tiled contexts is context j |
| `ProbeIndexing.RepeatInterleaveAt` | tasks/meta_optimizer.py:338 | row `r*P + j` of the interleaved queries is grid point r |
| `ProbeIndexing.ViewAt` | tasks/meta_optimizer.py:340 | entry (r, j) of the view is flat row `r*P + j` |
| `Regression.LossFunction` | tasks/meta_optimizer.py:255-266 | succeeds exactly when the predictions carry one key that the targets also carry; otherwise fails with the key count when it is not one (the assertion), or with that only key when the targets lack it (the lookup); the loss is that key's `loss_fn(preds, target)` |
| `Regression.OnlyKey` | tasks/meta_optimizer.py:265 | the first key of a single-key dictionary is its only key |
| `Regression.LogModelVsTrue` | tasks/meta_optimizer.py:286-366 | skipped without a logger or for non-scalar data; `n_probe_tasks == 0` fails where the `DataLoader` rejects a batch size of 0; otherwise the sizes are the filtered ones (all in `[m, len(z) - 1)`); the reshape fails when the predictor's row count is not `resolution * P`; the grouping fails on an empty size list, and on sample index S when `max(sizes)` exceeds the sample count S; otherwise predictions are the view of the predictor's output and the context table is the grouping loop's |
| `Regression.ProbePairing` | tasks/meta_optimizer.py:334-340 | predictor input row `r*P + j` pairs grid point r with the context of size j, and entry (r, j) of `y_pred.view(resolution, P, tasks)` is that row's prediction |
| `Regression.FilteredSizesFit` | tasks/meta_optimizer.py:331-363 | when `len(z) <= S + 2`, every filtered size lies in `[1, S]` and `max(sizes) <= S`, so `x_context[i, task]` is in range; when `len(z) == S + 1`, `max(sizes) < S` |

## Findings

| source | as written | input that shows it | evidently intended | confidence | as-written member | corrected member |
|---|---|---|---|---|---|---|
| tasks/meta_optimizer.py:163-166 | the first batch's curve is bound to the accumulator (same tensor), then `+=` adds it to itself, so the first batch counts twice | one batch, one task, kept train loss 1.0: curve 2.0 instead of 1.0; two tasks give 1.5 in two batches and 2.0 in one | the accumulator is the plain sum of the batch curves, i.e. the population mean per context size, independent of batching | high; not executed | `Diagnostics.FirstBatchCountedTwice` | `Diagnostics.CorrectedTrainCurveIsPopulationMean` |

`Diagnostics.AccumulateSampleLosses` keeps the as-written fold, because it models
the code. `Diagnostics.SumVecs` is the corrected fold. `AsWrittenCountsFirstTwice`
relates the two.

## Left out

- Tensor values, MSE, `.mean()` and the component average of `loss_function` are left abstract: the losses are parameters (`lossOf`, `lossFn`) and sums are exact reals. Floating point is not modelled.
- The aggregator and predictor are uninterpreted functions. The predictor's output depends only on its inputs and on the `training` flag. Gradients and `torch.inference_mode` appear only as the grad flag in the trace. Nothing constrains the length of the predictions.
- `MetaOptimizers.MetaOptimizer.Forward`: the source restores `training` only on normal exit. A predictor that raises after `self.train(False)` would leave the flag cleared, but predictors are total here, so this path is not modelled.
- `min_train_samples < 1` is not modelled: Python's negative slicing and `randint(0, -1)` raising. `Forward` requires `min_train_samples >= 1`.
- `Diagnostics.AccumulateSampleLosses`: requires all batches to have the same number of windows. Torch broadcasting of unequal shapes in `+=` is not modelled.
- `on_train_end` also checks for a logger, iterates the two dataloaders, moves tensors to the device, and calls `forward` and `loss_function` per batch. `Diagnostics.ReportSampleLosses` takes the per-batch loss matrices of one dataloader as input and returns the points the loop would log.
- `Diagnostics.ReportSampleLosses`: when the next-token curve is shorter than the train curve, the source has already logged the points before the failing index; the model returns only the failure.
- `training_step`, `validation_step`, `configure_optimizers`, `save_hyperparameters` and the `batch_size` passed to `self.log` are training-driver plumbing.
- `MetaOptimizerForRegression.on_train_end` calls `log_model_vs_true` once with the configured probe settings (train tasks) and once with the defaults (validation tasks). That call wiring is not modelled.
- `log_model_vs_true` does more work around the index path. It picks the dataset by mode, saves and restores `shuffle_samples`, and loads a batch through a `DataLoader`. It pads the x-range by 20%, builds the `linspace` grid and calls `dataset.function` for the ground truth. The grid and the aggregated context are parameters here. The `df_true` and `df_model` tables, the plots and the table and image logging are left out as presentation.
- `Regression.LogModelVsTrue`: requires the probe batch to hold `n_probe_tasks` tasks (`ContextFits`). With fewer tasks in the dataset, `x` still has `n_probe_tasks` rows (line 325), but `z` and the predictor's output carry only the tasks the loader returned. The source then fails in `dataset.function` (line 326), in the predictor (line 339) or in the `view(resolution, P, n_probe_tasks)` at line 340, which this model reduces to its row count. That failure is not modelled.
- `Regression.LogModelVsTrue`: with `n_probe_tasks == 1` the source logs the tables and then fails in `enumerate(axs)` (line 399), because `plt.subplots` returns a single Axes. The plots are left out, so the model ends with the logged tables.
