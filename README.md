# Training-loop control of yolo-fastest-pytorch, in Dafny

This project models the control skeleton of `train()` in `train.py`, the
training driver of a single-stage object detector. The loop runs epochs over
the batches of a data loader. For each batch it computes the global step
`num_iter`. During warm-up it recomputes the gradient-accumulation cadence
`accumulate`. It runs a backward pass, and it steps the optimizer only on
global steps divisible by `accumulate`. On those steps it also folds the batch's
loss components into the running mean `mloss`. At the end of each epoch it
steps the learning-rate scheduler once and writes one checkpoint file.

The network, the loss function and the data loader are not modelled. For
every batch, `Training.Run` takes as input either the `loss_items` vector or
the fact that the batch raised. The model and
optimizer state dicts are opaque. A checkpoint records each of them as the
number of optimizer steps applied when it was taken.

Files, one module each:

- `schedule.dfy` (`Schedule`): the global step, the warm-up length, `np.interp`,
  round-half-to-even, and the accumulation cadence and optimizer gate.
- `running_loss.dfy` (`RunningLoss`): the `mloss` update and the arithmetic mean
  it is compared with.
- `checkpoints.dfy` (`Checkpoints`): the checkpoint record, `str(epoch)`, the
  checkpoint path and a parser that inverts it.
- `training.dfy` (`Training`): the class `Trainer` holds the loop's mutable
  state, and `Run` is `train()` itself. The file also holds the functions
  `GatedIters` and `EpochMloss`, which state what the loop computes, and the
  lemmas about them.

Three behaviours of the code that the model makes explicit:

- **Pending gradients are dropped at each epoch start.** Line 72 calls
  `optimizer.zero_grad()` at the start of every epoch. This drops the
  gradients of an epoch's last batches if no optimizer step followed them.
  `Trainer` counts these backward passes in the ghost field `discardedGrads`.
  It keeps the invariant `appliedGrads + discardedGrads + pendingGrads == iters`,
  and `Run` states both counts per epoch. With `batch_size >= 43` nothing is
  dropped (`NothingDroppedForLargeBatch`).
- **`mloss` is a mean only when every batch steps.** Line 103 divides by
  `batch_id + 1`, not by the number of updates so far.
  `MlossIsMeanWhenEveryBatchSteps` proves that `mloss` is the arithmetic mean
  when every batch of the epoch is gated. `MeanUpdateAfterGap` shows that
  after a gap the earlier update is counted more than once.
- **Batch sizes above 64 are accepted.** Both `max(..., 1)` clamps (lines 50
  and 84) keep `accumulate` at 1 (`AccumulateOneForLargeBatch`).

A batch whose loading (line 75), forward pass or `compute_loss` (lines 91-93)
raises ends the run.
Nothing in `train()` catches the exception. The finished epochs keep their
checkpoints, and neither the scheduler step nor the checkpoint of the failing
epoch happens. `Run` takes one `Option` per batch, where `None` stands for the
raise, and reports `Raised(epoch, batchId)`.

## Model

| member | source | states |
|---|---|---|
| `Schedule.NumIter` | train.py:76 | defines `num_iter = batch_id + batch_per_epoch * epoch`. Its properties are stated by `NumIterOrder`, `NumIterConsecutive` and `NumIterDivMod` |
| `Schedule.NumIterDivMod` | train.py:76 | for `batch_id < batch_per_epoch`, dividing `num_iter` by `batch_per_epoch` gives back the epoch as the quotient and `batch_id` as the remainder |
| `Schedule.NumIterOrder` | train.py:70-76 | for batch indices below `batch_per_epoch`, `num_iter` orders (epoch, batch) pairs lexicographically, so two batches share a global step only if they are the same batch |
| `Schedule.NumIterConsecutive` | train.py:70-76 | the global step after batch `b` is that of batch `b+1`, or of batch 0 of the next epoch after the last batch, so global steps run 0, 1, 2, ... without gaps |
| `Schedule.NumWarm` | train.py:47 | the warm-up length is the larger of `3*batch_per_epoch` and 1000 |
| `Schedule.Interp` | train.py:82-84 | `np.interp` over `[x0, x1]` gives `y0` at or before `x0` and `y1` at or after `x1`, and lies between `y0` and `y1` everywhere |
| `Schedule.InterpMonotone` | train.py:82-84 | interpolating over a rising range never decreases as `x` grows |
| `Schedule.RoundHalfEven` | train.py:50 | Python `round`: the result is within 1/2 of `x`, and even when `x` is exactly halfway |
| `Schedule.RoundHalfEvenUnique` | train.py:84 | any integer within 1/2 of `x` that is even on a tie is the rounded value, so the contract defines numpy `.round()` |
| `Schedule.RoundHalfEvenMonotone` | train.py:84 | rounding is monotone |
| `Schedule.TargetRatio` | train.py:50 | `nbs / batch_size`, the exact quotient: positive, and times `batch_size` it gives 64 |
| `Schedule.InitAccumulate` | train.py:49-50 | the initial `accumulate` is at least 1, so the gate's modulus is never zero; it is 1 exactly when `64/batch_size < 1.5`, and otherwise within 1/2 of `64/batch_size` |
| `Schedule.WarmAccumulate` | train.py:81-84 | every warm-up recompute of `accumulate` is at least 1 |
| `Schedule.AccumulateAt` | train.py:81-84 | the cadence in force at any global step is at least 1 |
| `Schedule.Gate` | train.py:98 | defines the optimizer gate `num_iter % accumulate == 0` with the cadence in force. `GatedItersExact` states which steps pass it |
| `Schedule.WarmAccumulateStart` | train.py:82-84 | warm-up starts at `accumulate == 1` at `num_iter == 0` |
| `Schedule.WarmAccumulateEnd` | train.py:50-84 | at `num_iter == num_warm` the recomputed value equals the line-50 value `max(round(64/batch_size), 1)` |
| `Schedule.WarmAccumulateMonotone` | train.py:81-84 | for `batch_size <= 64` the warm-up cadence is non-decreasing in `num_iter` |
| `Schedule.AccumulateAtMonotone` | train.py:81-98 | for `batch_size <= 64` the cadence in force is non-decreasing over the whole run, warm-up and after |
| `Schedule.AccumulateSteady` | train.py:81-84 | from `num_warm` on, the cadence is the line-50 value; it is not recomputed after warm-up |
| `Schedule.AccumulateOneForLargeBatch` | train.py:49-98 | for `batch_size >= 43` (including `batch_size == 64`) `accumulate` is 1 at every step and every step is gated |
| `RunningLoss.Zeros` | train.py:74 | `torch.zeros(4)`: four components, each 0 |
| `RunningLoss.MeanUpdate` | train.py:103 | defines the line-103 recurrence component by component. `MeanUpdateExtendsMean` and `MeanUpdateAfterGap` state what it computes |
| `RunningLoss.MeanUpdateExtendsMean` | train.py:103 | folding batch `k`'s losses into the mean of batches `0..k-1` by `(mloss*k + x)/(k+1)` gives the mean of batches `0..k` |
| `RunningLoss.MeanUpdateAfterGap` | train.py:98-103 | an update at batch `k` after one at batch 0 with none between gives `(k*x0 + xk)/(k+1)`: batch 0 is counted `k` times. For `k > 1` the result differs from the mean of the two batches in every component where their losses differ |
| `Checkpoints.NatToDecimal` | train.py:115 | `str(epoch)` is a canonical decimal numeral: digits only, no leading zero, and starts with `0` only for 0 |
| `Checkpoints.DecimalRoundTrip` | train.py:115 | reading back `str(n)` gives `n` |
| `Checkpoints.DecimalCanonicalRoundTrip` | train.py:115 | every canonical numeral is `str` of its value |
| `Checkpoints.CkptPath` | train.py:115 | defines the path `save_path + "/epoch_" + str(epoch) + ".pt"`. `ParseCkptPathRoundTrip`, `ParseCkptPathSound` and `CkptPathInjective` state its properties |
| `Checkpoints.ParseCkptPathRoundTrip` | train.py:115 | the epoch can be read back from `save_path + "/epoch_" + str(epoch) + ".pt"` |
| `Checkpoints.ParseCkptPathSound` | train.py:115 | a path that parses to epoch `e` is exactly the path written for `e` |
| `Checkpoints.CkptPathInjective` | train.py:115 | two epochs share a checkpoint path if and only if they are the same epoch |
| `Checkpoints.IsCheckpointLog` | train.py:112-115 | defines what the files of a run are: one per finished epoch, in order, at that epoch's path, with `optimizer` absent exactly for epoch `total_epochs - 1` and otherwise taken at the same point as `model`. `Trainer.Valid` keeps it as an invariant |
| `Checkpoints.CheckpointLogSnoc` | train.py:112-115 | the step equation `Trainer.EndEpoch` relies on: saving the next epoch's checkpoint as line 115 does keeps a log a checkpoint log |
| `Checkpoints.CheckpointLogPathsDistinct` | train.py:112-115 | the checkpoints of a run go to pairwise distinct files |
| `Checkpoints.CheckpointLogOptimizerOnlyLastMissing` | train.py:112-114 | in a finished run only the last epoch's checkpoint lacks the optimizer state |
| `Training.EpochCount` | train.py:70 | `range(start_epoch, total_epochs)` runs at least once exactly when `total_epochs > start_epoch`, and then `total_epochs - start_epoch` times |
| `Training.ReturnedPrefix` | train.py:91-93 | the `loss_items` of an epoch's batches up to the first raise: each is what its batch returned, and if a batch raised it is the one right after them |
| `Training.CompletedEpochs` | train.py:70-93 | the epochs that finish before a raise: every batch of each of them returned, and the epoch after them, if there is one, has a batch that raises |
| `Training.CompletedEpochsStep` | train.py:70-93 | an epoch not past the finished ones finishes itself exactly when all its batches return |
| `Training.GatedIters` | train.py:98-101 | defines the global steps below `n` that pass the gate, in order. `GatedItersExact` and `GatedItersSnoc` state its properties |
| `Training.GatedItersSnoc` | train.py:98-101 | the step equation `Trainer.Step` relies on: one more global step extends the log of optimizer steps by that step exactly when it is gated |
| `Training.GatedItersExact` | train.py:95-101 | the optimizer steps at exactly the global steps with `num_iter % accumulate == 0`, logged in strictly increasing order |
| `Training.FirstIterationSteps` | train.py:98-101 | global step 0 always steps the optimizer |
| `Training.EpochMloss` | train.py:74-103 | defines `mloss` after the first `k` batches of an epoch: it starts at zeros and takes the line-103 update on gated steps only. `MlossIsMeanWhenEveryBatchSteps` states when it is the mean |
| `Training.MlossIsMeanWhenEveryBatchSteps` | train.py:98-103 | if every batch of an epoch so far was gated, `mloss` is the arithmetic mean of their `loss_items` |
| `Training.LargeBatchMlossIsMean` | train.py:49-103 | with `batch_size >= 43`, `mloss` at the end of each epoch is the mean of all its batches' `loss_items` |
| `Training.ModelsMatchSteps` | train.py:98-115 | defines the link between checkpoints and training: the checkpoint of epoch `e` holds the model after the optimizer steps of all global steps before epoch `e + 1` |
| `Training.ModelsMatchStepsSnoc` | train.py:98-115 | the step equation `Trainer.TrainEpochs` relies on: appending the checkpoint of the next epoch, taken after its optimizer steps, keeps that link |
| `Training.PendingAfter` | train.py:72-101 | defines the backward passes left in `.grad` after the first `k` batches of an epoch: none at the start, one more per batch, none after a gated step. It is at most `k`; `PendingAfterIsUngatedRun` states what it counts |
| `Training.LeftAtEpochStart` | train.py:70-72 | the backward passes pending when epoch `e` begins, which line 72's `zero_grad()` drops: none for epoch 0, otherwise what the whole of epoch `e - 1` left, at most `batch_per_epoch` |
| `Training.DroppedBefore` | train.py:70-72 | the passes dropped by the `zero_grad()` of epochs `0..n-1`: none for the first epoch and at most `batch_per_epoch` for each later one; `NothingDroppedForLargeBatch` proves it is 0 for `batch_size >= 43` |
| `Training.PendingAfterIsUngatedRun` | train.py:95-101 | the pending backward passes are exactly the trailing run of ungated batches: none of them passed the gate, and the batch just before them did |
| `Training.NothingDroppedForLargeBatch` | train.py:49-101 | with `batch_size >= 43` no backward pass is ever pending after a batch, so the `zero_grad()` of line 72 drops none |
| `Training.BatchStep` | train.py:76-103 | the step equation `Trainer.RunBatches` relies on: one more returned batch moves `mloss` and the pending count by the gate of that batch's global step |
| `Training.Trainer.constructor` | train.py:46-67 | before the loop: `num_warm`, the line-50 `accumulate`, and the scheduler cursor at `start_epoch - 1` |
| `Training.Trainer.BeginEpoch` | train.py:71-74 | an epoch starts with no pending gradients and `mloss` at four zeros; nothing else changes |
| `Training.Trainer.Step` | train.py:75-103 | one batch: `accumulate` becomes the cadence for this `num_iter` and is untouched after warm-up; the optimizer steps exactly when gated; pending gradients are cleared on a step and otherwise grow by one; `mloss` changes only on a step, by the line-103 recurrence |
| `Training.Trainer.EndEpoch` | train.py:107-116 | one scheduler step, then one checkpoint `{epoch, model, optimizer}` at the epoch's path, with `optimizer` absent exactly when `epoch + 1 == total_epochs` |
| `Training.Trainer.RunBatches` | train.py:75-103 | the batch loop of one epoch: it runs the batches up to the first raise (`ReturnedPrefix`), global steps advance by that many, `mloss` ends as `EpochMloss` and the pending backward passes as `PendingAfter` of those batches, and no checkpoint or scheduler step happens |
| `Training.Trainer.TrainEpoch` | train.py:70-116 | one epoch: its `zero_grad()` adds the passes pending from the previous epoch to the dropped ones, and afterwards `PendingAfter` of the batches that ran are pending. It runs the batches up to the first raise (`ReturnedPrefix`), and global steps advance by that many. `mloss` ends as `EpochMloss` of those batches. Only when no batch raised come the scheduler step and a checkpoint of the optimizer steps taken so far |
| `Training.Trainer.TrainEpochs` | train.py:70-116 | the epoch loop: it finishes exactly `CompletedEpochs` epochs and stops at the first raise, reporting how many batches of that epoch ran. Each checkpoint's model holds the optimizer steps of all epochs up to its own (`ModelsMatchSteps`). The pending backward passes are those left by the last epoch entered, and the dropped ones are what each earlier epoch left pending at its end (`DroppedBefore`) |
| `Training.Run` | train.py:26-118 | the whole run: checkpoints for the `CompletedEpochs` finished epochs in order, cursor `start_epoch - 1 +` that count, optimizer steps at exactly the gated global steps, and `mloss` of the last epoch entered. With no raise it logs `total_epochs - start_epoch`, or, with `total_epochs <= start_epoch`, writes nothing and ends on the unbound `epoch`. With a raise it ends with `Raised` at the first raising batch, and the failing epoch gets no checkpoint. Every backward pass is applied, dropped or pending; the pending and dropped counts are as for `TrainEpochs` |

## Left out

- The network, its forward pass, `compute_loss`, `backward`, `amp.autocast` and `GradScaler` are GPU and mixed-precision library calls. For each batch, the input is either its `loss_items` or a raise. The gradients are a count of pending backward passes.
- Training.Run: a raise from `backward()` (line 95) or from `scaler.step` (line 99) is not modelled. Only loading a batch, the forward pass and `compute_loss` may raise. The exception itself is a bare `Raised` outcome with no payload.
- Training.Trainer.Step: every gated `scaler.step(optimizer)` is taken to apply the optimizer update. GradScaler skips the update when gradients are inf or NaN, which is floating-point behaviour outside the model.
- The `DataLoader` (worker processes, batching) and the `/255.0` image normalisation. The loader is taken to yield exactly `batch_per_epoch` batches per epoch.
- `lf` (line 56) and the per-group warm-up of learning rate and momentum (lines 85-88): cosine floating-point numerics over optimizer parameter groups. Line 88 reads the undefined `hyp`. It is unreachable, because the single Adam group has no `'momentum'` key. The learning-rate list at line 108 is never used.
- `LambdaLR` internals: the model counts `scheduler.step()` calls through `last_epoch`. With `total_epochs == 0`, building the scheduler already evaluates `lf(0)` and divides by zero. The model reports the line-118 failure for every `total_epochs <= 0`.
- Training.Run: requires `batch_size >= 1`. Building the `DataLoader` (line 43) and the division at line 50 reject any other value before the loop starts.
- Training.Run: reports `EpochUnbound` for `total_epochs == 0` as for negative values, although the source already fails at line 57, where building `LambdaLR` evaluates `lf(0)` and divides by zero.
- Floating point: `np.interp`, `/` and the rounding are modelled exactly over `real`. Rounding the float64 interpolant can differ from the exact value at a tie. The float32 tensor arithmetic of line 103, `(mloss * batch_id + loss_items) / (batch_id + 1)`, is also modelled over `real`, so `MlossIsMeanWhenEveryBatchSteps` and `LargeBatchMlossIsMean` hold exactly only for that model; in float32 the running mean carries rounding error.
- `torch.save` serialisation and the state dicts themselves. A checkpoint stores, for the model and for the optimizer, the number of optimizer steps applied so far. This count is only a proxy for the state. In train mode (line 71) every forward pass can also update buffers inside `model.state_dict()`, such as BatchNorm running statistics, which the count does not track.
- cudnn flags, timing, `print` and `logger` output, and `torch.cuda.empty_cache()` have no state to model. The logged epoch count is the result of `Training.Run`.
- The `__main__` block (argument parsing and the hard-coded parameters) is configuration, not logic.
- `start_epoch` is the constant 0 here, as in the source. Resuming from a checkpoint is not implemented in the source.
