/** The control skeleton of `train()`: epochs over batches, the warm-up
    accumulation cadence, the optimizer gate, the running mean loss, one
    scheduler step and one checkpoint per epoch. The network, the loss
    function and the data loader are outside the model; the per-batch loss
    vectors are an input. */
module Training {
  import opened Schedule
  import opened RunningLoss
  import opened Checkpoints

  /** `start_epoch`, fixed at 0 in `train()`. */
  const StartEpoch: nat := 0

  /** How `train()` ends: the epoch count it logs, the UnboundLocalError on
      `epoch` when the epoch loop never ran, or the exception that the model
      or `compute_loss` raised on batch `batchId` of `epoch`, which nothing in
      `train()` catches. */
  datatype Outcome = Completed(epochsLogged: int) | EpochUnbound | Raised(epoch: nat, batchId: nat)

  /** Number of epochs the loop `range(start_epoch, total_epochs)` runs. */
  function EpochCount(totalEpochs: int): (n: nat)
    ensures n > 0 <==> totalEpochs > StartEpoch
    ensures n > 0 ==> StartEpoch + n == totalEpochs
  {
    if totalEpochs > StartEpoch then totalEpochs - StartEpoch else 0
  }

  /** What the model and `compute_loss` give for one batch: its `loss_items`,
      or `None` when one of them raises. */
  type BatchResult = Option<LossVec>

  predicate WellFormedBatches(xs: seq<BatchResult>)
  {
    forall i :: 0 <= i < |xs| ==> xs[i].Some? ==> |xs[i].value| == LossComponents
  }

  /** The loss vectors of an epoch's batches up to the first one that raises. */
  function ReturnedPrefix(xs: seq<BatchResult>): (r: seq<LossVec>)
    ensures |r| <= |xs|
    ensures forall i :: 0 <= i < |r| ==> xs[i] == Some(r[i])
    ensures |r| < |xs| ==> xs[|r|] == None
    ensures WellFormedBatches(xs) ==> AllLossVecs(r)
  {
    if xs == [] || xs[0] == None then [] else [xs[0].value] + ReturnedPrefix(xs[1..])
  }

  /** Whether every batch of an epoch returns. */
  predicate AllReturned(xs: seq<BatchResult>)
  {
    |ReturnedPrefix(xs)| == |xs|
  }

  /** Number of leading epochs of a run whose every batch returns: the epochs
      `train()` finishes before an exception ends it. */
  function CompletedEpochs(batches: seq<seq<BatchResult>>): (c: nat)
    ensures c <= |batches|
    ensures forall e :: 0 <= e < c ==> AllReturned(batches[e])
    ensures c < |batches| ==> !AllReturned(batches[c])
  {
    if batches == [] || !AllReturned(batches[0]) then 0
    else 1 + CompletedEpochs(batches[1..])
  }

  /** An epoch that is not past the completed ones is completed itself exactly
      when every batch in it returns; otherwise it is the one that raises. */
  lemma CompletedEpochsStep(batches: seq<seq<BatchResult>>, e: nat)
    requires e <= CompletedEpochs(batches) && e < |batches|
    ensures AllReturned(batches[e]) <==> e < CompletedEpochs(batches)
  {
  }

  /** The numbers among `0 .. n-1` that satisfy `p`, in increasing order. */
  function Filtered(n: nat, p: nat -> bool): (g: seq<nat>)
    ensures |g| <= n
    ensures forall i :: 0 <= i < |g| ==> g[i] < n
  {
    if n == 0 then [] else Filtered(n - 1, p) + (if p(n - 1) then [n - 1] else [])
  }

  /** `Filtered` holds exactly the numbers below `n` that satisfy `p`. */
  lemma {:induction false} FilteredMembers(n: nat, p: nat -> bool)
    ensures forall k: nat :: k in Filtered(n, p) <==> k < n && p(k)
  {
    if n > 0 {
      FilteredMembers(n - 1, p);
      var g', tail := Filtered(n - 1, p), if p(n - 1) then [n - 1] else [];
      assert Filtered(n, p) == g' + tail;
      forall k: nat
        ensures k in g' + tail <==> k < n && p(k)
      {
        assert k in g' + tail <==> k in g' || k in tail;
      }
    }
  }

  /** `Filtered` lists its numbers in strictly increasing order. */
  lemma {:induction false} FilteredIncreasing(n: nat, p: nat -> bool)
    ensures forall i, j :: 0 <= i < j < |Filtered(n, p)| ==> Filtered(n, p)[i] < Filtered(n, p)[j]
  {
    if n > 0 {
      FilteredIncreasing(n - 1, p);
      var g' := Filtered(n - 1, p);
      var g := g' + (if p(n - 1) then [n - 1] else []);
      assert Filtered(n, p) == g;
      forall i, j | 0 <= i < j < |g|
        ensures g[i] < g[j]
      {
        assert g[i] == g'[i];
        if j < |g'| {
          assert g[j] == g'[j];
        } else {
          assert g[j] == n - 1;
        }
      }
    }
  }

  /** The optimizer gate as a predicate on global steps. */
  function GateOf(numWarm: nat, batchSize: nat): nat -> bool
    requires numWarm > 0 && batchSize >= 1
  {
    (k: nat) => Gate(k, numWarm, batchSize)
  }

  /** The global steps among `0 .. n-1` at which the optimizer steps, in order. */
  function GatedIters(n: nat, numWarm: nat, batchSize: nat): seq<nat>
    requires numWarm > 0 && batchSize >= 1
  {
    Filtered(n, GateOf(numWarm, batchSize))
  }

  /** One more global step extends the log by that step exactly when it is gated. */
  lemma GatedItersSnoc(n: nat, numWarm: nat, batchSize: nat)
    requires numWarm > 0 && batchSize >= 1
    ensures GatedIters(n + 1, numWarm, batchSize)
            == GatedIters(n, numWarm, batchSize) + (if Gate(n, numWarm, batchSize) then [n] else [])
  {
  }

  /** The optimizer steps exactly at the gated global steps, and the log of
      them is strictly increasing. */
  lemma GatedItersExact(n: nat, numWarm: nat, batchSize: nat)
    requires numWarm > 0 && batchSize >= 1
    ensures forall k: nat :: k in GatedIters(n, numWarm, batchSize) <==> k < n && Gate(k, numWarm, batchSize)
    ensures forall i, j :: 0 <= i < j < |GatedIters(n, numWarm, batchSize)| ==>
      GatedIters(n, numWarm, batchSize)[i] < GatedIters(n, numWarm, batchSize)[j]
  {
    FilteredMembers(n, GateOf(numWarm, batchSize));
    FilteredIncreasing(n, GateOf(numWarm, batchSize));
  }

  /** The very first global step always steps the optimizer. */
  lemma FirstIterationSteps(n: nat, numWarm: nat, batchSize: nat)
    requires numWarm > 0 && batchSize >= 1 && n > 0
    ensures |GatedIters(n, numWarm, batchSize)| > 0 && GatedIters(n, numWarm, batchSize)[0] == 0
  {
    GatedItersExact(n, numWarm, batchSize);
    assert 0 in GatedIters(n, numWarm, batchSize);
  }

  /** Backward passes left in `.grad` after the first `k` batches of an epoch
      whose batch 0 has global step `first`: the epoch starts with none after
      `zero_grad()`, each batch adds one, and each optimizer step clears them.
      They are the batches since the last gated one. */
  function PendingAfter(first: nat, k: nat, numWarm: nat, batchSize: nat): (p: nat)
    requires numWarm > 0 && batchSize >= 1
    ensures p <= k
  {
    if k == 0 then 0
    else if Gate(first + k - 1, numWarm, batchSize) then 0
    else PendingAfter(first, k - 1, numWarm, batchSize) + 1
  }

  /** The pending count is the run of ungated steps that ends the first `k`
      batches: none of its steps is gated, and the step just before it (if it
      lies inside the epoch) is. */
  lemma {:induction false} PendingAfterIsUngatedRun(first: nat, k: nat, numWarm: nat, batchSize: nat)
    requires numWarm > 0 && batchSize >= 1
    ensures var p := PendingAfter(first, k, numWarm, batchSize);
      && (forall n: nat :: first + k - p <= n < first + k ==> !Gate(n, numWarm, batchSize))
      && (p < k ==> Gate(first + k - p - 1, numWarm, batchSize))
  {
    if k > 0 && !Gate(first + k - 1, numWarm, batchSize) {
      PendingAfterIsUngatedRun(first, k - 1, numWarm, batchSize);
    }
  }

  /** Backward passes still in `.grad` when epoch `e` begins: none before the
      first epoch, otherwise what the whole of epoch `e - 1` left pending. */
  function LeftAtEpochStart(e: nat, batchPerEpoch: nat, numWarm: nat, batchSize: nat): (p: nat)
    requires numWarm > 0 && batchSize >= 1
    ensures e == 0 ==> p == 0
    ensures p <= batchPerEpoch
  {
    if e == 0 then 0
    else PendingAfter(NumIter(0, batchPerEpoch, e - 1), batchPerEpoch, numWarm, batchSize)
  }

  /** Backward passes dropped by the `zero_grad()` that opens each of the
      epochs 0 .. n - 1: the first epoch drops none, each later one at most a
      whole epoch's worth. */
  function DroppedBefore(n: nat, batchPerEpoch: nat, numWarm: nat, batchSize: nat): (d: nat)
    requires numWarm > 0 && batchSize >= 1
    ensures n <= 1 ==> d == 0
    ensures n >= 1 ==> d <= (n - 1) * batchPerEpoch
  {
    if n == 0 then 0
    else DroppedBefore(n - 1, batchPerEpoch, numWarm, batchSize)
         + LeftAtEpochStart(n - 1, batchPerEpoch, numWarm, batchSize)
  }

  /** With batch_size >= 43 every step is gated, so no backward pass is ever
      left pending at an epoch's end and `zero_grad()` at line 72 drops nothing. */
  lemma {:induction false} NothingDroppedForLargeBatch(n: nat, batchPerEpoch: nat, numWarm: nat, batchSize: nat)
    requires numWarm > 0 && batchSize >= 43
    ensures DroppedBefore(n, batchPerEpoch, numWarm, batchSize) == 0
    ensures forall first: nat, k: nat :: PendingAfter(first, k, numWarm, batchSize) == 0
  {
    forall first: nat, k: nat
      ensures PendingAfter(first, k, numWarm, batchSize) == 0
    {
      if k > 0 {
        AccumulateOneForLargeBatch(first + k - 1, numWarm, batchSize);
      }
    }
    if n > 0 {
      NothingDroppedForLargeBatch(n - 1, batchPerEpoch, numWarm, batchSize);
    }
  }

  /** `mloss` after the first `k` batches of an epoch whose batch 0 has global
      step `first`: it changes only on gated steps. */
  function EpochMloss(xs: seq<LossVec>, k: nat, first: nat, numWarm: nat, batchSize: nat): (m: LossVec)
    requires numWarm > 0 && batchSize >= 1
    requires k <= |xs| && AllLossVecs(xs)
    ensures |m| == LossComponents
  {
    if k == 0 then Zeros()
    else
      var m := EpochMloss(xs, k - 1, first, numWarm, batchSize);
      if Gate(first + k - 1, numWarm, batchSize) then MeanUpdate(m, k - 1, xs[k - 1]) else m
  }

  /** One more returned batch: `mloss` and the pending count move by the
      gate of that batch's global step. */
  lemma BatchStep(xs: seq<BatchResult>, b: nat, batchPerEpoch: nat, epoch: nat, numWarm: nat, batchSize: nat)
    requires numWarm > 0 && batchSize >= 1 && WellFormedBatches(xs)
    requires b < |xs| && b <= |ReturnedPrefix(xs)| && xs[b].Some?
    ensures b < |ReturnedPrefix(xs)| && ReturnedPrefix(xs)[b] == xs[b].value
    ensures var first := NumIter(0, batchPerEpoch, epoch);
      var g := Gate(NumIter(b, batchPerEpoch, epoch), numWarm, batchSize);
      && EpochMloss(ReturnedPrefix(xs), b + 1, first, numWarm, batchSize)
         == (if g then MeanUpdate(EpochMloss(ReturnedPrefix(xs), b, first, numWarm, batchSize), b, xs[b].value)
             else EpochMloss(ReturnedPrefix(xs), b, first, numWarm, batchSize))
      && PendingAfter(first, b + 1, numWarm, batchSize)
         == (if g then 0 else PendingAfter(first, b, numWarm, batchSize) + 1)
  {
    assert NumIter(b, batchPerEpoch, epoch) == NumIter(0, batchPerEpoch, epoch) + (b + 1) - 1;
  }

  /** When every batch of an epoch so far was gated, `mloss` is the arithmetic
      mean of their loss vectors. */
  lemma {:induction false} MlossIsMeanWhenEveryBatchSteps(xs: seq<LossVec>, k: nat, first: nat, numWarm: nat, batchSize: nat)
    requires numWarm > 0 && batchSize >= 1
    requires k <= |xs| && AllLossVecs(xs)
    requires forall n: nat :: first <= n < first + k ==> Gate(n, numWarm, batchSize)
    ensures EpochMloss(xs, k, first, numWarm, batchSize) == Mean(xs[..k])
  {
    if k == 0 {
      assert xs[..0] == [];
    } else {
      MlossIsMeanWhenEveryBatchSteps(xs, k - 1, first, numWarm, batchSize);
      assert Gate(first + (k - 1), numWarm, batchSize);
      MeanUpdateExtendsMean(xs[..k - 1], xs[k - 1]);
      assert xs[..k - 1] + [xs[k - 1]] == xs[..k];
    }
  }

  /** With batch_size >= 43 every batch is gated, so at the end of each epoch
      `mloss` is the mean loss of all its batches. */
  lemma LargeBatchMlossIsMean(xs: seq<LossVec>, first: nat, numWarm: nat, batchSize: nat)
    requires numWarm > 0 && batchSize >= 43 && AllLossVecs(xs)
    ensures EpochMloss(xs, |xs|, first, numWarm, batchSize) == Mean(xs)
  {
    forall n: nat | first <= n < first + |xs|
      ensures Gate(n, numWarm, batchSize)
    {
      AccumulateOneForLargeBatch(n, numWarm, batchSize);
    }
    MlossIsMeanWhenEveryBatchSteps(xs, |xs|, first, numWarm, batchSize);
    assert xs[..|xs|] == xs;
  }

  /** Each checkpoint of the log holds the model as it stands after the
      optimizer steps of the epochs up to and including its own. */
  ghost predicate ModelsMatchSteps(saved: seq<SavedFile>, batchPerEpoch: nat, numWarm: nat, batchSize: nat)
    requires numWarm > 0 && batchSize >= 1
  {
    forall e :: 0 <= e < |saved| ==>
      saved[e].ckpt.model == |GatedIters(NumIter(0, batchPerEpoch, e + 1), numWarm, batchSize)|
  }

  lemma ModelsMatchStepsSnoc(saved: seq<SavedFile>, last: SavedFile, batchPerEpoch: nat, numWarm: nat, batchSize: nat)
    requires numWarm > 0 && batchSize >= 1
    requires ModelsMatchSteps(saved, batchPerEpoch, numWarm, batchSize)
    requires last.ckpt.model == |GatedIters(NumIter(0, batchPerEpoch, |saved| + 1), numWarm, batchSize)|
    ensures ModelsMatchSteps(saved + [last], batchPerEpoch, numWarm, batchSize)
  {
    var s := saved + [last];
    forall e | 0 <= e < |s|
      ensures s[e].ckpt.model == |GatedIters(NumIter(0, batchPerEpoch, e + 1), numWarm, batchSize)|
    {
      if e < |saved| {
        assert s[e] == saved[e];
      }
    }
  }

  /** The state `train()` keeps across iterations. */
  class Trainer {
    const batchPerEpoch: nat
    const batchSize: nat
    const totalEpochs: int
    const savePath: string
    const numWarm: nat

    /** Backward passes per optimizer step currently in force. */
    var accumulate: int
    /** Backward passes whose gradients sit in `.grad` since the last `zero_grad()`. */
    var pendingGrads: nat
    /** Number of `scaler.step(optimizer)` calls. */
    var optimizerSteps: nat
    var mloss: LossVec
    /** `scheduler.last_epoch`. */
    var schedulerCursor: int
    /** Every `torch.save` so far, in order. */
    var saved: seq<SavedFile>

    /** Global steps processed so far, which is also the next `num_iter`. */
    ghost var iters: nat
    /** The `num_iter` of every optimizer step, in order. */
    ghost var gated: seq<nat>
    /** Backward passes folded into an optimizer step. */
    ghost var appliedGrads: nat
    /** Backward passes cleared by the `zero_grad()` at an epoch start without a step. */
    ghost var discardedGrads: nat

    ghost predicate Valid()
      reads this
    {
      && batchSize >= 1
      && numWarm == NumWarm(batchPerEpoch)
      && accumulate == (if iters == 0 then InitAccumulate(batchSize) else AccumulateAt(iters - 1, numWarm, batchSize))
      && |mloss| == LossComponents
      && gated == GatedIters(iters, numWarm, batchSize)
      && optimizerSteps == |gated|
      && appliedGrads + discardedGrads + pendingGrads == iters
      && schedulerCursor == StartEpoch - 1 + |saved|
      && IsCheckpointLog(saved, savePath, StartEpoch, totalEpochs)
    }

    /** Lines before the epoch loop: warm-up length, initial cadence, and the
        scheduler cursor set to `start_epoch - 1`. */
    constructor (batchPerEpoch: nat, batchSize: nat, totalEpochs: int, savePath: string)
      requires batchSize >= 1
      ensures Valid()
      ensures this.batchPerEpoch == batchPerEpoch && this.batchSize == batchSize
      ensures this.totalEpochs == totalEpochs && this.savePath == savePath
      ensures accumulate == InitAccumulate(batchSize) && accumulate >= 1
      ensures schedulerCursor == StartEpoch - 1
      ensures iters == 0 && pendingGrads == 0 && optimizerSteps == 0 && saved == []
      ensures appliedGrads == 0 && discardedGrads == 0
    {
      this.batchPerEpoch := batchPerEpoch;
      this.batchSize := batchSize;
      this.totalEpochs := totalEpochs;
      this.savePath := savePath;
      numWarm := NumWarm(batchPerEpoch);
      accumulate := InitAccumulate(batchSize);
      pendingGrads := 0;
      optimizerSteps := 0;
      mloss := Zeros();
      schedulerCursor := StartEpoch - 1;
      saved := [];
      iters := 0;
      gated := [];
      appliedGrads := 0;
      discardedGrads := 0;
    }

    /** Start of an epoch: `optimizer.zero_grad()` and `mloss = zeros(4)`. */
    method BeginEpoch()
      requires Valid()
      modifies this
      ensures Valid()
      ensures pendingGrads == 0 && mloss == Zeros()
      ensures discardedGrads == old(discardedGrads) + old(pendingGrads)
      ensures accumulate == old(accumulate) && optimizerSteps == old(optimizerSteps)
      ensures schedulerCursor == old(schedulerCursor) && saved == old(saved)
      ensures iters == old(iters) && gated == old(gated) && appliedGrads == old(appliedGrads)
    {
      discardedGrads := discardedGrads + pendingGrads;
      pendingGrads := 0;
      mloss := Zeros();
    }

    /** One batch: warm-up recompute of `accumulate`, the backward pass, and on
        gated steps the optimizer step, `zero_grad()` and the `mloss` update. */
    method Step(epoch: nat, batchId: nat, lossItems: LossVec) returns (stepped: bool)
      requires Valid()
      requires epoch == StartEpoch + |saved| && batchId < batchPerEpoch
      requires iters == NumIter(batchId, batchPerEpoch, epoch)
      requires |lossItems| == LossComponents
      modifies this
      ensures Valid()
      ensures var n := NumIter(batchId, batchPerEpoch, epoch);
        && accumulate == AccumulateAt(n, numWarm, batchSize)
        && (n > numWarm ==> accumulate == old(accumulate))
        && stepped == Gate(n, numWarm, batchSize)
        && gated == old(gated) + (if stepped then [n] else [])
      ensures optimizerSteps == old(optimizerSteps) + (if stepped then 1 else 0)
      ensures pendingGrads == (if stepped then 0 else old(pendingGrads) + 1)
      ensures mloss == (if stepped then MeanUpdate(old(mloss), batchId, lossItems) else old(mloss))
      ensures iters == old(iters) + 1 && discardedGrads == old(discardedGrads)
      ensures schedulerCursor == old(schedulerCursor) && saved == old(saved)
    {
      var numIter := NumIter(batchId, batchPerEpoch, epoch);
      if numIter <= numWarm {
        accumulate := WarmAccumulate(numIter, numWarm, batchSize);
      } else {
        AccumulateSteady(numIter - 1, numWarm, batchSize);
      }
      // the backward pass of line 95 adds one pending pass
      pendingGrads := pendingGrads + 1;
      stepped := numIter % accumulate == 0;
      if stepped {
        optimizerSteps := optimizerSteps + 1;
        appliedGrads := appliedGrads + pendingGrads;
        pendingGrads := 0;
        mloss := MeanUpdate(mloss, batchId, lossItems);
      }
      GatedItersSnoc(numIter, numWarm, batchSize);
      gated := gated + (if stepped then [numIter] else []);
      iters := iters + 1;
    }

    /** End of an epoch: one `scheduler.step()`, then the checkpoint of this
        epoch, without optimizer state on the last one. */
    method EndEpoch(epoch: nat)
      requires Valid()
      requires epoch == StartEpoch + |saved|
      modifies this
      ensures Valid()
      ensures schedulerCursor == old(schedulerCursor) + 1
      ensures saved == old(saved) + [SavedFile(CkptPath(savePath, epoch),
        Checkpoint(epoch, optimizerSteps, if epoch + 1 == totalEpochs then None else Some(optimizerSteps)))]
      ensures accumulate == old(accumulate) && pendingGrads == old(pendingGrads)
      ensures optimizerSteps == old(optimizerSteps) && mloss == old(mloss)
      ensures iters == old(iters) && gated == old(gated)
      ensures appliedGrads == old(appliedGrads) && discardedGrads == old(discardedGrads)
    {
      schedulerCursor := schedulerCursor + 1;
      var ckpt := Checkpoint(epoch, optimizerSteps,
                             if epoch + 1 == totalEpochs then None else Some(optimizerSteps));
      CheckpointLogSnoc(saved, savePath, StartEpoch, totalEpochs, SavedFile(CkptPath(savePath, epoch), ckpt));
      saved := saved + [SavedFile(CkptPath(savePath, epoch), ckpt)];
    }

    /** The batch loop over `enumerate(dataloader)` (line 75) of one epoch,
        left at the first batch that raises. */
    method RunBatches(epoch: nat, xs: seq<BatchResult>) returns (finished: nat)
      requires Valid()
      requires epoch == StartEpoch + |saved| && iters == NumIter(0, batchPerEpoch, epoch)
      requires |xs| == batchPerEpoch && WellFormedBatches(xs)
      requires pendingGrads == 0 && mloss == Zeros()
      modifies this
      ensures Valid()
      ensures finished == |ReturnedPrefix(xs)| && AllLossVecs(ReturnedPrefix(xs))
      ensures iters == NumIter(finished, batchPerEpoch, epoch)
      ensures mloss == EpochMloss(ReturnedPrefix(xs), finished, NumIter(0, batchPerEpoch, epoch), numWarm, batchSize)
      ensures pendingGrads == PendingAfter(NumIter(0, batchPerEpoch, epoch), finished, numWarm, batchSize)
      ensures discardedGrads == old(discardedGrads)
      ensures saved == old(saved) && schedulerCursor == old(schedulerCursor)
    {
      var batchId: nat := 0;
      while batchId < batchPerEpoch && xs[batchId].Some?
        invariant batchId <= |ReturnedPrefix(xs)|
        invariant Valid()
        invariant saved == old(saved) && schedulerCursor == old(schedulerCursor)
        invariant iters == NumIter(batchId, batchPerEpoch, epoch)
        invariant mloss == EpochMloss(ReturnedPrefix(xs), batchId, NumIter(0, batchPerEpoch, epoch), numWarm, batchSize)
        invariant pendingGrads == PendingAfter(NumIter(0, batchPerEpoch, epoch), batchId, numWarm, batchSize)
        invariant discardedGrads == old(discardedGrads)
      {
        BatchStep(xs, batchId, batchPerEpoch, epoch, numWarm, batchSize);
        var stepped := Step(epoch, batchId, xs[batchId].value);
        batchId := batchId + 1;
      }
      finished := batchId;
    }

    /** One iteration of the epoch loop: the start-of-epoch resets, the batch
        loop over `xs` (what the model and `compute_loss` give for each batch),
        and, when no batch raised, the scheduler step and the checkpoint. It
        returns the number of batches that ran to the end. */
    method TrainEpoch(epoch: nat, xs: seq<BatchResult>) returns (finished: nat)
      requires Valid()
      requires epoch == StartEpoch + |saved| && iters == NumIter(0, batchPerEpoch, epoch)
      requires |xs| == batchPerEpoch && WellFormedBatches(xs)
      modifies this
      ensures Valid()
      ensures finished == |ReturnedPrefix(xs)| && AllLossVecs(ReturnedPrefix(xs))
      ensures iters == NumIter(finished, batchPerEpoch, epoch)
      ensures optimizerSteps == |GatedIters(iters, numWarm, batchSize)|
      ensures mloss == EpochMloss(ReturnedPrefix(xs), finished, NumIter(0, batchPerEpoch, epoch), numWarm, batchSize)
      ensures finished == batchPerEpoch ==>
        && saved == old(saved) + [SavedFile(CkptPath(savePath, epoch),
             Checkpoint(epoch, optimizerSteps, if epoch + 1 == totalEpochs then None else Some(optimizerSteps)))]
        && schedulerCursor == old(schedulerCursor) + 1
      ensures finished < batchPerEpoch ==> saved == old(saved) && schedulerCursor == old(schedulerCursor)
      ensures finished == batchPerEpoch ==> iters == NumIter(0, batchPerEpoch, epoch + 1)
      ensures pendingGrads == PendingAfter(NumIter(0, batchPerEpoch, epoch), finished, numWarm, batchSize)
      ensures discardedGrads == old(discardedGrads) + old(pendingGrads)
      ensures finished == batchPerEpoch ==> pendingGrads == LeftAtEpochStart(epoch + 1, batchPerEpoch, numWarm, batchSize)
      ensures old(discardedGrads) == DroppedBefore(epoch, batchPerEpoch, numWarm, batchSize)
              && old(pendingGrads) == LeftAtEpochStart(epoch, batchPerEpoch, numWarm, batchSize)
              ==> discardedGrads == DroppedBefore(epoch + 1, batchPerEpoch, numWarm, batchSize)
    {
      BeginEpoch();
      finished := RunBatches(epoch, xs);
      if finished == batchPerEpoch {
        NumIterNextEpoch(batchPerEpoch, epoch);
        EndEpoch(epoch);
      }
    }

    /** The epoch loop `for epoch in range(start_epoch, total_epochs)`, left
        early by the exception of the first batch that raises. It returns
        how many epochs finished and, if one raised, after how many of its
        batches. */
    method TrainEpochs(batches: seq<seq<BatchResult>>) returns (epochsFinished: nat, raisedAfter: Option<nat>)
      requires Valid() && iters == 0 && saved == [] && pendingGrads == 0 && discardedGrads == 0
      requires |batches| == EpochCount(totalEpochs)
      requires forall e :: 0 <= e < |batches| ==> |batches[e]| == batchPerEpoch && WellFormedBatches(batches[e])
      modifies this
      ensures Valid()
      ensures epochsFinished == CompletedEpochs(batches) && |saved| == epochsFinished
      ensures epochsFinished == |batches| ==> raisedAfter == None && iters == NumIter(0, batchPerEpoch, epochsFinished)
      ensures epochsFinished == |batches| && epochsFinished > 0 ==>
        mloss == EpochMloss(ReturnedPrefix(batches[epochsFinished - 1]), batchPerEpoch,
                            NumIter(0, batchPerEpoch, epochsFinished - 1), numWarm, batchSize)
      ensures epochsFinished < |batches| ==>
        && raisedAfter == Some(|ReturnedPrefix(batches[epochsFinished])|)
        && iters == NumIter(|ReturnedPrefix(batches[epochsFinished])|, batchPerEpoch, epochsFinished)
        && mloss == EpochMloss(ReturnedPrefix(batches[epochsFinished]), |ReturnedPrefix(batches[epochsFinished])|,
                               NumIter(0, batchPerEpoch, epochsFinished), numWarm, batchSize)
      ensures ModelsMatchSteps(saved, batchPerEpoch, numWarm, batchSize)
      ensures epochsFinished == |batches| ==>
        && pendingGrads == LeftAtEpochStart(epochsFinished, batchPerEpoch, numWarm, batchSize)
        && discardedGrads == DroppedBefore(epochsFinished, batchPerEpoch, numWarm, batchSize)
      ensures epochsFinished < |batches| ==>
        && pendingGrads == PendingAfter(NumIter(0, batchPerEpoch, epochsFinished),
                                        |ReturnedPrefix(batches[epochsFinished])|, numWarm, batchSize)
        && discardedGrads == DroppedBefore(epochsFinished + 1, batchPerEpoch, numWarm, batchSize)
    {
      var epoch: nat := StartEpoch;
      raisedAfter := None;
      while epoch < totalEpochs
        invariant epoch <= CompletedEpochs(batches) && raisedAfter == None
        invariant Valid()
        invariant |saved| == epoch && iters == NumIter(0, batchPerEpoch, epoch)
        invariant epoch > 0 ==>
          mloss == EpochMloss(ReturnedPrefix(batches[epoch - 1]), batchPerEpoch,
                              NumIter(0, batchPerEpoch, epoch - 1), numWarm, batchSize)
        invariant ModelsMatchSteps(saved, batchPerEpoch, numWarm, batchSize)
        invariant pendingGrads == LeftAtEpochStart(epoch, batchPerEpoch, numWarm, batchSize)
        invariant discardedGrads == DroppedBefore(epoch, batchPerEpoch, numWarm, batchSize)
        decreases totalEpochs - epoch
      {
        ghost var before := saved;
        var finished := TrainEpoch(epoch, batches[epoch - StartEpoch]);
        CompletedEpochsStep(batches, epoch);
        if finished < batchPerEpoch {
          // the exception leaves `train()` before the scheduler step and the save
          raisedAfter := Some(finished);
          break;
        }
        ghost var last := saved[epoch];
        assert saved == before + [last];
        ModelsMatchStepsSnoc(before, last, batchPerEpoch, numWarm, batchSize);
        epoch := epoch + 1;
      }
      epochsFinished := epoch;
    }
  }

  /** `train()`: the set-up, the epoch loop and the final log line.
      `batches[e][b]` is what the model and `compute_loss` give for batch `b`
      of epoch `StartEpoch + e`; the first `None` ends the run with the
      exception. */
  method Run(totalEpochs: int, batchPerEpoch: nat, batchSize: nat, savePath: string,
             batches: seq<seq<BatchResult>>)
    returns (t: Trainer, outcome: Outcome)
    requires batchSize >= 1
    requires |batches| == EpochCount(totalEpochs)
    requires forall e :: 0 <= e < |batches| ==> |batches[e]| == batchPerEpoch && WellFormedBatches(batches[e])
    ensures fresh(t) && t.Valid()
    ensures t.batchPerEpoch == batchPerEpoch && t.batchSize == batchSize
    ensures t.totalEpochs == totalEpochs && t.savePath == savePath
    ensures var c := CompletedEpochs(batches);
      && |t.saved| == c
      && t.schedulerCursor == StartEpoch - 1 + c
      && (c == |batches| ==>
            && outcome == (if totalEpochs > StartEpoch then Completed(totalEpochs - StartEpoch) else EpochUnbound)
            && t.iters == NumIter(0, batchPerEpoch, c))
      && (c < |batches| ==>
            && outcome == Raised(StartEpoch + c, |ReturnedPrefix(batches[c])|)
            && t.iters == NumIter(|ReturnedPrefix(batches[c])|, batchPerEpoch, c))
    ensures var c := CompletedEpochs(batches);
      && (c == |batches| && c > 0 ==>
            t.mloss == EpochMloss(ReturnedPrefix(batches[c - 1]), batchPerEpoch,
                                  NumIter(0, batchPerEpoch, c - 1), NumWarm(batchPerEpoch), batchSize))
      && (c < |batches| ==>
            t.mloss == EpochMloss(ReturnedPrefix(batches[c]), |ReturnedPrefix(batches[c])|,
                                  NumIter(0, batchPerEpoch, c), NumWarm(batchPerEpoch), batchSize))
    ensures t.gated == GatedIters(t.iters, NumWarm(batchPerEpoch), batchSize)
    ensures ModelsMatchSteps(t.saved, batchPerEpoch, NumWarm(batchPerEpoch), batchSize)
    ensures t.appliedGrads + t.discardedGrads + t.pendingGrads == t.iters
    ensures var c := CompletedEpochs(batches);
      && (c == |batches| ==>
            && t.pendingGrads == LeftAtEpochStart(c, batchPerEpoch, NumWarm(batchPerEpoch), batchSize)
            && t.discardedGrads == DroppedBefore(c, batchPerEpoch, NumWarm(batchPerEpoch), batchSize))
      && (c < |batches| ==>
            && t.pendingGrads == PendingAfter(NumIter(0, batchPerEpoch, c), |ReturnedPrefix(batches[c])|,
                                              NumWarm(batchPerEpoch), batchSize)
            && t.discardedGrads == DroppedBefore(c + 1, batchPerEpoch, NumWarm(batchPerEpoch), batchSize))
  {
    t := new Trainer(batchPerEpoch, batchSize, totalEpochs, savePath);
    var epochsFinished, raisedAfter := t.TrainEpochs(batches);
    assert epochsFinished == CompletedEpochs(batches);
    match raisedAfter {
      case Some(b) => outcome := Raised(StartEpoch + epochsFinished, b);
      case None =>
        var epoch := StartEpoch + epochsFinished;
        outcome := if epoch == StartEpoch then EpochUnbound else Completed((epoch - 1) - StartEpoch + 1);
    }
  }
}
