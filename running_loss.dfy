/** The per-epoch running mean of the loss components (`mloss`): box,
    objectness, class and total loss, as `compute_loss` reports them. */
module RunningLoss {

  /** Length of `loss_items` and of `mloss`. */
  const LossComponents: nat := 4

  type LossVec = seq<real>

  predicate AllLossVecs(xs: seq<LossVec>)
  {
    forall i :: 0 <= i < |xs| ==> |xs[i]| == LossComponents
  }

  /** `torch.zeros(4)`. */
  function Zeros(): (z: LossVec)
    ensures |z| == LossComponents
    ensures forall j :: 0 <= j < |z| ==> z[j] == 0.0
  {
    seq(LossComponents, _ => 0.0)
  }

  /** `(mloss * batch_id + loss_items) / (batch_id + 1)`, component by component. */
  function MeanUpdate(m: LossVec, batchId: nat, x: LossVec): (r: LossVec)
    requires |m| == |x|
    ensures |r| == |m|
  {
    seq(|m|, j requires 0 <= j < |m| => (m[j] * batchId as real + x[j]) / (batchId + 1) as real)
  }

  /** Component `j` summed over `xs`. */
  function Sum(xs: seq<LossVec>, j: nat): real
    requires forall i :: 0 <= i < |xs| ==> j < |xs[i]|
  {
    if xs == [] then 0.0 else Sum(xs[..|xs| - 1], j) + xs[|xs| - 1][j]
  }

  /** Arithmetic mean of the vectors in `xs`, component by component (zeros for none). */
  function Mean(xs: seq<LossVec>): (m: LossVec)
    requires AllLossVecs(xs)
    ensures |m| == LossComponents
  {
    if xs == [] then Zeros()
    else seq(LossComponents, j requires 0 <= j < LossComponents => Sum(xs, j) / |xs| as real)
  }

  lemma SumSnoc(xs: seq<LossVec>, x: LossVec, j: nat)
    requires AllLossVecs(xs) && |x| == LossComponents && j < LossComponents
    ensures Sum(xs + [x], j) == Sum(xs, j) + x[j]
  {
    assert (xs + [x])[..|xs|] == xs;
  }

  lemma MeanTimesCount(xs: seq<LossVec>, j: nat)
    requires AllLossVecs(xs) && j < LossComponents
    ensures Mean(xs)[j] * |xs| as real == Sum(xs, j)
  {
    if xs != [] {
      var c := |xs| as real;
      assert Mean(xs)[j] == Sum(xs, j) / c;
    }
  }

  /** Folding the vector of batch `|xs|` into the mean of batches `0 .. |xs|-1`
      gives the mean of batches `0 .. |xs|`. */
  lemma {:induction false} MeanUpdateExtendsMean(xs: seq<LossVec>, x: LossVec)
    requires AllLossVecs(xs) && |x| == LossComponents
    ensures MeanUpdate(Mean(xs), |xs|, x) == Mean(xs + [x])
  {
    var n := |xs|;
    var ys := xs + [x];
    var m, r := Mean(xs), MeanUpdate(Mean(xs), n, x);
    forall j | 0 <= j < LossComponents
      ensures r[j] == Mean(ys)[j]
    {
      var p := m[j] * n as real;
      SumSnoc(xs, x, j);
      MeanTimesCount(xs, j);
      assert r[j] == (p + x[j]) / (n + 1) as real;
      assert Mean(ys)[j] == Sum(ys, j) / (n + 1) as real;
    }
  }

  /** Weighing `a` by `w > 1` against `b` misses their mean unless `a == b`. */
  lemma WeightedIsNotMean(a: real, b: real, w: real)
    requires w > 1.0 && a != b
    ensures (a * w + b) / (w + 1.0) != (a + b) / 2.0
  {
    var r, m := (a * w + b) / (w + 1.0), (a + b) / 2.0;
    var d, e := a - b, w - 1.0;
    assert r * (w + 1.0) == a * w + b;
    assert 2.0 * (a * w + b) - (a + b) * (w + 1.0) == d * e;
    assert d == (d * e) / e;
    assert (r - m) * (2.0 * (w + 1.0)) == d * e;
  }

  /** When batches 1 .. k-1 of an epoch skip the update, the update at batch k
      weighs batch 0's losses k times: for k > 1 the result is the mean of the
      two updated batches only in the components where their losses agree. */
  lemma MeanUpdateAfterGap(x: LossVec, y: LossVec, k: nat)
    requires |x| == LossComponents && |y| == LossComponents && k >= 1
    ensures forall j :: 0 <= j < LossComponents ==>
      MeanUpdate(MeanUpdate(Zeros(), 0, x), k, y)[j] == (x[j] * k as real + y[j]) / (k + 1) as real
    ensures forall j :: 0 <= j < LossComponents && k > 1 && x[j] != y[j] ==>
      MeanUpdate(MeanUpdate(Zeros(), 0, x), k, y)[j] != (x[j] + y[j]) / 2.0
  {
    forall j | 0 <= j < LossComponents && k > 1 && x[j] != y[j]
      ensures MeanUpdate(MeanUpdate(Zeros(), 0, x), k, y)[j] != (x[j] + y[j]) / 2.0
    {
      WeightedIsNotMean(x[j], y[j], k as real);
    }
  }
}
