/** Step arithmetic of the training loop: the global step of a batch, the
    warm-up length, np.interp-style linear interpolation, round-half-to-even,
    and the gradient-accumulation cadence that gates the optimizer. */
module Schedule {

  /** Nominal batch size: the optimizer is meant to step once per this many images. */
  const NominalBatch: nat := 64

  /** Shortest warm-up, in global steps. */
  const MinWarmSteps: nat := 1000

  function Max(a: int, b: int): int { if a >= b then a else b }

  function MinReal(a: real, b: real): real { if a <= b then a else b }

  function MaxReal(a: real, b: real): real { if a >= b then a else b }

  /** Global step `num_iter` of batch `batchId` of epoch `epoch`. */
  function NumIter(batchId: nat, batchPerEpoch: nat, epoch: nat): nat
  {
    batchId + batchPerEpoch * epoch
  }

  /** Global steps follow the lexicographic order of (epoch, batch) pairs, so
      no two batches of a run share a global step. */
  lemma {:induction false} NumIterOrder(b1: nat, e1: nat, b2: nat, e2: nat, batchPerEpoch: nat)
    requires b1 < batchPerEpoch && b2 < batchPerEpoch
    ensures NumIter(b1, batchPerEpoch, e1) < NumIter(b2, batchPerEpoch, e2)
            <==> e1 < e2 || (e1 == e2 && b1 < b2)
    ensures NumIter(b1, batchPerEpoch, e1) == NumIter(b2, batchPerEpoch, e2)
            <==> e1 == e2 && b1 == b2
  {
    if e1 < e2 {
      LaterEpochIsLater(b1, e1, b2, e2, batchPerEpoch);
    } else if e2 < e1 {
      LaterEpochIsLater(b2, e2, b1, e1, batchPerEpoch);
    }
  }

  lemma LaterEpochIsLater(b1: nat, e1: nat, b2: nat, e2: nat, batchPerEpoch: nat)
    requires b1 < batchPerEpoch && e1 < e2
    ensures NumIter(b1, batchPerEpoch, e1) < NumIter(b2, batchPerEpoch, e2)
  {
    MulMonotone(batchPerEpoch, e1 + 1, e2);
    assert batchPerEpoch * (e1 + 1) == batchPerEpoch * e1 + batchPerEpoch;
  }

  lemma {:induction false} MulMonotone(a: nat, x: nat, y: nat)
    requires x <= y
    ensures a * x <= a * y
    decreases y - x
  {
    if x < y {
      MulMonotone(a, x, y - 1);
      assert a * y == a * (y - 1) + a;
    }
  }

  /** The step after the last batch of an epoch is the first batch of the next
      one: global steps run through 0, 1, 2, ... without gaps. */
  lemma NumIterConsecutive(b: nat, e: nat, batchPerEpoch: nat)
    requires b < batchPerEpoch
    ensures NumIter(b, batchPerEpoch, e) + 1
            == if b + 1 < batchPerEpoch then NumIter(b + 1, batchPerEpoch, e)
               else NumIter(0, batchPerEpoch, e + 1)
  {
  }

  /** The global step determines its (epoch, batch) pair: the epoch is the
      quotient and the batch index the remainder by `batch_per_epoch`. */
  lemma {:induction false} NumIterDivMod(batchId: nat, batchPerEpoch: nat, epoch: nat)
    requires batchId < batchPerEpoch
    ensures NumIter(batchId, batchPerEpoch, epoch) / batchPerEpoch == epoch
    ensures NumIter(batchId, batchPerEpoch, epoch) % batchPerEpoch == batchId
  {
    var n := NumIter(batchId, batchPerEpoch, epoch);
    var q, r := n / batchPerEpoch, n % batchPerEpoch;
    assert n == batchPerEpoch * q + r;
    if q > epoch {
      MulMonotone(batchPerEpoch, epoch + 1, q);
      assert false;
    } else if q < epoch {
      MulMonotone(batchPerEpoch, q + 1, epoch);
      assert false;
    }
  }

  /** One past the last batch of an epoch is the first batch of the next. */
  lemma NumIterNextEpoch(batchPerEpoch: nat, epoch: nat)
    ensures NumIter(batchPerEpoch, batchPerEpoch, epoch) == NumIter(0, batchPerEpoch, epoch + 1)
  {
  }

  /** Warm-up length `max(3*batch_per_epoch, 1e3)`. */
  function NumWarm(batchPerEpoch: nat): (w: nat)
    ensures w >= MinWarmSteps && w >= 3 * batchPerEpoch
    ensures w == MinWarmSteps || w == 3 * batchPerEpoch
  {
    Max(3 * batchPerEpoch, MinWarmSteps)
  }

  /** np.interp(x, [x0, x1], [y0, y1]): constant outside [x0, x1], linear inside. */
  function Interp(x: real, x0: real, x1: real, y0: real, y1: real): (y: real)
    requires x0 < x1
    ensures x <= x0 ==> y == y0
    ensures x >= x1 ==> y == y1
    ensures MinReal(y0, y1) <= y <= MaxReal(y0, y1)
  {
    if x <= x0 then y0
    else if x >= x1 then y1
    else
      var t := (x - x0) / (x1 - x0);
      FractionBetween(x - x0, x1 - x0);
      ConvexBetween(y0, y1, t);
      y0 + (y1 - y0) * t
  }

  lemma MulNonNegative(x: real, y: real)
    requires x >= 0.0 && y >= 0.0
    ensures x * y >= 0.0
  {
  }

  lemma MulLe(t: real, u: real, c: real)
    requires c >= 0.0 && t <= u
    ensures c * t <= c * u
  {
    MulNonNegative(u - t, c);
    assert (u - t) * c == u * c - t * c;
  }

  lemma FractionBetween(a: real, b: real)
    requires 0.0 < a < b
    ensures 0.0 < a / b < 1.0
  {
    var q := a / b;
    assert q * b == a;
    if q >= 1.0 {
      MulLe(1.0, q, b);
    }
  }

  lemma ConvexBetween(y0: real, y1: real, t: real)
    requires 0.0 <= t <= 1.0
    ensures MinReal(y0, y1) <= y0 + (y1 - y0) * t <= MaxReal(y0, y1)
  {
    var c := y1 - y0;
    if y0 <= y1 {
      MulLe(0.0, t, c);
      assert 0.0 <= c * t;
      MulLe(t, 1.0, c);
      assert c * t <= c;
      assert y0 <= y0 + c * t <= y1;
    } else {
      var d := y0 - y1;
      MulLe(0.0, t, d);
      assert 0.0 <= d * t;
      MulLe(t, 1.0, d);
      assert d * t <= d;
      assert c * t == -(d * t);
      assert y1 <= y0 + c * t <= y0;
    }
  }

  lemma DivLe(a: real, b: real, w: real)
    requires a <= b && w > 0.0
    ensures a / w <= b / w
  {
    MulLe(a, b, 1.0 / w);
    assert a / w == (1.0 / w) * a && b / w == (1.0 / w) * b;
  }

  /** Linear interpolation over a rising range never decreases. */
  lemma {:induction false} InterpMonotone(x: real, x': real, x0: real, x1: real, y0: real, y1: real)
    requires x0 < x1 && y0 <= y1 && x <= x'
    ensures Interp(x, x0, x1, y0, y1) <= Interp(x', x0, x1, y0, y1)
  {
    if x0 < x && x' < x1 {
      var w := x1 - x0;
      var t, t' := (x - x0) / w, (x' - x0) / w;
      DivLe(x - x0, x' - x0, w);
      assert t <= t';
      MulLe(t, t', y1 - y0);
      assert y0 + (y1 - y0) * t <= y0 + (y1 - y0) * t';
      assert Interp(x, x0, x1, y0, y1) == y0 + (y1 - y0) * t;
      assert Interp(x', x0, x1, y0, y1) == y0 + (y1 - y0) * t';
    }
  }

  /** Python's round() and numpy's .round(): nearest integer, ties to the even one. */
  function RoundHalfEven(x: real): (r: int)
    ensures x - 0.5 <= r as real <= x + 0.5
    ensures r as real == x - 0.5 || r as real == x + 0.5 ==> r % 2 == 0
  {
    var f := x.Floor;
    var d := x - f as real;
    if d < 0.5 then f
    else if d > 0.5 then f + 1
    else if f % 2 == 0 then f
    else f + 1
  }

  /** The two properties in RoundHalfEven's contract pin the result down. */
  lemma {:induction false} RoundHalfEvenUnique(x: real, r: int)
    requires x - 0.5 <= r as real <= x + 0.5
    requires r as real == x - 0.5 || r as real == x + 0.5 ==> r % 2 == 0
    ensures r == RoundHalfEven(x)
  {
  }

  lemma {:induction false} RoundHalfEvenMonotone(x: real, y: real)
    requires x <= y
    ensures RoundHalfEven(x) <= RoundHalfEven(y)
  {
  }

  /** The ratio nbs / batch_size the warm-up ramps towards. */
  function TargetRatio(batchSize: nat): (r: real)
    requires batchSize >= 1
    ensures r > 0.0 && r * batchSize as real == NominalBatch as real
  {
    NominalBatch as real / batchSize as real
  }

  /** `max(round(nbs / batch_size), 1)`: the cadence before and after warm-up. */
  function InitAccumulate(batchSize: nat): (a: int)
    requires batchSize >= 1
    ensures a >= 1
    ensures a == 1 <==> TargetRatio(batchSize) < 1.5
    ensures a > 1 ==> TargetRatio(batchSize) - 0.5 <= a as real <= TargetRatio(batchSize) + 0.5
  {
    Max(RoundHalfEven(TargetRatio(batchSize)), 1)
  }

  /** `max(1, np.interp(num_iter, [0, num_warm], [1, nbs/batch_size]).round())`. */
  function WarmAccumulate(numIter: nat, numWarm: nat, batchSize: nat): (a: int)
    requires numWarm > 0 && batchSize >= 1
    ensures a >= 1
  {
    Max(1, RoundHalfEven(Interp(numIter as real, 0.0, numWarm as real, 1.0, TargetRatio(batchSize))))
  }

  /** The value of `accumulate` in force at global step `numIter` of a run whose
      steps run through 0, 1, 2, ...: recomputed while `numIter <= numWarm`,
      left as the step-`numWarm` value afterwards. */
  function AccumulateAt(numIter: nat, numWarm: nat, batchSize: nat): (a: int)
    requires numWarm > 0 && batchSize >= 1
    ensures a >= 1
  {
    if numIter <= numWarm then WarmAccumulate(numIter, numWarm, batchSize)
    else InitAccumulate(batchSize)
  }

  /** The optimizer steps at global step `numIter` exactly when this holds. */
  predicate Gate(numIter: nat, numWarm: nat, batchSize: nat)
    requires numWarm > 0 && batchSize >= 1
  {
    numIter % AccumulateAt(numIter, numWarm, batchSize) == 0
  }

  /** Warm-up starts at one backward pass per optimizer step. */
  lemma WarmAccumulateStart(numWarm: nat, batchSize: nat)
    requires numWarm > 0 && batchSize >= 1
    ensures WarmAccumulate(0, numWarm, batchSize) == 1
  {
    assert RoundHalfEven(1.0) == 1 by { RoundHalfEvenUnique(1.0, 1); }
  }

  /** Warm-up ends exactly on the cadence computed before the loop. */
  lemma WarmAccumulateEnd(numWarm: nat, batchSize: nat)
    requires numWarm > 0 && batchSize >= 1
    ensures WarmAccumulate(numWarm, numWarm, batchSize) == InitAccumulate(batchSize)
  {
  }

  /** nbs / batch_size lies at or above 1 exactly for batch sizes up to nbs. */
  lemma TargetRatioAtLeastOne(batchSize: nat)
    requires batchSize >= 1
    ensures TargetRatio(batchSize) >= 1.0 <==> batchSize <= NominalBatch
  {
    var r, b := TargetRatio(batchSize), batchSize as real;
    assert r * b == NominalBatch as real;
    if r >= 1.0 {
      MulLe(1.0, r, b);
    } else {
      MulLe(r, 1.0, b);
    }
  }

  /** For batch sizes up to the nominal one the warm-up cadence never falls. */
  lemma {:induction false} WarmAccumulateMonotone(n1: nat, n2: nat, numWarm: nat, batchSize: nat)
    requires numWarm > 0 && 1 <= batchSize <= NominalBatch && n1 <= n2
    ensures WarmAccumulate(n1, numWarm, batchSize) <= WarmAccumulate(n2, numWarm, batchSize)
  {
    var r := TargetRatio(batchSize);
    TargetRatioAtLeastOne(batchSize);
    var v1 := Interp(n1 as real, 0.0, numWarm as real, 1.0, r);
    var v2 := Interp(n2 as real, 0.0, numWarm as real, 1.0, r);
    InterpMonotone(n1 as real, n2 as real, 0.0, numWarm as real, 1.0, r);
    RoundHalfEvenMonotone(v1, v2);
    assert WarmAccumulate(n1, numWarm, batchSize) == Max(1, RoundHalfEven(v1));
    assert WarmAccumulate(n2, numWarm, batchSize) == Max(1, RoundHalfEven(v2));
  }

  /** Over the whole run the cadence never falls when batch_size <= nbs. */
  lemma {:induction false} AccumulateAtMonotone(n1: nat, n2: nat, numWarm: nat, batchSize: nat)
    requires numWarm > 0 && 1 <= batchSize <= NominalBatch && n1 <= n2
    ensures AccumulateAt(n1, numWarm, batchSize) <= AccumulateAt(n2, numWarm, batchSize)
  {
    if n1 <= numWarm {
      var m := if n2 <= numWarm then n2 else numWarm;
      WarmAccumulateMonotone(n1, m, numWarm, batchSize);
      WarmAccumulateEnd(numWarm, batchSize);
    }
  }

  /** From the end of warm-up on, the cadence is the one computed before the loop. */
  lemma AccumulateSteady(numIter: nat, numWarm: nat, batchSize: nat)
    requires numWarm > 0 && batchSize >= 1 && numIter >= numWarm
    ensures AccumulateAt(numIter, numWarm, batchSize) == InitAccumulate(batchSize)
  {
    WarmAccumulateEnd(numWarm, batchSize);
  }

  /** With batch_size >= 43 (so nbs / batch_size < 1.5, e.g. batch_size == nbs)
      every global step is an optimizer step. */
  lemma {:induction false} AccumulateOneForLargeBatch(numIter: nat, numWarm: nat, batchSize: nat)
    requires numWarm > 0 && batchSize >= 43
    ensures AccumulateAt(numIter, numWarm, batchSize) == 1
    ensures Gate(numIter, numWarm, batchSize)
  {
    var r := TargetRatio(batchSize);
    assert 0.0 < r < 1.5 by {
      assert r * batchSize as real == NominalBatch as real;
    }
    var v := if numIter <= numWarm then Interp(numIter as real, 0.0, numWarm as real, 1.0, r) else r;
    assert 0.0 < v < 1.5;
    assert RoundHalfEven(v) <= 1;
  }
}
