/**
 * The accumulation loop of MetaOptimizer.on_train_end: per-batch losses,
 * boundary-trimmed, reduced over tasks and folded into running curves
 * indexed by the number of context samples.
 */
module Diagnostics {
  import opened Outcomes
  import opened Windowing

  /** The per-sample, per-task losses (samples x tasks) of one batch's two branches. */
  datatype BatchLosses = BatchLosses(train: seq<seq<real>>, nextToken: seq<seq<real>>)

  /** One logged point of the curves. */
  datatype SamplePoint = SamplePoint(nSamples: int, lossTrain: real, lossNextToken: real)

  function Sum(row: seq<real>): real
  {
    if |row| == 0 then 0.0 else Sum(row[..|row| - 1]) + row[|row| - 1]
  }

  lemma {:induction false} SumConcat(a: seq<real>, b: seq<real>)
    ensures Sum(a + b) == Sum(a) + Sum(b)
  {
    if |b| == 0 {
      assert a + b == a;
    } else {
      assert (a + b)[..|a + b| - 1] == a + b[..|b| - 1];
      SumConcat(a, b[..|b| - 1]);
    }
  }

  /** `loss.sum(dim=-1) / num_tasks`: each sample row summed over its tasks. */
  function TaskMeans(rows: seq<seq<real>>, numTasks: nat): (v: seq<real>)
    requires numTasks > 0
    ensures |v| == |rows|
    ensures forall i :: 0 <= i < |v| ==> v[i] == Sum(rows[i]) / numTasks as real
  {
    seq(|rows|, i requires 0 <= i < |rows| => Sum(rows[i]) / numTasks as real)
  }

  /** A batch's train curve: `loss_train[:-1]` reduced over tasks. */
  function TrainCurve(b: BatchLosses, numTasks: nat): (v: seq<real>)
    requires numTasks > 0
    ensures |v| == if |b.train| == 0 then 0 else |b.train| - 1
    ensures forall i :: 0 <= i < |v| ==> i + 1 < |b.train| && v[i] == Sum(b.train[i]) / numTasks as real
  {
    TaskMeans(DropLast(b.train), numTasks)
  }

  /** A batch's next-token curve: `loss_nexttoken[1:]` reduced over tasks. */
  function NextTokenCurve(b: BatchLosses, numTasks: nat): (v: seq<real>)
    requires numTasks > 0
    ensures |v| == if |b.nextToken| == 0 then 0 else |b.nextToken| - 1
    ensures forall i :: 0 <= i < |v| ==> i + 1 < |b.nextToken| && v[i] == Sum(b.nextToken[i + 1]) / numTasks as real
  {
    TaskMeans(Drop(b.nextToken, 1), numTasks)
  }

  function TrainCurves(batches: seq<BatchLosses>, numTasks: nat): (vs: seq<seq<real>>)
    requires |batches| > 0 ==> numTasks > 0
  {
    seq(|batches|, b requires 0 <= b < |batches| => TrainCurve(batches[b], numTasks))
  }

  function NextTokenCurves(batches: seq<BatchLosses>, numTasks: nat): (vs: seq<seq<real>>)
    requires |batches| > 0 ==> numTasks > 0
  {
    seq(|batches|, b requires 0 <= b < |batches| => NextTokenCurve(batches[b], numTasks))
  }

  /** Elementwise `+` of two vectors of one shape. */
  function Add(u: seq<real>, v: seq<real>): (r: seq<real>)
    requires |u| == |v|
    ensures |r| == |u| && forall i :: 0 <= i < |r| ==> r[i] == u[i] + v[i]
  {
    seq(|u|, i requires 0 <= i < |u| => u[i] + v[i])
  }

  predicate SameLength(vs: seq<seq<real>>)
  {
    forall b :: 0 <= b < |vs| ==> |vs[b]| == |vs[0]|
  }

  /** The plain sum of every batch's vector: what the accumulation evidently intends. */
  function SumVecs(vs: seq<seq<real>>): (r: seq<real>)
    requires |vs| > 0 && SameLength(vs)
    ensures |r| == |vs[0]|
  {
    if |vs| == 1 then vs[0] else Add(SumVecs(vs[..|vs| - 1]), vs[|vs| - 1])
  }

  /**
   * The accumulation as written: the first batch's vector becomes the
   * accumulator itself (an alias), and the in-place `+=` that follows adds
   * that vector to itself; every later batch is added once.
   */
  function AccumulatedAsWritten(vs: seq<seq<real>>): (r: seq<real>)
    requires |vs| > 0 && SameLength(vs)
    ensures |r| == |vs[0]|
  {
    if |vs| == 1 then Add(vs[0], vs[0]) else Add(AccumulatedAsWritten(vs[..|vs| - 1]), vs[|vs| - 1])
  }

  /** Entry i of every batch's vector, in batch order. */
  function Column(vs: seq<seq<real>>, i: nat): (c: seq<real>)
    requires forall b :: 0 <= b < |vs| ==> i < |vs[b]|
    ensures |c| == |vs|
  {
    seq(|vs|, b requires 0 <= b < |vs| => vs[b][i])
  }

  /** The as-written accumulator is the intended sum plus the first batch once more. */
  lemma {:induction false} AsWrittenCountsFirstTwice(vs: seq<seq<real>>)
    requires |vs| > 0 && SameLength(vs)
    ensures AccumulatedAsWritten(vs) == Add(SumVecs(vs), vs[0])
  {
    if |vs| > 1 {
      var init := vs[..|vs| - 1];
      assert init[0] == vs[0];
      AsWrittenCountsFirstTwice(init);
    }
  }

  /** Entry i of the intended sum is the sum of entry i over all batches. */
  lemma {:induction false} SumVecsAt(vs: seq<seq<real>>, i: nat)
    requires |vs| > 0 && SameLength(vs) && i < |vs[0]|
    ensures SumVecs(vs)[i] == Sum(Column(vs, i))
  {
    if |vs| > 1 {
      var init := vs[..|vs| - 1];
      SumVecsAt(init, i);
      assert Column(vs, i)[..|vs| - 1] == Column(init, i);
    } else {
      assert Column(vs, i) == [] + [vs[0][i]];
    }
  }

  /** Entry i of the as-written accumulator is 2*b1[i] + b2[i] + ... + bn[i]. */
  lemma AsWrittenAt(vs: seq<seq<real>>, i: nat)
    requires |vs| > 0 && SameLength(vs) && i < |vs[0]|
    ensures AccumulatedAsWritten(vs)[i] == 2.0 * vs[0][i] + Sum(Column(vs[1..], i))
  {
    AsWrittenCountsFirstTwice(vs);
    SumVecsAt(vs, i);
    assert Column(vs, i) == [vs[0][i]] + Column(vs[1..], i);
    SumConcat([vs[0][i]], Column(vs[1..], i));
    assert [vs[0][i]] == [] + [vs[0][i]];
  }

  /** Batches with a common number of windows give curves of a common length. */
  lemma CurvesSameLength(batches: seq<BatchLosses>, numTasks: nat)
    requires |batches| > 0 ==> numTasks > 0
    requires forall k :: 0 <= k < |batches| ==>
      |batches[k].train| == |batches[0].train| && |batches[k].nextToken| == |batches[0].nextToken|
    ensures SameLength(TrainCurves(batches, numTasks))
    ensures SameLength(NextTokenCurves(batches, numTasks))
  {
    var t, u := TrainCurves(batches, numTasks), NextTokenCurves(batches, numTasks);
    forall k | 0 <= k < |batches|
      ensures |t[k]| == |t[0]| && |u[k]| == |u[0]|
    {
      assert t[k] == TrainCurve(batches[k], numTasks) && t[0] == TrainCurve(batches[0], numTasks);
      assert u[k] == NextTokenCurve(batches[k], numTasks) && u[0] == NextTokenCurve(batches[0], numTasks);
    }
  }

  /** One more vector: the first is doubled, every later one added once. */
  lemma AsWrittenSnoc(vs: seq<seq<real>>, v: seq<real>)
    requires SameLength(vs + [v])
    ensures |vs| == 0 ==> AccumulatedAsWritten(vs + [v]) == Add(v, v)
    ensures |vs| > 0 ==> SameLength(vs) && |v| == |vs[0]|
    ensures |vs| > 0 ==> AccumulatedAsWritten(vs + [v]) == Add(AccumulatedAsWritten(vs), v)
  {
    var all := vs + [v];
    assert all[..|vs|] == vs;
    assert all[|vs|] == v;
    if |vs| > 0 {
      assert all[0] == vs[0];
      assert forall k :: 0 <= k < |vs| ==> vs[k] == all[k];
    }
  }

  /**
   * What the accumulators hold after the first b curves of each kind: None
   * before any batch, the as-written folds afterwards.
   */
  ghost predicate AccumulatedSoFar(r: Option<(seq<real>, seq<real>)>, trains: seq<seq<real>>, nexts: seq<seq<real>>, b: nat)
    requires b <= |trains| && b <= |nexts| && SameLength(trains) && SameLength(nexts)
  {
    if b == 0 then r.None?
    else
      && SameLength(trains[..b]) && SameLength(nexts[..b])
      && r == Some((AccumulatedAsWritten(trains[..b]), AccumulatedAsWritten(nexts[..b])))
  }

  /** One pass of the accumulation loop keeps `AccumulatedSoFar`. */
  lemma AccumulateStep(r: Option<(seq<real>, seq<real>)>, trains: seq<seq<real>>, nexts: seq<seq<real>>, b: nat)
    requires b < |trains| && b < |nexts| && SameLength(trains) && SameLength(nexts)
    requires AccumulatedSoFar(r, trains, nexts, b)
    ensures var acc := if r.None? then (trains[b], nexts[b]) else r.value;
      && |acc.0| == |trains[b]| && |acc.1| == |nexts[b]|
      && AccumulatedSoFar(Some((Add(acc.0, trains[b]), Add(acc.1, nexts[b]))), trains, nexts, b + 1)
  {
    assert trains[..b + 1] == trains[..b] + [trains[b]];
    assert nexts[..b + 1] == nexts[..b] + [nexts[b]];
    assert SameLength(trains[..b + 1]) && SameLength(nexts[..b + 1]);
    AsWrittenSnoc(trains[..b], trains[b]);
    AsWrittenSnoc(nexts[..b], nexts[b]);
  }

  /**
   * The accumulation loop of `on_train_end` over the batches' trimmed
   * curves: the first batch's vectors become the accumulators themselves,
   * and every batch, the first included, is then added in place.
   */
  method FoldAsWritten(trains: seq<seq<real>>, nexts: seq<seq<real>>)
    returns (r: Option<(seq<real>, seq<real>)>)
    requires |trains| == |nexts| && SameLength(trains) && SameLength(nexts)
    ensures r.None? <==> |trains| == 0
    ensures r.Some? ==> r.value == (AccumulatedAsWritten(trains), AccumulatedAsWritten(nexts))
  {
    r := None;
    for b := 0 to |trains|
      invariant AccumulatedSoFar(r, trains, nexts, b)
    {
      AccumulateStep(r, trains, nexts, b);
      var acc := if r.None? then (trains[b], nexts[b]) else r.value;
      r := Some((Add(acc.0, trains[b]), Add(acc.1, nexts[b])));
    }
    assert trains[..|trains|] == trains && nexts[..|nexts|] == nexts;
  }

  /**
   * `on_train_end`'s accumulation for one dataloader: each batch contributes
   * its boundary-trimmed curves, folded as written; no batch at all (an
   * empty dataset, with `num_tasks == 0`, among others) leaves the
   * accumulator None (the source then fails on `len(None)`). The task count
   * divides only when a batch arrives.
   */
  method AccumulateSampleLosses(batches: seq<BatchLosses>, numTasks: nat)
    returns (r: Option<(seq<real>, seq<real>)>)
    requires |batches| > 0 ==> numTasks > 0
    requires forall b :: 0 <= b < |batches| ==>
      |batches[b].train| == |batches[0].train| && |batches[b].nextToken| == |batches[0].nextToken|
    ensures r.None? <==> |batches| == 0
    ensures r.Some? ==>
      && SameLength(TrainCurves(batches, numTasks))
      && SameLength(NextTokenCurves(batches, numTasks))
      && r.value.0 == AccumulatedAsWritten(TrainCurves(batches, numTasks))
      && r.value.1 == AccumulatedAsWritten(NextTokenCurves(batches, numTasks))
  {
    CurvesSameLength(batches, numTasks);
    r := FoldAsWritten(TrainCurves(batches, numTasks), NextTokenCurves(batches, numTasks));
  }

  /** The reporting loop: accumulated point i is logged with `n_samples = i + m`. */
  method SampleLossPoints(curveTrain: seq<real>, curveNext: seq<real>, m: int) returns (points: seq<SamplePoint>)
    requires |curveNext| >= |curveTrain|
    ensures |points| == |curveTrain|
    ensures forall i :: 0 <= i < |points| ==> points[i] == SamplePoint(i + m, curveTrain[i], curveNext[i])
  {
    points := [];
    for i := 0 to |curveTrain|
      invariant |points| == i
      invariant forall j :: 0 <= j < i ==> points[j] == SamplePoint(j + m, curveTrain[j], curveNext[j])
    {
      var nSamples := i + m;
      points := points + [SamplePoint(nSamples, curveTrain[i], curveNext[i])];
    }
  }

  /** How reporting one dataloader's curves fails. */
  datatype ReportError =
    | NoBatches                          // `len(None)`: the loader yielded nothing
    | NextTokenCurveTooShort(index: nat) // the reporting loop indexes past the next-token curve

  /**
   * `on_train_end` for one dataloader: accumulate the trimmed curves, then
   * report point i of each with `n_samples = i + m`. A next-token curve
   * shorter than the train curve fails at its first missing index; the
   * points logged before that index are not kept.
   */
  method ReportSampleLosses(batches: seq<BatchLosses>, numTasks: nat, m: int)
    returns (r: Result<seq<SamplePoint>, ReportError>)
    requires |batches| > 0 ==> numTasks > 0
    requires forall b :: 0 <= b < |batches| ==>
      |batches[b].train| == |batches[0].train| && |batches[b].nextToken| == |batches[0].nextToken|
    ensures |batches| == 0 ==> r == Failure(NoBatches)
    ensures |batches| > 0 ==>
      && SameLength(TrainCurves(batches, numTasks))
      && SameLength(NextTokenCurves(batches, numTasks))
      && var train := AccumulatedAsWritten(TrainCurves(batches, numTasks));
      && var next := AccumulatedAsWritten(NextTokenCurves(batches, numTasks));
      && (|next| < |train| ==> r == Failure(NextTokenCurveTooShort(|next|)))
      && (|next| >= |train| ==>
            && r.Success?
            && |r.value| == |train|
            && forall i :: 0 <= i < |train| ==> r.value[i] == SamplePoint(i + m, train[i], next[i]))
  {
    var curves := AccumulateSampleLosses(batches, numTasks);
    if curves.None? {
      return Failure(NoBatches);
    }
    var (train, next) := curves.value;
    if |next| < |train| {
      return Failure(NextTokenCurveTooShort(|next|));
    }
    var points := SampleLossPoints(train, next, m);
    r := Success(points);
  }

  /**
   * Why the trimming and the label fit: the train row kept at point i
   * (window i) and the next-token row kept at point i (window i + 1) were
   * both predicted from z[i + m], the context of the first n_samples = i + m
   * samples.
   */
  lemma {:induction false} CurvePointContext<X, Z>(x: seq<X>, z: seq<Z>, m: nat, draws: seq<int>, i: nat)
    requires m >= 1 && ValidDraws(draws, |x|, m) && |z| == |x| + 1
    requires i + 1 < WindowCount(|x|, m)
    ensures var w := Window(x, z, m, draws);
      w.zTrain[i] == w.zNext[i + 1] == z[i + m]
  {
    WindowAlignment(x, z, m, draws);
  }

  /** Row i of every batch's task columns, joined in batch order: row i of the whole population. */
  function ConcatRow(ms: seq<seq<seq<real>>>, i: nat): seq<real>
    requires forall b :: 0 <= b < |ms| ==> i < |ms[b]|
  {
    if |ms| == 0 then [] else ConcatRow(ms[..|ms| - 1], i) + ms[|ms| - 1][i]
  }

  /**
   * The intended accumulation does not depend on how tasks are split into
   * batches: entry i of the summed per-batch means is the sum of row i over
   * every task of the population, divided by the task count.
   */
  lemma {:induction false} SumOfBatchMeans(vs: seq<seq<real>>, ms: seq<seq<seq<real>>>, numTasks: nat, i: nat)
    requires numTasks > 0
    requires |vs| == |ms| > 0 && SameLength(vs) && i < |vs[0]|
    requires forall b :: 0 <= b < |ms| ==> i < |ms[b]| && vs[b][i] == Sum(ms[b][i]) / numTasks as real
    ensures SumVecs(vs)[i] == Sum(ConcatRow(ms, i)) / numTasks as real
  {
    if |vs| == 1 {
      assert ms[..0] == [];
      assert ConcatRow(ms, i) == ms[0][i];
    } else {
      var k := |vs| - 1;
      var init, initRows := vs[..k], ms[..k];
      assert SameLength(init) && init[0] == vs[0];
      forall b | 0 <= b < k
        ensures i < |initRows[b]| && init[b][i] == Sum(initRows[b][i]) / numTasks as real
      {
        assert initRows[b] == ms[b] && init[b] == vs[b];
      }
      SumOfBatchMeans(init, initRows, numTasks, i);
      var a, c := Sum(ConcatRow(initRows, i)), Sum(ms[k][i]);
      ConcatRowLast(ms, i);
      SumVecsLast(vs, i);
      MeanOfParts(SumVecs(vs)[i], SumVecs(init)[i], vs[k][i], a, c, Sum(ConcatRow(ms, i)), numTasks as real);
    }
  }

  /** The last batch's row closes the population row. */
  lemma ConcatRowLast(ms: seq<seq<seq<real>>>, i: nat)
    requires |ms| > 0 && forall b :: 0 <= b < |ms| ==> i < |ms[b]|
    ensures Sum(ConcatRow(ms, i)) == Sum(ConcatRow(ms[..|ms| - 1], i)) + Sum(ms[|ms| - 1][i])
  {
    SumConcat(ConcatRow(ms[..|ms| - 1], i), ms[|ms| - 1][i]);
  }

  /** The last batch's vector closes the intended sum. */
  lemma SumVecsLast(vs: seq<seq<real>>, i: nat)
    requires |vs| > 1 && SameLength(vs) && i < |vs[0]|
    ensures SameLength(vs[..|vs| - 1])
    ensures SumVecs(vs)[i] == SumVecs(vs[..|vs| - 1])[i] + vs[|vs| - 1][i]
  {
    assert vs[..|vs| - 1][0] == vs[0];
  }

  /** Two parts, each a sum divided by n, add up to their total divided by n. */
  lemma MeanOfParts(whole: real, left: real, right: real, a: real, c: real, total: real, n: real)
    requires n > 0.0
    requires whole == left + right && left == a / n && right == c / n && total == a + c
    ensures whole == total / n
  {
  }

  /**
   * The intended train curve over any batch partition is the population
   * mean of each kept train row.
   */
  lemma CorrectedTrainCurveIsPopulationMean(batches: seq<BatchLosses>, numTasks: nat, i: nat)
    requires numTasks > 0 && |batches| > 0
    requires SameLength(TrainCurves(batches, numTasks))
    requires i < |TrainCurve(batches[0], numTasks)|
    ensures var trains := seq(|batches|, b requires 0 <= b < |batches| => batches[b].train);
      (forall b :: 0 <= b < |batches| ==> i < |trains[b]|) &&
      SumVecs(TrainCurves(batches, numTasks))[i] == Sum(ConcatRow(trains, i)) / numTasks as real
  {
    var trains := seq(|batches|, b requires 0 <= b < |batches| => batches[b].train);
    var vs := TrainCurves(batches, numTasks);
    forall b | 0 <= b < |batches|
      ensures i < |trains[b]| && vs[b][i] == Sum(trains[b][i]) / numTasks as real
    {
      assert |vs[b]| == |vs[0]|;
    }
    SumOfBatchMeans(vs, trains, numTasks, i);
  }

  /**
   * The first batch is counted twice: one batch whose single kept row has
   * loss 1.0 for its only task yields 2.0 as written, where its mean is 1.0.
   */
  lemma FirstBatchCountedTwice()
    ensures var batches := [BatchLosses([[1.0], [0.0]], [[0.0], [1.0]])];
      && TrainCurves(batches, 1) == [[1.0]]
      && AccumulatedAsWritten(TrainCurves(batches, 1)) == [2.0]
      && SumVecs(TrainCurves(batches, 1)) == [1.0]
  {
    var batches := [BatchLosses([[1.0], [0.0]], [[0.0], [1.0]])];
    assert Sum([1.0]) == 1.0 by {
      assert [1.0][..0] == [];
    }
    assert TrainCurve(batches[0], 1) == [1.0];
  }

  /** Two batches of one task each, kept train loss 1.0: 1.5 as written, 1.0 summed plainly. */
  lemma SplitBatchesCurve()
    ensures var one := BatchLosses([[1.0], [0.0]], [[0.0], [1.0]]);
      && AccumulatedAsWritten(TrainCurves([one, one], 2)) == [1.5]
      && SumVecs(TrainCurves([one, one], 2)) == [1.0]
  {
    var one := BatchLosses([[1.0], [0.0]], [[0.0], [1.0]]);
    assert Sum([1.0]) == 1.0 by {
      assert [1.0][..0] == [];
    }
    assert DropLast(one.train) == [[1.0]];
    assert TrainCurve(one, 2) == [0.5];
    var curves := TrainCurves([one, one], 2);
    assert curves == [[0.5], [0.5]];
    assert curves[..1] == [[0.5]];
    assert AccumulatedAsWritten([[0.5]]) == [1.0] by {
      assert [[0.5]] == [] + [[0.5]];
      AsWrittenSnoc([], [0.5]);
      assert Add([0.5], [0.5]) == [1.0];
    }
    assert AccumulatedAsWritten(curves) == [1.5] by {
      assert curves == [[0.5]] + [[0.5]];
      AsWrittenSnoc([[0.5]], [0.5]);
      assert Add([1.0], [0.5]) == [1.5];
    }
    assert SumVecs(curves) == [1.0] by {
      assert SumVecs(curves) == Add(SumVecs([[0.5]]), [0.5]);
      assert Add([0.5], [0.5]) == [1.0];
    }
  }

  /** One batch of the same two tasks: 2.0 as written, 1.0 summed plainly. */
  lemma OneBatchCurve()
    ensures var both := BatchLosses([[1.0, 1.0], [0.0, 0.0]], [[0.0, 0.0], [1.0, 1.0]]);
      && AccumulatedAsWritten(TrainCurves([both], 2)) == [2.0]
      && SumVecs(TrainCurves([both], 2)) == [1.0]
  {
    var both := BatchLosses([[1.0, 1.0], [0.0, 0.0]], [[0.0, 0.0], [1.0, 1.0]]);
    assert Sum([1.0, 1.0]) == 2.0 by {
      assert [1.0, 1.0][..1] == [1.0];
      assert [1.0][..0] == [];
    }
    assert DropLast(both.train) == [[1.0, 1.0]];
    assert TrainCurve(both, 2) == [1.0];
    var curves := TrainCurves([both], 2);
    assert curves == [[1.0]];
    assert Add([1.0], [1.0]) == [2.0];
  }

  /**
   * As written, the curve depends on the batch split: two tasks with kept
   * train loss 1.0 give 1.5 in two batches of one task and 2.0 in one batch
   * of two tasks; the intended sum gives 1.0 both times.
   */
  lemma AsWrittenDependsOnBatching()
    ensures var one := BatchLosses([[1.0], [0.0]], [[0.0], [1.0]]);
      var both := BatchLosses([[1.0, 1.0], [0.0, 0.0]], [[0.0, 0.0], [1.0, 1.0]]);
      && AccumulatedAsWritten(TrainCurves([one, one], 2)) == [1.5]
      && AccumulatedAsWritten(TrainCurves([both], 2)) == [2.0]
      && SumVecs(TrainCurves([one, one], 2)) == SumVecs(TrainCurves([both], 2)) == [1.0]
  {
    SplitBatchesCurve();
    OneBatchCurve();
  }
}
