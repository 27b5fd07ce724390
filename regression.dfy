/**
 * MetaOptimizerForRegression: the single-output-key check of its
 * `loss_function` and the index path of `log_model_vs_true`.
 */
module Regression {
  import opened Outcomes
  import opened ProbeIndexing

  datatype LossError =
    | OutputKeyCount(count: nat)
    | MissingTarget(key: string)

  /** The one key of a single-key dictionary. */
  function OnlyKey<V>(m: map<string, V>): (k: string)
    requires |m| == 1
    ensures m.Keys == {k}
  {
    var k :| k in m;
    assert m.Keys == {k} by {
      assert |m.Keys - {k}| == |m.Keys| - |{k}| == 0;
    }
    k
  }

  /**
   * `loss_function`: predictions must carry exactly one output key, which
   * must also be a key of the targets; the loss is `lossFn` (the elementwise
   * loss averaged over components) of that key's prediction and target.
   */
  function LossFunction<V, L>(target: map<string, V>, preds: map<string, V>, lossFn: (V, V) -> L): (r: Result<L, LossError>)
    ensures r.Success? <==> |preds| == 1 && preds.Keys <= target.Keys
    ensures |preds| != 1 ==> r == Failure(OutputKeyCount(|preds|))
    ensures |preds| == 1 && !(preds.Keys <= target.Keys) ==> r == Failure(MissingTarget(OnlyKey(preds)))
    ensures r.Success? ==> forall key :: key in preds ==> key in target && r.value == lossFn(preds[key], target[key])
  {
    if |preds| != 1 then Failure(OutputKeyCount(|preds|))
    else
      var key := OnlyKey(preds);
      if key !in target then Failure(MissingTarget(key))
      else Success(lossFn(preds[key], target[key]))
  }

  /** The tables `log_model_vs_true` builds: probe sizes, predictions per (grid row, size), context rows. */
  datatype ProbeTables<P, X, Y> = ProbeTables(sizes: seq<int>, predictions: seq<seq<P>>, context: seq<ContextRow<X, Y>>)

  datatype ProbeOutcome<P, X, Y> = Skipped | Logged(tables: ProbeTables<P, X, Y>)

  /**
   * The index path of `log_model_vs_true`. `z` is the aggregator's output on
   * the probe context (normally one entry per prefix length, |xs| + 1),
   * `grid` the query points, `xs`/`ys` the context samples (samples x tasks).
   * Without a logger, or for a non-scalar problem, nothing is done. A probe
   * of no task fails where the loader is built: a batch size must be
   * positive.
   */
  method LogModelVsTrue<G, Z, P, X, Y>(
    hasLogger: bool, xDim: int, yDim: int,
    requested: seq<int>, m: int,
    z: seq<Z>, grid: seq<G>, predict: (seq<G>, seq<Z>) -> seq<P>,
    xs: seq<seq<X>>, ys: seq<seq<Y>>, nProbeTasks: nat)
    returns (r: Result<ProbeOutcome<P, X, Y>, ProbeError>)
    requires m >= 1
    requires ContextFits(xs, ys, nProbeTasks)
    ensures !hasLogger || xDim != 1 || yDim != 1 ==> r == Success(Skipped)
    ensures hasLogger && xDim == 1 && yDim == 1 && nProbeTasks == 0 ==> r == Failure(InvalidBatchSize(0))
    ensures hasLogger && xDim == 1 && yDim == 1 && nProbeTasks > 0 ==>
      var ns := FilterContextSizes(requested, m, |z|);
      && (forall j :: 0 <= j < |ns| ==> m <= ns[j] < |z| - 1)
      && var out := predict(RepeatInterleave(grid, |ns|), Tile(Select(z, ns), |grid|));
      && (|out| != |grid| * |ns| ==> r == Failure(ViewShapeMismatch(|out|, |grid| * |ns|)))
      && (|out| == |grid| * |ns| && |ns| == 0 ==> r == Failure(MaxOfEmptySequence))
      && (|out| == |grid| * |ns| && |ns| > 0 && Span(ns) > |xs| ==>
            r == Failure(SampleIndexOutOfRange(|xs|)))
      && (|out| == |grid| * |ns| && |ns| > 0 && Span(ns) <= |xs| ==>
            r == Success(Logged(ProbeTables(ns, View(out, |grid|, |ns|), ContextTableSpec(ns, xs, ys, nProbeTasks)))))
  {
    if !hasLogger || xDim != 1 || yDim != 1 {
      return Success(Skipped);
    }
    if nProbeTasks == 0 {
      return Failure(InvalidBatchSize(nProbeTasks));
    }
    var ns := FilterContextSizes(requested, m, |z|);
    assert forall j :: 0 <= j < |ns| ==> ns[j] in ns;
    var contexts := Tile(Select(z, ns), |grid|);
    var queries := RepeatInterleave(grid, |ns|);
    var out := predict(queries, contexts);
    if |out| != |grid| * |ns| {
      return Failure(ViewShapeMismatch(|out|, |grid| * |ns|));
    }
    var predictions := View(out, |grid|, |ns|);
    var table := ContextTable(ns, xs, ys, nProbeTasks);
    if table.Failure? {
      return Failure(table.error);
    }
    r := Success(Logged(ProbeTables(ns, predictions, table.value)));
  }

  /**
   * Row r * P + j of the predictor's input pairs grid point r with the
   * context of probe size j, and entry (r, j) of the reshaped output is that
   * row's prediction: the `view(resolution, P, tasks)` matches the tiling
   * of contexts and the interleaving of queries.
   */
  lemma ProbePairing<G, Z, P>(z: seq<Z>, ns: seq<int>, grid: seq<G>, out: seq<P>, r: nat, j: nat)
    requires forall k :: 0 <= k < |ns| ==> 0 <= ns[k] < |z|
    requires |out| == |grid| * |ns|
    requires r < |grid| && j < |ns|
    ensures var row := r * |ns| + j;
      && row < |out|
      && RepeatInterleave(grid, |ns|)[row] == grid[r]
      && Tile(Select(z, ns), |grid|)[row] == z[ns[j]]
      && View(out, |grid|, |ns|)[r][j] == out[row]
  {
    RepeatInterleaveAt(grid, |ns|, r, j);
    TileAt(Select(z, ns), |grid|, r, j);
    ViewAt(out, |grid|, |ns|, r, j);
  }

  /**
   * The probe never reads past the context when the aggregator returns at
   * most two contexts more than there are samples (one per prefix length
   * gives one more): every filtered size indexes the samples' prefix
   * lengths, and the grouping loop stays within the samples.
   */
  lemma FilteredSizesFit<X>(requested: seq<int>, m: int, zLen: nat, xs: seq<X>)
    requires m >= 1 && zLen <= |xs| + 2
    ensures var ns := FilterContextSizes(requested, m, zLen);
      && (forall j :: 0 <= j < |ns| ==> 1 <= ns[j] <= |xs|)
      && (|ns| > 0 ==> Span(ns) <= |xs|)
      && (zLen == |xs| + 1 && |ns| > 0 ==> Span(ns) < |xs|)
  {
    var ns := FilterContextSizes(requested, m, zLen);
    forall j | 0 <= j < |ns|
      ensures m <= ns[j] < zLen - 1
    {
      assert ns[j] in ns;
    }
    if |ns| > 0 {
      var k :| 0 <= k < |ns| && ns[k] == Max(ns);
      assert m <= Max(ns) < zLen - 1;
    }
  }
}
