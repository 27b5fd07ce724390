/**
 * The windowing discipline of MetaOptimizer.forward: how the aggregated
 * context is trimmed at offset `m - 1` (m = min_train_samples) and offset
 * against the train queries and the next-token queries.
 *
 * A batch is a sequence of per-sample rows: every channel of the source's
 * dictionary shares the sample axis and is sliced the same way, so one
 * sequence slice stands for the slice of every channel.
 */
module Windowing {

  /** Python's `s[k:]` for k >= 0: empty once k is past the end. */
  function Drop<T>(s: seq<T>, k: nat): (r: seq<T>)
    ensures |r| == if k <= |s| then |s| - k else 0
    ensures forall i :: 0 <= i < |r| ==> r[i] == s[k + i]
  {
    if k <= |s| then s[k..] else []
  }

  /** Python's `s[:-1]`: all but the last element, empty for an empty s. */
  function DropLast<T>(s: seq<T>): (r: seq<T>)
    ensures |r| == if |s| == 0 then 0 else |s| - 1
    ensures forall i :: 0 <= i < |r| ==> r[i] == s[i]
  {
    if |s| == 0 then [] else s[..|s| - 1]
  }

  /** The number of windows: the length of `range(m - 1, samples)`. */
  function WindowCount(samples: nat, m: nat): nat
    requires m >= 1
  {
    if samples + 1 >= m then samples + 1 - m else 0
  }

  /**
   * The draws of `random.randint(0, i)` for i in `range(m - 1, samples)`:
   * one per window, the k-th one in [0, m - 1 + k] (both ends included).
   */
  predicate ValidDraws(draws: seq<int>, samples: nat, m: nat)
    requires m >= 1
  {
    && |draws| == WindowCount(samples, m)
    && forall k :: 0 <= k < |draws| ==> 0 <= draws[k] <= m - 1 + k
  }

  /** The four windowed tensors `forward` derives, with the train indices drawn. */
  datatype Windowed<X, Z> = Windowed(
    trainIndices: seq<int>,
    xTrain: seq<X>,
    xNext: seq<X>,
    zTrain: seq<Z>,
    zNext: seq<Z>)

  /**
   * `z[m-1:]`, then `z_train = z[1:]` and `z_nexttoken = z[:-1]` of it,
   * `x_train = x[train_indices]` and `x_nexttoken = x[m-1:]`.
   */
  function Window<X, Z>(x: seq<X>, z: seq<Z>, m: nat, draws: seq<int>): (w: Windowed<X, Z>)
    requires m >= 1 && ValidDraws(draws, |x|, m)
    ensures w.trainIndices == draws
    ensures |w.xTrain| == |w.xNext| == WindowCount(|x|, m)
    ensures forall k :: 0 <= k < |w.xTrain| ==>
      0 <= w.trainIndices[k] <= m - 1 + k && w.xTrain[k] == x[w.trainIndices[k]]
    ensures forall k :: 0 <= k < |w.xNext| ==> w.xNext[k] == x[m - 1 + k]
  {
    var trimmed := Drop(z, m - 1);
    Windowed(
      draws,
      seq(|draws|, k requires 0 <= k < |draws| => x[draws[k]]),
      Drop(x, m - 1),
      Drop(trimmed, 1),
      DropLast(trimmed))
  }

  /**
   * When the aggregator returns one context per prefix length 0..S (so
   * |z| == S + 1), all four windowed sequences have one entry per window,
   * the train context of window k is z[m + k] and its next-token context
   * is z[m - 1 + k].
   */
  lemma WindowAlignment<X, Z>(x: seq<X>, z: seq<Z>, m: nat, draws: seq<int>)
    requires m >= 1 && ValidDraws(draws, |x|, m)
    requires |z| == |x| + 1
    ensures var w := Window(x, z, m, draws);
      && |w.xTrain| == |w.xNext| == |w.zTrain| == |w.zNext| == WindowCount(|x|, m)
      && (forall k :: 0 <= k < |w.zTrain| ==> w.zTrain[k] == z[m + k])
      && (forall k :: 0 <= k < |w.zNext| ==> w.zNext[k] == z[m - 1 + k])
  {
  }

  /** An aggregator output whose position i summarizes the prefix x[..i]. */
  ghost predicate Causal<X, Z>(x: seq<X>, z: seq<Z>, summarize: seq<X> -> Z)
  {
    |z| == |x| + 1 && forall i :: 0 <= i <= |x| ==> z[i] == summarize(x[..i])
  }

  /**
   * With a causal aggregator, the train target of window k is a sample the
   * train context has already seen (it lies in the prefix that context
   * summarizes), while the next-token target is the first sample right
   * after the prefix the next-token context summarizes.
   */
  lemma {:induction false} TargetsAgainstContexts<X, Z>(
    x: seq<X>, z: seq<Z>, m: nat, draws: seq<int>, summarize: seq<X> -> Z, k: nat)
    requires m >= 1 && ValidDraws(draws, |x|, m)
    requires Causal(x, z, summarize)
    requires k < WindowCount(|x|, m)
    ensures var w := Window(x, z, m, draws);
      && w.zTrain[k] == summarize(x[..m + k])
      && w.trainIndices[k] < |x[..m + k]|
      && w.xTrain[k] == x[..m + k][w.trainIndices[k]]
      && w.zNext[k] == summarize(x[..m - 1 + k])
      && |x[..m - 1 + k]| < |x|
      && w.xNext[k] == x[|x[..m - 1 + k]|]
  {
    WindowAlignment(x, z, m, draws);
  }
}
