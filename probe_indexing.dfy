/**
 * Index bookkeeping of MetaOptimizerForRegression.log_model_vs_true: the
 * filter on the requested context sizes, the tile / repeat-interleave
 * pairing of contexts with query-grid rows, and the counter that groups the
 * context samples.
 */
module ProbeIndexing {
  import opened Outcomes

  datatype ProbeError =
    | InvalidBatchSize(batchSize: nat)
    | MaxOfEmptySequence
    | SampleIndexOutOfRange(index: nat)
    | ViewShapeMismatch(rows: nat, expected: nat)

  /** `[n for n in requested if n >= m and n < zLen - 1]`. */
  function FilterContextSizes(requested: seq<int>, m: int, zLen: int): (r: seq<int>)
    ensures |r| <= |requested|
    ensures forall n :: n in r <==> n in requested && m <= n < zLen - 1
  {
    if |requested| == 0 then []
    else
      var init, n := requested[..|requested| - 1], requested[|requested| - 1];
      assert requested == init + [n];
      FilterContextSizes(init, m, zLen) + (if m <= n < zLen - 1 then [n] else [])
  }

  /** The filter keeps the original order: it distributes over concatenation. */
  lemma {:induction false} FilterConcat(a: seq<int>, b: seq<int>, m: int, zLen: int)
    ensures FilterContextSizes(a + b, m, zLen) == FilterContextSizes(a, m, zLen) + FilterContextSizes(b, m, zLen)
  {
    if |b| == 0 {
      assert a + b == a;
    } else {
      var init := b[..|b| - 1];
      assert (a + b)[..|a + b| - 1] == a + init;
      FilterConcat(a, init, m, zLen);
    }
  }

  predicate StrictlyIncreasing(ns: seq<int>)
  {
    forall j, k :: 0 <= j < k < |ns| ==> ns[j] < ns[k]
  }

  /**
   * Sizes requested in increasing order stay in increasing order after the
   * filter, so the grouping loop's counter meets them one by one.
   */
  lemma {:induction false} FilterKeepsIncrease(requested: seq<int>, m: int, zLen: int)
    requires StrictlyIncreasing(requested)
    ensures StrictlyIncreasing(FilterContextSizes(requested, m, zLen))
  {
    if |requested| > 0 {
      var init, n := requested[..|requested| - 1], requested[|requested| - 1];
      assert requested == init + [n];
      FilterKeepsIncrease(init, m, zLen);
      var kept := FilterContextSizes(init, m, zLen);
      forall j | 0 <= j < |kept|
        ensures kept[j] < n
      {
        assert kept[j] in init;
      }
    }
  }

  function Max(ns: seq<int>): (mx: int)
    requires |ns| > 0
    ensures mx in ns
    ensures forall k :: 0 <= k < |ns| ==> ns[k] <= mx
  {
    if |ns| == 1 then ns[0]
    else
      var rest := Max(ns[..|ns| - 1]);
      if ns[|ns| - 1] > rest then ns[|ns| - 1] else rest
  }

  /** The length of `range(max(ns))`. */
  function Span(ns: seq<int>): nat
    requires |ns| > 0
  {
    if Max(ns) > 0 then Max(ns) else 0
  }

  /**
   * The counter `n_context_idx` after step i of the grouping loop: it moves
   * on when i meets the size it points at. Whatever the sizes, it stays a
   * valid index for every i below the largest one.
   */
  function Group(ns: seq<int>, i: nat): (g: nat)
    requires |ns| > 0 && i < Max(ns)
    ensures g < |ns|
    ensures forall k :: 0 <= k < g ==> ns[k] <= i
    decreases i
  {
    var before := if i == 0 then 0 else Group(ns, i - 1);
    if ns[before] == i then before + 1 else before
  }

  /**
   * For strictly increasing, non-negative sizes the group of sample i is the
   * number of sizes at most i, and the size it is labelled with,
   * ns[Group(ns, i)], is the smallest size above i.
   */
  lemma {:induction false} GroupCountsSizes(ns: seq<int>, i: nat)
    requires |ns| > 0 && i < Max(ns)
    requires StrictlyIncreasing(ns) && ns[0] >= 0
    ensures forall k :: 0 <= k < |ns| ==> (k < Group(ns, i) <==> ns[k] <= i)
    ensures ns[Group(ns, i)] > i
  {
    if i > 0 {
      GroupCountsSizes(ns, i - 1);
    }
  }

  /** One row of the context table. */
  datatype ContextRow<X, Y> = ContextRow(taskId: nat, nContext: int, nContextGroup: nat, x: X, y: Y)

  /** Every sample row of the context holds at least nTasks task columns. */
  predicate ContextFits<X, Y>(xs: seq<seq<X>>, ys: seq<seq<Y>>, nTasks: nat)
  {
    |xs| == |ys| && forall i :: 0 <= i < |xs| ==> |xs[i]| >= nTasks && |ys[i]| >= nTasks
  }

  /** The rows the grouping loop appends for task t. */
  function TaskRows<X, Y>(ns: seq<int>, xs: seq<seq<X>>, ys: seq<seq<Y>>, t: nat): (rows: seq<ContextRow<X, Y>>)
    requires |ns| > 0 && Span(ns) <= |xs| && ContextFits(xs, ys, t + 1)
    ensures |rows| == Span(ns)
  {
    seq(Span(ns), i requires 0 <= i < Span(ns) =>
      var g := Group(ns, i);
      ContextRow(t, ns[g], g, xs[i][t], ys[i][t]))
  }

  /** The whole context table for tasks 0 .. nTasks - 1, task after task. */
  function ContextTableSpec<X, Y>(ns: seq<int>, xs: seq<seq<X>>, ys: seq<seq<Y>>, nTasks: nat): (rows: seq<ContextRow<X, Y>>)
    requires nTasks == 0 || (|ns| > 0 && Span(ns) <= |xs|)
    requires ContextFits(xs, ys, nTasks)
  {
    if nTasks == 0 then [] else ContextTableSpec(ns, xs, ys, nTasks - 1) + TaskRows(ns, xs, ys, nTasks - 1)
  }

  lemma MulMonotone(a: nat, b: nat, c: nat)
    requires a <= b
    ensures a * c <= b * c
  {
  }

  lemma MulSucc(a: nat, c: nat)
    ensures (a + 1) * c == a * c + c
  {
  }

  lemma {:induction false} ContextTableLength<X, Y>(ns: seq<int>, xs: seq<seq<X>>, ys: seq<seq<Y>>, nTasks: nat)
    requires |ns| > 0 && Span(ns) <= |xs| && ContextFits(xs, ys, nTasks)
    ensures |ContextTableSpec(ns, xs, ys, nTasks)| == nTasks * Span(ns)
  {
    if nTasks > 0 {
      ContextTableLength(ns, xs, ys, nTasks - 1);
      MulSucc(nTasks - 1, Span(ns));
    }
  }

  /** Row t * Span + i of the table is sample i of task t. */
  lemma {:induction false} ContextTableAt<X, Y>(ns: seq<int>, xs: seq<seq<X>>, ys: seq<seq<Y>>, nTasks: nat, t: nat, i: nat)
    requires |ns| > 0 && Span(ns) <= |xs| && ContextFits(xs, ys, nTasks)
    requires t < nTasks && i < Span(ns)
    ensures |ContextTableSpec(ns, xs, ys, nTasks)| == nTasks * Span(ns)
    ensures ContextTableSpec(ns, xs, ys, nTasks)[t * Span(ns) + i] == TaskRows(ns, xs, ys, t)[i]
  {
    var s := Span(ns);
    ContextTableLength(ns, xs, ys, nTasks);
    ContextTableLength(ns, xs, ys, nTasks - 1);
    var init := ContextTableSpec(ns, xs, ys, nTasks - 1);
    assert ContextTableSpec(ns, xs, ys, nTasks) == init + TaskRows(ns, xs, ys, nTasks - 1);
    if t < nTasks - 1 {
      ContextTableAt(ns, xs, ys, nTasks - 1, t, i);
      MulSucc(t, s);
      MulMonotone(t + 1, nTasks - 1, s);
      assert t * s + i < |init|;
    } else {
      assert t * s + i == |init| + i;
    }
  }

  /** The rows of a task, one sample longer. */
  lemma TaskRowsSnoc<X, Y>(ns: seq<int>, xs: seq<seq<X>>, ys: seq<seq<Y>>, t: nat, i: nat)
    requires |ns| > 0 && Span(ns) <= |xs| && ContextFits(xs, ys, t + 1) && i < Span(ns)
    ensures i < Max(ns)
    ensures TaskRows(ns, xs, ys, t)[..i + 1] ==
      TaskRows(ns, xs, ys, t)[..i] + [ContextRow(t, ns[Group(ns, i)], Group(ns, i), xs[i][t], ys[i][t])]
  {
    var task := TaskRows(ns, xs, ys, t);
    assert task[..i + 1] == task[..i] + [task[i]];
  }

  /**
   * One pass of the grouping loop of `log_model_vs_true`, for task t: sample
   * i gets the counter's group and the size it points at. A largest size
   * beyond the sample count fails on the first sample index past the end.
   */
  method TaskContextRows<X, Y>(ns: seq<int>, xs: seq<seq<X>>, ys: seq<seq<Y>>, t: nat)
    returns (r: Result<seq<ContextRow<X, Y>>, ProbeError>)
    requires |ns| > 0 && ContextFits(xs, ys, t + 1)
    ensures Span(ns) > |xs| ==> r == Failure(SampleIndexOutOfRange(|xs|))
    ensures Span(ns) <= |xs| ==> r == Success(TaskRows(ns, xs, ys, t))
  {
    var rows := [];
    var idx := 0;
    for i := 0 to Span(ns)
      invariant i <= |xs|
      invariant idx == if i == 0 then 0 else Group(ns, i - 1)
      invariant Span(ns) <= |xs| ==> rows == TaskRows(ns, xs, ys, t)[..i]
    {
      if i == ns[idx] {
        idx := idx + 1;
      }
      assert idx == Group(ns, i);
      if i >= |xs| {
        return Failure(SampleIndexOutOfRange(i));
      }
      if Span(ns) <= |xs| {
        TaskRowsSnoc(ns, xs, ys, t, i);
      }
      rows := rows + [ContextRow(t, ns[idx], idx, xs[i][t], ys[i][t])];
    }
    assert rows == TaskRows(ns, xs, ys, t)[..Span(ns)] == TaskRows(ns, xs, ys, t);
    r := Success(rows);
  }

  /**
   * The grouping loop of `log_model_vs_true`, over any list of sizes, task
   * after task. `max()` of an empty list fails as soon as one task is
   * visited.
   */
  method ContextTable<X, Y>(ns: seq<int>, xs: seq<seq<X>>, ys: seq<seq<Y>>, nTasks: nat)
    returns (r: Result<seq<ContextRow<X, Y>>, ProbeError>)
    requires ContextFits(xs, ys, nTasks)
    ensures |ns| == 0 && nTasks > 0 ==> r == Failure(MaxOfEmptySequence)
    ensures |ns| > 0 && nTasks > 0 && Span(ns) > |xs| ==> r == Failure(SampleIndexOutOfRange(|xs|))
    ensures nTasks == 0 || (|ns| > 0 && Span(ns) <= |xs|) ==> r == Success(ContextTableSpec(ns, xs, ys, nTasks))
  {
    var rows := [];
    for t := 0 to nTasks
      invariant t > 0 ==> |ns| > 0 && Span(ns) <= |xs|
      invariant rows == ContextTableSpec(ns, xs, ys, t)
    {
      if |ns| == 0 {
        return Failure(MaxOfEmptySequence);
      }
      var task := TaskContextRows(ns, xs, ys, t);
      if task.Failure? {
        return Failure(task.error);
      }
      rows := rows + task.value;
    }
    r := Success(rows);
  }

  /** `z[n_context_points]`: the contexts at the chosen sizes. */
  function Select<Z>(z: seq<Z>, ns: seq<int>): (r: seq<Z>)
    requires forall j :: 0 <= j < |ns| ==> 0 <= ns[j] < |z|
    ensures |r| == |ns| && forall j :: 0 <= j < |ns| ==> r[j] == z[ns[j]]
  {
    seq(|ns|, j requires 0 <= j < |ns| => z[ns[j]])
  }

  /** `t.repeat(n, 1, ...)` along the first axis: n copies of s, back to back. */
  function Tile<T>(s: seq<T>, n: nat): (r: seq<T>)
    ensures |r| == n * |s|
  {
    if n == 0 then [] else Tile(s, n - 1) + s
  }

  /** `t.repeat_interleave(k, dim=0)`: each element of s, k times in a row. */
  function RepeatInterleave<T>(s: seq<T>, k: nat): (r: seq<T>)
    ensures |r| == |s| * k
  {
    if |s| == 0 then [] else RepeatInterleave(s[..|s| - 1], k) + seq(k, _ => s[|s| - 1])
  }

  /** `flat.view(rows, cols, ...)` along the first axis. */
  function View<T>(flat: seq<T>, rows: nat, cols: nat): (v: seq<seq<T>>)
    requires |flat| == rows * cols
    ensures |v| == rows && forall r :: 0 <= r < rows ==> |v[r]| == cols
  {
    if rows == 0 then [] else [flat[..cols]] + View(flat[cols..], rows - 1, cols)
  }

  /** Row r * |s| + j of the tiled sequence is s[j]. */
  lemma {:induction false} TileAt<T>(s: seq<T>, n: nat, r: nat, j: nat)
    requires r < n && j < |s|
    ensures r * |s| + j < |Tile(s, n)| && Tile(s, n)[r * |s| + j] == s[j]
  {
    MulMonotone(r + 1, n, |s|);
    if r < n - 1 {
      TileAt(s, n - 1, r, j);
      MulMonotone(r + 1, n - 1, |s|);
    }
  }

  /** Row r * k + j of the interleaved sequence is s[r]. */
  lemma {:induction false} RepeatInterleaveAt<T>(s: seq<T>, k: nat, r: nat, j: nat)
    requires r < |s| && j < k
    ensures r * k + j < |RepeatInterleave(s, k)| && RepeatInterleave(s, k)[r * k + j] == s[r]
  {
    var last := |s| - 1;
    MulMonotone(r + 1, |s|, k);
    if r < last {
      RepeatInterleaveAt(s[..last], k, r, j);
      MulMonotone(r + 1, last, k);
    }
  }

  /** Entry (r, j) of the view is flat[r * cols + j]. */
  lemma {:induction false} ViewAt<T>(flat: seq<T>, rows: nat, cols: nat, r: nat, j: nat)
    requires |flat| == rows * cols && r < rows && j < cols
    ensures r * cols + j < |flat| && View(flat, rows, cols)[r][j] == flat[r * cols + j]
  {
    MulSucc(r, cols);
    MulMonotone(r + 1, rows, cols);
    MulSucc(rows - 1, cols);
    var rest := flat[cols..];
    assert |rest| == (rows - 1) * cols;
    if r > 0 {
      ViewAt(rest, rows - 1, cols, r - 1, j);
      MulSucc(r - 1, cols);
      assert View(flat, rows, cols)[r] == View(rest, rows - 1, cols)[r - 1];
      assert rest[(r - 1) * cols + j] == flat[r * cols + j];
    }
  }
}
