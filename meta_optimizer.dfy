/**
 * MetaOptimizer: the module-level `training` flag, the objective selector in
 * `forward` and the loss selection in `losses_and_metrics`.
 */
module MetaOptimizers {
  import opened Outcomes
  import opened Windowing

  /** The two prediction branches of `forward`. */
  datatype Branch = TrainBranch | NextTokenBranch

  /** A call into an external model, with the mode it ran in. */
  datatype Event =
    | Aggregate(training: bool, gradEnabled: bool)
    | Predict(branch: Branch, training: bool, gradEnabled: bool)

  datatype ForwardError = InvalidMetaObjective(objective: string)

  /** The six results of `forward`. */
  datatype Forwarded<X, Z, P> = Forwarded(predsTrain: seq<P>, predsNext: seq<P>, window: Windowed<X, Z>)
  {
    function Preds(b: Branch): seq<P>
    {
      match b
      case TrainBranch => predsTrain
      case NextTokenBranch => predsNext
    }
  }

  /** The queries a branch is evaluated on. */
  function Queries<X, Z>(w: Windowed<X, Z>, b: Branch): seq<X>
  {
    match b
    case TrainBranch => w.xTrain
    case NextTokenBranch => w.xNext
  }

  /** The aggregated contexts a branch is evaluated with. */
  function Contexts<X, Z>(w: Windowed<X, Z>, b: Branch): seq<Z>
  {
    match b
    case TrainBranch => w.zTrain
    case NextTokenBranch => w.zNext
  }

  function Other(b: Branch): Branch
  {
    match b
    case TrainBranch => NextTokenBranch
    case NextTokenBranch => TrainBranch
  }

  /** The branch a meta-objective optimizes; None for an unknown objective. */
  function OptimizedBranch(objective: string): Option<Branch>
  {
    if objective == "train" then Some(TrainBranch)
    else if objective == "prequential" then Some(NextTokenBranch)
    else None
  }

  /** The log prefix `losses_and_metrics` picks from the training flag. */
  function LogPrefix(training: bool): (r: string)
    ensures training <==> r == "train_tasks"
    ensures !training <==> r == "val_tasks"
  {
    if training then "train_tasks" else "val_tasks"
  }

  /** The returned scalar loss and the (name, value) pairs logged beside it. */
  datatype Metrics<R> = Metrics(loss: R, logged: seq<(string, R)>)

  class MetaOptimizer {
    /** nn.Module's training flag, flipped by `self.train(mode)`. */
    var training: bool
    var metaObjective: string
    const minTrainSamples: int
    /** The calls made into the aggregator and the predictor, in order. */
    ghost var trace: seq<Event>

    /** A new module is in training mode; the objective is checked against its Literal type. */
    constructor (metaObjective: string, minTrainSamples: int)
      requires metaObjective == "train" || metaObjective == "prequential"
      ensures training && trace == []
      ensures this.metaObjective == metaObjective && this.minTrainSamples == minTrainSamples
    {
      training := true;
      this.metaObjective := metaObjective;
      this.minTrainSamples := minTrainSamples;
      trace := [];
    }

    /**
     * `forward`: aggregate, window, then run the optimized branch first in the
     * current mode and the other one second with `training` cleared and
     * gradients disabled; restore `training`. `gradEnabled` is the ambient
     * autograd mode the call starts in; `draws` are the random train indices.
     */
    method Forward<X, Z, P>(
      x: seq<X>,
      aggregate: seq<X> -> seq<Z>,
      predict: (bool, seq<X>, seq<Z>) -> seq<P>,
      draws: seq<int>,
      gradEnabled: bool)
      returns (r: Result<Forwarded<X, Z, P>, ForwardError>)
      requires minTrainSamples >= 1 && ValidDraws(draws, |x|, minTrainSamples)
      modifies this`training, this`trace
      ensures training == old(training)
      ensures OptimizedBranch(metaObjective).None? ==>
        && r == Failure(InvalidMetaObjective(metaObjective))
        && trace == old(trace) + [Aggregate(old(training), gradEnabled)]
      ensures OptimizedBranch(metaObjective).Some? ==>
        var b := OptimizedBranch(metaObjective).value;
        var w := Window(x, aggregate(x), minTrainSamples, draws);
        && r.Success?
        && r.value.window == w
        && r.value.Preds(b) == predict(old(training), Queries(w, b), Contexts(w, b))
        && r.value.Preds(Other(b)) == predict(false, Queries(w, Other(b)), Contexts(w, Other(b)))
        && trace == old(trace) + [
             Aggregate(old(training), gradEnabled),
             Predict(b, old(training), gradEnabled),
             Predict(Other(b), false, false)]
    {
      var z := aggregate(x);
      trace := trace + [Aggregate(training, gradEnabled)];
      var w := Window(x, z, minTrainSamples, draws);
      var mode := training;
      var predsTrain, predsNext;
      if metaObjective == "train" {
        predsTrain := predict(training, w.xTrain, w.zTrain);
        trace := trace + [Predict(TrainBranch, training, gradEnabled)];
        training := false;
        // inference mode: gradients off for the monitored branch
        predsNext := predict(training, w.xNext, w.zNext);
        trace := trace + [Predict(NextTokenBranch, training, false)];
      } else if metaObjective == "prequential" {
        predsNext := predict(training, w.xNext, w.zNext);
        trace := trace + [Predict(NextTokenBranch, training, gradEnabled)];
        training := false;
        predsTrain := predict(training, w.xTrain, w.zTrain);
        trace := trace + [Predict(TrainBranch, training, false)];
      } else {
        return Failure(InvalidMetaObjective(metaObjective));
      }
      training := mode;
      r := Success(Forwarded(predsTrain, predsNext, w));
    }

    /**
     * `losses_and_metrics`: both branch losses are computed and logged under
     * the mode prefix; the one returned is the train loss exactly for the
     * "train" objective. `lossOf` is `loss_function(...).mean()`.
     */
    function LossesAndMetrics<X, Z, P, R>(f: Forwarded<X, Z, P>, lossOf: (seq<X>, seq<P>) -> R): (m: Metrics<R>)
      reads this
      ensures metaObjective == "train" ==> m.loss == lossOf(f.window.xTrain, f.predsTrain)
      ensures metaObjective != "train" ==> m.loss == lossOf(f.window.xNext, f.predsNext)
      ensures m.logged == [
        (LogPrefix(training) + "/loss_train", lossOf(f.window.xTrain, f.predsTrain)),
        (LogPrefix(training) + "/loss_nexttoken", lossOf(f.window.xNext, f.predsNext))]
    {
      var mode := LogPrefix(training);
      var lossTrain := lossOf(f.window.xTrain, f.predsTrain);
      var lossNext := lossOf(f.window.xNext, f.predsNext);
      var loss := if metaObjective == "train" then lossTrain else lossNext;
      Metrics(loss, [(mode + "/loss_train", lossTrain), (mode + "/loss_nexttoken", lossNext)])
    }
  }

  /**
   * The scalar `losses_and_metrics` returns is the loss of the branch that
   * `forward` ran first, in the caller's mode and with gradients: the
   * optimized branch of the objective.
   */
  lemma LossFollowsOptimizedBranch<X, Z, P, R>(
    opt: MetaOptimizer, f: Forwarded<X, Z, P>, lossOf: (seq<X>, seq<P>) -> R, b: Branch)
    requires OptimizedBranch(opt.metaObjective) == Some(b)
    ensures opt.LossesAndMetrics(f, lossOf).loss == lossOf(Queries(f.window, b), f.Preds(b))
  {
  }
}
