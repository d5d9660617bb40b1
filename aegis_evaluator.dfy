/** Quality gates on a finished training run (aegis/nodes/evaluator.py). */
module Evaluator {
  import opened Wrappers
  import opened State

  const EvalPhase: string := "run_evals"

  /** The training loss above which a run has not converged. */
  const MaxTrainLoss: real := 2.0
  /** The eval-minus-train loss gap above which a run is overfitted. */
  const MaxLossGap: real := 1.0

  /** The one way `run_evals` can raise: `metrics["train_loss"]` looked up when only
      "eval_loss" is present. */
  datatype EvalError = MissingTrainLoss

  /** The canary safety test; a stub that always passes. */
  function RunCanaryTest(modelPath: Option<string>): (passed: bool)
    ensures passed
  {
    true
  }

  /** The training loss as read with a default of `float("inf")`. */
  function FinalLoss(m: Metrics): Loss {
    if m.trainLoss.Some? then Finite(m.trainLoss.value) else Infinite
  }

  /** The training loss is missing or above 2.0. */
  predicate NotConverged(m: Metrics) {
    m.trainLoss.None? || m.trainLoss.value > MaxTrainLoss
  }

  /** Both losses are known and the eval loss exceeds the training loss by more than 1.0. */
  predicate Overfitted(m: Metrics) {
    m.evalLoss.Some? && m.trainLoss.Some? && m.evalLoss.value - m.trainLoss.value > MaxLossGap
  }

  /** The evaluation of an execution result: the failing checks, in the order
      convergence, overfitting, canary. */
  function RunEvals(x: ExecutionResult): (r: Result<EvalResult, EvalError>)
    ensures r.Failure? <==> x.metrics.evalLoss.Some? && x.metrics.trainLoss.None?
    ensures r.Success? ==>
      && r.value.metrics == x.metrics
      && (r.value.passed <==> r.value.failures == [])
      && |r.value.failures| <= 2
  {
    var m := x.metrics;
    var finalLoss := FinalLoss(m);
    var convergence := if finalLoss.Infinite? || finalLoss.value > MaxTrainLoss
      then [LossDidNotConverge(finalLoss)] else [];
    if m.evalLoss.Some? && m.trainLoss.None? then
      Failure(MissingTrainLoss)
    else
      var overfitting := if m.evalLoss.Some? && m.evalLoss.value - m.trainLoss.value > MaxLossGap
        then [SevereOverfitting(m.evalLoss.value - m.trainLoss.value)] else [];
      var canary := if RunCanaryTest(x.modelPath) then [] else [CanaryFailed];
      var failures := convergence + overfitting + canary;
      Success(EvalResult(failures == [], m, failures))
  }

  /** Which failures are reported and where: a convergence failure, carrying the
      training loss, comes first exactly when the run did not converge; an overfitting
      failure, carrying the loss gap, comes last exactly when the run overfitted; the
      canary never fails. */
  lemma RunEvalsFailures(x: ExecutionResult)
    requires RunEvals(x).Success?
    ensures var fs := RunEvals(x).value.failures;
      && (NotConverged(x.metrics) <==> fs != [] && fs[0] == LossDidNotConverge(FinalLoss(x.metrics)))
      && (Overfitted(x.metrics) <==> fs != [] && fs[|fs| - 1].SevereOverfitting?)
      && (Overfitted(x.metrics) ==>
            fs[|fs| - 1] == SevereOverfitting(x.metrics.evalLoss.value - x.metrics.trainLoss.value))
      && (forall i :: 0 <= i < |fs| ==> fs[i].LossDidNotConverge? || fs[i].SevereOverfitting?)
      && fs == (if NotConverged(x.metrics) then [LossDidNotConverge(FinalLoss(x.metrics))] else [])
               + (if Overfitted(x.metrics)
                  then [SevereOverfitting(x.metrics.evalLoss.value - x.metrics.trainLoss.value)] else [])
  {
    var m := x.metrics;
    var fs := RunEvals(x).value.failures;
    var convergence := if NotConverged(m) then [LossDidNotConverge(FinalLoss(m))] else [];
    var overfitting := if Overfitted(m) then [SevereOverfitting(m.evalLoss.value - m.trainLoss.value)] else [];
    assert fs == convergence + overfitting;
  }

  /** The evaluation node: store the evaluation and log whether it passed; log a
      failure, leaving `eval_result` alone, when there is nothing to evaluate or the
      evaluation raises. */
  function RunEvalsNode(s: AegisState): (r: AegisState)
    ensures (s.executionResult.None? || RunEvals(s.executionResult.value).Failure?) ==>
      r == AppendEvent(s, RunEvent(EvalPhase, Failed, None))
    ensures s.executionResult.Some? && RunEvals(s.executionResult.value).Success? ==>
      var e := RunEvals(s.executionResult.value).value;
      && r.(evalResult := s.evalResult, events := s.events) == s
      && r.evalResult == Some(e)
      && AppendsOne(s, r, RunEvent(EvalPhase, if e.passed then Completed else Failed, Some(EvalData(e))))
  {
    if s.executionResult.None? then
      AppendEvent(s, RunEvent(EvalPhase, Failed, None))
    else
      match RunEvals(s.executionResult.value)
      case Failure(_) => AppendEvent(s, RunEvent(EvalPhase, Failed, None))
      case Success(e) =>
        var status := if e.passed then Completed else Failed;
        AppendEvent(s, RunEvent(EvalPhase, status, Some(EvalData(e)))).(evalResult := Some(e))
  }

  /** The node's event is completed exactly when an evaluation ran and found nothing
      wrong, that is when the training loss is at most 2.0 and, if an eval loss is
      reported, it exceeds the training loss by at most 1.0. */
  lemma EvalNodeCompletedIff(s: AegisState)
    ensures var r := RunEvalsNode(s);
      && |r.events| == |s.events| + 1
      && (r.events[|s.events|].status == Completed <==>
           && s.executionResult.Some?
           && var m := s.executionResult.value.metrics;
           && m.trainLoss.Some? && m.trainLoss.value <= MaxTrainLoss
           && (m.evalLoss.Some? ==> m.evalLoss.value - m.trainLoss.value <= MaxLossGap))
  {
    if s.executionResult.Some? {
      var x := s.executionResult.value;
      var r := RunEvals(x);
      if r.Success? && r.value.passed {
        assert r.value.failures == [];
      }
    }
  }
}
