/** The records that flow through the aegis pipeline (aegis/models/state.py). Every
    record is an immutable value: a pipeline node never changes the state it is given,
    it returns a copy with some fields replaced, as `model_copy(update=...)` does. */
module State {
  import opened Wrappers

  /** `TrainingSpec.method`: the literal values "full_finetune", "lora" and "qlora". */
  datatype Method = FullFinetune | LoRA | QLoRA {
    function Value(): string {
      match this
      case FullFinetune => "full_finetune"
      case LoRA => "lora"
      case QLoRA => "qlora"
    }
  }

  /** The training intent extracted from the user's request. */
  datatype TrainingSpec = TrainingSpec(
    trainingMethod: Method,
    modelName: string,
    datasetPath: string,
    numEpochs: int,
    microBatchSize: int,
    gradientAccumulationSteps: int,
    learningRate: real,
    seqLen: int,
    targetGpu: string,
    streaming: bool,
    maxSteps: int,          // 0: train for num_epochs; > 0: a fixed number of steps
    trustRemoteCode: bool)

  const DefaultNumEpochs: int := 3
  const DefaultMicroBatchSize: int := 4
  const DefaultGradientAccumulationSteps: int := 1
  const DefaultLearningRate: real := 0.00005
  const DefaultSeqLen: int := 512
  const DefaultTargetGpu: string := "a10g"

  /** `TrainingSpec(method=..., model_name=..., dataset_path=...)`: the three required
      fields given, every other field at its declared default. */
  function NewTrainingSpec(trainingMethod: Method, modelName: string, datasetPath: string): TrainingSpec {
    TrainingSpec(trainingMethod, modelName, datasetPath,
      DefaultNumEpochs, DefaultMicroBatchSize, DefaultGradientAccumulationSteps,
      DefaultLearningRate, DefaultSeqLen, DefaultTargetGpu, false, 0, false)
  }

  /** A new spec carries the three given fields and the declared defaults: 3 epochs,
      batch 4, one accumulation step, learning rate 5e-5, sequence length 512, GPU
      "a10g", no streaming, no step override, no remote code. */
  lemma NewTrainingSpecDefaults(trainingMethod: Method, modelName: string, datasetPath: string)
    ensures var t := NewTrainingSpec(trainingMethod, modelName, datasetPath);
      && t.trainingMethod == trainingMethod && t.modelName == modelName && t.datasetPath == datasetPath
      && t.numEpochs == 3 && t.microBatchSize == 4 && t.gradientAccumulationSteps == 1
      && t.learningRate == 0.00005 && t.seqLen == 512 && t.targetGpu == "a10g"
      && !t.streaming && t.maxSteps == 0 && !t.trustRemoteCode
  {
  }

  /** The three methods have three different values. */
  lemma MethodValuesDistinct(m1: Method, m2: Method)
    ensures m1.Value() == m2.Value() <==> m1 == m2
    ensures m1.Value() in {"full_finetune", "lora", "qlora"}
  {
  }

  /** The cost gate's configuration. */
  datatype BudgetPolicy = BudgetPolicy(maxBudgetUsd: real, softThresholdUsd: real, allowAutoApprove: bool)

  const DefaultBudgetPolicy: BudgetPolicy := BudgetPolicy(5.00, 2.00, true)

  /** The values a `dict[str, Any]` holds. */
  datatype Json =
    | JNull
    | JBool(b: bool)
    | JInt(i: int)
    | JReal(r: real)
    | JString(s: string)
    | JList(items: seq<Json>)
    | JObject(fields: map<string, Json>)

  /** What the cost profiler produces. */
  datatype CostEstimate = CostEstimate(
    estimatedCostUsd: real,
    estimatedVramGb: real,
    estimatedDurationMin: real,
    costBreakdown: map<string, Json>)

  /** The training metrics an execution reports, by their keys in the "metrics" dict:
      `None` is a missing key. */
  datatype Metrics = Metrics(trainLoss: Option<real>, evalLoss: Option<real>)

  /** `AegisState.execution_result`: the executor's "metrics" dict (a missing one is
      the empty dict) and its "model_path". */
  datatype ExecutionResult = ExecutionResult(metrics: Metrics, modelPath: Option<string>)

  /** A loss that may be the float `inf`, the default for a missing training loss. */
  datatype Loss = Finite(value: real) | Infinite

  /** One entry of the evaluator's "failures" list, by the check that produced it. */
  datatype EvalFailure =
    | LossDidNotConverge(loss: Loss)     // "Loss did not converge: ... > 2.0"
    | SevereOverfitting(gap: real)       // "Severe overfitting: ... gap"
    | CanaryFailed                       // "Canary safety test failed"

  /** `AegisState.eval_result`: the dict {"passed", "metrics", "failures"}. */
  datatype EvalResult = EvalResult(passed: bool, metrics: Metrics, failures: seq<EvalFailure>)

  /** One line of a remediation event's "changes" list, by the field it names. */
  datatype SpecChange =
    | BatchSizeChange(fromBatch: int, toBatch: int)
    | MethodChange(fromMethod: Method, toMethod: Method)
    | LearningRateChange(fromRate: real, toRate: real)

  /** `RunEvent.data`: the dict each node attaches to its event. */
  datatype EventData =
    | ParsedSpecData(parsedSpec: TrainingSpec)
    | GateData(autoApprove: bool, costUsd: real, softThreshold: real, maxBudget: real)
    | RemediationData(error: string, changes: seq<SpecChange>, newSpec: TrainingSpec)
    | EvalData(result: EvalResult)

  datatype Status = Started | Completed | Failed | Interrupted

  /** An entry of the append-only audit log. */
  datatype RunEvent = RunEvent(phase: string, status: Status, data: Option<EventData>)

  datatype Decision = Approve | Optimize | Cancel

  /** The whole pipeline state. */
  datatype AegisState = AegisState(
    userInput: Option<string>,
    spec: Option<TrainingSpec>,
    budgetPolicy: BudgetPolicy,
    costEstimate: Option<CostEstimate>,
    events: seq<RunEvent>,
    retryCount: int,
    maxRetries: int,
    generatedCode: Option<string>,
    executionResult: Option<ExecutionResult>,
    evalResult: Option<EvalResult>,
    humanDecision: Option<Decision>,
    finalReport: Option<string>)

  const DefaultMaxRetries: int := 3

  /** `AegisState()`: nothing requested, nothing produced, an empty log. */
  const InitialState: AegisState :=
    AegisState(None, None, DefaultBudgetPolicy, None, [], 0, DefaultMaxRetries,
      None, None, None, None, None)

  /** A fresh state: no request, no spec, an empty log, no retries of at most three,
      no outputs, and the default budget (hard limit 5.00, soft threshold 2.00,
      auto-approval allowed). */
  lemma InitialStateIsEmpty()
    ensures && InitialState.userInput.None? && InitialState.spec.None? && InitialState.events == []
            && InitialState.retryCount == 0 && InitialState.maxRetries == 3
    ensures && InitialState.costEstimate.None? && InitialState.generatedCode.None?
            && InitialState.executionResult.None? && InitialState.evalResult.None?
            && InitialState.humanDecision.None? && InitialState.finalReport.None?
    ensures InitialState.budgetPolicy == BudgetPolicy(5.00, 2.00, true)
  {
  }

  /** The log of `r` is the log of `s` with exactly `e` added at its end. */
  predicate AppendsOne(s: AegisState, r: AegisState, e: RunEvent) {
    |r.events| == |s.events| + 1 && r.events[..|s.events|] == s.events && r.events[|s.events|] == e
  }

  /** `state.model_copy(update={"events": state.events + [event]})`: every earlier event
      is kept, in order, exactly `e` is added, and no other field changes. */
  function AppendEvent(s: AegisState, e: RunEvent): (r: AegisState)
    ensures AppendsOne(s, r, e)
    ensures r.(events := s.events) == s
  {
    s.(events := s.events + [e])
  }
}
