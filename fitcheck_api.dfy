/** fitcheck's `plan()` (fitcheck/api.py): resolve the training method, the GPU, the
    model and the dataset, settle the sequence length, run the config solver, add the
    sanity warnings and assemble the report.

    The hardware catalog, the model resolver, the dataset analyzer, the config solver,
    the trainable-parameter count and the sanity checker live in modules that are not
    part of this model; `plan` receives them as the functions of a `Collaborators`
    record, and nothing is assumed about what they compute. The solver's recommended
    configuration is a type parameter: `plan` only hands it on. */
module Api {
  import opened Wrappers
  import opened Text

  /** `_DEFAULT_SEQ_LEN`. */
  const DefaultSeqLen: int := 512
  /** `plan`'s default `lora_rank`. */
  const DefaultLoraRank: int := 16

  /** `TrainingMethod`, an enumeration of the values "full", "lora" and "qlora". */
  datatype TrainingMethod = Full | LoRA | QLoRA {
    function Value(): string {
      match this
      case Full => "full"
      case LoRA => "lora"
      case QLoRA => "qlora"
    }
  }

  /** Why `plan` raises. */
  datatype PlanError =
    | UnknownMethod(value: string)        // ValueError from `TrainingMethod(...)`
    | NonPositiveSeqLen(seqLen: int)      // ValueError from `_resolve_seq_len`
    | ZeroTotalParams                     // ZeroDivisionError computing `trainable_pct`
    | Raised(reason: string)              // raised inside a collaborator

  /** `TrainingMethod(value)`: the member with that value, or the ValueError. */
  function MethodFromValue(value: string): (r: Result<TrainingMethod, PlanError>)
    ensures r.Success? <==> value == "full" || value == "lora" || value == "qlora"
    ensures r.Success? ==> r.value.Value() == value
    ensures r.Failure? ==> r.error == UnknownMethod(value)
  {
    if value == "full" then Success(Full)
    else if value == "lora" then Success(LoRA)
    else if value == "qlora" then Success(QLoRA)
    else Failure(UnknownMethod(value))
  }

  datatype HardwareSpec = HardwareSpec(name: string, totalVramGb: real, overheadGb: real, usableVramGb: real)

  datatype ModelProfile = ModelProfile(
    modelId: string,
    architecture: string,
    family: string,
    hiddenSize: int,
    numLayers: int,
    numAttentionHeads: int,
    numKvHeads: int,
    intermediateSize: int,
    vocabSize: int,
    totalParams: int,
    totalParamsB: real)

  /** The token-length statistics of a dataset (percentiles and maximum); `plan` reads the 95th percentile. */
  datatype SeqLenStats = SeqLenStats(p50: int, p95: int, p99: int, maximum: int)

  datatype DatasetProfile = DatasetProfile(
    source: string,
    numRows: int,
    detectedFormat: string,
    seqLenStats: Option<SeqLenStats>)

  datatype LoRAConfig = LoRAConfig(rank: int)

  /** The arguments both solver entry points receive. */
  datatype SolveRequest = SolveRequest(
    model: ModelProfile,
    hardware: HardwareSpec,
    trainingMethod: TrainingMethod,
    seqLen: int,
    loraConfig: LoRAConfig,
    evalSeqLen: Option<int>)

  /** The solver's answer: its recommendation and its list of warnings. */
  datatype SolverResult<Config> = SolverResult(recommended: Config, warnings: seq<string>)

  datatype SanityWarning = SanityWarning(severity: string, category: string, message: string)

  datatype PlanReport<Config> = PlanReport(
    modelId: string,
    architectureSummary: string,
    totalParamsB: real,
    vocabSize: int,
    numLayers: int,
    datasetSource: string,
    datasetRows: int,
    datasetFormat: string,
    seqLenStats: Option<SeqLenStats>,
    seqLenUsed: int,
    seqLenReasoning: string,
    hardwareName: string,
    totalVramGb: real,
    overheadGb: real,
    usableVramGb: real,
    methodName: string,
    trainableParams: int,
    trainablePct: real,
    samplesPerEpoch: real,
    solverResult: SolverResult<Config>)

  /** The functions `plan` calls into. The first five may raise. */
  datatype Collaborators<!Config> = Collaborators(
    getHardware: string -> Result<HardwareSpec, PlanError>,
    resolveModel: string -> Result<ModelProfile, PlanError>,
    analyzeLocal: string -> Result<DatasetProfile, PlanError>,
    estimateFixed: (SolveRequest, int) -> Result<SolverResult<Config>, PlanError>,
    solve: SolveRequest -> Result<SolverResult<Config>, PlanError>,
    trainableParams: (ModelProfile, TrainingMethod, LoRAConfig) -> int,
    checkSanity: (DatasetProfile, Config, int) -> seq<SanityWarning>)

  /** `plan`'s arguments. */
  datatype PlanArgs = PlanArgs(
    modelId: string,
    methodName: string,
    gpu: string,
    seqLen: Option<int>,
    loraRank: int,
    batchSize: Option<int>,
    evalSeqLen: Option<int>,
    datasetPath: Option<string>)

  /** A call with only the three required arguments. */
  function DefaultArgs(modelId: string, methodName: string, gpu: string): PlanArgs {
    PlanArgs(modelId, methodName, gpu, None, DefaultLoraRank, None, None, None)
  }

  // ---------------------------------------------------------------- sequence length

  /** `_resolve_seq_len`: an explicit value first (it must be positive), then the
      dataset's p95, then 512, each with a note saying where the value came from. */
  function ResolveSeqLen(explicit: Option<int>, dataset: Option<DatasetProfile>): (r: Result<(int, string), PlanError>)
    ensures explicit.Some? ==> (r.Failure? <==> explicit.value <= 0)
    ensures explicit.Some? && r.Failure? ==> r.error == NonPositiveSeqLen(explicit.value)
    ensures explicit.Some? && r.Success? ==>
      r.value == (explicit.value, "--seq-len " + IntToString(explicit.value))
    ensures explicit.None? && dataset.Some? && dataset.value.seqLenStats.Some? ==>
      var p95 := dataset.value.seqLenStats.value.p95;
      r == Success((p95, "dataset p95 (" + IntToString(p95) + " tokens)"))
    ensures explicit.None? && (dataset.None? || dataset.value.seqLenStats.None?) ==>
      r == Success((DefaultSeqLen, "default (512)"))
  {
    if explicit.Some? then
      if explicit.value <= 0 then Failure(NonPositiveSeqLen(explicit.value))
      else Success((explicit.value, "--seq-len " + IntToString(explicit.value)))
    else if dataset.Some? && dataset.value.seqLenStats.Some? then
      var p95 := dataset.value.seqLenStats.value.p95;
      Success((p95, "dataset p95 (" + IntToString(p95) + " tokens)"))
    else
      DefaultSeqLenText();
      Success((DefaultSeqLen, "default (" + IntToString(DefaultSeqLen) + ")"))
  }

  /** 512 in decimal. */
  lemma DefaultSeqLenText()
    ensures IntToString(DefaultSeqLen) == "512"
    ensures "default (" + IntToString(DefaultSeqLen) + ")" == "default (512)"
  {
    assert Decimal(5) == "5";
    assert Decimal(51) == Decimal(5) + "1";
    assert Decimal(512) == Decimal(51) + "2";
    assert "default (" + "512" + ")" == "default (512)";
  }

  /** An explicit value wins over whatever the dataset says. */
  lemma ExplicitSeqLenIgnoresDataset(n: int, d1: Option<DatasetProfile>, d2: Option<DatasetProfile>)
    ensures ResolveSeqLen(Some(n), d1) == ResolveSeqLen(Some(n), d2)
  {
  }

  /** The note always names the value chosen, and says which rule chose it. */
  lemma SeqLenReasoningNamesValue(explicit: Option<int>, dataset: Option<DatasetProfile>)
    requires ResolveSeqLen(explicit, dataset).Success?
    ensures var (n, why) := ResolveSeqLen(explicit, dataset).value;
      && Contains(why, IntToString(n))
      && (StartsWith(why, "--seq-len") <==> explicit.Some?)
  {
    var (n, why) := ResolveSeqLen(explicit, dataset).value;
    var number := IntToString(n);
    if explicit.Some? {
      ExplicitNoteNames(number);
    } else if dataset.Some? && dataset.value.seqLenStats.Some? {
      OtherNoteNames("dataset p95 (", number, " tokens)");
    } else {
      DefaultSeqLenText();
      OtherNoteNames("default (", number, ")");
    }
  }

  /** The note of an explicit value starts with the flag and names the value. */
  lemma ExplicitNoteNames(number: string)
    ensures Contains("--seq-len " + number, number)
    ensures StartsWith("--seq-len " + number, "--seq-len")
  {
    assert "--seq-len " + number == "--seq-len " + number + "";
    ContainsInfix("--seq-len ", number, "");
    assert "--seq-len " + number == "--seq-len" + (" " + number);
    PrefixDropped("--seq-len", " " + number);
  }

  /** A note that does not start with '-' names its value without the flag. */
  lemma OtherNoteNames(prefix: string, number: string, suffix: string)
    requires prefix != [] && prefix[0] != '-'
    ensures Contains(prefix + number + suffix, number)
    ensures !StartsWith(prefix + number + suffix, "--seq-len")
  {
    ContainsInfix(prefix, number, suffix);
    DiffersFrom(prefix + number + suffix, "--seq-len", 0);
  }

  // ---------------------------------------------------------------- the steps of plan

  /** What `plan` has settled before it runs the solver. */
  datatype Resolved = Resolved(
    trainingMethod: TrainingMethod,
    hardware: HardwareSpec,
    model: ModelProfile,
    dataset: Option<DatasetProfile>,
    seqLen: int,
    seqLenReasoning: string)

  /** The dataset profile, when a path is given. */
  function AnalyzeDataset<Config>(c: Collaborators<Config>, path: Option<string>): Result<Option<DatasetProfile>, PlanError> {
    if path.None? then Success(None)
    else
      var d :- c.analyzeLocal(path.value);
      Success(Some(d))
  }

  /** Method, GPU, model, dataset and sequence length, in that order; the first step
      that raises ends `plan`. */
  function ResolveInputs<Config>(c: Collaborators<Config>, args: PlanArgs): (r: Result<Resolved, PlanError>)
    ensures r.Success? ==>
      && MethodFromValue(Lower(args.methodName)) == Success(r.value.trainingMethod)
      && c.getHardware(args.gpu) == Success(r.value.hardware)
      && c.resolveModel(args.modelId) == Success(r.value.model)
      && (r.value.dataset.Some? <==> args.datasetPath.Some?)
      && (r.value.dataset.Some? ==> c.analyzeLocal(args.datasetPath.value) == Success(r.value.dataset.value))
      && ResolveSeqLen(args.seqLen, r.value.dataset) == Success((r.value.seqLen, r.value.seqLenReasoning))
  {
    var trainingMethod :- MethodFromValue(Lower(args.methodName));
    var hardware :- c.getHardware(args.gpu);
    var model :- c.resolveModel(args.modelId);
    var dataset :- AnalyzeDataset(c, args.datasetPath);
    var (seqLen, reasoning) :- ResolveSeqLen(args.seqLen, dataset);
    Success(Resolved(trainingMethod, hardware, model, dataset, seqLen, reasoning))
  }

  /** What the solver is asked. */
  function RequestFor(rs: Resolved, args: PlanArgs): SolveRequest {
    SolveRequest(rs.model, rs.hardware, rs.trainingMethod, rs.seqLen, LoRAConfig(args.loraRank), args.evalSeqLen)
  }

  /** `estimate_fixed` when a batch size is given, `solve` otherwise. */
  function RunSolver<Config>(c: Collaborators<Config>, request: SolveRequest, batchSize: Option<int>): (r: Result<SolverResult<Config>, PlanError>)
    ensures batchSize.Some? ==> r == c.estimateFixed(request, batchSize.value)
    ensures batchSize.None? ==> r == c.solve(request)
  {
    if batchSize.Some? then c.estimateFixed(request, batchSize.value) else c.solve(request)
  }

  /** `(trainable / total_params) * 100`, which raises for a model without parameters. */
  function TrainablePct(trainable: int, totalParams: int): (r: Result<real, PlanError>)
    ensures r.Failure? <==> totalParams == 0
    ensures r.Failure? ==> r.error == ZeroTotalParams
    ensures r.Success? ==> r.value * (totalParams as real) == (trainable as real) * 100.0
  {
    if totalParams == 0 then Failure(ZeroTotalParams)
    else Success((trainable as real / totalParams as real) * 100.0)
  }

  /** A sanity warning as the solver's warnings list shows it. */
  function RenderWarning(w: SanityWarning): string {
    "[" + w.severity + "] " + w.category + ": " + w.message
  }

  /** The rendering of each warning, in order. */
  function RenderWarnings(ws: seq<SanityWarning>): (r: seq<string>)
    ensures |r| == |ws|
    ensures forall i :: 0 <= i < |ws| ==> r[i] == RenderWarning(ws[i])
  {
    if ws == [] then [] else [RenderWarning(ws[0])] + RenderWarnings(ws[1..])
  }

  /** The sanity warnings `plan` adds: none without a dataset. */
  function SanityLines<Config>(c: Collaborators<Config>, rs: Resolved, recommended: Config, trainable: int): seq<string> {
    if rs.dataset.Some? then RenderWarnings(c.checkSanity(rs.dataset.value, recommended, trainable)) else []
  }

  /** `_build_report`: the report's dataset fields fall back to "none", 0 rows,
      "unknown", no statistics and 0 samples per epoch without a dataset; every other
      field is copied from the resolved inputs and the solver. */
  function BuildReport<Config>(model: ModelProfile, hardware: HardwareSpec, trainingMethod: TrainingMethod,
                               seqLen: int, seqLenReasoning: string, trainable: int, trainablePct: real,
                               solverResult: SolverResult<Config>, dataset: Option<DatasetProfile>): (r: PlanReport<Config>)
    ensures dataset.None? ==>
      && r.datasetSource == "none" && r.datasetRows == 0 && r.datasetFormat == "unknown"
      && r.seqLenStats.None? && r.samplesPerEpoch == 0.0
    ensures dataset.Some? ==>
      && r.datasetSource == dataset.value.source && r.datasetRows == dataset.value.numRows
      && r.datasetFormat == dataset.value.detectedFormat && r.seqLenStats == dataset.value.seqLenStats
    // with or without a dataset, one sample per row
    ensures r.samplesPerEpoch == r.datasetRows as real
    ensures && r.modelId == model.modelId && r.architectureSummary == model.architecture
            && r.totalParamsB == model.totalParamsB && r.vocabSize == model.vocabSize
            && r.numLayers == model.numLayers
    ensures && r.hardwareName == hardware.name && r.totalVramGb == hardware.totalVramGb
            && r.overheadGb == hardware.overheadGb && r.usableVramGb == hardware.usableVramGb
    ensures && r.seqLenUsed == seqLen && r.seqLenReasoning == seqLenReasoning
            && r.methodName == trainingMethod.Value()
            && r.trainableParams == trainable && r.trainablePct == trainablePct
            && r.solverResult == solverResult
  {
    var (source, rows, format, stats, samples) :=
      if dataset.None? then ("none", 0, "unknown", None, 0.0)
      else (dataset.value.source, dataset.value.numRows, dataset.value.detectedFormat,
            dataset.value.seqLenStats, dataset.value.numRows as real);
    PlanReport(model.modelId, model.architecture, model.totalParamsB, model.vocabSize, model.numLayers,
      source, rows, format, stats, seqLen, seqLenReasoning,
      hardware.name, hardware.totalVramGb, hardware.overheadGb, hardware.usableVramGb,
      trainingMethod.Value(), trainable, trainablePct, samples, solverResult)
  }

  /** What `plan` returns or raises, step by step. It succeeds exactly when the inputs
      resolve, the solver answers and the model has parameters; the report then names
      the lower-cased method and the percentage is taken of the model's total. */
  function PlanResult<Config>(c: Collaborators<Config>, args: PlanArgs): (r: Result<PlanReport<Config>, PlanError>)
    ensures r.Success? <==>
      && ResolveInputs(c, args).Success?
      && RunSolver(c, RequestFor(ResolveInputs(c, args).value, args), args.batchSize).Success?
      && ResolveInputs(c, args).value.model.totalParams != 0
    ensures r.Success? ==>
      var rs := ResolveInputs(c, args).value;
      && r.value.methodName == Lower(args.methodName)
      && r.value.modelId == rs.model.modelId
      && r.value.trainablePct * (rs.model.totalParams as real) == (r.value.trainableParams as real) * 100.0
  {
    var rs :- ResolveInputs(c, args);
    assert rs.trainingMethod.Value() == Lower(args.methodName);
    var solverResult :- RunSolver(c, RequestFor(rs, args), args.batchSize);
    var trainable := c.trainableParams(rs.model, rs.trainingMethod, LoRAConfig(args.loraRank));
    var pct :- TrainablePct(trainable, rs.model.totalParams);
    var sanity := SanityLines(c, rs, solverResult.recommended, trainable);
    Success(BuildReport(rs.model, rs.hardware, rs.trainingMethod, rs.seqLen, rs.seqLenReasoning,
      trainable, pct, solverResult.(warnings := solverResult.warnings + sanity), rs.dataset))
  }

  /** `for w in sanity: result.warnings.append(...)`: each warning, rendered, is added
      at the end, in order. */
  method AppendWarnings(warnings: seq<string>, sanity: seq<SanityWarning>) returns (r: seq<string>)
    ensures r == warnings + RenderWarnings(sanity)
  {
    r := warnings;
    var i := 0;
    while i < |sanity|
      invariant 0 <= i <= |sanity|
      invariant r == warnings + RenderWarnings(sanity[..i])
    {
      assert RenderWarnings(sanity[..i + 1]) == RenderWarnings(sanity[..i]) + [RenderWarning(sanity[i])];
      r := r + [RenderWarning(sanity[i])];
      i := i + 1;
    }
    assert sanity[..i] == sanity;
  }

  /** `plan`: the sanity warnings are appended one by one to the solver's warnings. */
  method Plan<Config>(c: Collaborators<Config>, args: PlanArgs) returns (r: Result<PlanReport<Config>, PlanError>)
    ensures r == PlanResult(c, args)
  {
    var resolved := ResolveInputs(c, args);
    if resolved.Failure? {
      return Failure(resolved.error);
    }
    var rs := resolved.value;
    var solved := RunSolver(c, RequestFor(rs, args), args.batchSize);
    if solved.Failure? {
      return Failure(solved.error);
    }
    var solverResult := solved.value;
    var lora := LoRAConfig(args.loraRank);
    var trainable := c.trainableParams(rs.model, rs.trainingMethod, lora);
    var pct := TrainablePct(trainable, rs.model.totalParams);
    if pct.Failure? {
      return Failure(pct.error);
    }
    var warnings := solverResult.warnings;
    if rs.dataset.Some? {
      var sanity := c.checkSanity(rs.dataset.value, solverResult.recommended, trainable);
      warnings := AppendWarnings(warnings, sanity);
    } else {
      assert warnings == solverResult.warnings + [];
    }
    r := Success(BuildReport(rs.model, rs.hardware, rs.trainingMethod, rs.seqLen, rs.seqLenReasoning,
      trainable, pct.value, solverResult.(warnings := warnings), rs.dataset));
  }

  // ---------------------------------------------------------------- properties of plan

  /** The method is checked first: an unknown method fails with its lower-cased name
      whatever the GPU, the model and the collaborators; next an unknown GPU fails
      before the model is resolved. */
  lemma PlanChecksMethodThenGpu<Config>(c: Collaborators<Config>, args: PlanArgs)
    ensures MethodFromValue(Lower(args.methodName)).Failure? ==>
      PlanResult(c, args) == Failure(UnknownMethod(Lower(args.methodName)))
    ensures MethodFromValue(Lower(args.methodName)).Success? && c.getHardware(args.gpu).Failure? ==>
      PlanResult(c, args) == Failure(c.getHardware(args.gpu).error)
    ensures && MethodFromValue(Lower(args.methodName)).Success? && c.getHardware(args.gpu).Success?
            && c.resolveModel(args.modelId).Failure? ==>
      PlanResult(c, args) == Failure(c.resolveModel(args.modelId).error)
  {
  }

  /** A successful plan ran `estimate_fixed` exactly when a batch size was given and
      `solve` otherwise, with the resolved sequence length; its report records that
      sequence length, the method's value and the GPU the catalog returned. */
  lemma PlanUsesResolvedInputs<Config>(c: Collaborators<Config>, args: PlanArgs)
    requires PlanResult(c, args).Success?
    ensures ResolveInputs(c, args).Success?
    ensures var rs := ResolveInputs(c, args).value;
      var report := PlanResult(c, args).value;
      var request := RequestFor(rs, args);
      && request.seqLen == report.seqLenUsed == rs.seqLen
      && (args.seqLen.Some? ==> report.seqLenUsed == args.seqLen.value)
      && report.methodName == Lower(args.methodName)
      && report.hardwareName == c.getHardware(args.gpu).value.name
      && report.totalVramGb == rs.hardware.totalVramGb && report.overheadGb == rs.hardware.overheadGb
      && report.usableVramGb == rs.hardware.usableVramGb
      && report.trainableParams == c.trainableParams(rs.model, rs.trainingMethod, LoRAConfig(args.loraRank))
      && report.seqLenReasoning == rs.seqLenReasoning
      && (args.batchSize.Some? ==>
            && c.estimateFixed(request, args.batchSize.value).Success?
            && report.solverResult.recommended == c.estimateFixed(request, args.batchSize.value).value.recommended)
      && (args.batchSize.None? ==>
            && c.solve(request).Success?
            && report.solverResult.recommended == c.solve(request).value.recommended)
  {
  }

  /** The report's warnings are the solver's own warnings followed by the rendered
      sanity warnings in the checker's order; without a dataset nothing is added. */
  lemma {:induction false} PlanWarnings<Config>(c: Collaborators<Config>, args: PlanArgs)
    requires PlanResult(c, args).Success?
    ensures ResolveInputs(c, args).Success?
    ensures var rs := ResolveInputs(c, args).value;
      var solved := RunSolver(c, RequestFor(rs, args), args.batchSize).value;
      var report := PlanResult(c, args).value;
      var ws := report.solverResult.warnings;
      && |ws| >= |solved.warnings|
      && ws[..|solved.warnings|] == solved.warnings
      && (args.datasetPath.None? ==> ws == solved.warnings)
      && (args.datasetPath.Some? ==>
            var trainable := c.trainableParams(rs.model, rs.trainingMethod, LoRAConfig(args.loraRank));
            var sanity := c.checkSanity(rs.dataset.value, solved.recommended, trainable);
            && |ws| == |solved.warnings| + |sanity|
            && forall i :: 0 <= i < |sanity| ==> ws[|solved.warnings| + i] == RenderWarning(sanity[i]))
  {
    var rs := ResolveInputs(c, args).value;
    var solved := RunSolver(c, RequestFor(rs, args), args.batchSize).value;
    var trainable := c.trainableParams(rs.model, rs.trainingMethod, LoRAConfig(args.loraRank));
    var sanity := SanityLines(c, rs, solved.recommended, trainable);
    var ws := PlanResult(c, args).value.solverResult.warnings;
    assert ws == solved.warnings + sanity;
    if args.datasetPath.Some? {
      var checked := c.checkSanity(rs.dataset.value, solved.recommended, trainable);
      forall i | 0 <= i < |checked|
        ensures ws[|solved.warnings| + i] == RenderWarning(checked[i])
      {
        assert ws[|solved.warnings| + i] == sanity[i];
      }
    }
  }

  /** Without a dataset the report's dataset fields take their fallbacks and the
      sequence length is the explicit one or 512; with one, rows and samples per epoch
      both equal the dataset's row count. */
  lemma PlanDatasetFields<Config>(c: Collaborators<Config>, args: PlanArgs)
    requires PlanResult(c, args).Success?
    ensures var report := PlanResult(c, args).value;
      && (args.datasetPath.None? ==>
            && report.datasetSource == "none" && report.datasetRows == 0
            && report.datasetFormat == "unknown" && report.seqLenStats.None?
            && report.samplesPerEpoch == 0.0
            && report.seqLenUsed == (if args.seqLen.Some? then args.seqLen.value else DefaultSeqLen))
      && (args.datasetPath.Some? ==>
            var d := c.analyzeLocal(args.datasetPath.value).value;
            && c.analyzeLocal(args.datasetPath.value).Success?
            && report.datasetSource == d.source
            && report.datasetRows == d.numRows
            && report.datasetFormat == d.detectedFormat
            && report.seqLenStats == d.seqLenStats
            && report.samplesPerEpoch == d.numRows as real)
  {
  }

  /** A call with only the model, the method and the GPU plans at 512 tokens with
      `solve`, and reports no dataset. */
  lemma DefaultPlan<Config>(c: Collaborators<Config>, modelId: string, methodName: string, gpu: string)
    requires PlanResult(c, DefaultArgs(modelId, methodName, gpu)).Success?
    ensures var args := DefaultArgs(modelId, methodName, gpu);
      var report := PlanResult(c, args).value;
      var rs := ResolveInputs(c, args).value;
      && report.seqLenUsed == DefaultSeqLen
      && report.seqLenReasoning == "default (512)"
      && report.datasetSource == "none" && report.datasetRows == 0
      && c.solve(RequestFor(rs, args)).Success?
      && report.solverResult == c.solve(RequestFor(rs, args)).value
      && RequestFor(rs, args).loraConfig == LoRAConfig(16)
  {
  }
}
