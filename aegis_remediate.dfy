/** Automatic repair of a failed training spec (aegis/nodes/remediate.py): an ordered
    ladder of rules, least invasive first, each changing one field of the spec. */
module Remediate {
  import opened Wrappers
  import opened Text
  import opened State

  const RemediatePhase: string := "remediate_spec"

  /** The message names an out-of-memory condition: rule 1's trigger. */
  predicate IsMemoryError(errorLower: string) {
    Contains(errorLower, "out of memory") || Contains(errorLower, "cuda")
  }

  /** The message names a diverging loss: rule 3's trigger. */
  predicate IsDivergence(errorLower: string) {
    Contains(errorLower, "nan") || Contains(errorLower, "loss spike")
  }

  /** Python's `max(1, b // 2)`; `//` floors, as Dafny's `/` does for a positive divisor. */
  function HalvedBatch(b: int): (r: int)
    ensures r >= 1
    ensures b >= 2 ==> 2 * r <= b < 2 * r + 2
    ensures b < 2 ==> r == 1
  {
    if b / 2 < 1 then 1 else b / 2
  }

  /** The next method up the memory-saving ladder, at batch size 1. */
  function LighterMethod(m: Method): (r: Option<Method>)
    ensures r.None? <==> m == QLoRA
    ensures r.Some? ==> r.value != m && r.value != FullFinetune
    ensures m == FullFinetune ==> r == Some(LoRA)
    ensures m == LoRA ==> r == Some(QLoRA)
  {
    match m
    case FullFinetune => Some(LoRA)
    case LoRA => Some(QLoRA)
    case QLoRA => None
  }

  /** Every field but the batch size, the method and the learning rate is left alone,
      and at most one of those three changes. */
  predicate ChangesAtMostOneKnob(spec: TrainingSpec, r: TrainingSpec) {
    && r.(microBatchSize := spec.microBatchSize, trainingMethod := spec.trainingMethod,
          learningRate := spec.learningRate) == spec
    && (r.microBatchSize != spec.microBatchSize ==> r.trainingMethod == spec.trainingMethod && r.learningRate == spec.learningRate)
    && (r.trainingMethod != spec.trainingMethod ==> r.learningRate == spec.learningRate)
  }

  /** The rule ladder, applied to the lower-cased error message. */
  function RemediateSpec(spec: TrainingSpec, errorMessage: string): (r: TrainingSpec)
    ensures ChangesAtMostOneKnob(spec, r)
    // rule 1: a memory error with room to shrink halves the batch
    ensures IsMemoryError(Lower(errorMessage)) && spec.microBatchSize > 1 ==>
      r == spec.(microBatchSize := spec.microBatchSize / 2)
    // rule 2: at batch 1 a heavier method steps down, whatever the message
    ensures spec.microBatchSize == 1 && LighterMethod(spec.trainingMethod).Some? ==>
      r == spec.(trainingMethod := LighterMethod(spec.trainingMethod).value)
    // rule 3: a diverging loss that no earlier rule handled halves the learning rate
    ensures (&& !(IsMemoryError(Lower(errorMessage)) && spec.microBatchSize > 1)
             && !(spec.microBatchSize == 1 && LighterMethod(spec.trainingMethod).Some?)
             && IsDivergence(Lower(errorMessage))) ==>
      r == spec.(learningRate := spec.learningRate / 2.0)
    // rule 4: anything else halves the batch, never below 1
    ensures (&& !(IsMemoryError(Lower(errorMessage)) && spec.microBatchSize > 1)
             && !(spec.microBatchSize == 1 && LighterMethod(spec.trainingMethod).Some?)
             && !IsDivergence(Lower(errorMessage))) ==>
      r == spec.(microBatchSize := HalvedBatch(spec.microBatchSize))
  {
    var errorLower := Lower(errorMessage);
    var shrunk := HalvedBatch(spec.microBatchSize);
    if IsMemoryError(errorLower) && shrunk < spec.microBatchSize then
      spec.(microBatchSize := shrunk)
    else if spec.microBatchSize == 1 && spec.trainingMethod == FullFinetune then
      spec.(trainingMethod := LoRA)
    else if spec.microBatchSize == 1 && spec.trainingMethod == LoRA then
      spec.(trainingMethod := QLoRA)
    else if IsDivergence(errorLower) then
      spec.(learningRate := spec.learningRate / 2.0)
    else
      spec.(microBatchSize := shrunk)
  }

  /** A positive batch stays positive and never grows; a batch below 1 is raised to 1
      unless the learning-rate rule fires instead. */
  lemma RemediateBatchBounds(spec: TrainingSpec, errorMessage: string)
    ensures var r := RemediateSpec(spec, errorMessage);
      && (spec.microBatchSize >= 1 ==> 1 <= r.microBatchSize <= spec.microBatchSize)
      && (spec.microBatchSize < 1 ==>
            r.microBatchSize == (if IsDivergence(Lower(errorMessage)) then spec.microBatchSize else 1))
  {
  }

  /** How far a spec is from the end of the ladder: the batch size plus the number of
      method steps still available. */
  function LadderDistance(spec: TrainingSpec): nat
    requires spec.microBatchSize >= 1
  {
    (spec.microBatchSize - 1) + match spec.trainingMethod
      case FullFinetune => 2
      case LoRA => 1
      case QLoRA => 0
  }

  /** The end of the ladder: QLoRA at batch 1. */
  predicate AtLadderEnd(spec: TrainingSpec) {
    spec.microBatchSize == 1 && spec.trainingMethod == QLoRA
  }

  /** Unless the message is a divergence, each remediation moves strictly down the
      ladder, and it leaves the spec unchanged exactly at the ladder's end. */
  lemma RemediateProgress(spec: TrainingSpec, errorMessage: string)
    requires spec.microBatchSize >= 1 && !IsDivergence(Lower(errorMessage))
    ensures var r := RemediateSpec(spec, errorMessage);
      && r.microBatchSize >= 1
      && (r == spec <==> AtLadderEnd(spec))
      && (!AtLadderEnd(spec) ==> LadderDistance(r) < LadderDistance(spec))
  {
  }

  /** The spec after `n` consecutive remediations with the same message. */
  function RemediateTimes(spec: TrainingSpec, errorMessage: string, n: nat): TrainingSpec
    decreases n
  {
    if n == 0 then spec else RemediateTimes(RemediateSpec(spec, errorMessage), errorMessage, n - 1)
  }

  /** Retrying with the same non-divergence error reaches QLoRA at batch 1 after at
      most `LadderDistance(spec)` remediations, and stays there. */
  lemma {:induction false} RemediateConverges(spec: TrainingSpec, errorMessage: string, n: nat)
    requires spec.microBatchSize >= 1 && !IsDivergence(Lower(errorMessage))
    requires n >= LadderDistance(spec)
    ensures AtLadderEnd(RemediateTimes(spec, errorMessage, n))
    decreases n
  {
    RemediateProgress(spec, errorMessage);
    if AtLadderEnd(spec) {
      if n > 0 {
        RemediateConverges(spec, errorMessage, n - 1);
      }
    } else {
      RemediateConverges(RemediateSpec(spec, errorMessage), errorMessage, n - 1);
    }
  }

  /** The "changes" list of the remediation event: the fields that differ, in the
      order batch size, method, learning rate. */
  function SpecChanges(before: TrainingSpec, after: TrainingSpec): (cs: seq<SpecChange>)
    ensures cs == [] <==>
      (after.microBatchSize == before.microBatchSize && after.trainingMethod == before.trainingMethod
       && after.learningRate == before.learningRate)
    ensures forall i :: 0 <= i < |cs| ==> match cs[i]
      case BatchSizeChange(a, b) => i == 0 && a == before.microBatchSize && b == after.microBatchSize && a != b
      case MethodChange(a, b) => a == before.trainingMethod && b == after.trainingMethod && a != b
      case LearningRateChange(a, b) => i == |cs| - 1 && a == before.learningRate && b == after.learningRate && a != b
    // every field that differs is listed, and none is listed twice
    ensures after.microBatchSize != before.microBatchSize <==>
      BatchSizeChange(before.microBatchSize, after.microBatchSize) in cs
    ensures after.trainingMethod != before.trainingMethod <==>
      MethodChange(before.trainingMethod, after.trainingMethod) in cs
    ensures after.learningRate != before.learningRate <==>
      LearningRateChange(before.learningRate, after.learningRate) in cs
    ensures forall i, j :: 0 <= i < j < |cs| ==> cs[i] != cs[j]
  {
    var batch := if after.microBatchSize != before.microBatchSize
      then [BatchSizeChange(before.microBatchSize, after.microBatchSize)] else [];
    var switched := if after.trainingMethod != before.trainingMethod
      then [MethodChange(before.trainingMethod, after.trainingMethod)] else [];
    var rate := if after.learningRate != before.learningRate
      then [LearningRateChange(before.learningRate, after.learningRate)] else [];
    batch + switched + rate
  }

  /** The remediation node: with a spec, replace it by its remediation, count one more
      retry and log what changed; without one, log a failure. */
  function RemediateSpecNode(s: AegisState, errorMessage: string): (r: AegisState)
    ensures s.spec.None? ==> r == AppendEvent(s, RunEvent(RemediatePhase, Failed, None))
    ensures s.spec.Some? ==>
      var newSpec := RemediateSpec(s.spec.value, errorMessage);
      && r.(spec := s.spec, retryCount := s.retryCount, events := s.events) == s
      && r.spec == Some(newSpec)
      && r.retryCount == s.retryCount + 1
      && AppendsOne(s, r, RunEvent(RemediatePhase, Completed,
           Some(RemediationData(errorMessage, SpecChanges(s.spec.value, newSpec), newSpec))))
  {
    if s.spec.None? then
      AppendEvent(s, RunEvent(RemediatePhase, Failed, None))
    else
      var newSpec := RemediateSpec(s.spec.value, errorMessage);
      var data := RemediationData(errorMessage, SpecChanges(s.spec.value, newSpec), newSpec);
      AppendEvent(s, RunEvent(RemediatePhase, Completed, Some(data))).(
        spec := Some(newSpec), retryCount := s.retryCount + 1)
  }

  /** The logged change list names at most one field, and it is empty exactly when
      the remediation returned the spec unchanged. */
  lemma RemediationLogsOneChange(s: AegisState, errorMessage: string)
    requires s.spec.Some?
    ensures var r := RemediateSpecNode(s, errorMessage);
      && r.events[|s.events|].data.Some?
      && r.events[|s.events|].data.value.RemediationData?
      && var cs := r.events[|s.events|].data.value.changes;
      && |cs| <= 1
      && (cs == [] <==> r.spec == s.spec)
  {
    var newSpec := RemediateSpec(s.spec.value, errorMessage);
    var cs := SpecChanges(s.spec.value, newSpec);
    assert RemediateSpecNode(s, errorMessage).events[|s.events|].data.value.changes == cs;
  }
}
