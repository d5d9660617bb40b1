# aegis-ml core, modelled in Dafny

This project models the decision logic of two small Python packages from the
aegis-ml repository.

**fitcheck** plans a fine-tuning run.
- `plan()` resolves the training method, the GPU, the model and an optional dataset.
- It settles the sequence length: an explicit value first, then the dataset's p95, then 512.
- It asks a config solver for a recommendation and appends the sanity checker's warnings.
- It assembles a `PlanReport`.

The shorthand parser reads `METHOD MODEL on GPU [with DATASET] [at SEQ_LEN]`.

**aegis** is a pipeline of nodes over an immutable `AegisState`. Each node returns a copy of the state with exactly one `RunEvent` appended:
- rule-based intent extraction;
- a three-outcome budget gate;
- a ladder of remediation rules for a failed run;
- a threshold evaluator.

Modules:
- `Wrappers`: `Option` and `Result`.
- `Text`: Python string primitives.
  - whitespace as `str.isspace()` sees it;
  - `str.lower()` on the characters whose lower case is ASCII;
  - `in` on strings;
  - `str.split()` as `Words`;
  - decimal digit strings;
  - `int()` with its default limit of 4300 digits.
- `Api`: `fitcheck/api.py`.
- `NlParse`: `fitcheck/nlparse.py`.
- `State`: `aegis/models/state.py`.
- `Intent`, `Gate`, `Remediate`, `Evaluator`: the node files of the same names.

Modelling choices:
- **Raised exceptions are `Result.Failure` values**, and a node's `except` branch is the code that handles such a failure.
- **Floats are `real`.** A missing training loss is the explicit value `Infinite`.
- **`plan`'s collaborators are parameters.** Its collaborators live in modules outside this model: the hardware catalog, the model resolver, the dataset analyzer, the solver, the trainable-parameter count and the sanity checker. They are the functions of a `Collaborators` record, and the solver's recommended config is a type parameter, so nothing is assumed about what they compute.
- **Loops are methods.** `Api.AppendWarnings` is the loop in `plan` that appends the sanity warnings, and `Api.Plan` calls it. `Intent.LookupModel` is the model-lookup loop that breaks on the first hit, and `Intent.ParseIntentNode` calls it. Everything else is a function on values, as the Python copies values with `model_copy`. Since every state is a value, "the original state is unchanged" holds by construction.
- **Seq_len falls back to 512 when stats are missing.** The seq_len priority uses the dataset's p95 only when the analyzed dataset has `seq_len_stats`. A dataset without statistics falls back to 512, as `fitcheck/api.py:142` checks both conditions.

## Model

| member | source | states |
|---|---|---|
| Api.MethodFromValue | fitcheck/api.py:58 | the method enum accepts exactly "full", "lora", "qlora", and its value reads back as the input; anything else is an unknown-method error carrying the name |
| Api.ResolveSeqLen | fitcheck/api.py:129-146 | explicit value first: positive is used as is with note "--seq-len N", non-positive fails; otherwise the dataset's p95 with "dataset p95 (P tokens)" when stats exist; otherwise 512 with "default (512)" |
| Api.DefaultSeqLenText | fitcheck/api.py:24 | the default sequence length is 512 and its note reads "default (512)" |
| Api.ExplicitSeqLenIgnoresDataset | fitcheck/api.py:137-140 | an explicit seq_len gives the same result whatever the dataset |
| Api.SeqLenReasoningNamesValue | fitcheck/api.py:140-146 | the note always contains the chosen number, and starts with "--seq-len" exactly when the value was explicit |
| Api.ResolveInputs | fitcheck/api.py:57-72 | on success the method, the hardware, the model and the dataset are exactly what the enum and the collaborators returned; a dataset exists iff a path was given; the sequence length is the resolved one |
| Api.TrainablePct | fitcheck/api.py:101 | fails with a zero division exactly when the model has no parameters; otherwise pct × total = trainable × 100 |
| Api.RenderWarnings | fitcheck/api.py:110-111 | one rendered line per sanity warning, in the checker's order, each as "[severity] category: message" |
| Api.BuildReport | fitcheck/api.py:149-197 | without a dataset: source "none", 0 rows, format "unknown", no stats, 0 samples; with one, these are the dataset's; samples per epoch always equal the row count; all other fields copied from model, hardware, method value, seq_len and solver |
| Api.RunSolver | fitcheck/api.py:79-97 | with a batch size, `estimate_fixed` at that batch size answers; without one, `solve` does |
| Api.PlanResult | fitcheck/api.py:27-126 | `plan` succeeds iff the inputs resolve, the solver answers and the model has parameters; the report then names the lower-cased method and the resolved model, and pct × total = trainable × 100 |
| Api.AppendWarnings | fitcheck/api.py:110-111 | the loop leaves the earlier warnings in place and adds each sanity warning, rendered, at the end in order |
| Api.DefaultPlan | fitcheck/api.py:27-97 | a call with only model, method and GPU plans at 512 tokens with note "default (512)", uses `solve` with LoRA rank 16, and reports no dataset |
| Api.Plan | fitcheck/api.py:27-126 | the loop appending each rendered sanity warning yields exactly `PlanResult`: the solver's warnings followed by the rendered sanity warnings |
| Api.PlanChecksMethodThenGpu | fitcheck/api.py:57-64 | an unknown method fails first, whatever the collaborators; then an unknown GPU, before the model is resolved; then a model resolution failure |
| Api.PlanUsesResolvedInputs | fitcheck/api.py:79-197 | on success, `estimate_fixed` ran iff a batch size was given and `solve` otherwise, both with the resolved seq_len; the report's seq_len and its note, the method value, the hardware name and its three memory figures, and the trainable-parameter count are the resolved ones; an explicit seq_len is the one used |
| Api.PlanWarnings | fitcheck/api.py:103-111 | the report's warnings start with the solver's own; without a dataset nothing is added; with one, each sanity warning follows, rendered, in order |
| Api.PlanDatasetFields | fitcheck/api.py:162-174 | without a dataset: fallbacks and seq_len explicit-or-512; with one: source, rows, format, length statistics and samples per epoch from the analyzed dataset |
| NlParse.MatchWords | fitcheck/nlparse.py:34-44 | the anchored pattern, run over the words, matches exactly the four listed shapes (`WellFormed`); groups capture the words at their positions; a dataset iff a `with` clause, a seq_len iff a trailing `at` clause of digits |
| NlParse.OptionalInt | fitcheck/nlparse.py:65 | no digits gives None; digits give their value, or the `int()` error beyond 4300 digits |
| NlParse.ParseSpec | fitcheck/nlparse.py:47-66 | None iff the words are not of the shape; on a match the method is lower-cased and one of full/lora/qlora; model id and gpu are the words themselves, non-empty and without whitespace; dataset iff `with`, seq_len iff `at`, and then the digits' value |
| NlParse.LowerSpelling | fitcheck/nlparse.py:61 | any case spelling of a keyword without i, s, k lowers to the keyword |
| NlParse.MethodWordLowered | fitcheck/nlparse.py:61 | a word matching the method alternation lowers to one of the three keywords, and spells that keyword |
| NlParse.StripInvariant | fitcheck/nlparse.py:54 | whitespace before and after the spec does not change the result |
| NlParse.SpellingIsToken | fitcheck/nlparse.py:43 | every case-insensitive spelling of a keyword is a single whitespace-free word |
| NlParse.SpecWordsAreTokens | fitcheck/nlparse.py:36-41 | the words of a rendered spec are all whitespace-free and non-empty |
| NlParse.MatchSpecWords | fitcheck/nlparse.py:34-44 | the pattern matches a rendered spec and its groups capture the fields it was rendered from |
| NlParse.RoundTrip | fitcheck/nlparse.py:28-66 | a spec written from its fields, with any keyword spellings, parses back to exactly those fields, the method lower-cased |
| NlParse.WrongLengthRejected | fitcheck/nlparse.py:34-56 | an input whose word count is not 4, 6 or 8 gives None |
| NlParse.AtBeforeWithRejected | fitcheck/nlparse.py:40-42 | an `at` clause before a `with` clause gives None |
| NlParse.EmptyRejected | fitcheck/nlparse.py:55-56 | the empty input gives None |
| NlParse.TwoWordsRejected | fitcheck/nlparse.py:55-56 | "garbage string" gives None |
| NlParse.MissingOnRejected | fitcheck/nlparse.py:38-56 | "qlora model 3090" gives None |
| Text.LowerChar | aegis/nodes/intent.py:10 | 'A'..'Z' become 'a'..'z', the Kelvin sign becomes "k", the dotted capital I becomes "i" and a combining dot, and every other character stays |
| Text.Lower | aegis/nodes/intent.py:10 | the lowered text has no character left to lower, and no character is dropped |
| Text.LowerAt | aegis/nodes/intent.py:10 | without a dotted capital I, the lowered text has the same length and each position holds the lowered character |
| Text.LowerConcat | aegis/nodes/intent.py:10 | lowering a concatenation lowers each part |
| Text.LowerKeeps | aegis/nodes/intent.py:10 | text with nothing to lower is unchanged |
| Text.LowerIdempotent | aegis/nodes/intent.py:10 | lowering twice is lowering once |
| Text.Words | fitcheck/nlparse.py:36-41 | the words of a text are non-empty and whitespace-free, and a text starting with a non-space has at least one |
| Text.ParseInt | aegis/nodes/intent.py:31 | `int()` on a digit string fails iff it has more than 4300 digits, with that count, and otherwise gives the digits' positional value |
| Text.WordsUnwords | fitcheck/nlparse.py:36-41 | splitting the single-space join of whitespace-free words gives the words back |
| Text.WordsLeadingSpace | fitcheck/nlparse.py:54 | leading whitespace does not change the words |
| Text.WordsTrailingSpace | fitcheck/nlparse.py:54 | trailing whitespace does not change the words |
| Text.DecimalRoundTrip | fitcheck/nlparse.py:65 | `int(str(n)) == n` for a natural number |
| Text.ParseIntDecimal | fitcheck/nlparse.py:65 | a decimal of at most 4300 digits converts back to its number |
| State.NewTrainingSpecDefaults | aegis/models/state.py:6-19 | a new spec has the given method, model and dataset and the declared defaults (3 epochs, batch 4, 1 accumulation step, 5e-5, 512, "a10g", no streaming, 0 max steps, no remote code) |
| State.MethodValuesDistinct | aegis/models/state.py:8 | the method values are "full_finetune", "lora", "qlora", one per method |
| State.InitialStateIsEmpty | aegis/models/state.py:46-59 | a fresh state has no input, no spec, an empty log, 0 of 3 retries, no outputs, and the budget policy 5.00 / 2.00 / auto-approve |
| State.AppendEvent | aegis/models/state.py:52 | appending an event keeps the earlier log as a prefix, adds exactly that event, and changes no other field |
| Intent.MethodFor | aegis/nodes/intent.py:9-15 | full_finetune iff the text has "full" and "finetune"; otherwise qlora iff it has "qlora" or "q-lora"; otherwise lora |
| Intent.FullFinetuneWins | aegis/nodes/intent.py:10-14 | "full finetune" wins over a later "qlora" |
| Intent.FirstModelMatchIsFirst | aegis/nodes/intent.py:18-27 | the first key of the table found in the text picks the model, whatever later keys also occur |
| Intent.FirstModelMatch | aegis/nodes/intent.py:18-27 | there is no match iff no key of the table occurs in the text; a match is the model paired with a key that occurs |
| Intent.LookupModel | aegis/nodes/intent.py:18-27 | the lookup loop with its early exit returns the first matching key's model, else the default |
| Intent.SearchFindsFirst | aegis/nodes/intent.py:30-35 | a search returns the match at the first position where the pattern matches |
| Intent.Search | aegis/nodes/intent.py:30-35 | a search finds nothing iff the pattern matches at no position; what it returns is the match at some position of the text |
| Intent.BatchSizeFor | aegis/nodes/intent.py:30-31 | no match gives the default 4; a match is a digit run, and the conversion fails iff it has more than 4300 digits, else gives the digits' value |
| Intent.EpochsFor | aegis/nodes/intent.py:34-35 | no match gives the default 3; a match is a digit run, and the conversion fails iff it has more than 4300 digits, else gives the digits' value |
| Intent.BatchAt | aegis/nodes/intent.py:30 | what `batch\s*(?:size)?\s*(\d+)` captures at a position is a non-empty digit run |
| Intent.BatchNumber | aegis/nodes/intent.py:30 | what `(?:size)?\s*(\d+)` captures is a non-empty digit run |
| Intent.EpochAt | aegis/nodes/intent.py:34 | what `(\d+)\s*epoch` captures at a position is a non-empty digit run |
| Intent.BatchAtAfterKeyword | aegis/nodes/intent.py:30 | after "batch", the pattern skips whitespace and reads the rest |
| Intent.BatchNumberOfDigits | aegis/nodes/intent.py:30 | digits not preceded by "size" are captured whole |
| Intent.BatchNumberAfterSize | aegis/nodes/intent.py:30 | "size", whitespace and digits: the digits are captured whole |
| Intent.BatchSizeCaptured | aegis/nodes/intent.py:30 | "batch", spaces, "size", spaces and a number capture that number |
| Intent.BatchCaptured | aegis/nodes/intent.py:30 | "batch", spaces and a number capture that number |
| Intent.EpochsCaptured | aegis/nodes/intent.py:34 | a number, spaces and "epoch" capture that number |
| Intent.BatchAtIff | aegis/nodes/intent.py:30 | the batch pattern captures `d` at a position iff the text there has one of its two shapes around the maximal digit run `d`; no capture means the pattern does not match there |
| Intent.BatchNumberIff | aegis/nodes/intent.py:30 | after "batch" and its spaces, `d` is captured iff the text is "size", spaces and the maximal digits `d`, or those digits alone |
| Intent.EpochAtIff | aegis/nodes/intent.py:34 | the epoch pattern captures `d` at a position iff the text there is the digits `d`, spaces and "epoch" |
| Intent.ParseIntentNode | aegis/nodes/intent.py:5-60 | an oversized number gives one failed parse_intent event and nothing else; otherwise the spec has the classified method, the looked-up model, the extracted batch and epochs, "./data/sample.jsonl" and the defaults, and is stored with one completed event carrying it |
| Gate.CheckAutoApprove | aegis/nodes/gate.py:4-24 | approved iff there is an estimate and its cost is within both the hard limit and the soft threshold |
| Gate.BudgetGateNode | aegis/nodes/gate.py:27-85 | exactly one budget_gate event appended, nothing but log and decision changed; no estimate: failed, no data; above the hard limit: failed and cancel; auto-approved: completed and approve; otherwise interrupted, decision kept; the data records the gate's inputs |
| Gate.GateIgnoresAllowAutoApprove | aegis/nodes/gate.py:18-68 | `allow_auto_approve` changes neither the approval nor the node's log or decision |
| Gate.DefaultPolicyOutcomes | aegis/nodes/gate.py:51-68 | under the default policy 1.0 is approved, 3.0 waits for a human, 6.0 is cancelled |
| Remediate.HalvedBatch | aegis/nodes/remediate.py:10 | `max(1, b // 2)`: at least 1, the floor of half the batch when the batch is 2 or more, and 1 below that |
| Remediate.LighterMethod | aegis/nodes/remediate.py:15-19 | qlora has no lighter method; full_finetune steps to lora and lora to qlora |
| Remediate.RemediateSpec | aegis/nodes/remediate.py:4-27 | at most one of batch, method, learning rate changes and nothing else; rule 1 halves the batch on a memory error; rule 2 steps the method at batch 1; rule 3 halves the learning rate on divergence; rule 4 halves the batch with floor 1 |
| Remediate.RemediateBatchBounds | aegis/nodes/remediate.py:8-27 | a positive batch stays between 1 and its old value; a batch below 1 becomes 1 unless the learning-rate rule fires |
| Remediate.RemediateProgress | aegis/nodes/remediate.py:8-27 | without divergence, a spec is unchanged exactly at qlora with batch 1, and otherwise moves strictly down the ladder |
| Remediate.RemediateConverges | aegis/nodes/remediate.py:8-27 | repeating the same non-divergence error reaches qlora at batch 1 within the ladder distance |
| Remediate.SpecChanges | aegis/nodes/remediate.py:42-50 | the change list is empty iff batch, method and learning rate are all equal; each field that differs has exactly one entry with its old and new value, and no entry names a field that did not change; batch first, learning rate last |
| Remediate.RemediateSpecNode | aegis/nodes/remediate.py:30-69 | without a spec, one failed event; with one, the spec is replaced by its remediation, retries go up by one, and one completed event carries the error, the changes and the new spec |
| Remediate.RemediationLogsOneChange | aegis/nodes/remediate.py:42-52 | the logged change list names at most one field, and is empty iff the spec stayed the same |
| Evaluator.RunCanaryTest | aegis/nodes/evaluator.py:25-27 | the canary stub always passes |
| Evaluator.RunEvals | aegis/nodes/evaluator.py:4-22 | fails iff an eval loss is present without a training loss; otherwise the metrics are kept, passed iff no failures, at most two failures |
| Evaluator.RunEvalsFailures | aegis/nodes/evaluator.py:9-20 | a convergence failure with the loss comes first iff the loss is missing or above 2.0; an overfitting failure with the gap comes last iff the gap exceeds 1.0; the list is exactly these, in that order, and nothing else |
| Evaluator.RunEvalsNode | aegis/nodes/evaluator.py:30-65 | without an execution result or on a raised lookup, one failed event and `eval_result` left unchanged; otherwise the result is stored and the event is completed iff it passed |
| Evaluator.EvalNodeCompletedIff | aegis/nodes/evaluator.py:40-58 | the node's event is completed iff there is a result whose training loss is at most 2.0 and whose eval gap, if any, is at most 1.0 |

## Left out

- Collaborators of `plan`: the hardware catalog, the model resolver, the dataset analyzer, the config solver, the trainable-parameter count and the sanity checker. They are parameters with no behaviour of their own: their modules are not part of this model. `get_trainable_params` and `check_training_sanity` are taken not to raise.
- `SolverResult` holds only the recommendation and the warnings, the two parts `plan` touches. `plan` appends to the solver's own list in place; the model builds a new list, so aliasing of that list is not captured.
- `LoRAConfig(rank=...)` validation: the config class is not part of this model, so any rank is accepted.
- Api.TrainablePct: the percentage is an exact real, not a rounded float.
- `fitcheck/cli.py`, the report formatter, the cost profiler and its node, the LLM intent parser, the executor and the code generators: user interface, network, templates and float heuristics outside the core.
- `RunEvent.timestamp` (the wall clock) and every event `message` text are not modelled; event data is modelled by its fields. Remediation changes are `SpecChange` values rather than their "field: old -> new" strings.
- `TrainingSpec`'s field values are not validated beyond their types; pydantic coercion is not modelled.
- Intent.BatchAt: its own contract says only that a capture is a digit run; which texts it matches, in both directions, is stated by Intent.BatchAtIff, kept out of the function so that the existential shape is not unfolded wherever the function is used.
- Intent.BatchNumber: likewise its own contract says only that a capture is a digit run; its two shapes are stated by Intent.BatchNumberIff.
- Intent.EpochAt: likewise its own contract says only that a capture is a digit run; its shape is stated by Intent.EpochAtIff.
- Text.Lower: models `str.lower()` only for the characters whose lower case is or contains an ASCII letter; other characters are left as they are. That cannot change any test against an ASCII keyword. It does change text the model carries along: the `UnknownMethod` error of `plan` holds the lowered method name, which differs from Python's for a name with non-ASCII capitals.
- Unicode digits: `\d` and `int()` accept every Unicode decimal digit, and the model accepts ASCII digits only.
- `int()`'s digit limit is taken at its default of 4300 (`sys.set_int_max_str_digits` can change it).
- Evaluator.RunEvals: execution results are typed: the training and eval losses may be present or absent, and a model path. A non-numeric loss, and the `TypeError` it would raise, is not modelled.
- Floating-point NaN and infinities other than the missing-loss default are not modelled.
- `NlParse`: the pattern is modelled on the whitespace-separated words of the input. That every match of the regular expression is such a word sequence is argued in the module comment, not proved character by character.
