/** Rule-based extraction of a training spec from the user's request
    (aegis/nodes/intent.py). All rules read the lower-cased request. */
module Intent {
  import opened Wrappers
  import opened Text
  import opened State

  const IntentPhase: string := "parse_intent"
  const DefaultModelName: string := "tinyllama/tinyllama-272m"
  const SampleDatasetPath: string := "./data/sample.jsonl"

  /** The model table, in the order its keys are tried: a key found in the request
      selects the model id beside it. */
  const ModelMap: seq<(string, string)> := [
    ("tinyllama", "tinyllama/tinyllama-272m"),
    ("llama-7b", "meta-llama/Llama-2-7b-hf"),
    ("llama-3-8b", "meta-llama/Meta-Llama-3-8B")
  ]

  // ---------------------------------------------------------------- method

  /** Full fine-tuning needs both "full" and "finetune"; otherwise a mention of
      "qlora" or "q-lora" picks QLoRA; everything else is LoRA. */
  function MethodFor(lowered: string): (m: Method)
    ensures m == FullFinetune <==> Contains(lowered, "full") && Contains(lowered, "finetune")
    ensures m == QLoRA <==>
      !(Contains(lowered, "full") && Contains(lowered, "finetune"))
      && (Contains(lowered, "qlora") || Contains(lowered, "q-lora"))
  {
    if Contains(lowered, "full") && Contains(lowered, "finetune") then FullFinetune
    else if Contains(lowered, "qlora") || Contains(lowered, "q-lora") then QLoRA
    else if Contains(lowered, "lora") then LoRA
    else LoRA
  }

  /** Full fine-tuning wins over any mention of (q)lora. */
  lemma FullFinetuneWins(a: string, b: string, c: string)
    ensures MethodFor(a + "full finetune" + b + "qlora" + c) == FullFinetune
  {
    var s := a + "full finetune" + b + "qlora" + c;
    assert s == a + "full" + (" finetune" + b + "qlora" + c);
    ContainsInfix(a, "full", " finetune" + b + "qlora" + c);
    assert s == (a + "full ") + "finetune" + (b + "qlora" + c);
    ContainsInfix(a + "full ", "finetune", b + "qlora" + c);
  }

  // ---------------------------------------------------------------- model

  /** The model id of the first key in `table` that occurs in the request: none iff
      no key occurs, and otherwise the id paired with a key that does. */
  function FirstModelMatch(lowered: string, table: seq<(string, string)>): (r: Option<string>)
    ensures r.None? <==> forall j :: 0 <= j < |table| ==> !Contains(lowered, table[j].0)
    ensures r.Some? ==> exists k :: 0 <= k < |table| && Contains(lowered, table[k].0) && r.value == table[k].1
  {
    if table == [] then None
    else if Contains(lowered, table[0].0) then Some(table[0].1)
    else
      var r := FirstModelMatch(lowered, table[1..]);
      assert forall j :: 0 <= j < |table| - 1 ==> table[1..][j] == table[j + 1];
      r
  }

  /** The model the request names, the default when it names none. */
  function ModelNameFor(lowered: string): string {
    match FirstModelMatch(lowered, ModelMap)
    case Some(name) => name
    case None => DefaultModelName
  }

  /** The first key that occurs decides, whatever later keys also occur. */
  lemma {:induction false} FirstModelMatchIsFirst(lowered: string, table: seq<(string, string)>, k: nat)
    requires k < |table| && Contains(lowered, table[k].0)
    requires forall j :: 0 <= j < k ==> !Contains(lowered, table[j].0)
    ensures FirstModelMatch(lowered, table) == Some(table[k].1)
  {
    if k > 0 {
      assert !Contains(lowered, table[0].0);
      assert table[1..][k - 1] == table[k];
      FirstModelMatchIsFirst(lowered, table[1..], k - 1);
    }
  }

  /** The lookup loop: try the keys in table order and stop at the first one found. */
  method LookupModel(lowered: string) returns (modelName: string)
    ensures modelName == ModelNameFor(lowered)
  {
    modelName := DefaultModelName;
    var i := 0;
    while i < |ModelMap|
      invariant 0 <= i <= |ModelMap|
      invariant modelName == DefaultModelName
      invariant FirstModelMatch(lowered, ModelMap) == FirstModelMatch(lowered, ModelMap[i..])
    {
      if Contains(lowered, ModelMap[i].0) {
        modelName := ModelMap[i].1;
        break;
      }
      assert ModelMap[i..][1..] == ModelMap[i + 1..];
      i := i + 1;
    }
  }

  // ---------------------------------------------------------------- numbers

  /** `re.search`: the match of `f` at the earliest position of `s` where it matches;
      none iff no position matches, and otherwise the match at some position. */
  function Search(s: string, f: string -> Option<string>): (r: Option<string>)
    ensures r.None? <==> forall j :: 0 <= j <= |s| ==> f(s[j..]).None?
    ensures r.Some? ==> exists i :: 0 <= i <= |s| && f(s[i..]) == r
    decreases |s|
  {
    assert s[0..] == s;
    if f(s).Some? then f(s)
    else if s == [] then None
    else
      var r := Search(s[1..], f);
      assert forall j :: 0 <= j <= |s| - 1 ==> s[1..][j..] == s[j + 1..];
      assert (forall j :: 0 <= j <= |s| - 1 ==> f(s[1..][j..]).None?) ==>
        forall j :: 1 <= j <= |s| ==> f(s[j..]).None? by {
        forall j | 1 <= j <= |s| ensures s[j..] == s[1..][j - 1..] { }
      }
      r
  }

  /** `Search` returns the match at the first position where there is one. */
  lemma {:induction false} SearchFindsFirst(s: string, f: string -> Option<string>, i: nat)
    requires i <= |s| && f(s[i..]).Some?
    requires forall j :: 0 <= j < i ==> f(s[j..]).None?
    ensures Search(s, f) == f(s[i..])
  {
    if i > 0 {
      assert s[0..] == s;
      forall j | 0 <= j < i - 1
        ensures f(s[1..][j..]).None?
      {
        assert s[1..][j..] == s[j + 1..];
      }
      assert s[1..][i - 1..] == s[i..];
      SearchFindsFirst(s[1..], f, i - 1);
    }
  }

  /** `rest` does not go on with a digit, so a `\d+` before it is maximal. */
  predicate NoDigitNext(rest: string) { rest == [] || !IsDigit(rest[0]) }

  /** `a` holds, from position `k`, the maximal digit run `d`. */
  predicate DigitsAt(a: string, k: nat, d: string) {
    k <= |a| && StartsWith(a[k..], d) && IsNumeral(d) && NoDigitNext(a[k + |d|..])
  }

  /** `a` reads "size", then `n` spaces, then the maximal digit run `d`. */
  predicate SizeShapeAt(a: string, n: nat, d: string) {
    StartsWith(a, "size") && n <= |a| - 4 && AllSpace(a[4..][..n]) && DigitsAt(a[4..], n, d)
  }

  /** `a` reads "size", spaces and then the maximal digit run `d`. */
  ghost predicate SizeShape(a: string, d: string) {
    exists n: nat :: SizeShapeAt(a, n, d)
  }

  /** `a` starts with the maximal digit run `d`. */
  predicate DigitsShape(a: string, d: string) {
    DigitsAt(a, 0, d)
  }

  /** `t` reads "batch", then `n` spaces, then one of the two shapes of the pattern's tail. */
  ghost predicate BatchShapeAt(t: string, n: nat, d: string) {
    StartsWith(t, "batch") && n <= |t| - 5 && AllSpace(t[5..][..n])
    && (SizeShape(t[5..][n..], d) || DigitsShape(t[5..][n..], d))
  }

  /** The texts at whose front `batch\s*(?:size)?\s*(\d+)` matches capturing `d`:
      "batch", spaces, then "size", spaces and `d`, or `d` alone. */
  ghost predicate BatchShape(t: string, d: string) {
    exists n: nat :: BatchShapeAt(t, n, d)
  }

  /** `t` reads the digits `d`, then `n` spaces, then "epoch". */
  predicate EpochShapeAt(t: string, n: nat, d: string) {
    IsNumeral(d) && StartsWith(t, d) && n <= |t| - |d| && AllSpace(t[|d|..][..n])
    && StartsWith(t[|d|..][n..], "epoch")
  }

  /** The texts at whose front `(\d+)\s*epoch` matches capturing `d`: the digits `d`,
      spaces and "epoch". */
  ghost predicate EpochShape(t: string, d: string) {
    exists n: nat :: EpochShapeAt(t, n, d)
  }

  /** `\s*` at the front of `s` stops where the whitespace run `s[..k]` ends. */
  lemma SpacesThen(s: string, k: nat)
    requires k <= |s| && AllSpace(s[..k]) && (k == |s| || !IsSpace(s[k]))
    ensures SkipSpaces(s) == s[k..]
  {
    assert s == s[..k] + s[k..];
    SkipSpacesOver(s[..k], s[k..]);
  }

  /** What `\s*` skips at the front of `s` is a whitespace run, ending at `|s| - |SkipSpaces(s)|`. */
  lemma SpacesSkipped(s: string)
    ensures AllSpace(s[..|s| - |SkipSpaces(s)|])
    ensures SkipSpaces(s) == s[|s| - |SkipSpaces(s)|..]
  {
    SkipSpacesSplit(s);
  }

  /** A maximal digit run at the front of `s` is what a greedy `\d+` takes. */
  lemma DigitsThen(s: string, d: string)
    requires DigitsAt(s, 0, d)
    ensures DigitPrefix(s) == d
  {
    assert s == d + s[|d|..];
    DigitPrefixOf(d, s[|d|..]);
  }

  /** `batch\s*(?:size)?\s*(\d+)` matched at the front of `t`: the digits it captures
      (which texts it matches is `BatchAtIff`). */
  function BatchAt(t: string): (r: Option<string>)
    ensures r.Some? ==> IsNumeral(r.value)
  {
    if StartsWith(t, "batch") then BatchNumber(SkipSpaces(t[5..])) else None
  }

  /** The two shapes after "batch" and its spaces are the two shapes of the pattern. */
  lemma BatchShapeOf(t: string)
    requires StartsWith(t, "batch") && BatchNumber(SkipSpaces(t[5..])).Some?
    ensures BatchShape(t, BatchNumber(SkipSpaces(t[5..])).value)
  {
    var u := t[5..];
    var a := SkipSpaces(u);
    var n := |u| - |a|;
    var v := BatchNumber(a).value;
    SpacesSkipped(u);
    assert u[n..] == a;
    BatchNumberShape(a);
    assert BatchShapeAt(t, n, v);
  }

  /** `(?:size)?\s*(\d+)` matched at the front of `a`, the text after "batch" and its
      spaces: the optional "size" is tried first, then its omission; `\d+` is greedy. */
  function BatchNumber(a: string): (r: Option<string>)
    ensures r.Some? ==> IsNumeral(r.value)
  {
    var b := if StartsWith(a, "size") then SkipSpaces(a[4..]) else [];
    if b != [] && IsDigit(b[0]) then Some(DigitPrefix(b))
    else if a != [] && IsDigit(a[0]) then Some(DigitPrefix(a))
    else None
  }

  /** "size", spaces and a digit: the size shape with the maximal digit run. */
  lemma SizeShapeOf(a: string)
    requires StartsWith(a, "size")
    requires SkipSpaces(a[4..]) != [] && IsDigit(SkipSpaces(a[4..])[0])
    ensures SizeShape(a, DigitPrefix(SkipSpaces(a[4..])))
  {
    var u := a[4..];
    var b := SkipSpaces(u);
    var n := |u| - |b|;
    SpacesSkipped(u);
    DigitsShapeOf(b);
    DigitsAtShift(u, n, DigitPrefix(b));
    assert SizeShapeAt(a, n, DigitPrefix(b));
  }

  /** A maximal digit run at the front of `a[n..]` is one at position `n` of `a`. */
  lemma DigitsAtShift(a: string, n: nat, d: string)
    requires n <= |a| && DigitsAt(a[n..], 0, d)
    ensures DigitsAt(a, n, d)
  {
    assert a[n..][0..] == a[n..];
    assert a[n..][|d|..] == a[n + |d|..];
  }

  /** A digit first: the digits shape with the maximal digit run. */
  lemma DigitsShapeOf(a: string)
    requires a != [] && IsDigit(a[0])
    ensures DigitsShape(a, DigitPrefix(a))
  {
    assert a[0..] == a;
  }

  /** `(\d+)\s*epoch` matched at the front of `t`: the digits it captures (which texts
      it matches is `EpochAtIff`). */
  function EpochAt(t: string): (r: Option<string>)
    ensures r.Some? ==> IsNumeral(r.value)
  {
    if t == [] || !IsDigit(t[0]) then None
    else
      var d := DigitPrefix(t);
      if StartsWith(SkipSpaces(t[|d|..]), "epoch") then Some(d) else None
  }

  /** Digits, then what `\s*` skips, then "epoch": the epoch shape. */
  lemma EpochShapeOf(t: string, d: string)
    requires IsNumeral(d) && |d| <= |t| && d == t[..|d|]
    requires StartsWith(SkipSpaces(t[|d|..]), "epoch")
    ensures EpochShape(t, d)
  {
    var u := t[|d|..];
    var n := |u| - |SkipSpaces(u)|;
    SpacesSkipped(u);
    assert EpochShapeAt(t, n, d);
  }

  /** What follows "batch" is read by `BatchNumber` once its spaces are skipped. */
  lemma BatchAtAfterKeyword(u: string)
    ensures BatchAt("batch" + u) == BatchNumber(SkipSpaces(u))
  {
    PrefixDropped("batch", u);
  }

  /** A number not preceded by "size": that number. */
  lemma BatchNumberOfDigits(d: string, rest: string)
    requires IsNumeral(d) && (rest == [] || !IsDigit(rest[0]))
    ensures BatchNumber(d + rest) == Some(d)
  {
    var a := d + rest;
    assert a[0..] == a && a[..|d|] == d && a[|d|..] == rest;
    BatchNumberOfDigitsShape(a, d);
  }

  /** "size", optional spaces and a number: that number. */
  lemma BatchNumberAfterSize(sp: string, d: string, rest: string)
    requires AllSpace(sp) && IsNumeral(d) && (rest == [] || !IsDigit(rest[0]))
    ensures BatchNumber("size" + (sp + (d + rest))) == Some(d)
  {
    var u := sp + (d + rest);
    var a := "size" + u;
    PrefixDropped("size", u);
    assert u[..|sp|] == sp && u[|sp|..] == d + rest;
    assert (d + rest)[..|d|] == d && (d + rest)[|d|..] == rest;
    assert u[|sp| + |d|..] == rest;
    assert SizeShapeAt(a, |sp|, d);
    BatchNumberOfSize(a, |sp|, d);
  }

  /** "batch", optional spaces, "size", optional spaces and a number: that number. */
  lemma BatchSizeCaptured(sp1: string, sp2: string, d: string, rest: string)
    requires AllSpace(sp1) && AllSpace(sp2) && IsNumeral(d)
    requires rest == [] || !IsDigit(rest[0])
    ensures BatchAt("batch" + (sp1 + ("size" + (sp2 + (d + rest))))) == Some(d)
  {
    var a := "size" + (sp2 + (d + rest));
    BatchAtAfterKeyword(sp1 + a);
    assert a[0] == 's';
    SkipSpacesOver(sp1, a);
    BatchNumberAfterSize(sp2, d, rest);
  }

  /** "batch", optional spaces and a number: that number. */
  lemma BatchCaptured(sp: string, d: string, rest: string)
    requires AllSpace(sp) && IsNumeral(d)
    requires rest == [] || !IsDigit(rest[0])
    ensures BatchAt("batch" + (sp + (d + rest))) == Some(d)
  {
    var a := d + rest;
    BatchAtAfterKeyword(sp + a);
    SpacesBeforeNumber(sp, d, rest);
    BatchNumberOfDigits(d, rest);
  }

  /** The spaces before a number are skipped up to its first digit. */
  lemma SpacesBeforeNumber(sp: string, d: string, rest: string)
    requires AllSpace(sp) && IsNumeral(d)
    ensures SkipSpaces(sp + (d + rest)) == d + rest
  {
    assert (d + rest)[0] == d[0];
    SkipSpacesOver(sp, d + rest);
  }

  /** A number, optional spaces and "epoch": that number. */
  lemma EpochsCaptured(d: string, sp: string, rest: string)
    requires IsNumeral(d) && AllSpace(sp)
    ensures EpochAt(d + (sp + ("epoch" + rest))) == Some(d)
  {
    var tail := sp + ("epoch" + rest);
    var t := d + tail;
    assert tail == [] || !IsDigit(tail[0]);
    DigitPrefixOf(d, tail);
    assert t[|d|..] == tail;
    SkipSpacesOver(sp, "epoch" + rest);
    assert ("epoch" + rest)[..5] == "epoch";
  }
  /** The tail of the batch pattern captures `d` exactly when `a` is "size", spaces and
      the maximal digits `d`, or the maximal digits `d` alone. */
  lemma BatchNumberIff(a: string, d: string)
    ensures BatchNumber(a) == Some(d) <==> SizeShape(a, d) || DigitsShape(a, d)
  {
    if BatchNumber(a) == Some(d) {
      BatchNumberShape(a);
    }
    if SizeShape(a, d) {
      var n: nat :| SizeShapeAt(a, n, d);
      BatchNumberOfSize(a, n, d);
    } else if DigitsShape(a, d) {
      BatchNumberOfDigitsShape(a, d);
    }
  }

  /** What the tail of the batch pattern captures comes from one of its two shapes. */
  lemma BatchNumberShape(a: string)
    requires BatchNumber(a).Some?
    ensures SizeShape(a, BatchNumber(a).value) || DigitsShape(a, BatchNumber(a).value)
  {
    var b := if StartsWith(a, "size") then SkipSpaces(a[4..]) else [];
    if b != [] && IsDigit(b[0]) {
      SizeShapeOf(a);
    } else {
      DigitsShapeOf(a);
    }
  }

  /** The size shape is read as its digits. */
  lemma BatchNumberOfSize(a: string, n: nat, d: string)
    requires SizeShapeAt(a, n, d)
    ensures BatchNumber(a) == Some(d)
  {
    var u := a[4..];
    assert u[n..][0] == d[0];
    SpacesThen(u, n);
    DigitsThen(u[n..], d);
  }

  /** The digits shape is read as its digits: a text starting with a digit cannot
      start with "size". */
  lemma BatchNumberOfDigitsShape(a: string, d: string)
    requires DigitsShape(a, d)
    ensures BatchNumber(a) == Some(d)
  {
    assert a[0..] == a && a[0] == d[0];
    DiffersFrom(a, "size", 0);
    DigitsThen(a, d);
  }

  /** The batch pattern captures `d` at the front of `t` exactly when `t` has one of the
      pattern's shapes around `d`; so no capture means the pattern does not match there. */
  lemma BatchAtIff(t: string, d: string)
    ensures BatchAt(t) == Some(d) <==> BatchShape(t, d)
  {
    if BatchAt(t) == Some(d) {
      BatchNumberIff(SkipSpaces(t[5..]), d);
      BatchShapeOf(t);
    }
    if BatchShape(t, d) {
      var n: nat :| BatchShapeAt(t, n, d);
      BatchAtOfShape(t, n, d);
    }
  }

  /** Either shape after "batch" and its spaces is read as its digits. */
  lemma BatchAtOfShape(t: string, n: nat, d: string)
    requires BatchShapeAt(t, n, d)
    ensures BatchAt(t) == Some(d)
  {
    var u := t[5..];
    assert n < |u| && !IsSpace(u[n]) by {
      if SizeShape(u[n..], d) {
        assert u[n..][0] == 's';
      } else {
        assert u[n..][0] == d[0];
      }
    }
    SpacesThen(u, n);
    BatchNumberIff(u[n..], d);
  }

  /** The epoch pattern captures `d` at the front of `t` exactly when `t` is the digits
      `d`, spaces and "epoch". */
  lemma EpochAtIff(t: string, d: string)
    ensures EpochAt(t) == Some(d) <==> EpochShape(t, d)
  {
    if EpochAt(t) == Some(d) {
      EpochShapeOf(t, d);
    }
    if EpochShape(t, d) {
      var n: nat :| EpochShapeAt(t, n, d);
      EpochAtOfShape(t, n, d);
    }
  }

  /** The epoch shape is read as its digits. */
  lemma EpochAtOfShape(t: string, n: nat, d: string)
    requires EpochShapeAt(t, n, d)
    ensures EpochAt(t) == Some(d)
  {
    var u := t[|d|..];
    assert u[n..][0] == 'e';
    assert NoDigitNext(u) by {
      if n > 0 {
        assert u[0] == u[..n][0];
      }
    }
    assert t[0..] == t;
    DigitsThen(t, d);
    SpacesThen(u, n);
  }



  /** `int(m.group(1)) if m else default`. */
  function NumberOr(m: Option<string>, default: int): Result<int, IntError>
    requires m.Some? ==> AllDigits(m.value)
  {
    match m
    case None => Success(default)
    case Some(digits) =>
      match ParseInt(digits)
      case Success(n) => Success(n)
      case Failure(e) => Failure(e)
  }

  /** The batch size the request asks for, or the error converting it. */
  function BatchSizeFor(lowered: string): (r: Result<int, IntError>)
    ensures Search(lowered, BatchAt).None? ==> r == Success(DefaultMicroBatchSize)
    ensures Search(lowered, BatchAt).Some? ==>
      var digits := Search(lowered, BatchAt).value;
      && IsNumeral(digits)
      && (r.Failure? <==> |digits| > IntMaxStrDigits)
      && (r.Success? ==> r.value == DigitsValue(digits))
  {
    var m := Search(lowered, BatchAt);
    NumberOr(m, DefaultMicroBatchSize)
  }

  /** The number of epochs the request asks for, or the error converting it. */
  function EpochsFor(lowered: string): (r: Result<int, IntError>)
    ensures Search(lowered, EpochAt).None? ==> r == Success(DefaultNumEpochs)
    ensures Search(lowered, EpochAt).Some? ==>
      var digits := Search(lowered, EpochAt).value;
      && IsNumeral(digits)
      && (r.Failure? <==> |digits| > IntMaxStrDigits)
      && (r.Success? ==> r.value == DigitsValue(digits))
  {
    var m := Search(lowered, EpochAt);
    NumberOr(m, DefaultNumEpochs)
  }

  // ---------------------------------------------------------------- node

  /** The intent node: a completed parse_intent event and the extracted spec, or a
      failed event (and no spec) when a number in the request is too long to convert. */
  method ParseIntentNode(s: AegisState, userInput: string) returns (r: AegisState)
    ensures var lowered := Lower(userInput);
      BatchSizeFor(lowered).Failure? || EpochsFor(lowered).Failure? ==>
        r == AppendEvent(s, RunEvent(IntentPhase, Failed, None))
    ensures var lowered := Lower(userInput);
      BatchSizeFor(lowered).Success? && EpochsFor(lowered).Success? ==>
        && r.spec.Some?
        && var spec := r.spec.value;
        && spec.trainingMethod == MethodFor(lowered)
        && spec.modelName == ModelNameFor(lowered)
        && spec.microBatchSize == BatchSizeFor(lowered).value
        && spec.numEpochs == EpochsFor(lowered).value
        && spec.datasetPath == SampleDatasetPath
        // every other field at its default
        && spec == NewTrainingSpec(spec.trainingMethod, spec.modelName, spec.datasetPath).(
             numEpochs := spec.numEpochs, microBatchSize := spec.microBatchSize)
        && r == AppendEvent(s, RunEvent(IntentPhase, Completed, Some(ParsedSpecData(spec)))).(spec := Some(spec))
  {
    var lowered := Lower(userInput);
    var trainingMethod := MethodFor(lowered);
    var modelName := LookupModel(lowered);
    var batchSize := BatchSizeFor(lowered);
    var numEpochs := EpochsFor(lowered);
    if batchSize.Failure? || numEpochs.Failure? {
      r := AppendEvent(s, RunEvent(IntentPhase, Failed, None));
      return;
    }
    var spec := NewTrainingSpec(trainingMethod, modelName, SampleDatasetPath).(
      numEpochs := numEpochs.value, microBatchSize := batchSize.value);
    var event := RunEvent(IntentPhase, Completed, Some(ParsedSpecData(spec)));
    r := AppendEvent(s, event).(spec := Some(spec));
  }
}
