/** The shorthand plan spec of fitcheck (fitcheck/nlparse.py):
    `METHOD MODEL on GPU [with DATASET] [at SEQ_LEN]`, matched case-insensitively
    against the whole of the stripped input.

    The pattern is anchored at both ends, and every piece of it is either a keyword,
    a run of non-whitespace (`\S+`, `\d+`) or a run of whitespace (`\s+`). A match
    therefore exists exactly when the whitespace-separated words of the input have
    the shape below, and each group captures one whole word. The parser is modelled
    on those words (`Text.Words`, which also discards the whitespace that `strip()`
    removes). */
module NlParse {
  import opened Wrappers
  import opened Text

  /** The parsed fields; `methodName` is the lower-cased method keyword. */
  datatype ParsedSpec = ParsedSpec(
    methodName: string,
    modelId: string,
    gpu: string,
    datasetPath: Option<string>,
    seqLen: Option<int>)

  // ---------------------------------------------------------------- keywords

  /** One character of the input against one lower-case letter of a keyword, under
      the `re.IGNORECASE` rules of a `str` pattern: the letter itself, its ASCII
      capital, and the four non-ASCII letters that fold onto ASCII ones (dotted and
      dotless I onto 'i', long s onto 's', the Kelvin sign onto 'k'). */
  predicate CharMatchesIgnoreCase(c: char, k: char) {
    || c == k
    || ('a' <= k <= 'z' && c as int == k as int - 32)
    || (k == 'i' && (c == '\U{130}' || c == '\U{131}'))
    || (k == 's' && c == '\U{17F}')
    || (k == 'k' && c == '\U{212A}')
  }

  /** The word `w` is a spelling of the lower-case keyword `kw`. */
  predicate MatchesIgnoreCase(w: string, kw: string) {
    |w| == |kw| && forall i :: 0 <= i < |w| ==> CharMatchesIgnoreCase(w[i], kw[i])
  }

  const MethodKeywords: seq<string> := ["full", "lora", "qlora"]

  /** The alternation `(full|lora|qlora)`. */
  predicate IsMethodWord(w: string) {
    MatchesIgnoreCase(w, "full") || MatchesIgnoreCase(w, "lora") || MatchesIgnoreCase(w, "qlora")
  }

  // ---------------------------------------------------------------- the pattern

  /** What the pattern's five groups capture, as words of the input. */
  datatype Groups = Groups(
    methodWord: string,
    modelId: string,
    gpu: string,
    datasetPath: Option<string>,
    seqLenDigits: Option<string>)

  /** A `with` clause follows the head. */
  predicate HasWithClause(ws: seq<string>) {
    |ws| >= 6 && MatchesIgnoreCase(ws[4], "with")
  }

  /** The last two words are an `at` clause. */
  predicate HasAtClause(ws: seq<string>) {
    |ws| >= 6 && MatchesIgnoreCase(ws[|ws| - 2], "at")
  }

  /** The shapes the pattern accepts, listed one by one. */
  predicate WellFormed(ws: seq<string>) {
    && |ws| >= 4 && IsMethodWord(ws[0]) && MatchesIgnoreCase(ws[2], "on")
    && (|ws| == 4
        || (|ws| == 6 && MatchesIgnoreCase(ws[4], "with"))
        || (|ws| == 6 && MatchesIgnoreCase(ws[4], "at") && IsNumeral(ws[5]))
        || (|ws| == 8 && MatchesIgnoreCase(ws[4], "with")
                      && MatchesIgnoreCase(ws[6], "at") && IsNumeral(ws[7])))
  }

  /** The pattern run over the words, left to right: the fixed head, the optional
      `with` group, the optional `at` group, and then the end of the input. Dropping
      an optional group after taking it never leads to a match (the next word would
      have to be both "with" and "at"), so no backtracking is needed. */
  function MatchWords(ws: seq<string>): (g: Option<Groups>)
    ensures g.Some? <==> WellFormed(ws)
    ensures g.Some? ==>
      && g.value.methodWord == ws[0] && g.value.modelId == ws[1] && g.value.gpu == ws[3]
      && (g.value.datasetPath.Some? <==> HasWithClause(ws))
      && (g.value.datasetPath.Some? ==> g.value.datasetPath.value == ws[5])
      && (g.value.seqLenDigits.Some? <==> HasAtClause(ws))
      && (g.value.seqLenDigits.Some? ==>
            g.value.seqLenDigits.value == ws[|ws| - 1] && IsNumeral(ws[|ws| - 1]))
  {
    if |ws| < 4 || !IsMethodWord(ws[0]) || !MatchesIgnoreCase(ws[2], "on") then None
    else
      var afterHead := ws[4..];
      var withGroup := |afterHead| >= 2 && MatchesIgnoreCase(afterHead[0], "with");
      var datasetPath := if withGroup then Some(afterHead[1]) else None;
      var afterWith := if withGroup then afterHead[2..] else afterHead;
      var atGroup := |afterWith| >= 2 && MatchesIgnoreCase(afterWith[0], "at") && IsNumeral(afterWith[1]);
      var seqLenDigits := if atGroup then Some(afterWith[1]) else None;
      var afterAt := if atGroup then afterWith[2..] else afterWith;
      if afterAt == [] then Some(Groups(ws[0], ws[1], ws[3], datasetPath, seqLenDigits))
      else None
  }

  /** `int(seq_len_str) if seq_len_str else None`. */
  function OptionalInt(digits: Option<string>): (r: Result<Option<int>, IntError>)
    requires digits.Some? ==> AllDigits(digits.value)
    ensures digits.None? ==> r == Success(None)
    ensures digits.Some? ==> (r.Success? <==> |digits.value| <= IntMaxStrDigits)
    ensures r.Success? && digits.Some? ==> r.value == Some(DigitsValue(digits.value))
  {
    if digits.None? then Success(None)
    else
      var n :- ParseInt(digits.value);
      Success(Some(n))
  }

  /** `parse_spec`: `None` when the input does not have the shorthand shape; the
      failure is `int()` refusing a sequence length of more than 4300 digits. */
  function ParseSpec(spec: string): (r: Result<Option<ParsedSpec>, IntError>)
    ensures var ws := Words(spec);
      && (r == Success(None) <==> !WellFormed(ws))
      && (r.Failure? <==> WellFormed(ws) && HasAtClause(ws) && |ws[|ws| - 1]| > IntMaxStrDigits)
    ensures r.Success? && r.value.Some? ==>
      var ws := Words(spec);
      var p := r.value.value;
      && p.methodName in MethodKeywords
      && MatchesIgnoreCase(ws[0], p.methodName)
      && p.modelId == ws[1] && IsToken(p.modelId)
      && p.gpu == ws[3] && IsToken(p.gpu)
      && (p.datasetPath.Some? <==> HasWithClause(ws))
      && (p.datasetPath.Some? ==> p.datasetPath.value == ws[5] && IsToken(p.datasetPath.value))
      && (p.seqLen.Some? <==> HasAtClause(ws))
      && (p.seqLen.Some? ==> IsNumeral(ws[|ws| - 1]) && p.seqLen.value == DigitsValue(ws[|ws| - 1]))
  {
    var ws := Words(spec);
    var g := MatchWords(ws);
    if g.None? then Success(None)
    else
      var seqLen :- OptionalInt(g.value.seqLenDigits);
      MethodWordLowered(ws[0]);
      Success(Some(ParsedSpec(Lower(g.value.methodWord), g.value.modelId, g.value.gpu,
        g.value.datasetPath, seqLen)))
  }

  // ---------------------------------------------------------------- lemmas

  /** A spelling of a keyword without the letters i, s and k lowers to the keyword:
      each of its characters is the keyword's letter or that letter's ASCII capital. */
  lemma {:induction false} LowerSpelling(w: string, kw: string)
    requires MatchesIgnoreCase(w, kw)
    requires forall i :: 0 <= i < |kw| ==> 'a' <= kw[i] <= 'z' && kw[i] != 'i' && kw[i] != 's' && kw[i] != 'k'
    ensures Lower(w) == kw
  {
    if w != [] {
      LowerSpelling(w[1..], kw[1..]);
      assert LowerChar(w[0]) == [kw[0]];
      assert kw == [kw[0]] + kw[1..];
    }
  }

  /** The method group, lower-cased, is always one of the three keywords, and it is
      the keyword the word spells. */
  lemma MethodWordLowered(w: string)
    ensures IsMethodWord(w) ==> Lower(w) in MethodKeywords && MatchesIgnoreCase(w, Lower(w))
  {
    if MatchesIgnoreCase(w, "full") {
      LowerSpelling(w, "full");
    } else if MatchesIgnoreCase(w, "lora") {
      LowerSpelling(w, "lora");
    } else if MatchesIgnoreCase(w, "qlora") {
      LowerSpelling(w, "qlora");
    }
  }

  /** Whitespace around the spec does not change the result. */
  lemma StripInvariant(leading: string, spec: string, trailing: string)
    requires AllSpace(leading) && AllSpace(trailing)
    ensures ParseSpec(leading + spec + trailing) == ParseSpec(spec)
  {
    assert leading + spec + trailing == leading + (spec + trailing);
    WordsLeadingSpace(leading, spec + trailing);
    WordsTrailingSpace(spec, trailing);
  }

  /** Every spelling of a keyword is a single word. */
  lemma {:induction false} SpellingIsToken(w: string, kw: string)
    requires MatchesIgnoreCase(w, kw) && kw != []
    requires forall i :: 0 <= i < |kw| ==> 'a' <= kw[i] <= 'z'
    ensures IsToken(w)
  {
    forall i | 0 <= i < |w|
      ensures !IsSpace(w[i])
    {
      assert CharMatchesIgnoreCase(w[i], kw[i]);
    }
  }

  /** The words of a shorthand spec: a method spelling, the model, an "on" spelling and
      the GPU, then optionally a "with" spelling and the dataset, then optionally an
      "at" spelling and the sequence length in decimal. */
  function SpecWords(methodWord: string, modelId: string, onWord: string, gpu: string,
                     dataset: Option<(string, string)>, seqLen: Option<(string, nat)>): seq<string>
  {
    [methodWord, modelId, onWord, gpu]
    + (if dataset.Some? then [dataset.value.0, dataset.value.1] else [])
    + (if seqLen.Some? then [seqLen.value.0, Decimal(seqLen.value.1)] else [])
  }

  /** The rendered words are all single words. */
  lemma SpecWordsAreTokens(methodWord: string, kw: string, modelId: string, onWord: string, gpu: string,
                           dataset: Option<(string, string)>, seqLen: Option<(string, nat)>)
    requires kw in MethodKeywords && MatchesIgnoreCase(methodWord, kw)
    requires IsToken(modelId) && IsToken(gpu) && MatchesIgnoreCase(onWord, "on")
    requires dataset.Some? ==> MatchesIgnoreCase(dataset.value.0, "with") && IsToken(dataset.value.1)
    requires seqLen.Some? ==> MatchesIgnoreCase(seqLen.value.0, "at")
    ensures var ws := SpecWords(methodWord, modelId, onWord, gpu, dataset, seqLen);
      forall i :: 0 <= i < |ws| ==> IsToken(ws[i])
  {
    SpellingIsToken(methodWord, kw);
    SpellingIsToken(onWord, "on");
    if dataset.Some? {
      SpellingIsToken(dataset.value.0, "with");
    }
    if seqLen.Some? {
      SpellingIsToken(seqLen.value.0, "at");
    }
  }

  /** The pattern matches the rendered words and its groups capture the fields. */
  lemma MatchSpecWords(methodWord: string, kw: string, modelId: string, onWord: string, gpu: string,
                       dataset: Option<(string, string)>, seqLen: Option<(string, nat)>)
    requires kw in MethodKeywords && MatchesIgnoreCase(methodWord, kw)
    requires MatchesIgnoreCase(onWord, "on")
    requires dataset.Some? ==> MatchesIgnoreCase(dataset.value.0, "with")
    requires seqLen.Some? ==> MatchesIgnoreCase(seqLen.value.0, "at")
    ensures MatchWords(SpecWords(methodWord, modelId, onWord, gpu, dataset, seqLen))
      == Some(Groups(methodWord, modelId, gpu,
           if dataset.Some? then Some(dataset.value.1) else None,
           if seqLen.Some? then Some(Decimal(seqLen.value.1)) else None))
  {
    var ws := SpecWords(methodWord, modelId, onWord, gpu, dataset, seqLen);
    if dataset.Some? {
      assert !MatchesIgnoreCase(ws[4], "at");
    }
    if seqLen.Some? {
      assert ws[|ws| - 2] == seqLen.value.0 && ws[|ws| - 1] == Decimal(seqLen.value.1);
      if dataset.None? {
        assert !MatchesIgnoreCase(ws[4], "with");
      }
    }
  }

  /** Round trip: the spec written from its fields, with any spellings of the keywords,
      separated by single spaces, parses back to exactly those fields, the method
      lower-cased. */
  lemma RoundTrip(methodWord: string, kw: string, modelId: string, onWord: string, gpu: string,
                  dataset: Option<(string, string)>, seqLen: Option<(string, nat)>)
    requires kw in MethodKeywords && MatchesIgnoreCase(methodWord, kw)
    requires IsToken(modelId) && IsToken(gpu) && MatchesIgnoreCase(onWord, "on")
    requires dataset.Some? ==> MatchesIgnoreCase(dataset.value.0, "with") && IsToken(dataset.value.1)
    requires seqLen.Some? ==> MatchesIgnoreCase(seqLen.value.0, "at") && |Decimal(seqLen.value.1)| <= IntMaxStrDigits
    ensures ParseSpec(Unwords(SpecWords(methodWord, modelId, onWord, gpu, dataset, seqLen)))
      == Success(Some(ParsedSpec(kw, modelId, gpu,
           if dataset.Some? then Some(dataset.value.1) else None,
           if seqLen.Some? then Some(seqLen.value.1) else None)))
  {
    var ws := SpecWords(methodWord, modelId, onWord, gpu, dataset, seqLen);
    SpecWordsAreTokens(methodWord, kw, modelId, onWord, gpu, dataset, seqLen);
    WordsUnwords(ws);
    assert Words(Unwords(ws)) == ws;
    MatchSpecWords(methodWord, kw, modelId, onWord, gpu, dataset, seqLen);
    var g := MatchWords(ws).value;
    if seqLen.Some? {
      DecimalRoundTrip(seqLen.value.1);
      assert OptionalInt(g.seqLenDigits) == Success(Some(seqLen.value.1));
    }
    KeywordLowered(methodWord, kw);
    assert Lower(g.methodWord) == kw;
  }

  /** Any spelling of a method keyword lowers to the keyword. */
  lemma KeywordLowered(w: string, kw: string)
    requires kw in MethodKeywords && MatchesIgnoreCase(w, kw)
    ensures Lower(w) == kw
  {
    assert kw == "full" || kw == "lora" || kw == "qlora";
    LowerSpelling(w, kw);
  }

  /** The pattern has four, six or eight words; any other number is rejected. */
  lemma WrongLengthRejected(spec: string)
    requires |Words(spec)| != 4 && |Words(spec)| != 6 && |Words(spec)| != 8
    ensures ParseSpec(spec) == Success(None)
  {
  }

  /** The `with` clause must come before the `at` clause. */
  lemma AtBeforeWithRejected(methodWord: string, modelId: string, gpu: string, n: nat, dataset: string)
    requires IsToken(methodWord) && IsToken(modelId) && IsToken(gpu) && IsToken(dataset)
    ensures ParseSpec(Unwords([methodWord, modelId, "on", gpu, "at", Decimal(n), "with", dataset]))
      == Success(None)
  {
    var ws := [methodWord, modelId, "on", gpu, "at", Decimal(n), "with", dataset];
    assert IsToken("on") && IsToken("at") && IsToken("with");
    WordsUnwords(ws);
    assert !MatchesIgnoreCase(ws[4], "with");
  }

  /** The empty input has no words and is rejected. */
  lemma EmptyRejected()
    ensures ParseSpec("") == Success(None)
  {
  }

  /** Two words are rejected. */
  lemma TwoWordsRejected()
    ensures ParseSpec("garbage string") == Success(None)
  {
    var ws := ["garbage", "string"];
    assert Unwords(ws) == "garbage string";
    assert IsToken(ws[0]) && IsToken(ws[1]);
    WordsUnwords(ws);
  }

  /** Three words lacking "on" are rejected. */
  lemma MissingOnRejected()
    ensures ParseSpec("qlora model 3090") == Success(None)
  {
    var ws := ["qlora", "model", "3090"];
    assert Unwords(ws) == "qlora model 3090";
    assert IsToken(ws[0]) && IsToken(ws[1]) && IsToken(ws[2]);
    WordsUnwords(ws);
  }
}
