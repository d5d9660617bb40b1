/** Text primitives shared by the parsers: Python's notion of whitespace, `str.lower()`,
    substring tests, whitespace tokenisation and decimal digit strings. */
module Text {
  import opened Wrappers

  /** Python's `str.isspace()`: the characters that `str.strip()` removes and that
      the regular-expression class `\s` matches in a `str` pattern. */
  predicate IsSpace(c: char) {
    || ('\t' <= c <= '\r')
    || ('\U{1C}' <= c <= '\U{1F}')
    || c == ' ' || c == '\U{85}' || c == '\U{A0}' || c == '\U{1680}'
    || ('\U{2000}' <= c <= '\U{200A}')
    || c == '\U{2028}' || c == '\U{2029}' || c == '\U{202F}' || c == '\U{205F}' || c == '\U{3000}'
  }

  predicate IsDigit(c: char) { '0' <= c <= '9' }

  predicate NoSpace(s: string) { forall i :: 0 <= i < |s| ==> !IsSpace(s[i]) }

  predicate AllSpace(s: string) { forall i :: 0 <= i < |s| ==> IsSpace(s[i]) }

  predicate AllDigits(s: string) { forall i :: 0 <= i < |s| ==> IsDigit(s[i]) }

  /** A non-empty run of decimal digits: what `\d+` matches. */
  predicate IsNumeral(s: string) { s != [] && AllDigits(s) }

  // ---------------------------------------------------------------- lower-casing

  /** Characters that `str.lower()` leaves alone, as far as this model is concerned. */
  predicate Unlowered(c: char) {
    !('A' <= c <= 'Z') && c != '\U{212A}' && c != '\U{130}'
  }

  /** Python's `str.lower()` on one character, for every character whose lower-case form
      is or contains an ASCII letter: the ASCII capitals, the Kelvin sign (which lowers to
      'k') and the dotted capital I (which lowers to 'i' and a combining dot). Every other
      character is kept as it is. */
  function LowerChar(c: char): (r: string)
    ensures r != [] && forall i :: 0 <= i < |r| ==> Unlowered(r[i])
    ensures 'A' <= c <= 'Z' ==> r == [(c as int + 32) as char] && 'a' <= r[0] <= 'z'
    ensures c == '\U{212A}' ==> r == "k"
    ensures c == '\U{130}' ==> r == "i\U{307}"
    ensures Unlowered(c) ==> r == [c]
  {
    if 'A' <= c <= 'Z' then [(c as int + 32) as char]
    else if c == '\U{212A}' then "k"
    else if c == '\U{130}' then "i\U{307}"
    else [c]
  }

  /** Python's `str.lower()`: each character is lowered on its own, in place, so the
      result has no character left to lower; only the dotted capital I grows. */
  function Lower(s: string): (r: string)
    ensures |r| >= |s|
    ensures forall i :: 0 <= i < |r| ==> Unlowered(r[i])
  {
    if s == [] then [] else LowerChar(s[0]) + Lower(s[1..])
  }

  /** Without a dotted capital I, position `i` of the lowered text is the lowered
      character at position `i`. */
  lemma {:induction false} LowerAt(s: string)
    requires forall i :: 0 <= i < |s| ==> s[i] != '\U{130}'
    ensures |Lower(s)| == |s|
    ensures forall i :: 0 <= i < |s| ==> [Lower(s)[i]] == LowerChar(s[i])
  {
    if s != [] {
      LowerAt(s[1..]);
      assert Lower(s) == LowerChar(s[0]) + Lower(s[1..]);
      forall i | 0 <= i < |s|
        ensures [Lower(s)[i]] == LowerChar(s[i])
      {
        if i > 0 {
          assert s[1..][i - 1] == s[i];
        }
      }
    }
  }

  /** Lower-casing works character by character: it distributes over concatenation. */
  lemma {:induction false} LowerConcat(a: string, b: string)
    ensures Lower(a + b) == Lower(a) + Lower(b)
  {
    if a == [] {
      assert a + b == b;
    } else {
      assert (a + b)[0] == a[0];
      assert (a + b)[1..] == a[1..] + b;
      LowerConcat(a[1..], b);
    }
  }

  /** Text with nothing to lower is left as it is. */
  lemma {:induction false} LowerKeeps(s: string)
    requires forall i :: 0 <= i < |s| ==> Unlowered(s[i])
    ensures Lower(s) == s
  {
    if s != [] {
      LowerKeeps(s[1..]);
    }
  }

  /** `s.lower().lower() == s.lower()`. */
  lemma LowerIdempotent(s: string)
    ensures Lower(Lower(s)) == Lower(s)
  {
    LowerKeeps(Lower(s));
  }

  // ---------------------------------------------------------------- substrings

  predicate StartsWith(s: string, p: string) {
    |p| <= |s| && s[..|p|] == p
  }

  /** `p + u` starts with `p`, and `u` is what is left once `p` is dropped. */
  lemma PrefixDropped(p: string, u: string)
    ensures StartsWith(p + u, p) && (p + u)[|p|..] == u
  {
    assert (p + u)[..|p|] == p;
  }

  /** A string that differs from `p` at some position of `p` does not start with `p`. */
  lemma DiffersFrom(s: string, p: string, i: nat)
    requires i < |p| && i < |s| && s[i] != p[i]
    ensures !StartsWith(s, p)
  {
    if |p| <= |s| {
      assert s[..|p|][i] == s[i];
    }
  }

  /** Python's `p in s` for strings. */
  predicate Contains(s: string, p: string)
    decreases |s|
  {
    StartsWith(s, p) || (s != [] && Contains(s[1..], p))
  }

  /** A string contains whatever stands in it. */
  lemma {:induction false} ContainsInfix(a: string, p: string, b: string)
    ensures Contains(a + p + b, p)
  {
    if a == [] {
      assert a + p + b == p + b;
      assert (p + b)[..|p|] == p;
    } else {
      assert (a + p + b)[1..] == a[1..] + p + b;
      ContainsInfix(a[1..], p, b);
    }
  }

  // ---------------------------------------------------------------- tokens

  /** What remains after a greedy `\s*` at the front of `s`. */
  function SkipSpaces(s: string): (r: string)
    ensures |r| <= |s| && r == s[|s| - |r|..]
    ensures r == [] || !IsSpace(r[0])
  {
    if s != [] && IsSpace(s[0]) then SkipSpaces(s[1..]) else s
  }

  /** What `SkipSpaces` drops is a run of whitespace. */
  lemma {:induction false} SkipSpacesSplit(s: string)
    ensures AllSpace(s[..|s| - |SkipSpaces(s)|])
    ensures s == s[..|s| - |SkipSpaces(s)|] + SkipSpaces(s)
  {
    if s != [] && IsSpace(s[0]) {
      SkipSpacesSplit(s[1..]);
      var n := |s| - |SkipSpaces(s)|;
      forall i | 0 <= i < n ensures IsSpace(s[..n][i]) {
        if i > 0 {
          assert s[..n][i] == s[1..][..n - 1][i - 1];
        }
      }
    }
    assert s == s[..|s| - |SkipSpaces(s)|] + s[|s| - |SkipSpaces(s)|..];
  }

  /** `\s*` consumes exactly the leading run of whitespace. */
  lemma {:induction false} SkipSpacesOver(sp: string, rest: string)
    requires AllSpace(sp)
    requires rest == [] || !IsSpace(rest[0])
    ensures SkipSpaces(sp + rest) == rest
  {
    if sp == [] {
      assert sp + rest == rest;
    } else {
      assert (sp + rest)[1..] == sp[1..] + rest;
      SkipSpacesOver(sp[1..], rest);
    }
  }

  predicate IsToken(w: string) { w != [] && NoSpace(w) }

  /** The maximal whitespace-free runs of `s`, in order: what `str.split()` returns. */
  function Words(s: string): (ws: seq<string>)
    ensures forall i :: 0 <= i < |ws| ==> IsToken(ws[i])
    ensures s != [] && !IsSpace(s[0]) ==> ws != []
    decreases |s|
  {
    if s == [] then []
    else
      var rest := Words(s[1..]);
      if IsSpace(s[0]) then rest
      else if |s| == 1 || IsSpace(s[1]) then [[s[0]]] + rest
      else [[s[0]] + rest[0]] + rest[1..]
  }

  /** Tokens joined by single spaces. */
  function Unwords(ws: seq<string>): string {
    if ws == [] then ""
    else if |ws| == 1 then ws[0]
    else ws[0] + " " + Unwords(ws[1..])
  }

  lemma {:induction false} WordsAllSpace(s: string)
    requires AllSpace(s)
    ensures Words(s) == []
  {
    if s != [] {
      WordsAllSpace(s[1..]);
    }
  }

  /** Leading whitespace does not change the tokens. */
  lemma {:induction false} WordsLeadingSpace(sp: string, s: string)
    requires AllSpace(sp)
    ensures Words(sp + s) == Words(s)
  {
    if sp != [] {
      assert (sp + s)[1..] == sp[1..] + s;
      WordsLeadingSpace(sp[1..], s);
    } else {
      assert sp + s == s;
    }
  }

  /** Trailing whitespace does not change the tokens. */
  lemma {:induction false} WordsTrailingSpace(s: string, sp: string)
    requires AllSpace(sp)
    ensures Words(s + sp) == Words(s)
  {
    if s == [] {
      assert s + sp == sp;
      WordsAllSpace(sp);
    } else {
      assert (s + sp)[1..] == s[1..] + sp;
      WordsTrailingSpace(s[1..], sp);
      if |s| == 1 {
        assert |s + sp| == 1 || IsSpace((s + sp)[1]);
      } else {
        assert (s + sp)[1] == s[1];
      }
    }
  }

  /** A token followed by whitespace (or by nothing) is the first word. */
  lemma {:induction false} WordsOfToken(w: string, rest: string)
    requires IsToken(w)
    requires rest == [] || IsSpace(rest[0])
    ensures Words(w + rest) == [w] + Words(rest)
  {
    var s := w + rest;
    assert s[0] == w[0] && s[1..] == w[1..] + rest;
    if |w| == 1 {
      assert s[1..] == rest;
      assert |s| == 1 || IsSpace(s[1]);
      assert [s[0]] == w;
    } else {
      WordsOfToken(w[1..], rest);
      assert s[1] == w[1];
      assert [w[0]] + w[1..] == w;
    }
  }

  /** Tokenising the single-space rendering of whitespace-free tokens gives them back. */
  lemma {:induction false} WordsUnwords(ws: seq<string>)
    requires forall i :: 0 <= i < |ws| ==> IsToken(ws[i])
    ensures Words(Unwords(ws)) == ws
  {
    if ws == [] {
    } else if |ws| == 1 {
      assert ws[0] + "" == ws[0];
      WordsOfToken(ws[0], "");
    } else {
      var rest := " " + Unwords(ws[1..]);
      WordsUnwords(ws[1..]);
      WordsLeadingSpace(" ", Unwords(ws[1..]));
      WordsOfToken(ws[0], rest);
      assert Unwords(ws) == ws[0] + rest;
      assert ws == [ws[0]] + ws[1..];
    }
  }

  // ---------------------------------------------------------------- decimal numbers

  function DigitValue(c: char): nat
    requires IsDigit(c)
  {
    c as int - '0' as int
  }

  function DigitChar(d: nat): (c: char)
    requires d < 10
    ensures IsDigit(c) && DigitValue(c) == d
  {
    ('0' as int + d) as char
  }

  /** Python's `int(s)` for a string of ASCII digits (leading zeros allowed). */
  function DigitsValue(s: string): nat
    requires AllDigits(s)
  {
    if s == [] then 0 else 10 * DigitsValue(s[..|s| - 1]) + DigitValue(s[|s| - 1])
  }

  /** Python's `str(n)` for a natural number. */
  function Decimal(n: nat): (s: string)
    ensures IsNumeral(s)
    ensures n > 0 ==> s[0] != '0'
  {
    if n < 10 then [DigitChar(n)] else Decimal(n / 10) + [DigitChar(n % 10)]
  }

  /** `int(str(n)) == n`. */
  lemma {:induction false} DecimalRoundTrip(n: nat)
    ensures DigitsValue(Decimal(n)) == n
  {
    if n >= 10 {
      var s := Decimal(n);
      assert s[..|s| - 1] == Decimal(n / 10);
      DecimalRoundTrip(n / 10);
    }
  }

  /** Python's `str(i)` for any integer. */
  function IntToString(i: int): (s: string)
    ensures i >= 0 ==> s == Decimal(i)
    ensures i < 0 ==> s == "-" + Decimal(-i)
  {
    if i < 0 then "-" + Decimal(-i) else Decimal(i)
  }

  /** The longest prefix of `s` made of digits: what a greedy `\d*` matches at its front. */
  function DigitPrefix(s: string): (d: string)
    ensures |d| <= |s| && d == s[..|d|] && AllDigits(d)
    ensures |d| < |s| ==> !IsDigit(s[|d|])
  {
    if s == [] || !IsDigit(s[0]) then [] else [s[0]] + DigitPrefix(s[1..])
  }

  lemma {:induction false} DigitPrefixOf(d: string, rest: string)
    requires AllDigits(d)
    requires rest == [] || !IsDigit(rest[0])
    ensures DigitPrefix(d + rest) == d
  {
    if d != [] {
      assert (d + rest)[1..] == d[1..] + rest;
      DigitPrefixOf(d[1..], rest);
    }
  }

  /** CPython's default bound on the number of digits `int()` converts from a string
      (`sys.get_int_max_str_digits()`); a longer digit string raises `ValueError`. */
  const IntMaxStrDigits: nat := 4300

  datatype IntError = TooManyDigits(digits: nat)

  /** Python's `int(s)` for a string of ASCII digits. */
  function ParseInt(s: string): (r: Result<nat, IntError>)
    requires AllDigits(s)
    ensures r.Failure? <==> |s| > IntMaxStrDigits
    ensures r.Failure? ==> r.error == TooManyDigits(|s|)
    ensures r.Success? ==> r.value == DigitsValue(s)
  {
    if |s| > IntMaxStrDigits then Failure(TooManyDigits(|s|)) else Success(DigitsValue(s))
  }

  /** A number written in decimal is within the conversion bound as long as it has at
      most `IntMaxStrDigits` digits, and converting it gives the number back. */
  lemma ParseIntDecimal(n: nat)
    requires |Decimal(n)| <= IntMaxStrDigits
    ensures ParseInt(Decimal(n)) == Success(n)
  {
    DecimalRoundTrip(n);
  }
}
