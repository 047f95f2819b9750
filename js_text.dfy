/** The pieces of JavaScript string behaviour the application relies on: ASCII
    lower-casing, `includes`, the regular-expression class `\s`, `split(/\s+/)`, `trim()`,
    decimal digits as `parseInt` reads them and `String(n)` for a non-negative integer. */
module JsText {

  /** `\s` in an ECMAScript regular expression (WhiteSpace and LineTerminator); the same set
      that `String.prototype.trim` strips. */
  predicate IsWhitespace(c: char) {
    || c == '\t' || c == '\n' || c == '\U{0B}' || c == '\U{0C}' || c == '\r' || c == ' '
    || c == '\U{A0}' || c == '\U{1680}' || ('\U{2000}' <= c <= '\U{200A}')
    || c == '\U{2028}' || c == '\U{2029}' || c == '\U{202F}' || c == '\U{205F}'
    || c == '\U{3000}' || c == '\U{FEFF}'
  }

  function LowerChar(c: char): char {
    if 'A' <= c <= 'Z' then (c as int + 32) as char else c
  }

  /** `s.toLowerCase()`, restricted to the ASCII letters. */
  function ToLower(s: string): (r: string)
    ensures |r| == |s|
    ensures forall i :: 0 <= i < |s| ==> r[i] == LowerChar(s[i])
  {
    seq(|s|, i requires 0 <= i < |s| => LowerChar(s[i]))
  }

  lemma ToLowerIdempotent(s: string)
    ensures ToLower(ToLower(s)) == ToLower(s)
  {
  }

  /** `s.includes(p)`: `p` occurs in `s` as a contiguous block, with no regard to word
      boundaries. */
  predicate Contains(s: string, p: string) {
    exists i :: 0 <= i <= |s| && OccursAt(s, p, i)
  }

  /** `p` occurs in `s` starting at index `i`. */
  predicate OccursAt(s: string, p: string, i: nat) {
    i + |p| <= |s| && s[i..i + |p|] == p
  }

  /** The test `p => s.includes(p)` that `filter`, `find` and `some` apply to a list of
      phrases. */
  function ContainedIn(s: string): string -> bool {
    p => Contains(s, p)
  }

  /** A lower-case word found in `s` is also found, at the same place, in `s` lower-cased. */
  lemma OccursLowered(s: string, w: string, i: nat)
    requires OccursAt(s, w, i) && ToLower(w) == w
    ensures OccursAt(ToLower(s), w, i)
  {
    forall j | 0 <= j < |w| ensures ToLower(s)[i + j] == w[j] {
      assert s[i + j] == w[j];
      assert ToLower(w)[j] == LowerChar(w[j]);
    }
  }

  lemma ContainsEmpty(s: string)
    ensures Contains(s, "")
  {
    assert OccursAt(s, "", 0);
  }

  lemma ContainsAt(s: string, p: string, i: nat)
    requires OccursAt(s, p, i)
    ensures Contains(s, p)
  {
  }

  // ---------------------------------------------------------------------------
  // split(/\s+/)

  /** The index just past the run of non-whitespace characters that starts at index `i`
      of `s`. */
  function WordEnd(s: string, i: nat): (e: nat)
    requires i <= |s|
    ensures i <= e <= |s|
    decreases |s| - i
  {
    if i < |s| && !IsWhitespace(s[i]) then WordEnd(s, i + 1) else i
  }

  /** The run that ends at `WordEnd` is free of whitespace, and is maximal. */
  lemma {:induction false} WordEndRun(s: string, i: nat)
    requires i <= |s|
    ensures forall k :: i <= k < WordEnd(s, i) ==> !IsWhitespace(s[k])
    ensures WordEnd(s, i) < |s| ==> IsWhitespace(s[WordEnd(s, i)])
    decreases |s| - i
  {
    if i < |s| && !IsWhitespace(s[i]) {
      WordEndRun(s, i + 1);
    }
  }

  /** The index just past the run of whitespace that starts at index `i` of `s`. */
  function SpacesEnd(s: string, i: nat): (e: nat)
    requires i <= |s|
    ensures i <= e <= |s|
    decreases |s| - i
  {
    if i < |s| && IsWhitespace(s[i]) then SpacesEnd(s, i + 1) else i
  }

  /** The run that ends at `SpacesEnd` is whitespace, and is maximal. */
  lemma {:induction false} SpacesEndRun(s: string, i: nat)
    requires i <= |s|
    ensures forall k :: i <= k < SpacesEnd(s, i) ==> IsWhitespace(s[k])
    ensures SpacesEnd(s, i) < |s| ==> !IsWhitespace(s[SpacesEnd(s, i)])
    decreases |s| - i
  {
    if i < |s| && IsWhitespace(s[i]) {
      SpacesEndRun(s, i + 1);
    }
  }

  /** `s.split(/\s+/)` applied to the part of `s` from index `i` on: the pieces between
      maximal runs of whitespace. A leading or trailing run yields an empty piece. */
  function SplitFrom(s: string, i: nat): (words: seq<string>)
    requires i <= |s|
    ensures |words| >= 1
    decreases |s| - i
  {
    var e := WordEnd(s, i);
    if e == |s| then [s[i..]]
    else
      WordEndRun(s, i);
      [s[i..e]] + SplitFrom(s, SpacesEnd(s, e))
  }

  /** `s.split(/\s+/)`; the empty string yields `[""]`. */
  function SplitOnWhitespace(s: string): (words: seq<string>)
    ensures |words| >= 1
  {
    SplitFrom(s, 0)
  }

  /** No piece of the split holds whitespace. */
  lemma {:induction false} SplitPiecesHaveNoSpace(s: string, i: nat)
    requires i <= |s|
    ensures forall k, j :: 0 <= k < |SplitFrom(s, i)| && 0 <= j < |SplitFrom(s, i)[k]|
                           ==> !IsWhitespace(SplitFrom(s, i)[k][j])
    decreases |s| - i
  {
    var e := WordEnd(s, i);
    WordEndRun(s, i);
    var first := s[i..e];
    assert forall j :: 0 <= j < |first| ==> first[j] == s[i + j];
    if e < |s| {
      SplitPiecesHaveNoSpace(s, SpacesEnd(s, e));
    }
  }

  /** Number of maximal runs of whitespace in `s` from index `i` on, each counted at its
      last character. */
  function RunsFrom(s: string, i: nat): nat
    requires i <= |s|
    decreases |s| - i
  {
    if i == |s| then 0
    else (if IsWhitespace(s[i]) && (i + 1 == |s| || !IsWhitespace(s[i + 1])) then 1 else 0) + RunsFrom(s, i + 1)
  }

  /** Number of maximal runs of whitespace in `s`. */
  function WhitespaceRuns(s: string): nat {
    RunsFrom(s, 0)
  }

  /** The number of words `split(/\s+/)` produces is one more than the number of whitespace
      runs; in particular it is at least 1, even for the empty string. */
  lemma SplitCountsRuns(s: string)
    ensures |SplitOnWhitespace(s)| == 1 + WhitespaceRuns(s)
  {
    SplitFromCountsRuns(s, 0);
  }

  lemma {:induction false} SplitFromCountsRuns(s: string, i: nat)
    requires i <= |s|
    ensures |SplitFrom(s, i)| == 1 + RunsFrom(s, i)
    decreases |s| - i
  {
    var e := WordEnd(s, i);
    WordEndRun(s, i);
    RunsSkipWord(s, i, e);
    if e < |s| {
      var f := SpacesEnd(s, e);
      SpacesEndRun(s, e);
      RunsSkipSpace(s, e, f);
      SplitFromCountsRuns(s, f);
    }
  }

  /** A stretch free of whitespace holds no run. */
  lemma {:induction false} RunsSkipWord(s: string, i: nat, e: nat)
    requires i <= e <= |s|
    requires forall k :: i <= k < e ==> !IsWhitespace(s[k])
    ensures RunsFrom(s, i) == RunsFrom(s, e)
    decreases e - i
  {
    if i < e {
      RunsSkipWord(s, i + 1, e);
    }
  }

  /** A maximal run of whitespace counts once. */
  lemma {:induction false} RunsSkipSpace(s: string, i: nat, e: nat)
    requires i < e <= |s|
    requires forall k :: i <= k < e ==> IsWhitespace(s[k])
    requires e == |s| || !IsWhitespace(s[e])
    ensures RunsFrom(s, i) == 1 + RunsFrom(s, e)
    decreases e - i
  {
    if i + 1 < e {
      RunsSkipSpace(s, i + 1, e);
    }
  }

  // ---------------------------------------------------------------------------
  // trim()

  /** The index just past the last non-whitespace character of `s[..e]`, or 0. */
  function TrimEnd(s: string, e: nat): (t: nat)
    requires e <= |s|
    ensures t <= e
    decreases e
  {
    if e > 0 && IsWhitespace(s[e - 1]) then TrimEnd(s, e - 1) else e
  }

  lemma {:induction false} TrimEndRun(s: string, e: nat)
    requires e <= |s|
    ensures forall k :: TrimEnd(s, e) <= k < e ==> IsWhitespace(s[k])
    ensures TrimEnd(s, e) > 0 ==> !IsWhitespace(s[TrimEnd(s, e) - 1])
    decreases e
  {
    if e > 0 && IsWhitespace(s[e - 1]) {
      TrimEndRun(s, e - 1);
    }
  }

  /** `s.trim()`: `s` without its leading and trailing whitespace. */
  function Trim(s: string): (r: string)
    ensures exists a :: 0 <= a && OccursAt(s, r, a)
                        && (forall i :: 0 <= i < a ==> IsWhitespace(s[i]))
                        && (forall i :: a + |r| <= i < |s| ==> IsWhitespace(s[i]))
    ensures r != [] ==> !IsWhitespace(r[0]) && !IsWhitespace(r[|r| - 1])
    ensures r == [] <==> forall i :: 0 <= i < |s| ==> IsWhitespace(s[i])
  {
    var a := SpacesEnd(s, 0);
    SpacesEndRun(s, 0);
    var b := if a == |s| then a else TrimEnd(s, |s|);
    TrimEndRun(s, |s|);
    var r := s[a..b];
    assert OccursAt(s, r, a);
    r
  }

  // ---------------------------------------------------------------------------
  // Decimal digits

  predicate IsDigit(c: char) {
    '0' <= c <= '9'
  }

  predicate AllDigits(s: string) {
    forall i :: 0 <= i < |s| ==> IsDigit(s[i])
  }

  predicate NoDigits(s: string) {
    forall i :: 0 <= i < |s| ==> !IsDigit(s[i])
  }

  function DigitValue(c: char): nat
    requires IsDigit(c)
  {
    c as int - '0' as int
  }

  function DigitChar(d: nat): (c: char)
    requires d < 10
    ensures IsDigit(c) && DigitValue(c) == d
  {
    ('0' as int + d) as char
  }

  /** `parseInt` of a run of decimal digits (unbounded: no loss of precision). */
  function DecimalValue(ds: string): nat
    requires AllDigits(ds)
  {
    if ds == [] then 0 else 10 * DecimalValue(ds[..|ds| - 1]) + DigitValue(ds[|ds| - 1])
  }

  /** The index just past the run of digits that starts at index `i` of `s`. */
  function DigitsEnd(s: string, i: nat): (e: nat)
    requires i <= |s|
    ensures i <= e <= |s|
    decreases |s| - i
  {
    if i < |s| && IsDigit(s[i]) then DigitsEnd(s, i + 1) else i
  }

  /** The run that ends at `DigitsEnd` is made of digits, and is maximal. */
  lemma {:induction false} DigitsEndRun(s: string, i: nat)
    requires i <= |s|
    ensures forall k :: i <= k < DigitsEnd(s, i) ==> IsDigit(s[k])
    ensures DigitsEnd(s, i) < |s| ==> !IsDigit(s[DigitsEnd(s, i)])
    decreases |s| - i
  {
    if i < |s| && IsDigit(s[i]) {
      DigitsEndRun(s, i + 1);
    }
  }

  /** The run of digits at `i`, as a string of digits. */
  lemma {:induction false} DigitsEndAll(s: string, i: nat)
    requires i <= |s|
    ensures AllDigits(s[i..DigitsEnd(s, i)])
  {
    DigitsEndRun(s, i);
    var e := DigitsEnd(s, i);
    forall j | 0 <= j < e - i ensures IsDigit(s[i..e][j]) {
      assert s[i..e][j] == s[i + j];
    }
  }

  /** The run of digits at `i` is the one that ends at the first non-digit. */
  lemma {:induction false} DigitsEndOf(s: string, i: nat, n: nat)
    requires i + n <= |s|
    requires forall k :: i <= k < i + n ==> IsDigit(s[k])
    requires i + n == |s| || !IsDigit(s[i + n])
    ensures DigitsEnd(s, i) == i + n
    decreases n
  {
    if n > 0 {
      DigitsEndOf(s, i + 1, n - 1);
    }
  }

  /** A run of digits ending before a non-digit, read as a number. */
  lemma DigitPart(s: string, p0: nat, ds: string)
    requires |ds| >= 1 && AllDigits(ds)
    requires p0 + |ds| < |s| && s[p0..p0 + |ds|] == ds && !IsDigit(s[p0 + |ds|])
    ensures IsDigit(s[p0]) && DigitsEnd(s, p0) == p0 + |ds| && NumberAt(s, p0) == DecimalValue(ds)
  {
    forall i | p0 <= i < p0 + |ds| ensures IsDigit(s[i]) {
      assert s[i] == ds[i - p0];
    }
    DigitsEndOf(s, p0, |ds|);
  }

  /** The run of whitespace at `i` is the one that ends at the first non-whitespace
      character. */
  lemma {:induction false} SpacesEndOf(s: string, i: nat, n: nat)
    requires i + n <= |s|
    requires forall k :: i <= k < i + n ==> IsWhitespace(s[k])
    requires i + n == |s| || !IsWhitespace(s[i + n])
    ensures SpacesEnd(s, i) == i + n
    decreases n
  {
    if n > 0 {
      SpacesEndOf(s, i + 1, n - 1);
    }
  }

  /** Length of the maximal run of digits that starts at index `i` of `s`. */
  function DigitSpan(s: string, i: nat): (n: nat)
    requires i <= |s|
    ensures i + n <= |s|
    ensures forall k :: i <= k < i + n ==> IsDigit(s[k])
    ensures i + n < |s| ==> !IsDigit(s[i + n])
  {
    DigitsEndRun(s, i);
    DigitsEnd(s, i) - i
  }

  /** The run of digits at `i` is the one that ends at the first non-digit. */
  lemma DigitSpanOf(s: string, i: nat, n: nat)
    requires i + n <= |s|
    requires forall k :: i <= k < i + n ==> IsDigit(s[k])
    requires i + n == |s| || !IsDigit(s[i + n])
    ensures DigitSpan(s, i) == n
  {
    DigitsEndOf(s, i, n);
  }

  /** The decimal number spelled by the run of digits at index `p` of `s`. */
  function NumberAt(s: string, p: nat): nat
    requires p <= |s|
  {
    DigitsEndAll(s, p);
    DecimalValue(s[p..DigitsEnd(s, p)])
  }

  /** `String(n)` for a non-negative integer: its decimal digits without leading zeros,
      which `parseInt` reads back as `n`. */
  function NatToString(n: nat): (r: string)
    ensures |r| >= 1 && AllDigits(r)
    ensures |r| > 1 ==> r[0] != '0'
    ensures DecimalValue(r) == n
    decreases n
  {
    if n < 10 then [DigitChar(n)]
    else
      var prefix := NatToString(n / 10);
      var r := prefix + [DigitChar(n % 10)];
      assert r[..|r| - 1] == prefix;
      r
  }
}
