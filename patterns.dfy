/**
 * Anchored regular-expression matching, just enough to give a meaning to the
 * patterns the card form tests its fields with. `FullMatch(r, s)` stands for
 * `/^r$/.test(s)` in JavaScript: without the `m` flag, `^` matches only at the
 * start of the input and `$` only at its end, so a test succeeds exactly when
 * the whole string belongs to the language of `r`.
 */
module Patterns {
  import opened Wrappers

  /** The regular-expression syntax the validator uses. */
  datatype Regex =
    | Digit                                          // \d
    | Char(c: char)                                  // a literal character
    | Range(lo: char, hi: char)                      // [lo-hi]
    | Concat(left: Regex, right: Regex)              // left right
    | Alt(left: Regex, right: Regex)                 // (left|right)
    | Repeat(body: Regex, min: nat, max: Option<nat>) // body{min,max}; `None` is no upper bound

  /** `\d` without the `u` flag: the ASCII digits only. */
  predicate IsAsciiDigit(c: char) {
    '0' <= c <= '9'
  }

  predicate AllDigits(s: string) {
    forall i :: 0 <= i < |s| ==> IsAsciiDigit(s[i])
  }

  /** The numeric value of a string of ASCII digits, read as a decimal number. */
  function DecimalValue(s: string): (n: nat)
    requires AllDigits(s)
  {
    if s == [] then 0
    else 10 * DecimalValue(s[..|s| - 1]) + (s[|s| - 1] as int - '0' as int)
  }

  /** Builds `body{min,max}` after one iteration has been consumed. */
  function OneFewer(body: Regex, min: nat, max: Option<nat>): Regex {
    Repeat(body, if min > 0 then min - 1 else 0, if max.None? then None else Some(if max.value > 0 then max.value - 1 else 0))
  }

  /**
   * Whether the whole of `s` is in the language of `r` (assuming `min <= max`
   * in every repetition, as JavaScript demands of `{min,max}`). A
   * concatenation tries every split point in turn; a repetition is unrolled
   * one non-empty iteration at a time, and when the input is used up the
   * iterations still owed must each match the empty string.
   */
  function FullMatch(r: Regex, s: string): bool
    // The third component only matters when |s| and r tie with a call from SplitMatch or
    // RepeatMatch, whose third component |s| - k is then below |s| + 1.
    decreases |s|, r, |s| + 1
  {
    match r
    case Digit => |s| == 1 && IsAsciiDigit(s[0])
    case Char(c) => s == [c]
    case Range(lo, hi) => |s| == 1 && lo <= s[0] <= hi
    case Concat(left, right) => SplitMatch(left, right, s, 0)
    case Alt(left, right) => FullMatch(left, s) || FullMatch(right, s)
    case Repeat(body, min, max) =>
      if s == [] then min == 0 || FullMatch(body, [])
      else (max.None? || max.value > 0) && RepeatMatch(body, min, max, s, 1)
  }

  /** Whether `s` splits at `k` or at a later point into a `left` part followed by a `right` part. */
  function SplitMatch(left: Regex, right: Regex, s: string, k: nat): bool
    requires k <= |s|
    decreases |s|, Concat(left, right), |s| - k
  {
    (FullMatch(left, s[..k]) && FullMatch(right, s[k..]))
    || (k < |s| && SplitMatch(left, right, s, k + 1))
  }

  /**
   * Whether some first iteration of `body`, of length `k` or more, is followed
   * by a match of the remaining iterations.
   */
  function RepeatMatch(body: Regex, min: nat, max: Option<nat>, s: string, k: nat): bool
    requires 1 <= k <= |s|
    decreases |s|, Repeat(body, min, max), |s| - k
  {
    (FullMatch(body, s[..k]) && FullMatch(OneFewer(body, min, max), s[k..]))
    || (k < |s| && RepeatMatch(body, min, max, s, k + 1))
  }

  /** A pattern that matches exactly one character. */
  predicate SingleChar(r: Regex) {
    r.Digit? || r.Char? || r.Range?
  }

  /** Trying split points from `k` on succeeds exactly when some split point at or after `k` works. */
  lemma {:induction false} SplitMatchSomeSplit(left: Regex, right: Regex, s: string, k: nat)
    requires k <= |s|
    ensures SplitMatch(left, right, s, k)
        <==> exists j :: k <= j <= |s| && FullMatch(left, s[..j]) && FullMatch(right, s[j..])
    decreases |s| - k
  {
    if k < |s| {
      SplitMatchSomeSplit(left, right, s, k + 1);
    }
  }

  /** Trying first-iteration lengths from `k` on succeeds exactly when some length at or after `k` works. */
  lemma {:induction false} RepeatMatchSomeSplit(body: Regex, min: nat, max: Option<nat>, s: string, k: nat)
    requires 1 <= k <= |s|
    ensures RepeatMatch(body, min, max, s, k)
        <==> exists j :: k <= j <= |s| && FullMatch(body, s[..j]) && FullMatch(OneFewer(body, min, max), s[j..])
    decreases |s| - k
  {
    if k < |s| {
      RepeatMatchSomeSplit(body, min, max, s, k + 1);
    }
  }

  /** `\d{min,max}` accepts exactly the digit strings whose length lies in `[min, max]`. */
  lemma {:induction false} DigitRepeatLanguage(min: nat, max: Option<nat>, s: string)
    ensures FullMatch(Repeat(Digit, min, max), s)
        <==> AllDigits(s) && min <= |s| && (max.Some? ==> |s| <= max.value)
    decreases |s|
  {
    if s != [] {
      var rest := OneFewer(Digit, min, max);
      DigitRepeatLanguage(rest.min, rest.max, s[1..]);
      RepeatMatchSomeSplit(Digit, min, max, s, 1);
      if FullMatch(Repeat(Digit, min, max), s) {
        var k :| 1 <= k <= |s| && FullMatch(Digit, s[..k]) && FullMatch(rest, s[k..]);
        assert k == 1;
        assert IsAsciiDigit(s[0]);
        forall i | 0 <= i < |s| ensures IsAsciiDigit(s[i]) {
          if i > 0 { assert s[i] == s[1..][i - 1]; }
        }
      }
      if AllDigits(s) && min <= |s| && (max.Some? ==> |s| <= max.value) {
        assert FullMatch(Digit, s[..1]);
        assert AllDigits(s[1..]) by {
          forall i | 0 <= i < |s| - 1 ensures IsAsciiDigit(s[1..][i]) { assert s[1..][i] == s[i + 1]; }
        }
        assert FullMatch(rest, s[1..]);
      }
    }
  }

  /** Two single-character patterns in a row accept exactly the two-character strings they split into. */
  lemma ConcatOfSingles(a: Regex, b: Regex, s: string)
    requires SingleChar(a) && SingleChar(b)
    ensures FullMatch(Concat(a, b), s) <==> |s| == 2 && FullMatch(a, s[..1]) && FullMatch(b, s[1..])
  {
    SplitMatchSomeSplit(a, b, s, 0);
    if FullMatch(Concat(a, b), s) {
      var k :| 0 <= k <= |s| && FullMatch(a, s[..k]) && FullMatch(b, s[k..]);
      assert |s[..k]| == 1 && |s[k..]| == 1;
      assert k == 1;
    }
  }
}
