/**
 * The java.lang.String and java.util.regex primitives the classifiers use,
 * over `string`. A Dafny `char` is a Unicode scalar value, whereas a Java
 * `char` is a UTF-16 code unit: the two agree on every character of the
 * Basic Multilingual Plane, and a character outside it is one element here
 * but a surrogate pair of two `char`s in Java. Every search is written with
 * index recursion so that it can be evaluated on literals.
 */
module Strings {

  predicate IsDigit(c: char) { '0' <= c <= '9' }
  predicate IsLower(c: char) { 'a' <= c <= 'z' }
  predicate IsUpper(c: char) { 'A' <= c <= 'Z' }

  /** `\w` of java.util.regex without UNICODE_CHARACTER_CLASS: `[a-zA-Z_0-9]`. */
  predicate IsWordChar(c: char) { IsDigit(c) || IsLower(c) || IsUpper(c) || c == '_' }

  /** Characters that `.` does not match unless DOTALL is set. */
  predicate IsLineTerminator(c: char) {
    c == '\n' || c == '\r' || c == '\U{0085}' || c == '\U{2028}' || c == '\U{2029}'
  }

  /** `s[i + k..]` starts with `w[k..]`, compared one character at a time. */
  predicate SameFrom(s: string, i: nat, w: string, k: nat)
    requires i + |w| <= |s| && k <= |w|
    decreases |w| - k
  {
    k == |w| || (s[i + k] == w[k] && SameFrom(s, i, w, k + 1))
  }

  /** `w` occurs in `s` at index `i`; false for an index outside `s`. */
  predicate HasAt(s: string, i: int, w: string) {
    0 <= i && i + |w| <= |s| && SameFrom(s, i, w, 0)
  }

  lemma {:induction false} SameFromIsSlice(s: string, i: nat, w: string, k: nat)
    requires i + |w| <= |s| && k <= |w|
    ensures SameFrom(s, i, w, k) <==> s[i + k..i + |w|] == w[k..]
    decreases |w| - k
  {
    if k < |w| {
      SameFromIsSlice(s, i, w, k + 1);
      assert s[i + k..i + |w|] == [s[i + k]] + s[i + k + 1..i + |w|];
      assert w[k..] == [w[k]] + w[k + 1..];
    }
  }

  /** HasAt is exactly slice equality. */
  lemma HasAtIsSlice(s: string, i: int, w: string)
    ensures HasAt(s, i, w) <==> 0 <= i && i + |w| <= |s| && s[i..i + |w|] == w
  {
    if 0 <= i && i + |w| <= |s| {
      SameFromIsSlice(s, i, w, 0);
    }
  }

  /** `String.startsWith`. */
  predicate StartsWith(s: string, w: string) {
    HasAt(s, 0, w)
  }

  /** `String.endsWith`. */
  predicate EndsWith(s: string, w: string) {
    HasAt(s, |s| - |w|, w)
  }

  /** Some occurrence of `w` in `s` starts at index `i` or later. */
  predicate ContainsFrom(s: string, w: string, i: nat)
    decreases |s| - i
  {
    i + |w| <= |s| && (HasAt(s, i, w) || ContainsFrom(s, w, i + 1))
  }

  /** `String.contains`. */
  predicate Contains(s: string, w: string) {
    ContainsFrom(s, w, 0)
  }

  lemma {:induction false} ContainsFromIsExists(s: string, w: string, i: nat)
    ensures ContainsFrom(s, w, i) <==> exists k :: i <= k && HasAt(s, k, w)
    decreases |s| - i
  {
    if i + |w| <= |s| {
      ContainsFromIsExists(s, w, i + 1);
      if exists k :: i <= k && HasAt(s, k, w) {
        var k :| i <= k && HasAt(s, k, w);
        if k > i { assert i + 1 <= k; }
      }
    }
  }

  /** A longer text contains whatever its prefix contains. */
  lemma {:induction false} ContainsFromExtend(s: string, t: string, w: string, i: nat)
    requires ContainsFrom(s, w, i)
    ensures ContainsFrom(s + t, w, i)
    decreases |s| - i
  {
    if HasAt(s, i, w) {
      HasAtIsSlice(s, i, w);
      HasAtIsSlice(s + t, i, w);
      assert (s + t)[i..i + |w|] == s[i..i + |w|];
    } else {
      ContainsFromExtend(s, t, w, i + 1);
    }
  }

  /** The character at `i` is a `-`. */
  predicate Dash(s: string, i: int) { 0 <= i < |s| && s[i] == '-' }

  /** The character at `i` is an ASCII digit. */
  predicate DigitAt(s: string, i: int) { 0 <= i < |s| && IsDigit(s[i]) }

  /** `-?w` at `i`. */
  predicate OptDashThen(s: string, i: int, w: string) {
    HasAt(s, i, w) || (Dash(s, i) && HasAt(s, i + 1, w))
  }

  /** `\b` at position `p`: a word character on exactly one side of it. */
  predicate WordBoundary(s: string, p: int) {
    0 <= p <= |s| && (p > 0 && IsWordChar(s[p - 1])) != (p < |s| && IsWordChar(s[p]))
  }

  /** `\bw\b` matches at `i`. */
  predicate WordAt(s: string, i: int, w: string) {
    HasAt(s, i, w) && WordBoundary(s, i) && WordBoundary(s, i + |w|)
  }

  /** `\bw\b` matches at index `i` or later. */
  predicate WordFrom(s: string, w: string, i: nat)
    decreases |s| - i
  {
    i + |w| <= |s| && (WordAt(s, i, w) || WordFrom(s, w, i + 1))
  }

  /** `s.matches("(?s).*\\bw\\b.*")` for a word `w`. */
  predicate ContainsWord(s: string, w: string) {
    WordFrom(s, w, 0)
  }

  lemma {:induction false} WordFromIsExists(s: string, w: string, i: nat)
    ensures WordFrom(s, w, i) <==> exists k :: i <= k && WordAt(s, k, w)
    decreases |s| - i
  {
    if i + |w| <= |s| {
      WordFromIsExists(s, w, i + 1);
      if exists k :: i <= k && WordAt(s, k, w) {
        var k :| i <= k && WordAt(s, k, w);
        if k > i { assert i + 1 <= k; }
      }
    }
  }

  /** A match of `rule` starts at index `i` of `s` or later. */
  predicate SomewhereFrom(rule: (string, int) -> bool, s: string, i: nat)
    decreases |s| - i
  {
    i <= |s| && (rule(s, i) || SomewhereFrom(rule, s, i + 1))
  }

  /**
   * `s.matches("(?s).*(" + rule + ").*")`, and `s.matches(".*(" + rule + ").*")`
   * for text without line terminators: a match of `rule` starts somewhere.
   */
  predicate Matches(rule: (string, int) -> bool, s: string) {
    SomewhereFrom(rule, s, 0)
  }

  /** No line terminator in `s[lo..hi]`. */
  predicate NoLineTerminator(s: string, lo: nat, hi: nat)
    requires lo <= hi <= |s|
    decreases hi - lo
  {
    lo == hi || (!IsLineTerminator(s[lo]) && NoLineTerminator(s, lo + 1, hi))
  }

  /** Index of the first `c` in `s`, or -1: `String.indexOf(char)`. */
  function IndexOf(s: string, c: char): (r: int)
    ensures -1 <= r < |s|
    ensures r == -1 <==> c !in s
    ensures r >= 0 ==> s[r] == c && c !in s[..r]
  {
    IndexOfFrom(s, c, 0)
  }

  function IndexOfFrom(s: string, c: char, i: nat): (r: int)
    requires i <= |s|
    requires c !in s[..i]
    ensures -1 <= r < |s|
    ensures r == -1 <==> c !in s
    ensures r >= 0 ==> i <= r && s[r] == c && c !in s[..r]
    decreases |s| - i
  {
    if i == |s| then (assert s[..i] == s; -1)
    else if s[i] == c then i
    else (assert s[..i + 1] == s[..i] + [s[i]]; IndexOfFrom(s, c, i + 1))
  }
}
