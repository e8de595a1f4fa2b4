/** The two string helpers every classifier shares: enum ids and input normalisation. */
module Utils {
  import opened Strings

  /** The character `id` emits for `c`: `_` becomes `-`, `A`-`Z` are lowered, the rest is kept. */
  function IdChar(c: char): char {
    if c == '_' then '-' else LowerAscii(c)
  }

  /** `id` applied to the first `n` characters of `chars`, one character at a time. */
  function IdPrefix(chars: string, n: nat): (r: string)
    requires n <= |chars|
    ensures |r| == n
    ensures forall k :: 0 <= k < n ==> r[k] == IdChar(chars[k])
  {
    if n == 0 then [] else IdPrefix(chars, n - 1) + [IdChar(chars[n - 1])]
  }

  /** `Utils.id`: UPPER_SNAKE_CASE to lower-dash-case; undefined on the empty string. */
  function IdOf(chars: string): string
    requires |chars| > 0
  {
    IdPrefix(chars, |chars|)
  }

  /** The do-while loop of `Utils.id`. */
  method Id(chars: string) returns (r: string)
    requires |chars| > 0
    ensures r == IdOf(chars)
    ensures |r| == |chars|
    ensures forall k :: 0 <= k < |r| ==> r[k] == IdChar(chars[k])
  {
    var l := |chars|;
    var sb: string := [];
    var i := 0;
    while true
      invariant 0 <= i < l
      invariant sb == IdPrefix(chars, i)
      decreases l - i
    {
      var c := chars[i];
      if c == '_' {
        sb := sb + ['-'];
      } else if 'A' <= c <= 'Z' {
        sb := sb + [(c as int + 32) as char];
      } else {
        sb := sb + [c];
      }
      i := i + 1;
      if i >= l { break; }
    }
    r := sb;
  }

  /** The alphabet of Java enum constant names, `[A-Z0-9_]`. */
  predicate IsUpperSnake(s: string) {
    forall k :: 0 <= k < |s| ==> IsUpper(s[k]) || IsDigit(s[k]) || s[k] == '_'
  }

  /** Distinct enum constant names get distinct ids. */
  lemma IdInjective(a: string, b: string)
    requires |a| > 0 && |b| > 0 && IsUpperSnake(a) && IsUpperSnake(b)
    requires IdOf(a) == IdOf(b)
    ensures a == b
  {
    forall k | 0 <= k < |a| ensures a[k] == b[k] {
      assert IdChar(a[k]) == IdOf(a)[k] == IdOf(b)[k] == IdChar(b[k]);
    }
  }

  /** ASCII lower-casing of one character. */
  function LowerAscii(c: char): (r: char)
    ensures IsUpper(c) ==> IsLower(r)
    ensures !IsUpper(c) ==> r == c
  {
    if IsUpper(c) then (c as int + 32) as char else c
  }

  /** What `normalize` emits for one character. */
  function NormalizeChar(c: char, strip: bool): string {
    if IsDigit(c) || IsLower(c) || IsUpper(c) then [LowerAscii(c)]
    else if strip then []
    else ['-']
  }

  /** The alphabet of normalised text: `[a-z0-9-]`, or `[a-z0-9]` when stripping. */
  predicate IsNormalChar(c: char, strip: bool) {
    IsDigit(c) || IsLower(c) || (!strip && c == '-')
  }

  predicate IsNormal(s: string, strip: bool) {
    forall k :: 0 <= k < |s| ==> IsNormalChar(s[k], strip)
  }

  /** `normalize` applied to the first `n` characters of `chars`. */
  function NormalizedPrefix(chars: string, n: nat, strip: bool): (r: string)
    requires n <= |chars|
    ensures |r| <= n
    ensures !strip ==> |r| == n
  {
    if n == 0 then [] else NormalizedPrefix(chars, n - 1, strip) + NormalizeChar(chars[n - 1], strip)
  }

  lemma {:induction false} NormalizedPrefixIsNormal(chars: string, n: nat, strip: bool)
    requires n <= |chars|
    ensures IsNormal(NormalizedPrefix(chars, n, strip), strip)
  {
    if n > 0 {
      NormalizedPrefixIsNormal(chars, n - 1, strip);
    }
  }

  /**
   * `Utils.normalize(chars, strip)`: ASCII letters lowered, digits kept, any
   * other character replaced by `-` or, when `strip`, dropped.
   */
  function Normalized(chars: string, strip: bool): (r: string)
    ensures |r| <= |chars|
    ensures !strip ==> |r| == |chars|
  {
    NormalizedPrefix(chars, |chars|, strip)
  }

  /** Normalised text is over `[a-z0-9-]`, or `[a-z0-9]` when stripping. */
  lemma NormalizedAlphabet(chars: string, strip: bool)
    ensures IsNormal(Normalized(chars, strip), strip)
  {
    NormalizedPrefixIsNormal(chars, |chars|, strip);
  }

  /** The do-while loop of `Utils.normalize`. */
  method Normalize(chars: string, strip: bool) returns (r: string)
    ensures r == Normalized(chars, strip)
  {
    var l := |chars|;
    if l == 0 { return ""; }
    var sb: string := [];
    var i := 0;
    while true
      invariant 0 <= i < l
      invariant sb == NormalizedPrefix(chars, i, strip)
      decreases l - i
    {
      var c := chars[i];
      if ('0' <= c <= '9') || ('a' <= c <= 'z') {
        sb := sb + [c];
      } else if 'A' <= c <= 'Z' {
        sb := sb + [(c as int + 32) as char];
      } else if !strip {
        sb := sb + ['-'];
      }
      i := i + 1;
      if i >= l { break; }
    }
    r := sb;
  }

  lemma NormalizeEmpty(strip: bool)
    ensures Normalized("", strip) == ""
  {
  }

  /** `t` without its `-` characters. */
  function WithoutDashes(t: string): (r: string)
    ensures '-' !in r
  {
    if |t| == 0 then []
    else (if t[0] == '-' then [] else [t[0]]) + WithoutDashes(t[1..])
  }

  lemma {:induction false} WithoutDashesAppend(x: string, y: string)
    ensures WithoutDashes(x + y) == WithoutDashes(x) + WithoutDashes(y)
  {
    if |x| > 0 {
      assert (x + y)[1..] == x[1..] + y;
      WithoutDashesAppend(x[1..], y);
    } else {
      assert x + y == y;
    }
  }

  lemma {:induction false} StripPrefixIsDashPrefixWithoutDashes(s: string, n: nat)
    requires n <= |s|
    ensures NormalizedPrefix(s, n, true) == WithoutDashes(NormalizedPrefix(s, n, false))
  {
    if n > 0 {
      var a := NormalizedPrefix(s, n - 1, false);
      var x := NormalizeChar(s[n - 1], false);
      assert NormalizedPrefix(s, n - 1, true) == WithoutDashes(a) by {
        StripPrefixIsDashPrefixWithoutDashes(s, n - 1);
      }
      assert NormalizeChar(s[n - 1], true) == WithoutDashes(x) by {
        assert x == [x[0]];
        assert WithoutDashes(x) == (if x[0] == '-' then [] else [x[0]]) + WithoutDashes(x[1..]);
      }
      assert WithoutDashes(a + x) == WithoutDashes(a) + WithoutDashes(x) by {
        WithoutDashesAppend(a, x);
      }
    }
  }

  /** Stripping is replacing followed by deleting every `-`. */
  lemma StripIsDashWithoutDashes(s: string)
    ensures Normalized(s, true) == WithoutDashes(Normalized(s, false))
  {
    StripPrefixIsDashPrefixWithoutDashes(s, |s|);
  }

  lemma {:induction false} NormalizedPrefixOfPrefix(s: string, t: string, n: nat, strip: bool)
    requires n <= |s| && n <= |t|
    requires forall k :: 0 <= k < n ==> s[k] == t[k]
    ensures NormalizedPrefix(s, n, strip) == NormalizedPrefix(t, n, strip)
  {
    if n > 0 {
      NormalizedPrefixOfPrefix(s, t, n - 1, strip);
    }
  }

  /** Normalising `k` more characters of `s`, equal to those of `b`, appends `b`'s normalisation. */
  lemma {:induction false} NormalizedPrefixExtend(s: string, b: string, m: nat, k: nat, strip: bool)
    requires m + k <= |s| && k <= |b|
    requires forall i :: 0 <= i < k ==> s[m + i] == b[i]
    ensures NormalizedPrefix(s, m + k, strip) == NormalizedPrefix(s, m, strip) + NormalizedPrefix(b, k, strip)
  {
    if k > 0 {
      NormalizedPrefixExtend(s, b, m, k - 1, strip);
      assert s[m + k - 1] == b[k - 1];
      var x := NormalizedPrefix(s, m, strip);
      var y := NormalizedPrefix(b, k - 1, strip);
      var c := NormalizeChar(b[k - 1], strip);
      assert (x + y) + c == x + (y + c);
    }
  }

  /** `normalize` works character by character, so it distributes over concatenation. */
  lemma NormalizeConcat(a: string, b: string, strip: bool)
    ensures Normalized(a + b, strip) == Normalized(a, strip) + Normalized(b, strip)
  {
    var s := a + b;
    NormalizedPrefixOfPrefix(s, a, |a|, strip);
    NormalizedPrefixExtend(s, b, |a|, |b|, strip);
  }

  lemma {:induction false} NormalizedPrefixOfNormal(t: string, n: nat, strip: bool)
    requires n <= |t| && IsNormal(t, strip)
    ensures NormalizedPrefix(t, n, strip) == t[..n]
  {
    if n > 0 {
      NormalizedPrefixOfNormal(t, n - 1, strip);
      assert t[..n] == t[..n - 1] + [t[n - 1]];
    }
  }

  /** Text already over the normalised alphabet, such as an enum id, is left unchanged. */
  lemma NormalizeFixedPoint(t: string, strip: bool)
    requires IsNormal(t, strip)
    ensures Normalized(t, strip) == t
  {
    NormalizedPrefixOfNormal(t, |t|, strip);
  }

  /** `normalize` is idempotent in both modes. */
  lemma NormalizeIdempotent(s: string, strip: bool)
    ensures Normalized(Normalized(s, strip), strip) == Normalized(s, strip)
  {
    NormalizedAlphabet(s, strip);
    NormalizeFixedPoint(Normalized(s, strip), strip);
  }
}
