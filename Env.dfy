/**
 * `com.fleshgrinder.platform.Env`: the C runtime environment enum, the
 * substring cascade of `parse`, the table of operating systems whose
 * environment is fixed, and the first-line reader of `ldd --version`.
 */
module Env {
  import opened Wrappers
  import opened Strings
  import opened Utils
  import opened Sequences
  import opened Host
  import Os

  /** The enum constants, in declaration order. */
  datatype Env =
    | Unknown | Bionic | BsdLibc | DietLibc | Glibc | Klibc | Msvc | Musl | Newlib | UcLibc

  /** `Env.values()`. */
  const AllEnvs: seq<Env> := [Unknown, Bionic, BsdLibc, DietLibc, Glibc, Klibc, Msvc, Musl, Newlib, UcLibc]

  /** `name()`: the Java constant name. */
  function Name(e: Env): string {
    match e
    case Unknown => "UNKNOWN"
    case Bionic => "BIONIC"
    case BsdLibc => "BSDLIBC"
    case DietLibc => "DIETLIBC"
    case Glibc => "GLIBC"
    case Klibc => "KLIBC"
    case Msvc => "MSVC"
    case Musl => "MUSL"
    case Newlib => "NEWLIB"
    case UcLibc => "UCLIBC"
  }

  /** The `id` field, which `toString()` returns: `Utils.id(name())`. */
  function Id(e: Env): string {
    IdOf(Name(e))
  }

  /** The position of `e` in `values()`. */
  function Ordinal(e: Env): (r: nat)
    ensures r < |AllEnvs| && AllEnvs[r] == e
  {
    match e
    case Unknown => 0
    case Bionic => 1
    case BsdLibc => 2
    case DietLibc => 3
    case Glibc => 4
    case Klibc => 5
    case Msvc => 6
    case Musl => 7
    case Newlib => 8
    case UcLibc => 9
  }

  lemma OrdinalOfIndex(k: int)
    requires 0 <= k < |AllEnvs|
    ensures Ordinal(AllEnvs[k]) == k
  {
    if k < 5 {
      assert k == 0 || k == 1 || k == 2 || k == 3 || k == 4;
    } else {
      assert k == 5 || k == 6 || k == 7 || k == 8 || k == 9;
    }
  }

  // ---------------------------------------------------------------------
  // parse
  // ---------------------------------------------------------------------

  /** The test of the loop in `parse`: a known environment whose id occurs in `it`. */
  predicate OwnIdIn(it: string, e: Env) {
    e != Unknown && Contains(it, Id(e))
  }

  /**
   * `.*g(cc|nu).*`. The text is dash-normalised, so it holds no line
   * terminator and `matches` reduces to a substring test.
   */
  predicate GnuToken(it: string) {
    Contains(it, "gcc") || Contains(it, "gnu")
  }

  /** `.*(apple|bsd|darwin|mac|osx|ios|dragonfly).*` */
  predicate BsdToken(it: string) {
    Contains(it, "apple") || Contains(it, "bsd") || Contains(it, "darwin") || Contains(it, "mac")
    || Contains(it, "osx") || Contains(it, "ios") || Contains(it, "dragonfly")
  }

  /** `.*(crtdll|ucrt|vcruntime|vs|win).*` */
  predicate MsvcToken(it: string) {
    Contains(it, "crtdll") || Contains(it, "ucrt") || Contains(it, "vcruntime")
    || Contains(it, "vs") || Contains(it, "win")
  }

  /** The rules `parse` tries once no environment's own id occurs in the text. */
  function Classify(it: string): Env {
    if GnuToken(it) then Glibc
    else if BsdToken(it) then BsdLibc
    else if MsvcToken(it) then Msvc
    else if Contains(it, "android") then Bionic
    else Unknown
  }

  /**
   * `Env.parse(value)`: Unknown for empty text; else the first known
   * environment, in declaration order, whose id occurs in the normalised
   * text; else the first token rule that matches.
   */
  function Parse(value: string): (r: Env)
    ensures |value| == 0 ==> r == Unknown
    ensures r == Unknown ==>
      forall k :: 0 <= k < |AllEnvs| ==> !OwnIdIn(Normalized(value, false), AllEnvs[k])
  {
    if |value| == 0 then Unknown
    else
      var it := Normalized(value, false);
      var own := FindFirst(AllEnvs, (e: Env) => OwnIdIn(it, e));
      if own.Some? then own.value else Classify(it)
  }

  /**
   * When some known environment's id occurs in the normalised text, `parse`
   * answers an environment whose id occurs there, declared no later than
   * that one, and no environment declared before the answer has its id there.
   */
  lemma OwnIdWins(value: string, e: Env)
    requires |value| > 0 && OwnIdIn(Normalized(value, false), e)
    ensures OwnIdIn(Normalized(value, false), Parse(value))
    ensures Ordinal(Parse(value)) <= Ordinal(e)
    ensures forall k :: 0 <= k < Ordinal(Parse(value)) ==> !OwnIdIn(Normalized(value, false), AllEnvs[k])
  {
    var it := Normalized(value, false);
    var k := FindFirstAtOrBefore(AllEnvs, (e: Env) => OwnIdIn(it, e), Ordinal(e));
    OrdinalOfIndex(k);
  }

  /** When exactly one known environment has its id in the normalised text, it is the answer. */
  lemma OnlyOwnId(value: string, e: Env)
    requires |value| > 0 && OwnIdIn(Normalized(value, false), e)
    requires forall other: Env :: OwnIdIn(Normalized(value, false), other) ==> other == e
    ensures Parse(value) == e
  {
    var it := Normalized(value, false);
    assert AllEnvs[Ordinal(e)] == e;
    FindFirstUnique(AllEnvs, (x: Env) => OwnIdIn(it, x), e);
  }

  /** Without any own id in the text, the token rules alone decide. */
  lemma NoOwnId(value: string)
    requires |value| > 0
    requires forall e: Env :: !OwnIdIn(Normalized(value, false), e)
    ensures Parse(value) == Classify(Normalized(value, false))
  {
  }

  // ---------------------------------------------------------------------
  // ldd
  // ---------------------------------------------------------------------

  /** `(char) c` for `c` in `A`-`Z` shifted by 32, every other byte as it is. */
  function LowerByte(b: byte): char {
    LowerAscii(b as int as char)
  }

  /** The text the read loop of `ldd` builds from the bytes it reads. */
  function FirstLine(output: seq<byte>): string {
    if |output| == 0 || output[0] == LineFeed then [] else [LowerByte(output[0])] + FirstLine(output[1..])
  }

  /**
   * The first line: the bytes before the first line feed, or all of them
   * when there is none, each as a character with `A`-`Z` lowered.
   */
  lemma {:induction false} FirstLineIsPrefix(output: seq<byte>)
    ensures |FirstLine(output)| <= |output|
    ensures |FirstLine(output)| == |output| || output[|FirstLine(output)|] == LineFeed
    ensures forall k :: 0 <= k < |FirstLine(output)| ==>
      output[k] != LineFeed && FirstLine(output)[k] == LowerByte(output[k])
    decreases |output|
  {
    if |output| > 0 && output[0] != LineFeed {
      FirstLineIsPrefix(output[1..]);
      forall k | 0 < k < |FirstLine(output)|
        ensures output[k] != LineFeed && FirstLine(output)[k] == LowerByte(output[k])
      {
        assert output[k] == output[1..][k - 1];
      }
    }
  }

  /** The length of the first line is the index of the first line feed, or the whole output. */
  lemma FirstLineLength(output: seq<byte>, n: int)
    requires 0 <= n <= |output| && (n == |output| || output[n] == LineFeed)
    requires forall k :: 0 <= k < n ==> output[k] != LineFeed
    ensures |FirstLine(output)| == n
  {
    FirstLineIsPrefix(output);
  }

  /** Text whose characters all fit in one byte each. */
  predicate IsByteText(s: string) {
    forall k :: 0 <= k < |s| ==> s[k] as int < 256
  }

  /** The bytes of a text, one per character (the low byte of each, which is all of it in byte text). */
  function Bytes(s: string): (r: seq<byte>)
    ensures |r| == |s|
    ensures forall k :: 0 <= k < |s| && s[k] as int < 256 ==> r[k] as int == s[k] as int
  {
    seq(|s|, k requires 0 <= k < |s| => (s[k] as int % 256) as byte)
  }

  /** `s` with `A`-`Z` lowered and every other character as it is. */
  function Lowered(s: string): (r: string)
    ensures |r| == |s| && forall k :: 0 <= k < |s| ==> r[k] == LowerAscii(s[k])
  {
    seq(|s|, k requires 0 <= k < |s| => LowerAscii(s[k]))
  }

  /**
   * Output whose text starts with `line` followed by a line feed or the
   * end reads as `line` lowered.
   */
  lemma FirstLineOfText(text: string, line: string)
    requires IsByteText(text)
    requires |line| <= |text| && text[..|line|] == line && '\n' !in line
    requires |line| == |text| || text[|line|] == '\n'
    ensures FirstLine(Bytes(text)) == Lowered(line)
  {
    var output := Bytes(text);
    forall k | 0 <= k < |line|
      ensures output[k] != LineFeed
    {
      assert text[k] == line[k];
    }
    FirstLineLength(output, |line|);
    FirstLineIsPrefix(output);
    forall k | 0 <= k < |line|
      ensures FirstLine(output)[k] == Lowered(line)[k]
    {
      assert text[k] == line[k];
      assert output[k] as int as char == line[k];
    }
  }

  /**
   * On a system without a fixed environment, `current` is `parse` of the
   * probe's first line as printed, whatever its case.
   */
  lemma CurrentOfText(os: Os.Os, text: string, line: string, readFails: bool)
    requires FixedEnv(os).None?
    requires IsByteText(text)
    requires |line| <= |text| && text[..|line|] == line && '\n' !in line
    requires |line| == |text| || text[|line|] == '\n'
    ensures Current(os, Exited(Bytes(text), readFails)) == Parse(line)
  {
    FirstLineOfText(text, line);
    ParseIgnoresCase(line);
  }

  /** Normalisation lowers anyway, so lowering first changes nothing. */
  lemma {:induction false} NormalizedPrefixLowered(s: string, n: nat, strip: bool)
    requires n <= |s|
    ensures NormalizedPrefix(Lowered(s), n, strip) == NormalizedPrefix(s, n, strip)
  {
    if n > 0 {
      NormalizedPrefixLowered(s, n - 1, strip);
      assert NormalizeChar(Lowered(s)[n - 1], strip) == NormalizeChar(s[n - 1], strip);
    }
  }

  /** `parse` ignores ASCII case, so the lowering in `ldd` never changes its answer. */
  lemma ParseIgnoresCase(value: string)
    ensures Parse(Lowered(value)) == Parse(value)
  {
    NormalizedPrefixLowered(value, |value|, false);
  }

  /** `ldd(lddPath)`: the first line of the probe's output, or empty when it did not run. */
  function LddOutput(probe: Probe): (r: string)
    ensures !probe.Exited? ==> r == ""
    ensures probe.Exited? ==> |r| <= |probe.output| && '\n' !in r
  {
    match probe
    case Exited(output, _) => FirstLineIsPrefix(output); FirstLine(output)
    case _ => ""
  }

  /**
   * The read loop of `ldd`. A read that throws ends the loop like the end
   * of the stream does, and what was read so far is kept.
   */
  method Ldd(probe: Probe) returns (line: string)
    ensures line == LddOutput(probe)
  {
    line := "";
    if probe.Exited? {
      var output := probe.output;
      var i := 0;
      while i < |output| && output[i] != LineFeed
        invariant 0 <= i <= |output|
        invariant line + FirstLine(output[i..]) == FirstLine(output)
      {
        assert output[i..][1..] == output[i + 1..];
        line := line + [LowerByte(output[i])];
        i := i + 1;
      }
    }
  }

  // ---------------------------------------------------------------------
  // current
  // ---------------------------------------------------------------------

  /** The `switch` of `current(os, lddPath)`: the systems whose environment is fixed. */
  function FixedEnv(os: Os.Os): Option<Env> {
    if os == Os.Android then Some(Bionic)
    else if os == Os.Darwin || os == Os.DragonflyBsd || os == Os.FreeBsd || os == Os.NetBsd || os == Os.OpenBsd then Some(BsdLibc)
    else if os == Os.Windows then Some(Msvc)
    else None
  }

  /** `current(os, lddPath)`, with the run of `ldd --version` at `lddPath` as `probe`. */
  function Current(os: Os.Os, probe: Probe): (r: Env)
    ensures FixedEnv(os).Some? ==> r == FixedEnv(os).value
    ensures FixedEnv(os).None? && !probe.Exited? ==> r == Unknown
  {
    if FixedEnv(os).Some? then FixedEnv(os).value else Parse(LddOutput(probe))
  }

  /**
   * Android, the BSDs and Windows never look at the probe; every other
   * system is `parse` of the probe's first line, and a probe that did not
   * run leaves it Unknown.
   */
  lemma CurrentUsesProbeOnlyWhenNotFixed(os: Os.Os, probe: Probe, other: Probe)
    ensures FixedEnv(os).Some? <==> os in {Os.Android, Os.Darwin, Os.DragonflyBsd, Os.FreeBsd, Os.NetBsd, Os.OpenBsd, Os.Windows}
    ensures FixedEnv(os).Some? ==> Current(os, probe) == Current(os, other)
    ensures FixedEnv(os).None? ==> Current(os, probe) == Parse(LddOutput(probe))
    ensures FixedEnv(os).None? && !probe.Exited? ==> Current(os, probe) == Unknown
  {
  }
}
