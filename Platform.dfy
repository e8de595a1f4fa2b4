/**
 * `Platform`: an operating system paired with an architecture. Its
 * canonical identifier is `os-arch`; equality, hashing and ordering go
 * through that identifier; the strict and lenient constructors combine
 * those of `Os` and `Arch`; `hasMusl` reads the first line of
 * `ldd --version`.
 */
module Platform {
  import opened Wrappers
  import opened Strings
  import opened Host
  import Os
  import Arch
  import Env

  /** The immutable pair the constructor stores. */
  datatype Platform = Platform(os: Os.Os, arch: Arch.Arch)

  /** The `id` field the constructor computes, which `toString` returns. */
  function Id(p: Platform): (r: string)
    ensures |r| == |Os.Id(p.os)| + 1 + |Arch.Id(p.arch)|
    ensures r[|Os.Id(p.os)|] == '-'
  {
    Os.Id(p.os) + "-" + Arch.Id(p.arch)
  }

  /** Every architecture id is at least five characters long (`ia-32`). */
  lemma ArchIdsAreLong(a: Arch.Arch)
    ensures |Arch.Id(a)| >= 5
  {
    assert |Arch.Id(a)| == |Arch.Name(a)|;
  }

  /**
   * The identifier splits back into its parts at its first dash: operating
   * system ids are non-empty and have no dash, and at least two characters
   * follow the dash.
   */
  lemma IdSplits(p: Platform)
    ensures 0 < |Os.Id(p.os)| && |Os.Id(p.os)| + 2 < |Id(p)|
    ensures IndexOf(Id(p), '-') == |Os.Id(p.os)|
    ensures Id(p)[..|Os.Id(p.os)|] == Os.Id(p.os)
    ensures Id(p)[|Os.Id(p.os)| + 1..] == Arch.Id(p.arch)
  {
    var o, s := Os.Id(p.os), Id(p);
    Os.IdsAreLowerAlnum(p.os);
    ArchIdsAreLong(p.arch);
    assert s[..|o|] == o;
    assert s[|o| + 1..] == Arch.Id(p.arch);
    assert s[|o|] == '-';
    assert forall k :: 0 <= k < |o| ==> s[k] == o[k];
  }

  // ---------------------------------------------------------------------
  // equals, hashCode, compareTo
  // ---------------------------------------------------------------------

  /**
   * `equals` on two platforms: the same identifier. (The reference test
   * that comes first can only succeed when the identifiers agree too.)
   */
  predicate Equals(p: Platform, q: Platform) {
    Id(p) == Id(q)
  }

  /** Two platforms are equal exactly when they pair the same constants. */
  lemma EqualsIsSamePair(p: Platform, q: Platform)
    ensures Equals(p, q) <==> p == q
  {
    if Equals(p, q) {
      IdSplits(p);
      IdSplits(q);
      Os.IdsDistinct(p.os, q.os);
      Arch.IdsDistinct(p.arch, q.arch);
    }
  }

  const Two32: int := 0x1_0000_0000

  /** A Java `int` result: the value in [-2^31, 2^31) that agrees with `x` modulo 2^32. */
  function Int32(x: int): (r: int)
    ensures -0x8000_0000 <= r < 0x8000_0000
    ensures (x - r) % Two32 == 0
  {
    var m := x % Two32;
    if m < 0x8000_0000 then m else m - Two32
  }

  /** `String.hashCode`: `h = 31 * h + c` over the characters, in 32-bit arithmetic. */
  function StringHash(s: string): (r: int)
    ensures -0x8000_0000 <= r < 0x8000_0000
  {
    if |s| == 0 then 0 else Int32(31 * StringHash(s[..|s| - 1]) + s[|s| - 1] as int)
  }

  /** `hashCode`: the hash of the identifier. */
  function HashCode(p: Platform): (r: int)
    ensures -0x8000_0000 <= r < 0x8000_0000
  {
    StringHash(Id(p))
  }

  /** Equal platforms hash alike, as `Object.hashCode` demands. */
  lemma HashCodeAgreesWithEquals(p: Platform, q: Platform)
    requires Equals(p, q)
    ensures HashCode(p) == HashCode(q)
    ensures p == q
  {
    EqualsIsSamePair(p, q);
  }

  /**
   * `String.compareTo` from index `k` on: the difference of the first
   * differing characters, or else of the lengths.
   */
  function CompareFrom(s: string, t: string, k: nat): int
    requires k <= |s| && k <= |t|
    decreases |s| - k
  {
    if k == |s| || k == |t| then |s| - |t|
    else if s[k] != t[k] then s[k] as int - t[k] as int
    else CompareFrom(s, t, k + 1)
  }

  /** `String.compareTo`. */
  function CompareStrings(s: string, t: string): int {
    CompareFrom(s, t, 0)
  }

  /** `compareTo`: the order of the identifiers. */
  function CompareTo(p: Platform, q: Platform): (r: int)
    ensures r == 0 <==> p == q
    ensures r < 0 <==> LexLess(Id(p), Id(q))
  {
    CompareFromZero(Id(p), Id(q), 0);
    CompareFromIsLex(Id(p), Id(q), 0);
    EqualsIsSamePair(p, q);
    CompareStrings(Id(p), Id(q))
  }

  /**
   * Lexicographic order, stated on its own: `s` is a proper prefix of `t`,
   * or the first position where they differ holds the smaller character
   * in `s`.
   */
  predicate LexLess(s: string, t: string) {
    (|s| < |t| && t[..|s|] == s)
    || exists k :: 0 <= k < |s| && k < |t| && s[..k] == t[..k] && s[k] < t[k]
  }

  lemma {:induction false} CompareFromZero(s: string, t: string, k: nat)
    requires k <= |s| && k <= |t| && s[..k] == t[..k]
    ensures CompareFrom(s, t, k) == 0 <==> s == t
    decreases |s| - k
  {
    if k == |s| || k == |t| {
      if |s| == |t| {
        assert s == s[..k] && t == t[..k];
      }
    } else if s[k] == t[k] {
      assert s[..k + 1] == s[..k] + [s[k]] && t[..k + 1] == t[..k] + [t[k]];
      CompareFromZero(s, t, k + 1);
    }
  }

  lemma {:induction false} CompareFromAntisymmetric(s: string, t: string, k: nat)
    requires k <= |s| && k <= |t|
    ensures CompareFrom(t, s, k) == -CompareFrom(s, t, k)
    decreases |s| - k
  {
    if k < |s| && k < |t| && s[k] == t[k] {
      CompareFromAntisymmetric(s, t, k + 1);
    }
  }

  lemma {:induction false} CompareFromTransitive(a: string, b: string, c: string, k: nat)
    requires k <= |a| && k <= |b| && k <= |c|
    requires CompareFrom(a, b, k) < 0 && CompareFrom(b, c, k) < 0
    ensures CompareFrom(a, c, k) < 0
    decreases |a| - k
  {
    if k < |a| && k < |b| && k < |c| && a[k] == b[k] && b[k] == c[k] {
      CompareFromTransitive(a, b, c, k + 1);
    }
  }

  lemma {:induction false} CompareFromIsLex(s: string, t: string, k: nat)
    requires k <= |s| && k <= |t| && s[..k] == t[..k]
    ensures CompareFrom(s, t, k) < 0 <==> LexLess(s, t)
    decreases |s| - k
  {
    if k == |s| || k == |t| {
      if k == |s| && k < |t| {
        assert t[..|s|] == s;
      }
    } else if s[k] != t[k] {
      if s[k] < t[k] {
        assert 0 <= k < |s| && k < |t| && s[..k] == t[..k] && s[k] < t[k];
      } else {
        if exists j :: 0 <= j < |s| && j < |t| && s[..j] == t[..j] && s[j] < t[j] {
          var j :| 0 <= j < |s| && j < |t| && s[..j] == t[..j] && s[j] < t[j];
          if j < k {
            assert s[..k][j] == t[..k][j];
          } else if j > k {
            assert s[..j][k] == t[..j][k];
          }
        }
      }
    } else {
      assert s[..k + 1] == s[..k] + [s[k]] && t[..k + 1] == t[..k] + [t[k]];
      CompareFromIsLex(s, t, k + 1);
    }
  }

  /**
   * `compareTo` is a total order consistent with `equals`: it is zero
   * exactly on equal platforms, swapping the arguments negates it, it is
   * transitive, and it is the lexicographic order of the identifiers.
   */
  lemma CompareToIsOrder(p: Platform, q: Platform, r: Platform)
    ensures CompareTo(p, q) == 0 <==> Equals(p, q)
    ensures CompareTo(p, q) == 0 <==> p == q
    ensures CompareTo(q, p) == -CompareTo(p, q)
    ensures CompareTo(p, q) < 0 && CompareTo(q, r) < 0 ==> CompareTo(p, r) < 0
    ensures CompareTo(p, q) < 0 <==> LexLess(Id(p), Id(q))
  {
    CompareFromZero(Id(p), Id(q), 0);
    EqualsIsSamePair(p, q);
    CompareFromAntisymmetric(Id(p), Id(q), 0);
    if CompareTo(p, q) < 0 && CompareTo(q, r) < 0 {
      CompareFromTransitive(Id(p), Id(q), Id(r), 0);
    }
    CompareFromIsLex(Id(p), Id(q), 0);
  }

  // ---------------------------------------------------------------------
  // fromString
  // ---------------------------------------------------------------------

  /**
   * `fromStringOrNull`: split at the first dash, which must have a
   * non-empty head before it and at least two characters after it, and
   * look both halves up by id.
   */
  function FromStringOrNull(value: string): (r: Option<Platform>)
    ensures r.Some? ==> |value| > 0 && IndexOf(value, '-') > 0 && IndexOf(value, '-') + 2 < |value|
  {
    if |value| > 0 then
      var i := IndexOf(value, '-');
      var j := i + 1;
      if i > 0 && j < |value| - 1 then
        var os := Os.FromStringOrNull(value[..i]);
        var arch := Arch.FromStringOrNull(value[j..]);
        if os.Some? && arch.Some? then Some(Platform(os.value, arch.value)) else None
      else None
    else None
  }

  /** Anything `fromStringOrNull` accepts has the shape it checks for. */
  lemma FromStringOrNullShape(value: string)
    requires FromStringOrNull(value).Some?
    ensures |value| > 0 && IndexOf(value, '-') > 0 && IndexOf(value, '-') + 2 < |value|
  {
  }

  /** `fromStringOrNull` inverts `toString`. */
  lemma FromStringOrNullOfId(p: Platform)
    ensures FromStringOrNull(Id(p)) == Some(p)
  {
    IdSplits(p);
    Os.FromStringOrNullIsIdLookup(Os.Id(p.os), p.os);
    Arch.FromStringOrNullIsIdLookup(Arch.Id(p.arch), p.arch);
  }

  /** What `fromStringOrNull` checked and found when it answers `p`. */
  lemma FromStringOrNullParts(value: string, p: Platform) returns (i: int)
    requires FromStringOrNull(value) == Some(p)
    ensures i == IndexOf(value, '-') && 0 < i < |value| - 2 && value[i] == '-'
    ensures Os.Id(p.os) == value[..i] && Arch.Id(p.arch) == value[i + 1..]
  {
    i := IndexOf(value, '-');
    Os.FromStringOrNullIsIdLookup(value[..i], p.os);
    Arch.FromStringOrNullIsIdLookup(value[i + 1..], p.arch);
  }

  /** Whatever `fromStringOrNull` accepts is the identifier of its answer. */
  lemma FromStringOrNullIsId(value: string, p: Platform)
    requires FromStringOrNull(value) == Some(p)
    ensures value == Id(p)
  {
    var i := FromStringOrNullParts(value, p);
    SplitAt(value, i);
  }

  /** A text is what comes before its `i`-th character, that character, and what follows. */
  lemma SplitAt(s: string, i: int)
    requires 0 <= i < |s|
    ensures s == s[..i] + [s[i]] + s[i + 1..]
  {
  }

  /** `fromStringOrNull(v)` is `p` exactly when `v` is the identifier of `p`. */
  lemma FromStringOrNullIsIdLookup(value: string, p: Platform)
    ensures FromStringOrNull(value) == Some(p) <==> value == Id(p)
  {
    if value == Id(p) {
      FromStringOrNullOfId(p);
    }
    if FromStringOrNull(value) == Some(p) {
      FromStringOrNullIsId(value, p);
    }
  }

  /** `fromStringOrNull` is empty exactly on the texts that are no platform's id. */
  lemma FromStringOrNullNone(value: string)
    ensures FromStringOrNull(value).None? <==> forall p: Platform :: Id(p) != value
  {
    if FromStringOrNull(value).Some? {
      FromStringOrNullIsIdLookup(value, FromStringOrNull(value).value);
    } else {
      forall p: Platform
        ensures Id(p) != value
      {
        FromStringOrNullIsIdLookup(value, p);
      }
    }
  }

  /** `fromString`: throws exactly where `fromStringOrNull` has no answer. */
  function FromString(value: string): (r: Result<Platform>)
    ensures r.Ok? <==> FromStringOrNull(value).Some?
    ensures r.Ok? ==> Id(r.value) == value
    ensures r.Err? ==> r.failure == IllegalArgument("Unknown platform: " + value)
  {
    match FromStringOrNull(value)
    case Some(p) => FromStringOrNullIsIdLookup(value, p); Ok(p)
    case None => Err(IllegalArgument("Unknown platform: " + value))
  }

  // ---------------------------------------------------------------------
  // parse
  // ---------------------------------------------------------------------

  /** `parseOrNull`: both components must be recognised. */
  function ParseOrNull(value: string): (r: Option<Platform>)
    ensures r.Some? <==> Os.ParseOrNull(value).Some? && Arch.ParseOrNull(value).Some?
    ensures r.Some? ==> r.value.os == Os.ParseOrNull(value).value && r.value.arch == Arch.Parse(value)
    ensures r.Some? ==> !Arch.IsUnknown(r.value.arch)
  {
    var os := Os.ParseOrNull(value);
    var arch := Arch.ParseOrNull(value);
    if os.Some? && arch.Some? then Some(Platform(os.value, arch.value)) else None
  }

  /**
   * `parse`: only `Os.parse` can throw, because `Arch.parse` answers
   * `UNKNOWN_UNKNOWN` instead; the failure is re-thrown with the
   * platform's message.
   */
  function Parse(value: string): (r: Result<Platform>)
    ensures r.Ok? <==> Os.ParseOrNull(value).Some?
    ensures r.Ok? ==> r.value.os == Os.ParseOrNull(value).value && r.value.arch == Arch.Parse(value)
    ensures r.Err? ==> r.failure == IllegalArgument("Unknown platform: " + value)
  {
    match Os.Parse(value)
    case Ok(os) => Ok(Platform(os, Arch.Parse(value)))
    case Err(_) => Err(IllegalArgument("Unknown platform: " + value))
  }

  /**
   * `parseOrNull` answers exactly when both component parsers do, and then
   * `parse` gives the same platform. `parse` also succeeds where only the
   * architecture is unknown, which `parseOrNull` rejects.
   */
  lemma ParseAgreesWithParseOrNull(value: string)
    ensures ParseOrNull(value).Some? <==> Os.ParseOrNull(value).Some? && Arch.ParseOrNull(value).Some?
    ensures ParseOrNull(value).Some? ==>
      ParseOrNull(value).value == Platform(Os.ParseOrNull(value).value, Arch.ParseOrNull(value).value)
    ensures ParseOrNull(value).Some? ==> Parse(value) == Ok(ParseOrNull(value).value)
    ensures ParseOrNull(value).None? && Parse(value).Ok? <==>
      Os.ParseOrNull(value).Some? && Arch.IsUnknown(Arch.Parse(value))
  {
  }

  // ---------------------------------------------------------------------
  // current
  // ---------------------------------------------------------------------

  /** `currentOrNull`: both components must be recognised. */
  function CurrentOrNull(props: Properties): (r: Option<Platform>)
    ensures r.Some? <==> Os.CurrentOrNull(props).Some? && Arch.CurrentOrNull(props).Some?
    ensures r.Some? ==> r.value.os == Os.CurrentOrNull(props).value && r.value.arch == Arch.Current(props)
    ensures r.Some? ==> !Arch.IsUnknown(r.value.arch)
  {
    var os := Os.CurrentOrNull(props);
    var arch := Arch.CurrentOrNull(props);
    if os.Some? && arch.Some? then Some(Platform(os.value, arch.value)) else None
  }

  /**
   * `current`: only `Os.current` can throw, because `Arch.current` answers
   * an unknown constant instead; the failure is re-thrown with the
   * platform's message.
   */
  function Current(props: Properties): (r: Result<Platform>)
    ensures r.Ok? <==> Os.CurrentOrNull(props).Some?
    ensures r.Ok? ==> r.value.os == Os.CurrentOrNull(props).value && r.value.arch == Arch.Current(props)
    ensures r.Err? ==> r.failure == IllegalState("Unknown platform")
  {
    match Os.Current(props)
    case Ok(os) => Ok(Platform(os, Arch.Current(props)))
    case Err(_) => Err(IllegalState("Unknown platform"))
  }

  /**
   * `currentOrNull` answers exactly when both component lookups do, and
   * then `current` gives the same platform; `current` also succeeds where
   * only the architecture is unknown.
   */
  lemma CurrentAgreesWithCurrentOrNull(props: Properties)
    ensures CurrentOrNull(props).Some? <==> Os.CurrentOrNull(props).Some? && Arch.CurrentOrNull(props).Some?
    ensures CurrentOrNull(props).Some? ==>
      CurrentOrNull(props).value == Platform(Os.CurrentOrNull(props).value, Arch.CurrentOrNull(props).value)
    ensures CurrentOrNull(props).Some? ==> Current(props) == Ok(CurrentOrNull(props).value)
    ensures CurrentOrNull(props).None? && Current(props).Ok? <==>
      Os.CurrentOrNull(props).Some? && Arch.IsUnknown(Arch.Current(props))
  {
  }

  // ---------------------------------------------------------------------
  // hasMusl
  // ---------------------------------------------------------------------

  /**
   * What `hasMusl` answers for one run of `ldd --version`: a word-bounded
   * `musl` in the first line of the output with `A`-`Z` lowered. A process
   * that does not start or a wait that is interrupted answers false; one
   * that does not exit in time is not read, and nothing read has no word.
   * The loop stops at the first line feed, so a failing read is reached,
   * and turns the answer into false, only when the output has none.
   */
  predicate HasMuslOf(probe: Probe)
    ensures HasMuslOf(probe) ==> probe.Exited? && (LineFeed in probe.output || !probe.readFails)
  {
    match probe
    case Exited(output, readFails) =>
      !(readFails && LineFeed !in output) && ContainsWord(Env.FirstLine(output), "musl")
    case _ => false
  }

  /** The read loop of `hasMusl`, one byte per step. */
  method HasMusl(probe: Probe) returns (r: bool)
    ensures r == HasMuslOf(probe)
  {
    if !probe.Exited? {
      assert !HasMuslOf(probe);
      return false;
    }
    var output := probe.output;
    var sb := "";
    var i := 0;
    while i < |output| && output[i] != LineFeed
      invariant 0 <= i <= |output|
      invariant LineFeed !in output[..i]
      invariant sb + Env.FirstLine(output[i..]) == Env.FirstLine(output)
    {
      assert output[i..][1..] == output[i + 1..];
      assert output[..i + 1] == output[..i] + [output[i]];
      sb := sb + [Env.LowerByte(output[i])];
      i := i + 1;
    }
    assert Env.FirstLine(output[i..]) == [];
    if i == |output| {
      assert output[..i] == output;
      if probe.readFails {
        assert !HasMuslOf(probe);
        return false;
      }
    } else {
      assert output[i] == LineFeed;
    }
    assert sb == Env.FirstLine(output);
    r := ContainsWord(sb, "musl");
    assert !(probe.readFails && LineFeed !in output);
  }

  /**
   * On output that is text, `hasMusl` looks for the word `musl` in the
   * text's first line, ignoring case, whatever happens to reads after it.
   */
  lemma HasMuslOfText(text: string, line: string, readFails: bool)
    requires Env.IsByteText(text)
    requires |line| < |text| && text[..|line|] == line && '\n' !in line && text[|line|] == '\n'
    ensures HasMuslOf(Exited(Env.Bytes(text), readFails)) <==> ContainsWord(Env.Lowered(line), "musl")
  {
    Env.FirstLineOfText(text, line);
    assert Env.Bytes(text)[|line|] == LineFeed;
  }

  /** Without a line feed, a failing read makes the answer false whatever the text. */
  lemma HasMuslReadFailure(output: seq<byte>)
    requires LineFeed !in output
    ensures !HasMuslOf(Exited(output, true))
  {
  }

  // ---------------------------------------------------------------------
  // The identifier grammar of the `toString` documentation
  // ---------------------------------------------------------------------

  /** `[a-z][a-z0-9]*` spells `s[i..j]`. */
  predicate LowerAlnumRun(s: string, i: int, j: int) {
    0 <= i < j <= |s| && IsLower(s[i]) && forall k :: i < k < j ==> IsLower(s[k]) || IsDigit(s[k])
  }

  /** `[1-9][0-9]*` spells `s[i..j]`. */
  predicate NumberRun(s: string, i: int, j: int) {
    0 <= i < j <= |s| && '1' <= s[i] <= '9' && forall k :: i < k < j ==> IsDigit(s[k])
  }

  /** `-be` or `-le` spells `s[i..i + 3]`. */
  predicate EndianAt(s: string, i: int) {
    HasAt(s, i, "-be") || HasAt(s, i, "-le")
  }

  /**
   * The architecture part as documented, `[a-z][a-z0-9]*-[1-9][0-9]*(-(be|le))?`,
   * on all of `t`. The family cannot hold a dash, so the dash after it is
   * the first one.
   */
  predicate DocumentedArchGrammar(t: string) {
    var d := IndexOf(t, '-');
    LowerAlnumRun(t, 0, d)
    && (NumberRun(t, d + 1, |t|) || (NumberRun(t, d + 1, |t| - 3) && EndianAt(t, |t| - 3)))
  }

  /**
   * The whole identifier as documented,
   * `[a-z][a-z0-9]*-[a-z][a-z0-9]*-[1-9][0-9]*(-(be|le))?`. The operating
   * system cannot hold a dash, so the first dash ends it.
   */
  predicate DocumentedGrammar(s: string) {
    var d := IndexOf(s, '-');
    LowerAlnumRun(s, 0, d) && DocumentedArchGrammar(s[d + 1..])
  }

  /** The bitness segment as the identifiers spell it: a number or `unknown`. */
  predicate BitnessRun(s: string, i: int, j: int) {
    NumberRun(s, i, j) || (j == i + 7 && HasAt(s, i, "unknown"))
  }

  /** The architecture part with `unknown` admitted as the bitness. */
  predicate ArchGrammar(t: string) {
    var d := IndexOf(t, '-');
    LowerAlnumRun(t, 0, d)
    && (BitnessRun(t, d + 1, |t|) || (BitnessRun(t, d + 1, |t| - 3) && EndianAt(t, |t| - 3)))
  }

  /** The whole identifier with `unknown` admitted as the bitness. */
  predicate IdGrammar(s: string) {
    var d := IndexOf(s, '-');
    LowerAlnumRun(s, 0, d) && ArchGrammar(s[d + 1..])
  }

  /** Every identifier is an operating system id, a dash, and the architecture id. */
  lemma IdGrammarSplits(p: Platform)
    ensures DocumentedGrammar(Id(p)) <==> DocumentedArchGrammar(Arch.Id(p.arch))
    ensures IdGrammar(Id(p)) <==> ArchGrammar(Arch.Id(p.arch))
  {
    IdSplits(p);
    Os.IdsAreLowerAlnum(p.os);
    var o, s := Os.Id(p.os), Id(p);
    assert forall k :: 0 <= k < |o| ==> s[k] == o[k];
    assert LowerAlnumRun(s, 0, |o|);
  }

  /** The documented grammar is the corrected one restricted to numeric bitness. */
  lemma DocumentedIsArchGrammar(t: string)
    requires DocumentedArchGrammar(t)
    ensures ArchGrammar(t)
  {
  }
}
