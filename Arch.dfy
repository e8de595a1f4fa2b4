/**
 * `com.fleshgrinder.platform.Arch`: the architecture enum, its ids, the
 * `current()` fast path with its bitness fallback, the `parse` cascade and
 * the bitness and family predicates.
 */
module Arch {
  import opened Wrappers
  import opened Strings
  import opened Utils
  import opened Sequences
  import opened Host

  /** The enum constants, in declaration order. */
  datatype Arch =
    | UnknownUnknown | Unknown32 | Unknown64
    | Alpha64
    | Arm32 | Arm32Be | Arm64 | Arm64Be
    | Ia32 | Ia64
    | Ibmz32 | Ibmz64
    | M68k32
    | Mips32 | Mips32Le | Mips64 | Mips64Le
    | Ppc32 | Ppc32Le | Ppc64 | Ppc64Le
    | Riscv32 | Riscv64
    | Sparc32 | Sparc64
    | Superh32 | Superh32Be
    | X86_32 | X86_64

  /** `Arch.values()`. */
  const AllArchs: seq<Arch> := [
    UnknownUnknown, Unknown32, Unknown64, Alpha64, Arm32, Arm32Be, Arm64, Arm64Be,
    Ia32, Ia64, Ibmz32, Ibmz64, M68k32, Mips32, Mips32Le, Mips64, Mips64Le,
    Ppc32, Ppc32Le, Ppc64, Ppc64Le, Riscv32, Riscv64, Sparc32, Sparc64,
    Superh32, Superh32Be, X86_32, X86_64
  ]

  /** `name()`: the Java constant name. */
  function Name(a: Arch): string {
    match a
    case UnknownUnknown => "UNKNOWN_UNKNOWN"
    case Unknown32 => "UNKNOWN_32"
    case Unknown64 => "UNKNOWN_64"
    case Alpha64 => "ALPHA_64"
    case Arm32 => "ARM_32"
    case Arm32Be => "ARM_32_BE"
    case Arm64 => "ARM_64"
    case Arm64Be => "ARM_64_BE"
    case Ia32 => "IA_32"
    case Ia64 => "IA_64"
    case Ibmz32 => "IBMZ_32"
    case Ibmz64 => "IBMZ_64"
    case M68k32 => "M68K_32"
    case Mips32 => "MIPS_32"
    case Mips32Le => "MIPS_32_LE"
    case Mips64 => "MIPS_64"
    case Mips64Le => "MIPS_64_LE"
    case Ppc32 => "PPC_32"
    case Ppc32Le => "PPC_32_LE"
    case Ppc64 => "PPC_64"
    case Ppc64Le => "PPC_64_LE"
    case Riscv32 => "RISCV_32"
    case Riscv64 => "RISCV_64"
    case Sparc32 => "SPARC_32"
    case Sparc64 => "SPARC_64"
    case Superh32 => "SUPERH_32"
    case Superh32Be => "SUPERH_32_BE"
    case X86_32 => "X86_32"
    case X86_64 => "X86_64"
  }

  /** The `id` field: `Utils.id(name())`. */
  function Id(a: Arch): string {
    IdOf(Name(a))
  }

  // ---------------------------------------------------------------------
  // The regular expressions of `parse`, one predicate per rule, each stating
  // where a match of the rule may start in the normalised text `s`.
  // ---------------------------------------------------------------------

  /** A character in `lo..hi` at `i`. */
  predicate CharBetween(s: string, i: int, lo: char, hi: char) {
    0 <= i < |s| && lo <= s[i] <= hi
  }

  /** `(a|b)` at `k`. */
  predicate PairAt(s: string, k: int, a: string, b: string) {
    HasAt(s, k, a) || HasAt(s, k, b)
  }

  /** `-?(a|b)` at `k`. */
  predicate OptDashPairAt(s: string, k: int, a: string, b: string) {
    PairAt(s, k, a, b) || (Dash(s, k) && PairAt(s, k + 1, a, b))
  }

  /** `-?(w)?-?(a|b)` at `k`. */
  predicate OptWordThenPairAt(s: string, k: int, w: string, a: string, b: string) {
    OptDashPairAt(s, k, a, b)
    || (Dash(s, k) && OptDashPairAt(s, k + 1, a, b))
    || (HasAt(s, k, w) && OptDashPairAt(s, k + |w|, a, b))
    || (Dash(s, k) && HasAt(s, k + 1, w) && OptDashPairAt(s, k + 1 + |w|, a, b))
  }

  /** The end of the run of digits that starts at `k`. */
  function DigitRunEnd(s: string, k: nat): (r: nat)
    requires k <= |s|
    ensures k <= r <= |s|
    ensures forall j :: k <= j < r ==> IsDigit(s[j])
    ensures r == |s| || !IsDigit(s[r])
    decreases |s| - k
  {
    if k < |s| && IsDigit(s[k]) then DigitRunEnd(s, k + 1) else k
  }

  /** `v[1-9]\d+` at `k`, up to its first digit after the leading one. */
  predicate LongVersionAt(s: string, k: int) {
    HasAt(s, k, "v") && CharBetween(s, k + 1, '1', '9') && DigitAt(s, k + 2)
  }

  /** `(64|v[8-9]|v[1-9]\d+)` at `k`, followed by anything. */
  predicate Version64At(s: string, k: int) {
    HasAt(s, k, "64") || (HasAt(s, k, "v") && CharBetween(s, k + 1, '8', '9')) || LongVersionAt(s, k)
  }

  /**
   * `(64|v[8-9]|v[1-9]\d+)-?(be|eb)` at `k`. The `\d+` must take the whole
   * digit run, since what follows it starts with `-`, `b` or `e`.
   */
  predicate Version64ThenBeAt(s: string, k: int) {
    (HasAt(s, k, "64") && OptDashPairAt(s, k + 2, "be", "eb"))
    || (HasAt(s, k, "v") && CharBetween(s, k + 1, '8', '9') && OptDashPairAt(s, k + 2, "be", "eb"))
    || (LongVersionAt(s, k) && OptDashPairAt(s, DigitRunEnd(s, k + 2), "be", "eb"))
  }

  /** `(64|v…)-?(be|eb)|(be|eb)-?(64|v…)` at `k`. */
  predicate ArmBe64TailAt(s: string, k: int) {
    Version64ThenBeAt(s, k)
    || (PairAt(s, k, "be", "eb") && (Version64At(s, k + 2) || (Dash(s, k + 2) && Version64At(s, k + 3))))
  }

  /** `(64-?(le|el)|(le|el)-?64)` at `k`. */
  predicate Ppc64LeTailAt(s: string, k: int) {
    (HasAt(s, k, "64") && OptDashPairAt(s, k + 2, "le", "el"))
    || (PairAt(s, k, "le", "el") && OptDashThen(s, k + 2, "64"))
  }

  /** `(r\d-?)?(le|el)` at `k`. */
  predicate RevLeAt(s: string, k: int) {
    PairAt(s, k, "le", "el")
    || (HasAt(s, k, "r") && DigitAt(s, k + 1) && OptDashPairAt(s, k + 2, "le", "el"))
  }

  /** `-?(r\d-?)?(le|el)` at `k`. */
  predicate OptDashRevLeAt(s: string, k: int) {
    RevLeAt(s, k) || (Dash(s, k) && RevLeAt(s, k + 1))
  }

  /** `(64-?(r\d-?)?(le|el)|(le|el)-?64)` at `k`. */
  predicate Mips64LeTailAt(s: string, k: int) {
    (HasAt(s, k, "64") && OptDashRevLeAt(s, k + 2))
    || (PairAt(s, k, "le", "el") && OptDashThen(s, k + 2, "64"))
  }

  /** `(32)?-?(r\d-?)?(le|el)` at `k`; it covers the `|(le|el)` alternative too. */
  predicate Mips32LeTailAt(s: string, k: int) {
    OptDashRevLeAt(s, k) || (HasAt(s, k, "32") && OptDashRevLeAt(s, k + 2))
  }

  /** `32-?be` at `k`. */
  predicate Bits32ThenBeAt(s: string, k: int) {
    HasAt(s, k, "32") && OptDashThen(s, k + 2, "be")
  }

  /** `-?(32-?)?be` at `k`. */
  predicate SuperhBeTailAt(s: string, k: int) {
    OptDashThen(s, k, "be") || Bits32ThenBeAt(s, k) || (Dash(s, k) && Bits32ThenBeAt(s, k + 1))
  }

  /** `z-?64` at `k`. */
  predicate ZThen64At(s: string, k: int) {
    HasAt(s, k, "z") && OptDashThen(s, k + 1, "64")
  }

  /** `v-?64` at `k`. */
  predicate VThen64At(s: string, k: int) {
    HasAt(s, k, "v") && OptDashThen(s, k + 1, "64")
  }

  /** `(power-?(pc|rs)?|ppc)` starts at `i` and `tail` matches right after it. */
  predicate PpcHeadThen(s: string, i: int, tail: (string, int) -> bool) {
    (HasAt(s, i, "ppc") && tail(s, i + 3))
    || (HasAt(s, i, "power")
        && (tail(s, i + 5) || (Dash(s, i + 5) && tail(s, i + 6))
            || (PairAt(s, i + 5, "pc", "rs") && tail(s, i + 7))
            || (Dash(s, i + 5) && PairAt(s, i + 6, "pc", "rs") && tail(s, i + 8))))
  }

  /** `mips(isa)?` starts at `i` and `tail` matches right after it. */
  predicate MipsHeadThen(s: string, i: int, tail: (string, int) -> bool) {
    HasAt(s, i, "mips") && (tail(s, i + 4) || (HasAt(s, i + 4, "isa") && tail(s, i + 7)))
  }

  /** `-?(64-?(le|el)|(le|el)-?64)` at `k`. */
  predicate OptDashPpc64LeTailAt(s: string, k: int) {
    Ppc64LeTailAt(s, k) || (Dash(s, k) && Ppc64LeTailAt(s, k + 1))
  }

  /** `-?((32)?-?(le|el)|(le|el))` at `k`. */
  predicate Ppc32LeTailAt(s: string, k: int) {
    OptWordThenPairAt(s, k, "32", "le", "el")
  }

  /** `-?64` at `k`. */
  predicate OptDash64At(s: string, k: int) {
    OptDashThen(s, k, "64")
  }

  /** The empty tail. */
  predicate AnythingAt(s: string, k: int) {
    true
  }

  /** `-?(64-?(r\d-?)?(le|el)|(le|el)-?64)` at `k`. */
  predicate OptDashMips64LeTailAt(s: string, k: int) {
    Mips64LeTailAt(s, k) || (Dash(s, k) && Mips64LeTailAt(s, k + 1))
  }

  /** `-?((32)?-?(r\d-?)?(le|el)|(le|el))` at `k`. */
  predicate OptDashMips32LeTailAt(s: string, k: int) {
    Mips32LeTailAt(s, k) || (Dash(s, k) && Mips32LeTailAt(s, k + 1))
  }

  /** `x86-?64|amd64|em64t|ia32e|(?<!nvpt)x64|[89]86` starts at `i`. */
  predicate X86_64At(s: string, i: int) {
    (HasAt(s, i, "x86") && OptDashThen(s, i + 3, "64")) || HasAt(s, i, "amd64") || HasAt(s, i, "em64t")
    || HasAt(s, i, "ia32e") || (HasAt(s, i, "x64") && !HasAt(s, i - 4, "nvpt"))
    || HasAt(s, i, "886") || HasAt(s, i, "986")
  }

  /** `(ia|x)32|(x|[1-7])86|pentium` starts at `i`. */
  predicate X86_32At(s: string, i: int) {
    HasAt(s, i, "ia32") || HasAt(s, i, "x32") || HasAt(s, i, "x86")
    || (CharBetween(s, i, '1', '7') && HasAt(s, i + 1, "86")) || HasAt(s, i, "pentium")
  }

  /** `aarch-?(64)?-?(be|eb)` starts at `i`. */
  predicate Aarch64BeAt(s: string, i: int) {
    HasAt(s, i, "aarch") && OptWordThenPairAt(s, i + 5, "64", "be", "eb")
  }

  /** `arm-?((64|v[8-9]|v[1-9]\d+)-?(be|eb)|(be|eb)-?(64|v[8-9]|v[1-9]\d+))` starts at `i`. */
  predicate Arm64BeAt(s: string, i: int) {
    HasAt(s, i, "arm") && (ArmBe64TailAt(s, i + 3) || (Dash(s, i + 3) && ArmBe64TailAt(s, i + 4)))
  }

  /** `arm-?((32)?-?(be|eb)|(be|eb))` starts at `i`. */
  predicate Arm32BeAt(s: string, i: int) {
    HasAt(s, i, "arm") && OptWordThenPairAt(s, i + 3, "32", "be", "eb")
  }

  /** `arm-?(64|v[8-9]|v[1-9]\d+)` starts at `i`. */
  predicate Arm64At(s: string, i: int) {
    HasAt(s, i, "arm") && (Version64At(s, i + 3) || (Dash(s, i + 3) && Version64At(s, i + 4)))
  }

  /** `i(a(-?32|64(n|-?32))|tanium-?32)` starts at `i`. */
  predicate Ia32At(s: string, i: int) {
    (HasAt(s, i, "ia")
     && (OptDashThen(s, i + 2, "32") || (HasAt(s, i + 2, "64") && (HasAt(s, i + 4, "n") || OptDashThen(s, i + 4, "32")))))
    || (HasAt(s, i, "itanium") && OptDashThen(s, i + 7, "32"))
  }

  /** `i(a-?64|tanium)` starts at `i`. */
  predicate Ia64At(s: string, i: int) {
    (HasAt(s, i, "ia") && OptDashThen(s, i + 2, "64")) || HasAt(s, i, "itanium")
  }

  /** `s390-?(x|64)|ibm-?z-?64` starts at `i`. */
  predicate Ibmz64At(s: string, i: int) {
    (HasAt(s, i, "s390") && (OptDashThen(s, i + 4, "x") || OptDashThen(s, i + 4, "64")))
    || (HasAt(s, i, "ibm") && (ZThen64At(s, i + 3) || (Dash(s, i + 3) && ZThen64At(s, i + 4))))
  }

  /** `s390|ibm-?z` starts at `i`. */
  predicate Ibmz32At(s: string, i: int) {
    HasAt(s, i, "s390") || (HasAt(s, i, "ibm") && OptDashThen(s, i + 3, "z"))
  }

  predicate Ppc64LeAt(s: string, i: int) { PpcHeadThen(s, i, OptDashPpc64LeTailAt) }
  predicate Ppc32LeAt(s: string, i: int) { PpcHeadThen(s, i, Ppc32LeTailAt) }
  predicate Ppc64At(s: string, i: int) { PpcHeadThen(s, i, OptDash64At) }
  predicate Ppc32At(s: string, i: int) { PpcHeadThen(s, i, AnythingAt) }

  predicate Mips64LeAt(s: string, i: int) { MipsHeadThen(s, i, OptDashMips64LeTailAt) }
  predicate Mips32LeAt(s: string, i: int) { MipsHeadThen(s, i, OptDashMips32LeTailAt) }
  predicate Mips64At(s: string, i: int) { MipsHeadThen(s, i, OptDash64At) }

  /** `risc-?v-?64` starts at `i`. */
  predicate Riscv64At(s: string, i: int) {
    HasAt(s, i, "risc") && (VThen64At(s, i + 4) || (Dash(s, i + 4) && VThen64At(s, i + 5)))
  }

  /** `risc-?v` starts at `i`. */
  predicate Riscv32At(s: string, i: int) {
    HasAt(s, i, "risc") && OptDashThen(s, i + 4, "v")
  }

  /** `ultra-?sparc|sparc-?(64|v9)` starts at `i`. */
  predicate Sparc64At(s: string, i: int) {
    (HasAt(s, i, "ultra") && OptDashThen(s, i + 5, "sparc"))
    || (HasAt(s, i, "sparc") && (OptDashThen(s, i + 5, "64") || OptDashThen(s, i + 5, "v9")))
  }

  /** `s(uper)?h-?(32-?)?be` starts at `i`. */
  predicate Superh32BeAt(s: string, i: int) {
    (HasAt(s, i, "sh") && SuperhBeTailAt(s, i + 2)) || (HasAt(s, i, "superh") && SuperhBeTailAt(s, i + 6))
  }

  /**
   * `Pattern.matches("(?i)(^|.*[^\\w.])sh([^\\w].*|$)", value)` with the
   * `sh` at index `k` of the raw value: `.` stops at line terminators.
   */
  predicate RawShAt(value: string, k: int) {
    0 <= k && k + 2 <= |value|
    && (value[k] == 's' || value[k] == 'S') && (value[k + 1] == 'h' || value[k + 1] == 'H')
    && (k == 0 || (!IsWordChar(value[k - 1]) && value[k - 1] != '.' && NoLineTerminator(value, 0, k - 1)))
    && (k + 2 == |value| || (!IsWordChar(value[k + 2]) && NoLineTerminator(value, k + 3, |value|)))
  }

  predicate RawShFrom(value: string, k: nat)
    decreases |value| - k
  {
    k + 2 <= |value| && (RawShAt(value, k) || RawShFrom(value, k + 1))
  }

  /** The raw-text SuperH test: a whole word `sh`, in either case. */
  predicate RawSh(value: string) {
    RawShFrom(value, 0)
  }

  /** The cascade of `parse` over the normalised text `it` of a non-empty `value`. */
  function Classify(it: string, value: string): Arch {
    if Matches(X86_64At, it) then X86_64
    else if Matches(X86_32At, it) then X86_32
    else if Matches(Aarch64BeAt, it) then Arm64Be
    else if Contains(it, "aarch") then Arm64
    else if Matches(Arm64BeAt, it) then Arm64Be
    else if Matches(Arm32BeAt, it) then Arm32Be
    else if Matches(Arm64At, it) then Arm64
    else if Contains(it, "arm") then Arm32
    else if Contains(it, "alpha") then Alpha64
    else if Matches(Ia32At, it) then Ia32
    else if Matches(Ia64At, it) then Ia64
    else if Contains(it, "m68k") || Contains(it, "m68000") then M68k32
    else if Matches(Ibmz64At, it) then Ibmz64
    else if Matches(Ibmz32At, it) then Ibmz32
    else if Matches(Ppc64LeAt, it) then Ppc64Le
    else if Matches(Ppc32LeAt, it) then Ppc32Le
    else if Matches(Ppc64At, it) then Ppc64
    else if Matches(Ppc32At, it) then Ppc32
    else if Matches(Mips64LeAt, it) then Mips64Le
    else if Matches(Mips32LeAt, it) then Mips32Le
    else if Matches(Mips64At, it) then Mips64
    else if Contains(it, "mips") then Mips32
    else if Matches(Riscv64At, it) then Riscv64
    else if Matches(Riscv32At, it) then Riscv32
    else if Matches(Sparc64At, it) then Sparc64
    else if Contains(it, "sparc") then Sparc32
    else if Matches(Superh32BeAt, it) then Superh32Be
    else if Contains(it, "superh") || RawSh(value) then Superh32
    else if Contains(it, "win32") then X86_32
    else if Contains(it, "win64") then X86_64
    else if Contains(it, "32") then Unknown32
    else if Contains(it, "64") then Unknown64
    else UnknownUnknown
  }

  /**
   * `Arch.parse(value)`: empty text is UNKNOWN_UNKNOWN, and the bare
   * bitness constants come from a `32` or `64` in the normalised text,
   * which the last two rules look for when every named rule has failed.
   */
  function Parse(value: string): (r: Arch)
    ensures |value| == 0 ==> r == UnknownUnknown
    ensures r == Unknown32 ==> Contains(Normalized(value, false), "32")
    ensures r == Unknown64 ==> Contains(Normalized(value, false), "64")
    ensures |value| > 0 && r == UnknownUnknown ==>
      !Contains(Normalized(value, false), "32") && !Contains(Normalized(value, false), "64")
  {
    if |value| == 0 then UnknownUnknown else Classify(Normalized(value, false), value)
  }

  /** `Arch.fromStringOrNull(value)`: the constant whose id is exactly `value`. */
  function FromStringOrNull(value: string): (r: Option<Arch>)
    ensures r.Some? ==> Id(r.value) == value
  {
    FindFirst(AllArchs, (a: Arch) => Id(a) == value)
  }

  /** `Arch.parseOrNull(value)`: `parse`, with the unknown constants read as no answer. */
  function ParseOrNull(value: string): (r: Option<Arch>)
    ensures r.Some? ==> r.value == Parse(value) && !IsUnknown(r.value)
    ensures r.None? ==> IsUnknown(Parse(value))
  {
    var a := Parse(value);
    if IsUnknown(a) then None else Some(a)
  }

  /** The `switch` of `current()`, keyed on the strip-normalised `os.arch`. */
  function FastPath(key: string): Option<Arch> {
    match key
    case "alpha" => Some(Alpha64)
    case "arm" => Some(Arm32)
    case "arm64" => Some(Arm64)
    case "aarch64" => Some(Arm64)
    case "ia64" => Some(Ia64)
    case "m68k" => Some(M68k32)
    case "mips" => Some(Mips32)
    case "mipsel" => Some(Mips32Le)
    case "mips64" => Some(Mips64)
    case "mips64el" => Some(Mips64Le)
    case "ppc" => Some(Ppc32)
    case "ppcle" => Some(Ppc32Le)
    case "ppc64" => Some(Ppc64)
    case "ppc64le" => Some(Ppc64Le)
    case "s390" => Some(Ibmz32)
    case "s390x" => Some(Ibmz64)
    case "sparc" => Some(Sparc32)
    case "sparcv9" => Some(Sparc64)
    case "sh" => Some(Superh32)
    case "shbe" => Some(Superh32Be)
    case "x8664" => Some(X86_64)
    case "amd64" => Some(X86_64)
    case "x86" => Some(X86_32)
    case "i386" => Some(X86_32)
    case "pentium" => Some(X86_32)
    case _ => None
  }

  /** The JVM's bitness, from `sun.arch.data.model` or else `com.ibm.vm.bitmode`. */
  function JvmBitness(props: Properties): string {
    PropertyOr(props, "sun.arch.data.model", PropertyOr(props, "com.ibm.vm.bitmode", ""))
  }

  /**
   * `Arch.current()` over a snapshot of the system properties: the fast
   * path, else `parse` of `os.arch`, whose unknown answers the JVM's own
   * bitness may sharpen.
   */
  function Current(props: Properties): (r: Arch)
    ensures var it := PropertyOr(props, "os.arch", "");
      r == Parse(it) || FastPath(Normalized(it, true)) == Some(r) || (IsUnknown(r) && IsUnknown(Parse(it)))
    ensures IsUnknown(r) ==> IsUnknown(Parse(PropertyOr(props, "os.arch", "")))
    ensures var key := Normalized(PropertyOr(props, "os.arch", ""), true);
      FastPath(key).Some? ==> r == FastPath(key).value
  {
    var it := PropertyOr(props, "os.arch", "");
    var key := Normalized(it, true);
    if FastPath(key).Some? then FastPath(key).value
    else
      var result := Parse(it);
      if IsUnknown(result) && JvmBitness(props) == "32" then Unknown32
      else if IsUnknown(result) && JvmBitness(props) == "64" then Unknown64
      else result
  }

  /** `Arch.currentOrNull()`: `current()`, with the unknown constants read as no answer. */
  function CurrentOrNull(props: Properties): (r: Option<Arch>)
    ensures r.Some? ==> r.value == Current(props) && !IsUnknown(r.value)
    ensures r.None? ==> IsUnknown(Current(props))
  {
    var a := Current(props);
    if IsUnknown(a) then None else Some(a)
  }

  /** `is32bit()`. */
  predicate Is32Bit(a: Arch) {
    Contains(Name(a), "32")
  }

  /** `is64bit()`. */
  predicate Is64Bit(a: Arch) {
    Contains(Name(a), "64")
  }

  /** `getBitness()`. */
  function Bitness(a: Arch): int {
    if Is32Bit(a) then 32 else 64
  }

  predicate IsUnknown(a: Arch) { a == UnknownUnknown || a == Unknown32 || a == Unknown64 }
  predicate IsArmBe(a: Arch) { a == Arm32Be || a == Arm64Be }
  predicate IsArmLe(a: Arch) { a == Arm32 || a == Arm64 }
  predicate IsArm(a: Arch) { IsArmBe(a) || IsArmLe(a) }
  predicate IsIa(a: Arch) { a == Ia32 || a == Ia64 }
  predicate IsIbmz(a: Arch) { a == Ibmz32 || a == Ibmz64 }
  predicate IsMipsBe(a: Arch) { a == Mips32 || a == Mips64 }
  predicate IsMipsLe(a: Arch) { a == Mips32Le || a == Mips64Le }
  predicate IsMips(a: Arch) { IsMipsBe(a) || IsMipsLe(a) }
  predicate IsPpcBe(a: Arch) { a == Ppc32 || a == Ppc64 }
  predicate IsPpcLe(a: Arch) { a == Ppc32Le || a == Ppc64Le }
  predicate IsPpc(a: Arch) { IsPpcBe(a) || IsPpcLe(a) }
  predicate IsRiscv(a: Arch) { a == Riscv32 || a == Riscv64 }
  predicate IsSparc(a: Arch) { a == Sparc32 || a == Sparc64 }
  predicate IsX86(a: Arch) { a == X86_32 || a == X86_64 }

  // ---------------------------------------------------------------------
  // Names and ids
  // ---------------------------------------------------------------------

  lemma AllArchsComplete(a: Arch)
    ensures a in AllArchs
  {
  }

  /** Every constant name is `UPPER_SNAKE`, the alphabet `Utils.id` expects. */
  lemma NamesAreUpperSnake(a: Arch)
    ensures |Name(a)| > 0 && IsUpperSnake(Name(a))
  {
    NamesAreUpperSnake1();
    NamesAreUpperSnake2();
    NamesAreUpperSnake3();
    NamesAreUpperSnake4();
    NamesAreUpperSnake5();
    NamesAreUpperSnake6();
    NamesAreUpperSnake7();
    NamesAreUpperSnake8();
    NamesAreUpperSnake9();
    NamesAreUpperSnake10();
  }

  lemma NamesAreUpperSnake1()
    ensures IsUpperSnake(Name(UnknownUnknown))
      && IsUpperSnake(Name(Unknown32))
      && IsUpperSnake(Name(Unknown64))
  {
  }

  lemma NamesAreUpperSnake2()
    ensures IsUpperSnake(Name(Alpha64))
      && IsUpperSnake(Name(Arm32))
      && IsUpperSnake(Name(Arm32Be))
  {
  }

  lemma NamesAreUpperSnake3()
    ensures IsUpperSnake(Name(Arm64))
      && IsUpperSnake(Name(Arm64Be))
      && IsUpperSnake(Name(Ia32))
  {
  }

  lemma NamesAreUpperSnake4()
    ensures IsUpperSnake(Name(Ia64))
      && IsUpperSnake(Name(Ibmz32))
      && IsUpperSnake(Name(Ibmz64))
  {
  }

  lemma NamesAreUpperSnake5()
    ensures IsUpperSnake(Name(M68k32))
      && IsUpperSnake(Name(Mips32))
      && IsUpperSnake(Name(Mips32Le))
  {
  }

  lemma NamesAreUpperSnake6()
    ensures IsUpperSnake(Name(Mips64))
      && IsUpperSnake(Name(Mips64Le))
      && IsUpperSnake(Name(Ppc32))
  {
  }

  lemma NamesAreUpperSnake7()
    ensures IsUpperSnake(Name(Ppc32Le))
      && IsUpperSnake(Name(Ppc64))
      && IsUpperSnake(Name(Ppc64Le))
  {
  }

  lemma NamesAreUpperSnake8()
    ensures IsUpperSnake(Name(Riscv32))
      && IsUpperSnake(Name(Riscv64))
      && IsUpperSnake(Name(Sparc32))
  {
  }

  lemma NamesAreUpperSnake9()
    ensures IsUpperSnake(Name(Sparc64))
      && IsUpperSnake(Name(Superh32))
      && IsUpperSnake(Name(Superh32Be))
  {
  }

  lemma NamesAreUpperSnake10()
    ensures IsUpperSnake(Name(X86_32))
      && IsUpperSnake(Name(X86_64))
  {
  }

  lemma NameInjective(a: Arch, b: Arch)
    requires Name(a) == Name(b)
    ensures a == b
  {
  }

  /** Distinct constants have distinct ids. */
  lemma IdsDistinct(a: Arch, b: Arch)
    requires Id(a) == Id(b)
    ensures a == b
  {
    NamesAreUpperSnake(a);
    NamesAreUpperSnake(b);
    Utils.IdInjective(Name(a), Name(b));
    NameInjective(a, b);
  }

  /** `fromStringOrNull(v)` is `a` exactly when `v` is the id of `a`. */
  lemma FromStringOrNullIsIdLookup(value: string, a: Arch)
    ensures FromStringOrNull(value) == Some(a) <==> value == Id(a)
  {
    var p := (b: Arch) => Id(b) == value;
    if value == Id(a) {
      AllArchsComplete(a);
      forall b | b in AllArchs && p(b)
        ensures b == a
      {
        IdsDistinct(a, b);
      }
      FindFirstUnique(AllArchs, p, a);
    }
  }

  /** `fromStringOrNull(v)` is empty exactly when no id is `v`. */
  lemma FromStringOrNullNone(value: string)
    ensures FromStringOrNull(value).None? <==> forall a: Arch :: Id(a) != value
  {
    if FromStringOrNull(value).None? {
      forall a: Arch
        ensures Id(a) != value
      {
        AllArchsComplete(a);
      }
    }
  }

  // ---------------------------------------------------------------------
  // Bitness
  // ---------------------------------------------------------------------

  /**
   * Every constant but `UNKNOWN_UNKNOWN` has exactly one of the two
   * bitness markers in its name; `UNKNOWN_UNKNOWN` has neither and
   * reports 64.
   */
  lemma BitnessFacts(a: Arch)
    ensures Bitness(a) == 32 || Bitness(a) == 64
    ensures Bitness(a) == 32 <==> Is32Bit(a)
    ensures a != UnknownUnknown ==> (Is32Bit(a) <==> !Is64Bit(a))
    ensures a == UnknownUnknown ==> !Is32Bit(a) && !Is64Bit(a) && Bitness(a) == 64
  {
    UnknownUnknownHasNoBitness();
    OneBitnessMarker1();
    OneBitnessMarker2();
    OneBitnessMarker3();
    OneBitnessMarker4();
    OneBitnessMarker5();
    OneBitnessMarker6();
    OneBitnessMarker7();
    OneBitnessMarker8();
    OneBitnessMarker9();
    OneBitnessMarker10();
    OneBitnessMarker11();
    OneBitnessMarker12();
    OneBitnessMarker13();
    OneBitnessMarker14();
  }

  lemma OneBitnessMarker1()
    ensures Is32Bit(Unknown32) && !Is64Bit(Unknown32)
      && !Is32Bit(Unknown64) && Is64Bit(Unknown64)
  {
  }

  lemma OneBitnessMarker2()
    ensures !Is32Bit(Alpha64) && Is64Bit(Alpha64)
      && Is32Bit(Arm32) && !Is64Bit(Arm32)
  {
  }

  lemma OneBitnessMarker3()
    ensures Is32Bit(Arm32Be) && !Is64Bit(Arm32Be)
      && !Is32Bit(Arm64) && Is64Bit(Arm64)
  {
  }

  lemma OneBitnessMarker4()
    ensures !Is32Bit(Arm64Be) && Is64Bit(Arm64Be)
      && Is32Bit(Ia32) && !Is64Bit(Ia32)
  {
  }

  lemma OneBitnessMarker5()
    ensures !Is32Bit(Ia64) && Is64Bit(Ia64)
      && Is32Bit(Ibmz32) && !Is64Bit(Ibmz32)
  {
  }

  lemma OneBitnessMarker6()
    ensures !Is32Bit(Ibmz64) && Is64Bit(Ibmz64)
      && Is32Bit(M68k32) && !Is64Bit(M68k32)
  {
  }

  lemma OneBitnessMarker7()
    ensures Is32Bit(Mips32) && !Is64Bit(Mips32)
      && Is32Bit(Mips32Le) && !Is64Bit(Mips32Le)
  {
  }

  lemma OneBitnessMarker8()
    ensures !Is32Bit(Mips64) && Is64Bit(Mips64)
      && !Is32Bit(Mips64Le) && Is64Bit(Mips64Le)
  {
  }

  lemma OneBitnessMarker9()
    ensures Is32Bit(Ppc32) && !Is64Bit(Ppc32)
      && Is32Bit(Ppc32Le) && !Is64Bit(Ppc32Le)
  {
  }

  lemma OneBitnessMarker10()
    ensures !Is32Bit(Ppc64) && Is64Bit(Ppc64)
      && !Is32Bit(Ppc64Le) && Is64Bit(Ppc64Le)
  {
  }

  lemma OneBitnessMarker11()
    ensures Is32Bit(Riscv32) && !Is64Bit(Riscv32)
      && !Is32Bit(Riscv64) && Is64Bit(Riscv64)
  {
  }

  lemma OneBitnessMarker12()
    ensures Is32Bit(Sparc32) && !Is64Bit(Sparc32)
      && !Is32Bit(Sparc64) && Is64Bit(Sparc64)
  {
  }

  lemma OneBitnessMarker13()
    ensures Is32Bit(Superh32) && !Is64Bit(Superh32)
      && Is32Bit(Superh32Be) && !Is64Bit(Superh32Be)
  {
    assert Name(Superh32) == "SUPERH_32" && HasAt("SUPERH_32", 7, "32");
    assert Name(Superh32Be) == "SUPERH_32_BE" && HasAt("SUPERH_32_BE", 7, "32");
    assert !ContainsFrom("SUPERH_32_BE", "64", 6);
  }

  lemma OneBitnessMarker14()
    ensures Is32Bit(X86_32) && !Is64Bit(X86_32)
      && !Is32Bit(X86_64) && Is64Bit(X86_64)
  {
  }

  lemma UnknownUnknownHasNoBitness()
    ensures !Is32Bit(UnknownUnknown) && !Is64Bit(UnknownUnknown)
  {
    assert Name(UnknownUnknown) == "UNKNOWN_UNKNOWN";
    assert !ContainsFrom("UNKNOWN_UNKNOWN", "32", 8);
    assert !ContainsFrom("UNKNOWN_UNKNOWN", "64", 8);
  }

  // ---------------------------------------------------------------------
  // Families, as the constant names spell them
  // ---------------------------------------------------------------------

  /** The unknown family is the names with prefix `UNKNOWN_`. */
  lemma UnknownByName(a: Arch)
    ensures IsUnknown(a) <==> StartsWith(Name(a), "UNKNOWN_")
  {
  }

  /** The Itanium family is the names with prefix `IA_`. */
  lemma IaByName(a: Arch)
    ensures IsIa(a) <==> StartsWith(Name(a), "IA_")
  {
  }

  /** The IBM Z family is the names with prefix `IBMZ_`. */
  lemma IbmzByName(a: Arch)
    ensures IsIbmz(a) <==> StartsWith(Name(a), "IBMZ_")
  {
  }

  /** The RISC-V family is the names with prefix `RISCV_`. */
  lemma RiscvByName(a: Arch)
    ensures IsRiscv(a) <==> StartsWith(Name(a), "RISCV_")
  {
  }

  /** The SPARC family is the names with prefix `SPARC_`. */
  lemma SparcByName(a: Arch)
    ensures IsSparc(a) <==> StartsWith(Name(a), "SPARC_")
  {
  }

  /** The x86 family is the names with prefix `X86_`. */
  lemma X86ByName(a: Arch)
    ensures IsX86(a) <==> StartsWith(Name(a), "X86_")
  {
  }

  /** ARM splits into big- and little-endian by the `_BE` suffix. */
  lemma ArmByName(a: Arch)
    ensures IsArm(a) <==> StartsWith(Name(a), "ARM_")
    ensures IsArmBe(a) <==> IsArm(a) && EndsWith(Name(a), "_BE")
    ensures IsArmLe(a) <==> IsArm(a) && !EndsWith(Name(a), "_BE")
  {
    // one constant at a time keeps each name's literal small
    match a
    case UnknownUnknown =>
    case Unknown32 =>
    case Unknown64 =>
    case Alpha64 =>
    case Arm32 =>
    case Arm32Be =>
    case Arm64 =>
    case Arm64Be =>
    case Ia32 =>
    case Ia64 =>
    case Ibmz32 =>
    case Ibmz64 =>
    case M68k32 =>
    case Mips32 =>
    case Mips32Le =>
    case Mips64 =>
    case Mips64Le =>
    case Ppc32 =>
    case Ppc32Le =>
    case Ppc64 =>
    case Ppc64Le =>
    case Riscv32 =>
    case Riscv64 =>
    case Sparc32 =>
    case Sparc64 =>
    case Superh32 =>
    case Superh32Be =>
    case X86_32 =>
    case X86_64 =>
  }

  /** MIPS splits into little- and big-endian by the `_LE` suffix. */
  lemma MipsByName(a: Arch)
    ensures IsMips(a) <==> StartsWith(Name(a), "MIPS_")
    ensures IsMipsLe(a) <==> IsMips(a) && EndsWith(Name(a), "_LE")
    ensures IsMipsBe(a) <==> IsMips(a) && !EndsWith(Name(a), "_LE")
  {
    // one constant at a time keeps each name's literal small
    match a
    case UnknownUnknown =>
    case Unknown32 =>
    case Unknown64 =>
    case Alpha64 =>
    case Arm32 =>
    case Arm32Be =>
    case Arm64 =>
    case Arm64Be =>
    case Ia32 =>
    case Ia64 =>
    case Ibmz32 =>
    case Ibmz64 =>
    case M68k32 =>
    case Mips32 =>
    case Mips32Le =>
    case Mips64 =>
    case Mips64Le =>
    case Ppc32 =>
    case Ppc32Le =>
    case Ppc64 =>
    case Ppc64Le =>
    case Riscv32 =>
    case Riscv64 =>
    case Sparc32 =>
    case Sparc64 =>
    case Superh32 =>
    case Superh32Be =>
    case X86_32 =>
    case X86_64 =>
  }

  /** PowerPC splits into little- and big-endian by the `_LE` suffix. */
  lemma PpcByName(a: Arch)
    ensures IsPpc(a) <==> StartsWith(Name(a), "PPC_")
    ensures IsPpcLe(a) <==> IsPpc(a) && EndsWith(Name(a), "_LE")
    ensures IsPpcBe(a) <==> IsPpc(a) && !EndsWith(Name(a), "_LE")
  {
    // one constant at a time keeps each name's literal small
    match a
    case UnknownUnknown =>
    case Unknown32 =>
    case Unknown64 =>
    case Alpha64 =>
    case Arm32 =>
    case Arm32Be =>
    case Arm64 =>
    case Arm64Be =>
    case Ia32 =>
    case Ia64 =>
    case Ibmz32 =>
    case Ibmz64 =>
    case M68k32 =>
    case Mips32 =>
    case Mips32Le =>
    case Mips64 =>
    case Mips64Le =>
    case Ppc32 =>
    case Ppc32Le =>
    case Ppc64 =>
    case Ppc64Le =>
    case Riscv32 =>
    case Riscv64 =>
    case Sparc32 =>
    case Sparc64 =>
    case Superh32 =>
    case Superh32Be =>
    case X86_32 =>
    case X86_64 =>
  }

  // ---------------------------------------------------------------------
  // current()
  // ---------------------------------------------------------------------

  /**
   * `current()` answers an unknown constant only when `os.arch` misses the
   * table and `parse` knows no family either; the JVM's bitness then picks
   * among the unknowns, and otherwise `parse` is returned unchanged.
   */
  lemma CurrentFallback(props: Properties)
    ensures var key := Normalized(PropertyOr(props, "os.arch", ""), true);
      FastPath(key).Some? ==> Current(props) == FastPath(key).value
    ensures var it := PropertyOr(props, "os.arch", "");
      FastPath(Normalized(it, true)).None? ==>
        (!IsUnknown(Parse(it)) ==> Current(props) == Parse(it))
        && (IsUnknown(Parse(it)) && JvmBitness(props) == "32" ==> Current(props) == Unknown32)
        && (IsUnknown(Parse(it)) && JvmBitness(props) == "64" ==> Current(props) == Unknown64)
        && (IsUnknown(Parse(it)) && JvmBitness(props) != "32" && JvmBitness(props) != "64" ==> Current(props) == Parse(it))
    ensures IsUnknown(Current(props)) ==>
      FastPath(Normalized(PropertyOr(props, "os.arch", ""), true)).None?
      && IsUnknown(Parse(PropertyOr(props, "os.arch", "")))
  {
  }

  /** Without `os.arch` only the JVM's bitness is left to go on. */
  lemma CurrentWithoutOsArch(props: Properties)
    requires "os.arch" !in props
    ensures JvmBitness(props) == "32" ==> Current(props) == Unknown32
    ensures JvmBitness(props) == "64" ==> Current(props) == Unknown64
    ensures JvmBitness(props) != "32" && JvmBitness(props) != "64" ==> Current(props) == UnknownUnknown
    ensures CurrentOrNull(props).None?
  {
    NormalizeEmpty(true);
  }
}
