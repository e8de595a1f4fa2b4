/**
 * `com.fleshgrinder.platform.Os`: the operating system enum, its ids, the
 * `currentOrNull()` switch over `os.name`, exact lookup by id, the word-bounded
 * `parseOrNull` cascade and the file-name extension tables.
 */
module Os {
  import opened Wrappers
  import opened Strings
  import opened Utils
  import opened Sequences
  import opened Host

  /** The enum constants, in declaration order. */
  datatype Os =
    | Aix | Android | Darwin | DragonflyBsd | FreeBsd | Fuchsia | Haiku | HpUx
    | IbmI | Illumos | Linux | NetBsd | OpenBsd | Plan9 | Qnx | Redox | Solaris
    | VxWorks | Windows | ZOs

  /** `Os.values()`. */
  const AllOs: seq<Os> := [
    Aix, Android, Darwin, DragonflyBsd, FreeBsd, Fuchsia, Haiku, HpUx, IbmI, Illumos,
    Linux, NetBsd, OpenBsd, Plan9, Qnx, Redox, Solaris, VxWorks, Windows, ZOs
  ]

  /** `name()`: the Java constant name. */
  function Name(os: Os): string {
    match os
    case Aix => "AIX"
    case Android => "ANDROID"
    case Darwin => "DARWIN"
    case DragonflyBsd => "DRAGONFLYBSD"
    case FreeBsd => "FREEBSD"
    case Fuchsia => "FUCHSIA"
    case Haiku => "HAIKU"
    case HpUx => "HPUX"
    case IbmI => "IBMI"
    case Illumos => "ILLUMOS"
    case Linux => "LINUX"
    case NetBsd => "NETBSD"
    case OpenBsd => "OPENBSD"
    case Plan9 => "PLAN9"
    case Qnx => "QNX"
    case Redox => "REDOX"
    case Solaris => "SOLARIS"
    case VxWorks => "VXWORKS"
    case Windows => "WINDOWS"
    case ZOs => "ZOS"
  }

  /** The `id` field, which `toString()` returns: `Utils.id(name())`. */
  function Id(os: Os): string {
    IdOf(Name(os))
  }

  // ---------------------------------------------------------------------
  // Lookup by id
  // ---------------------------------------------------------------------

  /** `Os.fromStringOrNull(value)`: the constant whose id is exactly `value`. */
  function FromStringOrNull(value: string): (r: Option<Os>)
    ensures r.Some? ==> Id(r.value) == value
  {
    FindFirst(AllOs, (os: Os) => Id(os) == value)
  }

  /** `Os.fromString(value)`: throws exactly where `fromStringOrNull` has no answer. */
  function FromString(value: string): (r: Result<Os>)
    ensures r.Ok? <==> FromStringOrNull(value).Some?
    ensures r.Ok? ==> Id(r.value) == value
    ensures r.Err? ==> r.failure == IllegalArgument("Unknown operating system: " + value)
  {
    match FromStringOrNull(value)
    case Some(os) => Ok(os)
    case None => Err(IllegalArgument("Unknown operating system: " + value))
  }

  // ---------------------------------------------------------------------
  // The regular expressions of `parseOrNull`, over dash-normalised text.
  // Each `\b(a|b|...)\b` is a whole-word match of one of the alternatives.
  // ---------------------------------------------------------------------

  /** `(\d|\d\d|xp)?\b` at `j`. */
  predicate WinTailAt(s: string, j: int) {
    WordBoundary(s, j)
    || (DigitAt(s, j) && WordBoundary(s, j + 1))
    || (DigitAt(s, j) && DigitAt(s, j + 1) && WordBoundary(s, j + 2))
    || (HasAt(s, j, "xp") && WordBoundary(s, j + 2))
  }

  /** `\bwin(dows)?(\d|\d\d|xp)?\b` matches at `i`. */
  predicate WinAt(s: string, i: int) {
    WordBoundary(s, i)
    && ((HasAt(s, i, "win") && WinTailAt(s, i + 3)) || (HasAt(s, i, "windows") && WinTailAt(s, i + 7)))
  }

  /** `\b(w(7|8|1[01]|32|64|xp)|win(dows)?(\d|\d\d|xp)?)\b`. */
  predicate WindowsWord(s: string) {
    ContainsWord(s, "w7") || ContainsWord(s, "w8") || ContainsWord(s, "w10") || ContainsWord(s, "w11")
    || ContainsWord(s, "w32") || ContainsWord(s, "w64") || ContainsWord(s, "wxp")
    || Matches(WinAt, s)
  }

  /** `\b(linux|u?nix)\b`. */
  predicate LinuxWord(s: string) {
    ContainsWord(s, "linux") || ContainsWord(s, "nix") || ContainsWord(s, "unix")
  }

  /** `\b(apple|darwin|ios|mac(osx?)?|os-?x)\b`. */
  predicate DarwinWord(s: string) {
    ContainsWord(s, "apple") || ContainsWord(s, "darwin") || ContainsWord(s, "ios")
    || ContainsWord(s, "mac") || ContainsWord(s, "macos") || ContainsWord(s, "macosx")
    || ContainsWord(s, "osx") || ContainsWord(s, "os-x")
  }

  /** `\bdragon-?fly(bsd)?\b`. */
  predicate DragonflyWord(s: string) {
    ContainsWord(s, "dragonfly") || ContainsWord(s, "dragon-fly")
    || ContainsWord(s, "dragonflybsd") || ContainsWord(s, "dragon-flybsd")
  }

  /** `\b(ibm-?i|os-?400)\b`. */
  predicate IbmIWord(s: string) {
    ContainsWord(s, "ibmi") || ContainsWord(s, "ibm-i") || ContainsWord(s, "os400") || ContainsWord(s, "os-400")
  }

  /** `\b(s(olaris|un-?os))\b`. */
  predicate SolarisWord(s: string) {
    ContainsWord(s, "solaris") || ContainsWord(s, "sunos") || ContainsWord(s, "sun-os")
  }

  /** The cascade of `parseOrNull` over normalised text that is no id. */
  function Classify(it: string): Option<Os> {
    if ContainsWord(it, "android") then Some(Android)
    else if LinuxWord(it) then Some(Linux)
    else if DarwinWord(it) then Some(Darwin)
    else if WindowsWord(it) then Some(Windows)
    else if ContainsWord(it, "aix") then Some(Aix)
    else if DragonflyWord(it) then Some(DragonflyBsd)
    else if ContainsWord(it, "freebsd") || ContainsWord(it, "free-bsd") then Some(FreeBsd)
    else if ContainsWord(it, "fuchsia") then Some(Fuchsia)
    else if ContainsWord(it, "haiku") then Some(Haiku)
    else if ContainsWord(it, "hpux") || ContainsWord(it, "hp-ux") then Some(HpUx)
    else if IbmIWord(it) then Some(IbmI)
    else if ContainsWord(it, "illum") || ContainsWord(it, "illumos") then Some(Illumos)
    else if ContainsWord(it, "netbsd") || ContainsWord(it, "net-bsd") then Some(NetBsd)
    else if ContainsWord(it, "openbsd") || ContainsWord(it, "open-bsd") then Some(OpenBsd)
    else if ContainsWord(it, "plan9") || ContainsWord(it, "plan-9") then Some(Plan9)
    else if ContainsWord(it, "qnx") || ContainsWord(it, "procnto") then Some(Qnx)
    else if ContainsWord(it, "redox") then Some(Redox)
    else if SolarisWord(it) then Some(Solaris)
    else if ContainsWord(it, "vxworks") || ContainsWord(it, "vx-works") then Some(VxWorks)
    else if ContainsWord(it, "zos") || ContainsWord(it, "z-os") then Some(ZOs)
    else None
  }

  /**
   * `Os.parseOrNull(value)`: nothing for empty text; else the constant whose
   * id is the normalised text, else the first rule of the cascade that matches.
   */
  function ParseOrNull(value: string): (r: Option<Os>)
    ensures |value| == 0 ==> r == None
    ensures |value| > 0 && (exists k :: 0 <= k < |AllOs| && Id(AllOs[k]) == Normalized(value, false)) ==>
      r.Some? && Id(r.value) == Normalized(value, false)
  {
    if |value| == 0 then None
    else
      var it := Normalized(value, false);
      var exact := FindFirst(AllOs, (os: Os) => Id(os) == it);
      if exact.Some? then exact else Classify(it)
  }

  /** `Os.parse(value)`: throws exactly where `parseOrNull` has no answer. */
  function Parse(value: string): (r: Result<Os>)
    ensures r.Ok? <==> ParseOrNull(value).Some?
    ensures r.Ok? ==> r.value == ParseOrNull(value).value
    ensures r.Err? ==> r.failure == IllegalArgument("Unknown operating system: " + value)
  {
    match ParseOrNull(value)
    case Some(os) => Ok(os)
    case None => Err(IllegalArgument("Unknown operating system: " + value))
  }

  // ---------------------------------------------------------------------
  // currentOrNull()
  // ---------------------------------------------------------------------

  /** `String.equalsIgnoreCase` for ASCII text. */
  predicate EqualsIgnoreCase(a: string, b: string) {
    |a| == |b| && forall k :: 0 <= k < |a| ==> LowerAscii(a[k]) == LowerAscii(b[k])
  }

  /**
   * The `switch` of `currentOrNull()`, keyed on the strip-normalised
   * `os.name`; `linux` is told apart from Android by the VM's name.
   */
  function FastPath(key: string, vmName: string): (r: Option<Os>)
    ensures r == Some(Android) <==> key == "linux" && EqualsIgnoreCase("dalvik", vmName)
    ensures r != Some(Windows)
  {
    match key
    case "aix" => Some(Aix)
    case "linux" => if EqualsIgnoreCase("dalvik", vmName) then Some(Android) else Some(Linux)
    case "darwin" => Some(Darwin)
    case "macosx" => Some(Darwin)
    case "macos" => Some(Darwin)
    case "dragonflybsd" => Some(DragonflyBsd)
    case "freebsd" => Some(FreeBsd)
    case "fuchsia" => Some(Fuchsia)
    case "haiku" => Some(Haiku)
    case "hpux" => Some(HpUx)
    case "os400" => Some(IbmI)
    case "illumos" => Some(Illumos)
    case "netbsd" => Some(NetBsd)
    case "openbsd" => Some(OpenBsd)
    case "plan9" => Some(Plan9)
    case "qnx" => Some(Qnx)
    case "procnto" => Some(Qnx)
    case "redox" => Some(Redox)
    case "solaris" => Some(Solaris)
    case "sunos" => Some(Solaris)
    case "vxworks" => Some(VxWorks)
    case "zos" => Some(ZOs)
    case _ => None
  }

  /**
   * `Os.currentOrNull()` over a snapshot of the system properties: a `\`
   * file separator means Windows; without `os.name` there is no answer;
   * else the switch, and `parseOrNull` of `os.name` for any other key.
   */
  function CurrentOrNull(props: Properties): (r: Option<Os>)
    ensures Property(props, "file.separator") == Some("\\") ==> r == Some(Windows)
    ensures r.Some? ==> Property(props, "file.separator") == Some("\\") || "os.name" in props
  {
    if Property(props, "file.separator") == Some("\\") then Some(Windows)
    else if "os.name" !in props then None
    else
      var it := props["os.name"];
      var fast := FastPath(Normalized(it, true), PropertyOr(props, "java.vm.name", ""));
      if fast.Some? then fast else ParseOrNull(it)
  }

  /** `Os.current()`: throws exactly where `currentOrNull` has no answer. */
  function Current(props: Properties): (r: Result<Os>)
    ensures r.Ok? <==> CurrentOrNull(props).Some?
    ensures r.Ok? ==> r.value == CurrentOrNull(props).value
    ensures r.Err? ==>
      r.failure == IllegalState("Unknown operating system: " + PropertyOr(props, "os.name", "missing 'os.name' system property"))
  {
    match CurrentOrNull(props)
    case Some(os) => Ok(os)
    case None =>
      Err(IllegalState("Unknown operating system: " + PropertyOr(props, "os.name", "missing 'os.name' system property")))
  }

  // ---------------------------------------------------------------------
  // File-name extensions
  // ---------------------------------------------------------------------

  /** `getExecutableExtension()`. */
  function ExecutableExtension(os: Os): string {
    if os == Windows then ".exe" else ""
  }

  /** `withExecutableExtension(String)`: only Windows appends anything. */
  function WithExecutableExtension(os: Os, path: string): (r: string)
    ensures r == path + ExecutableExtension(os)
  {
    if os == Windows then path + ExecutableExtension(os) else path
  }

  /** `getLinkLibraryExtension()`. */
  function LinkLibraryExtension(os: Os): string {
    if os == Windows then ".lib" else ".so"
  }

  /** `withLinkLibraryExtension(String)`. */
  function WithLinkLibraryExtension(os: Os, path: string): (r: string)
    ensures |r| == |path| + |LinkLibraryExtension(os)|
    ensures r[..|path|] == path && r[|path|..] == LinkLibraryExtension(os)
  {
    path + LinkLibraryExtension(os)
  }

  /** `getSharedLibraryExtension()`. */
  function SharedLibraryExtension(os: Os): string {
    if os == Windows then ".dll" else if os == Darwin then ".dylib" else ".so"
  }

  /** `withSharedLibraryExtension(String)`. */
  function WithSharedLibraryExtension(os: Os, path: string): (r: string)
    ensures |r| == |path| + |SharedLibraryExtension(os)|
    ensures r[..|path|] == path && r[|path|..] == SharedLibraryExtension(os)
  {
    path + SharedLibraryExtension(os)
  }

  /** `getStaticLibraryExtension()`. */
  function StaticLibraryExtension(os: Os): string {
    if os == Windows then ".lib" else ".a"
  }

  /** `withStaticLibraryExtension(String)`. */
  function WithStaticLibraryExtension(os: Os, path: string): (r: string)
    ensures |r| == |path| + |StaticLibraryExtension(os)|
    ensures r[..|path|] == path && r[|path|..] == StaticLibraryExtension(os)
  {
    path + StaticLibraryExtension(os)
  }

  /**
   * The extension table: Windows alone has an executable extension and
   * links against its static `.lib`; Darwin alone uses `.dylib`; every
   * other system uses `.so` and `.a`. Every extension is empty or starts
   * with a dot.
   */
  lemma ExtensionTable(os: Os)
    ensures ExecutableExtension(os) != "" <==> os == Windows
    ensures LinkLibraryExtension(os) == StaticLibraryExtension(os) <==> os == Windows
    ensures SharedLibraryExtension(os) == ".dylib" <==> os == Darwin
    ensures SharedLibraryExtension(os) == ".so" <==> os != Windows && os != Darwin
    ensures os != Windows ==> LinkLibraryExtension(os) == ".so" && StaticLibraryExtension(os) == ".a"
    ensures |LinkLibraryExtension(os)| > 1 && LinkLibraryExtension(os)[0] == '.'
    ensures |SharedLibraryExtension(os)| > 1 && SharedLibraryExtension(os)[0] == '.'
    ensures |StaticLibraryExtension(os)| > 1 && StaticLibraryExtension(os)[0] == '.'
    ensures ExecutableExtension(os) == "" || ExecutableExtension(os)[0] == '.'
  {
  }

  // ---------------------------------------------------------------------
  // Ids
  // ---------------------------------------------------------------------

  lemma AllOsComplete(os: Os)
    ensures os in AllOs
  {
  }

  /** `[A-Z][A-Z0-9]*`: the shape of every constant name. */
  predicate IsUpperAlnumWord(s: string) {
    |s| > 0 && IsUpper(s[0]) && forall k :: 0 <= k < |s| ==> IsUpper(s[k]) || IsDigit(s[k])
  }

  /** `^[a-z][a-z0-9]*$`: the shape the documentation promises for every id. */
  predicate IsLowerAlnumWord(s: string) {
    |s| > 0 && IsLower(s[0]) && forall k :: 0 <= k < |s| ==> IsLower(s[k]) || IsDigit(s[k])
  }

  lemma NamesAreUpperAlnum(os: Os)
    ensures IsUpperAlnumWord(Name(os))
  {
    NamesAreUpperAlnum1();
    NamesAreUpperAlnum2();
    NamesAreUpperAlnum3();
    NamesAreUpperAlnum4();
    NamesAreUpperAlnum5();
  }

  lemma NamesAreUpperAlnum1()
    ensures IsUpperAlnumWord(Name(Aix)) && IsUpperAlnumWord(Name(Android))
      && IsUpperAlnumWord(Name(Darwin)) && IsUpperAlnumWord(Name(DragonflyBsd))
  {
  }

  lemma NamesAreUpperAlnum2()
    ensures IsUpperAlnumWord(Name(FreeBsd)) && IsUpperAlnumWord(Name(Fuchsia))
      && IsUpperAlnumWord(Name(Haiku)) && IsUpperAlnumWord(Name(HpUx))
  {
  }

  lemma NamesAreUpperAlnum3()
    ensures IsUpperAlnumWord(Name(IbmI)) && IsUpperAlnumWord(Name(Illumos))
      && IsUpperAlnumWord(Name(Linux)) && IsUpperAlnumWord(Name(NetBsd))
  {
  }

  lemma NamesAreUpperAlnum4()
    ensures IsUpperAlnumWord(Name(OpenBsd)) && IsUpperAlnumWord(Name(Plan9))
      && IsUpperAlnumWord(Name(Qnx)) && IsUpperAlnumWord(Name(Redox))
  {
  }

  lemma NamesAreUpperAlnum5()
    ensures IsUpperAlnumWord(Name(Solaris)) && IsUpperAlnumWord(Name(VxWorks))
      && IsUpperAlnumWord(Name(Windows)) && IsUpperAlnumWord(Name(ZOs))
  {
  }

  /** Every id is a lower-case letter followed by letters and digits; in particular it holds no `-`. */
  lemma IdsAreLowerAlnum(os: Os)
    ensures IsLowerAlnumWord(Id(os))
    ensures '-' !in Id(os)
    ensures |Id(os)| == |Name(os)|
  {
    NamesAreUpperAlnum(os);
    var n := Name(os);
    assert IdChar(n[0]) == Id(os)[0];
    forall k | 0 <= k < |n|
      ensures IsLower(Id(os)[k]) || IsDigit(Id(os)[k])
    {
      assert IdChar(n[k]) == Id(os)[k];
    }
  }

  lemma NameInjective(a: Os, b: Os)
    requires Name(a) == Name(b)
    ensures a == b
  {
  }

  /** Distinct constants have distinct ids. */
  lemma IdsDistinct(a: Os, b: Os)
    requires Id(a) == Id(b)
    ensures a == b
  {
    NamesAreUpperAlnum(a);
    NamesAreUpperAlnum(b);
    Utils.IdInjective(Name(a), Name(b));
    NameInjective(a, b);
  }

  /** `fromStringOrNull(v)` is `os` exactly when `v` is the id of `os`: `fromStringOrNull(os.toString()) == os`. */
  lemma FromStringOrNullIsIdLookup(value: string, os: Os)
    ensures FromStringOrNull(value) == Some(os) <==> value == Id(os)
  {
    var p := (o: Os) => Id(o) == value;
    if value == Id(os) {
      AllOsComplete(os);
      forall o | o in AllOs && p(o)
        ensures o == os
      {
        IdsDistinct(os, o);
      }
      FindFirstUnique(AllOs, p, os);
    }
  }

  /** `fromStringOrNull(v)` is empty exactly when no id is `v`. */
  lemma FromStringOrNullNone(value: string)
    ensures FromStringOrNull(value).None? <==> forall os: Os :: Id(os) != value
  {
    if FromStringOrNull(value).None? {
      forall os: Os
        ensures Id(os) != value
      {
        AllOsComplete(os);
      }
    }
  }

  // ---------------------------------------------------------------------
  // parseOrNull
  // ---------------------------------------------------------------------

  /** A whole word inside text made of word characters only is the whole text. */
  lemma WordInWordIsWhole(s: string, w: string, k: int)
    requires IsLowerAlnumWord(s) && |w| > 0
    requires WordAt(s, k, w)
    ensures k == 0 && |w| == |s| && s == w
  {
    if k > 0 {
      assert IsWordChar(s[k - 1]) && IsWordChar(s[k]);
      assert false;
    }
    if k + |w| < |s| {
      assert IsWordChar(s[k + |w| - 1]) && IsWordChar(s[k + |w|]);
      assert false;
    }
    HasAtIsSlice(s, k, w);
  }

  /** Empty text has no operating system, and every id names its own constant. */
  lemma ParseOrNullOfId(os: Os)
    ensures ParseOrNull("") == None
    ensures ParseOrNull(Id(os)) == Some(os)
  {
    IdsAreLowerAlnum(os);
    NormalizeFixedPoint(Id(os), false);
    FromStringOrNullIsIdLookup(Id(os), os);
  }

  /** A non-empty text whose normal form is no id is decided by the rules alone. */
  lemma ParseOrNullNoId(value: string)
    requires |value| > 0
    requires forall os: Os :: Id(os) != Normalized(value, false)
    ensures ParseOrNull(value) == Classify(Normalized(value, false))
  {
    FromStringOrNullNone(Normalized(value, false));
  }

  /** The only id with the whole word `android` in it is Android's own. */
  lemma AndroidWordInId(os: Os)
    requires ContainsWord(Id(os), "android")
    ensures os == Android
  {
    IdsAreLowerAlnum(os);
    WordFromIsExists(Id(os), "android", 0);
    var k :| 0 <= k && WordAt(Id(os), k, "android");
    WordInWordIsWhole(Id(os), "android", k);
    AndroidId();
    IdsDistinct(os, Android);
  }

  lemma AndroidId()
    ensures Id(Android) == "android"
  {
  }

  /**
   * Android comes before Linux: any text whose normalised form has the
   * whole word `android` is Android, whatever else it mentions.
   */
  lemma AndroidBeforeLinux(value: string)
    requires ContainsWord(Normalized(value, false), "android")
    ensures ParseOrNull(value) == Some(Android)
  {
    var it := Normalized(value, false);
    var exact := FindFirst(AllOs, (os: Os) => Id(os) == it);
    if exact.Some? {
      AndroidWordInId(exact.value);
    }
  }

  // ---------------------------------------------------------------------
  // currentOrNull()
  // ---------------------------------------------------------------------

  /**
   * A `\` file separator means Windows whatever `os.name` says; otherwise
   * a missing `os.name` has no answer, and `current()` reports it missing.
   */
  lemma CurrentWithoutOsName(props: Properties)
    ensures Property(props, "file.separator") == Some("\\") ==> CurrentOrNull(props) == Some(Windows)
    ensures Property(props, "file.separator") != Some("\\") && "os.name" !in props ==>
      CurrentOrNull(props) == None
      && Current(props) == Err(IllegalState("Unknown operating system: missing 'os.name' system property"))
  {
    if Property(props, "file.separator") != Some("\\") && "os.name" !in props {
      assert "Unknown operating system: " + "missing 'os.name' system property"
        == "Unknown operating system: missing 'os.name' system property";
    }
  }
}
