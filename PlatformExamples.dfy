/**
 * Concrete platforms: the architecture ids spelled out, the identifier
 * grammar checked on every architecture, the documented ordering and
 * round trips, the lenient constructors accepting an unknown
 * architecture, and `hasMusl` on the recorded `ldd` outputs.
 */
module PlatformExamples {
  import opened Wrappers
  import opened Strings
  import opened Host
  import opened Platform
  import Os
  import Arch
  import Env
  import Utils
  import OsExamples
  import ArchExamples
  import EnvExamples

  lemma ArchIdsSpelled1()
    ensures Arch.Id(Arch.UnknownUnknown) == "unknown-unknown"
      && Arch.Id(Arch.Unknown32) == "unknown-32"
  {
  }

  lemma ArchIdsSpelled2()
    ensures Arch.Id(Arch.Unknown64) == "unknown-64"
      && Arch.Id(Arch.Alpha64) == "alpha-64"
  {
  }

  lemma ArchIdsSpelled3()
    ensures Arch.Id(Arch.Arm32) == "arm-32"
      && Arch.Id(Arch.Arm32Be) == "arm-32-be"
  {
  }

  lemma ArchIdsSpelled4()
    ensures Arch.Id(Arch.Arm64) == "arm-64"
      && Arch.Id(Arch.Arm64Be) == "arm-64-be"
  {
  }

  lemma ArchIdsSpelled5()
    ensures Arch.Id(Arch.Ia32) == "ia-32"
      && Arch.Id(Arch.Ia64) == "ia-64"
  {
  }

  lemma ArchIdsSpelled6()
    ensures Arch.Id(Arch.Ibmz32) == "ibmz-32"
      && Arch.Id(Arch.Ibmz64) == "ibmz-64"
  {
  }

  lemma ArchIdsSpelled7()
    ensures Arch.Id(Arch.M68k32) == "m68k-32"
      && Arch.Id(Arch.Mips32) == "mips-32"
  {
  }

  lemma ArchIdsSpelled8()
    ensures Arch.Id(Arch.Mips32Le) == "mips-32-le"
      && Arch.Id(Arch.Mips64) == "mips-64"
  {
  }

  lemma ArchIdsSpelled9()
    ensures Arch.Id(Arch.Mips64Le) == "mips-64-le"
      && Arch.Id(Arch.Ppc32) == "ppc-32"
  {
  }

  lemma ArchIdsSpelled10()
    ensures Arch.Id(Arch.Ppc32Le) == "ppc-32-le"
      && Arch.Id(Arch.Ppc64) == "ppc-64"
  {
  }

  lemma ArchIdsSpelled11()
    ensures Arch.Id(Arch.Ppc64Le) == "ppc-64-le"
      && Arch.Id(Arch.Riscv32) == "riscv-32"
  {
  }

  lemma ArchIdsSpelled12()
    ensures Arch.Id(Arch.Riscv64) == "riscv-64"
      && Arch.Id(Arch.Sparc32) == "sparc-32"
  {
  }

  lemma ArchIdsSpelled13()
    ensures Arch.Id(Arch.Sparc64) == "sparc-64"
      && Arch.Id(Arch.Superh32) == "superh-32"
  {
  }

  lemma ArchIdsSpelled14()
    ensures Arch.Id(Arch.Superh32Be) == "superh-32-be"
      && Arch.Id(Arch.X86_32) == "x86-32"
  {
  }

  lemma ArchIdsSpelled15()
    ensures Arch.Id(Arch.X86_64) == "x86-64"
  {
  }

  lemma UnknownUnknownIdGrammar()
    ensures !DocumentedArchGrammar("unknown-unknown")
  {
  }

  lemma UnknownUnknownIdCorrectedGrammar()
    ensures ArchGrammar("unknown-unknown")
  {
    assert IndexOf("unknown-unknown", '-') == 7;
    assert LowerAlnumRun("unknown-unknown", 0, 7);
    assert HasAt("unknown-unknown", 8, "unknown");
  }

  lemma Unknown32IdGrammar()
    ensures DocumentedArchGrammar("unknown-32")
  {
  }

  lemma Unknown64IdGrammar()
    ensures DocumentedArchGrammar("unknown-64")
  {
  }

  lemma Alpha64IdGrammar()
    ensures DocumentedArchGrammar("alpha-64")
  {
  }

  lemma Arm32IdGrammar()
    ensures DocumentedArchGrammar("arm-32")
  {
  }

  lemma Arm32BeIdGrammar()
    ensures DocumentedArchGrammar("arm-32-be")
  {
  }

  lemma Arm64IdGrammar()
    ensures DocumentedArchGrammar("arm-64")
  {
  }

  lemma Arm64BeIdGrammar()
    ensures DocumentedArchGrammar("arm-64-be")
  {
  }

  lemma Ia32IdGrammar()
    ensures DocumentedArchGrammar("ia-32")
  {
  }

  lemma Ia64IdGrammar()
    ensures DocumentedArchGrammar("ia-64")
  {
  }

  lemma Ibmz32IdGrammar()
    ensures DocumentedArchGrammar("ibmz-32")
  {
  }

  lemma Ibmz64IdGrammar()
    ensures DocumentedArchGrammar("ibmz-64")
  {
  }

  lemma M68k32IdGrammar()
    ensures DocumentedArchGrammar("m68k-32")
  {
  }

  lemma Mips32IdGrammar()
    ensures DocumentedArchGrammar("mips-32")
  {
  }

  lemma Mips32LeIdGrammar()
    ensures DocumentedArchGrammar("mips-32-le")
  {
  }

  lemma Mips64IdGrammar()
    ensures DocumentedArchGrammar("mips-64")
  {
  }

  lemma Mips64LeIdGrammar()
    ensures DocumentedArchGrammar("mips-64-le")
  {
  }

  lemma Ppc32IdGrammar()
    ensures DocumentedArchGrammar("ppc-32")
  {
  }

  lemma Ppc32LeIdGrammar()
    ensures DocumentedArchGrammar("ppc-32-le")
  {
  }

  lemma Ppc64IdGrammar()
    ensures DocumentedArchGrammar("ppc-64")
  {
  }

  lemma Ppc64LeIdGrammar()
    ensures DocumentedArchGrammar("ppc-64-le")
  {
  }

  lemma Riscv32IdGrammar()
    ensures DocumentedArchGrammar("riscv-32")
  {
  }

  lemma Riscv64IdGrammar()
    ensures DocumentedArchGrammar("riscv-64")
  {
  }

  lemma Sparc32IdGrammar()
    ensures DocumentedArchGrammar("sparc-32")
  {
  }

  lemma Sparc64IdGrammar()
    ensures DocumentedArchGrammar("sparc-64")
  {
  }

  lemma Superh32IdGrammar()
    ensures DocumentedArchGrammar("superh-32")
  {
  }

  lemma Superh32BeIdGrammar()
    ensures DocumentedArchGrammar("superh-32-be")
  {
  }

  lemma X86_32IdGrammar()
    ensures DocumentedArchGrammar("x86-32")
  {
  }

  lemma X86_64IdGrammar()
    ensures DocumentedArchGrammar("x86-64")
  {
  }

  /** Every architecture id but `unknown-unknown` follows the documented grammar. */
  lemma ArchIdsFollowDocumentedGrammar(a: Arch.Arch)
    ensures DocumentedArchGrammar(Arch.Id(a)) <==> a != Arch.UnknownUnknown
  {
    match a
    case UnknownUnknown => ArchIdsSpelled1(); UnknownUnknownIdGrammar();
    case Unknown32 => ArchIdsSpelled1(); Unknown32IdGrammar();
    case Unknown64 => ArchIdsSpelled2(); Unknown64IdGrammar();
    case Alpha64 => ArchIdsSpelled2(); Alpha64IdGrammar();
    case Arm32 => ArchIdsSpelled3(); Arm32IdGrammar();
    case Arm32Be => ArchIdsSpelled3(); Arm32BeIdGrammar();
    case Arm64 => ArchIdsSpelled4(); Arm64IdGrammar();
    case Arm64Be => ArchIdsSpelled4(); Arm64BeIdGrammar();
    case Ia32 => ArchIdsSpelled5(); Ia32IdGrammar();
    case Ia64 => ArchIdsSpelled5(); Ia64IdGrammar();
    case Ibmz32 => ArchIdsSpelled6(); Ibmz32IdGrammar();
    case Ibmz64 => ArchIdsSpelled6(); Ibmz64IdGrammar();
    case M68k32 => ArchIdsSpelled7(); M68k32IdGrammar();
    case Mips32 => ArchIdsSpelled7(); Mips32IdGrammar();
    case Mips32Le => ArchIdsSpelled8(); Mips32LeIdGrammar();
    case Mips64 => ArchIdsSpelled8(); Mips64IdGrammar();
    case Mips64Le => ArchIdsSpelled9(); Mips64LeIdGrammar();
    case Ppc32 => ArchIdsSpelled9(); Ppc32IdGrammar();
    case Ppc32Le => ArchIdsSpelled10(); Ppc32LeIdGrammar();
    case Ppc64 => ArchIdsSpelled10(); Ppc64IdGrammar();
    case Ppc64Le => ArchIdsSpelled11(); Ppc64LeIdGrammar();
    case Riscv32 => ArchIdsSpelled11(); Riscv32IdGrammar();
    case Riscv64 => ArchIdsSpelled12(); Riscv64IdGrammar();
    case Sparc32 => ArchIdsSpelled12(); Sparc32IdGrammar();
    case Sparc64 => ArchIdsSpelled13(); Sparc64IdGrammar();
    case Superh32 => ArchIdsSpelled13(); Superh32IdGrammar();
    case Superh32Be => ArchIdsSpelled14(); Superh32BeIdGrammar();
    case X86_32 => ArchIdsSpelled14(); X86_32IdGrammar();
    case X86_64 => ArchIdsSpelled15(); X86_64IdGrammar();
  }

  /** With `unknown` admitted as the bitness, every architecture id fits. */
  lemma ArchIdsFollowArchGrammar(a: Arch.Arch)
    ensures ArchGrammar(Arch.Id(a))
  {
    if a == Arch.UnknownUnknown {
      ArchIdsSpelled1();
      UnknownUnknownIdCorrectedGrammar();
    } else {
      ArchIdsFollowDocumentedGrammar(a);
      DocumentedIsArchGrammar(Arch.Id(a));
    }
  }

  /**
   * The documented identifier grammar holds for every platform except those
   * on `UNKNOWN_UNKNOWN`, whose bitness segment is not a number.
   */
  lemma IdsFollowDocumentedGrammarUnlessUnknown(p: Platform)
    ensures DocumentedGrammar(Id(p)) <==> p.arch != Arch.UnknownUnknown
  {
    IdGrammarSplits(p);
    ArchIdsFollowDocumentedGrammar(p.arch);
  }

  /** With `unknown` admitted as the bitness, every identifier fits. */
  lemma IdsFollowIdGrammar(p: Platform)
    ensures IdGrammar(Id(p))
  {
    IdGrammarSplits(p);
    ArchIdsFollowArchGrammar(p.arch);
  }

  /** The smallest witness: `linux-unknown-unknown` escapes the documented grammar. */
  lemma LinuxUnknownUnknown()
    ensures Id(Platform(Os.Linux, Arch.UnknownUnknown)) == "linux-unknown-unknown"
    ensures !DocumentedGrammar(Id(Platform(Os.Linux, Arch.UnknownUnknown)))
    ensures IdGrammar(Id(Platform(Os.Linux, Arch.UnknownUnknown)))
  {
    OsExamples.IdsSpelled3();
    ArchIdsSpelled1();
    assert "linux" + "-" + "unknown-unknown" == "linux-unknown-unknown";
    IdsFollowDocumentedGrammarUnlessUnknown(Platform(Os.Linux, Arch.UnknownUnknown));
    IdsFollowIdGrammar(Platform(Os.Linux, Arch.UnknownUnknown));
  }


  /** The documented order: darwin-arm-64, then linux-x86-32, then windows-x86-64. */
  lemma CompareExamples()
    ensures CompareTo(Platform(Os.Darwin, Arch.Arm64), Platform(Os.Linux, Arch.X86_32)) < 0
    ensures CompareTo(Platform(Os.Linux, Arch.X86_32), Platform(Os.Windows, Arch.X86_64)) < 0
    ensures CompareTo(Platform(Os.Darwin, Arch.Arm64), Platform(Os.Windows, Arch.X86_64)) < 0
  {
    OsExamples.IdsSpelled1();
    OsExamples.IdsSpelled3();
    OsExamples.IdsSpelled5();
    CompareToIsOrder(Platform(Os.Darwin, Arch.Arm64), Platform(Os.Linux, Arch.X86_32), Platform(Os.Windows, Arch.X86_64));
  }

  /** `fromString` reads an identifier back. */
  lemma FromStringExample()
    ensures Id(Platform(Os.Linux, Arch.X86_64)) == "linux-x86-64"
    ensures FromString("linux-x86-64") == Ok(Platform(Os.Linux, Arch.X86_64))
  {
    OsExamples.IdsSpelled3();
    ArchIdsSpelled15();
    assert "linux" + "-" + "x86-64" == "linux-x86-64";
    FromStringOrNullOfId(Platform(Os.Linux, Arch.X86_64));
  }

  lemma NotAnOsIdUnknown()
    ensures forall os: Os.Os :: Os.Id(os) != "unknown"
  {
    forall os: Os.Os
      ensures Os.Id(os) != "unknown"
    {
      match os
      case Aix => OsExamples.IdsSpelled1();
      case Android => OsExamples.IdsSpelled1();
      case Darwin => OsExamples.IdsSpelled1();
      case DragonflyBsd => OsExamples.IdsSpelled1();
      case FreeBsd => OsExamples.IdsSpelled2();
      case Fuchsia => OsExamples.IdsSpelled2();
      case Haiku => OsExamples.IdsSpelled2();
      case HpUx => OsExamples.IdsSpelled2();
      case IbmI => OsExamples.IdsSpelled3();
      case Illumos => OsExamples.IdsSpelled3();
      case Linux => OsExamples.IdsSpelled3();
      case NetBsd => OsExamples.IdsSpelled3();
      case OpenBsd => OsExamples.IdsSpelled4();
      case Plan9 => OsExamples.IdsSpelled4();
      case Qnx => OsExamples.IdsSpelled4();
      case Redox => OsExamples.IdsSpelled4();
      case Solaris => OsExamples.IdsSpelled5();
      case VxWorks => OsExamples.IdsSpelled5();
      case Windows => OsExamples.IdsSpelled5();
      case ZOs => OsExamples.IdsSpelled5();
    }
  }

  /**
   * `fromStringOrNull` rejects the empty text, a text without a dash, a
   * text that starts with its dash, and one with fewer than two
   * characters after it.
   */
  lemma FromStringOrNullRejectsShapes()
    ensures FromStringOrNull("") == None
    ensures FromStringOrNull("linux") == None
    ensures FromStringOrNull("-x86-64") == None
    ensures FromStringOrNull("linux-6") == None
  {
    assert IndexOf("linux", '-') == -1;
    assert IndexOf("-x86-64", '-') == 0;
    assert IndexOf("linux-6", '-') == 5;
    if FromStringOrNull("") != None { FromStringOrNullShape(""); }
    if FromStringOrNull("linux") != None { FromStringOrNullShape("linux"); }
    if FromStringOrNull("-x86-64") != None { FromStringOrNullShape("-x86-64"); }
    if FromStringOrNull("linux-6") != None { FromStringOrNullShape("linux-6"); }
  }

  /** `fromStringOrNull` rejects an unknown operating system. */
  lemma FromStringOrNullRejectsUnknownOs()
    ensures FromStringOrNull("unknown-x86-64") == None
  {
    var value := "unknown-x86-64";
    assert IndexOf(value, '-') == 7;
    assert value[..7] == "unknown";
    NotAnOsIdUnknown();
    Os.FromStringOrNullNone("unknown");
  }

  /**
   * `parse` accepts an operating system alone, pairing it with
   * `UNKNOWN_UNKNOWN`, where `parseOrNull` answers nothing.
   */
  lemma ParseAcceptsUnknownArch()
    ensures Parse("linux") == Ok(Platform(Os.Linux, Arch.UnknownUnknown))
    ensures ParseOrNull("linux") == None
  {
    OsExamples.ParseOrNullLinux();
    ArchExamples.ParseLinux();
  }

  /** The properties of a Linux JVM on x86-64. */
  const LinuxAmd64: Properties := map["file.separator" := "/", "os.name" := "linux", "os.arch" := "amd64"]

  /** The properties of a JVM that names its system but not its architecture. */
  const LinuxOnly: Properties := map["file.separator" := "/", "os.name" := "linux"]

  lemma OsCurrentExamples()
    ensures Os.CurrentOrNull(LinuxAmd64) == Some(Os.Linux)
    ensures Os.CurrentOrNull(LinuxOnly) == Some(Os.Linux)
  {
    OsExamples.NormalizeLinux();
  }

  lemma ArchCurrentExample()
    ensures Arch.Current(LinuxAmd64) == Arch.X86_64
  {
    ArchExamples.NormalizeAmd64();
  }

  lemma ArchCurrentWithoutOsArch()
    ensures Arch.Current(LinuxOnly) == Arch.UnknownUnknown
  {
    Utils.NormalizeEmpty(true);
  }

  /** `current` and `currentOrNull` agree on a fully described host. */
  lemma CurrentExample()
    ensures Current(LinuxAmd64) == Ok(Platform(Os.Linux, Arch.X86_64))
    ensures CurrentOrNull(LinuxAmd64) == Some(Platform(Os.Linux, Arch.X86_64))
  {
    OsCurrentExamples();
    ArchCurrentExample();
    assert Arch.CurrentOrNull(LinuxAmd64) == Some(Arch.X86_64);
  }

  /**
   * Without `os.arch`, `current` pairs the system with `UNKNOWN_UNKNOWN`
   * and `currentOrNull` answers nothing.
   */
  lemma CurrentAcceptsUnknownArch()
    ensures Current(LinuxOnly) == Ok(Platform(Os.Linux, Arch.UnknownUnknown))
    ensures CurrentOrNull(LinuxOnly) == None
  {
    OsCurrentExamples();
    ArchCurrentWithoutOsArch();
    CurrentAgreesWithCurrentOrNull(LinuxOnly);
  }

  /** A musl `ldd` prints `musl` as the first word of its first line. */
  lemma AlpineHasMusl(readFails: bool)
    ensures HasMuslOf(Exited(Env.Bytes(EnvExamples.AlpineLdd), readFails))
  {
    var line := EnvExamples.AlpineLine;
    EnvExamples.AlpineLddIsByteText();
    HasMuslOfText(EnvExamples.AlpineLdd, line, readFails);
    var lowered := Env.Lowered(line);
    assert lowered[0] == 'm' && lowered[1] == 'u' && lowered[2] == 's' && lowered[3] == 'l' && lowered[4] == ' ';
    assert WordAt(lowered, 0, "musl");
    WordFromIsExists(lowered, "musl", 0);
  }

  /** A text without an `m` holds no word `musl`. */
  lemma NoMuslWithoutM(s: string)
    requires forall k :: 0 <= k < |s| ==> s[k] != 'm'
    ensures !ContainsWord(s, "musl")
  {
    WordFromIsExists(s, "musl", 0);
  }

  /** Byte text on one line without an `m` in either case. */
  predicate NoMOnLine(s: string) {
    forall k :: 0 <= k < |s| ==> s[k] as int < 256 && s[k] != 'm' && s[k] != 'M' && s[k] != '\n'
  }

  lemma NoMOnLineConcat(a: string, b: string)
    requires NoMOnLine(a) && NoMOnLine(b)
    ensures NoMOnLine(a + b)
  {
    forall k | 0 <= k < |a + b|
      ensures (a + b)[k] as int < 256 && (a + b)[k] != 'm' && (a + b)[k] != 'M' && (a + b)[k] != '\n'
    {
      if k >= |a| {
        assert (a + b)[k] == b[k - |a|];
      }
    }
  }

  lemma UbuntuPart1()
    ensures NoMOnLine("ldd (Ubu")
  {
  }

  lemma UbuntuPart2()
    ensures NoMOnLine("ntu GLIB")
  {
  }

  lemma UbuntuPart3()
    ensures NoMOnLine("C 2.31-0")
  {
  }

  lemma UbuntuPart4()
    ensures NoMOnLine("ubuntu9.")
  {
  }

  lemma UbuntuPart5()
    ensures NoMOnLine("2) 2.31")
  {
  }

  /** The first line a glibc `ldd` prints on Ubuntu. */
  const UbuntuLine := "ldd (Ubuntu GLIBC 2.31-0ubuntu9.2) 2.31"

  lemma UbuntuLineHasNoM()
    ensures NoMOnLine(UbuntuLine)
  {
    UbuntuPart1();
    UbuntuPart2();
    UbuntuPart3();
    UbuntuPart4();
    UbuntuPart5();
    NoMOnLineConcat("ldd (Ubu", "ntu GLIB");
    assert "ldd (Ubu" + "ntu GLIB" == "ldd (Ubuntu GLIB";
    NoMOnLineConcat("ldd (Ubuntu GLIB", "C 2.31-0");
    assert "ldd (Ubuntu GLIB" + "C 2.31-0" == "ldd (Ubuntu GLIBC 2.31-0";
    NoMOnLineConcat("ldd (Ubuntu GLIBC 2.31-0", "ubuntu9.");
    assert "ldd (Ubuntu GLIBC 2.31-0" + "ubuntu9." == "ldd (Ubuntu GLIBC 2.31-0ubuntu9.";
    NoMOnLineConcat("ldd (Ubuntu GLIBC 2.31-0ubuntu9.", "2) 2.31");
    assert "ldd (Ubuntu GLIBC 2.31-0ubuntu9." + "2) 2.31" == "ldd (Ubuntu GLIBC 2.31-0ubuntu9.2) 2.31";
  }

  /** A glibc `ldd` does not mention musl, whatever follows its first line. */
  lemma UbuntuHasNoMusl(rest: string, readFails: bool)
    requires Env.IsByteText(rest)
    ensures !HasMuslOf(Exited(Env.Bytes(UbuntuLine + "\n" + rest), readFails))
  {
    UbuntuLineHasNoM();
    var text := UbuntuLine + "\n" + rest;
    assert text[..|UbuntuLine|] == UbuntuLine && text[|UbuntuLine|] == '\n';
    assert Env.IsByteText(text) by {
      forall k | 0 <= k < |text|
        ensures text[k] as int < 256
      {
        if k > |UbuntuLine| {
          assert text[k] == rest[k - |UbuntuLine| - 1];
        } else if k < |UbuntuLine| {
          assert text[k] == UbuntuLine[k];
        }
      }
    }
    HasMuslOfText(text, UbuntuLine, readFails);
    NoMuslWithoutM(Env.Lowered(UbuntuLine));
  }

  /** A missing `ldd`, an interrupted wait and a hanging `ldd` all answer false. */
  lemma FailedRunsHaveNoMusl()
    ensures !HasMuslOf(StartFailed) && !HasMuslOf(Interrupted) && !HasMuslOf(TimedOut)
  {
  }
}
