/**
 * Concrete answers of `Os.parseOrNull` and of the `currentOrNull()` switch:
 * every key of the switch agrees with `parseOrNull`, and the documented
 * examples land where the rule order and the word boundaries put them.
 */
module OsExamples {
  import opened Wrappers
  import opened Strings
  import Utils
  import opened Host
  import opened Os

  lemma IdsSpelled1()
    ensures Id(Aix) == "aix"
      && Id(Android) == "android"
      && Id(Darwin) == "darwin"
      && Id(DragonflyBsd) == "dragonflybsd"
  {
  }

  lemma IdsSpelled2()
    ensures Id(FreeBsd) == "freebsd"
      && Id(Fuchsia) == "fuchsia"
      && Id(Haiku) == "haiku"
      && Id(HpUx) == "hpux"
  {
  }

  lemma IdsSpelled3()
    ensures Id(IbmI) == "ibmi"
      && Id(Illumos) == "illumos"
      && Id(Linux) == "linux"
      && Id(NetBsd) == "netbsd"
  {
  }

  lemma IdsSpelled4()
    ensures Id(OpenBsd) == "openbsd"
      && Id(Plan9) == "plan9"
      && Id(Qnx) == "qnx"
      && Id(Redox) == "redox"
  {
  }

  lemma IdsSpelled5()
    ensures Id(Solaris) == "solaris"
      && Id(VxWorks) == "vxworks"
      && Id(Windows) == "windows"
      && Id(ZOs) == "zos"
  {
  }

  /** The ids, spelled out. */
  lemma IdsSpelled()
    ensures Id(Aix) == "aix"
      && Id(Android) == "android"
      && Id(Darwin) == "darwin"
      && Id(DragonflyBsd) == "dragonflybsd"
      && Id(FreeBsd) == "freebsd"
      && Id(Fuchsia) == "fuchsia"
      && Id(Haiku) == "haiku"
      && Id(HpUx) == "hpux"
      && Id(IbmI) == "ibmi"
      && Id(Illumos) == "illumos"
      && Id(Linux) == "linux"
      && Id(NetBsd) == "netbsd"
      && Id(OpenBsd) == "openbsd"
      && Id(Plan9) == "plan9"
      && Id(Qnx) == "qnx"
      && Id(Redox) == "redox"
      && Id(Solaris) == "solaris"
      && Id(VxWorks) == "vxworks"
      && Id(Windows) == "windows"
      && Id(ZOs) == "zos"
  {
    IdsSpelled1();
    IdsSpelled2();
    IdsSpelled3();
    IdsSpelled4();
    IdsSpelled5();
  }

  lemma NormalizeAix()
    ensures Utils.Normalized("aix", false) == "aix"
    ensures Utils.Normalized("aix", true) == "aix"
  {
    assert Utils.Normalized("aix", false) == Utils.NormalizedPrefix("aix", 3, false);
    assert Utils.Normalized("aix", true) == Utils.NormalizedPrefix("aix", 3, true);
  }

  lemma ParseOrNullAix()
    ensures ParseOrNull("aix") == Some(Aix)
  {
    ParseOrNullOfId(Aix);
    IdsSpelled();
  }

  lemma NormalizeDarwin()
    ensures Utils.Normalized("darwin", false) == "darwin"
    ensures Utils.Normalized("darwin", true) == "darwin"
  {
    assert Utils.Normalized("darwin", false) == Utils.NormalizedPrefix("darwin", 6, false);
    assert Utils.Normalized("darwin", true) == Utils.NormalizedPrefix("darwin", 6, true);
  }

  lemma ParseOrNullDarwin()
    ensures ParseOrNull("darwin") == Some(Darwin)
  {
    ParseOrNullOfId(Darwin);
    IdsSpelled();
  }

  lemma MacosxSkipsRule1()
    ensures !ContainsWord("macosx", "android")
  {
  }

  lemma MacosxSkipsRule2()
    ensures !LinuxWord("macosx")
  {
  }

  lemma MacosxMatchesRule3()
    ensures DarwinWord("macosx")
  {
  }

  lemma ClassifyMacosx()
    ensures Classify("macosx") == Some(Darwin)
  {
    MacosxSkipsRule1();
    MacosxSkipsRule2();
    MacosxMatchesRule3();
  }

  lemma NormalizeMacosx()
    ensures Utils.Normalized("macosx", false) == "macosx"
    ensures Utils.Normalized("macosx", true) == "macosx"
  {
    assert Utils.Normalized("macosx", false) == Utils.NormalizedPrefix("macosx", 6, false);
    assert Utils.Normalized("macosx", true) == Utils.NormalizedPrefix("macosx", 6, true);
  }

  lemma ParseOrNullMacosx()
    ensures ParseOrNull("macosx") == Some(Darwin)
  {
    NormalizeMacosx();
    ClassifyMacosx();
    NotAnIdMacosx();
    ParseOrNullNoId("macosx");
  }

  lemma NotAnIdMacosx()
    ensures forall os: Os :: Id(os) != "macosx"
  {
    forall os: Os
      ensures Id(os) != "macosx"
    {
      match os
      case Aix => IdsSpelled1();
      case Android => IdsSpelled1();
      case Darwin => IdsSpelled1();
      case DragonflyBsd => IdsSpelled1();
      case FreeBsd => IdsSpelled2();
      case Fuchsia => IdsSpelled2();
      case Haiku => IdsSpelled2();
      case HpUx => IdsSpelled2();
      case IbmI => IdsSpelled3();
      case Illumos => IdsSpelled3();
      case Linux => IdsSpelled3();
      case NetBsd => IdsSpelled3();
      case OpenBsd => IdsSpelled4();
      case Plan9 => IdsSpelled4();
      case Qnx => IdsSpelled4();
      case Redox => IdsSpelled4();
      case Solaris => IdsSpelled5();
      case VxWorks => IdsSpelled5();
      case Windows => IdsSpelled5();
      case ZOs => IdsSpelled5();
    }
  }

  lemma MacosSkipsRule1()
    ensures !ContainsWord("macos", "android")
  {
  }

  lemma MacosSkipsRule2()
    ensures !LinuxWord("macos")
  {
  }

  lemma MacosMatchesRule3()
    ensures DarwinWord("macos")
  {
  }

  lemma ClassifyMacos()
    ensures Classify("macos") == Some(Darwin)
  {
    MacosSkipsRule1();
    MacosSkipsRule2();
    MacosMatchesRule3();
  }

  lemma NormalizeMacos()
    ensures Utils.Normalized("macos", false) == "macos"
    ensures Utils.Normalized("macos", true) == "macos"
  {
    assert Utils.Normalized("macos", false) == Utils.NormalizedPrefix("macos", 5, false);
    assert Utils.Normalized("macos", true) == Utils.NormalizedPrefix("macos", 5, true);
  }

  lemma ParseOrNullMacos()
    ensures ParseOrNull("macos") == Some(Darwin)
  {
    NormalizeMacos();
    ClassifyMacos();
    NotAnIdMacos();
    ParseOrNullNoId("macos");
  }

  lemma NotAnIdMacos()
    ensures forall os: Os :: Id(os) != "macos"
  {
    forall os: Os
      ensures Id(os) != "macos"
    {
      match os
      case Aix => IdsSpelled1();
      case Android => IdsSpelled1();
      case Darwin => IdsSpelled1();
      case DragonflyBsd => IdsSpelled1();
      case FreeBsd => IdsSpelled2();
      case Fuchsia => IdsSpelled2();
      case Haiku => IdsSpelled2();
      case HpUx => IdsSpelled2();
      case IbmI => IdsSpelled3();
      case Illumos => IdsSpelled3();
      case Linux => IdsSpelled3();
      case NetBsd => IdsSpelled3();
      case OpenBsd => IdsSpelled4();
      case Plan9 => IdsSpelled4();
      case Qnx => IdsSpelled4();
      case Redox => IdsSpelled4();
      case Solaris => IdsSpelled5();
      case VxWorks => IdsSpelled5();
      case Windows => IdsSpelled5();
      case ZOs => IdsSpelled5();
    }
  }

  lemma NormalizeDragonflybsd()
    ensures Utils.Normalized("dragonflybsd", false) == "dragonflybsd"
    ensures Utils.Normalized("dragonflybsd", true) == "dragonflybsd"
  {
    assert Utils.NormalizedPrefix("dragonflybsd", 6, false) == "dragon";
    assert Utils.Normalized("dragonflybsd", false) == Utils.NormalizedPrefix("dragonflybsd", 12, false);
    assert Utils.NormalizedPrefix("dragonflybsd", 6, true) == "dragon";
    assert Utils.Normalized("dragonflybsd", true) == Utils.NormalizedPrefix("dragonflybsd", 12, true);
  }

  lemma ParseOrNullDragonflybsd()
    ensures ParseOrNull("dragonflybsd") == Some(DragonflyBsd)
  {
    ParseOrNullOfId(DragonflyBsd);
    IdsSpelled();
  }

  lemma NormalizeFreebsd()
    ensures Utils.Normalized("freebsd", false) == "freebsd"
    ensures Utils.Normalized("freebsd", true) == "freebsd"
  {
    assert Utils.Normalized("freebsd", false) == Utils.NormalizedPrefix("freebsd", 7, false);
    assert Utils.Normalized("freebsd", true) == Utils.NormalizedPrefix("freebsd", 7, true);
  }

  lemma ParseOrNullFreebsd()
    ensures ParseOrNull("freebsd") == Some(FreeBsd)
  {
    ParseOrNullOfId(FreeBsd);
    IdsSpelled();
  }

  lemma NormalizeFuchsia()
    ensures Utils.Normalized("fuchsia", false) == "fuchsia"
    ensures Utils.Normalized("fuchsia", true) == "fuchsia"
  {
    assert Utils.Normalized("fuchsia", false) == Utils.NormalizedPrefix("fuchsia", 7, false);
    assert Utils.Normalized("fuchsia", true) == Utils.NormalizedPrefix("fuchsia", 7, true);
  }

  lemma ParseOrNullFuchsia()
    ensures ParseOrNull("fuchsia") == Some(Fuchsia)
  {
    ParseOrNullOfId(Fuchsia);
    IdsSpelled();
  }

  lemma NormalizeHaiku()
    ensures Utils.Normalized("haiku", false) == "haiku"
    ensures Utils.Normalized("haiku", true) == "haiku"
  {
    assert Utils.Normalized("haiku", false) == Utils.NormalizedPrefix("haiku", 5, false);
    assert Utils.Normalized("haiku", true) == Utils.NormalizedPrefix("haiku", 5, true);
  }

  lemma ParseOrNullHaiku()
    ensures ParseOrNull("haiku") == Some(Haiku)
  {
    ParseOrNullOfId(Haiku);
    IdsSpelled();
  }

  lemma NormalizeHpux()
    ensures Utils.Normalized("hpux", false) == "hpux"
    ensures Utils.Normalized("hpux", true) == "hpux"
  {
    assert Utils.Normalized("hpux", false) == Utils.NormalizedPrefix("hpux", 4, false);
    assert Utils.Normalized("hpux", true) == Utils.NormalizedPrefix("hpux", 4, true);
  }

  lemma ParseOrNullHpux()
    ensures ParseOrNull("hpux") == Some(HpUx)
  {
    ParseOrNullOfId(HpUx);
    IdsSpelled();
  }

  lemma Os400SkipsRule1()
    ensures !ContainsWord("os400", "android")
  {
  }

  lemma Os400SkipsRule2()
    ensures !LinuxWord("os400")
  {
  }

  lemma Os400SkipsRules3Part1To3Part3()
    ensures !ContainsWord("os400", "apple")
      && !ContainsWord("os400", "darwin")
      && !ContainsWord("os400", "ios")
  {
  }

  lemma Os400SkipsRules3Part4To3Part6()
    ensures !ContainsWord("os400", "mac")
      && !ContainsWord("os400", "macos")
      && !ContainsWord("os400", "macosx")
  {
  }

  lemma Os400SkipsRules3Part7To4Part1()
    ensures !ContainsWord("os400", "osx")
      && !ContainsWord("os400", "os-x")
      && !ContainsWord("os400", "w7")
  {
  }

  lemma Os400SkipsRules4Part2To4Part4()
    ensures !ContainsWord("os400", "w8")
      && !ContainsWord("os400", "w10")
      && !ContainsWord("os400", "w11")
  {
  }

  lemma Os400SkipsRules4Part5To4Part7()
    ensures !ContainsWord("os400", "w32")
      && !ContainsWord("os400", "w64")
      && !ContainsWord("os400", "wxp")
  {
  }

  lemma Os400SkipsRule4Part8()
    ensures !Matches(WinAt, "os400")
  {
  }

  lemma Os400SkipsRule5()
    ensures !ContainsWord("os400", "aix")
  {
  }

  lemma Os400SkipsRule6()
    ensures !DragonflyWord("os400")
  {
  }

  lemma Os400SkipsRules7To8()
    ensures !(ContainsWord("os400", "freebsd") || ContainsWord("os400", "free-bsd"))
      && !ContainsWord("os400", "fuchsia")
  {
  }

  lemma Os400SkipsRules9To10()
    ensures !ContainsWord("os400", "haiku")
      && !(ContainsWord("os400", "hpux") || ContainsWord("os400", "hp-ux"))
  {
  }

  lemma Os400MatchesRule11()
    ensures IbmIWord("os400")
  {
  }

  lemma ClassifyOs400()
    ensures Classify("os400") == Some(IbmI)
  {
    Os400SkipsRule1();
    Os400SkipsRule2();
    Os400SkipsRules3Part1To3Part3();
    Os400SkipsRules3Part4To3Part6();
    Os400SkipsRules3Part7To4Part1();
    Os400SkipsRules4Part2To4Part4();
    Os400SkipsRules4Part5To4Part7();
    Os400SkipsRule4Part8();
    Os400SkipsRule5();
    Os400SkipsRule6();
    Os400SkipsRules7To8();
    Os400SkipsRules9To10();
    Os400MatchesRule11();
  }

  lemma NormalizeOs400()
    ensures Utils.Normalized("os400", false) == "os400"
    ensures Utils.Normalized("os400", true) == "os400"
  {
    assert Utils.Normalized("os400", false) == Utils.NormalizedPrefix("os400", 5, false);
    assert Utils.Normalized("os400", true) == Utils.NormalizedPrefix("os400", 5, true);
  }

  lemma ParseOrNullOs400()
    ensures ParseOrNull("os400") == Some(IbmI)
  {
    NormalizeOs400();
    ClassifyOs400();
    NotAnIdOs400();
    ParseOrNullNoId("os400");
  }

  lemma NotAnIdOs400()
    ensures forall os: Os :: Id(os) != "os400"
  {
    forall os: Os
      ensures Id(os) != "os400"
    {
      match os
      case Aix => IdsSpelled1();
      case Android => IdsSpelled1();
      case Darwin => IdsSpelled1();
      case DragonflyBsd => IdsSpelled1();
      case FreeBsd => IdsSpelled2();
      case Fuchsia => IdsSpelled2();
      case Haiku => IdsSpelled2();
      case HpUx => IdsSpelled2();
      case IbmI => IdsSpelled3();
      case Illumos => IdsSpelled3();
      case Linux => IdsSpelled3();
      case NetBsd => IdsSpelled3();
      case OpenBsd => IdsSpelled4();
      case Plan9 => IdsSpelled4();
      case Qnx => IdsSpelled4();
      case Redox => IdsSpelled4();
      case Solaris => IdsSpelled5();
      case VxWorks => IdsSpelled5();
      case Windows => IdsSpelled5();
      case ZOs => IdsSpelled5();
    }
  }

  lemma NormalizeIllumos()
    ensures Utils.Normalized("illumos", false) == "illumos"
    ensures Utils.Normalized("illumos", true) == "illumos"
  {
    assert Utils.Normalized("illumos", false) == Utils.NormalizedPrefix("illumos", 7, false);
    assert Utils.Normalized("illumos", true) == Utils.NormalizedPrefix("illumos", 7, true);
  }

  lemma ParseOrNullIllumos()
    ensures ParseOrNull("illumos") == Some(Illumos)
  {
    ParseOrNullOfId(Illumos);
    IdsSpelled();
  }

  lemma NormalizeNetbsd()
    ensures Utils.Normalized("netbsd", false) == "netbsd"
    ensures Utils.Normalized("netbsd", true) == "netbsd"
  {
    assert Utils.Normalized("netbsd", false) == Utils.NormalizedPrefix("netbsd", 6, false);
    assert Utils.Normalized("netbsd", true) == Utils.NormalizedPrefix("netbsd", 6, true);
  }

  lemma ParseOrNullNetbsd()
    ensures ParseOrNull("netbsd") == Some(NetBsd)
  {
    ParseOrNullOfId(NetBsd);
    IdsSpelled();
  }

  lemma NormalizeOpenbsd()
    ensures Utils.Normalized("openbsd", false) == "openbsd"
    ensures Utils.Normalized("openbsd", true) == "openbsd"
  {
    assert Utils.Normalized("openbsd", false) == Utils.NormalizedPrefix("openbsd", 7, false);
    assert Utils.Normalized("openbsd", true) == Utils.NormalizedPrefix("openbsd", 7, true);
  }

  lemma ParseOrNullOpenbsd()
    ensures ParseOrNull("openbsd") == Some(OpenBsd)
  {
    ParseOrNullOfId(OpenBsd);
    IdsSpelled();
  }

  lemma NormalizePlan9()
    ensures Utils.Normalized("plan9", false) == "plan9"
    ensures Utils.Normalized("plan9", true) == "plan9"
  {
    assert Utils.Normalized("plan9", false) == Utils.NormalizedPrefix("plan9", 5, false);
    assert Utils.Normalized("plan9", true) == Utils.NormalizedPrefix("plan9", 5, true);
  }

  lemma ParseOrNullPlan9()
    ensures ParseOrNull("plan9") == Some(Plan9)
  {
    ParseOrNullOfId(Plan9);
    IdsSpelled();
  }

  lemma NormalizeQnx()
    ensures Utils.Normalized("qnx", false) == "qnx"
    ensures Utils.Normalized("qnx", true) == "qnx"
  {
    assert Utils.Normalized("qnx", false) == Utils.NormalizedPrefix("qnx", 3, false);
    assert Utils.Normalized("qnx", true) == Utils.NormalizedPrefix("qnx", 3, true);
  }

  lemma ParseOrNullQnx()
    ensures ParseOrNull("qnx") == Some(Qnx)
  {
    ParseOrNullOfId(Qnx);
    IdsSpelled();
  }

  lemma ProcntoSkipsRule1()
    ensures !ContainsWord("procnto", "android")
  {
  }

  lemma ProcntoSkipsRule2()
    ensures !LinuxWord("procnto")
  {
  }

  lemma ProcntoSkipsRules3Part1To3Part2()
    ensures !ContainsWord("procnto", "apple")
      && !ContainsWord("procnto", "darwin")
  {
  }

  lemma ProcntoSkipsRules3Part3To3Part4()
    ensures !ContainsWord("procnto", "ios")
      && !ContainsWord("procnto", "mac")
  {
  }

  lemma ProcntoSkipsRules3Part5To3Part6()
    ensures !ContainsWord("procnto", "macos")
      && !ContainsWord("procnto", "macosx")
  {
  }

  lemma ProcntoSkipsRules3Part7To3Part8()
    ensures !ContainsWord("procnto", "osx")
      && !ContainsWord("procnto", "os-x")
  {
  }

  lemma ProcntoSkipsRules4Part1To4Part2()
    ensures !ContainsWord("procnto", "w7")
      && !ContainsWord("procnto", "w8")
  {
  }

  lemma ProcntoSkipsRules4Part3To4Part4()
    ensures !ContainsWord("procnto", "w10")
      && !ContainsWord("procnto", "w11")
  {
  }

  lemma ProcntoSkipsRules4Part5To4Part6()
    ensures !ContainsWord("procnto", "w32")
      && !ContainsWord("procnto", "w64")
  {
  }

  lemma ProcntoSkipsRule4Part7()
    ensures !ContainsWord("procnto", "wxp")
  {
  }

  lemma ProcntoSkipsRule4Part8()
    ensures !Matches(WinAt, "procnto")
  {
  }

  lemma ProcntoSkipsRule5()
    ensures !ContainsWord("procnto", "aix")
  {
  }

  lemma ProcntoSkipsRule6()
    ensures !DragonflyWord("procnto")
  {
  }

  lemma ProcntoSkipsRule7()
    ensures !(ContainsWord("procnto", "freebsd") || ContainsWord("procnto", "free-bsd"))
  {
  }

  lemma ProcntoSkipsRules8To9()
    ensures !ContainsWord("procnto", "fuchsia")
      && !ContainsWord("procnto", "haiku")
  {
  }

  lemma ProcntoSkipsRule10()
    ensures !(ContainsWord("procnto", "hpux") || ContainsWord("procnto", "hp-ux"))
  {
  }

  lemma ProcntoSkipsRule11()
    ensures !IbmIWord("procnto")
  {
  }

  lemma ProcntoSkipsRule12()
    ensures !(ContainsWord("procnto", "illum") || ContainsWord("procnto", "illumos"))
  {
  }

  lemma ProcntoSkipsRule13()
    ensures !(ContainsWord("procnto", "netbsd") || ContainsWord("procnto", "net-bsd"))
  {
  }

  lemma ProcntoSkipsRule14()
    ensures !(ContainsWord("procnto", "openbsd") || ContainsWord("procnto", "open-bsd"))
  {
  }

  lemma ProcntoSkipsRule15()
    ensures !(ContainsWord("procnto", "plan9") || ContainsWord("procnto", "plan-9"))
  {
  }

  lemma ProcntoMatchesRule16()
    ensures (ContainsWord("procnto", "qnx") || ContainsWord("procnto", "procnto"))
  {
  }

  lemma ClassifyProcnto()
    ensures Classify("procnto") == Some(Qnx)
  {
    ProcntoSkipsRule1();
    ProcntoSkipsRule2();
    ProcntoSkipsRules3Part1To3Part2();
    ProcntoSkipsRules3Part3To3Part4();
    ProcntoSkipsRules3Part5To3Part6();
    ProcntoSkipsRules3Part7To3Part8();
    ProcntoSkipsRules4Part1To4Part2();
    ProcntoSkipsRules4Part3To4Part4();
    ProcntoSkipsRules4Part5To4Part6();
    ProcntoSkipsRule4Part7();
    ProcntoSkipsRule4Part8();
    ProcntoSkipsRule5();
    ProcntoSkipsRule6();
    ProcntoSkipsRule7();
    ProcntoSkipsRules8To9();
    ProcntoSkipsRule10();
    ProcntoSkipsRule11();
    ProcntoSkipsRule12();
    ProcntoSkipsRule13();
    ProcntoSkipsRule14();
    ProcntoSkipsRule15();
    ProcntoMatchesRule16();
  }

  lemma NormalizeProcnto()
    ensures Utils.Normalized("procnto", false) == "procnto"
    ensures Utils.Normalized("procnto", true) == "procnto"
  {
    assert Utils.Normalized("procnto", false) == Utils.NormalizedPrefix("procnto", 7, false);
    assert Utils.Normalized("procnto", true) == Utils.NormalizedPrefix("procnto", 7, true);
  }

  lemma ParseOrNullProcnto()
    ensures ParseOrNull("procnto") == Some(Qnx)
  {
    NormalizeProcnto();
    ClassifyProcnto();
    NotAnIdProcnto();
    ParseOrNullNoId("procnto");
  }

  lemma NotAnIdProcnto()
    ensures forall os: Os :: Id(os) != "procnto"
  {
    forall os: Os
      ensures Id(os) != "procnto"
    {
      match os
      case Aix => IdsSpelled1();
      case Android => IdsSpelled1();
      case Darwin => IdsSpelled1();
      case DragonflyBsd => IdsSpelled1();
      case FreeBsd => IdsSpelled2();
      case Fuchsia => IdsSpelled2();
      case Haiku => IdsSpelled2();
      case HpUx => IdsSpelled2();
      case IbmI => IdsSpelled3();
      case Illumos => IdsSpelled3();
      case Linux => IdsSpelled3();
      case NetBsd => IdsSpelled3();
      case OpenBsd => IdsSpelled4();
      case Plan9 => IdsSpelled4();
      case Qnx => IdsSpelled4();
      case Redox => IdsSpelled4();
      case Solaris => IdsSpelled5();
      case VxWorks => IdsSpelled5();
      case Windows => IdsSpelled5();
      case ZOs => IdsSpelled5();
    }
  }

  lemma NormalizeRedox()
    ensures Utils.Normalized("redox", false) == "redox"
    ensures Utils.Normalized("redox", true) == "redox"
  {
    assert Utils.Normalized("redox", false) == Utils.NormalizedPrefix("redox", 5, false);
    assert Utils.Normalized("redox", true) == Utils.NormalizedPrefix("redox", 5, true);
  }

  lemma ParseOrNullRedox()
    ensures ParseOrNull("redox") == Some(Redox)
  {
    ParseOrNullOfId(Redox);
    IdsSpelled();
  }

  lemma NormalizeSolaris()
    ensures Utils.Normalized("solaris", false) == "solaris"
    ensures Utils.Normalized("solaris", true) == "solaris"
  {
    assert Utils.Normalized("solaris", false) == Utils.NormalizedPrefix("solaris", 7, false);
    assert Utils.Normalized("solaris", true) == Utils.NormalizedPrefix("solaris", 7, true);
  }

  lemma ParseOrNullSolaris()
    ensures ParseOrNull("solaris") == Some(Solaris)
  {
    ParseOrNullOfId(Solaris);
    IdsSpelled();
  }

  lemma SunosSkipsRule1()
    ensures !ContainsWord("sunos", "android")
  {
  }

  lemma SunosSkipsRule2()
    ensures !LinuxWord("sunos")
  {
  }

  lemma SunosSkipsRules3Part1To3Part3()
    ensures !ContainsWord("sunos", "apple")
      && !ContainsWord("sunos", "darwin")
      && !ContainsWord("sunos", "ios")
  {
  }

  lemma SunosSkipsRules3Part4To3Part6()
    ensures !ContainsWord("sunos", "mac")
      && !ContainsWord("sunos", "macos")
      && !ContainsWord("sunos", "macosx")
  {
  }

  lemma SunosSkipsRules3Part7To4Part1()
    ensures !ContainsWord("sunos", "osx")
      && !ContainsWord("sunos", "os-x")
      && !ContainsWord("sunos", "w7")
  {
  }

  lemma SunosSkipsRules4Part2To4Part4()
    ensures !ContainsWord("sunos", "w8")
      && !ContainsWord("sunos", "w10")
      && !ContainsWord("sunos", "w11")
  {
  }

  lemma SunosSkipsRules4Part5To4Part7()
    ensures !ContainsWord("sunos", "w32")
      && !ContainsWord("sunos", "w64")
      && !ContainsWord("sunos", "wxp")
  {
  }

  lemma SunosSkipsRule4Part8()
    ensures !Matches(WinAt, "sunos")
  {
  }

  lemma SunosSkipsRule5()
    ensures !ContainsWord("sunos", "aix")
  {
  }

  lemma SunosSkipsRule6()
    ensures !DragonflyWord("sunos")
  {
  }

  lemma SunosSkipsRules7To8()
    ensures !(ContainsWord("sunos", "freebsd") || ContainsWord("sunos", "free-bsd"))
      && !ContainsWord("sunos", "fuchsia")
  {
  }

  lemma SunosSkipsRules9To10()
    ensures !ContainsWord("sunos", "haiku")
      && !(ContainsWord("sunos", "hpux") || ContainsWord("sunos", "hp-ux"))
  {
  }

  lemma SunosSkipsRule11()
    ensures !IbmIWord("sunos")
  {
  }

  lemma SunosSkipsRule12()
    ensures !(ContainsWord("sunos", "illum") || ContainsWord("sunos", "illumos"))
  {
  }

  lemma SunosSkipsRule13()
    ensures !(ContainsWord("sunos", "netbsd") || ContainsWord("sunos", "net-bsd"))
  {
  }

  lemma SunosSkipsRule14()
    ensures !(ContainsWord("sunos", "openbsd") || ContainsWord("sunos", "open-bsd"))
  {
  }

  lemma SunosSkipsRule15()
    ensures !(ContainsWord("sunos", "plan9") || ContainsWord("sunos", "plan-9"))
  {
  }

  lemma SunosSkipsRules16To17()
    ensures !(ContainsWord("sunos", "qnx") || ContainsWord("sunos", "procnto"))
      && !ContainsWord("sunos", "redox")
  {
  }

  lemma SunosMatchesRule18()
    ensures SolarisWord("sunos")
  {
  }

  lemma ClassifySunos()
    ensures Classify("sunos") == Some(Solaris)
  {
    SunosSkipsRule1();
    SunosSkipsRule2();
    SunosSkipsRules3Part1To3Part3();
    SunosSkipsRules3Part4To3Part6();
    SunosSkipsRules3Part7To4Part1();
    SunosSkipsRules4Part2To4Part4();
    SunosSkipsRules4Part5To4Part7();
    SunosSkipsRule4Part8();
    SunosSkipsRule5();
    SunosSkipsRule6();
    SunosSkipsRules7To8();
    SunosSkipsRules9To10();
    SunosSkipsRule11();
    SunosSkipsRule12();
    SunosSkipsRule13();
    SunosSkipsRule14();
    SunosSkipsRule15();
    SunosSkipsRules16To17();
    SunosMatchesRule18();
  }

  lemma NormalizeSunos()
    ensures Utils.Normalized("sunos", false) == "sunos"
    ensures Utils.Normalized("sunos", true) == "sunos"
  {
    assert Utils.Normalized("sunos", false) == Utils.NormalizedPrefix("sunos", 5, false);
    assert Utils.Normalized("sunos", true) == Utils.NormalizedPrefix("sunos", 5, true);
  }

  lemma ParseOrNullSunos()
    ensures ParseOrNull("sunos") == Some(Solaris)
  {
    NormalizeSunos();
    ClassifySunos();
    NotAnIdSunos();
    ParseOrNullNoId("sunos");
  }

  lemma NotAnIdSunos()
    ensures forall os: Os :: Id(os) != "sunos"
  {
    forall os: Os
      ensures Id(os) != "sunos"
    {
      match os
      case Aix => IdsSpelled1();
      case Android => IdsSpelled1();
      case Darwin => IdsSpelled1();
      case DragonflyBsd => IdsSpelled1();
      case FreeBsd => IdsSpelled2();
      case Fuchsia => IdsSpelled2();
      case Haiku => IdsSpelled2();
      case HpUx => IdsSpelled2();
      case IbmI => IdsSpelled3();
      case Illumos => IdsSpelled3();
      case Linux => IdsSpelled3();
      case NetBsd => IdsSpelled3();
      case OpenBsd => IdsSpelled4();
      case Plan9 => IdsSpelled4();
      case Qnx => IdsSpelled4();
      case Redox => IdsSpelled4();
      case Solaris => IdsSpelled5();
      case VxWorks => IdsSpelled5();
      case Windows => IdsSpelled5();
      case ZOs => IdsSpelled5();
    }
  }

  lemma NormalizeVxworks()
    ensures Utils.Normalized("vxworks", false) == "vxworks"
    ensures Utils.Normalized("vxworks", true) == "vxworks"
  {
    assert Utils.Normalized("vxworks", false) == Utils.NormalizedPrefix("vxworks", 7, false);
    assert Utils.Normalized("vxworks", true) == Utils.NormalizedPrefix("vxworks", 7, true);
  }

  lemma ParseOrNullVxworks()
    ensures ParseOrNull("vxworks") == Some(VxWorks)
  {
    ParseOrNullOfId(VxWorks);
    IdsSpelled();
  }

  lemma NormalizeZos()
    ensures Utils.Normalized("zos", false) == "zos"
    ensures Utils.Normalized("zos", true) == "zos"
  {
    assert Utils.Normalized("zos", false) == Utils.NormalizedPrefix("zos", 3, false);
    assert Utils.Normalized("zos", true) == Utils.NormalizedPrefix("zos", 3, true);
  }

  lemma ParseOrNullZos()
    ensures ParseOrNull("zos") == Some(ZOs)
  {
    ParseOrNullOfId(ZOs);
    IdsSpelled();
  }

  lemma NormalizeLinux()
    ensures Utils.Normalized("linux", false) == "linux"
    ensures Utils.Normalized("linux", true) == "linux"
  {
    assert Utils.Normalized("linux", false) == Utils.NormalizedPrefix("linux", 5, false);
    assert Utils.Normalized("linux", true) == Utils.NormalizedPrefix("linux", 5, true);
  }

  lemma ParseOrNullLinux()
    ensures ParseOrNull("linux") == Some(Linux)
  {
    ParseOrNullOfId(Linux);
    IdsSpelled();
  }

  lemma Rv32imacSkipsRule1()
    ensures !ContainsWord("rv32imac", "android")
  {
  }

  lemma Rv32imacSkipsRule2()
    ensures !LinuxWord("rv32imac")
  {
  }

  lemma Rv32imacSkipsRules3Part1To3Part2()
    ensures !ContainsWord("rv32imac", "apple")
      && !ContainsWord("rv32imac", "darwin")
  {
  }

  lemma Rv32imacSkipsRules3Part3To3Part4()
    ensures !ContainsWord("rv32imac", "ios")
      && !ContainsWord("rv32imac", "mac")
  {
  }

  lemma Rv32imacSkipsRules3Part5To3Part6()
    ensures !ContainsWord("rv32imac", "macos")
      && !ContainsWord("rv32imac", "macosx")
  {
  }

  lemma Rv32imacSkipsRules3Part7To3Part8()
    ensures !ContainsWord("rv32imac", "osx")
      && !ContainsWord("rv32imac", "os-x")
  {
  }

  lemma Rv32imacSkipsRules4Part1To4Part2()
    ensures !ContainsWord("rv32imac", "w7")
      && !ContainsWord("rv32imac", "w8")
  {
  }

  lemma Rv32imacSkipsRules4Part3To4Part4()
    ensures !ContainsWord("rv32imac", "w10")
      && !ContainsWord("rv32imac", "w11")
  {
  }

  lemma Rv32imacSkipsRules4Part5To4Part6()
    ensures !ContainsWord("rv32imac", "w32")
      && !ContainsWord("rv32imac", "w64")
  {
  }

  lemma Rv32imacSkipsRule4Part7()
    ensures !ContainsWord("rv32imac", "wxp")
  {
  }

  lemma Rv32imacSkipsRule4Part8()
    ensures !Matches(WinAt, "rv32imac")
  {
  }

  lemma Rv32imacSkipsRule5()
    ensures !ContainsWord("rv32imac", "aix")
  {
  }

  lemma Rv32imacSkipsRule6()
    ensures !DragonflyWord("rv32imac")
  {
  }

  lemma Rv32imacSkipsRule7()
    ensures !(ContainsWord("rv32imac", "freebsd") || ContainsWord("rv32imac", "free-bsd"))
  {
  }

  lemma Rv32imacSkipsRules8To9()
    ensures !ContainsWord("rv32imac", "fuchsia")
      && !ContainsWord("rv32imac", "haiku")
  {
  }

  lemma Rv32imacSkipsRule10()
    ensures !(ContainsWord("rv32imac", "hpux") || ContainsWord("rv32imac", "hp-ux"))
  {
  }

  lemma Rv32imacSkipsRule11()
    ensures !IbmIWord("rv32imac")
  {
  }

  lemma Rv32imacSkipsRule12()
    ensures !(ContainsWord("rv32imac", "illum") || ContainsWord("rv32imac", "illumos"))
  {
  }

  lemma Rv32imacSkipsRule13()
    ensures !(ContainsWord("rv32imac", "netbsd") || ContainsWord("rv32imac", "net-bsd"))
  {
  }

  lemma Rv32imacSkipsRule14()
    ensures !(ContainsWord("rv32imac", "openbsd") || ContainsWord("rv32imac", "open-bsd"))
  {
  }

  lemma Rv32imacSkipsRule15()
    ensures !(ContainsWord("rv32imac", "plan9") || ContainsWord("rv32imac", "plan-9"))
  {
  }

  lemma Rv32imacSkipsRule16()
    ensures !(ContainsWord("rv32imac", "qnx") || ContainsWord("rv32imac", "procnto"))
  {
  }

  lemma Rv32imacSkipsRule17()
    ensures !ContainsWord("rv32imac", "redox")
  {
  }

  lemma Rv32imacSkipsRule18()
    ensures !SolarisWord("rv32imac")
  {
  }

  lemma Rv32imacSkipsRule19()
    ensures !(ContainsWord("rv32imac", "vxworks") || ContainsWord("rv32imac", "vx-works"))
  {
  }

  lemma Rv32imacSkipsRule20()
    ensures !(ContainsWord("rv32imac", "zos") || ContainsWord("rv32imac", "z-os"))
  {
  }

  lemma ClassifyRv32imac()
    ensures Classify("rv32imac") == None
  {
    Rv32imacSkipsRule1();
    Rv32imacSkipsRule2();
    Rv32imacSkipsRules3Part1To3Part2();
    Rv32imacSkipsRules3Part3To3Part4();
    Rv32imacSkipsRules3Part5To3Part6();
    Rv32imacSkipsRules3Part7To3Part8();
    Rv32imacSkipsRules4Part1To4Part2();
    Rv32imacSkipsRules4Part3To4Part4();
    Rv32imacSkipsRules4Part5To4Part6();
    Rv32imacSkipsRule4Part7();
    Rv32imacSkipsRule4Part8();
    Rv32imacSkipsRule5();
    Rv32imacSkipsRule6();
    Rv32imacSkipsRule7();
    Rv32imacSkipsRules8To9();
    Rv32imacSkipsRule10();
    Rv32imacSkipsRule11();
    Rv32imacSkipsRule12();
    Rv32imacSkipsRule13();
    Rv32imacSkipsRule14();
    Rv32imacSkipsRule15();
    Rv32imacSkipsRule16();
    Rv32imacSkipsRule17();
    Rv32imacSkipsRule18();
    Rv32imacSkipsRule19();
    Rv32imacSkipsRule20();
  }

  lemma NormalizeRv32imac()
    ensures Utils.Normalized("rv32imac", false) == "rv32imac"
  {
    assert Utils.Normalized("rv32imac", false) == Utils.NormalizedPrefix("rv32imac", 8, false);
  }

  lemma ParseOrNullRv32imac()
    ensures ParseOrNull("rv32imac") == None
  {
    NormalizeRv32imac();
    ClassifyRv32imac();
    NotAnIdRv32imac();
    ParseOrNullNoId("rv32imac");
  }

  lemma NotAnIdRv32imac()
    ensures forall os: Os :: Id(os) != "rv32imac"
  {
    forall os: Os
      ensures Id(os) != "rv32imac"
    {
      match os
      case Aix => IdsSpelled1();
      case Android => IdsSpelled1();
      case Darwin => IdsSpelled1();
      case DragonflyBsd => IdsSpelled1();
      case FreeBsd => IdsSpelled2();
      case Fuchsia => IdsSpelled2();
      case Haiku => IdsSpelled2();
      case HpUx => IdsSpelled2();
      case IbmI => IdsSpelled3();
      case Illumos => IdsSpelled3();
      case Linux => IdsSpelled3();
      case NetBsd => IdsSpelled3();
      case OpenBsd => IdsSpelled4();
      case Plan9 => IdsSpelled4();
      case Qnx => IdsSpelled4();
      case Redox => IdsSpelled4();
      case Solaris => IdsSpelled5();
      case VxWorks => IdsSpelled5();
      case Windows => IdsSpelled5();
      case ZOs => IdsSpelled5();
    }
  }

  lemma Rv64imacSkipsRule1()
    ensures !ContainsWord("rv64imac", "android")
  {
  }

  lemma Rv64imacSkipsRule2()
    ensures !LinuxWord("rv64imac")
  {
  }

  lemma Rv64imacSkipsRules3Part1To3Part2()
    ensures !ContainsWord("rv64imac", "apple")
      && !ContainsWord("rv64imac", "darwin")
  {
  }

  lemma Rv64imacSkipsRules3Part3To3Part4()
    ensures !ContainsWord("rv64imac", "ios")
      && !ContainsWord("rv64imac", "mac")
  {
  }

  lemma Rv64imacSkipsRules3Part5To3Part6()
    ensures !ContainsWord("rv64imac", "macos")
      && !ContainsWord("rv64imac", "macosx")
  {
  }

  lemma Rv64imacSkipsRules3Part7To3Part8()
    ensures !ContainsWord("rv64imac", "osx")
      && !ContainsWord("rv64imac", "os-x")
  {
  }

  lemma Rv64imacSkipsRules4Part1To4Part2()
    ensures !ContainsWord("rv64imac", "w7")
      && !ContainsWord("rv64imac", "w8")
  {
  }

  lemma Rv64imacSkipsRules4Part3To4Part4()
    ensures !ContainsWord("rv64imac", "w10")
      && !ContainsWord("rv64imac", "w11")
  {
  }

  lemma Rv64imacSkipsRules4Part5To4Part6()
    ensures !ContainsWord("rv64imac", "w32")
      && !ContainsWord("rv64imac", "w64")
  {
  }

  lemma Rv64imacSkipsRule4Part7()
    ensures !ContainsWord("rv64imac", "wxp")
  {
  }

  lemma Rv64imacSkipsRule4Part8()
    ensures !Matches(WinAt, "rv64imac")
  {
  }

  lemma Rv64imacSkipsRule5()
    ensures !ContainsWord("rv64imac", "aix")
  {
  }

  lemma Rv64imacSkipsRule6()
    ensures !DragonflyWord("rv64imac")
  {
  }

  lemma Rv64imacSkipsRule7()
    ensures !(ContainsWord("rv64imac", "freebsd") || ContainsWord("rv64imac", "free-bsd"))
  {
  }

  lemma Rv64imacSkipsRules8To9()
    ensures !ContainsWord("rv64imac", "fuchsia")
      && !ContainsWord("rv64imac", "haiku")
  {
  }

  lemma Rv64imacSkipsRule10()
    ensures !(ContainsWord("rv64imac", "hpux") || ContainsWord("rv64imac", "hp-ux"))
  {
  }

  lemma Rv64imacSkipsRule11()
    ensures !IbmIWord("rv64imac")
  {
  }

  lemma Rv64imacSkipsRule12()
    ensures !(ContainsWord("rv64imac", "illum") || ContainsWord("rv64imac", "illumos"))
  {
  }

  lemma Rv64imacSkipsRule13()
    ensures !(ContainsWord("rv64imac", "netbsd") || ContainsWord("rv64imac", "net-bsd"))
  {
  }

  lemma Rv64imacSkipsRule14()
    ensures !(ContainsWord("rv64imac", "openbsd") || ContainsWord("rv64imac", "open-bsd"))
  {
  }

  lemma Rv64imacSkipsRule15()
    ensures !(ContainsWord("rv64imac", "plan9") || ContainsWord("rv64imac", "plan-9"))
  {
  }

  lemma Rv64imacSkipsRule16()
    ensures !(ContainsWord("rv64imac", "qnx") || ContainsWord("rv64imac", "procnto"))
  {
  }

  lemma Rv64imacSkipsRule17()
    ensures !ContainsWord("rv64imac", "redox")
  {
  }

  lemma Rv64imacSkipsRule18()
    ensures !SolarisWord("rv64imac")
  {
  }

  lemma Rv64imacSkipsRule19()
    ensures !(ContainsWord("rv64imac", "vxworks") || ContainsWord("rv64imac", "vx-works"))
  {
  }

  lemma Rv64imacSkipsRule20()
    ensures !(ContainsWord("rv64imac", "zos") || ContainsWord("rv64imac", "z-os"))
  {
  }

  lemma ClassifyRv64imac()
    ensures Classify("rv64imac") == None
  {
    Rv64imacSkipsRule1();
    Rv64imacSkipsRule2();
    Rv64imacSkipsRules3Part1To3Part2();
    Rv64imacSkipsRules3Part3To3Part4();
    Rv64imacSkipsRules3Part5To3Part6();
    Rv64imacSkipsRules3Part7To3Part8();
    Rv64imacSkipsRules4Part1To4Part2();
    Rv64imacSkipsRules4Part3To4Part4();
    Rv64imacSkipsRules4Part5To4Part6();
    Rv64imacSkipsRule4Part7();
    Rv64imacSkipsRule4Part8();
    Rv64imacSkipsRule5();
    Rv64imacSkipsRule6();
    Rv64imacSkipsRule7();
    Rv64imacSkipsRules8To9();
    Rv64imacSkipsRule10();
    Rv64imacSkipsRule11();
    Rv64imacSkipsRule12();
    Rv64imacSkipsRule13();
    Rv64imacSkipsRule14();
    Rv64imacSkipsRule15();
    Rv64imacSkipsRule16();
    Rv64imacSkipsRule17();
    Rv64imacSkipsRule18();
    Rv64imacSkipsRule19();
    Rv64imacSkipsRule20();
  }

  lemma NormalizeRv64imac()
    ensures Utils.Normalized("rv64imac", false) == "rv64imac"
  {
    assert Utils.Normalized("rv64imac", false) == Utils.NormalizedPrefix("rv64imac", 8, false);
  }

  lemma ParseOrNullRv64imac()
    ensures ParseOrNull("rv64imac") == None
  {
    NormalizeRv64imac();
    ClassifyRv64imac();
    NotAnIdRv64imac();
    ParseOrNullNoId("rv64imac");
  }

  lemma NotAnIdRv64imac()
    ensures forall os: Os :: Id(os) != "rv64imac"
  {
    forall os: Os
      ensures Id(os) != "rv64imac"
    {
      match os
      case Aix => IdsSpelled1();
      case Android => IdsSpelled1();
      case Darwin => IdsSpelled1();
      case DragonflyBsd => IdsSpelled1();
      case FreeBsd => IdsSpelled2();
      case Fuchsia => IdsSpelled2();
      case Haiku => IdsSpelled2();
      case HpUx => IdsSpelled2();
      case IbmI => IdsSpelled3();
      case Illumos => IdsSpelled3();
      case Linux => IdsSpelled3();
      case NetBsd => IdsSpelled3();
      case OpenBsd => IdsSpelled4();
      case Plan9 => IdsSpelled4();
      case Qnx => IdsSpelled4();
      case Redox => IdsSpelled4();
      case Solaris => IdsSpelled5();
      case VxWorks => IdsSpelled5();
      case Windows => IdsSpelled5();
      case ZOs => IdsSpelled5();
    }
  }

  lemma Os4000SkipsRule1()
    ensures !ContainsWord("os4000", "android")
  {
  }

  lemma Os4000SkipsRule2()
    ensures !LinuxWord("os4000")
  {
  }

  lemma Os4000SkipsRules3Part1To3Part2()
    ensures !ContainsWord("os4000", "apple")
      && !ContainsWord("os4000", "darwin")
  {
  }

  lemma Os4000SkipsRules3Part3To3Part4()
    ensures !ContainsWord("os4000", "ios")
      && !ContainsWord("os4000", "mac")
  {
  }

  lemma Os4000SkipsRules3Part5To3Part6()
    ensures !ContainsWord("os4000", "macos")
      && !ContainsWord("os4000", "macosx")
  {
  }

  lemma Os4000SkipsRules3Part7To3Part8()
    ensures !ContainsWord("os4000", "osx")
      && !ContainsWord("os4000", "os-x")
  {
  }

  lemma Os4000SkipsRules4Part1To4Part2()
    ensures !ContainsWord("os4000", "w7")
      && !ContainsWord("os4000", "w8")
  {
  }

  lemma Os4000SkipsRules4Part3To4Part4()
    ensures !ContainsWord("os4000", "w10")
      && !ContainsWord("os4000", "w11")
  {
  }

  lemma Os4000SkipsRules4Part5To4Part6()
    ensures !ContainsWord("os4000", "w32")
      && !ContainsWord("os4000", "w64")
  {
  }

  lemma Os4000SkipsRule4Part7()
    ensures !ContainsWord("os4000", "wxp")
  {
  }

  lemma Os4000SkipsRule4Part8()
    ensures !Matches(WinAt, "os4000")
  {
  }

  lemma Os4000SkipsRule5()
    ensures !ContainsWord("os4000", "aix")
  {
  }

  lemma Os4000SkipsRule6()
    ensures !DragonflyWord("os4000")
  {
  }

  lemma Os4000SkipsRule7()
    ensures !(ContainsWord("os4000", "freebsd") || ContainsWord("os4000", "free-bsd"))
  {
  }

  lemma Os4000SkipsRules8To9()
    ensures !ContainsWord("os4000", "fuchsia")
      && !ContainsWord("os4000", "haiku")
  {
  }

  lemma Os4000SkipsRule10()
    ensures !(ContainsWord("os4000", "hpux") || ContainsWord("os4000", "hp-ux"))
  {
  }

  lemma Os4000SkipsRule11()
    ensures !IbmIWord("os4000")
  {
  }

  lemma Os4000SkipsRule12()
    ensures !(ContainsWord("os4000", "illum") || ContainsWord("os4000", "illumos"))
  {
  }

  lemma Os4000SkipsRule13()
    ensures !(ContainsWord("os4000", "netbsd") || ContainsWord("os4000", "net-bsd"))
  {
  }

  lemma Os4000SkipsRule14()
    ensures !(ContainsWord("os4000", "openbsd") || ContainsWord("os4000", "open-bsd"))
  {
  }

  lemma Os4000SkipsRule15()
    ensures !(ContainsWord("os4000", "plan9") || ContainsWord("os4000", "plan-9"))
  {
  }

  lemma Os4000SkipsRule16()
    ensures !(ContainsWord("os4000", "qnx") || ContainsWord("os4000", "procnto"))
  {
  }

  lemma Os4000SkipsRule17()
    ensures !ContainsWord("os4000", "redox")
  {
  }

  lemma Os4000SkipsRule18()
    ensures !SolarisWord("os4000")
  {
  }

  lemma Os4000SkipsRule19()
    ensures !(ContainsWord("os4000", "vxworks") || ContainsWord("os4000", "vx-works"))
  {
  }

  lemma Os4000SkipsRule20()
    ensures !(ContainsWord("os4000", "zos") || ContainsWord("os4000", "z-os"))
  {
  }

  lemma ClassifyOs4000()
    ensures Classify("os4000") == None
  {
    Os4000SkipsRule1();
    Os4000SkipsRule2();
    Os4000SkipsRules3Part1To3Part2();
    Os4000SkipsRules3Part3To3Part4();
    Os4000SkipsRules3Part5To3Part6();
    Os4000SkipsRules3Part7To3Part8();
    Os4000SkipsRules4Part1To4Part2();
    Os4000SkipsRules4Part3To4Part4();
    Os4000SkipsRules4Part5To4Part6();
    Os4000SkipsRule4Part7();
    Os4000SkipsRule4Part8();
    Os4000SkipsRule5();
    Os4000SkipsRule6();
    Os4000SkipsRule7();
    Os4000SkipsRules8To9();
    Os4000SkipsRule10();
    Os4000SkipsRule11();
    Os4000SkipsRule12();
    Os4000SkipsRule13();
    Os4000SkipsRule14();
    Os4000SkipsRule15();
    Os4000SkipsRule16();
    Os4000SkipsRule17();
    Os4000SkipsRule18();
    Os4000SkipsRule19();
    Os4000SkipsRule20();
  }

  lemma NormalizeOs4000()
    ensures Utils.Normalized("os4000", false) == "os4000"
  {
    assert Utils.Normalized("os4000", false) == Utils.NormalizedPrefix("os4000", 6, false);
  }

  lemma ParseOrNullOs4000()
    ensures ParseOrNull("os4000") == None
  {
    NormalizeOs4000();
    ClassifyOs4000();
    NotAnIdOs4000();
    ParseOrNullNoId("os4000");
  }

  lemma NotAnIdOs4000()
    ensures forall os: Os :: Id(os) != "os4000"
  {
    forall os: Os
      ensures Id(os) != "os4000"
    {
      match os
      case Aix => IdsSpelled1();
      case Android => IdsSpelled1();
      case Darwin => IdsSpelled1();
      case DragonflyBsd => IdsSpelled1();
      case FreeBsd => IdsSpelled2();
      case Fuchsia => IdsSpelled2();
      case Haiku => IdsSpelled2();
      case HpUx => IdsSpelled2();
      case IbmI => IdsSpelled3();
      case Illumos => IdsSpelled3();
      case Linux => IdsSpelled3();
      case NetBsd => IdsSpelled3();
      case OpenBsd => IdsSpelled4();
      case Plan9 => IdsSpelled4();
      case Qnx => IdsSpelled4();
      case Redox => IdsSpelled4();
      case Solaris => IdsSpelled5();
      case VxWorks => IdsSpelled5();
      case Windows => IdsSpelled5();
      case ZOs => IdsSpelled5();
    }
  }

  /**
   * Every key of the switch other than `linux` gives the constant that
   * `parseOrNull` gives for the same text; `linux` gives Linux unless the
   * VM is Dalvik.
   */
  lemma FastPathAgreesWithParse(key: string, vmName: string)
    requires FastPath(key, vmName).Some?
    ensures key != "linux" ==> FastPath(key, vmName) == ParseOrNull(key)
    ensures key == "linux" ==> FastPath(key, vmName) == if EqualsIgnoreCase("dalvik", vmName) then Some(Android) else ParseOrNull(key)
  {
    match key
    case "aix" => ParseOrNullAix();
    case "linux" => ParseOrNullLinux();
    case "darwin" => ParseOrNullDarwin();
    case "macosx" => ParseOrNullMacosx();
    case "macos" => ParseOrNullMacos();
    case "dragonflybsd" => ParseOrNullDragonflybsd();
    case "freebsd" => ParseOrNullFreebsd();
    case "fuchsia" => ParseOrNullFuchsia();
    case "haiku" => ParseOrNullHaiku();
    case "hpux" => ParseOrNullHpux();
    case "os400" => ParseOrNullOs400();
    case "illumos" => ParseOrNullIllumos();
    case "netbsd" => ParseOrNullNetbsd();
    case "openbsd" => ParseOrNullOpenbsd();
    case "plan9" => ParseOrNullPlan9();
    case "qnx" => ParseOrNullQnx();
    case "procnto" => ParseOrNullProcnto();
    case "redox" => ParseOrNullRedox();
    case "solaris" => ParseOrNullSolaris();
    case "sunos" => ParseOrNullSunos();
    case "vxworks" => ParseOrNullVxworks();
    case "zos" => ParseOrNullZos();
  }

  /** The switch's keys are already in strip-normal form. */
  lemma KeysAreStripNormal(key: string, vmName: string)
    requires FastPath(key, vmName).Some?
    ensures Utils.Normalized(key, true) == key
  {
    match key
    case "aix" => NormalizeAix();
    case "linux" => NormalizeLinux();
    case "darwin" => NormalizeDarwin();
    case "macosx" => NormalizeMacosx();
    case "macos" => NormalizeMacos();
    case "dragonflybsd" => NormalizeDragonflybsd();
    case "freebsd" => NormalizeFreebsd();
    case "fuchsia" => NormalizeFuchsia();
    case "haiku" => NormalizeHaiku();
    case "hpux" => NormalizeHpux();
    case "os400" => NormalizeOs400();
    case "illumos" => NormalizeIllumos();
    case "netbsd" => NormalizeNetbsd();
    case "openbsd" => NormalizeOpenbsd();
    case "plan9" => NormalizePlan9();
    case "qnx" => NormalizeQnx();
    case "procnto" => NormalizeProcnto();
    case "redox" => NormalizeRedox();
    case "solaris" => NormalizeSolaris();
    case "sunos" => NormalizeSunos();
    case "vxworks" => NormalizeVxworks();
    case "zos" => NormalizeZos();
  }

  /**
   * `currentOrNull()` for any `os.name` (and a file separator that is not
   * `\\`): the strip-normalised name decides. A key of the switch gives what
   * `parseOrNull` gives for that key, except that Linux on Dalvik is
   * Android; any other name falls through to `parseOrNull` of the raw value.
   */
  lemma CurrentAgreesWithParseOnKeys(props: Properties)
    requires Property(props, "file.separator") != Some("\\") && "os.name" in props
    ensures var key := Utils.Normalized(props["os.name"], true);
      var vm := PropertyOr(props, "java.vm.name", "");
      FastPath(key, vm).Some? && key != "linux" ==> CurrentOrNull(props) == ParseOrNull(key)
    ensures Utils.Normalized(props["os.name"], true) == "linux" ==>
      CurrentOrNull(props) == if EqualsIgnoreCase("dalvik", PropertyOr(props, "java.vm.name", "")) then Some(Android) else Some(Linux)
    ensures FastPath(Utils.Normalized(props["os.name"], true), PropertyOr(props, "java.vm.name", "")).None? ==>
      CurrentOrNull(props) == ParseOrNull(props["os.name"])
  {
    var key := Utils.Normalized(props["os.name"], true);
    var vm := PropertyOr(props, "java.vm.name", "");
    if FastPath(key, vm).Some? {
      FastPathAgreesWithParse(key, vm);
    }
  }

  /**
   * The host every id describes: `os.name` set to an OS's id, a `\\`
   * separator only on Windows and a Dalvik VM not claimed by Linux, gives
   * that OS back, whether the switch or `parseOrNull` answers.
   */
  lemma CurrentOfId(os: Os, props: Properties)
    requires os != Windows ==> Property(props, "file.separator") != Some("\\")
    requires "os.name" in props && props["os.name"] == Id(os)
    requires os == Linux ==> !EqualsIgnoreCase("dalvik", PropertyOr(props, "java.vm.name", ""))
    ensures CurrentOrNull(props) == Some(os)
  {
    if Property(props, "file.separator") != Some("\\") {
      IdsAreLowerAlnum(os);
      Utils.NormalizeFixedPoint(Id(os), true);
      ParseOrNullOfId(os);
      IdsSpelled();
      CurrentAgreesWithParseOnKeys(props);
    }
  }

  /** Properties as real JVMs report them: mixed case and spaces. */
  const LinuxHost: Properties := map["file.separator" := "/", "os.name" := "Linux", "java.vm.name" := "OpenJDK 64-Bit Server VM"]
  const AndroidHost: Properties := map["file.separator" := "/", "os.name" := "Linux", "java.vm.name" := "Dalvik"]
  const MacHost: Properties := map["file.separator" := "/", "os.name" := "Mac OS X"]
  const WindowsHost: Properties := map["file.separator" := "\\", "os.name" := "Windows 10"]

  lemma NormalizeLinuxName()
    ensures Utils.Normalized("Linux", true) == "linux"
  {
    assert Utils.Normalized("Linux", true) == Utils.NormalizedPrefix("Linux", 5, true);
  }

  lemma NormalizeMacName()
    ensures Utils.Normalized("Mac OS X", true) == "macosx"
  {
    assert Utils.Normalized("Mac OS X", true) == Utils.NormalizedPrefix("Mac OS X", 8, true);
  }

  /** "Linux" on HotSpot is LINUX. */
  lemma CurrentOfLinuxHost()
    ensures CurrentOrNull(LinuxHost) == Some(Linux)
  {
    NormalizeLinuxName();
    assert Utils.LowerAscii('d') != Utils.LowerAscii('O');
    CurrentAgreesWithParseOnKeys(LinuxHost);
  }

  /** "Linux" on Dalvik is ANDROID. */
  lemma CurrentOfAndroidHost()
    ensures CurrentOrNull(AndroidHost) == Some(Android)
  {
    NormalizeLinuxName();
    assert EqualsIgnoreCase("dalvik", "Dalvik");
    CurrentAgreesWithParseOnKeys(AndroidHost);
  }

  /** "Mac OS X" takes the `macosx` key of the switch. */
  lemma CurrentOfMacHost()
    ensures CurrentOrNull(MacHost) == Some(Darwin)
  {
    NormalizeMacName();
    assert FastPath("macosx", "") == Some(Darwin);
    ParseOrNullMacosx();
    CurrentAgreesWithParseOnKeys(MacHost);
  }

  /** A `\\` separator is Windows, whatever `os.name` says. */
  lemma CurrentOfWindowsHost()
    ensures CurrentOrNull(WindowsHost) == Some(Windows)
  {
  }

  lemma NormalizeLinuxAndroidLinux()
    ensures Utils.Normalized("linux android linux", false) == "linux-android-linux"
  {
    assert Utils.NormalizedPrefix("linux android linux", 6, false) == "linux-";
    assert Utils.NormalizedPrefix("linux android linux", 13, false) == "linux-android";
    assert Utils.Normalized("linux android linux", false) == Utils.NormalizedPrefix("linux android linux", 19, false);
  }

  /** Android is tried before Linux, so a text naming both is Android. */
  lemma AndroidBeforeLinuxExample()
    ensures ParseOrNull("linux android linux") == Some(Android)
  {
    NormalizeLinuxAndroidLinux();
    assert WordAt("linux-android-linux", 6, "android");
    WordFromIsExists("linux-android-linux", "android", 0);
    AndroidBeforeLinux("linux android linux");
  }

  /** Numbers glued to letters are no word boundary: none of these is an operating system. */
  lemma WordBoundaryExamples()
    ensures ParseOrNull("rv32imac") == None
    ensures ParseOrNull("rv64imac") == None
    ensures ParseOrNull("os4000") == None
  {
    ParseOrNullRv32imac();
    ParseOrNullRv64imac();
    ParseOrNullOs4000();
  }
}
