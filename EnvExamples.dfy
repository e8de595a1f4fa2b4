/**
 * Concrete answers of `Env.parse` and `Env.current`: every id parses back to
 * its constant, the documented texts land where the rule order puts them,
 * the fixed table agrees with parsing the operating system's own id, and
 * the `ldd --version` outputs of musl and glibc systems are told apart.
 */
module EnvExamples {
  import opened Strings
  import opened Host
  import opened Env
  import Utils
  import Os
  import OsExamples

  lemma IdsSpelled1()
    ensures Id(Unknown) == "unknown"
      && Id(Bionic) == "bionic"
      && Id(BsdLibc) == "bsdlibc"
      && Id(DietLibc) == "dietlibc"
  {
  }

  lemma IdsSpelled2()
    ensures Id(Glibc) == "glibc"
      && Id(Klibc) == "klibc"
      && Id(Msvc) == "msvc"
      && Id(Musl) == "musl"
  {
  }

  lemma IdsSpelled3()
    ensures Id(Newlib) == "newlib"
      && Id(UcLibc) == "uclibc"
  {
  }

  lemma NormalizeUnknown()
    ensures Utils.Normalized("unknown", false) == "unknown"
  {
    assert Utils.Normalized("unknown", false) == Utils.NormalizedPrefix("unknown", 7, false);
  }

  lemma UnknownIdFacts1()
    ensures !Contains("unknown", "bionic")
  {
  }

  lemma UnknownIdFacts2()
    ensures !Contains("unknown", "bsdlibc")
  {
  }

  lemma UnknownIdFacts3()
    ensures !Contains("unknown", "glibc")
  {
  }

  lemma UnknownIdFacts4()
    ensures !Contains("unknown", "klibc")
  {
  }

  lemma UnknownIdFacts5()
    ensures !Contains("unknown", "msvc")
  {
  }

  lemma UnknownIdFacts6()
    ensures !Contains("unknown", "musl")
  {
  }

  lemma UnknownIdFacts7()
    ensures !Contains("unknown", "newlib")
  {
  }

  lemma UnknownIdFacts8()
    ensures !Contains("unknown", "uclibc")
  {
  }

  lemma OwnIdsInUnknown()
    ensures forall e: Env :: !OwnIdIn("unknown", e)
  {
    UnknownIdFacts1();
    UnknownIdFacts2();
    UnknownIdFacts3();
    UnknownIdFacts4();
    UnknownIdFacts5();
    UnknownIdFacts6();
    UnknownIdFacts7();
    UnknownIdFacts8();
    forall e: Env
      ensures !OwnIdIn("unknown", e)
    {
      match e
      case Unknown => IdsSpelled1();
      case Bionic => IdsSpelled1();
      case BsdLibc => IdsSpelled1();
      case DietLibc => IdsSpelled1();
      case Glibc => IdsSpelled2();
      case Klibc => IdsSpelled2();
      case Msvc => IdsSpelled2();
      case Musl => IdsSpelled2();
      case Newlib => IdsSpelled3();
      case UcLibc => IdsSpelled3();
    }
  }

  lemma UnknownSkipsRule1Part1()
    ensures !Contains("unknown", "gcc")
  {
  }

  lemma UnknownSkipsRule1Part2()
    ensures !Contains("unknown", "gnu")
  {
  }

  lemma UnknownSkipsRule2Part1()
    ensures !Contains("unknown", "apple")
  {
  }

  lemma UnknownSkipsRule2Part2()
    ensures !Contains("unknown", "bsd")
  {
  }

  lemma UnknownSkipsRule2Part3()
    ensures !Contains("unknown", "darwin")
  {
  }

  lemma UnknownSkipsRule2Part4()
    ensures !Contains("unknown", "mac")
  {
  }

  lemma UnknownSkipsRule2Part5()
    ensures !Contains("unknown", "osx")
  {
  }

  lemma UnknownSkipsRule2Part6()
    ensures !Contains("unknown", "ios")
  {
  }

  lemma UnknownSkipsRule2Part7()
    ensures !Contains("unknown", "dragonfly")
  {
  }

  lemma UnknownSkipsRule3Part1()
    ensures !Contains("unknown", "crtdll")
  {
  }

  lemma UnknownSkipsRule3Part2()
    ensures !Contains("unknown", "ucrt")
  {
  }

  lemma UnknownSkipsRule3Part3()
    ensures !Contains("unknown", "vcruntime")
  {
  }

  lemma UnknownSkipsRule3Part4()
    ensures !Contains("unknown", "vs")
  {
  }

  lemma UnknownSkipsRule3Part5()
    ensures !Contains("unknown", "win")
  {
  }

  lemma UnknownSkipsRule4()
    ensures !Contains("unknown", "android")
  {
  }

  lemma ClassifyUnknown()
    ensures Classify("unknown") == Unknown
  {
    UnknownSkipsRule1Part1();
    UnknownSkipsRule1Part2();
    UnknownSkipsRule2Part1();
    UnknownSkipsRule2Part2();
    UnknownSkipsRule2Part3();
    UnknownSkipsRule2Part4();
    UnknownSkipsRule2Part5();
    UnknownSkipsRule2Part6();
    UnknownSkipsRule2Part7();
    UnknownSkipsRule3Part1();
    UnknownSkipsRule3Part2();
    UnknownSkipsRule3Part3();
    UnknownSkipsRule3Part4();
    UnknownSkipsRule3Part5();
    UnknownSkipsRule4();
  }

  lemma ParseUnknown()
    ensures Parse("unknown") == Unknown
  {
    NormalizeUnknown();
    OwnIdsInUnknown();
    ClassifyUnknown();
    NoOwnId("unknown");
  }

  lemma NormalizeBionic()
    ensures Utils.Normalized("bionic", false) == "bionic"
  {
    assert Utils.Normalized("bionic", false) == Utils.NormalizedPrefix("bionic", 6, false);
  }

  lemma BionicIdFacts1()
    ensures Contains("bionic", "bionic")
      && !Contains("bionic", "glibc")
  {
  }

  lemma BionicIdFacts2()
    ensures !Contains("bionic", "klibc")
      && !Contains("bionic", "msvc")
  {
  }

  lemma BionicIdFacts3()
    ensures !Contains("bionic", "musl")
      && !Contains("bionic", "newlib")
  {
  }

  lemma BionicIdFacts4()
    ensures !Contains("bionic", "uclibc")
  {
  }

  lemma OwnIdsInBionic()
    ensures forall e: Env :: OwnIdIn("bionic", e) <==> e == Bionic
  {
    BionicIdFacts1();
    BionicIdFacts2();
    BionicIdFacts3();
    BionicIdFacts4();
    forall e: Env
      ensures OwnIdIn("bionic", e) <==> e == Bionic
    {
      match e
      case Unknown => IdsSpelled1();
      case Bionic => IdsSpelled1();
      case BsdLibc => IdsSpelled1();
      case DietLibc => IdsSpelled1();
      case Glibc => IdsSpelled2();
      case Klibc => IdsSpelled2();
      case Msvc => IdsSpelled2();
      case Musl => IdsSpelled2();
      case Newlib => IdsSpelled3();
      case UcLibc => IdsSpelled3();
    }
  }

  lemma ParseBionic()
    ensures Parse("bionic") == Bionic
  {
    NormalizeBionic();
    OwnIdsInBionic();
    OnlyOwnId("bionic", Bionic);
  }

  lemma NormalizeBsdlibc()
    ensures Utils.Normalized("bsdlibc", false) == "bsdlibc"
  {
    assert Utils.Normalized("bsdlibc", false) == Utils.NormalizedPrefix("bsdlibc", 7, false);
  }

  lemma BsdlibcIdFacts1()
    ensures !Contains("bsdlibc", "bionic")
  {
  }

  lemma BsdlibcIdFacts2()
    ensures Contains("bsdlibc", "bsdlibc")
  {
  }

  lemma BsdlibcIdFacts3()
    ensures !Contains("bsdlibc", "glibc")
  {
  }

  lemma BsdlibcIdFacts4()
    ensures !Contains("bsdlibc", "klibc")
  {
  }

  lemma BsdlibcIdFacts5()
    ensures !Contains("bsdlibc", "msvc")
  {
  }

  lemma BsdlibcIdFacts6()
    ensures !Contains("bsdlibc", "musl")
  {
  }

  lemma BsdlibcIdFacts7()
    ensures !Contains("bsdlibc", "newlib")
  {
  }

  lemma BsdlibcIdFacts8()
    ensures !Contains("bsdlibc", "uclibc")
  {
  }

  lemma OwnIdsInBsdlibc()
    ensures forall e: Env :: OwnIdIn("bsdlibc", e) <==> e == BsdLibc
  {
    BsdlibcIdFacts1();
    BsdlibcIdFacts2();
    BsdlibcIdFacts3();
    BsdlibcIdFacts4();
    BsdlibcIdFacts5();
    BsdlibcIdFacts6();
    BsdlibcIdFacts7();
    BsdlibcIdFacts8();
    forall e: Env
      ensures OwnIdIn("bsdlibc", e) <==> e == BsdLibc
    {
      match e
      case Unknown => IdsSpelled1();
      case Bionic => IdsSpelled1();
      case BsdLibc => IdsSpelled1();
      case DietLibc => IdsSpelled1();
      case Glibc => IdsSpelled2();
      case Klibc => IdsSpelled2();
      case Msvc => IdsSpelled2();
      case Musl => IdsSpelled2();
      case Newlib => IdsSpelled3();
      case UcLibc => IdsSpelled3();
    }
  }

  lemma ParseBsdlibc()
    ensures Parse("bsdlibc") == BsdLibc
  {
    NormalizeBsdlibc();
    OwnIdsInBsdlibc();
    OnlyOwnId("bsdlibc", BsdLibc);
  }

  lemma NormalizeDietlibcPart1()
    ensures Utils.Normalized("dietlib", false) == "dietlib"
  {
    assert Utils.Normalized("dietlib", false) == Utils.NormalizedPrefix("dietlib", 7, false);
  }

  lemma NormalizeDietlibcPart2()
    ensures Utils.Normalized("c", false) == "c"
  {
    assert Utils.Normalized("c", false) == Utils.NormalizedPrefix("c", 1, false);
  }

  lemma NormalizeDietlibc()
    ensures Utils.Normalized("dietlibc", false) == "dietlibc"
  {
    NormalizeDietlibcPart1();
    NormalizeDietlibcPart2();
    Utils.NormalizeConcat("dietlib", "c", false);
    assert "dietlib" + "c" == "dietlibc";
    assert "dietlib" + "c" == "dietlibc";
  }

  lemma DietlibcIdFacts1()
    ensures !Contains("dietlibc", "bionic")
  {
  }

  lemma DietlibcIdFacts2()
    ensures !Contains("dietlibc", "bsdlibc")
  {
  }

  lemma DietlibcIdFacts3()
    ensures Contains("dietlibc", "dietlibc")
  {
  }

  lemma DietlibcIdFacts4()
    ensures !Contains("dietlibc", "glibc")
  {
  }

  lemma DietlibcIdFacts5()
    ensures !Contains("dietlibc", "klibc")
  {
  }

  lemma DietlibcIdFacts6()
    ensures !Contains("dietlibc", "msvc")
  {
  }

  lemma DietlibcIdFacts7()
    ensures !Contains("dietlibc", "musl")
  {
  }

  lemma DietlibcIdFacts8()
    ensures !Contains("dietlibc", "newlib")
  {
  }

  lemma DietlibcIdFacts9()
    ensures !Contains("dietlibc", "uclibc")
  {
  }

  lemma OwnIdsInDietlibc()
    ensures forall e: Env :: OwnIdIn("dietlibc", e) <==> e == DietLibc
  {
    DietlibcIdFacts1();
    DietlibcIdFacts2();
    DietlibcIdFacts3();
    DietlibcIdFacts4();
    DietlibcIdFacts5();
    DietlibcIdFacts6();
    DietlibcIdFacts7();
    DietlibcIdFacts8();
    DietlibcIdFacts9();
    forall e: Env
      ensures OwnIdIn("dietlibc", e) <==> e == DietLibc
    {
      match e
      case Unknown => IdsSpelled1();
      case Bionic => IdsSpelled1();
      case BsdLibc => IdsSpelled1();
      case DietLibc => IdsSpelled1();
      case Glibc => IdsSpelled2();
      case Klibc => IdsSpelled2();
      case Msvc => IdsSpelled2();
      case Musl => IdsSpelled2();
      case Newlib => IdsSpelled3();
      case UcLibc => IdsSpelled3();
    }
  }

  lemma ParseDietlibc()
    ensures Parse("dietlibc") == DietLibc
  {
    NormalizeDietlibc();
    OwnIdsInDietlibc();
    OnlyOwnId("dietlibc", DietLibc);
  }

  lemma NormalizeGlibc()
    ensures Utils.Normalized("glibc", false) == "glibc"
  {
    assert Utils.Normalized("glibc", false) == Utils.NormalizedPrefix("glibc", 5, false);
  }

  lemma GlibcIdFacts1()
    ensures Contains("glibc", "glibc")
      && !Contains("glibc", "klibc")
  {
  }

  lemma GlibcIdFacts2()
    ensures !Contains("glibc", "msvc")
      && !Contains("glibc", "musl")
  {
  }

  lemma OwnIdsInGlibc()
    ensures forall e: Env :: OwnIdIn("glibc", e) <==> e == Glibc
  {
    GlibcIdFacts1();
    GlibcIdFacts2();
    forall e: Env
      ensures OwnIdIn("glibc", e) <==> e == Glibc
    {
      match e
      case Unknown => IdsSpelled1();
      case Bionic => IdsSpelled1();
      case BsdLibc => IdsSpelled1();
      case DietLibc => IdsSpelled1();
      case Glibc => IdsSpelled2();
      case Klibc => IdsSpelled2();
      case Msvc => IdsSpelled2();
      case Musl => IdsSpelled2();
      case Newlib => IdsSpelled3();
      case UcLibc => IdsSpelled3();
    }
  }

  lemma ParseGlibc()
    ensures Parse("glibc") == Glibc
  {
    NormalizeGlibc();
    OwnIdsInGlibc();
    OnlyOwnId("glibc", Glibc);
  }

  lemma NormalizeKlibc()
    ensures Utils.Normalized("klibc", false) == "klibc"
  {
    assert Utils.Normalized("klibc", false) == Utils.NormalizedPrefix("klibc", 5, false);
  }

  lemma KlibcIdFacts1()
    ensures !Contains("klibc", "glibc")
      && Contains("klibc", "klibc")
  {
  }

  lemma KlibcIdFacts2()
    ensures !Contains("klibc", "msvc")
      && !Contains("klibc", "musl")
  {
  }

  lemma OwnIdsInKlibc()
    ensures forall e: Env :: OwnIdIn("klibc", e) <==> e == Klibc
  {
    KlibcIdFacts1();
    KlibcIdFacts2();
    forall e: Env
      ensures OwnIdIn("klibc", e) <==> e == Klibc
    {
      match e
      case Unknown => IdsSpelled1();
      case Bionic => IdsSpelled1();
      case BsdLibc => IdsSpelled1();
      case DietLibc => IdsSpelled1();
      case Glibc => IdsSpelled2();
      case Klibc => IdsSpelled2();
      case Msvc => IdsSpelled2();
      case Musl => IdsSpelled2();
      case Newlib => IdsSpelled3();
      case UcLibc => IdsSpelled3();
    }
  }

  lemma ParseKlibc()
    ensures Parse("klibc") == Klibc
  {
    NormalizeKlibc();
    OwnIdsInKlibc();
    OnlyOwnId("klibc", Klibc);
  }

  lemma NormalizeMsvc()
    ensures Utils.Normalized("msvc", false) == "msvc"
  {
    assert Utils.Normalized("msvc", false) == Utils.NormalizedPrefix("msvc", 4, false);
  }

  lemma MsvcIdFacts1()
    ensures Contains("msvc", "msvc")
      && !Contains("msvc", "musl")
  {
  }

  lemma OwnIdsInMsvc()
    ensures forall e: Env :: OwnIdIn("msvc", e) <==> e == Msvc
  {
    MsvcIdFacts1();
    forall e: Env
      ensures OwnIdIn("msvc", e) <==> e == Msvc
    {
      match e
      case Unknown => IdsSpelled1();
      case Bionic => IdsSpelled1();
      case BsdLibc => IdsSpelled1();
      case DietLibc => IdsSpelled1();
      case Glibc => IdsSpelled2();
      case Klibc => IdsSpelled2();
      case Msvc => IdsSpelled2();
      case Musl => IdsSpelled2();
      case Newlib => IdsSpelled3();
      case UcLibc => IdsSpelled3();
    }
  }

  lemma ParseMsvc()
    ensures Parse("msvc") == Msvc
  {
    NormalizeMsvc();
    OwnIdsInMsvc();
    OnlyOwnId("msvc", Msvc);
  }

  lemma NormalizeMusl()
    ensures Utils.Normalized("musl", false) == "musl"
  {
    assert Utils.Normalized("musl", false) == Utils.NormalizedPrefix("musl", 4, false);
  }

  lemma MuslIdFacts1()
    ensures !Contains("musl", "msvc")
      && Contains("musl", "musl")
  {
  }

  lemma OwnIdsInMusl()
    ensures forall e: Env :: OwnIdIn("musl", e) <==> e == Musl
  {
    MuslIdFacts1();
    forall e: Env
      ensures OwnIdIn("musl", e) <==> e == Musl
    {
      match e
      case Unknown => IdsSpelled1();
      case Bionic => IdsSpelled1();
      case BsdLibc => IdsSpelled1();
      case DietLibc => IdsSpelled1();
      case Glibc => IdsSpelled2();
      case Klibc => IdsSpelled2();
      case Msvc => IdsSpelled2();
      case Musl => IdsSpelled2();
      case Newlib => IdsSpelled3();
      case UcLibc => IdsSpelled3();
    }
  }

  lemma ParseMusl()
    ensures Parse("musl") == Musl
  {
    NormalizeMusl();
    OwnIdsInMusl();
    OnlyOwnId("musl", Musl);
  }

  lemma NormalizeNewlib()
    ensures Utils.Normalized("newlib", false) == "newlib"
  {
    assert Utils.Normalized("newlib", false) == Utils.NormalizedPrefix("newlib", 6, false);
  }

  lemma NewlibIdFacts1()
    ensures !Contains("newlib", "bionic")
      && !Contains("newlib", "glibc")
  {
  }

  lemma NewlibIdFacts2()
    ensures !Contains("newlib", "klibc")
      && !Contains("newlib", "msvc")
  {
  }

  lemma NewlibIdFacts3()
    ensures !Contains("newlib", "musl")
      && Contains("newlib", "newlib")
  {
  }

  lemma NewlibIdFacts4()
    ensures !Contains("newlib", "uclibc")
  {
  }

  lemma OwnIdsInNewlib()
    ensures forall e: Env :: OwnIdIn("newlib", e) <==> e == Newlib
  {
    NewlibIdFacts1();
    NewlibIdFacts2();
    NewlibIdFacts3();
    NewlibIdFacts4();
    forall e: Env
      ensures OwnIdIn("newlib", e) <==> e == Newlib
    {
      match e
      case Unknown => IdsSpelled1();
      case Bionic => IdsSpelled1();
      case BsdLibc => IdsSpelled1();
      case DietLibc => IdsSpelled1();
      case Glibc => IdsSpelled2();
      case Klibc => IdsSpelled2();
      case Msvc => IdsSpelled2();
      case Musl => IdsSpelled2();
      case Newlib => IdsSpelled3();
      case UcLibc => IdsSpelled3();
    }
  }

  lemma ParseNewlib()
    ensures Parse("newlib") == Newlib
  {
    NormalizeNewlib();
    OwnIdsInNewlib();
    OnlyOwnId("newlib", Newlib);
  }

  lemma NormalizeUclibc()
    ensures Utils.Normalized("uclibc", false) == "uclibc"
  {
    assert Utils.Normalized("uclibc", false) == Utils.NormalizedPrefix("uclibc", 6, false);
  }

  lemma UclibcIdFacts1()
    ensures !Contains("uclibc", "bionic")
      && !Contains("uclibc", "glibc")
  {
  }

  lemma UclibcIdFacts2()
    ensures !Contains("uclibc", "klibc")
      && !Contains("uclibc", "msvc")
  {
  }

  lemma UclibcIdFacts3()
    ensures !Contains("uclibc", "musl")
      && !Contains("uclibc", "newlib")
  {
  }

  lemma UclibcIdFacts4()
    ensures Contains("uclibc", "uclibc")
  {
  }

  lemma OwnIdsInUclibc()
    ensures forall e: Env :: OwnIdIn("uclibc", e) <==> e == UcLibc
  {
    UclibcIdFacts1();
    UclibcIdFacts2();
    UclibcIdFacts3();
    UclibcIdFacts4();
    forall e: Env
      ensures OwnIdIn("uclibc", e) <==> e == UcLibc
    {
      match e
      case Unknown => IdsSpelled1();
      case Bionic => IdsSpelled1();
      case BsdLibc => IdsSpelled1();
      case DietLibc => IdsSpelled1();
      case Glibc => IdsSpelled2();
      case Klibc => IdsSpelled2();
      case Msvc => IdsSpelled2();
      case Musl => IdsSpelled2();
      case Newlib => IdsSpelled3();
      case UcLibc => IdsSpelled3();
    }
  }

  lemma ParseUclibc()
    ensures Parse("uclibc") == UcLibc
  {
    NormalizeUclibc();
    OwnIdsInUclibc();
    OnlyOwnId("uclibc", UcLibc);
  }

  /** Every id parses back to its constant, `unknown` included. */
  lemma ParseOfId(e: Env)
    ensures Parse(Id(e)) == e
  {
    match e
    case Unknown => IdsSpelled1(); ParseUnknown();
    case Bionic => IdsSpelled1(); ParseBionic();
    case BsdLibc => IdsSpelled1(); ParseBsdlibc();
    case DietLibc => IdsSpelled1(); ParseDietlibc();
    case Glibc => IdsSpelled2(); ParseGlibc();
    case Klibc => IdsSpelled2(); ParseKlibc();
    case Msvc => IdsSpelled2(); ParseMsvc();
    case Musl => IdsSpelled2(); ParseMusl();
    case Newlib => IdsSpelled3(); ParseNewlib();
    case UcLibc => IdsSpelled3(); ParseUclibc();
  }

  lemma NormalizeAndroid()
    ensures Utils.Normalized("android", false) == "android"
  {
    assert Utils.Normalized("android", false) == Utils.NormalizedPrefix("android", 7, false);
  }

  lemma AndroidIdFacts1()
    ensures !Contains("android", "bionic")
  {
  }

  lemma AndroidIdFacts2()
    ensures !Contains("android", "bsdlibc")
  {
  }

  lemma AndroidIdFacts3()
    ensures !Contains("android", "glibc")
  {
  }

  lemma AndroidIdFacts4()
    ensures !Contains("android", "klibc")
  {
  }

  lemma AndroidIdFacts5()
    ensures !Contains("android", "msvc")
  {
  }

  lemma AndroidIdFacts6()
    ensures !Contains("android", "musl")
  {
  }

  lemma AndroidIdFacts7()
    ensures !Contains("android", "newlib")
  {
  }

  lemma AndroidIdFacts8()
    ensures !Contains("android", "uclibc")
  {
  }

  lemma OwnIdsInAndroid()
    ensures forall e: Env :: !OwnIdIn("android", e)
  {
    AndroidIdFacts1();
    AndroidIdFacts2();
    AndroidIdFacts3();
    AndroidIdFacts4();
    AndroidIdFacts5();
    AndroidIdFacts6();
    AndroidIdFacts7();
    AndroidIdFacts8();
    forall e: Env
      ensures !OwnIdIn("android", e)
    {
      match e
      case Unknown => IdsSpelled1();
      case Bionic => IdsSpelled1();
      case BsdLibc => IdsSpelled1();
      case DietLibc => IdsSpelled1();
      case Glibc => IdsSpelled2();
      case Klibc => IdsSpelled2();
      case Msvc => IdsSpelled2();
      case Musl => IdsSpelled2();
      case Newlib => IdsSpelled3();
      case UcLibc => IdsSpelled3();
    }
  }

  lemma AndroidSkipsRule1Part1()
    ensures !Contains("android", "gcc")
  {
  }

  lemma AndroidSkipsRule1Part2()
    ensures !Contains("android", "gnu")
  {
  }

  lemma AndroidSkipsRule2Part1()
    ensures !Contains("android", "apple")
  {
  }

  lemma AndroidSkipsRule2Part2()
    ensures !Contains("android", "bsd")
  {
  }

  lemma AndroidSkipsRule2Part3()
    ensures !Contains("android", "darwin")
  {
  }

  lemma AndroidSkipsRule2Part4()
    ensures !Contains("android", "mac")
  {
  }

  lemma AndroidSkipsRule2Part5()
    ensures !Contains("android", "osx")
  {
  }

  lemma AndroidSkipsRule2Part6()
    ensures !Contains("android", "ios")
  {
  }

  lemma AndroidSkipsRule2Part7()
    ensures !Contains("android", "dragonfly")
  {
  }

  lemma AndroidSkipsRule3Part1()
    ensures !Contains("android", "crtdll")
  {
  }

  lemma AndroidSkipsRule3Part2()
    ensures !Contains("android", "ucrt")
  {
  }

  lemma AndroidSkipsRule3Part3()
    ensures !Contains("android", "vcruntime")
  {
  }

  lemma AndroidSkipsRule3Part4()
    ensures !Contains("android", "vs")
  {
  }

  lemma AndroidSkipsRule3Part5()
    ensures !Contains("android", "win")
  {
  }

  lemma AndroidMatchesRule4()
    ensures Contains("android", "android")
  {
  }

  lemma ClassifyAndroid()
    ensures Classify("android") == Bionic
  {
    AndroidSkipsRule1Part1();
    AndroidSkipsRule1Part2();
    AndroidSkipsRule2Part1();
    AndroidSkipsRule2Part2();
    AndroidSkipsRule2Part3();
    AndroidSkipsRule2Part4();
    AndroidSkipsRule2Part5();
    AndroidSkipsRule2Part6();
    AndroidSkipsRule2Part7();
    AndroidSkipsRule3Part1();
    AndroidSkipsRule3Part2();
    AndroidSkipsRule3Part3();
    AndroidSkipsRule3Part4();
    AndroidSkipsRule3Part5();
    AndroidMatchesRule4();
  }

  lemma ParseAndroid()
    ensures Parse("android") == Bionic
  {
    NormalizeAndroid();
    OwnIdsInAndroid();
    ClassifyAndroid();
    NoOwnId("android");
  }

  lemma NormalizeDarwin()
    ensures Utils.Normalized("darwin", false) == "darwin"
  {
    assert Utils.Normalized("darwin", false) == Utils.NormalizedPrefix("darwin", 6, false);
  }

  lemma DarwinIdFacts1()
    ensures !Contains("darwin", "bionic")
      && !Contains("darwin", "glibc")
  {
  }

  lemma DarwinIdFacts2()
    ensures !Contains("darwin", "klibc")
      && !Contains("darwin", "msvc")
  {
  }

  lemma DarwinIdFacts3()
    ensures !Contains("darwin", "musl")
      && !Contains("darwin", "newlib")
  {
  }

  lemma DarwinIdFacts4()
    ensures !Contains("darwin", "uclibc")
  {
  }

  lemma OwnIdsInDarwin()
    ensures forall e: Env :: !OwnIdIn("darwin", e)
  {
    DarwinIdFacts1();
    DarwinIdFacts2();
    DarwinIdFacts3();
    DarwinIdFacts4();
    forall e: Env
      ensures !OwnIdIn("darwin", e)
    {
      match e
      case Unknown => IdsSpelled1();
      case Bionic => IdsSpelled1();
      case BsdLibc => IdsSpelled1();
      case DietLibc => IdsSpelled1();
      case Glibc => IdsSpelled2();
      case Klibc => IdsSpelled2();
      case Msvc => IdsSpelled2();
      case Musl => IdsSpelled2();
      case Newlib => IdsSpelled3();
      case UcLibc => IdsSpelled3();
    }
  }

  lemma DarwinSkipsRules1Part1To1Part2()
    ensures !Contains("darwin", "gcc")
      && !Contains("darwin", "gnu")
  {
  }

  lemma DarwinMatchesRule2()
    ensures Contains("darwin", "darwin")
  {
  }

  lemma ClassifyDarwin()
    ensures Classify("darwin") == BsdLibc
  {
    DarwinSkipsRules1Part1To1Part2();
    DarwinMatchesRule2();
  }

  lemma ParseDarwin()
    ensures Parse("darwin") == BsdLibc
  {
    NormalizeDarwin();
    OwnIdsInDarwin();
    ClassifyDarwin();
    NoOwnId("darwin");
  }

  lemma NormalizeDragonflybsdPart1()
    ensures Utils.Normalized("dragonf", false) == "dragonf"
  {
    assert Utils.Normalized("dragonf", false) == Utils.NormalizedPrefix("dragonf", 7, false);
  }

  lemma NormalizeDragonflybsdPart2()
    ensures Utils.Normalized("lybsd", false) == "lybsd"
  {
    assert Utils.Normalized("lybsd", false) == Utils.NormalizedPrefix("lybsd", 5, false);
  }

  lemma NormalizeDragonflybsd()
    ensures Utils.Normalized("dragonflybsd", false) == "dragonflybsd"
  {
    NormalizeDragonflybsdPart1();
    NormalizeDragonflybsdPart2();
    Utils.NormalizeConcat("dragonf", "lybsd", false);
    assert "dragonf" + "lybsd" == "dragonflybsd";
    assert "dragonf" + "lybsd" == "dragonflybsd";
  }

  lemma DragonflybsdIdFacts1()
    ensures !Contains("dragonflybsd", "bionic")
  {
    assert !ContainsFrom("dragonflybsd", "bionic", 4);
  }

  lemma DragonflybsdIdFacts2()
    ensures !Contains("dragonflybsd", "bsdlibc")
  {
    assert !ContainsFrom("dragonflybsd", "bsdlibc", 4);
  }

  lemma DragonflybsdIdFacts3()
    ensures !Contains("dragonflybsd", "dietlibc")
  {
    assert !ContainsFrom("dragonflybsd", "dietlibc", 4);
  }

  lemma DragonflybsdIdFacts4()
    ensures !Contains("dragonflybsd", "glibc")
  {
    assert !ContainsFrom("dragonflybsd", "glibc", 4);
  }

  lemma DragonflybsdIdFacts5()
    ensures !Contains("dragonflybsd", "klibc")
  {
    assert !ContainsFrom("dragonflybsd", "klibc", 4);
  }

  lemma DragonflybsdIdFacts6()
    ensures !Contains("dragonflybsd", "msvc")
  {
    assert !ContainsFrom("dragonflybsd", "msvc", 8);
    assert !ContainsFrom("dragonflybsd", "msvc", 4);
  }

  lemma DragonflybsdIdFacts7()
    ensures !Contains("dragonflybsd", "musl")
  {
    assert !ContainsFrom("dragonflybsd", "musl", 8);
    assert !ContainsFrom("dragonflybsd", "musl", 4);
  }

  lemma DragonflybsdIdFacts8()
    ensures !Contains("dragonflybsd", "newlib")
  {
    assert !ContainsFrom("dragonflybsd", "newlib", 4);
  }

  lemma DragonflybsdIdFacts9()
    ensures !Contains("dragonflybsd", "uclibc")
  {
    assert !ContainsFrom("dragonflybsd", "uclibc", 4);
  }

  lemma OwnIdsInDragonflybsd()
    ensures forall e: Env :: !OwnIdIn("dragonflybsd", e)
  {
    DragonflybsdIdFacts1();
    DragonflybsdIdFacts2();
    DragonflybsdIdFacts3();
    DragonflybsdIdFacts4();
    DragonflybsdIdFacts5();
    DragonflybsdIdFacts6();
    DragonflybsdIdFacts7();
    DragonflybsdIdFacts8();
    DragonflybsdIdFacts9();
    forall e: Env
      ensures !OwnIdIn("dragonflybsd", e)
    {
      match e
      case Unknown => IdsSpelled1();
      case Bionic => IdsSpelled1();
      case BsdLibc => IdsSpelled1();
      case DietLibc => IdsSpelled1();
      case Glibc => IdsSpelled2();
      case Klibc => IdsSpelled2();
      case Msvc => IdsSpelled2();
      case Musl => IdsSpelled2();
      case Newlib => IdsSpelled3();
      case UcLibc => IdsSpelled3();
    }
  }

  lemma DragonflybsdSkipsRule1Part1()
    ensures !Contains("dragonflybsd", "gcc")
  {
    assert !ContainsFrom("dragonflybsd", "gcc", 8);
    assert !ContainsFrom("dragonflybsd", "gcc", 4);
  }

  lemma DragonflybsdSkipsRule1Part2()
    ensures !Contains("dragonflybsd", "gnu")
  {
    assert !ContainsFrom("dragonflybsd", "gnu", 8);
    assert !ContainsFrom("dragonflybsd", "gnu", 4);
  }

  lemma DragonflybsdMatchesRule2()
    ensures Contains("dragonflybsd", "bsd")
  {
    assert HasAt("dragonflybsd", 9, "bsd");
    assert ContainsFrom("dragonflybsd", "bsd", 8);
    assert ContainsFrom("dragonflybsd", "bsd", 4);
  }

  lemma ClassifyDragonflybsd()
    ensures Classify("dragonflybsd") == BsdLibc
  {
    DragonflybsdSkipsRule1Part1();
    DragonflybsdSkipsRule1Part2();
    DragonflybsdMatchesRule2();
  }

  lemma ParseDragonflybsd()
    ensures Parse("dragonflybsd") == BsdLibc
  {
    NormalizeDragonflybsd();
    OwnIdsInDragonflybsd();
    ClassifyDragonflybsd();
    NoOwnId("dragonflybsd");
  }

  lemma NormalizeFreebsd()
    ensures Utils.Normalized("freebsd", false) == "freebsd"
  {
    assert Utils.Normalized("freebsd", false) == Utils.NormalizedPrefix("freebsd", 7, false);
  }

  lemma FreebsdIdFacts1()
    ensures !Contains("freebsd", "bionic")
  {
  }

  lemma FreebsdIdFacts2()
    ensures !Contains("freebsd", "bsdlibc")
  {
  }

  lemma FreebsdIdFacts3()
    ensures !Contains("freebsd", "glibc")
  {
  }

  lemma FreebsdIdFacts4()
    ensures !Contains("freebsd", "klibc")
  {
  }

  lemma FreebsdIdFacts5()
    ensures !Contains("freebsd", "msvc")
  {
  }

  lemma FreebsdIdFacts6()
    ensures !Contains("freebsd", "musl")
  {
  }

  lemma FreebsdIdFacts7()
    ensures !Contains("freebsd", "newlib")
  {
  }

  lemma FreebsdIdFacts8()
    ensures !Contains("freebsd", "uclibc")
  {
  }

  lemma OwnIdsInFreebsd()
    ensures forall e: Env :: !OwnIdIn("freebsd", e)
  {
    FreebsdIdFacts1();
    FreebsdIdFacts2();
    FreebsdIdFacts3();
    FreebsdIdFacts4();
    FreebsdIdFacts5();
    FreebsdIdFacts6();
    FreebsdIdFacts7();
    FreebsdIdFacts8();
    forall e: Env
      ensures !OwnIdIn("freebsd", e)
    {
      match e
      case Unknown => IdsSpelled1();
      case Bionic => IdsSpelled1();
      case BsdLibc => IdsSpelled1();
      case DietLibc => IdsSpelled1();
      case Glibc => IdsSpelled2();
      case Klibc => IdsSpelled2();
      case Msvc => IdsSpelled2();
      case Musl => IdsSpelled2();
      case Newlib => IdsSpelled3();
      case UcLibc => IdsSpelled3();
    }
  }

  lemma FreebsdSkipsRule1Part1()
    ensures !Contains("freebsd", "gcc")
  {
  }

  lemma FreebsdSkipsRule1Part2()
    ensures !Contains("freebsd", "gnu")
  {
  }

  lemma FreebsdMatchesRule2()
    ensures Contains("freebsd", "bsd")
  {
  }

  lemma ClassifyFreebsd()
    ensures Classify("freebsd") == BsdLibc
  {
    FreebsdSkipsRule1Part1();
    FreebsdSkipsRule1Part2();
    FreebsdMatchesRule2();
  }

  lemma ParseFreebsd()
    ensures Parse("freebsd") == BsdLibc
  {
    NormalizeFreebsd();
    OwnIdsInFreebsd();
    ClassifyFreebsd();
    NoOwnId("freebsd");
  }

  lemma NormalizeNetbsd()
    ensures Utils.Normalized("netbsd", false) == "netbsd"
  {
    assert Utils.Normalized("netbsd", false) == Utils.NormalizedPrefix("netbsd", 6, false);
  }

  lemma NetbsdIdFacts1()
    ensures !Contains("netbsd", "bionic")
      && !Contains("netbsd", "glibc")
  {
  }

  lemma NetbsdIdFacts2()
    ensures !Contains("netbsd", "klibc")
      && !Contains("netbsd", "msvc")
  {
  }

  lemma NetbsdIdFacts3()
    ensures !Contains("netbsd", "musl")
      && !Contains("netbsd", "newlib")
  {
  }

  lemma NetbsdIdFacts4()
    ensures !Contains("netbsd", "uclibc")
  {
  }

  lemma OwnIdsInNetbsd()
    ensures forall e: Env :: !OwnIdIn("netbsd", e)
  {
    NetbsdIdFacts1();
    NetbsdIdFacts2();
    NetbsdIdFacts3();
    NetbsdIdFacts4();
    forall e: Env
      ensures !OwnIdIn("netbsd", e)
    {
      match e
      case Unknown => IdsSpelled1();
      case Bionic => IdsSpelled1();
      case BsdLibc => IdsSpelled1();
      case DietLibc => IdsSpelled1();
      case Glibc => IdsSpelled2();
      case Klibc => IdsSpelled2();
      case Msvc => IdsSpelled2();
      case Musl => IdsSpelled2();
      case Newlib => IdsSpelled3();
      case UcLibc => IdsSpelled3();
    }
  }

  lemma NetbsdSkipsRules1Part1To1Part2()
    ensures !Contains("netbsd", "gcc")
      && !Contains("netbsd", "gnu")
  {
  }

  lemma NetbsdMatchesRule2()
    ensures Contains("netbsd", "bsd")
  {
  }

  lemma ClassifyNetbsd()
    ensures Classify("netbsd") == BsdLibc
  {
    NetbsdSkipsRules1Part1To1Part2();
    NetbsdMatchesRule2();
  }

  lemma ParseNetbsd()
    ensures Parse("netbsd") == BsdLibc
  {
    NormalizeNetbsd();
    OwnIdsInNetbsd();
    ClassifyNetbsd();
    NoOwnId("netbsd");
  }

  lemma NormalizeOpenbsd()
    ensures Utils.Normalized("openbsd", false) == "openbsd"
  {
    assert Utils.Normalized("openbsd", false) == Utils.NormalizedPrefix("openbsd", 7, false);
  }

  lemma OpenbsdIdFacts1()
    ensures !Contains("openbsd", "bionic")
  {
  }

  lemma OpenbsdIdFacts2()
    ensures !Contains("openbsd", "bsdlibc")
  {
  }

  lemma OpenbsdIdFacts3()
    ensures !Contains("openbsd", "glibc")
  {
  }

  lemma OpenbsdIdFacts4()
    ensures !Contains("openbsd", "klibc")
  {
  }

  lemma OpenbsdIdFacts5()
    ensures !Contains("openbsd", "msvc")
  {
  }

  lemma OpenbsdIdFacts6()
    ensures !Contains("openbsd", "musl")
  {
  }

  lemma OpenbsdIdFacts7()
    ensures !Contains("openbsd", "newlib")
  {
  }

  lemma OpenbsdIdFacts8()
    ensures !Contains("openbsd", "uclibc")
  {
  }

  lemma OwnIdsInOpenbsd()
    ensures forall e: Env :: !OwnIdIn("openbsd", e)
  {
    OpenbsdIdFacts1();
    OpenbsdIdFacts2();
    OpenbsdIdFacts3();
    OpenbsdIdFacts4();
    OpenbsdIdFacts5();
    OpenbsdIdFacts6();
    OpenbsdIdFacts7();
    OpenbsdIdFacts8();
    forall e: Env
      ensures !OwnIdIn("openbsd", e)
    {
      match e
      case Unknown => IdsSpelled1();
      case Bionic => IdsSpelled1();
      case BsdLibc => IdsSpelled1();
      case DietLibc => IdsSpelled1();
      case Glibc => IdsSpelled2();
      case Klibc => IdsSpelled2();
      case Msvc => IdsSpelled2();
      case Musl => IdsSpelled2();
      case Newlib => IdsSpelled3();
      case UcLibc => IdsSpelled3();
    }
  }

  lemma OpenbsdSkipsRule1Part1()
    ensures !Contains("openbsd", "gcc")
  {
  }

  lemma OpenbsdSkipsRule1Part2()
    ensures !Contains("openbsd", "gnu")
  {
  }

  lemma OpenbsdMatchesRule2()
    ensures Contains("openbsd", "bsd")
  {
  }

  lemma ClassifyOpenbsd()
    ensures Classify("openbsd") == BsdLibc
  {
    OpenbsdSkipsRule1Part1();
    OpenbsdSkipsRule1Part2();
    OpenbsdMatchesRule2();
  }

  lemma ParseOpenbsd()
    ensures Parse("openbsd") == BsdLibc
  {
    NormalizeOpenbsd();
    OwnIdsInOpenbsd();
    ClassifyOpenbsd();
    NoOwnId("openbsd");
  }

  lemma NormalizeWindows()
    ensures Utils.Normalized("windows", false) == "windows"
  {
    assert Utils.Normalized("windows", false) == Utils.NormalizedPrefix("windows", 7, false);
  }

  lemma WindowsIdFacts1()
    ensures !Contains("windows", "bionic")
  {
  }

  lemma WindowsIdFacts2()
    ensures !Contains("windows", "bsdlibc")
  {
  }

  lemma WindowsIdFacts3()
    ensures !Contains("windows", "glibc")
  {
  }

  lemma WindowsIdFacts4()
    ensures !Contains("windows", "klibc")
  {
  }

  lemma WindowsIdFacts5()
    ensures !Contains("windows", "msvc")
  {
  }

  lemma WindowsIdFacts6()
    ensures !Contains("windows", "musl")
  {
  }

  lemma WindowsIdFacts7()
    ensures !Contains("windows", "newlib")
  {
  }

  lemma WindowsIdFacts8()
    ensures !Contains("windows", "uclibc")
  {
  }

  lemma OwnIdsInWindows()
    ensures forall e: Env :: !OwnIdIn("windows", e)
  {
    WindowsIdFacts1();
    WindowsIdFacts2();
    WindowsIdFacts3();
    WindowsIdFacts4();
    WindowsIdFacts5();
    WindowsIdFacts6();
    WindowsIdFacts7();
    WindowsIdFacts8();
    forall e: Env
      ensures !OwnIdIn("windows", e)
    {
      match e
      case Unknown => IdsSpelled1();
      case Bionic => IdsSpelled1();
      case BsdLibc => IdsSpelled1();
      case DietLibc => IdsSpelled1();
      case Glibc => IdsSpelled2();
      case Klibc => IdsSpelled2();
      case Msvc => IdsSpelled2();
      case Musl => IdsSpelled2();
      case Newlib => IdsSpelled3();
      case UcLibc => IdsSpelled3();
    }
  }

  lemma WindowsSkipsRule1Part1()
    ensures !Contains("windows", "gcc")
  {
  }

  lemma WindowsSkipsRule1Part2()
    ensures !Contains("windows", "gnu")
  {
  }

  lemma WindowsSkipsRule2Part1()
    ensures !Contains("windows", "apple")
  {
  }

  lemma WindowsSkipsRule2Part2()
    ensures !Contains("windows", "bsd")
  {
  }

  lemma WindowsSkipsRule2Part3()
    ensures !Contains("windows", "darwin")
  {
  }

  lemma WindowsSkipsRule2Part4()
    ensures !Contains("windows", "mac")
  {
  }

  lemma WindowsSkipsRule2Part5()
    ensures !Contains("windows", "osx")
  {
  }

  lemma WindowsSkipsRule2Part6()
    ensures !Contains("windows", "ios")
  {
  }

  lemma WindowsSkipsRule2Part7()
    ensures !Contains("windows", "dragonfly")
  {
  }

  lemma WindowsMatchesRule3()
    ensures Contains("windows", "win")
  {
  }

  lemma ClassifyWindows()
    ensures Classify("windows") == Msvc
  {
    WindowsSkipsRule1Part1();
    WindowsSkipsRule1Part2();
    WindowsSkipsRule2Part1();
    WindowsSkipsRule2Part2();
    WindowsSkipsRule2Part3();
    WindowsSkipsRule2Part4();
    WindowsSkipsRule2Part5();
    WindowsSkipsRule2Part6();
    WindowsSkipsRule2Part7();
    WindowsMatchesRule3();
  }

  lemma ParseWindows()
    ensures Parse("windows") == Msvc
  {
    NormalizeWindows();
    OwnIdsInWindows();
    ClassifyWindows();
    NoOwnId("windows");
  }

  /**
   * The table of fixed environments agrees with `parse` of the operating
   * system's own id: the switch only saves running the probe.
   */
  lemma FixedEnvAgreesWithParse(os: Os.Os)
    requires FixedEnv(os).Some?
    ensures FixedEnv(os).value == Parse(Os.Id(os))
  {
    OsExamples.IdsSpelled();
    if os == Os.Android { ParseAndroid(); }
    else if os == Os.Darwin { ParseDarwin(); }
    else if os == Os.DragonflyBsd { ParseDragonflybsd(); }
    else if os == Os.FreeBsd { ParseFreebsd(); }
    else if os == Os.NetBsd { ParseNetbsd(); }
    else if os == Os.OpenBsd { ParseOpenbsd(); }
    else { ParseWindows(); }
  }

  lemma NormalizeX8664Darwin10GccPart1()
    ensures Utils.Normalized("x86_64-", false) == "x86-64-"
  {
    assert Utils.Normalized("x86_64-", false) == Utils.NormalizedPrefix("x86_64-", 7, false);
  }

  lemma NormalizeX8664Darwin10GccPart2()
    ensures Utils.Normalized("darwin1", false) == "darwin1"
  {
    assert Utils.Normalized("darwin1", false) == Utils.NormalizedPrefix("darwin1", 7, false);
  }

  lemma NormalizeX8664Darwin10GccPart3()
    ensures Utils.Normalized("0-gcc", false) == "0-gcc"
  {
    assert Utils.Normalized("0-gcc", false) == Utils.NormalizedPrefix("0-gcc", 5, false);
  }

  lemma NormalizeX8664Darwin10GccUpto2()
    ensures Utils.Normalized("x86_64-darwin1", false) == "x86-64-darwin1"
  {
    NormalizeX8664Darwin10GccPart1();
    NormalizeX8664Darwin10GccPart2();
    Utils.NormalizeConcat("x86_64-", "darwin1", false);
    assert "x86_64-" + "darwin1" == "x86_64-darwin1";
    assert "x86-64-" + "darwin1" == "x86-64-darwin1";
  }

  lemma NormalizeX8664Darwin10Gcc()
    ensures Utils.Normalized("x86_64-darwin10-gcc", false) == "x86-64-darwin10-gcc"
  {
    NormalizeX8664Darwin10GccUpto2();
    NormalizeX8664Darwin10GccPart3();
    Utils.NormalizeConcat("x86_64-darwin1", "0-gcc", false);
    assert "x86_64-darwin1" + "0-gcc" == "x86_64-darwin10-gcc";
    assert "x86-64-darwin1" + "0-gcc" == "x86-64-darwin10-gcc";
  }

  lemma X8664Darwin10GccIdFacts1()
    ensures !Contains("x86-64-darwin10-gcc", "bionic")
  {
    assert !ContainsFrom("x86-64-darwin10-gcc", "bionic", 12);
    assert !ContainsFrom("x86-64-darwin10-gcc", "bionic", 8);
    assert !ContainsFrom("x86-64-darwin10-gcc", "bionic", 4);
  }

  lemma X8664Darwin10GccIdFacts2()
    ensures !Contains("x86-64-darwin10-gcc", "bsdlibc")
  {
    assert !ContainsFrom("x86-64-darwin10-gcc", "bsdlibc", 12);
    assert !ContainsFrom("x86-64-darwin10-gcc", "bsdlibc", 8);
    assert !ContainsFrom("x86-64-darwin10-gcc", "bsdlibc", 4);
  }

  lemma X8664Darwin10GccIdFacts3()
    ensures !Contains("x86-64-darwin10-gcc", "dietlibc")
  {
    assert !ContainsFrom("x86-64-darwin10-gcc", "dietlibc", 8);
    assert !ContainsFrom("x86-64-darwin10-gcc", "dietlibc", 4);
  }

  lemma X8664Darwin10GccIdFacts4()
    ensures !Contains("x86-64-darwin10-gcc", "glibc")
  {
    assert !ContainsFrom("x86-64-darwin10-gcc", "glibc", 12);
    assert !ContainsFrom("x86-64-darwin10-gcc", "glibc", 8);
    assert !ContainsFrom("x86-64-darwin10-gcc", "glibc", 4);
  }

  lemma X8664Darwin10GccIdFacts5()
    ensures !Contains("x86-64-darwin10-gcc", "klibc")
  {
    assert !ContainsFrom("x86-64-darwin10-gcc", "klibc", 12);
    assert !ContainsFrom("x86-64-darwin10-gcc", "klibc", 8);
    assert !ContainsFrom("x86-64-darwin10-gcc", "klibc", 4);
  }

  lemma X8664Darwin10GccIdFacts6()
    ensures !Contains("x86-64-darwin10-gcc", "msvc")
  {
    assert !ContainsFrom("x86-64-darwin10-gcc", "msvc", 12);
    assert !ContainsFrom("x86-64-darwin10-gcc", "msvc", 8);
    assert !ContainsFrom("x86-64-darwin10-gcc", "msvc", 4);
  }

  lemma X8664Darwin10GccIdFacts7()
    ensures !Contains("x86-64-darwin10-gcc", "musl")
  {
    assert !ContainsFrom("x86-64-darwin10-gcc", "musl", 12);
    assert !ContainsFrom("x86-64-darwin10-gcc", "musl", 8);
    assert !ContainsFrom("x86-64-darwin10-gcc", "musl", 4);
  }

  lemma X8664Darwin10GccIdFacts8()
    ensures !Contains("x86-64-darwin10-gcc", "newlib")
  {
    assert !ContainsFrom("x86-64-darwin10-gcc", "newlib", 12);
    assert !ContainsFrom("x86-64-darwin10-gcc", "newlib", 8);
    assert !ContainsFrom("x86-64-darwin10-gcc", "newlib", 4);
  }

  lemma X8664Darwin10GccIdFacts9()
    ensures !Contains("x86-64-darwin10-gcc", "uclibc")
  {
    assert !ContainsFrom("x86-64-darwin10-gcc", "uclibc", 12);
    assert !ContainsFrom("x86-64-darwin10-gcc", "uclibc", 8);
    assert !ContainsFrom("x86-64-darwin10-gcc", "uclibc", 4);
  }

  lemma OwnIdsInX8664Darwin10Gcc()
    ensures forall e: Env :: !OwnIdIn("x86-64-darwin10-gcc", e)
  {
    X8664Darwin10GccIdFacts1();
    X8664Darwin10GccIdFacts2();
    X8664Darwin10GccIdFacts3();
    X8664Darwin10GccIdFacts4();
    X8664Darwin10GccIdFacts5();
    X8664Darwin10GccIdFacts6();
    X8664Darwin10GccIdFacts7();
    X8664Darwin10GccIdFacts8();
    X8664Darwin10GccIdFacts9();
    forall e: Env
      ensures !OwnIdIn("x86-64-darwin10-gcc", e)
    {
      match e
      case Unknown => IdsSpelled1();
      case Bionic => IdsSpelled1();
      case BsdLibc => IdsSpelled1();
      case DietLibc => IdsSpelled1();
      case Glibc => IdsSpelled2();
      case Klibc => IdsSpelled2();
      case Msvc => IdsSpelled2();
      case Musl => IdsSpelled2();
      case Newlib => IdsSpelled3();
      case UcLibc => IdsSpelled3();
    }
  }

  lemma X8664Darwin10GccMatchesRule1()
    ensures Contains("x86-64-darwin10-gcc", "gcc")
  {
    assert HasAt("x86-64-darwin10-gcc", 16, "gcc");
    assert ContainsFrom("x86-64-darwin10-gcc", "gcc", 16);
    assert ContainsFrom("x86-64-darwin10-gcc", "gcc", 12);
    assert ContainsFrom("x86-64-darwin10-gcc", "gcc", 8);
    assert ContainsFrom("x86-64-darwin10-gcc", "gcc", 4);
  }

  lemma ClassifyX8664Darwin10Gcc()
    ensures Classify("x86-64-darwin10-gcc") == Glibc
  {
    X8664Darwin10GccMatchesRule1();
  }

  lemma ParseX8664Darwin10Gcc()
    ensures Parse("x86_64-darwin10-gcc") == Glibc
  {
    NormalizeX8664Darwin10Gcc();
    OwnIdsInX8664Darwin10Gcc();
    ClassifyX8664Darwin10Gcc();
    NoOwnId("x86_64-darwin10-gcc");
  }

  lemma NormalizeElf()
    ensures Utils.Normalized("elf", false) == "elf"
  {
    assert Utils.Normalized("elf", false) == Utils.NormalizedPrefix("elf", 3, false);
  }

  lemma OwnIdsInElf()
    ensures forall e: Env :: !OwnIdIn("elf", e)
  {
    forall e: Env
      ensures !OwnIdIn("elf", e)
    {
      match e
      case Unknown => IdsSpelled1();
      case Bionic => IdsSpelled1();
      case BsdLibc => IdsSpelled1();
      case DietLibc => IdsSpelled1();
      case Glibc => IdsSpelled2();
      case Klibc => IdsSpelled2();
      case Msvc => IdsSpelled2();
      case Musl => IdsSpelled2();
      case Newlib => IdsSpelled3();
      case UcLibc => IdsSpelled3();
    }
  }

  lemma ElfSkipsRules1Part1To2Part2()
    ensures !Contains("elf", "gcc")
      && !Contains("elf", "gnu")
      && !Contains("elf", "apple")
      && !Contains("elf", "bsd")
  {
  }

  lemma ElfSkipsRules2Part3To2Part6()
    ensures !Contains("elf", "darwin")
      && !Contains("elf", "mac")
      && !Contains("elf", "osx")
      && !Contains("elf", "ios")
  {
  }

  lemma ElfSkipsRules2Part7To3Part3()
    ensures !Contains("elf", "dragonfly")
      && !Contains("elf", "crtdll")
      && !Contains("elf", "ucrt")
      && !Contains("elf", "vcruntime")
  {
  }

  lemma ElfSkipsRules3Part4To4()
    ensures !Contains("elf", "vs")
      && !Contains("elf", "win")
      && !Contains("elf", "android")
  {
  }

  lemma ClassifyElf()
    ensures Classify("elf") == Unknown
  {
    ElfSkipsRules1Part1To2Part2();
    ElfSkipsRules2Part3To2Part6();
    ElfSkipsRules2Part7To3Part3();
    ElfSkipsRules3Part4To4();
  }

  lemma ParseElf()
    ensures Parse("elf") == Unknown
  {
    NormalizeElf();
    OwnIdsInElf();
    ClassifyElf();
    NoOwnId("elf");
  }

  lemma NormalizeGcc()
    ensures Utils.Normalized("gcc", false) == "gcc"
  {
    assert Utils.Normalized("gcc", false) == Utils.NormalizedPrefix("gcc", 3, false);
  }

  lemma OwnIdsInGcc()
    ensures forall e: Env :: !OwnIdIn("gcc", e)
  {
    forall e: Env
      ensures !OwnIdIn("gcc", e)
    {
      match e
      case Unknown => IdsSpelled1();
      case Bionic => IdsSpelled1();
      case BsdLibc => IdsSpelled1();
      case DietLibc => IdsSpelled1();
      case Glibc => IdsSpelled2();
      case Klibc => IdsSpelled2();
      case Msvc => IdsSpelled2();
      case Musl => IdsSpelled2();
      case Newlib => IdsSpelled3();
      case UcLibc => IdsSpelled3();
    }
  }

  lemma GccMatchesRule1()
    ensures Contains("gcc", "gcc")
  {
  }

  lemma ClassifyGcc()
    ensures Classify("gcc") == Glibc
  {
    GccMatchesRule1();
  }

  lemma ParseGcc()
    ensures Parse("gcc") == Glibc
  {
    NormalizeGcc();
    OwnIdsInGcc();
    ClassifyGcc();
    NoOwnId("gcc");
  }

  lemma NormalizeWin()
    ensures Utils.Normalized("win", false) == "win"
  {
    assert Utils.Normalized("win", false) == Utils.NormalizedPrefix("win", 3, false);
  }

  lemma OwnIdsInWin()
    ensures forall e: Env :: !OwnIdIn("win", e)
  {
    forall e: Env
      ensures !OwnIdIn("win", e)
    {
      match e
      case Unknown => IdsSpelled1();
      case Bionic => IdsSpelled1();
      case BsdLibc => IdsSpelled1();
      case DietLibc => IdsSpelled1();
      case Glibc => IdsSpelled2();
      case Klibc => IdsSpelled2();
      case Msvc => IdsSpelled2();
      case Musl => IdsSpelled2();
      case Newlib => IdsSpelled3();
      case UcLibc => IdsSpelled3();
    }
  }

  lemma WinSkipsRules1Part1To2Part2()
    ensures !Contains("win", "gcc")
      && !Contains("win", "gnu")
      && !Contains("win", "apple")
      && !Contains("win", "bsd")
  {
  }

  lemma WinSkipsRules2Part3To2Part6()
    ensures !Contains("win", "darwin")
      && !Contains("win", "mac")
      && !Contains("win", "osx")
      && !Contains("win", "ios")
  {
  }

  lemma WinSkipsRule2Part7()
    ensures !Contains("win", "dragonfly")
  {
  }

  lemma WinMatchesRule3()
    ensures Contains("win", "win")
  {
  }

  lemma ClassifyWin()
    ensures Classify("win") == Msvc
  {
    WinSkipsRules1Part1To2Part2();
    WinSkipsRules2Part3To2Part6();
    WinSkipsRule2Part7();
    WinMatchesRule3();
  }

  lemma ParseWin()
    ensures Parse("win") == Msvc
  {
    NormalizeWin();
    OwnIdsInWin();
    ClassifyWin();
    NoOwnId("win");
  }

  lemma NormalizeBSDLIBC()
    ensures Utils.Normalized("BSDLIBC", false) == "bsdlibc"
  {
    assert Utils.Normalized("BSDLIBC", false) == Utils.NormalizedPrefix("BSDLIBC", 7, false);
  }

  lemma BSDLIBCIdFacts1()
    ensures !Contains("bsdlibc", "bionic")
  {
  }

  lemma BSDLIBCIdFacts2()
    ensures Contains("bsdlibc", "bsdlibc")
  {
  }

  lemma BSDLIBCIdFacts3()
    ensures !Contains("bsdlibc", "glibc")
  {
  }

  lemma BSDLIBCIdFacts4()
    ensures !Contains("bsdlibc", "klibc")
  {
  }

  lemma BSDLIBCIdFacts5()
    ensures !Contains("bsdlibc", "msvc")
  {
  }

  lemma BSDLIBCIdFacts6()
    ensures !Contains("bsdlibc", "musl")
  {
  }

  lemma BSDLIBCIdFacts7()
    ensures !Contains("bsdlibc", "newlib")
  {
  }

  lemma BSDLIBCIdFacts8()
    ensures !Contains("bsdlibc", "uclibc")
  {
  }

  lemma OwnIdsInBSDLIBC()
    ensures forall e: Env :: OwnIdIn("bsdlibc", e) <==> e == BsdLibc
  {
    BSDLIBCIdFacts1();
    BSDLIBCIdFacts2();
    BSDLIBCIdFacts3();
    BSDLIBCIdFacts4();
    BSDLIBCIdFacts5();
    BSDLIBCIdFacts6();
    BSDLIBCIdFacts7();
    BSDLIBCIdFacts8();
    forall e: Env
      ensures OwnIdIn("bsdlibc", e) <==> e == BsdLibc
    {
      match e
      case Unknown => IdsSpelled1();
      case Bionic => IdsSpelled1();
      case BsdLibc => IdsSpelled1();
      case DietLibc => IdsSpelled1();
      case Glibc => IdsSpelled2();
      case Klibc => IdsSpelled2();
      case Msvc => IdsSpelled2();
      case Musl => IdsSpelled2();
      case Newlib => IdsSpelled3();
      case UcLibc => IdsSpelled3();
    }
  }

  lemma ParseBSDLIBC()
    ensures Parse("BSDLIBC") == BsdLibc
  {
    NormalizeBSDLIBC();
    OwnIdsInBSDLIBC();
    OnlyOwnId("BSDLIBC", BsdLibc);
  }

  lemma NormalizeBlank()
    ensures Utils.Normalized("\t\n\t\n", false) == "----"
  {
    assert Utils.Normalized("\t\n\t\n", false) == Utils.NormalizedPrefix("\t\n\t\n", 4, false);
  }

  lemma BlankIdFacts1()
    ensures !Contains("----", "msvc")
      && !Contains("----", "musl")
  {
  }

  lemma OwnIdsInBlank()
    ensures forall e: Env :: !OwnIdIn("----", e)
  {
    BlankIdFacts1();
    forall e: Env
      ensures !OwnIdIn("----", e)
    {
      match e
      case Unknown => IdsSpelled1();
      case Bionic => IdsSpelled1();
      case BsdLibc => IdsSpelled1();
      case DietLibc => IdsSpelled1();
      case Glibc => IdsSpelled2();
      case Klibc => IdsSpelled2();
      case Msvc => IdsSpelled2();
      case Musl => IdsSpelled2();
      case Newlib => IdsSpelled3();
      case UcLibc => IdsSpelled3();
    }
  }

  lemma BlankSkipsRules1Part1To2Part1()
    ensures !Contains("----", "gcc")
      && !Contains("----", "gnu")
      && !Contains("----", "apple")
  {
  }

  lemma BlankSkipsRules2Part2To2Part4()
    ensures !Contains("----", "bsd")
      && !Contains("----", "darwin")
      && !Contains("----", "mac")
  {
  }

  lemma BlankSkipsRules2Part5To2Part7()
    ensures !Contains("----", "osx")
      && !Contains("----", "ios")
      && !Contains("----", "dragonfly")
  {
  }

  lemma BlankSkipsRules3Part1To3Part3()
    ensures !Contains("----", "crtdll")
      && !Contains("----", "ucrt")
      && !Contains("----", "vcruntime")
  {
  }

  lemma BlankSkipsRules3Part4To4()
    ensures !Contains("----", "vs")
      && !Contains("----", "win")
      && !Contains("----", "android")
  {
  }

  lemma ClassifyBlank()
    ensures Classify("----") == Unknown
  {
    BlankSkipsRules1Part1To2Part1();
    BlankSkipsRules2Part2To2Part4();
    BlankSkipsRules2Part5To2Part7();
    BlankSkipsRules3Part1To3Part3();
    BlankSkipsRules3Part4To4();
  }

  lemma ParseBlank()
    ensures Parse("\t\n\t\n") == Unknown
  {
    NormalizeBlank();
    OwnIdsInBlank();
    ClassifyBlank();
    NoOwnId("\t\n\t\n");
  }

  /**
   * Documented answers: `gcc` is tried before the BSD tokens, and text
   * without a token, blank text included, is Unknown.
   */
  lemma ParseExamples()
    ensures Parse("") == Unknown
    ensures Parse("x86_64-darwin10-gcc") == Glibc
    ensures Parse("elf") == Unknown
    ensures Parse("gcc") == Glibc
    ensures Parse("musl") == Musl
    ensures Parse("win") == Msvc
    ensures Parse("BSDLIBC") == BsdLibc
    ensures Parse("\t\n\t\n") == Unknown
  {
    ParseX8664Darwin10Gcc();
    ParseElf();
    ParseGcc();
    ParseMusl();
    ParseWin();
    ParseBSDLIBC();
    ParseBlank();
  }

  lemma NormalizeMuslLibcX8664Part1()
    ensures Utils.Normalized("musl li", false) == "musl-li"
  {
    assert Utils.Normalized("musl li", false) == Utils.NormalizedPrefix("musl li", 7, false);
  }

  lemma NormalizeMuslLibcX8664Part2()
    ensures Utils.Normalized("bc (x86", false) == "bc--x86"
  {
    assert Utils.Normalized("bc (x86", false) == Utils.NormalizedPrefix("bc (x86", 7, false);
  }

  lemma NormalizeMuslLibcX8664Part3()
    ensures Utils.Normalized("_64)", false) == "-64-"
  {
    assert Utils.Normalized("_64)", false) == Utils.NormalizedPrefix("_64)", 4, false);
  }

  lemma NormalizeMuslLibcX8664Upto2()
    ensures Utils.Normalized("musl libc (x86", false) == "musl-libc--x86"
  {
    NormalizeMuslLibcX8664Part1();
    NormalizeMuslLibcX8664Part2();
    Utils.NormalizeConcat("musl li", "bc (x86", false);
    assert "musl li" + "bc (x86" == "musl libc (x86";
    assert "musl-li" + "bc--x86" == "musl-libc--x86";
  }

  lemma NormalizeMuslLibcX8664()
    ensures Utils.Normalized("musl libc (x86_64)", false) == "musl-libc--x86-64-"
  {
    NormalizeMuslLibcX8664Upto2();
    NormalizeMuslLibcX8664Part3();
    Utils.NormalizeConcat("musl libc (x86", "_64)", false);
    assert "musl libc (x86" + "_64)" == "musl libc (x86_64)";
    assert "musl-libc--x86" + "-64-" == "musl-libc--x86-64-";
  }

  lemma MuslLibcX8664IdFacts1()
    ensures !Contains("musl-libc--x86-64-", "bionic")
  {
    assert !ContainsFrom("musl-libc--x86-64-", "bionic", 12);
    assert !ContainsFrom("musl-libc--x86-64-", "bionic", 8);
    assert !ContainsFrom("musl-libc--x86-64-", "bionic", 4);
  }

  lemma MuslLibcX8664IdFacts2()
    ensures !Contains("musl-libc--x86-64-", "bsdlibc")
  {
    assert !ContainsFrom("musl-libc--x86-64-", "bsdlibc", 8);
    assert !ContainsFrom("musl-libc--x86-64-", "bsdlibc", 4);
  }

  lemma MuslLibcX8664IdFacts3()
    ensures !Contains("musl-libc--x86-64-", "dietlibc")
  {
    assert !ContainsFrom("musl-libc--x86-64-", "dietlibc", 8);
    assert !ContainsFrom("musl-libc--x86-64-", "dietlibc", 4);
  }

  lemma MuslLibcX8664IdFacts4()
    ensures !Contains("musl-libc--x86-64-", "glibc")
  {
    assert !ContainsFrom("musl-libc--x86-64-", "glibc", 12);
    assert !ContainsFrom("musl-libc--x86-64-", "glibc", 8);
    assert !ContainsFrom("musl-libc--x86-64-", "glibc", 4);
  }

  lemma MuslLibcX8664IdFacts5()
    ensures !Contains("musl-libc--x86-64-", "klibc")
  {
    assert !ContainsFrom("musl-libc--x86-64-", "klibc", 12);
    assert !ContainsFrom("musl-libc--x86-64-", "klibc", 8);
    assert !ContainsFrom("musl-libc--x86-64-", "klibc", 4);
  }

  lemma MuslLibcX8664IdFacts6()
    ensures !Contains("musl-libc--x86-64-", "msvc")
  {
    assert !ContainsFrom("musl-libc--x86-64-", "msvc", 12);
    assert !ContainsFrom("musl-libc--x86-64-", "msvc", 8);
    assert !ContainsFrom("musl-libc--x86-64-", "msvc", 4);
  }

  lemma MuslLibcX8664IdFacts7()
    ensures Contains("musl-libc--x86-64-", "musl")
  {
    assert HasAt("musl-libc--x86-64-", 0, "musl");
  }

  lemma MuslLibcX8664IdFacts8()
    ensures !Contains("musl-libc--x86-64-", "newlib")
  {
    assert !ContainsFrom("musl-libc--x86-64-", "newlib", 12);
    assert !ContainsFrom("musl-libc--x86-64-", "newlib", 8);
    assert !ContainsFrom("musl-libc--x86-64-", "newlib", 4);
  }

  lemma MuslLibcX8664IdFacts9()
    ensures !Contains("musl-libc--x86-64-", "uclibc")
  {
    assert !ContainsFrom("musl-libc--x86-64-", "uclibc", 12);
    assert !ContainsFrom("musl-libc--x86-64-", "uclibc", 8);
    assert !ContainsFrom("musl-libc--x86-64-", "uclibc", 4);
  }

  lemma OwnIdsInMuslLibcX8664()
    ensures forall e: Env :: OwnIdIn("musl-libc--x86-64-", e) <==> e == Musl
  {
    MuslLibcX8664IdFacts1();
    MuslLibcX8664IdFacts2();
    MuslLibcX8664IdFacts3();
    MuslLibcX8664IdFacts4();
    MuslLibcX8664IdFacts5();
    MuslLibcX8664IdFacts6();
    MuslLibcX8664IdFacts7();
    MuslLibcX8664IdFacts8();
    MuslLibcX8664IdFacts9();
    forall e: Env
      ensures OwnIdIn("musl-libc--x86-64-", e) <==> e == Musl
    {
      match e
      case Unknown => IdsSpelled1();
      case Bionic => IdsSpelled1();
      case BsdLibc => IdsSpelled1();
      case DietLibc => IdsSpelled1();
      case Glibc => IdsSpelled2();
      case Klibc => IdsSpelled2();
      case Msvc => IdsSpelled2();
      case Musl => IdsSpelled2();
      case Newlib => IdsSpelled3();
      case UcLibc => IdsSpelled3();
    }
  }

  lemma ParseMuslLibcX8664()
    ensures Parse("musl libc (x86_64)") == Musl
  {
    NormalizeMuslLibcX8664();
    OwnIdsInMuslLibcX8664();
    OnlyOwnId("musl libc (x86_64)", Musl);
  }

  /** The first line `ldd --version` prints on a musl system. */
  const AlpineLine := "musl libc (x86_64)"

  /** What `ldd --version` prints on a musl system, up to its second line. */
  const AlpineLdd := AlpineLine + "\n" + "Version 1.2.2"

  lemma AlpineLddIsByteText()
    ensures IsByteText(AlpineLdd) && '\n' !in AlpineLine
    ensures |AlpineLine| < |AlpineLdd| && AlpineLdd[..|AlpineLine|] == AlpineLine && AlpineLdd[|AlpineLine|] == '\n'
  {
  }

  /** On Linux the environment comes from the probe, here the output of a musl `ldd`. */
  lemma CurrentFromProbe(readFails: bool)
    ensures Current(Os.Linux, Exited(Bytes(AlpineLdd), readFails)) == Musl
  {
    AlpineLddIsByteText();
    CurrentOfText(Os.Linux, AlpineLdd, AlpineLine, readFails);
    ParseMuslLibcX8664();
  }
}
