/**
 * Concrete answers of `Arch.parse`: every key of the `current()` table is
 * classified as the table says, and the documented examples land where the
 * rule order puts them. Each string is walked through the cascade in small
 * steps, one lemma per group of rules it misses.
 */
module ArchExamples {
  import opened Strings
  import opened Utils
  import opened Arch
  import opened Host

  lemma AlphaSkipsRule1()
    ensures !Matches(X86_64At, "alpha")
  {
  }

  lemma AlphaSkipsRules2To3()
    ensures !Matches(X86_32At, "alpha")
      && !Matches(Aarch64BeAt, "alpha")
  {
  }

  lemma AlphaSkipsRules4To6()
    ensures !Contains("alpha", "aarch")
      && !Matches(Arm64BeAt, "alpha")
      && !Matches(Arm32BeAt, "alpha")
  {
  }

  lemma AlphaSkipsRules7To8()
    ensures !Matches(Arm64At, "alpha")
      && !Contains("alpha", "arm")
  {
  }

  lemma AlphaMatchesRule9()
    ensures Contains("alpha", "alpha")
  {
  }

  lemma ClassifyAlpha()
    ensures Classify("alpha", "alpha") == Alpha64
  {
    AlphaSkipsRule1();
    AlphaSkipsRules2To3();
    AlphaSkipsRules4To6();
    AlphaSkipsRules7To8();
    AlphaMatchesRule9();
  }

  lemma NormalizeAlpha()
    ensures Normalized("alpha", false) == "alpha"
    ensures Normalized("alpha", true) == "alpha"
  {
    assert Normalized("alpha", false) == NormalizedPrefix("alpha", 5, false);
    assert Normalized("alpha", true) == NormalizedPrefix("alpha", 5, true);
  }

  lemma ParseAlpha()
    ensures Parse("alpha") == Alpha64
  {
    NormalizeAlpha();
    ClassifyAlpha();
  }

  lemma ArmSkipsRules1To3()
    ensures !Matches(X86_64At, "arm")
      && !Matches(X86_32At, "arm")
      && !Matches(Aarch64BeAt, "arm")
  {
  }

  lemma ArmSkipsRules4To7()
    ensures !Contains("arm", "aarch")
      && !Matches(Arm64BeAt, "arm")
      && !Matches(Arm32BeAt, "arm")
      && !Matches(Arm64At, "arm")
  {
  }

  lemma ArmMatchesRule8()
    ensures Contains("arm", "arm")
  {
  }

  lemma ClassifyArm()
    ensures Classify("arm", "arm") == Arm32
  {
    ArmSkipsRules1To3();
    ArmSkipsRules4To7();
    ArmMatchesRule8();
  }

  lemma NormalizeArm()
    ensures Normalized("arm", false) == "arm"
    ensures Normalized("arm", true) == "arm"
  {
    assert Normalized("arm", false) == NormalizedPrefix("arm", 3, false);
    assert Normalized("arm", true) == NormalizedPrefix("arm", 3, true);
  }

  lemma ParseArm()
    ensures Parse("arm") == Arm32
  {
    NormalizeArm();
    ClassifyArm();
  }

  lemma Arm64SkipsRule1()
    ensures !Matches(X86_64At, "arm64")
  {
  }

  lemma Arm64SkipsRules2To3()
    ensures !Matches(X86_32At, "arm64")
      && !Matches(Aarch64BeAt, "arm64")
  {
  }

  lemma Arm64SkipsRules4To6()
    ensures !Contains("arm64", "aarch")
      && !Matches(Arm64BeAt, "arm64")
      && !Matches(Arm32BeAt, "arm64")
  {
  }

  lemma Arm64MatchesRule7()
    ensures Matches(Arm64At, "arm64")
  {
  }

  lemma ClassifyArm64()
    ensures Classify("arm64", "arm64") == Arm64
  {
    Arm64SkipsRule1();
    Arm64SkipsRules2To3();
    Arm64SkipsRules4To6();
    Arm64MatchesRule7();
  }

  lemma NormalizeArm64()
    ensures Normalized("arm64", false) == "arm64"
    ensures Normalized("arm64", true) == "arm64"
  {
    assert Normalized("arm64", false) == NormalizedPrefix("arm64", 5, false);
    assert Normalized("arm64", true) == NormalizedPrefix("arm64", 5, true);
  }

  lemma ParseArm64()
    ensures Parse("arm64") == Arm64
  {
    NormalizeArm64();
    ClassifyArm64();
  }

  lemma Aarch64SkipsRule1()
    ensures !Matches(X86_64At, "aarch64")
  {
  }

  lemma Aarch64SkipsRule2()
    ensures !Matches(X86_32At, "aarch64")
  {
  }

  lemma Aarch64SkipsRule3()
    ensures !Matches(Aarch64BeAt, "aarch64")
  {
  }

  lemma Aarch64MatchesRule4()
    ensures Contains("aarch64", "aarch")
  {
  }

  lemma ClassifyAarch64()
    ensures Classify("aarch64", "aarch64") == Arm64
  {
    Aarch64SkipsRule1();
    Aarch64SkipsRule2();
    Aarch64SkipsRule3();
    Aarch64MatchesRule4();
  }

  lemma NormalizeAarch64()
    ensures Normalized("aarch64", false) == "aarch64"
    ensures Normalized("aarch64", true) == "aarch64"
  {
    assert Normalized("aarch64", false) == NormalizedPrefix("aarch64", 7, false);
    assert Normalized("aarch64", true) == NormalizedPrefix("aarch64", 7, true);
  }

  lemma ParseAarch64()
    ensures Parse("aarch64") == Arm64
  {
    NormalizeAarch64();
    ClassifyAarch64();
  }

  lemma Ia64SkipsRules1To2()
    ensures !Matches(X86_64At, "ia64")
      && !Matches(X86_32At, "ia64")
  {
  }

  lemma Ia64SkipsRules3To6()
    ensures !Matches(Aarch64BeAt, "ia64")
      && !Contains("ia64", "aarch")
      && !Matches(Arm64BeAt, "ia64")
      && !Matches(Arm32BeAt, "ia64")
  {
  }

  lemma Ia64SkipsRules7To10()
    ensures !Matches(Arm64At, "ia64")
      && !Contains("ia64", "arm")
      && !Contains("ia64", "alpha")
      && !Matches(Ia32At, "ia64")
  {
  }

  lemma Ia64MatchesRule11()
    ensures Matches(Ia64At, "ia64")
  {
  }

  lemma ClassifyIa64()
    ensures Classify("ia64", "ia64") == Ia64
  {
    Ia64SkipsRules1To2();
    Ia64SkipsRules3To6();
    Ia64SkipsRules7To10();
    Ia64MatchesRule11();
  }

  lemma NormalizeIa64()
    ensures Normalized("ia64", false) == "ia64"
    ensures Normalized("ia64", true) == "ia64"
  {
    assert Normalized("ia64", false) == NormalizedPrefix("ia64", 4, false);
    assert Normalized("ia64", true) == NormalizedPrefix("ia64", 4, true);
  }

  lemma ParseIa64()
    ensures Parse("ia64") == Ia64
  {
    NormalizeIa64();
    ClassifyIa64();
  }

  lemma M68kSkipsRules1To2()
    ensures !Matches(X86_64At, "m68k")
      && !Matches(X86_32At, "m68k")
  {
  }

  lemma M68kSkipsRules3To6()
    ensures !Matches(Aarch64BeAt, "m68k")
      && !Contains("m68k", "aarch")
      && !Matches(Arm64BeAt, "m68k")
      && !Matches(Arm32BeAt, "m68k")
  {
  }

  lemma M68kSkipsRules7To10()
    ensures !Matches(Arm64At, "m68k")
      && !Contains("m68k", "arm")
      && !Contains("m68k", "alpha")
      && !Matches(Ia32At, "m68k")
  {
  }

  lemma M68kSkipsRule11()
    ensures !Matches(Ia64At, "m68k")
  {
  }

  lemma M68kMatchesRule12()
    ensures (Contains("m68k", "m68k") || Contains("m68k", "m68000"))
  {
  }

  lemma ClassifyM68k()
    ensures Classify("m68k", "m68k") == M68k32
  {
    M68kSkipsRules1To2();
    M68kSkipsRules3To6();
    M68kSkipsRules7To10();
    M68kSkipsRule11();
    M68kMatchesRule12();
  }

  lemma NormalizeM68k()
    ensures Normalized("m68k", false) == "m68k"
    ensures Normalized("m68k", true) == "m68k"
  {
    assert Normalized("m68k", false) == NormalizedPrefix("m68k", 4, false);
    assert Normalized("m68k", true) == NormalizedPrefix("m68k", 4, true);
  }

  lemma ParseM68k()
    ensures Parse("m68k") == M68k32
  {
    NormalizeM68k();
    ClassifyM68k();
  }

  lemma MipsSkipsRules1To2()
    ensures !Matches(X86_64At, "mips")
      && !Matches(X86_32At, "mips")
  {
  }

  lemma MipsSkipsRules3To6()
    ensures !Matches(Aarch64BeAt, "mips")
      && !Contains("mips", "aarch")
      && !Matches(Arm64BeAt, "mips")
      && !Matches(Arm32BeAt, "mips")
  {
  }

  lemma MipsSkipsRules7To10()
    ensures !Matches(Arm64At, "mips")
      && !Contains("mips", "arm")
      && !Contains("mips", "alpha")
      && !Matches(Ia32At, "mips")
  {
  }

  lemma MipsSkipsRules11To14()
    ensures !Matches(Ia64At, "mips")
      && !(Contains("mips", "m68k") || Contains("mips", "m68000"))
      && !Matches(Ibmz64At, "mips")
      && !Matches(Ibmz32At, "mips")
  {
  }

  lemma MipsSkipsRules15To18()
    ensures !Matches(Ppc64LeAt, "mips")
      && !Matches(Ppc32LeAt, "mips")
      && !Matches(Ppc64At, "mips")
      && !Matches(Ppc32At, "mips")
  {
  }

  lemma MipsSkipsRules19To21()
    ensures !Matches(Mips64LeAt, "mips")
      && !Matches(Mips32LeAt, "mips")
      && !Matches(Mips64At, "mips")
  {
  }

  lemma MipsMatchesRule22()
    ensures Contains("mips", "mips")
  {
  }

  lemma ClassifyMips()
    ensures Classify("mips", "mips") == Mips32
  {
    MipsSkipsRules1To2();
    MipsSkipsRules3To6();
    MipsSkipsRules7To10();
    MipsSkipsRules11To14();
    MipsSkipsRules15To18();
    MipsSkipsRules19To21();
    MipsMatchesRule22();
  }

  lemma NormalizeMips()
    ensures Normalized("mips", false) == "mips"
    ensures Normalized("mips", true) == "mips"
  {
    assert Normalized("mips", false) == NormalizedPrefix("mips", 4, false);
    assert Normalized("mips", true) == NormalizedPrefix("mips", 4, true);
  }

  lemma ParseMips()
    ensures Parse("mips") == Mips32
  {
    NormalizeMips();
    ClassifyMips();
  }

  lemma MipselSkipsRule1()
    ensures !Matches(X86_64At, "mipsel")
  {
  }

  lemma MipselSkipsRule2()
    ensures !Matches(X86_32At, "mipsel")
  {
  }

  lemma MipselSkipsRules3To4()
    ensures !Matches(Aarch64BeAt, "mipsel")
      && !Contains("mipsel", "aarch")
  {
  }

  lemma MipselSkipsRules5To6()
    ensures !Matches(Arm64BeAt, "mipsel")
      && !Matches(Arm32BeAt, "mipsel")
  {
  }

  lemma MipselSkipsRules7To8()
    ensures !Matches(Arm64At, "mipsel")
      && !Contains("mipsel", "arm")
  {
  }

  lemma MipselSkipsRules9To10()
    ensures !Contains("mipsel", "alpha")
      && !Matches(Ia32At, "mipsel")
  {
  }

  lemma MipselSkipsRules11To12()
    ensures !Matches(Ia64At, "mipsel")
      && !(Contains("mipsel", "m68k") || Contains("mipsel", "m68000"))
  {
  }

  lemma MipselSkipsRules13To14()
    ensures !Matches(Ibmz64At, "mipsel")
      && !Matches(Ibmz32At, "mipsel")
  {
  }

  lemma MipselSkipsRules15To16()
    ensures !Matches(Ppc64LeAt, "mipsel")
      && !Matches(Ppc32LeAt, "mipsel")
  {
  }

  lemma MipselSkipsRules17To18()
    ensures !Matches(Ppc64At, "mipsel")
      && !Matches(Ppc32At, "mipsel")
  {
  }

  lemma MipselSkipsRule19()
    ensures !Matches(Mips64LeAt, "mipsel")
  {
  }

  lemma MipselMatchesRule20()
    ensures Matches(Mips32LeAt, "mipsel")
  {
  }

  lemma ClassifyMipsel()
    ensures Classify("mipsel", "mipsel") == Mips32Le
  {
    MipselSkipsRule1();
    MipselSkipsRule2();
    MipselSkipsRules3To4();
    MipselSkipsRules5To6();
    MipselSkipsRules7To8();
    MipselSkipsRules9To10();
    MipselSkipsRules11To12();
    MipselSkipsRules13To14();
    MipselSkipsRules15To16();
    MipselSkipsRules17To18();
    MipselSkipsRule19();
    MipselMatchesRule20();
  }

  lemma NormalizeMipsel()
    ensures Normalized("mipsel", false) == "mipsel"
    ensures Normalized("mipsel", true) == "mipsel"
  {
    assert Normalized("mipsel", false) == NormalizedPrefix("mipsel", 6, false);
    assert Normalized("mipsel", true) == NormalizedPrefix("mipsel", 6, true);
  }

  lemma ParseMipsel()
    ensures Parse("mipsel") == Mips32Le
  {
    NormalizeMipsel();
    ClassifyMipsel();
  }

  lemma Mips64SkipsRule1()
    ensures !Matches(X86_64At, "mips64")
  {
  }

  lemma Mips64SkipsRule2()
    ensures !Matches(X86_32At, "mips64")
  {
  }

  lemma Mips64SkipsRules3To4()
    ensures !Matches(Aarch64BeAt, "mips64")
      && !Contains("mips64", "aarch")
  {
  }

  lemma Mips64SkipsRules5To6()
    ensures !Matches(Arm64BeAt, "mips64")
      && !Matches(Arm32BeAt, "mips64")
  {
  }

  lemma Mips64SkipsRules7To8()
    ensures !Matches(Arm64At, "mips64")
      && !Contains("mips64", "arm")
  {
  }

  lemma Mips64SkipsRules9To10()
    ensures !Contains("mips64", "alpha")
      && !Matches(Ia32At, "mips64")
  {
  }

  lemma Mips64SkipsRules11To12()
    ensures !Matches(Ia64At, "mips64")
      && !(Contains("mips64", "m68k") || Contains("mips64", "m68000"))
  {
  }

  lemma Mips64SkipsRules13To14()
    ensures !Matches(Ibmz64At, "mips64")
      && !Matches(Ibmz32At, "mips64")
  {
  }

  lemma Mips64SkipsRules15To16()
    ensures !Matches(Ppc64LeAt, "mips64")
      && !Matches(Ppc32LeAt, "mips64")
  {
  }

  lemma Mips64SkipsRules17To18()
    ensures !Matches(Ppc64At, "mips64")
      && !Matches(Ppc32At, "mips64")
  {
  }

  lemma Mips64SkipsRules19To20()
    ensures !Matches(Mips64LeAt, "mips64")
      && !Matches(Mips32LeAt, "mips64")
  {
  }

  lemma Mips64MatchesRule21()
    ensures Matches(Mips64At, "mips64")
  {
  }

  lemma ClassifyMips64()
    ensures Classify("mips64", "mips64") == Mips64
  {
    Mips64SkipsRule1();
    Mips64SkipsRule2();
    Mips64SkipsRules3To4();
    Mips64SkipsRules5To6();
    Mips64SkipsRules7To8();
    Mips64SkipsRules9To10();
    Mips64SkipsRules11To12();
    Mips64SkipsRules13To14();
    Mips64SkipsRules15To16();
    Mips64SkipsRules17To18();
    Mips64SkipsRules19To20();
    Mips64MatchesRule21();
  }

  lemma NormalizeMips64()
    ensures Normalized("mips64", false) == "mips64"
    ensures Normalized("mips64", true) == "mips64"
  {
    assert Normalized("mips64", false) == NormalizedPrefix("mips64", 6, false);
    assert Normalized("mips64", true) == NormalizedPrefix("mips64", 6, true);
  }

  lemma ParseMips64()
    ensures Parse("mips64") == Mips64
  {
    NormalizeMips64();
    ClassifyMips64();
  }

  lemma Mips64elSkipsRule1()
    ensures !Matches(X86_64At, "mips64el")
  {
  }

  lemma Mips64elSkipsRule2()
    ensures !Matches(X86_32At, "mips64el")
  {
  }

  lemma Mips64elSkipsRules3To4()
    ensures !Matches(Aarch64BeAt, "mips64el")
      && !Contains("mips64el", "aarch")
  {
  }

  lemma Mips64elSkipsRules5To6()
    ensures !Matches(Arm64BeAt, "mips64el")
      && !Matches(Arm32BeAt, "mips64el")
  {
  }

  lemma Mips64elSkipsRules7To8()
    ensures !Matches(Arm64At, "mips64el")
      && !Contains("mips64el", "arm")
  {
  }

  lemma Mips64elSkipsRules9To10()
    ensures !Contains("mips64el", "alpha")
      && !Matches(Ia32At, "mips64el")
  {
  }

  lemma Mips64elSkipsRules11To12()
    ensures !Matches(Ia64At, "mips64el")
      && !(Contains("mips64el", "m68k") || Contains("mips64el", "m68000"))
  {
  }

  lemma Mips64elSkipsRules13To14()
    ensures !Matches(Ibmz64At, "mips64el")
      && !Matches(Ibmz32At, "mips64el")
  {
  }

  lemma Mips64elSkipsRules15To16()
    ensures !Matches(Ppc64LeAt, "mips64el")
      && !Matches(Ppc32LeAt, "mips64el")
  {
  }

  lemma Mips64elSkipsRules17To18()
    ensures !Matches(Ppc64At, "mips64el")
      && !Matches(Ppc32At, "mips64el")
  {
  }

  lemma Mips64elMatchesRule19()
    ensures Matches(Mips64LeAt, "mips64el")
  {
  }

  lemma ClassifyMips64el()
    ensures Classify("mips64el", "mips64el") == Mips64Le
  {
    Mips64elSkipsRule1();
    Mips64elSkipsRule2();
    Mips64elSkipsRules3To4();
    Mips64elSkipsRules5To6();
    Mips64elSkipsRules7To8();
    Mips64elSkipsRules9To10();
    Mips64elSkipsRules11To12();
    Mips64elSkipsRules13To14();
    Mips64elSkipsRules15To16();
    Mips64elSkipsRules17To18();
    Mips64elMatchesRule19();
  }

  lemma NormalizeMips64el()
    ensures Normalized("mips64el", false) == "mips64el"
    ensures Normalized("mips64el", true) == "mips64el"
  {
    assert Normalized("mips64el", false) == NormalizedPrefix("mips64el", 8, false);
    assert Normalized("mips64el", true) == NormalizedPrefix("mips64el", 8, true);
  }

  lemma ParseMips64el()
    ensures Parse("mips64el") == Mips64Le
  {
    NormalizeMips64el();
    ClassifyMips64el();
  }

  lemma PpcSkipsRules1To3()
    ensures !Matches(X86_64At, "ppc")
      && !Matches(X86_32At, "ppc")
      && !Matches(Aarch64BeAt, "ppc")
  {
  }

  lemma PpcSkipsRules4To8()
    ensures !Contains("ppc", "aarch")
      && !Matches(Arm64BeAt, "ppc")
      && !Matches(Arm32BeAt, "ppc")
      && !Matches(Arm64At, "ppc")
      && !Contains("ppc", "arm")
  {
  }

  lemma PpcSkipsRules9To13()
    ensures !Contains("ppc", "alpha")
      && !Matches(Ia32At, "ppc")
      && !Matches(Ia64At, "ppc")
      && !(Contains("ppc", "m68k") || Contains("ppc", "m68000"))
      && !Matches(Ibmz64At, "ppc")
  {
  }

  lemma PpcSkipsRules14To17()
    ensures !Matches(Ibmz32At, "ppc")
      && !Matches(Ppc64LeAt, "ppc")
      && !Matches(Ppc32LeAt, "ppc")
      && !Matches(Ppc64At, "ppc")
  {
  }

  lemma PpcMatchesRule18()
    ensures Matches(Ppc32At, "ppc")
  {
  }

  lemma ClassifyPpc()
    ensures Classify("ppc", "ppc") == Ppc32
  {
    PpcSkipsRules1To3();
    PpcSkipsRules4To8();
    PpcSkipsRules9To13();
    PpcSkipsRules14To17();
    PpcMatchesRule18();
  }

  lemma NormalizePpc()
    ensures Normalized("ppc", false) == "ppc"
    ensures Normalized("ppc", true) == "ppc"
  {
    assert Normalized("ppc", false) == NormalizedPrefix("ppc", 3, false);
    assert Normalized("ppc", true) == NormalizedPrefix("ppc", 3, true);
  }

  lemma ParsePpc()
    ensures Parse("ppc") == Ppc32
  {
    NormalizePpc();
    ClassifyPpc();
  }

  lemma PpcleSkipsRule1()
    ensures !Matches(X86_64At, "ppcle")
  {
  }

  lemma PpcleSkipsRules2To3()
    ensures !Matches(X86_32At, "ppcle")
      && !Matches(Aarch64BeAt, "ppcle")
  {
  }

  lemma PpcleSkipsRules4To6()
    ensures !Contains("ppcle", "aarch")
      && !Matches(Arm64BeAt, "ppcle")
      && !Matches(Arm32BeAt, "ppcle")
  {
  }

  lemma PpcleSkipsRules7To9()
    ensures !Matches(Arm64At, "ppcle")
      && !Contains("ppcle", "arm")
      && !Contains("ppcle", "alpha")
  {
  }

  lemma PpcleSkipsRules10To12()
    ensures !Matches(Ia32At, "ppcle")
      && !Matches(Ia64At, "ppcle")
      && !(Contains("ppcle", "m68k") || Contains("ppcle", "m68000"))
  {
  }

  lemma PpcleSkipsRules13To15()
    ensures !Matches(Ibmz64At, "ppcle")
      && !Matches(Ibmz32At, "ppcle")
      && !Matches(Ppc64LeAt, "ppcle")
  {
  }

  lemma PpcleMatchesRule16()
    ensures Matches(Ppc32LeAt, "ppcle")
  {
  }

  lemma ClassifyPpcle()
    ensures Classify("ppcle", "ppcle") == Ppc32Le
  {
    PpcleSkipsRule1();
    PpcleSkipsRules2To3();
    PpcleSkipsRules4To6();
    PpcleSkipsRules7To9();
    PpcleSkipsRules10To12();
    PpcleSkipsRules13To15();
    PpcleMatchesRule16();
  }

  lemma NormalizePpcle()
    ensures Normalized("ppcle", false) == "ppcle"
    ensures Normalized("ppcle", true) == "ppcle"
  {
    assert Normalized("ppcle", false) == NormalizedPrefix("ppcle", 5, false);
    assert Normalized("ppcle", true) == NormalizedPrefix("ppcle", 5, true);
  }

  lemma ParsePpcle()
    ensures Parse("ppcle") == Ppc32Le
  {
    NormalizePpcle();
    ClassifyPpcle();
  }

  lemma Ppc64SkipsRule1()
    ensures !Matches(X86_64At, "ppc64")
  {
  }

  lemma Ppc64SkipsRules2To3()
    ensures !Matches(X86_32At, "ppc64")
      && !Matches(Aarch64BeAt, "ppc64")
  {
  }

  lemma Ppc64SkipsRules4To6()
    ensures !Contains("ppc64", "aarch")
      && !Matches(Arm64BeAt, "ppc64")
      && !Matches(Arm32BeAt, "ppc64")
  {
  }

  lemma Ppc64SkipsRules7To9()
    ensures !Matches(Arm64At, "ppc64")
      && !Contains("ppc64", "arm")
      && !Contains("ppc64", "alpha")
  {
  }

  lemma Ppc64SkipsRules10To12()
    ensures !Matches(Ia32At, "ppc64")
      && !Matches(Ia64At, "ppc64")
      && !(Contains("ppc64", "m68k") || Contains("ppc64", "m68000"))
  {
  }

  lemma Ppc64SkipsRules13To15()
    ensures !Matches(Ibmz64At, "ppc64")
      && !Matches(Ibmz32At, "ppc64")
      && !Matches(Ppc64LeAt, "ppc64")
  {
  }

  lemma Ppc64SkipsRule16()
    ensures !Matches(Ppc32LeAt, "ppc64")
  {
  }

  lemma Ppc64MatchesRule17()
    ensures Matches(Ppc64At, "ppc64")
  {
  }

  lemma ClassifyPpc64()
    ensures Classify("ppc64", "ppc64") == Ppc64
  {
    Ppc64SkipsRule1();
    Ppc64SkipsRules2To3();
    Ppc64SkipsRules4To6();
    Ppc64SkipsRules7To9();
    Ppc64SkipsRules10To12();
    Ppc64SkipsRules13To15();
    Ppc64SkipsRule16();
    Ppc64MatchesRule17();
  }

  lemma NormalizePpc64()
    ensures Normalized("ppc64", false) == "ppc64"
    ensures Normalized("ppc64", true) == "ppc64"
  {
    assert Normalized("ppc64", false) == NormalizedPrefix("ppc64", 5, false);
    assert Normalized("ppc64", true) == NormalizedPrefix("ppc64", 5, true);
  }

  lemma ParsePpc64()
    ensures Parse("ppc64") == Ppc64
  {
    NormalizePpc64();
    ClassifyPpc64();
  }

  lemma Ppc64leSkipsRule1()
    ensures !Matches(X86_64At, "ppc64le")
  {
  }

  lemma Ppc64leSkipsRule2()
    ensures !Matches(X86_32At, "ppc64le")
  {
  }

  lemma Ppc64leSkipsRules3To4()
    ensures !Matches(Aarch64BeAt, "ppc64le")
      && !Contains("ppc64le", "aarch")
  {
  }

  lemma Ppc64leSkipsRules5To6()
    ensures !Matches(Arm64BeAt, "ppc64le")
      && !Matches(Arm32BeAt, "ppc64le")
  {
  }

  lemma Ppc64leSkipsRules7To8()
    ensures !Matches(Arm64At, "ppc64le")
      && !Contains("ppc64le", "arm")
  {
  }

  lemma Ppc64leSkipsRules9To10()
    ensures !Contains("ppc64le", "alpha")
      && !Matches(Ia32At, "ppc64le")
  {
  }

  lemma Ppc64leSkipsRules11To12()
    ensures !Matches(Ia64At, "ppc64le")
      && !(Contains("ppc64le", "m68k") || Contains("ppc64le", "m68000"))
  {
  }

  lemma Ppc64leSkipsRules13To14()
    ensures !Matches(Ibmz64At, "ppc64le")
      && !Matches(Ibmz32At, "ppc64le")
  {
  }

  lemma Ppc64leMatchesRule15()
    ensures Matches(Ppc64LeAt, "ppc64le")
  {
  }

  lemma ClassifyPpc64le()
    ensures Classify("ppc64le", "ppc64le") == Ppc64Le
  {
    Ppc64leSkipsRule1();
    Ppc64leSkipsRule2();
    Ppc64leSkipsRules3To4();
    Ppc64leSkipsRules5To6();
    Ppc64leSkipsRules7To8();
    Ppc64leSkipsRules9To10();
    Ppc64leSkipsRules11To12();
    Ppc64leSkipsRules13To14();
    Ppc64leMatchesRule15();
  }

  lemma NormalizePpc64le()
    ensures Normalized("ppc64le", false) == "ppc64le"
    ensures Normalized("ppc64le", true) == "ppc64le"
  {
    assert Normalized("ppc64le", false) == NormalizedPrefix("ppc64le", 7, false);
    assert Normalized("ppc64le", true) == NormalizedPrefix("ppc64le", 7, true);
  }

  lemma ParsePpc64le()
    ensures Parse("ppc64le") == Ppc64Le
  {
    NormalizePpc64le();
    ClassifyPpc64le();
  }

  lemma S390SkipsRules1To2()
    ensures !Matches(X86_64At, "s390")
      && !Matches(X86_32At, "s390")
  {
  }

  lemma S390SkipsRules3To6()
    ensures !Matches(Aarch64BeAt, "s390")
      && !Contains("s390", "aarch")
      && !Matches(Arm64BeAt, "s390")
      && !Matches(Arm32BeAt, "s390")
  {
  }

  lemma S390SkipsRules7To10()
    ensures !Matches(Arm64At, "s390")
      && !Contains("s390", "arm")
      && !Contains("s390", "alpha")
      && !Matches(Ia32At, "s390")
  {
  }

  lemma S390SkipsRules11To13()
    ensures !Matches(Ia64At, "s390")
      && !(Contains("s390", "m68k") || Contains("s390", "m68000"))
      && !Matches(Ibmz64At, "s390")
  {
  }

  lemma S390MatchesRule14()
    ensures Matches(Ibmz32At, "s390")
  {
  }

  lemma ClassifyS390()
    ensures Classify("s390", "s390") == Ibmz32
  {
    S390SkipsRules1To2();
    S390SkipsRules3To6();
    S390SkipsRules7To10();
    S390SkipsRules11To13();
    S390MatchesRule14();
  }

  lemma NormalizeS390()
    ensures Normalized("s390", false) == "s390"
    ensures Normalized("s390", true) == "s390"
  {
    assert Normalized("s390", false) == NormalizedPrefix("s390", 4, false);
    assert Normalized("s390", true) == NormalizedPrefix("s390", 4, true);
  }

  lemma ParseS390()
    ensures Parse("s390") == Ibmz32
  {
    NormalizeS390();
    ClassifyS390();
  }

  lemma S390xSkipsRule1()
    ensures !Matches(X86_64At, "s390x")
  {
  }

  lemma S390xSkipsRules2To3()
    ensures !Matches(X86_32At, "s390x")
      && !Matches(Aarch64BeAt, "s390x")
  {
  }

  lemma S390xSkipsRules4To6()
    ensures !Contains("s390x", "aarch")
      && !Matches(Arm64BeAt, "s390x")
      && !Matches(Arm32BeAt, "s390x")
  {
  }

  lemma S390xSkipsRules7To9()
    ensures !Matches(Arm64At, "s390x")
      && !Contains("s390x", "arm")
      && !Contains("s390x", "alpha")
  {
  }

  lemma S390xSkipsRules10To12()
    ensures !Matches(Ia32At, "s390x")
      && !Matches(Ia64At, "s390x")
      && !(Contains("s390x", "m68k") || Contains("s390x", "m68000"))
  {
  }

  lemma S390xMatchesRule13()
    ensures Matches(Ibmz64At, "s390x")
  {
  }

  lemma ClassifyS390x()
    ensures Classify("s390x", "s390x") == Ibmz64
  {
    S390xSkipsRule1();
    S390xSkipsRules2To3();
    S390xSkipsRules4To6();
    S390xSkipsRules7To9();
    S390xSkipsRules10To12();
    S390xMatchesRule13();
  }

  lemma NormalizeS390x()
    ensures Normalized("s390x", false) == "s390x"
    ensures Normalized("s390x", true) == "s390x"
  {
    assert Normalized("s390x", false) == NormalizedPrefix("s390x", 5, false);
    assert Normalized("s390x", true) == NormalizedPrefix("s390x", 5, true);
  }

  lemma ParseS390x()
    ensures Parse("s390x") == Ibmz64
  {
    NormalizeS390x();
    ClassifyS390x();
  }

  lemma SparcSkipsRule1()
    ensures !Matches(X86_64At, "sparc")
  {
  }

  lemma SparcSkipsRules2To3()
    ensures !Matches(X86_32At, "sparc")
      && !Matches(Aarch64BeAt, "sparc")
  {
  }

  lemma SparcSkipsRules4To6()
    ensures !Contains("sparc", "aarch")
      && !Matches(Arm64BeAt, "sparc")
      && !Matches(Arm32BeAt, "sparc")
  {
  }

  lemma SparcSkipsRules7To9()
    ensures !Matches(Arm64At, "sparc")
      && !Contains("sparc", "arm")
      && !Contains("sparc", "alpha")
  {
  }

  lemma SparcSkipsRules10To12()
    ensures !Matches(Ia32At, "sparc")
      && !Matches(Ia64At, "sparc")
      && !(Contains("sparc", "m68k") || Contains("sparc", "m68000"))
  {
  }

  lemma SparcSkipsRules13To15()
    ensures !Matches(Ibmz64At, "sparc")
      && !Matches(Ibmz32At, "sparc")
      && !Matches(Ppc64LeAt, "sparc")
  {
  }

  lemma SparcSkipsRules16To18()
    ensures !Matches(Ppc32LeAt, "sparc")
      && !Matches(Ppc64At, "sparc")
      && !Matches(Ppc32At, "sparc")
  {
  }

  lemma SparcSkipsRules19To21()
    ensures !Matches(Mips64LeAt, "sparc")
      && !Matches(Mips32LeAt, "sparc")
      && !Matches(Mips64At, "sparc")
  {
  }

  lemma SparcSkipsRules22To24()
    ensures !Contains("sparc", "mips")
      && !Matches(Riscv64At, "sparc")
      && !Matches(Riscv32At, "sparc")
  {
  }

  lemma SparcSkipsRule25()
    ensures !Matches(Sparc64At, "sparc")
  {
  }

  lemma SparcMatchesRule26()
    ensures Contains("sparc", "sparc")
  {
  }

  lemma ClassifySparc()
    ensures Classify("sparc", "sparc") == Sparc32
  {
    SparcSkipsRule1();
    SparcSkipsRules2To3();
    SparcSkipsRules4To6();
    SparcSkipsRules7To9();
    SparcSkipsRules10To12();
    SparcSkipsRules13To15();
    SparcSkipsRules16To18();
    SparcSkipsRules19To21();
    SparcSkipsRules22To24();
    SparcSkipsRule25();
    SparcMatchesRule26();
  }

  lemma NormalizeSparc()
    ensures Normalized("sparc", false) == "sparc"
    ensures Normalized("sparc", true) == "sparc"
  {
    assert Normalized("sparc", false) == NormalizedPrefix("sparc", 5, false);
    assert Normalized("sparc", true) == NormalizedPrefix("sparc", 5, true);
  }

  lemma ParseSparc()
    ensures Parse("sparc") == Sparc32
  {
    NormalizeSparc();
    ClassifySparc();
  }

  lemma Sparcv9SkipsRule1()
    ensures !Matches(X86_64At, "sparcv9")
  {
  }

  lemma Sparcv9SkipsRule2()
    ensures !Matches(X86_32At, "sparcv9")
  {
  }

  lemma Sparcv9SkipsRules3To4()
    ensures !Matches(Aarch64BeAt, "sparcv9")
      && !Contains("sparcv9", "aarch")
  {
  }

  lemma Sparcv9SkipsRules5To6()
    ensures !Matches(Arm64BeAt, "sparcv9")
      && !Matches(Arm32BeAt, "sparcv9")
  {
  }

  lemma Sparcv9SkipsRules7To8()
    ensures !Matches(Arm64At, "sparcv9")
      && !Contains("sparcv9", "arm")
  {
  }

  lemma Sparcv9SkipsRules9To10()
    ensures !Contains("sparcv9", "alpha")
      && !Matches(Ia32At, "sparcv9")
  {
  }

  lemma Sparcv9SkipsRules11To12()
    ensures !Matches(Ia64At, "sparcv9")
      && !(Contains("sparcv9", "m68k") || Contains("sparcv9", "m68000"))
  {
  }

  lemma Sparcv9SkipsRules13To14()
    ensures !Matches(Ibmz64At, "sparcv9")
      && !Matches(Ibmz32At, "sparcv9")
  {
  }

  lemma Sparcv9SkipsRules15To16()
    ensures !Matches(Ppc64LeAt, "sparcv9")
      && !Matches(Ppc32LeAt, "sparcv9")
  {
  }

  lemma Sparcv9SkipsRules17To18()
    ensures !Matches(Ppc64At, "sparcv9")
      && !Matches(Ppc32At, "sparcv9")
  {
  }

  lemma Sparcv9SkipsRules19To20()
    ensures !Matches(Mips64LeAt, "sparcv9")
      && !Matches(Mips32LeAt, "sparcv9")
  {
  }

  lemma Sparcv9SkipsRules21To22()
    ensures !Matches(Mips64At, "sparcv9")
      && !Contains("sparcv9", "mips")
  {
  }

  lemma Sparcv9SkipsRules23To24()
    ensures !Matches(Riscv64At, "sparcv9")
      && !Matches(Riscv32At, "sparcv9")
  {
  }

  lemma Sparcv9MatchesRule25()
    ensures Matches(Sparc64At, "sparcv9")
  {
  }

  lemma ClassifySparcv9()
    ensures Classify("sparcv9", "sparcv9") == Sparc64
  {
    Sparcv9SkipsRule1();
    Sparcv9SkipsRule2();
    Sparcv9SkipsRules3To4();
    Sparcv9SkipsRules5To6();
    Sparcv9SkipsRules7To8();
    Sparcv9SkipsRules9To10();
    Sparcv9SkipsRules11To12();
    Sparcv9SkipsRules13To14();
    Sparcv9SkipsRules15To16();
    Sparcv9SkipsRules17To18();
    Sparcv9SkipsRules19To20();
    Sparcv9SkipsRules21To22();
    Sparcv9SkipsRules23To24();
    Sparcv9MatchesRule25();
  }

  lemma NormalizeSparcv9()
    ensures Normalized("sparcv9", false) == "sparcv9"
    ensures Normalized("sparcv9", true) == "sparcv9"
  {
    assert Normalized("sparcv9", false) == NormalizedPrefix("sparcv9", 7, false);
    assert Normalized("sparcv9", true) == NormalizedPrefix("sparcv9", 7, true);
  }

  lemma ParseSparcv9()
    ensures Parse("sparcv9") == Sparc64
  {
    NormalizeSparcv9();
    ClassifySparcv9();
  }

  lemma ShSkipsRules1To6()
    ensures !Matches(X86_64At, "sh")
      && !Matches(X86_32At, "sh")
      && !Matches(Aarch64BeAt, "sh")
      && !Contains("sh", "aarch")
      && !Matches(Arm64BeAt, "sh")
      && !Matches(Arm32BeAt, "sh")
  {
  }

  lemma ShSkipsRules7To14()
    ensures !Matches(Arm64At, "sh")
      && !Contains("sh", "arm")
      && !Contains("sh", "alpha")
      && !Matches(Ia32At, "sh")
      && !Matches(Ia64At, "sh")
      && !(Contains("sh", "m68k") || Contains("sh", "m68000"))
      && !Matches(Ibmz64At, "sh")
      && !Matches(Ibmz32At, "sh")
  {
  }

  lemma ShSkipsRules15To22()
    ensures !Matches(Ppc64LeAt, "sh")
      && !Matches(Ppc32LeAt, "sh")
      && !Matches(Ppc64At, "sh")
      && !Matches(Ppc32At, "sh")
      && !Matches(Mips64LeAt, "sh")
      && !Matches(Mips32LeAt, "sh")
      && !Matches(Mips64At, "sh")
      && !Contains("sh", "mips")
  {
  }

  lemma ShSkipsRules23To27()
    ensures !Matches(Riscv64At, "sh")
      && !Matches(Riscv32At, "sh")
      && !Matches(Sparc64At, "sh")
      && !Contains("sh", "sparc")
      && !Matches(Superh32BeAt, "sh")
  {
  }

  lemma ShMatchesRule28()
    ensures (Contains("sh", "superh") || RawSh("sh"))
  {
  }

  lemma ClassifySh()
    ensures Classify("sh", "sh") == Superh32
  {
    ShSkipsRules1To6();
    ShSkipsRules7To14();
    ShSkipsRules15To22();
    ShSkipsRules23To27();
    ShMatchesRule28();
  }

  lemma NormalizeSh()
    ensures Normalized("sh", false) == "sh"
    ensures Normalized("sh", true) == "sh"
  {
    assert Normalized("sh", false) == NormalizedPrefix("sh", 2, false);
    assert Normalized("sh", true) == NormalizedPrefix("sh", 2, true);
  }

  lemma ParseSh()
    ensures Parse("sh") == Superh32
  {
    NormalizeSh();
    ClassifySh();
  }

  lemma ShbeSkipsRules1To2()
    ensures !Matches(X86_64At, "shbe")
      && !Matches(X86_32At, "shbe")
  {
  }

  lemma ShbeSkipsRules3To6()
    ensures !Matches(Aarch64BeAt, "shbe")
      && !Contains("shbe", "aarch")
      && !Matches(Arm64BeAt, "shbe")
      && !Matches(Arm32BeAt, "shbe")
  {
  }

  lemma ShbeSkipsRules7To10()
    ensures !Matches(Arm64At, "shbe")
      && !Contains("shbe", "arm")
      && !Contains("shbe", "alpha")
      && !Matches(Ia32At, "shbe")
  {
  }

  lemma ShbeSkipsRules11To14()
    ensures !Matches(Ia64At, "shbe")
      && !(Contains("shbe", "m68k") || Contains("shbe", "m68000"))
      && !Matches(Ibmz64At, "shbe")
      && !Matches(Ibmz32At, "shbe")
  {
  }

  lemma ShbeSkipsRules15To18()
    ensures !Matches(Ppc64LeAt, "shbe")
      && !Matches(Ppc32LeAt, "shbe")
      && !Matches(Ppc64At, "shbe")
      && !Matches(Ppc32At, "shbe")
  {
  }

  lemma ShbeSkipsRules19To22()
    ensures !Matches(Mips64LeAt, "shbe")
      && !Matches(Mips32LeAt, "shbe")
      && !Matches(Mips64At, "shbe")
      && !Contains("shbe", "mips")
  {
  }

  lemma ShbeSkipsRules23To26()
    ensures !Matches(Riscv64At, "shbe")
      && !Matches(Riscv32At, "shbe")
      && !Matches(Sparc64At, "shbe")
      && !Contains("shbe", "sparc")
  {
  }

  lemma ShbeMatchesRule27()
    ensures Matches(Superh32BeAt, "shbe")
  {
  }

  lemma ClassifyShbe()
    ensures Classify("shbe", "shbe") == Superh32Be
  {
    ShbeSkipsRules1To2();
    ShbeSkipsRules3To6();
    ShbeSkipsRules7To10();
    ShbeSkipsRules11To14();
    ShbeSkipsRules15To18();
    ShbeSkipsRules19To22();
    ShbeSkipsRules23To26();
    ShbeMatchesRule27();
  }

  lemma NormalizeShbe()
    ensures Normalized("shbe", false) == "shbe"
    ensures Normalized("shbe", true) == "shbe"
  {
    assert Normalized("shbe", false) == NormalizedPrefix("shbe", 4, false);
    assert Normalized("shbe", true) == NormalizedPrefix("shbe", 4, true);
  }

  lemma ParseShbe()
    ensures Parse("shbe") == Superh32Be
  {
    NormalizeShbe();
    ClassifyShbe();
  }

  lemma X8664MatchesRule1()
    ensures Matches(X86_64At, "x8664")
  {
  }

  lemma ClassifyX8664()
    ensures Classify("x8664", "x8664") == X86_64
  {
    X8664MatchesRule1();
  }

  lemma NormalizeX8664()
    ensures Normalized("x8664", false) == "x8664"
    ensures Normalized("x8664", true) == "x8664"
  {
    assert Normalized("x8664", false) == NormalizedPrefix("x8664", 5, false);
    assert Normalized("x8664", true) == NormalizedPrefix("x8664", 5, true);
  }

  lemma ParseX8664()
    ensures Parse("x8664") == X86_64
  {
    NormalizeX8664();
    ClassifyX8664();
  }

  lemma Amd64MatchesRule1()
    ensures Matches(X86_64At, "amd64")
  {
  }

  lemma ClassifyAmd64()
    ensures Classify("amd64", "amd64") == X86_64
  {
    Amd64MatchesRule1();
  }

  lemma NormalizeAmd64()
    ensures Normalized("amd64", false) == "amd64"
    ensures Normalized("amd64", true) == "amd64"
  {
    assert Normalized("amd64", false) == NormalizedPrefix("amd64", 5, false);
    assert Normalized("amd64", true) == NormalizedPrefix("amd64", 5, true);
  }

  lemma ParseAmd64()
    ensures Parse("amd64") == X86_64
  {
    NormalizeAmd64();
    ClassifyAmd64();
  }

  lemma X86SkipsRule1()
    ensures !Matches(X86_64At, "x86")
  {
  }

  lemma X86MatchesRule2()
    ensures Matches(X86_32At, "x86")
  {
  }

  lemma ClassifyX86()
    ensures Classify("x86", "x86") == X86_32
  {
    X86SkipsRule1();
    X86MatchesRule2();
  }

  lemma NormalizeX86()
    ensures Normalized("x86", false) == "x86"
    ensures Normalized("x86", true) == "x86"
  {
    assert Normalized("x86", false) == NormalizedPrefix("x86", 3, false);
    assert Normalized("x86", true) == NormalizedPrefix("x86", 3, true);
  }

  lemma ParseX86()
    ensures Parse("x86") == X86_32
  {
    NormalizeX86();
    ClassifyX86();
  }

  lemma I386SkipsRule1()
    ensures !Matches(X86_64At, "i386")
  {
  }

  lemma I386MatchesRule2()
    ensures Matches(X86_32At, "i386")
  {
  }

  lemma ClassifyI386()
    ensures Classify("i386", "i386") == X86_32
  {
    I386SkipsRule1();
    I386MatchesRule2();
  }

  lemma NormalizeI386()
    ensures Normalized("i386", false) == "i386"
    ensures Normalized("i386", true) == "i386"
  {
    assert Normalized("i386", false) == NormalizedPrefix("i386", 4, false);
    assert Normalized("i386", true) == NormalizedPrefix("i386", 4, true);
  }

  lemma ParseI386()
    ensures Parse("i386") == X86_32
  {
    NormalizeI386();
    ClassifyI386();
  }

  lemma PentiumSkipsRule1()
    ensures !Matches(X86_64At, "pentium")
  {
  }

  lemma PentiumMatchesRule2()
    ensures Matches(X86_32At, "pentium")
  {
  }

  lemma ClassifyPentium()
    ensures Classify("pentium", "pentium") == X86_32
  {
    PentiumSkipsRule1();
    PentiumMatchesRule2();
  }

  lemma NormalizePentium()
    ensures Normalized("pentium", false) == "pentium"
    ensures Normalized("pentium", true) == "pentium"
  {
    assert Normalized("pentium", false) == NormalizedPrefix("pentium", 7, false);
    assert Normalized("pentium", true) == NormalizedPrefix("pentium", 7, true);
  }

  lemma ParsePentium()
    ensures Parse("pentium") == X86_32
  {
    NormalizePentium();
    ClassifyPentium();
  }

  lemma X86Underscore64MatchesRule1()
    ensures Matches(X86_64At, "x86-64")
  {
  }

  lemma ClassifyX86Underscore64()
    ensures Classify("x86-64", "x86_64") == X86_64
  {
    X86Underscore64MatchesRule1();
  }

  lemma NormalizeX86Underscore64()
    ensures Normalized("x86_64", false) == "x86-64"
  {
    assert Normalized("x86_64", false) == NormalizedPrefix("x86_64", 6, false);
  }

  lemma ParseX86Underscore64()
    ensures Parse("x86_64") == X86_64
  {
    NormalizeX86Underscore64();
    ClassifyX86Underscore64();
  }

  lemma X86Dash64MatchesRule1()
    ensures Matches(X86_64At, "x86-64")
  {
  }

  lemma ClassifyX86Dash64()
    ensures Classify("x86-64", "x86-64") == X86_64
  {
    X86Dash64MatchesRule1();
  }

  lemma NormalizeX86Dash64()
    ensures Normalized("x86-64", false) == "x86-64"
  {
    assert Normalized("x86-64", false) == NormalizedPrefix("x86-64", 6, false);
  }

  lemma ParseX86Dash64()
    ensures Parse("x86-64") == X86_64
  {
    NormalizeX86Dash64();
    ClassifyX86Dash64();
  }

  lemma Em64tMatchesRule1()
    ensures Matches(X86_64At, "em64t")
  {
  }

  lemma ClassifyEm64t()
    ensures Classify("em64t", "em64t") == X86_64
  {
    Em64tMatchesRule1();
  }

  lemma NormalizeEm64t()
    ensures Normalized("em64t", false) == "em64t"
  {
    assert Normalized("em64t", false) == NormalizedPrefix("em64t", 5, false);
  }

  lemma ParseEm64t()
    ensures Parse("em64t") == X86_64
  {
    NormalizeEm64t();
    ClassifyEm64t();
  }

  lemma I686SkipsRule1()
    ensures !Matches(X86_64At, "i686")
  {
  }

  lemma I686MatchesRule2()
    ensures Matches(X86_32At, "i686")
  {
  }

  lemma ClassifyI686()
    ensures Classify("i686", "i686") == X86_32
  {
    I686SkipsRule1();
    I686MatchesRule2();
  }

  lemma NormalizeI686()
    ensures Normalized("i686", false) == "i686"
  {
    assert Normalized("i686", false) == NormalizedPrefix("i686", 4, false);
  }

  lemma ParseI686()
    ensures Parse("i686") == X86_32
  {
    NormalizeI686();
    ClassifyI686();
  }

  lemma Aarch64beSkipsRule1()
    ensures !Matches(X86_64At, "aarch64be")
  {
    assert !X86_64At("aarch64be", 0);
    assert !X86_64At("aarch64be", 1);
    assert !X86_64At("aarch64be", 2);
    assert !X86_64At("aarch64be", 3);
    assert !X86_64At("aarch64be", 4);
    assert !X86_64At("aarch64be", 5);
    assert !X86_64At("aarch64be", 6);
    assert !X86_64At("aarch64be", 7);
    assert !X86_64At("aarch64be", 8);
    assert !X86_64At("aarch64be", 9);
  }

  lemma Aarch64beSkipsRule2()
    ensures !Matches(X86_32At, "aarch64be")
  {
    assert !X86_32At("aarch64be", 0);
    assert !X86_32At("aarch64be", 1);
    assert !X86_32At("aarch64be", 2);
    assert !X86_32At("aarch64be", 3);
    assert !X86_32At("aarch64be", 4);
    assert !X86_32At("aarch64be", 5);
    assert !X86_32At("aarch64be", 6);
    assert !X86_32At("aarch64be", 7);
    assert !X86_32At("aarch64be", 8);
    assert !X86_32At("aarch64be", 9);
  }

  lemma Aarch64beMatchesRule3()
    ensures Matches(Aarch64BeAt, "aarch64be")
  {
  }

  lemma ClassifyAarch64be()
    ensures Classify("aarch64be", "aarch64be") == Arm64Be
  {
    Aarch64beSkipsRule1();
    Aarch64beSkipsRule2();
    Aarch64beMatchesRule3();
  }

  lemma NormalizeAarch64be()
    ensures Normalized("aarch64be", false) == "aarch64be"
  {
    assert Normalized("aarch64be", false) == NormalizedPrefix("aarch64be", 9, false);
  }

  lemma ParseAarch64be()
    ensures Parse("aarch64be") == Arm64Be
  {
    NormalizeAarch64be();
    ClassifyAarch64be();
  }

  lemma Test32SkipsRule1()
    ensures !Matches(X86_64At, "test32")
  {
  }

  lemma Test32SkipsRule2()
    ensures !Matches(X86_32At, "test32")
  {
  }

  lemma Test32SkipsRules3To4()
    ensures !Matches(Aarch64BeAt, "test32")
      && !Contains("test32", "aarch")
  {
  }

  lemma Test32SkipsRules5To6()
    ensures !Matches(Arm64BeAt, "test32")
      && !Matches(Arm32BeAt, "test32")
  {
  }

  lemma Test32SkipsRules7To8()
    ensures !Matches(Arm64At, "test32")
      && !Contains("test32", "arm")
  {
  }

  lemma Test32SkipsRules9To10()
    ensures !Contains("test32", "alpha")
      && !Matches(Ia32At, "test32")
  {
  }

  lemma Test32SkipsRules11To12()
    ensures !Matches(Ia64At, "test32")
      && !(Contains("test32", "m68k") || Contains("test32", "m68000"))
  {
  }

  lemma Test32SkipsRules13To14()
    ensures !Matches(Ibmz64At, "test32")
      && !Matches(Ibmz32At, "test32")
  {
  }

  lemma Test32SkipsRules15To16()
    ensures !Matches(Ppc64LeAt, "test32")
      && !Matches(Ppc32LeAt, "test32")
  {
  }

  lemma Test32SkipsRules17To18()
    ensures !Matches(Ppc64At, "test32")
      && !Matches(Ppc32At, "test32")
  {
  }

  lemma Test32SkipsRules19To20()
    ensures !Matches(Mips64LeAt, "test32")
      && !Matches(Mips32LeAt, "test32")
  {
  }

  lemma Test32SkipsRules21To22()
    ensures !Matches(Mips64At, "test32")
      && !Contains("test32", "mips")
  {
  }

  lemma Test32SkipsRules23To24()
    ensures !Matches(Riscv64At, "test32")
      && !Matches(Riscv32At, "test32")
  {
  }

  lemma Test32SkipsRules25To26()
    ensures !Matches(Sparc64At, "test32")
      && !Contains("test32", "sparc")
  {
  }

  lemma Test32SkipsRules27To28()
    ensures !Matches(Superh32BeAt, "test32")
      && !(Contains("test32", "superh") || RawSh("test32"))
  {
  }

  lemma Test32SkipsRules29To30()
    ensures !Contains("test32", "win32")
      && !Contains("test32", "win64")
  {
  }

  lemma Test32MatchesRule31()
    ensures Contains("test32", "32")
  {
  }

  lemma ClassifyTest32()
    ensures Classify("test32", "test32") == Unknown32
  {
    Test32SkipsRule1();
    Test32SkipsRule2();
    Test32SkipsRules3To4();
    Test32SkipsRules5To6();
    Test32SkipsRules7To8();
    Test32SkipsRules9To10();
    Test32SkipsRules11To12();
    Test32SkipsRules13To14();
    Test32SkipsRules15To16();
    Test32SkipsRules17To18();
    Test32SkipsRules19To20();
    Test32SkipsRules21To22();
    Test32SkipsRules23To24();
    Test32SkipsRules25To26();
    Test32SkipsRules27To28();
    Test32SkipsRules29To30();
    Test32MatchesRule31();
  }

  lemma NormalizeTest32()
    ensures Normalized("test32", false) == "test32"
  {
    assert Normalized("test32", false) == NormalizedPrefix("test32", 6, false);
  }

  lemma ParseTest32()
    ensures Parse("test32") == Unknown32
  {
    NormalizeTest32();
    ClassifyTest32();
  }

  lemma Test64SkipsRule1()
    ensures !Matches(X86_64At, "test64")
  {
  }

  lemma Test64SkipsRule2()
    ensures !Matches(X86_32At, "test64")
  {
  }

  lemma Test64SkipsRules3To4()
    ensures !Matches(Aarch64BeAt, "test64")
      && !Contains("test64", "aarch")
  {
  }

  lemma Test64SkipsRules5To6()
    ensures !Matches(Arm64BeAt, "test64")
      && !Matches(Arm32BeAt, "test64")
  {
  }

  lemma Test64SkipsRules7To8()
    ensures !Matches(Arm64At, "test64")
      && !Contains("test64", "arm")
  {
  }

  lemma Test64SkipsRules9To10()
    ensures !Contains("test64", "alpha")
      && !Matches(Ia32At, "test64")
  {
  }

  lemma Test64SkipsRules11To12()
    ensures !Matches(Ia64At, "test64")
      && !(Contains("test64", "m68k") || Contains("test64", "m68000"))
  {
  }

  lemma Test64SkipsRules13To14()
    ensures !Matches(Ibmz64At, "test64")
      && !Matches(Ibmz32At, "test64")
  {
  }

  lemma Test64SkipsRules15To16()
    ensures !Matches(Ppc64LeAt, "test64")
      && !Matches(Ppc32LeAt, "test64")
  {
  }

  lemma Test64SkipsRules17To18()
    ensures !Matches(Ppc64At, "test64")
      && !Matches(Ppc32At, "test64")
  {
  }

  lemma Test64SkipsRules19To20()
    ensures !Matches(Mips64LeAt, "test64")
      && !Matches(Mips32LeAt, "test64")
  {
  }

  lemma Test64SkipsRules21To22()
    ensures !Matches(Mips64At, "test64")
      && !Contains("test64", "mips")
  {
  }

  lemma Test64SkipsRules23To24()
    ensures !Matches(Riscv64At, "test64")
      && !Matches(Riscv32At, "test64")
  {
  }

  lemma Test64SkipsRules25To26()
    ensures !Matches(Sparc64At, "test64")
      && !Contains("test64", "sparc")
  {
  }

  lemma Test64SkipsRules27To28()
    ensures !Matches(Superh32BeAt, "test64")
      && !(Contains("test64", "superh") || RawSh("test64"))
  {
  }

  lemma Test64SkipsRules29To30()
    ensures !Contains("test64", "win32")
      && !Contains("test64", "win64")
  {
  }

  lemma Test64SkipsRule31()
    ensures !Contains("test64", "32")
  {
  }

  lemma Test64MatchesRule32()
    ensures Contains("test64", "64")
  {
  }

  lemma ClassifyTest64()
    ensures Classify("test64", "test64") == Unknown64
  {
    Test64SkipsRule1();
    Test64SkipsRule2();
    Test64SkipsRules3To4();
    Test64SkipsRules5To6();
    Test64SkipsRules7To8();
    Test64SkipsRules9To10();
    Test64SkipsRules11To12();
    Test64SkipsRules13To14();
    Test64SkipsRules15To16();
    Test64SkipsRules17To18();
    Test64SkipsRules19To20();
    Test64SkipsRules21To22();
    Test64SkipsRules23To24();
    Test64SkipsRules25To26();
    Test64SkipsRules27To28();
    Test64SkipsRules29To30();
    Test64SkipsRule31();
    Test64MatchesRule32();
  }

  lemma NormalizeTest64()
    ensures Normalized("test64", false) == "test64"
  {
    assert Normalized("test64", false) == NormalizedPrefix("test64", 6, false);
  }

  lemma ParseTest64()
    ensures Parse("test64") == Unknown64
  {
    NormalizeTest64();
    ClassifyTest64();
  }

  lemma Nvptx64SkipsRule1()
    ensures !Matches(X86_64At, "nvptx64")
  {
  }

  lemma Nvptx64SkipsRule2()
    ensures !Matches(X86_32At, "nvptx64")
  {
  }

  lemma Nvptx64SkipsRules3To4()
    ensures !Matches(Aarch64BeAt, "nvptx64")
      && !Contains("nvptx64", "aarch")
  {
  }

  lemma Nvptx64SkipsRules5To6()
    ensures !Matches(Arm64BeAt, "nvptx64")
      && !Matches(Arm32BeAt, "nvptx64")
  {
  }

  lemma Nvptx64SkipsRules7To8()
    ensures !Matches(Arm64At, "nvptx64")
      && !Contains("nvptx64", "arm")
  {
  }

  lemma Nvptx64SkipsRules9To10()
    ensures !Contains("nvptx64", "alpha")
      && !Matches(Ia32At, "nvptx64")
  {
  }

  lemma Nvptx64SkipsRules11To12()
    ensures !Matches(Ia64At, "nvptx64")
      && !(Contains("nvptx64", "m68k") || Contains("nvptx64", "m68000"))
  {
  }

  lemma Nvptx64SkipsRules13To14()
    ensures !Matches(Ibmz64At, "nvptx64")
      && !Matches(Ibmz32At, "nvptx64")
  {
  }

  lemma Nvptx64SkipsRules15To16()
    ensures !Matches(Ppc64LeAt, "nvptx64")
      && !Matches(Ppc32LeAt, "nvptx64")
  {
  }

  lemma Nvptx64SkipsRules17To18()
    ensures !Matches(Ppc64At, "nvptx64")
      && !Matches(Ppc32At, "nvptx64")
  {
  }

  lemma Nvptx64SkipsRules19To20()
    ensures !Matches(Mips64LeAt, "nvptx64")
      && !Matches(Mips32LeAt, "nvptx64")
  {
  }

  lemma Nvptx64SkipsRules21To22()
    ensures !Matches(Mips64At, "nvptx64")
      && !Contains("nvptx64", "mips")
  {
  }

  lemma Nvptx64SkipsRules23To24()
    ensures !Matches(Riscv64At, "nvptx64")
      && !Matches(Riscv32At, "nvptx64")
  {
  }

  lemma Nvptx64SkipsRules25To26()
    ensures !Matches(Sparc64At, "nvptx64")
      && !Contains("nvptx64", "sparc")
  {
  }

  lemma Nvptx64SkipsRules27To28()
    ensures !Matches(Superh32BeAt, "nvptx64")
      && !(Contains("nvptx64", "superh") || RawSh("nvptx64"))
  {
  }

  lemma Nvptx64SkipsRules29To30()
    ensures !Contains("nvptx64", "win32")
      && !Contains("nvptx64", "win64")
  {
  }

  lemma Nvptx64SkipsRule31()
    ensures !Contains("nvptx64", "32")
  {
  }

  lemma Nvptx64MatchesRule32()
    ensures Contains("nvptx64", "64")
  {
  }

  lemma ClassifyNvptx64()
    ensures Classify("nvptx64", "nvptx64") == Unknown64
  {
    Nvptx64SkipsRule1();
    Nvptx64SkipsRule2();
    Nvptx64SkipsRules3To4();
    Nvptx64SkipsRules5To6();
    Nvptx64SkipsRules7To8();
    Nvptx64SkipsRules9To10();
    Nvptx64SkipsRules11To12();
    Nvptx64SkipsRules13To14();
    Nvptx64SkipsRules15To16();
    Nvptx64SkipsRules17To18();
    Nvptx64SkipsRules19To20();
    Nvptx64SkipsRules21To22();
    Nvptx64SkipsRules23To24();
    Nvptx64SkipsRules25To26();
    Nvptx64SkipsRules27To28();
    Nvptx64SkipsRules29To30();
    Nvptx64SkipsRule31();
    Nvptx64MatchesRule32();
  }

  lemma NormalizeNvptx64()
    ensures Normalized("nvptx64", false) == "nvptx64"
  {
    assert Normalized("nvptx64", false) == NormalizedPrefix("nvptx64", 7, false);
  }

  lemma ParseNvptx64()
    ensures Parse("nvptx64") == Unknown64
  {
    NormalizeNvptx64();
    ClassifyNvptx64();
  }

  lemma LinuxSkipsRule1()
    ensures !Matches(X86_64At, "linux")
  {
  }

  lemma LinuxSkipsRules2To3()
    ensures !Matches(X86_32At, "linux")
      && !Matches(Aarch64BeAt, "linux")
  {
  }

  lemma LinuxSkipsRules4To6()
    ensures !Contains("linux", "aarch")
      && !Matches(Arm64BeAt, "linux")
      && !Matches(Arm32BeAt, "linux")
  {
  }

  lemma LinuxSkipsRules7To9()
    ensures !Matches(Arm64At, "linux")
      && !Contains("linux", "arm")
      && !Contains("linux", "alpha")
  {
  }

  lemma LinuxSkipsRules10To12()
    ensures !Matches(Ia32At, "linux")
      && !Matches(Ia64At, "linux")
      && !(Contains("linux", "m68k") || Contains("linux", "m68000"))
  {
  }

  lemma LinuxSkipsRules13To15()
    ensures !Matches(Ibmz64At, "linux")
      && !Matches(Ibmz32At, "linux")
      && !Matches(Ppc64LeAt, "linux")
  {
  }

  lemma LinuxSkipsRules16To18()
    ensures !Matches(Ppc32LeAt, "linux")
      && !Matches(Ppc64At, "linux")
      && !Matches(Ppc32At, "linux")
  {
  }

  lemma LinuxSkipsRules19To21()
    ensures !Matches(Mips64LeAt, "linux")
      && !Matches(Mips32LeAt, "linux")
      && !Matches(Mips64At, "linux")
  {
  }

  lemma LinuxSkipsRules22To24()
    ensures !Contains("linux", "mips")
      && !Matches(Riscv64At, "linux")
      && !Matches(Riscv32At, "linux")
  {
  }

  lemma LinuxSkipsRules25To27()
    ensures !Matches(Sparc64At, "linux")
      && !Contains("linux", "sparc")
      && !Matches(Superh32BeAt, "linux")
  {
  }

  lemma LinuxSkipsRules28To30()
    ensures !(Contains("linux", "superh") || RawSh("linux"))
      && !Contains("linux", "win32")
      && !Contains("linux", "win64")
  {
  }

  lemma LinuxSkipsRules31To32()
    ensures !Contains("linux", "32")
      && !Contains("linux", "64")
  {
  }

  lemma ClassifyLinux()
    ensures Classify("linux", "linux") == UnknownUnknown
  {
    LinuxSkipsRule1();
    LinuxSkipsRules2To3();
    LinuxSkipsRules4To6();
    LinuxSkipsRules7To9();
    LinuxSkipsRules10To12();
    LinuxSkipsRules13To15();
    LinuxSkipsRules16To18();
    LinuxSkipsRules19To21();
    LinuxSkipsRules22To24();
    LinuxSkipsRules25To27();
    LinuxSkipsRules28To30();
    LinuxSkipsRules31To32();
  }

  lemma NormalizeLinux()
    ensures Normalized("linux", false) == "linux"
  {
    assert Normalized("linux", false) == NormalizedPrefix("linux", 5, false);
  }

  lemma ParseLinux()
    ensures Parse("linux") == UnknownUnknown
  {
    NormalizeLinux();
    ClassifyLinux();
  }

  /** For every key of the `current()` table, `parse(key)` gives the table's constant. */
  lemma FastPathAgreesWithParse()
    ensures forall k | FastPath(k).Some? :: Parse(k) == FastPath(k).value
  {
    forall k | FastPath(k).Some?
      ensures Parse(k) == FastPath(k).value
    {
      match k
      case "alpha" => ParseAlpha();
      case "arm" => ParseArm();
      case "arm64" => ParseArm64();
      case "aarch64" => ParseAarch64();
      case "ia64" => ParseIa64();
      case "m68k" => ParseM68k();
      case "mips" => ParseMips();
      case "mipsel" => ParseMipsel();
      case "mips64" => ParseMips64();
      case "mips64el" => ParseMips64el();
      case "ppc" => ParsePpc();
      case "ppcle" => ParsePpcle();
      case "ppc64" => ParsePpc64();
      case "ppc64le" => ParsePpc64le();
      case "s390" => ParseS390();
      case "s390x" => ParseS390x();
      case "sparc" => ParseSparc();
      case "sparcv9" => ParseSparcv9();
      case "sh" => ParseSh();
      case "shbe" => ParseShbe();
      case "x8664" => ParseX8664();
      case "amd64" => ParseAmd64();
      case "x86" => ParseX86();
      case "i386" => ParseI386();
      case "pentium" => ParsePentium();
    }
  }

  /** The table's keys are already in strip-normal form. */
  lemma KeysAreStripNormal(k: string)
    requires FastPath(k).Some?
    ensures Normalized(k, true) == k
  {
    match k
    case "alpha" => NormalizeAlpha();
    case "arm" => NormalizeArm();
    case "arm64" => NormalizeArm64();
    case "aarch64" => NormalizeAarch64();
    case "ia64" => NormalizeIa64();
    case "m68k" => NormalizeM68k();
    case "mips" => NormalizeMips();
    case "mipsel" => NormalizeMipsel();
    case "mips64" => NormalizeMips64();
    case "mips64el" => NormalizeMips64el();
    case "ppc" => NormalizePpc();
    case "ppcle" => NormalizePpcle();
    case "ppc64" => NormalizePpc64();
    case "ppc64le" => NormalizePpc64le();
    case "s390" => NormalizeS390();
    case "s390x" => NormalizeS390x();
    case "sparc" => NormalizeSparc();
    case "sparcv9" => NormalizeSparcv9();
    case "sh" => NormalizeSh();
    case "shbe" => NormalizeShbe();
    case "x8664" => NormalizeX8664();
    case "amd64" => NormalizeAmd64();
    case "x86" => NormalizeX86();
    case "i386" => NormalizeI386();
    case "pentium" => NormalizePentium();
  }

  /**
   * `current()` for any `os.arch`: the strip-normalised value decides, so a
   * value that normalises to a key of the table gets that key's constant,
   * which is what `parse` gives for the key itself. When `os.arch` is
   * spelled exactly as a key, that is `parse` of `os.arch`.
   */
  lemma CurrentAgreesWithParseOnKeys(props: Properties)
    requires "os.arch" in props
    ensures var key := Normalized(props["os.arch"], true);
      FastPath(key).Some? ==> Current(props) == Parse(key)
    ensures FastPath(props["os.arch"]).Some? ==> Current(props) == Parse(props["os.arch"])
  {
    var key := Normalized(props["os.arch"], true);
    if FastPath(key).Some? {
      FastPathAgreesWithParse();
    }
    if FastPath(props["os.arch"]).Some? {
      KeysAreStripNormal(props["os.arch"]);
    }
  }

  lemma SparcV9SpacedSkipsRule1()
    ensures !Matches(X86_64At, "sparc-v-9")
  {
  }

  lemma SparcV9SpacedSkipsRule2()
    ensures !Matches(X86_32At, "sparc-v-9")
  {
    // one position at a time, from the end of the text back to its start
    assert !SomewhereFrom(X86_32At, "sparc-v-9", 9);
    assert !SomewhereFrom(X86_32At, "sparc-v-9", 8);
    assert !SomewhereFrom(X86_32At, "sparc-v-9", 7);
    assert !SomewhereFrom(X86_32At, "sparc-v-9", 6);
    assert !SomewhereFrom(X86_32At, "sparc-v-9", 5);
    assert !SomewhereFrom(X86_32At, "sparc-v-9", 4);
    assert !SomewhereFrom(X86_32At, "sparc-v-9", 3);
    assert !SomewhereFrom(X86_32At, "sparc-v-9", 2);
    assert !SomewhereFrom(X86_32At, "sparc-v-9", 1);
    assert !SomewhereFrom(X86_32At, "sparc-v-9", 0);
  }

  lemma SparcV9SpacedSkipsRules3To4()
    ensures !Matches(Aarch64BeAt, "sparc-v-9")
      && !Contains("sparc-v-9", "aarch")
  {
  }

  lemma SparcV9SpacedSkipsRules5To6()
    ensures !Matches(Arm64BeAt, "sparc-v-9")
      && !Matches(Arm32BeAt, "sparc-v-9")
  {
  }

  lemma SparcV9SpacedSkipsRules7To8()
    ensures !Matches(Arm64At, "sparc-v-9")
      && !Contains("sparc-v-9", "arm")
  {
  }

  lemma SparcV9SpacedSkipsRules9To10()
    ensures !Contains("sparc-v-9", "alpha")
      && !Matches(Ia32At, "sparc-v-9")
  {
  }

  lemma SparcV9SpacedSkipsRules11To12()
    ensures !Matches(Ia64At, "sparc-v-9")
      && !(Contains("sparc-v-9", "m68k") || Contains("sparc-v-9", "m68000"))
  {
  }

  lemma SparcV9SpacedSkipsRules13To14()
    ensures !Matches(Ibmz64At, "sparc-v-9")
      && !Matches(Ibmz32At, "sparc-v-9")
  {
  }

  lemma SparcV9SpacedSkipsRules15To16()
    ensures !Matches(Ppc64LeAt, "sparc-v-9")
      && !Matches(Ppc32LeAt, "sparc-v-9")
  {
  }

  lemma SparcV9SpacedSkipsRules17To18()
    ensures !Matches(Ppc64At, "sparc-v-9")
      && !Matches(Ppc32At, "sparc-v-9")
  {
  }

  lemma SparcV9SpacedSkipsRules19To20()
    ensures !Matches(Mips64LeAt, "sparc-v-9")
      && !Matches(Mips32LeAt, "sparc-v-9")
  {
  }

  lemma SparcV9SpacedSkipsRules21To22()
    ensures !Matches(Mips64At, "sparc-v-9")
      && !Contains("sparc-v-9", "mips")
  {
  }

  lemma SparcV9SpacedSkipsRules23To24()
    ensures !Matches(Riscv64At, "sparc-v-9")
      && !Matches(Riscv32At, "sparc-v-9")
  {
  }

  lemma SparcV9SpacedSkipsRule25()
    ensures !Matches(Sparc64At, "sparc-v-9")
  {
    // one position at a time, from the end of the text back to its start
    assert !SomewhereFrom(Sparc64At, "sparc-v-9", 9);
    assert !SomewhereFrom(Sparc64At, "sparc-v-9", 8);
    assert !SomewhereFrom(Sparc64At, "sparc-v-9", 7);
    assert !SomewhereFrom(Sparc64At, "sparc-v-9", 6);
    assert !SomewhereFrom(Sparc64At, "sparc-v-9", 5);
    assert !SomewhereFrom(Sparc64At, "sparc-v-9", 4);
    assert !SomewhereFrom(Sparc64At, "sparc-v-9", 3);
    assert !SomewhereFrom(Sparc64At, "sparc-v-9", 2);
    assert !SomewhereFrom(Sparc64At, "sparc-v-9", 1);
    assert !SomewhereFrom(Sparc64At, "sparc-v-9", 0);
  }

  lemma SparcV9SpacedMatchesRule26()
    ensures Contains("sparc-v-9", "sparc")
  {
  }

  lemma NormalizeSparcV9Spaced()
    ensures Normalized("sparc v 9", false) == "sparc-v-9"
    ensures Normalized("sparc v 9", true) == "sparcv9"
  {
    assert Normalized("sparc v 9", false) == NormalizedPrefix("sparc v 9", 9, false);
    assert Normalized("sparc v 9", true) == NormalizedPrefix("sparc v 9", 9, true);
  }

  lemma ParseSparcV9Spaced()
    ensures Parse("sparc v 9") == Sparc32
  {
    NormalizeSparcV9Spaced();
    SparcV9SpacedSkipsRule1();
    SparcV9SpacedSkipsRule2();
    SparcV9SpacedSkipsRules3To4();
    SparcV9SpacedSkipsRules5To6();
    SparcV9SpacedSkipsRules7To8();
    SparcV9SpacedSkipsRules9To10();
    SparcV9SpacedSkipsRules11To12();
    SparcV9SpacedSkipsRules13To14();
    SparcV9SpacedSkipsRules15To16();
    SparcV9SpacedSkipsRules17To18();
    SparcV9SpacedSkipsRules19To20();
    SparcV9SpacedSkipsRules21To22();
    SparcV9SpacedSkipsRules23To24();
    SparcV9SpacedSkipsRule25();
    SparcV9SpacedMatchesRule26();
  }

  /** A JVM reporting its architecture with spaces. */
  const SparcV9SpacedHost: Properties := map["os.arch" := "sparc v 9"]

  lemma CurrentOfSparcV9Spaced()
    ensures Current(SparcV9SpacedHost) == Sparc64
  {
    assert PropertyOr(SparcV9SpacedHost, "os.arch", "") == "sparc v 9";
    NormalizeSparcV9Spaced();
    assert FastPath("sparcv9") == Wrappers.Some(Sparc64);
  }

  /**
   * The table is more than a shortcut: `sparc v 9` strips to the key
   * `sparcv9` and `current()` gives SPARC_64, while `parse` sees
   * `sparc-v-9`, which the `sparc-?(64|v9)` rule misses, and gives SPARC_32.
   */
  lemma CurrentBeforeParseExample()
    ensures Current(SparcV9SpacedHost) == Sparc64
    ensures Parse(SparcV9SpacedHost["os.arch"]) == Sparc32
  {
    CurrentOfSparcV9Spaced();
    ParseSparcV9Spaced();
  }

  /**
   * The documented examples: the x86-64 rule before the x86-32 rule, the
   * big-endian `aarch` rule before the plain one, and bare bitness last,
   * with `nvptx64` kept out of the x86 family.
   */
  lemma ParseExamples()
    ensures Parse("") == UnknownUnknown
    ensures Parse("x86_64") == X86_64 && Parse("x86-64") == X86_64
    ensures Parse("amd64") == X86_64 && Parse("em64t") == X86_64
    ensures Parse("x86") == X86_32 && Parse("i686") == X86_32 && Parse("pentium") == X86_32
    ensures Parse("aarch64be") == Arm64Be && Parse("aarch64") == Arm64
    ensures Parse("test32") == Unknown32 && Parse("test64") == Unknown64
    ensures Parse("nvptx64") == Unknown64
    ensures Parse("linux") == UnknownUnknown
  {
    ParseAmd64();
    ParseX86();
    ParsePentium();
    ParseAarch64();
    ParseX86Underscore64();
    ParseX86Dash64();
    ParseEm64t();
    ParseI686();
    ParseAarch64be();
    ParseTest32();
    ParseTest64();
    ParseNvptx64();
    ParseLinux();
  }
}
