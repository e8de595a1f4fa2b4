# jvm-platform, modelled in Dafny

The library classifies free-form platform strings into three things: an operating system (`Os`), an architecture (`Arch`) and a C runtime environment (`Env`). Such strings include JVM system properties, compiler target triples, release file names and the first line of `ldd --version`. It also prints and reads back a canonical `os-arch` identifier (`Platform`).

The model covers the five classes that make up this core.

- `Utils.dfy`: `id` (UPPER_SNAKE to lower-dash) and `normalize(chars, strip)`. Both are methods with the source's do-while loops. Each is proved against a recursive specification function. Lemmas prove length, alphabet, concatenation, strip/dash agreement, fixed points and idempotence.
- `Arch.dfy`: the constants and their names and ids, and the `parse` cascade. Each regular expression is a hand-written predicate over positions of the normalised text; the SuperH rule reads the raw value. Also modelled: the `current()` fast-path table with its bitness fallback, `getBitness`/`is32bit`/`is64bit`, and the family predicates.
- `Os.dfy`: ids, strict lookup (`fromString`/`fromStringOrNull`), and the `parseOrNull` cascade with `\b` word boundaries. Also `currentOrNull`, with its file-separator override, fast-path table and Dalvik test, and the four extension tables.
- `Env.dfy`: the `parse` cascade (own id first, then gcc/gnu, BSD tokens, Windows runtime tokens, android), the OS table that fixes the environment, and the `ldd` read loop as a method over the probe's bytes.
- `Platform.dfy`: the immutable `(Os, Arch)` value and its id. Also `equals`/`hashCode`/`compareTo`, the codec `fromString(OrNull)`, `parse(OrNull)`, `current(OrNull)`, and the `hasMusl` read loop and word test.
- `Wrappers.dfy`, `Sequences.dfy`, `Strings.dfy`, `Host.dfy`: `Option`/`Result`, the first-match search over enum values, substring and word-boundary predicates, and the host inputs. The host inputs are system properties as a map, and the outcome of running `ldd --version` as a `Probe` value.
- `ArchExamples.dfy`, `OsExamples.dfy`, `EnvExamples.dfy`, `PlatformExamples.dfy`: concrete classifications from the test suites, proved rule by rule. They also prove that every fast-path key agrees with `parse`, and the id-grammar finding below.

System properties (`os.name`, `os.arch`, `file.separator`, `java.vm.name`, `sun.arch.data.model`, `com.ibm.vm.bitmode`) are a `map<string, string>` parameter. Running `ldd --version` is a `Probe` parameter with five outcomes:

- the process does not start;
- it is interrupted;
- it times out;
- it exits with its output bytes;
- it exits, and a read fails once those bytes are consumed.

Exceptions are `Result` values carrying the source's exception kind and message.

Where the code and its documentation disagree, the model follows the code.

- `Platform.parse` and `Platform.current` are not thin wrappers around their `OrNull` forms. They build the value from `Os.parse` and `Arch.parse` (or `Os.current` and `Arch.current`), and the `Arch` versions never fail. So `parse("linux")` succeeds with an unknown architecture while `parseOrNull("linux")` is null. `Platform.ParseAgreesWithParseOrNull` and `Platform.CurrentAgreesWithCurrentOrNull` state exactly when the two differ.

`Arch.java` as shown is a different revision from the one `Platform.java` is written against, and `Platform.java` does not compile against it. Two things follow, and in both the model takes the documented behaviour rather than the literal code.

- `Platform.java` calls `Arch.currentOrNull` (line 64), `Arch.fromStringOrNull` (line 119) and `Arch.parseOrNull` (line 163), which this `Arch.java` does not define. They are modelled as follows:
  - `fromStringOrNull` is an exact lookup against `Arch.id`, as in `Os.fromStringOrNull`;
  - `parseOrNull` and `currentOrNull` give null when the result `isUnknown()`.
- This `Arch.java` has no `toString` override, so `os + "-" + arch` at `Platform.java:32` would use `Enum.name()` and give, for example, `linux-X86_64`. The model takes `Arch.id` as the architecture's string form instead, because `Platform`'s documentation (`Platform.java:247-256`: `linux-x86-64`, "`Arch#toString` joined with a dash") and its tests (`PlatformTest.kt:48-72`, which reads every id back through `fromString`) both do.

## Model

| member | source | states |
|---|---|---|
| Utils.Id | src/main/java/com/fleshgrinder/platform/Utils.java:17-28 | the loop's result has the input's length; each character is `_`→`-`, `A`–`Z` lowered, anything else kept; non-empty input is required, since the source indexes `chars[0]` unconditionally |
| Utils.IdPrefix | src/main/java/com/fleshgrinder/platform/Utils.java:21-26 | the first n mapped characters, position by position |
| Utils.IdInjective | src/main/java/com/fleshgrinder/platform/Utils.java:22-25 | on `[A-Z0-9_]` names, equal ids imply equal names |
| Utils.LowerAscii | src/main/java/com/fleshgrinder/platform/Utils.java:79 | upper-case letters become lower-case; every other character is unchanged |
| Utils.Normalize | src/main/java/com/fleshgrinder/platform/Utils.java:71-83 | the do-while loop computes the normalised string for both modes, including the empty-input early return |
| Utils.NormalizedPrefix | src/main/java/com/fleshgrinder/platform/Utils.java:76-81 | dash mode keeps the length; strip mode never grows the text |
| Utils.Normalized | src/main/java/com/fleshgrinder/platform/Utils.java:71-83 | the result is no longer than the input, and exactly as long in dash mode |
| Utils.NormalizedPrefixIsNormal | src/main/java/com/fleshgrinder/platform/Utils.java:78-80 | every output character is `[a-z0-9]`, or also `-` in dash mode |
| Utils.NormalizedAlphabet | src/main/java/com/fleshgrinder/platform/Utils.java:78-80 | the output alphabet is `[a-z0-9-]` in dash mode and `[a-z0-9]` in strip mode |
| Utils.NormalizeEmpty | src/main/java/com/fleshgrinder/platform/Utils.java:73 | the empty string normalises to the empty string in both modes |
| Utils.WithoutDashes | src/main/java/com/fleshgrinder/platform/Utils.java:80 | the result contains no dash |
| Utils.StripIsDashWithoutDashes | src/main/java/com/fleshgrinder/platform/Utils.java:78-80 | strip mode equals dash mode with every `-` removed |
| Utils.NormalizeConcat | src/main/java/com/fleshgrinder/platform/Utils.java:76-81 | normalising a concatenation is the concatenation of the normalised parts |
| Utils.NormalizeFixedPoint | src/main/java/com/fleshgrinder/platform/Utils.java:34-38 | any string already in the output alphabet, such as an id, is unchanged |
| Utils.NormalizeIdempotent | src/main/java/com/fleshgrinder/platform/Utils.java:34-38 | normalising twice equals normalising once, in both modes |
| Arch.AllArchsComplete | src/main/java/com/fleshgrinder/platform/Arch.java:16 | the table of constants that the lookups search contains every constant |
| Arch.NamesAreUpperSnake | src/main/java/com/fleshgrinder/platform/Arch.java:217 | every constant name is non-empty UPPER_SNAKE, so `Utils.id` applies to it |
| Arch.NameInjective | src/main/java/com/fleshgrinder/platform/Arch.java:16 | distinct constants have distinct names |
| Arch.IdsDistinct | src/main/java/com/fleshgrinder/platform/Arch.java:217 | distinct constants have distinct ids |
| Arch.FromStringOrNullIsIdLookup | src/main/java/com/fleshgrinder/platform/Platform.java:119 | the strict lookup gives `a` exactly when the value is `a`'s id |
| Arch.FromStringOrNullNone | src/main/java/com/fleshgrinder/platform/Platform.java:119 | the strict lookup gives null exactly when no id equals the value |
| Arch.DigitRunEnd | src/main/java/com/fleshgrinder/platform/Arch.java:336 | the end of the maximal digit run used by the `v[1-9]\d+` version rules |
| Arch.Parse | src/main/java/com/fleshgrinder/platform/Arch.java:329-369 | the rule cascade of `parse` on the dash-normalised text, first matching rule wins; empty text gives UNKNOWN_UNKNOWN; UNKNOWN_32/UNKNOWN_64 only come from a `32`/`64` in the normalised text, and UNKNOWN_UNKNOWN on non-empty text means neither occurs |
| Arch.FromStringOrNull | src/main/java/com/fleshgrinder/platform/Platform.java:119 | the strict lookup over the constants by id (not defined in this `Arch.java`); any constant it returns has the value as its id |
| Arch.ParseOrNull | src/main/java/com/fleshgrinder/platform/Platform.java:163 | `parse`, or null when that is unknown (not defined in this `Arch.java`): a present result equals `parse` and is not unknown, and null means `parse` was unknown |
| Arch.BitnessFacts | src/main/java/com/fleshgrinder/platform/Arch.java:376-394 | the bitness is 32 or 64, and 32 exactly when `is32bit`; every constant except UNKNOWN_UNKNOWN has exactly one of `is32bit`/`is64bit`; UNKNOWN_UNKNOWN has neither and reports 64 |
| Arch.UnknownUnknownHasNoBitness | src/main/java/com/fleshgrinder/platform/Arch.java:384-394 | UNKNOWN_UNKNOWN is neither 32- nor 64-bit |
| Arch.UnknownByName | src/main/java/com/fleshgrinder/platform/Arch.java:402-409 | `isUnknown` holds exactly for the names that start with `UNKNOWN_` |
| Arch.ArmByName | src/main/java/com/fleshgrinder/platform/Arch.java:419-439 | `isArm` is the union of the disjoint `isArmBe`/`isArmLe`, split by the `_BE` suffix |
| Arch.MipsByName | src/main/java/com/fleshgrinder/platform/Arch.java:466-486 | `isMips` is the union of the disjoint `isMipsBe`/`isMipsLe`, split by the `_LE` suffix |
| Arch.PpcByName | src/main/java/com/fleshgrinder/platform/Arch.java:495-515 | `isPpc` is the union of the disjoint `isPpcBe`/`isPpcLe`, split by the `_LE` suffix |
| Arch.IaByName | src/main/java/com/fleshgrinder/platform/Arch.java:446-448 | `isIa` holds exactly for the `IA_` names |
| Arch.IbmzByName | src/main/java/com/fleshgrinder/platform/Arch.java:455-457 | `isIbmz` holds exactly for the `IBMZ_` names |
| Arch.RiscvByName | src/main/java/com/fleshgrinder/platform/Arch.java:522-524 | `isRiscv` holds exactly for the `RISCV_` names |
| Arch.SparcByName | src/main/java/com/fleshgrinder/platform/Arch.java:531-533 | `isSparc` holds exactly for the `SPARC_` names |
| Arch.X86ByName | src/main/java/com/fleshgrinder/platform/Arch.java:540-542 | `isX86` holds exactly for the `X86_` names |
| Arch.CurrentFallback | src/main/java/com/fleshgrinder/platform/Arch.java:254-318 | when the strip-normalised `os.arch` is a key of the switch, `current` is that key's constant; off the switch, it returns `parse` unchanged unless that is unknown, and then a JVM bitness of "32"/"64" picks UNKNOWN_32/UNKNOWN_64; an unknown result implies the switch missed and `parse` was unknown |
| Arch.Current | src/main/java/com/fleshgrinder/platform/Arch.java:254-318 | the switch on the strip-normalised `os.arch`, else `parse`, else the JVM bitness; when the normalised value is a key, the result is that key's constant; otherwise it is `parse(os.arch)` or, when that is unknown, an unknown constant |
| Arch.CurrentOrNull | src/main/java/com/fleshgrinder/platform/Platform.java:64 | `current`, or null when that is unknown (not defined in this `Arch.java`): a present result equals `current` and is not unknown, and null means `current` was unknown |
| Arch.CurrentWithoutOsArch | src/main/java/com/fleshgrinder/platform/Arch.java:255-318 | without `os.arch`, only the JVM bitness decides, and the null-returning form gives null |
| ArchExamples.ParseExamples | src/main/java/com/fleshgrinder/platform/Arch.java:329-369 | "" → UNKNOWN_UNKNOWN; x86_64, x86-64, amd64, em64t → X86_64 before the x86-32 rule; x86, i686, pentium → X86_32; aarch64be → ARM_64_BE before aarch64 → ARM_64; test32/test64 → UNKNOWN_32/64; nvptx64 → UNKNOWN_64 despite `x64`; linux → UNKNOWN_UNKNOWN |
| ArchExamples.FastPathAgreesWithParse | src/main/java/com/fleshgrinder/platform/Arch.java:256-302 | for every key of the fast-path switch, `parse(key)` gives the same constant as the table |
| ArchExamples.KeysAreStripNormal | src/main/java/com/fleshgrinder/platform/Arch.java:256 | every fast-path key is already strip-normalised, so it is reachable |
| ArchExamples.CurrentAgreesWithParseOnKeys | src/main/java/com/fleshgrinder/platform/Arch.java:254-318 | for every `os.arch` whose strip-normalised form is a key of the switch, `current` equals `parse` of that key, and so `parse` of `os.arch` itself when it is spelled as the key |
| ArchExamples.ParseSparcV9Spaced | src/main/java/com/fleshgrinder/platform/Arch.java:355-356 | `parse("sparc v 9")` is SPARC_32: `sparc-v-9` misses the `sparc-?(64\|v9)` rule and matches `contains("sparc")` |
| ArchExamples.CurrentOfSparcV9Spaced | src/main/java/com/fleshgrinder/platform/Arch.java:256-290 | with `os.arch` "sparc v 9", which strips to the key `sparcv9`, `current` is SPARC_64 |
| ArchExamples.CurrentBeforeParseExample | src/main/java/com/fleshgrinder/platform/Arch.java:254-356 | the switch is not only a shortcut for `parse`: for "sparc v 9" `current` gives SPARC_64 while `parse` gives SPARC_32 |
| Os.AllOsComplete | src/main/java/com/fleshgrinder/platform/Os.java:17 | the table of constants that the lookups search contains every constant |
| Os.NamesAreUpperAlnum | src/main/java/com/fleshgrinder/platform/Os.java:160 | every constant name is an upper-case letter followed by upper-case letters and digits |
| Os.IdsAreLowerAlnum | src/main/java/com/fleshgrinder/platform/Os.java:557-560 | every id matches `^[a-z][a-z0-9]*$`, has no `-`, and is as long as the name |
| Os.NameInjective | src/main/java/com/fleshgrinder/platform/Os.java:17 | distinct constants have distinct names |
| Os.IdsDistinct | src/main/java/com/fleshgrinder/platform/Os.java:160 | distinct constants have distinct ids |
| Os.FromStringOrNullIsIdLookup | src/main/java/com/fleshgrinder/platform/Os.java:297-300 | the lookup gives `os` exactly when the value is `os`'s id, so it inverts `toString` |
| Os.FromStringOrNullNone | src/main/java/com/fleshgrinder/platform/Os.java:297-300 | the lookup gives null exactly when no id equals the value |
| Os.FromString | src/main/java/com/fleshgrinder/platform/Os.java:274-278 | succeeds exactly when the lookup does, with the OS whose id is the value; otherwise IllegalArgument "Unknown operating system: " + value |
| Os.Parse | src/main/java/com/fleshgrinder/platform/Os.java:315-319 | succeeds exactly when `parseOrNull` does, with the same OS; otherwise the same IllegalArgument message |
| Os.ParseOrNullOfId | src/main/java/com/fleshgrinder/platform/Os.java:334-336 | `parseOrNull("")` is null, and `parseOrNull(id)` gives that OS because the exact search runs first |
| Os.ParseOrNullNoId | src/main/java/com/fleshgrinder/platform/Os.java:334-363 | when the dash-normalised value is no id, the result is the rule cascade on it |
| Os.ParseOrNull | src/main/java/com/fleshgrinder/platform/Os.java:333-363 | empty text gives null; text whose dash-normalised form is some OS's id gives an OS with that id; otherwise the `\b` word-rule cascade |
| Os.WordInWordIsWhole | src/main/java/com/fleshgrinder/platform/Os.java:339 | inside a single lower-alphanumeric word, a `\b`-bounded word can only be the whole word |
| Os.AndroidWordInId | src/main/java/com/fleshgrinder/platform/Os.java:339 | only ANDROID's id contains the word `android` |
| Os.AndroidId | src/main/java/com/fleshgrinder/platform/Os.java:160 | ANDROID's id is `android` |
| Os.AndroidBeforeLinux | src/main/java/com/fleshgrinder/platform/Os.java:338-340 | any text whose normalised form contains the word `android` gives ANDROID, whatever else it contains |
| OsExamples.AndroidBeforeLinuxExample | src/test/java/com/fleshgrinder/platform/OsTest.java:62 | "linux android linux" gives ANDROID |
| OsExamples.WordBoundaryExamples | src/main/java/com/fleshgrinder/platform/Os.java:339-363 | rv32imac, rv64imac and os4000 give null, because no rule word is `\b`-bounded in them |
| Os.Current | src/main/java/com/fleshgrinder/platform/Os.java:182-186 | succeeds exactly when `currentOrNull` does; otherwise IllegalState with the `os.name` text or the missing-property text |
| Os.CurrentWithoutOsName | src/main/java/com/fleshgrinder/platform/Os.java:208-210 | a backslash file separator gives WINDOWS whatever `os.name` is; otherwise a missing `os.name` gives null |
| Os.FastPath | src/main/java/com/fleshgrinder/platform/Os.java:211-252 | the switch on the strip-normalised `os.name`; it gives ANDROID exactly for `linux` with `java.vm.name` equal to `dalvik` ignoring case, and never WINDOWS, which only the separator test gives |
| Os.CurrentOrNull | src/main/java/com/fleshgrinder/platform/Os.java:207-253 | a backslash `file.separator` gives WINDOWS; any present result comes from that separator or from a present `os.name`; what a present `os.name` gives is stated for all inputs by `OsExamples.CurrentAgreesWithParseOnKeys` |
| OsExamples.FastPathAgreesWithParse | src/main/java/com/fleshgrinder/platform/Os.java:211-253 | each fast-path key gives what `parseOrNull` gives, except that `linux` gives ANDROID exactly when `java.vm.name` equals `dalvik` ignoring case |
| OsExamples.KeysAreStripNormal | src/main/java/com/fleshgrinder/platform/Os.java:211 | every fast-path key is already strip-normalised, so it is reachable |
| OsExamples.CurrentAgreesWithParseOnKeys | src/main/java/com/fleshgrinder/platform/Os.java:207-253 | for every `os.name` and a non-backslash separator, the strip-normalised name decides: a key of the switch gives `parseOrNull` of that key, `linux` gives ANDROID exactly on a Dalvik VM and LINUX otherwise, and any other name gives `parseOrNull` of the raw value |
| OsExamples.CurrentOfId | src/main/java/com/fleshgrinder/platform/Os.java:207-253 | `os.name` set to any OS's id gives that OS back, with a backslash separator only on Windows and Linux not on Dalvik |
| OsExamples.CurrentOfLinuxHost | src/main/java/com/fleshgrinder/platform/Os.java:211-215 | `os.name` "Linux" on a non-Dalvik VM gives LINUX |
| OsExamples.CurrentOfAndroidHost | src/main/java/com/fleshgrinder/platform/Os.java:214-215 | `os.name` "Linux" with `java.vm.name` "Dalvik" gives ANDROID |
| OsExamples.CurrentOfMacHost | src/main/java/com/fleshgrinder/platform/Os.java:211-217 | `os.name` "Mac OS X" normalises to the `macosx` key and gives DARWIN |
| OsExamples.CurrentOfWindowsHost | src/main/java/com/fleshgrinder/platform/Os.java:208 | a backslash separator gives WINDOWS for `os.name` "Windows 10" |
| Os.WithExecutableExtension | src/main/java/com/fleshgrinder/platform/Os.java:393-395 | the path with the executable extension appended |
| Os.WithLinkLibraryExtension | src/main/java/com/fleshgrinder/platform/Os.java:438-440 | the path is kept as prefix and the link-library extension follows it |
| Os.WithSharedLibraryExtension | src/main/java/com/fleshgrinder/platform/Os.java:491-493 | the path is kept as prefix and the shared-library extension follows it |
| Os.WithStaticLibraryExtension | src/main/java/com/fleshgrinder/platform/Os.java:536-538 | the path is kept as prefix and the static-library extension follows it |
| Os.ExtensionTable | src/main/java/com/fleshgrinder/platform/Os.java:379-381 | the four tables: `.exe` only on Windows; `.dll`/`.dylib`/`.so`; `.lib`/`.a`; `.lib`/`.so`; each non-empty extension starts with `.` |
| Env.Ordinal | src/main/java/com/fleshgrinder/platform/Env.java:22 | the declaration position of each constant in the table that `parse` searches |
| Env.OwnIdWins | src/main/java/com/fleshgrinder/platform/Env.java:120 | when some environment's id occurs in the text, `parse` gives the first such environment in declaration order |
| Env.OnlyOwnId | src/main/java/com/fleshgrinder/platform/Env.java:120 | when exactly one id occurs in the text, `parse` gives that environment |
| Env.NoOwnId | src/main/java/com/fleshgrinder/platform/Env.java:119-133 | when no id occurs, the result is the token cascade (gcc/gnu, BSD tokens, Windows tokens, android, else UNKNOWN) |
| Env.Parse | src/main/java/com/fleshgrinder/platform/Env.java:117-133 | empty text gives UNKNOWN; UNKNOWN means no environment's own id occurs in the normalised text; the own-id search runs first, then the token cascade |
| EnvExamples.ParseExamples | src/main/java/com/fleshgrinder/platform/Env.java:117-133 | "" → UNKNOWN; x86_64-darwin10-gcc → GLIBC because gcc is tried before darwin; elf → UNKNOWN; gcc → GLIBC; musl → MUSL; win → MSVC; BSDLIBC → BSDLIBC; tabs and newlines → UNKNOWN |
| EnvExamples.ParseOfId | src/main/java/com/fleshgrinder/platform/Env.java:120 | every environment's id parses back to it (UNKNOWN's by the cascade) |
| Env.ParseIgnoresCase | src/main/java/com/fleshgrinder/platform/Env.java:119 | lowering the text first does not change what `parse` gives |
| Env.FirstLineIsPrefix | src/main/java/com/fleshgrinder/platform/Env.java:172-175 | the read line is the output before the first line feed, or all of it, with `A`–`Z` lowered and every other byte kept |
| Env.FirstLineLength | src/main/java/com/fleshgrinder/platform/Env.java:172 | the line's length is the position of the first line feed |
| Env.Bytes | src/main/java/com/fleshgrinder/platform/Env.java:172 | the bytes of a text of byte-sized characters, one per character |
| Env.Lowered | src/main/java/com/fleshgrinder/platform/Env.java:173-174 | lowers each character on its own and keeps the length |
| Env.FirstLineOfText | src/main/java/com/fleshgrinder/platform/Env.java:172-175 | on text whose first line is `line`, the read loop gives `line` lowered |
| Env.Ldd | src/main/java/com/fleshgrinder/platform/Env.java:159-184 | the method's read loop gives the lowered first line of an exited probe, the part read before a read failure, or "" when the process failed to start, was interrupted or timed out |
| Env.LddOutput | src/main/java/com/fleshgrinder/platform/Env.java:159-184 | what `ldd` returns for a probe: "" unless the process exited, otherwise the lowered first line, which has no line feed and is no longer than the output |
| Env.CurrentUsesProbeOnlyWhenNotFixed | src/main/java/com/fleshgrinder/platform/Env.java:137-151 | ANDROID, the BSD family and WINDOWS fix the environment and ignore the probe; every other OS gives `parse` of the probe's first line, which is UNKNOWN when no output was read |
| Env.Current | src/main/java/com/fleshgrinder/platform/Env.java:137-151 | an OS in the fixed table gives its fixed environment whatever the probe; any other OS with a probe that did not exit gives UNKNOWN |
| EnvExamples.FixedEnvAgreesWithParse | src/main/java/com/fleshgrinder/platform/Env.java:138-149 | each fixed environment is also what `parse` gives for that OS's id |
| Env.CurrentOfText | src/main/java/com/fleshgrinder/platform/Env.java:150 | on an OS that is not fixed, the environment is `parse` of the probe output's first line |
| EnvExamples.CurrentFromProbe | src/test/java/com/fleshgrinder/platform/EnvTest.java:63-75 | on Linux, Alpine's `ldd --version` output gives MUSL |
| Platform.IdSplits | src/main/java/com/fleshgrinder/platform/Platform.java:32 | the first `-` of the id ends the OS id, and the rest is the architecture id; the OS id is non-empty and at least two characters follow the dash |
| Platform.Id | src/main/java/com/fleshgrinder/platform/Platform.java:32 | the OS id, a dash, then the architecture id: its length is the sum plus one, and the dash sits right after the OS id |
| Platform.ArchIdsAreLong | src/main/java/com/fleshgrinder/platform/Arch.java:217 | every architecture id has at least five characters |
| Platform.EqualsIsSamePair | src/main/java/com/fleshgrinder/platform/Platform.java:230-232 | two platforms are equal by id exactly when their (os, arch) pairs are equal |
| Platform.Int32 | src/main/java/com/fleshgrinder/platform/Platform.java:236 | the 32-bit two's-complement wrap of an integer, congruent to it modulo 2^32 |
| Platform.StringHash | src/main/java/com/fleshgrinder/platform/Platform.java:236 | `String.hashCode`'s `h*31 + c` recurrence, wrapped to 32 bits each step |
| Platform.HashCode | src/main/java/com/fleshgrinder/platform/Platform.java:235-237 | `String.hashCode` of the id, always a 32-bit signed value |
| Platform.HashCodeAgreesWithEquals | src/main/java/com/fleshgrinder/platform/Platform.java:229-237 | equal platforms have equal hash codes, and equality is only ever between the same pair |
| Platform.CompareFromZero | src/main/java/com/fleshgrinder/platform/Platform.java:226 | with equal prefixes, string comparison is zero exactly when the strings are equal |
| Platform.CompareFromAntisymmetric | src/main/java/com/fleshgrinder/platform/Platform.java:226 | swapping the operands negates the comparison |
| Platform.CompareFromTransitive | src/main/java/com/fleshgrinder/platform/Platform.java:226 | "less than" chains |
| Platform.CompareFromIsLex | src/main/java/com/fleshgrinder/platform/Platform.java:226 | a negative result means lexicographically smaller: a proper prefix, or smaller at the first difference |
| Platform.CompareTo | src/main/java/com/fleshgrinder/platform/Platform.java:225-227 | string comparison of the ids: zero exactly when the platforms are equal, negative exactly when the id is lexicographically smaller |
| Platform.CompareToIsOrder | src/main/java/com/fleshgrinder/platform/Platform.java:225-227 | `compareTo` is zero exactly when equal, antisymmetric and transitive, and negative exactly when the id is lexicographically smaller |
| PlatformExamples.CompareExamples | src/test/kotlin/com/fleshgrinder/platform/PlatformTest.kt:124-139 | darwin-arm-64 < linux-x86-32 < windows-x86-64 |
| Platform.FromStringOrNullShape | src/main/java/com/fleshgrinder/platform/Platform.java:113-117 | a value that decodes is non-empty, has its first `-` after position 0, and has at least two characters after that dash |
| Platform.FromStringOrNull | src/main/java/com/fleshgrinder/platform/Platform.java:112-124 | the shape test, then the OS and architecture lookups on the two halves; a decoded value is non-empty, its first `-` is after position 0, and two or more characters follow it |
| Platform.FromStringOrNullParts | src/main/java/com/fleshgrinder/platform/Platform.java:115-120 | a decoded value splits at its first dash into exactly the OS id and the architecture id |
| Platform.FromStringOrNullOfId | src/main/java/com/fleshgrinder/platform/Platform.java:112-123 | round trip: decoding a platform's id gives the platform back |
| Platform.FromStringOrNullIsId | src/main/java/com/fleshgrinder/platform/Platform.java:112-123 | round trip the other way: whatever decodes is the id of its result |
| Platform.FromStringOrNullIsIdLookup | src/main/java/com/fleshgrinder/platform/Platform.java:112-123 | decoding gives `p` exactly when the value is `p`'s id |
| Platform.FromStringOrNullNone | src/main/java/com/fleshgrinder/platform/Platform.java:112-123 | decoding gives null exactly when the value is no platform's id |
| Platform.FromString | src/main/java/com/fleshgrinder/platform/Platform.java:87-91 | succeeds exactly when decoding does, with the platform whose id is the value; otherwise IllegalArgument "Unknown platform: " + value |
| PlatformExamples.FromStringExample | src/test/kotlin/com/fleshgrinder/platform/PlatformTest.kt:49-72 | linux-x86-64 is the id of (LINUX, X86_64) and reads back to it |
| PlatformExamples.FromStringOrNullRejectsShapes | src/main/java/com/fleshgrinder/platform/Platform.java:113-117 | "", "linux", "-x86-64" and "linux-6" fail the shape test |
| PlatformExamples.FromStringOrNullRejectsUnknownOs | src/main/java/com/fleshgrinder/platform/Platform.java:118-120 | "unknown-x86-64" is rejected because no OS id is "unknown" |
| Platform.Parse | src/main/java/com/fleshgrinder/platform/Platform.java:140-146 | succeeds exactly when the OS parses, pairing that OS with `Arch.parse` of the same value; otherwise IllegalArgument "Unknown platform: " + value |
| Platform.ParseAgreesWithParseOrNull | src/main/java/com/fleshgrinder/platform/Platform.java:140-165 | `parseOrNull` is present exactly when both parts are; it then equals `parse`; the two differ exactly when the OS parses and the architecture is unknown |
| Platform.ParseOrNull | src/main/java/com/fleshgrinder/platform/Platform.java:161-165 | present exactly when `Os.parseOrNull` and `Arch.parseOrNull` both are; then it pairs that OS with `Arch.parse` of the value, which is not unknown |
| PlatformExamples.ParseAcceptsUnknownArch | src/main/java/com/fleshgrinder/platform/Platform.java:140-165 | `parse("linux")` gives (LINUX, UNKNOWN_UNKNOWN) while `parseOrNull("linux")` is null |
| Platform.Current | src/main/java/com/fleshgrinder/platform/Platform.java:45-51 | succeeds exactly when the OS is known, pairing it with `Arch.current`; otherwise IllegalState "Unknown platform" |
| Platform.CurrentAgreesWithCurrentOrNull | src/main/java/com/fleshgrinder/platform/Platform.java:45-66 | `currentOrNull` is present exactly when both parts are; it then equals `current`; the two differ exactly when the OS is known and the architecture is unknown |
| Platform.CurrentOrNull | src/main/java/com/fleshgrinder/platform/Platform.java:62-66 | present exactly when `Os.currentOrNull` and `Arch.currentOrNull` both are; then it pairs that OS with `Arch.current`, which is not unknown |
| PlatformExamples.CurrentExample | src/main/java/com/fleshgrinder/platform/Platform.java:45-66 | with `os.name` Linux and `os.arch` amd64, both forms give (LINUX, X86_64) |
| PlatformExamples.CurrentAcceptsUnknownArch | src/main/java/com/fleshgrinder/platform/Platform.java:45-66 | with only `os.name` Linux, `current` gives (LINUX, UNKNOWN_UNKNOWN) while `currentOrNull` is null |
| Platform.HasMusl | src/main/java/com/fleshgrinder/platform/Platform.java:186-212 | the method's read loop answers whether the lowered first line contains the word `musl`; a failure to start, an interruption, a timeout or a read failure before the first line feed gives false |
| Platform.HasMuslOf | src/main/java/com/fleshgrinder/platform/Platform.java:186-212 | whether an exited probe's lowered first line contains the word `musl`; true only when the process exited and no read failed before the first line feed |
| Platform.HasMuslOfText | src/main/java/com/fleshgrinder/platform/Platform.java:199-211 | for output whose first line is `line`, the answer is whether lowered `line` contains the word `musl` |
| Platform.HasMuslReadFailure | src/main/java/com/fleshgrinder/platform/Platform.java:205-206 | a read failure before any line feed gives false |
| PlatformExamples.AlpineHasMusl | src/test/kotlin/com/fleshgrinder/platform/PlatformMuslTest.kt:47-56 | Alpine's `musl libc (x86_64)` output gives true |
| PlatformExamples.UbuntuHasNoMusl | src/test/kotlin/com/fleshgrinder/platform/PlatformMuslTest.kt:68-78 | Ubuntu's glibc first line gives false, whatever follows it |
| PlatformExamples.FailedRunsHaveNoMusl | src/test/kotlin/com/fleshgrinder/platform/PlatformMuslTest.kt:80-101 | a failure to start, an interruption or a timeout gives false |
| Platform.IdGrammarSplits | src/main/java/com/fleshgrinder/platform/Platform.java:245 | a platform id matches the documented pattern exactly when its architecture id matches the architecture half of it |
| Platform.DocumentedIsArchGrammar | src/main/java/com/fleshgrinder/platform/Platform.java:245 | the corrected architecture grammar accepts everything the documented one does |
| PlatformExamples.ArchIdsFollowDocumentedGrammar | src/main/java/com/fleshgrinder/platform/Platform.java:245 | every architecture id except `unknown-unknown` matches `[a-z][a-z0-9]*-[1-9][0-9]*(-(be\|le))?` |
| PlatformExamples.ArchIdsFollowArchGrammar | src/main/java/com/fleshgrinder/platform/Platform.java:245 | every architecture id matches the corrected grammar, whose bitness may also be `unknown` |
| PlatformExamples.IdsFollowDocumentedGrammarUnlessUnknown | src/main/java/com/fleshgrinder/platform/Platform.java:245 | a platform id matches the documented pattern exactly when its architecture is not UNKNOWN_UNKNOWN |
| PlatformExamples.LinuxUnknownUnknown | src/main/java/com/fleshgrinder/platform/Platform.java:245 | `linux-unknown-unknown` is an id, fails the documented pattern, and matches the corrected one |
| PlatformExamples.IdsFollowIdGrammar | src/main/java/com/fleshgrinder/platform/Platform.java:245 | every platform id matches the corrected pattern |

## Left out

- Process handling in `Env.ldd` and `Platform.hasMusl` is not modelled: `ProcessBuilder.start`, the one-second `waitFor`, `destroyForcibly` and stream closing. The model sees only which of the `Probe` outcomes happened and the bytes that were read.
- `System.getProperty` is not global state here: properties are a map parameter. `Env.current()` and `Platform.hasMusl()` without arguments only supply `Os.current()` or the default `ldd` path, so the model has only their parameterised forms.
- The `java.io.File` overloads of the extension helpers are not modelled. They rebuild a `File` from the String overloads through the foreign `File` API.
- Utils.Normalize and Utils.Id work on Unicode scalar values, not on Java's UTF-16 `char`s. A character outside the Basic Multilingual Plane is one element here, but two surrogate `char`s in Java, which `normalize` turns into two dashes: `x86😀64` becomes `x86--64` in Java (X86_32, since `-?` allows one dash) and `x86-64` here (X86_64). Unpaired surrogates cannot be represented and are not modelled.
- Regular expressions and `equalsIgnoreCase` are ASCII-only here. `\b` and `\w` use the ASCII word characters, and the case-insensitive Dalvik test folds only ASCII letters. Unicode case folding, and non-ASCII characters counting as word characters, are not modelled.
- Platform.HashCode: only its agreement with `equals` is proved, not any particular numeric value of `String.hashCode`.
- Exception causes are not modelled. `Platform.parse` and `Platform.current` attach the component exception as the cause, and the model keeps only the exception kind and message.
- `Serializable` and `serialVersionUID` are not modelled; they concern Java serialisation only.
- `UnsupportedPlatformException` is not modelled. It only formats a message from a system property and is not used by the five classes.
- Test expectations that contradict the code, such as `linux-unknown-64` being rejected and `parse` of every id round-tripping for unknown architectures, are not encoded; the model follows the code.
- Long test inputs are not proved as examples, for the broken-musl `ldd` line and several long `Env`/`Os` strings; the general lemmas (`Env.CurrentOfText`, `Platform.HasMuslOfText`) cover them given the parse result of their first line.

## Findings

| source | as written | input that shows it | evidently intended | confidence | as-written member | corrected member |
|---|---|---|---|---|---|---|
| src/main/java/com/fleshgrinder/platform/Platform.java:245 | the id is documented to always match `^[a-z][a-z0-9]*-[a-z][a-z0-9]*-[1-9][0-9]*(-(be\|le))?$` | `Platform(LINUX, UNKNOWN_UNKNOWN)`, whose id is `linux-unknown-unknown`: its bitness segment is not a number | the bitness segment may also be `unknown` | not executed | PlatformExamples.IdsFollowDocumentedGrammarUnlessUnknown | PlatformExamples.IdsFollowIdGrammar |
