# RunHiddenConsole — a Dafny model of the launcher

RunHiddenConsole is a small Windows tool. It takes the arguments after its own options,
joins them into one command line and starts that command with `CREATE_NO_WINDOW`, so a
console program runs without a console window. It exits at once and does not wait for the
child.

This project models the two source files that do the work:

- `src/main.cpp`: the start-up, the option outcome, the collection and joining of the
  arguments, the command buffer and the choice of process-creation call. This is module
  `Launcher` in `launcher.dfy`.
- `src/util.cpp`: the UTF-16/UTF-8 argument-vector conversion and its helpers. These are:
  - the flag policy for the Windows conversion functions (`CodePages`, `codepages.dfy`);
  - the two string wrappers (`Encoding`, `encoding.dfy`);
  - `stringToChar` and the generic `listToPointer` / `freePointerList` (`PointerLists`,
    `pointerlists.dfy`);
  - `ArgvWToArgv` and `freeArgv` (`Argv`, `argv.dfy`).

`common.dfy` holds the shared types and the C-string reading `CStr`.

## How the model is built

**Strings.** Narrow strings are byte sequences (`seq<bv8>`). Wide strings are UTF-16 code-unit
sequences (`seq<bv16>`). Code pages are 32-bit unsigned integers. Flag words are `bv32`.

**Outside calls become inputs.** Everything the code asks of Windows or the C runtime is a
parameter:

- `WideCharToMultiByte` and `MultiByteToWideChar` are `Transcoder` function values. Each maps
  a source and a flag word to the converted text, or to None when the library returns 0.
- `malloc` is an `Allocator`, which answers by the requested byte count.
- `GetACP` and `GetOEMCP` are a `System` record.
- The success of `CreateProcessW`/`CreateProcessA` is a boolean.
- The result of `CommandLineToArgvW(GetCommandLineW())` is an `Option`.
- The getopt loop's outcome is an `Options` value.

**Memory.** Memory is not a heap here. The model records which entries a routine hands to
`free()` or to a release callback (`Release`), so a leak or a call through a null release
pointer shows in the contracts.

**Imperative code.** The loops of the source are methods, each proved against a function or an
element-wise contract:

- the builder loop of `listToPointer` and the release loop of `freePointerList`;
- the conversion loop of `ArgvWToArgv`;
- the `cml` collection and command-line join loops of `main`;
- the buffer copy.

`Launcher.Run` puts these methods together. It is proved equal to `Launcher.RunSpec`, and the
properties of `main` are lemmas about `RunSpec`.

## Model

| member | source | states |
|---|---|---|
| Common.CStr | src/util.cpp:110-111 | reading a buffer as a C string gives the prefix before the first NUL, which contains no NUL |
| Common.CStrOfTerminated | src/main.cpp:128-129 | a buffer that starts with `s` followed by a NUL reads back as `s` read as a C string |
| CodePages.Resolve | src/util.cpp:117-118 | CP_ACP becomes the ANSI page, CP_OEMCP the OEM page, and an ANSI page equal to CP_OEMCP is replaced a second time; other pages are kept |
| CodePages.Policy | src/util.cpp:116-138 | the answer is a subset of the requested flags; 0 on the pages that refuse flags (50220, 50221, 50222, 50225, 50227, 50229, UTF-7 (65000), symbol (42) and 57002 to 57011); only the strict bit on UTF-8 and GB18030; the request unchanged elsewhere |
| CodePages.WideCharToMultiByteOptions | src/util.cpp:116-138 | the same policy with WC_ERR_INVALID_CHARS as the strict bit |
| CodePages.MultiByteToWideCharOptions | src/util.cpp:191-213 | the same policy with MB_ERR_INVALID_CHARS as the strict bit |
| CodePages.PolicyIdempotent | src/util.cpp:116-138 | asking again with the returned flags returns them unchanged |
| CodePages.PolicyOnlyClears | src/util.cpp:134-137 | the policy never sets a bit that was not requested, and on the UTF-8-like pages it keeps at most the strict bit |
| CodePages.Utf8RequestsStayStrict | src/util.cpp:92 | the wrappers' requests for CP_UTF8 keep strict invalid-character checking on every system |
| CodePages.MarkersClassifiedAfterResolution | src/util.cpp:117-118 | asking with CP_ACP or CP_OEMCP is the same as asking with the page the system reports |
| Encoding.WStringToUtf8 | src/util.cpp:87-114 | empty input gives `""` and true; otherwise true exactly when the strict UTF-8 conversion succeeds and its buffer can be allocated, and `dest` is then the converted text; on false `dest` is untouched |
| Encoding.Utf8ToWString | src/util.cpp:162-189 | the same for the UTF-8 to UTF-16 direction, with a buffer of (len + 1) wide characters |
| Encoding.ConvertedTextIsNulFree | src/util.cpp:110-111 | the text a successful conversion stores contains no NUL |
| PointerLists.StringToChar | src/util.cpp:30-41 | fails exactly when malloc of size+1 fails; otherwise the buffer holds the input followed by a NUL |
| PointerLists.StringToCharRoundTrip | src/util.cpp:30-41 | the buffer reads back, as a C string, as the input it was given |
| PointerLists.ConvertPrefix | src/util.cpp:57-72 | the longest prefix whose entries all convert, entry by entry; it stops at the first entry that does not convert |
| PointerLists.ListToPointerSpec | src/util.cpp:47-75 | builds exactly when a converter is given, the list is non-empty, the array can be allocated and every entry converts, with entry j the conversion of element j; on failure nothing is released, and the code calls through the null release pointer exactly when none was given and some entry had already converted |
| PointerLists.ListToPointer | src/util.cpp:47-75 | the loop returns what `ListToPointerSpec` says, and leaves `result` untouched on failure |
| PointerLists.ListToPointerCorrected | src/util.cpp:60-69 | with the cleanup test as intended it never calls through a null release pointer |
| PointerLists.CorrectedReleasesPartialWork | src/util.cpp:61-68 | when some element fails to convert, the corrected builder fails and releases exactly the entries converted before the first failing element, in order |
| PointerLists.CorrectionOnlyAffectsCleanup | src/util.cpp:47-75 | the corrected builder succeeds exactly when the original does, with the same entries |
| PointerLists.CleanupInvertedLeaks | src/util.cpp:61-66 | on the list ["a", ""] with a converter that refuses "" and a release function given, one entry is converted and none is released, where the correction releases it |
| PointerLists.FreePointerList | src/util.cpp:77-85 | a null list is ignored; otherwise each of the first `count` entries goes, in order, to the callback when one is given or to free() when not, and then the array is freed |
| Argv.ConvertArg | src/util.cpp:144-147 | an entry converts exactly when it is non-null and its UTF-8 conversion succeeds |
| Argv.CharBufferBuild | src/util.cpp:151-153 | the builder with `stringToChar` succeeds exactly when the list is non-empty and every buffer can be allocated, and then entry j is element j followed by a NUL |
| Argv.ArgvWToArgvSpec | src/util.cpp:140-156 | succeeds exactly when the vector is non-null, argc > 0, every one of the argc entries converts, and every buffer and the array can be allocated; then entry i is the UTF-8 text of argument i followed by a NUL |
| Argv.ArgvWToArgv | src/util.cpp:140-156 | the loop returns what `ArgvWToArgvSpec` says and assigns `argv` only on success |
| Argv.ArgvConversionLeaksBuffers | src/util.cpp:151-153 | when the first argument's buffer is allocated and a later one is not, the builder fails with the first buffer built and releases nothing, although `freeChar` was given |
| Argv.FreeArgv | src/util.cpp:158-160 | a null argv is ignored; otherwise each of the argc entries goes to free(), then the array |
| Launcher.CollectCommand | src/main.cpp:105-107 | `cml` is the arguments from `optind` on, in order, and empty when optind is past the end |
| Launcher.DropLeadingEmpty | src/main.cpp:118 | the dropped tokens are all empty, and the rest is empty or starts with a non-empty token |
| Launcher.DropLeadingEmptyIsSuffix | src/main.cpp:118 | what is kept is the input with its leading empty tokens cut off, in order |
| Launcher.IntercalateStartsWithFirst | src/main.cpp:118 | a joined line starts with its first piece |
| Launcher.DropLeadingEmptySnoc | src/main.cpp:118 | adding a token at the end adds it after the surviving tokens, or keeps it alone when nothing survived so far |
| Launcher.CommandLineEmpty | src/main.cpp:118 | the line is empty exactly when every token is empty |
| Launcher.JoinStep | src/main.cpp:115-119 | one more token extends the line as the loop body does: no separator while the line is empty, one space otherwise |
| Launcher.JoinCommandLine | src/main.cpp:113-119 | the loop builds the quoted tokens, without the leading empty ones, joined by single spaces |
| Launcher.NoLeadingSpace | src/main.cpp:117-118 | the command line never starts with a space |
| Launcher.SpaceFreeTokensJoinPlainly | src/main.cpp:115-119 | tokens without spaces, the first one non-empty, are joined by single spaces with no quoting |
| Launcher.IntercalateTrimmed | src/main.cpp:118 | joining pieces with no space at either end gives such a line, with one space between neighbouring pieces, and adds no double space |
| Launcher.QuoteTrimmed | src/main.cpp:117 | a non-empty argument becomes a piece with no space at either end, and quoting adds no double space |
| Launcher.NonEmptyTokensJoinCleanly | src/main.cpp:115-119 | with no empty argument, every argument is kept and quoted, the pieces are joined by single spaces, the line has no leading or trailing space, and it has a double space only where an argument has one |
| Launcher.EmptyArgumentsLost | src/main.cpp:117-118 | empty arguments are lost: a leading one vanishes, a trailing one leaves a trailing space, and one in the middle leaves a double space |
| Launcher.CorrectedQuotingKeepsArguments | src/main.cpp:117-118 | when an empty argument is quoted as `""`, the line has no space at either end, every argument stays one piece between single spaces, and the line is main's whenever no argument is empty |
| Launcher.CorrectedQuotingExample | src/main.cpp:117 | with corrected quoting, the arguments `a`, the empty string and `b` give `a "" b` |
| Launcher.QuotingIsAmbiguous | src/main.cpp:117 | inner quotes are not escaped, so the argument lists `x" "y` and `"x"`,`"y"` give the same command line |
| Launcher.QuotedArgumentExample | src/main.cpp:117 | the arguments `a` and `b c` give the line `a "b c"` |
| Launcher.CopyToBuffer | src/main.cpp:123-129 | null exactly when malloc fails; otherwise |s| + 1000 cells holding the line and then a NUL, which read back as the line |
| Launcher.Startup | src/main.cpp:45-58 | `use_wv` is set exactly when the wide vector was obtained and converted; `rargv` is then the converted entries, and otherwise the runtime's argv |
| Launcher.CreateChild | src/main.cpp:120-165 | the launch branch makes the call `Decide` describes |
| Launcher.Run | src/main.cpp:39-166 | main's exit code, launch and releases are `RunSpec`'s |
| Launcher.LaunchDecision | src/main.cpp:120-165 | the wide call is made exactly when `use_wv` holds, the line converts and its buffer can be allocated; the narrow call exactly when `use_wv` holds, the line does not convert and the byte buffer can be allocated; after a launch attempt the exit code is 0 whatever CreateProcess returned; without one it is -1, or 0 when `use_wv` is false |
| Launcher.ExitCodes | src/main.cpp:65-112 | help and version exit 0 with no launch; an unknown option or a missing command exits -1 with no launch; every launch attempt exits 0; main returns only 0 or -1 |
| Launcher.ArgvReleasedOnEveryPath | src/main.cpp:74-108 | with `use_wv`, every entry of the converted argv is freed exactly once, in order, on every return path; otherwise nothing is freed |
| Launcher.NoLaunchWithoutWideArgv | src/main.cpp:120-165 | without the converted wide argv nothing is launched, and a present command still exits 0 |
| Launcher.DecideCorrected | src/main.cpp:120-164 | with the narrow call as the fallback, a run without a launch always exits -1 and every other run exits 0 |
| Launcher.CorrectedAlwaysLaunches | src/main.cpp:143-163 | the corrected branch makes the narrow call whenever `use_wv` is false and the buffer can be allocated, and agrees with main whenever `use_wv` holds |

## Left out

- Option parsing: `getopt_long` is not modelled. Its outcome (help, version, an unknown option, or the index of the first operand) is an input. The help and version text and the error messages on stderr are not modelled.
- The conversions themselves: `WideCharToMultiByte` and `MultiByteToWideChar` are inputs. The model states what the wrappers do with their answers, not what UTF-8 or UTF-16 is.
- Encoding.WStringToUtf8, Encoding.Utf8ToWString: the wrappers query the size and then convert into the buffer. The model takes both calls to give the same text, so the failure of the second call alone is not modelled.
- `malloc` answers by the requested size alone: two requests of the same size get the same answer.
- `LocalFree`, `CloseHandle`, `GetLastError` and the final `free(temp)` have no effect on the outcome and are not modelled. `CreateProcessW`/`CreateProcessA` are reduced to the command line they are given and a success flag.
- `freeChar` (src/util.cpp:43-45) is the release function ArgvWToArgv hands to the builder. There it appears only as the flag `releaseGiven = true`, and its own `if (input)` test is not modelled. `freeArgv` passes no release function, so `ViaCallback` entries never arise in the program.
- Memory is a log of released entries, not a heap. Use after free, double release and the array's own allocation are visible only through that log.
- PointerLists.StringToChar: the buffer is modelled by its contents. `&stringToChar` is passed to the builder as a function value, and a Dafny function value cannot allocate.
- `sizeof(void*)` is taken as 8, a 64-bit build.
- Integer widths: `int` lengths and `size_t` products are unbounded, so overflow of `len + 1` or `sz * sizeof(void*)` is not modelled.
- The build without `GetCommandLineW`/`CommandLineToArgvW` (src/main.cpp:59-62) is the case where the wide vector is None.
- Four behaviours of the code are modelled as written:
  - A failed element conversion in `listToPointer` releases nothing (src/util.cpp:62; first finding).
  - Without the wide argument vector nothing is launched (src/main.cpp:120-164; second finding).
  - A failed CreateProcess is only logged, and main still returns 0 (src/main.cpp:139, 160, 165).
  - An allocation failure inside the conversion wrappers only makes them return false (src/util.cpp:100-104, 175-179).
- The vector from CommandLineToArgvW is taken to have no null entries (`Launcher.Wrap`), so main never takes ArgvWToArgv's null-entry return (src/util.cpp:144). That return is modelled in `Argv.ArgvWToArgv` itself.
- Argv.ArgvWToArgv, Launcher.JoinCommandLine and Launcher.Run use the as-written builder, quoting and launch branch, not the corrected ones, because they model what the program does.

## Findings

| source | as written | input that shows it | evidently intended | confidence | as-written member | corrected member |
|---|---|---|---|---|---|---|
| src/util.cpp:62 | `if (!free)` guards the cleanup loop, so the loop runs only when no release function was given, and then calls through the null parameter `free` | `listToPointer` on ["a", ""] with a converter that refuses "" and `freeChar` as the release function: "a" is converted, then the buffer is leaked; with no release function and k > 0 entries converted, a null function pointer is called | `if (free)`: on failure, release the k entries already converted, then the array | high, not executed | PointerLists.CleanupInvertedLeaks | PointerLists.CorrectedReleasesPartialWork |
| src/main.cpp:120-164 | the `else` branch with `CreateProcessA` belongs to the inner `if` inside `if (use_wv)`, so when the wide vector was not obtained nothing is started and main returns 0 | a build without `CommandLineToArgvW`, or a run where the wide vector is null or an argument fails to convert, with the arguments `notepad.exe`: no process is created and the exit code is 0 | make the narrow call whenever the wide call is not made | medium, not executed | Launcher.NoLaunchWithoutWideArgv | Launcher.CorrectedAlwaysLaunches |
| src/main.cpp:117-118 | an argument is quoted only when it contains a space, and the separator is added only once the line is non-empty, so an empty argument is written as nothing | the arguments `a`, the empty string and `b` give `a  b`, which the child reads as two arguments; a leading empty argument vanishes, and a trailing one leaves a trailing space | quote an empty argument as `""` so that every argument reaches the child: `a "" b` | medium, not executed | Launcher.EmptyArgumentsLost | Launcher.CorrectedQuotingKeepsArguments |
