# WinPass-Native password generator, modelled in Dafny

WinPass-Native is a Windows console password generator written in C against
the bare Win32 API. It has three modes:

- a legacy batch mode (`WinPass.exe 20`) that maps random bytes onto one
  character pool;
- an advanced command-line mode (`--letters=10 --no-symbols`) that builds
  letters, digits and symbols segments and then shuffles them;
- an interactive menu that edits the same six settings.

This project models the generation engine and everything that feeds it:

- `common.dfy` (module `Common`): the constants of `include/common.h`, C
  strings as NUL-free character sequences, and the six-field
  `PasswordConfig`, with the total length of its enabled categories.
- `charset.dfy` (`Charset`): the five pools of `src/charset.c`, exactly as
  their literals are written.
- `utils.dfy` (`Utils`): the string helpers of `src/utils.c`. Each is a
  `while` loop over an index that reads the terminator past the end. Each loop
  is proved equal to a functional definition: the capped decimal parse, string
  equality, prefix and the value after `=`.
- `rejection.dfy` (`RejectionSampling`): the shuffle's rejection threshold. It
  proves the counting fact that stands in for the source's claim of
  uniformity: every swap target has the same number of accepted 32-bit draws.
- `shuffle.dfy` (`Shuffle`): `ShufflePassword`, the in-place descending
  Fisher-Yates shuffle on an `array<char>`. Its `do … while` retry loop, its
  swap and its early return on a failed draw are proved against the
  functional `Shuffled`.
- `password_gen.dfy` (`PasswordGen`): `GenerateCore` and `GenerateAdvanced`.
  Validation, the byte-to-character mapping and the segment assembly through
  `pos` and `offset` are proved. So is the shuffle's result: for each category
  it holds exactly the enabled count of characters.
- `cli_parser.dfy` (`CliParser`): `ParseArguments`, proved equal to a left fold
  of a per-argument classification.
- `interactive.dfy` (`Interactive`): the `while (running)` menu loop, proved
  equal to a round-by-round trace.
- `entry_point.dfy` (`EntryPoint`): the mode decision of `main`.

The random source is a parameter. The bulk `CryptGenRandom` call sees an
optional byte sequence: `None`, or too few bytes, is a failed call. The shuffle
sees a sequence of 32-bit draws, any of which may fail. Running out of draws
counts as a failed draw. The two `HeapAlloc` calls and `CryptAcquireContext`
are success flags. The console of the interactive menu is a script of read
results: a line without its CR LF, or a failed read. The argument vector of
`main` is `None` when `CommandLineToArgvW` fails.

Where the code and its comments disagree, the model follows the code:

- `CHARSET_SYMBOLS` holds 21 characters and `CHARSET_FULL` 83. The comments
  at `src/charset.c:11,23` and `include/common.h:29,53` say 22 and 84.
- The worked example in `src/password_gen.c:73-77` says `4294967295 % 60` is
  16. By the formula at line 79 it is 15, so the threshold for range 60 is
  4294967280 (`RejectionSampling.ThresholdForRange60`).
- `include/cli_parser.h:37` declares `BOOL ParseArguments`, and `main.c:82`
  tests its result. The definition at `src/cli_parser.c:17` returns `void`
  and has no failure path. Because `src/cli_parser.c:8` includes that header,
  the definition conflicts with the prototype in the same translation unit,
  and the program as written does not compile. The model follows the
  definition: parsing never fails, and `main`'s exit code is always 0.
- After key 5, 6 or 7, a failed second `ConsoleRead` leaves the menu line in
  `inputBuf`, and that line is parsed as the length
  (`Interactive.FailedPromptReparsesMenuLine`). After a failed read
  following key 5, the letter length becomes 5
  (`Interactive.FailedPromptReusesMenuLine`). Pressing Enter alone at the
  prompt empties the buffer, which parses as 0
  (`Interactive.EnterAtPromptClearsLength`).
- A shuffle whose draw fails returns early. `GenerateAdvanced` still prints
  and copies the partly shuffled buffer, so the model reports it as
  `Generated`. It is
  still a permutation of the assembled buffer.

## Model

| member | source | states |
|---|---|---|
| Common.TotalLength | src/password_gen.c:196-200 | the total is at most the sum of the three lengths; it equals that sum when all categories are on and is 0 when all are off; disabled lengths are ignored |
| Common.DisablingLowersTotal | src/interactive.c:37-40 | turning an enabled category off lowers the total by exactly its length |
| Charset.LettersAreTwoRuns | src/charset.c:18 | CHARSET_LETTERS is the 26 code points from `a` followed by the 26 from `A`, 52 characters |
| Charset.NumbersAreDigitRun | src/charset.c:21 | CHARSET_NUMBERS is the 10 code points from `0` |
| Charset.SymbolsShape | src/charset.c:23-24 | CHARSET_SYMBOLS has 21 characters, all distinct, none a letter or a digit |
| Charset.CompositesAreConcatenations | src/charset.c:11-15 | CHARSET_ALPHANUM is LETTERS + NUMBERS (62 characters); CHARSET_FULL is LETTERS + NUMBERS + SYMBOLS (83 characters) |
| Charset.LettersShape | src/charset.c:17-18 | every letter pool character is a letter and none repeats |
| Charset.NumbersShape | src/charset.c:20-21 | every digit pool character is a digit and none repeats |
| Charset.CategoriesDisjoint | src/charset.c:18-24 | the letters, digits and symbols pools are pairwise disjoint |
| Utils.LeadingDigits | src/utils.c:18 | the leading run is a prefix of the string, all digits, and is followed by a non-digit or the end |
| Utils.ParseDecimalRange | src/utils.c:15-30 | the parse lies in [0, 100000]; it is the exact value of the leading digits when that is at most 100000, and 0 when the string does not start with a digit |
| Utils.ParseStopsAtNonDigit | src/utils.c:18 | text after the first non-digit never changes the parse |
| Utils.CappedWhenExceeded | src/utils.c:20-26 | once a digit prefix is worth more than 100000, the whole parse is 100000 |
| Utils.SimpleStrToInt | src/utils.c:15-30 | the loop with its two early cap returns computes ParseDecimal and stays in [0, 100000] |
| Utils.SimpleWStrToInt | src/utils.c:37-52 | the wide-character loop computes the same ParseDecimal, in [0, 100000] |
| Utils.WStrEquals | src/utils.c:60-68 | true exactly when the two strings are equal (same length, same characters) |
| Utils.WStrStartsWith | src/utils.c:76-84 | true exactly when the prefix is a prefix of the string; a shorter string fails on its terminator |
| Utils.ValueAfterEquals | src/utils.c:91-101 | the value is -1 exactly when the argument has no `=`, and otherwise lies in [0, 100000] |
| Utils.ValueAfterFirstEquals | src/utils.c:93-98 | with the first `=` at position k, the value is the capped parse of the text after it |
| Utils.ExtractValueFromArg | src/utils.c:91-101 | the scan to the first `=` or the terminator computes ValueAfterEquals |
| RejectionSampling.Threshold | src/password_gen.c:79 | the threshold lies in [range, MAXDWORD] and fewer than range values lie above it |
| RejectionSampling.ThresholdIsMultiple | src/password_gen.c:79 | the threshold is a multiple of the range |
| RejectionSampling.HitsStep | src/password_gen.c:92-98 | one more block of m values adds exactly one value with residue j |
| RejectionSampling.ResidueCount | src/password_gen.c:92-98 | below k·m every residue modulo m is hit by exactly k values |
| RejectionSampling.EqualPreimages | src/password_gen.c:46-48 | every target j in [0, range) is selected by exactly threshold / range accepted draws |
| RejectionSampling.ThresholdForRange60 | src/password_gen.c:73-79 | for range 60 the remainder is 15, the threshold 4294967280, and each target has 71582788 preimages |
| Shuffle.AcceptDraw | src/password_gen.c:87-92 | an accepted value is below the threshold and consumes at least one draw |
| Shuffle.SwapTarget | src/password_gen.c:98 | the target j = value % (i + 1) satisfies 0 <= j <= i |
| Shuffle.Swap | src/password_gen.c:100-103 | positions i and j are exchanged, every other position is unchanged, and the multiset is preserved |
| Shuffle.ShuffleFrom | src/password_gen.c:61-104 | the result is a permutation of the input of the same length; positions above i are never written; from i <= 0 nothing changes |
| Shuffle.Shuffled | src/password_gen.c:55-105 | the shuffle is a permutation, also after an early return, and leaves a buffer of length 0 or 1 unchanged |
| Shuffle.StepFixesPosition | src/password_gen.c:98-103 | after step i, position i holds the character that was at the drawn target, for the rest of the shuffle |
| Shuffle.FailedDrawStops | src/password_gen.c:87-92 | a failed draw, on the first try or after rejected draws, ends the shuffle with the buffer as it is |
| Shuffle.DrawBelow | src/password_gen.c:87-92 | the do-while retry loop returns the first draw below the threshold, or nothing on a failed draw |
| Shuffle.SwapCells | src/password_gen.c:101-103 | the swap through temp exchanges the two cells |
| Shuffle.ShufflePassword | src/password_gen.c:55-105 | the in-place loop leaves the array equal to Shuffled of its old contents, a permutation of them |
| Shuffle.Choices | src/password_gen.c:61-98 | a complete run from step i draws i targets, the k-th one at most i - k |
| Shuffle.SwapKeepsDistinct | src/password_gen.c:100-103 | swapping keeps a string free of repeated characters |
| Shuffle.ShuffleInjective | src/password_gen.c:46-48 | two complete shuffles of distinct characters with different targets give different permutations |
| PasswordGen.MapBytes | src/password_gen.c:149-151 | one character per byte |
| PasswordGen.MapBytesInPool | src/password_gen.c:149-151 | every mapped character belongs to the pool, whatever the byte |
| PasswordGen.CorePool | src/password_gen.c:118-119 | the pool has 83 characters with symbols and 62 without |
| PasswordGen.GenerateCore | src/password_gen.c:112-167 | the method returns CoreOutcome: length check, allocation, context, fill, mapping, no shuffle |
| PasswordGen.CoreContract | src/password_gen.c:123-152 | TooShort exactly when the length is below 4; a password has exactly length characters, character i being pool[byte i % len] |
| PasswordGen.CoreWithoutSymbols | src/password_gen.c:118 | without symbols every character is a letter or a digit |
| PasswordGen.PoolAt | src/password_gen.c:234-260 | the pool of every position is non-empty |
| PasswordGen.SegmentAt | src/password_gen.c:234-259 | position k of three segments laid end to end is byte k mapped through the pool of the segment k falls in |
| PasswordGen.SegmentCounts | src/password_gen.c:234-259 | with pairwise disjoint pools, the three segments hold exactly n1, n2 and the remaining count of characters from the first, second and third pool |
| PasswordGen.Assemble | src/password_gen.c:227-262 | the assembled buffer has exactly totalLength characters |
| PasswordGen.AssembleUsesEachByteOnce | src/password_gen.c:234-260 | position k is byte k mapped through the pool of k's segment, so each byte is used once |
| PasswordGen.WriteSegment | src/password_gen.c:234-259 | each category block advances pos by its enabled count; the characters before the new pos are the ones already written followed by the bytes from offset mapped through the pool; nothing after it changes |
| PasswordGen.PrefixSegments | src/password_gen.c:242-259 | three writes, each appending at the position the previous one reached and reading from the counts before it, fill the buffer with the three segments laid end to end |
| PasswordGen.AssemblePassword | src/password_gen.c:227-262 | the three loops through pos and offset write a fresh buffer equal to Assemble |
| PasswordGen.GenerateAdvanced | src/password_gen.c:178-292 | the method returns AdvancedOutcome: validation, total, allocation, context, fill, assembly and shuffle |
| PasswordGen.CountInConcat | src/password_gen.c:227-262 | counting pool members is additive over concatenation |
| PasswordGen.CountInPermutation | src/password_gen.c:268 | a permutation keeps the count of characters from every pool |
| PasswordGen.CountInMapped | src/password_gen.c:237-258 | a segment mapped through one pool counts fully in it and not at all in a disjoint pool |
| PasswordGen.AssembledCounts | src/password_gen.c:227-262 | before the shuffle the buffer holds exactly the enabled count of letters, digits and symbols |
| PasswordGen.AdvancedPasswordContents | src/password_gen.c:227-277 | the password buffer (as copied to the clipboard) has totalLength characters and exactly the enabled counts of letters, digits and symbols |
| PasswordGen.AdvancedValidation | src/password_gen.c:187-210 | "no category" is reported exactly when all three are off and before any draw; "too short" exactly when some are on and the enabled total is below 4 |
| CliParser.WithLength | src/cli_parser.c:44-52 | setting one length leaves the other lengths and all flags alone |
| CliParser.WithoutCategory | src/cli_parser.c:31-39 | clearing one flag leaves the other flags and all lengths alone |
| CliParser.ApplyArgument | src/cli_parser.c:28-54 | one argument only clears flags; it changes no length but its own; an unrecognised argument changes nothing |
| CliParser.IsLengthArgument | src/cli_parser.c:41-50 | the short-circuit of the long and short prefix tests |
| CliParser.ParseArguments | src/cli_parser.c:17-56 | the loop from index 1 computes Parsed, the fold from the defaults |
| CliParser.ParsedLengthsBounded | src/cli_parser.c:22-52 | after parsing every length lies in [0, 1024) |
| CliParser.DisableOnlyByFlag | src/cli_parser.c:31-39 | an argument disables a category exactly when it equals that category's flag |
| CliParser.FlagIffNotDisabled | src/cli_parser.c:19-39 | a category is enabled exactly when no argument after the first is its disable flag, so argument order does not matter for flags |
| CliParser.LengthAfterArgument | src/cli_parser.c:41-53 | a length changes only through an accepted length argument for it |
| CliParser.DefaultLengthKept | src/cli_parser.c:22-24 | with no accepted length argument for a category, its default length stays |
| CliParser.LastLengthWins | src/cli_parser.c:27-52 | the last accepted length argument for a category gives its length |
| CliParser.ProgramNameIgnored | src/cli_parser.c:27 | the first argument has no effect |
| CliParser.UnrecognisedSkipped | src/cli_parser.c:54 | an unrecognised argument leaves the configuration unchanged |
| Interactive.ConsoleRead | src/console_io.c:28-42 | a line replaces the buffer and a non-empty one returns its length; an empty line leaves an empty buffer and returns 0; a failed read returns 0 and leaves the buffer |
| Interactive.Toggle | src/interactive.c:78-86 | exactly one flag flips; lengths are unchanged |
| Interactive.Round | src/interactive.c:67-124 | a round consumes input, and a Generate request leaves the settings unchanged |
| Interactive.RunFrom | src/interactive.c:31-126 | a stopped loop, or one without input, produces nothing more |
| Interactive.RunStep | src/interactive.c:31-126 | a running loop shows one total, takes one round and continues from its result |
| Interactive.ShownTotal | src/interactive.c:37-40 | the displayed total is the sum of the enabled lengths |
| Interactive.PromptLength | src/interactive.c:89-93 | the second read and its SimpleStrToInt parse of whatever the buffer then holds |
| Interactive.MenuRound | src/interactive.c:67-124 | the switch on the first character computes Round |
| Interactive.RunInteractiveMode | src/interactive.c:17-126 | the loop's shown totals, Generate requests and final settings are those of RunFrom from the defaults |
| Interactive.ToggleTwiceRestores | src/interactive.c:78-86 | the same toggle twice restores the settings |
| Interactive.RoundKeepsLengthsBounded | src/interactive.c:95-111 | a round keeps every length below 1024 |
| Interactive.RequestsBounded | src/interactive.c:73-113 | every request and the final settings have all lengths below 1024 and a total that fits in an int |
| Interactive.SessionRequestsFit | src/interactive.c:21-74 | from the defaults, every Generate request meets GenerateAdvanced's int range |
| Interactive.StopsOnlyOnExitKey | src/interactive.c:116-119 | a round stops the loop exactly when the line starts with `8` or `q` |
| Interactive.OtherInputIgnored | src/interactive.c:67-123 | a failed read, an empty line or a first character other than 1-8 and q leaves the settings and the running flag unchanged and requests nothing |
| Interactive.LengthPromptSets | src/interactive.c:89-113 | keys 5-7 set their length to the typed value (an empty line included) when it is below 1024, keep it otherwise, and touch nothing else |
| Interactive.FailedPromptReparsesMenuLine | src/interactive.c:89-113 | after key 5, 6 or 7 and a failed read, the menu line itself is parsed: its value below 1024 becomes the length, and nothing else changes |
| Interactive.FailedPromptReusesMenuLine | src/interactive.c:92-95 | after key 5 and a failed read, the letter length becomes 5 |
| Interactive.EnterAtPromptClearsLength | src/interactive.c:89-113 | Enter alone at the length prompt sets that length to 0 |
| EntryPoint.ModeOf | main.c:79-89 | the advanced mode's settings always fit GenerateAdvanced's int range |
| EntryPoint.ScanForHelp | main.c:43-55 | the help loop finds a help flag exactly when one appears after the program name |
| EntryPoint.ChooseMode | main.c:43-95 | the scan, batch detection, fallback and parse compute ModeOf |
| EntryPoint.WinPass | main.c:35-100 | main carries out the chosen mode and returns 0 |
| EntryPoint.InteractiveWithoutArguments | main.c:92-95 | the menu runs exactly when there is no argument vector or only the program name |
| EntryPoint.HelpWins | main.c:43-54 | a help flag anywhere after the program name selects help |
| EntryPoint.BatchModeChosen | main.c:63-74 | batch mode exactly for one argument that is no help flag and does not start with `-`; its length is in [1, 100000] |
| EntryPoint.BatchLengthFallback | main.c:73-74 | the batch length is 16 exactly when the parse is 0 or 16, and the parse otherwise |
| EntryPoint.AdvancedUsesParsedSettings | main.c:79-89 | the advanced mode uses the parsed settings, each length below 1024 |
| EntryPoint.EmptyArgumentIsBatch | main.c:64-74 | an empty single argument selects batch mode with length 16 |
| EntryPoint.NegativeLengthGoesToParser | main.c:66-82 | `-5` goes to the parser, which ignores it, giving the default settings |
| EntryPoint.ShortBatchRejected | main.c:73-77 | batch length 3 is passed on and then rejected by GenerateCore as too short |

## Left out

- `CopyToClipboard` (src/password_gen.c:17-39) and all console output (`ConsoleWrite`, `ClearScreen`, `wsprintfA` formatting, `ShowHelp`): Win32 I/O with no effect on the settings or the password. The model's password is the buffer that is copied to the clipboard. The console line built by `wsprintfA` (src/password_gen.c:154,270-275) holds at most 1024 bytes, so a longer password is printed truncated; that truncation is not modelled.
- The "Press Enter" pause read of `GenerateAdvanced` (src/password_gen.c:190-192,206-208,279-281), which follows the no-category error, the too-short error and a generated password but not the memory, context or random errors. The menu's console script holds only the menu's own reads (the choice and the length prompt). A line the program would spend on that pause is therefore read by the model as the next menu choice: after `1`, the lines `2` then `3` toggle letters and digits in the model, while the program swallows `2`.
- CryptoAPI: acquiring and releasing the context are a success flag; `CryptGenRandom` is an oracle (bytes for the bulk fill, 32-bit draws for the shuffle). The two streams are separate parameters, while the program draws both from one provider.
- `HeapAlloc`/`HeapFree`: both allocations are one success flag; freeing has no visible effect.
- Probabilities: uniformity of the shuffle is stated as the counting lemma `RejectionSampling.EqualPreimages` and the injectivity lemma `Shuffle.ShuffleInjective`, not as a distribution.
- `IsWStrNumeric` is declared at include/utils.h:61 but defined in no source file, and nothing calls it.
- `CommandLineToArgvW` and `LocalFree`: the argument vector is a parameter.
- The NUL terminator: strings are sequences without it; `CharAt` yields it past the end, which is where every C loop reads it.
- Shuffle.ShufflePassword: requires a buffer of at most INT_MAX characters, because the C loop index and length are ints.
- PasswordGen.GenerateAdvanced: requires each length and the enabled total to be at most INT_MAX, because the counts and `totalLength` are ints. Every caller meets this, as `EntryPoint.ModeOf` and `Interactive.SessionRequestsFit` prove.
- Common.PasswordConfig: lengths are `nat`, so a negative count (which would make the assembly loops misbehave) cannot be represented. No caller can produce one: the parser and the menu accept only [0, 1024).
- Interactive.RunInteractiveMode: the six local settings are held in one `PasswordConfig` value. The loop also stops when the console script runs out, where the C loop would keep waiting for input. A Generate request is recorded with its settings rather than carried out; `PasswordGen.AdvancedOutcome` describes its result.
- Interactive.ConsoleRead: a line is given with its CR LF already removed. A line longer than the 31 bytes `ReadConsoleA` accepts, whose rest stays in the console for the next read, is not modelled.
- CliParser.ParseArguments: never fails, following its `void` definition rather than the `BOOL` of include/cli_parser.h:37. The failure branch of main.c:82-85 is therefore not modelled.
