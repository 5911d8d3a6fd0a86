# log-analyzer core, modelled in Dafny

log-analyzer reads a system log and parses each line into a record. It matches the records against a fixed catalog of fault signatures and turns the signatures that matched into ranked advisories. This project models the logic of that pipeline and proves properties of it:

- **Run context** (`log_analyzer.dfy`, module `LogAnalyzer`).
  - The `Context` class has the three path buffers, the verbosity, and the fixed-capacity arrays: 100 patterns and 50 recommendations.
  - `log_analyzer_init` is its constructor.
- **Command line** (`cli.dfy`, module `Cli`).
  - `cli_parse_arguments` is a loop over `argv` that writes the context.
  - It is proved equal to a recursive specification `Scan`.
  - Lemmas about `Scan` state what the scan does with help and version flags, options that take a value, verbosity flags, unknown options and paths. This includes the quirk that `argv[0]` is read as an input path.
- **Parser** (`parser.dfy`, module `Parser`). It models:
  - the severity keyword chain;
  - the source tag;
  - the process id, whose digit scan is a loop;
  - the message split at the first `": "`;
  - the record built by `log_parser_parse_line`;
  - `trim_whitespace`, over a `char` array with an explicit NUL terminator.
- **Pattern detector** (`detector.dfy`, module `Detector`).
  - It loads the 23-signature catalog one `add_pattern` at a time, counts matching entries in place, and ranks the patterns with the in-place exchange sort.
  - The sort is proved to be a stable descending ranking, and hence a permutation.
- **Recommendation generator** (`generator.dfy`, module `Generator`).
  - There are four category rules, each a flag-setting scan plus an emission step, and then the general rule.
  - After them comes the in-place bubble sort on priority.
  - The proved results say exactly when each advisory is raised, and prove that the CPU rule can never fire on the built-in catalog.
- **Shared pieces**:
  - `strings.dfy`: `strstr` and `strchr` as `IndexOf`, `strncpy` truncation, `isspace` and `isdigit`.
  - `bounded.dfy`: appending into a full fixed-size array.
  - `ranking.dfy`: the stable-ranking specification, its permutation and uniqueness lemmas, and the neighbour exchange both sorts use.
  - `wrappers.dfy`: `Option`.

A C `NULL` string or entry is `None`. A C string is modelled byte for byte, one `char` per byte, so every string length and limit below (255, 127, 31) counts bytes. Strings are NUL-free `seq<char>`, except in `trim_whitespace`, which works on the buffer itself. The regular-expression engine is the parameter `RegexEngine`: whether a pattern compiles, and whether a compiled pattern matches somewhere in a string. The timestamp of a parsed line is a parameter of `ParseLine`.

## Model

| member | source | states |
|---|---|---|
| LogAnalyzer.Context.Init | src/log_analyzer_init.c:5-33 | the context starts zero-filled with both counters and the verbosity at 0; each path or format is the argument cut to 255 (format: 127) bytes, or empty for NULL |
| Cli.Scan | src/log_analyzer_init.c:56-100 | the outcome of the scan from index i: success implies a non-empty input path; paths stay within their buffers; verbosity never decreases |
| Cli.ParseArguments | src/log_analyzer_init.c:56-100 | fewer than two arguments fail with the context untouched; otherwise the result and the new context fields are exactly those of `Scan` from index 0 |
| Cli.AbsorbAllMeaning | src/log_analyzer_init.c:83-91 | a run of paths and verbosity flags adds one to the verbosity per flag, leaves the last path as the input path, and leaves output and format alone |
| Cli.ScanSkipsSimple | src/log_analyzer_init.c:60-91 | the scan walks over paths and verbosity flags without stopping and resumes after them with their combined effect |
| Cli.ScanOfSimpleArguments | src/log_analyzer_init.c:60-98 | with only paths and `-v`, the input is the last path (argv[0] included), verbosity counts the flags, and the scan succeeds iff that path is non-empty |
| Cli.ProgramNameIsInput | src/log_analyzer_init.c:60-91 | when only verbosity flags follow it, argv[0] itself becomes the input path and the scan succeeds |
| Cli.HelpOrVersionStops | src/log_analyzer_init.c:61-66 | from any index the scan reaches, over paths and `-v` only, the first help or version flag makes the scan succeed with "--help" or "--version" as the input path, the flags counted and the output and format untouched; later arguments are not read |
| Cli.UnknownOptionFails | src/log_analyzer_init.c:86-88 | an unrecognised argument starting with `-` that the scan reaches as an option (not as the value of `-o`/`-f`) fails the scan |
| Cli.MissingValueFails | src/log_analyzer_init.c:67-82 | an `-o`/`-f` that the scan reaches as an option in the last position fails the scan |
| Cli.OptionTakesNextArgument | src/log_analyzer_init.c:67-82 | from any index the scan reaches, an `-o`/`-f` takes the next argument as its value whatever it looks like, and the scan resumes after it, so these lemmas chain |
| Cli.OptionValueIsNotAnOption | src/log_analyzer_init.c:67-82 | in `prog -f -o` the `-o` is the format value, so the scan succeeds with the program name as input |
| Cli.HelpAfterOptionValue | src/log_analyzer_init.c:61-82 | in `prog -o value --help` the help flag after the option's value still stops the scan with success |
| Parser.ExtractSeverity | src/parser.c:83-103 | the severity is always a syslog level from 0 to 7 |
| Parser.SeverityIsFirstMentioned | src/parser.c:83-103 | the keyword if-chain equals a first-match lookup in the ordered keyword table, with default 6 |
| Parser.FirstMentionedIsLowest | src/parser.c:84-102 | in a table sorted by level, the first keyword mentioned has the lowest level among all mentioned, or the default applies when none is |
| Parser.SeverityIsLowestMentionedLevel | src/parser.c:83-103 | the severity is the lowest level among the keywords the line contains (ERR and WARN give 3), and 6 when it contains none |
| Parser.ExtractSource | src/parser.c:105-135 | the source is "unknown", or a tag that `[`…`]` encloses at the start of the line, or a 1 to 31 byte colon-free prefix followed by `:` |
| Parser.SourceInBrackets | src/parser.c:110-119 | `[tag]rest` with no `]` in tag has source tag |
| Parser.SourceBeforeColon | src/parser.c:122-131 | `tag:rest`, with tag of 1 to 31 bytes and no colon, has source tag unless the line starts with a `[` that a `]` later closes |
| Parser.SourceUnknown | src/parser.c:110-134 | with no closed leading bracket and no colon at positions 1 to 31 before any other, the source is "unknown" |
| Parser.DigitRun | src/parser.c:158-159 | the run is a prefix of digits, and the character after it is not a digit |
| Parser.ScanDigits | src/parser.c:157-159 | the digit loop stops at the end of the maximal digit run after its start |
| Parser.ExtractProcessId | src/parser.c:137-171 | the method returns the specified process id: the bracket pair, else the digits after "PID ", else NULL |
| Parser.ProcessIdInBrackets | src/parser.c:142-153 | text between the first `[` and the next `]` is the process id |
| Parser.ProcessIdAfterKeyword | src/parser.c:155-170 | when no `]` follows the first `[` (or there is none), the process id is the digit run after the first "PID ", and NULL when that run is empty |
| Parser.NoProcessId | src/parser.c:137-171 | a line without a `]` after its first `[` and without "PID " has no process id |
| Parser.MessageAfterFirstSeparator | src/parser.c:190-195 | the message is everything after the first ": ", and the line is the text before it, ": ", and the message |
| Parser.MessageWithoutSeparator | src/parser.c:196-198 | a line without ": " is its own message |
| Parser.ParseLine | src/parser.c:173-204 | NULL exactly for a NULL context or line; otherwise raw text, message, source, severity and process id as specified, with thread id and extra fields NULL |
| Parser.TrimStartShape | src/parser.c:13 | dropping leading whitespace removes only spaces and stops at a non-space |
| Parser.TrimEndShape | src/parser.c:16-17 | dropping trailing whitespace removes only spaces and stops at a non-space |
| Parser.TrimShape | src/parser.c:10-21 | the trimmed text is a contiguous substring; everything cut is whitespace; it neither starts nor ends with whitespace |
| Parser.TrimAllSpace | src/parser.c:13-14 | an all-whitespace string trims to the empty string |
| Parser.TrimIdempotent | src/parser.c:10-21 | trimming twice is trimming once |
| Parser.TrimWhitespace | src/parser.c:10-21 | the returned index starts a NUL-terminated string equal to the trimmed input; exactly one byte, the one just after the trimmed text, may be written (a NUL), and every other byte of the buffer is unchanged |
| Parser.CutTrailingSpace | src/parser.c:16-19 | the NUL written after the last non-space leaves exactly the input without its trailing whitespace; exactly one byte is written and every other byte is unchanged |
| Detector.AddPattern | src/detector.c:19-35 | appends the signature with frequency 0 unless 100 patterns are loaded; other slots unchanged |
| Detector.AddCpuPatterns | src/detector.c:38-44 | appends the three CPU signatures (catalog entries 0-2) in order, one `add_pattern` at a time, up to the capacity |
| Detector.AddMemoryPatterns | src/detector.c:46-53 | appends the four memory signatures (catalog entries 3-6) in order, one `add_pattern` at a time, up to the capacity |
| Detector.AddDiskPatterns | src/detector.c:55-60 | appends the four disk signatures (catalog entries 7-10) in order, one `add_pattern` at a time, up to the capacity |
| Detector.AddNetworkPatterns | src/detector.c:62-67 | appends the three network signatures (catalog entries 11-13) in order, one `add_pattern` at a time, up to the capacity |
| Detector.AddProcessPatterns | src/detector.c:69-75 | appends the four process signatures (catalog entries 14-17) in order, one `add_pattern` at a time, up to the capacity |
| Detector.AddDatabasePatterns | src/detector.c:77-82 | appends the three database signatures (catalog entries 18-20) in order, one `add_pattern` at a time, up to the capacity |
| Detector.AddResourcePatterns | src/detector.c:84-88 | appends the two file-descriptor signatures (catalog entries 21-22) in order, one `add_pattern` at a time, up to the capacity |
| Detector.DetectCommonPatterns | src/detector.c:37-89 | the loaded patterns become the old ones plus the catalog, in order, up to the capacity of 100 |
| Detector.CountMatches | src/detector.c:99-107 | each loaded pattern's frequency grows by the number of entries whose message it matches; nothing else changes |
| Detector.ExchangePass | src/detector.c:111-117 | one pass settles one more slot at the end and keeps the order within each frequency |
| Detector.RankPatterns | src/detector.c:110-118 | the patterns end in descending frequency with equal frequencies in their former order |
| Detector.Analyze | src/detector.c:91-120 | fails, changing nothing, iff the entry list is NULL or empty; otherwise the patterns are the stable ranking of old patterns plus catalog with hits added |
| Detector.GetPatterns | src/detector.c:122-128 | NULL without a count pointer; otherwise the context's array and its count |
| Detector.HitsAtMostEntries | src/detector.c:99-107 | a pattern's hits are at most the number of entries, with equality iff every entry matches |
| Detector.NoHitsIffNoMatch | src/detector.c:99-107 | zero hits iff no entry matches |
| Detector.HitsConcat | src/detector.c:99-107 | hits over two batches of entries add up |
| Detector.StringMatchesPattern | src/detector.c:5-17 | a pattern that fails to compile matches nothing; a compiled pattern matches exactly when the search finds it somewhere in the string |
| Detector.UncompilableNeverHits | src/detector.c:9-11 | a pattern that does not compile has zero hits |
| Detector.UnparsedEntriesNeverHit | src/detector.c:100 | missing entries and entries without a message are never counted |
| Detector.CatalogShape | src/detector.c:37-89 | the catalog holds 23 signatures with frequency 0 and severity 3 to 5 |
| Detector.LoadedBounds | src/detector.c:23 | loading adds the whole catalog when it fits, nothing into a full array, and fills up to 100 otherwise |
| Detector.LoadedTwice | src/detector.c:96-98 | a fresh context holds the catalog once after one load and twice (46 patterns) after a second |
| Detector.TallyMember | src/detector.c:102-106 | every counted pattern is a loaded pattern with its hits added |
| Detector.RankedTallyShape | src/detector.c:99-118 | a ranking of patterns counted from zero has the same length and each frequency between 0 and the number of entries |
| Detector.FreshAnalysisResult | src/detector.c:91-120 | a stable ranking of the counted catalog, which is what an analysis of a fresh context leaves (see LoadedTwice): 23 patterns, non-increasing frequencies, each a catalog signature with its hit count |
| Ranking.RankingIsPermutation | src/detector.c:110-118 | a stable ranking is a permutation of its input |
| Ranking.RankingIsUnique | src/detector.c:110-118 | two stable rankings of one input are equal |
| Ranking.SwapKeepsKeyOrder | src/generator.c:271-276 | swapping neighbours with different keys keeps the order of the elements of every key |
| Ranking.Exchange | src/generator.c:271-276 | the neighbours swap places, all other slots stay, and order within each key is kept |
| Generator.CpuAdvice | src/generator.c:24-66 | at most 3 advisories, all in category cpu |
| Generator.MemoryAdvice | src/generator.c:68-127 | at most 4 advisories, all in category memory |
| Generator.DiskAdvice | src/generator.c:129-187 | at most 4 advisories, all in category disk |
| Generator.NetworkAdvice | src/generator.c:189-243 | at most 3 advisories, all in category network |
| Generator.GeneralAdvice | src/generator.c:253-267 | at most 2 advisories, all in category general |
| Generator.Advice | src/generator.c:245-267 | one run raises at most 16 advisories, priority 2 to 5, confidence 0.6 to 0.9 |
| Generator.AddRecommendation | src/generator.c:3-22 | appends the advisory unless 50 are stored; the patterns are unchanged |
| Generator.ScanCpuPatterns | src/generator.c:31-42 | each flag is set iff some active cpu pattern raises it |
| Generator.GenerateCpuRecommendations | src/generator.c:24-66 | appends exactly the cpu advisories of the patterns |
| Generator.ScanMemoryPatterns | src/generator.c:76-92 | each flag is set iff some active memory pattern raises it |
| Generator.GenerateMemoryRecommendations | src/generator.c:68-127 | appends exactly the memory advisories of the patterns |
| Generator.ScanDiskPatterns | src/generator.c:136-152 | each flag is set iff some active disk pattern raises it |
| Generator.GenerateDiskRecommendations | src/generator.c:129-187 | appends exactly the disk advisories of the patterns |
| Generator.ScanNetworkPatterns | src/generator.c:197-213 | each flag is set iff some active network pattern raises it |
| Generator.GenerateNetworkRecommendations | src/generator.c:189-243 | appends exactly the network advisories of the patterns |
| Generator.GenerateGeneralRecommendations | src/generator.c:253-267 | appends the general pair iff the first pattern has a hit |
| Generator.BubblePass | src/generator.c:270-277 | one pass settles one more slot at the end and keeps the order within each priority |
| Generator.RankRecommendations | src/generator.c:269-278 | the advisories end in descending priority with ties in emission order |
| Generator.AdviceInRuleOrder | src/generator.c:248-267 | running the five rules one after another appends their advice in rule order, as one batch capped at 50 |
| Generator.Analyze | src/generator.c:245-281 | the list becomes the stable ranking by priority of the old advisories plus cpu, memory, disk, network and general advice, capped at 50 |
| Generator.GetRecommendations | src/generator.c:283-289 | NULL without a count pointer; otherwise the context's array and its count |
| Generator.CpuRuleFires | src/generator.c:31-44 | the cpu trio is raised iff an active cpu pattern's description contains "High CPU Usage" or "High Load Average" |
| Generator.MemoryRuleContents | src/generator.c:76-126 | memory advice exists iff a memory pattern is active; it starts with "Analyze memory usage", ends with "Consider memory limits", with OOM and swap advice each iff their description matched |
| Generator.DiskRuleContents | src/generator.c:136-186 | the space pair iff a "Disk full"/"Filesystem near capacity" hit; the I/O pair iff an "I/O error"/"Device timeout" hit in another pattern; 0, 2 or 4 advisories |
| Generator.NetworkRuleContents | src/generator.c:197-242 | connectivity iff any network hit, first; timeouts iff "Connection timeout"; packet loss iff "packet loss" without it |
| Generator.GeneralRuleOnRanked | src/generator.c:253 | on patterns in descending frequency, the general pair is raised iff some pattern has a hit |
| Generator.NoHitsNoAdvice | src/generator.c:245-267 | with no hits at all, no advisory is raised |
| Generator.CpuUsageMissesCpuWords | src/generator.c:36 | "High CPU usage detected" does not contain "High CPU Usage", the words the CPU rule looks for |
| Generator.CpuUsageMissesLoadWords | src/generator.c:38 | "High CPU usage detected" does not contain "High Load Average" |
| Generator.LoadAverageMissesCpuWords | src/generator.c:36 | "High load average" does not contain "High CPU Usage" |
| Generator.LoadAverageMissesLoadWords | src/generator.c:38 | "High load average" does not contain "High Load Average" |
| Generator.ExcessiveCpuMissesCpuWords | src/generator.c:36 | "Process using excessive CPU" does not contain "High CPU Usage" |
| Generator.ExcessiveCpuMissesLoadWords | src/generator.c:38 | "Process using excessive CPU" does not contain "High Load Average" |
| Generator.CatalogCpuSignatures | src/detector.c:38-44 | the catalog's cpu signatures are exactly its first three |
| Generator.CatalogRaisesNoCpuAdvice | src/generator.c:31-44 | patterns taken from the catalog raise no cpu advisory, whatever their frequencies |
| Generator.FreshPatternsFromCatalog | src/detector.c:98-118 | after a fresh detection every pattern is a catalog signature with some frequency |
| Generator.AdviceFromItsRule | src/generator.c:245-267 | a cpu-category advisory comes from the cpu rule, a general one from the general rule |
| Generator.RankedAdviceWithoutCpu | src/generator.c:245-281 | without cpu advice the ranked list is a permutation of the raised advice, with at most 13 entries and no cpu entry; it has a general entry iff the general rule fired |
| Generator.FreshAnalysisAdvice | src/generator.c:245-281 | after a fresh detection and generation: a permutation of the raised advice, no cpu advisory, at most 13 so never truncated, general pair iff some signature matched |

## Left out

- The regular-expression engine (`regcomp`/`regexec`, POSIX extended syntax) is a parameter of the detector. No concrete matcher is modelled.
- `extract_timestamp` (src/parser.c:23-81) depends on the clock, `sscanf` and `mktime`. Its result is a parameter of `ParseLine`.
- Not part of this model:
  - `log_analyzer_cleanup`, `log_parser_free_entry` and every `malloc`, `strdup` and `free` (a failed allocation is not modelled);
  - the collector (file reading);
  - the report writer;
  - `main`, and the help and version printers;
  - the diagnostics written to stderr.
- Generator.Analyze: the NULL context, for which the source returns false, is not modelled. The context is a non-null class reference. The method returns no flag, because for a non-null context the source always returns true.
- Detector.Analyze: the NULL context, for which the source returns false (src/detector.c:96), is not modelled. The context is a non-null class reference.
- Detector.GetPatterns: the NULL context, for which the source returns NULL (src/detector.c:124), is not modelled. Only a missing count pointer gives NULL here.
- Generator.GetRecommendations: the NULL context, for which the source returns NULL (src/generator.c:285), is not modelled. Only a missing count pointer gives NULL here.
- Generator.AddRecommendation: a NULL context or title, which makes it a no-op, is not modelled. Every call site passes a literal title.
- Detector.AddPattern: a NULL context or pattern string is not modelled, for the same reason.
- Detector.Analyze: the entry list and its length are one `Option<seq<…>>`, so a negative `entry_count` reads as an empty list. The contract does not restate that array slots past the pattern count keep their old contents. `RankPatterns` and `CountMatches` state that fact.
- Cli.ParseArguments: the context passed in is non-null. The source dereferences it without a check.
- Confidence values are integer hundredths instead of `float`. The source never does arithmetic on them.
- Integer overflow of `frequency`, `verbose` and the counters is not modelled. Integers are unbounded.
- `detect_common_patterns` is split into one method per block of the catalog. The order of the `add_pattern` calls is unchanged.
- `trim_whitespace` is a `static` function that nothing in the source calls. It is modelled anyway.
- Strings are NUL-free sequences. A C string that contains an embedded NUL has no counterpart.
- Parser.ExtractSource and ProcessIdOf give the characters that `strncpy` copies. The NUL written after them is implicit.
