# seraph / verdict change assessment, modelled in Dafny

The repository holds two parallel Python packages, `seraph` and `verdict`.
Both assess a code change in a git repository. The pipeline has seven steps:

1. Parse the diff.
2. Run the test suite several times to find flaky tests.
3. Mutation-test the changed Python files.
4. Run ruff and mypy.
5. Ask Sentinel's knowledge store for pitfalls, hot files and co-change partners.
6. Combine five dimension scores into a weighted, graded report.
7. Persist the report in SQLite.

`seraph` adds a TOML/environment configuration, catches every step's
exception on its own, and adds a security step (bandit, semgrep,
detect-secrets). `verdict` uses fixed constants and adds the SQLite store and
text formatters for language-model clients.

This project models that core, one Dafny module per component:

| file | module | component |
|---|---|---|
| enums.dfy | Enums | grades and thresholds, severities, mutant statuses |
| config.dfy | Config | `seraph`'s scoring section and its loader |
| static_analysis.dfy | StaticAnalysis | ruff and mypy output, tool detection, the static score |
| differ.dfy | Differ | the unified-diff parser and the revision range |
| mutator.dfy | Mutator | mutmut's statuses, its results listing and the per-file aggregation |
| baseline.dfy | Baseline | flaky-test detection and the pass rate |
| bridge.dfy | Bridge | the class `SentinelBridge` |
| security.dfy | Security | CWE tiers, the three scanners, the false-positive filter |
| reporter.dfy | Reporter | the five scores, the weighted overall score, gaps and details |
| store.dfy | Store | the class `VerdictStore` over in-memory tables |
| seraph_engine.dfy | SeraphPipeline | the class `SeraphEngine` |
| verdict_engine.dfy | VerdictPipeline | the class `VerdictEngine` |
| formatters.dfy | Formatters | the output formatters and their 16,000-character budget |

Some modules build on shared ones that model Python built-ins:

- `models.dfy` holds the dataclasses.
- `text.dfy` holds the `str` methods the code uses.
- `numbers.dfy` holds `round`, modelled as round half-up on reals.
- `ordering.dfy` holds stable `sorted` and SQL `ORDER BY ... DESC`.
- `outcomes.dfy` holds `Optional` values and steps that may raise.

The shared modules carry lemmas of their own, but they state nothing about
the repository, so they have no rows below.

Every process the pipeline starts is an input to the model:

- git, pytest, mutmut, ruff, mypy, bandit, semgrep and detect-secrets become
  an outcome of output, timeout or tool-not-found;
- each engine step becomes a value or "raised".

Loops in the source are `while` loops here, each proved equal to a
specification function. That function's properties are the lemmas. Objects
whose fields change are classes:

- `SentinelBridge`;
- `VerdictStore`, whose tables are sequences the methods replace;
- both engines, whose store writes are recorded in a field or made on a
  store object.

## Model

| member | source | states |
|---|---|---|
| Enums.FromScore | src/seraph/models/enums.py:18-30 | the grade is A exactly when the score reaches the first threshold and F exactly when it is below all four; no thresholds means (90, 75, 60, 40) |
| Enums.NoneMeansDefaults | src/seraph/models/enums.py:21 | leaving the thresholds out grades exactly as the default tuple (90, 75, 60, 40) does |
| Enums.BoundsInclusive | src/seraph/models/enums.py:22-29 | for strictly decreasing thresholds each threshold itself earns its own grade (the comparisons are `>=`) |
| Enums.DefaultBoundsInclusive | src/seraph/models/enums.py:21-29 | with the defaults, 90, 75, 60 and 40 grade A, B, C and D |
| Enums.BelowFourthIsF | src/seraph/models/enums.py:28-30 | a score below the fourth threshold grades F |
| Enums.FromScoreMonotone | src/seraph/models/enums.py:18-30 | a higher score never earns a worse grade, whatever the thresholds |
| Enums.FixedBands | src/verdict/models/enums.py:18-27 | the fixed grading gives each of A to F exactly on its band [90,∞), [75,90), [60,75), [40,60), (−∞,40) |
| Enums.FixedIsDefault | src/verdict/models/enums.py:18-27 | the fixed grading agrees with the configurable grading at its default thresholds |
| Enums.FromScoreFixedMonotone | src/verdict/models/enums.py:18-27 | a higher score never earns a worse fixed grade |
| Config.ScoringConfig.Weights | src/seraph/config.py:61-69 | the dimension-weights view holds the five weight fields |
| Config.ScoringConfig.Severities | src/seraph/config.py:71-79 | the severity-weights view maps each severity to its field |
| Config.ScoringConfig.GradeThresholds | src/seraph/config.py:81-83 | the thresholds view is (grade_a, grade_b, grade_c, grade_d) |
| Config.DefaultScoringConsistent | src/seraph/config.py:33-44 | the default weights sum to 1.0 and the default thresholds are 90/75/60/40 |
| Config.Coerce | src/seraph/config.py:162-170 | "bool" is true exactly for true/1/yes in any case; "int" and "float" fail exactly when the text does not parse and otherwise give the parsed number; any other type keeps the text |
| Config.CoercePythonNumerals | src/seraph/config.py:166-169 | `1_000` coerces to the integer 1000, and `1e3`, `1E-2` and `1_0.5` to the floats 1000, 0.01 and 10.5 |
| Text.ParseIntGrouped | src/seraph/config.py:166-167 | `int` skips the underscore between digit groups: `1_000` is 1000 |
| Text.ParseDecimalExponent | src/seraph/config.py:168-169 | `float` scales the mantissa by ten to the exponent: `1e3` is 1000 |
| Text.ParseDecimalNegativeExponent | src/seraph/config.py:168-169 | the exponent letter may be upper case and the exponent negative: `1E-2` is 0.01 |
| Text.ParseDecimalGrouped | src/seraph/config.py:168-169 | underscores group the digits before the point: `1_0.5` is 10.5 |
| Config.CoerceIntRoundTrip | src/seraph/config.py:166-167 | an integer written in decimal coerces back to itself |
| Config.CoerceBoolSpellings | src/seraph/config.py:164-165 | TRUE, Yes and 1 are true; false and on are false |
| Config.EnvKey | src/seraph/config.py:150 | the variable name is the prefix, an underscore and the field name, all upper-cased |
| Config.FieldValue | src/seraph/config.py:149-157 | an environment variable wins over the TOML value, which wins over the field's default |
| Config.Defaults | src/seraph/config.py:157 | a section with nothing given holds each field's default, in field order |
| Config.SectionOf | src/seraph/config.py:146-159 | a section is built exactly when every field's value can be had, and then each field takes its chosen value |
| Config.BuildSection | src/seraph/config.py:146-159 | the loop over the fields builds exactly the section SectionOf describes |
| Config.UntouchedSectionIsDefaults | src/seraph/config.py:146-159 | with no TOML table and no environment override a section is all defaults |
| Config.LoadOf | src/seraph/config.py:123-143 | each of the five loaded sections (timeouts, scoring, pipeline, retention, logging) is built from its TOML table and its SERAPH_TIMEOUT / SERAPH_SCORING / SERAPH_PIPELINE / SERAPH_RETENTION / SERAPH_LOG variables; loading fails exactly when building some section fails |
| Config.MissingFileGivesDefaults | src/seraph/config.py:132-143 | with no config file and no overrides the configuration is the default one |
| Config.Load | src/seraph/config.py:123-143 | loading reads the file only when it exists and returns what LoadOf describes |
| Config.AsReal | src/seraph/config.py:34-52 | an int or a float value reads as that number; any other value is refused |
| Config.ScoringOf | src/seraph/config.py:30-59 | a scoring section converts exactly when every field is numeric |
| Config.ScoringDefaultsAgree | src/seraph/config.py:30-59 | the default scoring section converts to the default ScoringConfig |
| StaticAnalysis.RuffSeverity | src/seraph/core/static.py:184-195 | a ruff code is rated HIGH, LOW or MEDIUM only |
| StaticAnalysis.RuffSeverityRules | src/seraph/core/static.py:184-195 | HIGH exactly for codes starting S, E9 or F; LOW exactly for other E and W codes; MEDIUM exactly for the rest |
| StaticAnalysis.RuffSeverityExamples | tests/core/test_static.py:24-37 | S101, E999 and F401 are HIGH, E501 and W291 LOW, C901 MEDIUM |
| StaticAnalysis.FirstPrefix | src/seraph/core/static.py:152-156 | the scan of the severity table finds nothing exactly when no keyword starts the text |
| StaticAnalysis.MypyPrefixChain | src/seraph/core/static.py:149-156 | the first matching keyword decides: error is HIGH, warning MEDIUM, note INFO, checked in that order |
| StaticAnalysis.SplitCode | src/seraph/core/static.py:158-163 | a message ending in `]` and holding `[` loses its last bracketed code, which holds no `[`; any other message keeps no code |
| StaticAnalysis.ParseMypyLine | src/seraph/core/static.py:135-173 | a line gives a finding exactly when it splits into four colon parts and the second is an integer; the finding carries that line, column 0, the relative path and analyzer MYPY |
| StaticAnalysis.PrefixBeforeColon | src/seraph/core/static.py:147-153 | a keyword without a colon starts `kind:text` exactly when it starts `kind` |
| StaticAnalysis.ClassifyRest | src/seraph/core/static.py:147-156 | the severity comes from the third part alone; the message drops the keyword part only when a keyword matched |
| StaticAnalysis.MypySeverityAndMessage | src/seraph/core/static.py:147-163 | a parsed line's severity, code and message are those of its third and fourth parts |
| StaticAnalysis.NoColonNoFinding | src/seraph/core/static.py:137-139 | a line without a colon is skipped |
| StaticAnalysis.InvalidLineExample | tests/core/test_static.py:68-69 | "not a valid line" parses to nothing |
| StaticAnalysis.MypyFindings | src/seraph/core/static.py:124-127 | the loop over mypy's output lines keeps exactly the lines that parse, in order |
| StaticAnalysis.RunMypy | src/seraph/core/static.py:113-132 | a timeout or a missing tool gives no findings; otherwise the parsed lines of its output |
| StaticAnalysis.MypyFindingsFromLines | src/seraph/core/static.py:113-132 | every mypy finding is a MYPY finding at column 0 parsed from one output line, and there are no more findings than lines |
| StaticAnalysis.RuffFinding | src/seraph/core/static.py:92-102 | a ruff issue becomes a RUFF finding with its code, message, relative file name and location, missing keys reading as empty or 0 |
| StaticAnalysis.RuffFindingsIn | src/seraph/core/static.py:91-103 | one finding per issue, in the tool's order |
| StaticAnalysis.RunRuff | src/seraph/core/static.py:77-110 | empty output, bad JSON, a timeout or a missing tool give no findings; otherwise one per issue |
| StaticAnalysis.DetectToolConfig | src/seraph/core/static.py:25-55 | mypy counts as configured by its own files, a `[mypy]` setup.cfg or a `[tool.mypy]` pyproject; ruff by its files or `[tool.ruff]` |
| StaticAnalysis.NoConfigFiles | src/seraph/core/static.py:31-32 | with no configuration file neither tool counts as configured |
| StaticAnalysis.RuffBeforeMypy | src/seraph/core/static.py:71-72 | every ruff finding comes before every mypy finding |
| StaticAnalysis.RunStaticAnalysis | src/seraph/core/static.py:58-74 | the tool configuration is always reported; no Python file means no findings; otherwise ruff's then mypy's findings |
| StaticAnalysis.RunStaticVerdict | src/verdict/core/static.py:13-28 | no Python file means no findings; otherwise ruff's then mypy's findings |
| StaticAnalysis.ComputeStaticScore | src/verdict/core/static.py:150-171 | no files scores 100; otherwise the score lies in [0, 100] and agrees with the reporter's static score |
| Differ.PathsOf | src/seraph/core/differ.py:33-35 | the file paths are the changed files' paths, one per file, in order |
| Differ.PythonPathsExact | src/seraph/core/differ.py:37-39 | a path is among the Python files exactly when it is a changed path ending in `.py` |
| Differ.PythonPathsAll | src/seraph/core/differ.py:37-39 | when every path ends in `.py` the Python files are all the paths |
| Differ.PythonPathsAppend | src/seraph/core/differ.py:37-39 | filtering for Python files distributes over concatenation (order kept) |
| Differ.RefRange | src/seraph/core/differ.py:55-61 | both refs give `before..after`, only the first gives `before..HEAD`, none (or an empty first ref) gives `HEAD` |
| Differ.LoneAfterIgnored | src/seraph/core/differ.py:56-61 | a second ref without a first is ignored |
| Differ.RefRangeShape | src/seraph/core/differ.py:55-61 | a given first ref starts the range; a missing second ref makes it end in HEAD |
| Differ.ParseDiff | src/seraph/core/differ.py:48-88 | the refs are always echoed; a timeout or missing git gives no files; a run that succeeded or complained of something other than HEAD is parsed as is; a failed run whose stderr mentions HEAD is replaced by the `--cached` run, which is parsed, or gives no files when it timed out or git is missing |
| Differ.HeaderPath | src/seraph/core/differ.py:43 | only a line starting `diff --git a/` names a file, and the name is not empty |
| Differ.LastSplit | src/seraph/core/differ.py:43 | the `b/` part is found at the last ` b/` that leaves a non-empty path (the greedy first group) |
| Differ.LastSplitIs | src/seraph/core/differ.py:43 | the last qualifying ` b/` is the one found |
| Differ.NoLaterSplit | src/seraph/core/differ.py:43 | a path without ` b/` in it leaves no later split point |
| Differ.HeaderPathOf | src/seraph/core/differ.py:103-105 | `diff --git a/x b/y` names the file y when y holds no ` b/` |
| Differ.DigitLen | src/seraph/core/differ.py:42 | the leading run of digits is maximal |
| Differ.DigitLenOf | src/seraph/core/differ.py:42 | digits followed by a non-digit are read up to the non-digit |
| Differ.OptCount | src/seraph/core/differ.py:42 | reading an optional `,count` never lengthens the text |
| Differ.OptCountAbsent | src/seraph/core/differ.py:120-122 | without a comma the count is 1 and nothing is consumed |
| Differ.OptCountOf | src/seraph/core/differ.py:42 | `,digits` reads as that count |
| Differ.Number | src/seraph/core/differ.py:42 | a number consumes at least one character |
| Differ.NumberOf | src/seraph/core/differ.py:42 | digits followed by a non-digit read as their value |
| Differ.ParseHunk | src/seraph/core/differ.py:42 | only a line starting `@@ -` is a hunk header |
| Differ.ParseHunkOf | src/seraph/core/differ.py:42 | a well-formed header body followed by ` @@` parses to its hunk |
| Differ.Split | src/seraph/core/differ.py:42 | a concatenation starts with its first part |
| Differ.HunkBodyOf | src/seraph/core/differ.py:42 | the four numbers of a header body are read in order |
| Differ.HunkWithoutCounts | src/seraph/core/differ.py:117-122 | `@@ -a +c @@` parses with both counts 1 |
| Differ.NewRangeWithCount | src/seraph/core/differ.py:42 | ` +c,d @@` reads c and then d |
| Differ.NumberBeforeComma | src/seraph/core/differ.py:42 | a number stops at the comma after it |
| Differ.CountBeforePlus | src/seraph/core/differ.py:42 | a count stops at the ` +` after it |
| Differ.CountBeforeClose | src/seraph/core/differ.py:42 | a count stops at the ` @@` after it |
| Differ.HunkWithCounts | src/seraph/core/differ.py:117-122 | `@@ -a,b +c,d @@` parses to the four numbers |
| Differ.BodyWithCounts | src/seraph/core/differ.py:42 | `a,b +c,d` followed by ` @@` reads as the four numbers |
| Differ.WithHunk | src/seraph/core/differ.py:123-126 | a hunk appends its old range to the deleted lines and its new range to the added lines, each only when its count is positive, and changes nothing else |
| Differ.ParseDiffOutputLoop | src/seraph/core/differ.py:96-128 | the loop over the output lines builds exactly the files ParseDiffOutput describes, with the refs |
| Differ.PathsOfAppend | src/seraph/core/differ.py:105-106 | a new file adds its path at the end |
| Differ.PathsOfUpdate | src/seraph/core/differ.py:109-126 | changing the current file keeps every path |
| Differ.ApplyLinePaths | src/seraph/core/differ.py:102-126 | a line adds a path exactly when it is a `diff --git` header |
| Differ.ParsePaths | src/seraph/core/differ.py:102-126 | the parsed paths are the header paths of the lines, in order |
| Differ.DiffPaths | src/seraph/core/differ.py:33-35 | the file paths of a parsed diff are exactly the header paths of its lines |
| Differ.LeadingLinesIgnored | src/seraph/core/differ.py:109 | lines before the first file header change nothing |
| Differ.EmptyOutput | tests/core/test_differ.py:36-39 | an empty diff has no files |
| Differ.ModeLines | src/seraph/core/differ.py:110-115 | `new file mode` and `deleted file mode` mark the current file and change nothing else |
| Differ.HunkLine | src/seraph/core/differ.py:117-126 | a hunk header updates only the current file, by WithHunk |
| Differ.OtherLine | src/seraph/core/differ.py:109-126 | any other line is ignored unless it is a hunk header |
| Differ.SingleLineChange | tests/core/test_differ.py:41-56 | `@@ -5 +5 @@` records (5, 1) as both added and deleted |
| Differ.ZeroCountNotRecorded | tests/conftest.py:57 | `@@ -15,2 +19,0 @@` records the deletion (15, 2) and no addition |
| Mutator.MapStatus | src/seraph/core/mutator.py:172-183 | killed or ok (any case) is KILLED; otherwise survived or bad is SURVIVED; otherwise timeout, then skipped; anything else is ERROR — each status exactly on its condition |
| Mutator.MapStatusIgnoresCase | src/seraph/core/mutator.py:174 | two spellings differing only in case map to the same status |
| Mutator.KilledWins | src/seraph/core/mutator.py:175-176 | any status word holding `killed` is KILLED, whatever else it holds |
| Mutator.KilledExample | tests/core/test_mutator.py:22-23 | `killed` is KILLED |
| Mutator.OkKilledExample | tests/core/test_mutator.py:24 | `ok_killed` is KILLED |
| Mutator.LowerUnchanged | src/seraph/core/mutator.py:174 | lower-casing leaves text without capitals unchanged |
| Mutator.SurvivedExample | tests/core/test_mutator.py:27 | `survived` is SURVIVED |
| Mutator.BadSurvivedExample | tests/core/test_mutator.py:28 | `bad_survived` is SURVIVED |
| Mutator.TimeoutExample | tests/core/test_mutator.py:30-31 | `timeout` is TIMEOUT |
| Mutator.SkippedExample | tests/core/test_mutator.py:33-34 | `skipped` is SKIPPED |
| Mutator.UnknownExample | tests/core/test_mutator.py:36-37 | `???` is ERROR |
| Mutator.HeaderStatus | src/seraph/core/mutator.py:147-152 | a section header names SURVIVED, KILLED or TIMEOUT, and SURVIVED exactly when the line starts `Survived` |
| Mutator.ResultsFromAt | src/seraph/core/mutator.py:145-164 | the results of the lines from i on are those of line i followed by those of the rest under the status line i leaves |
| Mutator.ParseStep | src/seraph/core/mutator.py:145-164 | one step of the line loop keeps the accumulated results a prefix of the whole answer |
| Mutator.ParseFromCommand | src/seraph/core/mutator.py:133-169 | a timeout or a missing tool gives no results; otherwise the results of the output lines starting under SURVIVED |
| Mutator.ParseLines | src/seraph/core/mutator.py:144-164 | the loop over the stripped lines yields exactly ResultsFrom(lines, SURVIVED) |
| Mutator.ParseLine | src/seraph/core/mutator.py:146-164 | one line gives the next current status and the results it lists |
| Mutator.IdResultsAt | src/seraph/core/mutator.py:154-164 | the results of the ids from j on are id j's followed by the rest's |
| Mutator.IdsStep | src/seraph/core/mutator.py:154-164 | one step of the id loop keeps the accumulated results a prefix of the answer |
| Mutator.Ids | src/seraph/core/mutator.py:154-164 | the loop over the comma-separated pieces keeps exactly the all-digit ids, in order |
| Mutator.AppendKeeps | src/seraph/core/mutator.py:157-164 | concatenation keeps "every result is a parsed result for this file" and "every result has this status" |
| Mutator.IdResultsShape | src/seraph/core/mutator.py:157-163 | every listed id becomes a result for this file with operator `unknown`, an all-digit id and a header status |
| Mutator.IdResultsStatus | src/seraph/core/mutator.py:157-163 | every id of a section carries that section's status |
| Mutator.ResultsShape | src/seraph/core/mutator.py:144-164 | every parsed result has this file, operator `unknown`, an all-digit id and a SURVIVED, KILLED or TIMEOUT status |
| Mutator.NoHeaderMeansSurvived | src/seraph/core/mutator.py:144 | ids listed before any section header count as SURVIVED |
| Mutator.HeaderThenIds | src/seraph/core/mutator.py:147-164 | a header line followed by an id line gives those ids under the header's status, then the rest under it |
| Mutator.MutateSingleFile | src/seraph/core/mutator.py:52-89 | a timeout gives one TIMEOUT result `timeout`/`all` and counts as available; a missing tool gives nothing and is unavailable; otherwise the parsed results and available |
| Mutator.Eligible | src/seraph/core/mutator.py:37-42 | the files mutated are exactly the listed `.py` files present on disk |
| Mutator.AnyAvailableExists | src/seraph/core/mutator.py:46-47 | the tool is available exactly when some mutated file reported it available |
| Mutator.RunMutations | src/seraph/core/mutator.py:25-49 | the loop gathers each eligible file's results in order and ORs their availability, as RunMutationsOf says |
| Mutator.RunFile | src/seraph/core/mutator.py:37-47 | one file adds its results and availability only when it is a `.py` file on disk |
| Mutator.RunStep | src/seraph/core/mutator.py:37-47 | one more file extends the gathered results and availability by that file's alone |
| Mutator.EligibleAppend | src/seraph/core/mutator.py:37-42 | the eligibility filter distributes over concatenation |
| Mutator.EligibleSnoc | src/seraph/core/mutator.py:37-42 | one more file is kept exactly when it is an existing `.py` file |
| Mutator.AllResultsSnoc | src/seraph/core/mutator.py:45 | one more mutated file's results go at the end |
| Mutator.AnyAvailableSnoc | src/seraph/core/mutator.py:46-47 | one more mutated file ORs in its availability |
| Mutator.NothingEligible | tests/core/test_mutator.py:41-48 | with no existing Python file nothing runs: no results and the tool is unavailable |
| Mutator.OnlyEligibleConsulted | src/seraph/core/mutator.py:37-44 | files that are not mutated cannot affect the outcome |
| Mutator.AgreeOn | src/seraph/core/mutator.py:37-47 | two runners that agree on the mutated files give the same outcome |
| Mutator.AvailableIffSomeFile | src/seraph/core/mutator.py:35-49 | the run reports the tool available exactly when some existing `.py` file's run did |
| Baseline.AddId | src/verdict/core/baseline.py:86 | adding an id to a set of ids adds exactly that element and keeps the ids distinct |
| Baseline.AddAll | src/verdict/core/baseline.py:29-31 | the union holds exactly the elements of both and stays distinct |
| Baseline.FailedId | src/verdict/core/baseline.py:83-86 | a line names a failed test only when it holds ` FAILED`, and then the id is the non-empty stripped text before the first ` FAILED` |
| Baseline.FailureLines | src/verdict/core/baseline.py:80-87 | the loop over the lines collects exactly FailuresIn(lines) |
| Baseline.ParsePytestFailures | src/verdict/core/baseline.py:78-87 | the failures are those of the output's lines |
| Baseline.FailuresExactly | src/verdict/core/baseline.py:78-87 | the failure set is duplicate-free and holds an id exactly when some line names it as failed |
| Baseline.FailuresSnoc | src/verdict/core/baseline.py:81-86 | one more line adds at most the id it names, keeping the set duplicate-free |
| Baseline.NoFailedLines | tests/core/test_baseline.py:14-31 | output without ` FAILED` has no failures |
| Baseline.TestCommand | src/verdict/core/baseline.py:59-62 | an empty command raises (IndexError); otherwise its words, with `-v` appended exactly when the command is pytest and lacks it |
| Baseline.RunTestsOnce | src/verdict/core/baseline.py:57-75 | a run raises exactly when the command is empty or the program is missing; a timeout gives the single id `__timeout__`; the failures are distinct |
| Baseline.FailCount | src/verdict/core/baseline.py:35 | a test fails in at most as many runs as there are |
| Baseline.AllIds | src/verdict/core/baseline.py:29-31 | the union of the runs' failures is duplicate-free |
| Baseline.RunsOf | src/verdict/core/baseline.py:24-26 | when no run raises there is one failure set per run |
| Baseline.CollectRuns | src/verdict/core/baseline.py:22-26 | the loop runs the tests count times and stops at the first that raises, as RunsOf says |
| Baseline.UnionIds | src/verdict/core/baseline.py:29-31 | the loop builds exactly the union AllIds |
| Baseline.FlakyIds | src/verdict/core/baseline.py:33-37 | the loop keeps exactly FlakyAmong of the sorted ids |
| Baseline.RunBaseline | src/verdict/core/baseline.py:12-54 | the baseline is that of BaselineOf: the runs, the sorted flaky ids and the rounded pass rate |
| Baseline.RaisedStays | src/verdict/core/baseline.py:24-26 | once a run raises, running more never recovers |
| Baseline.FailCountPositive | src/verdict/core/baseline.py:29-35 | a test fails in some run exactly when it is among all ids |
| Baseline.FlakyAmongExactly | src/verdict/core/baseline.py:34-37 | a candidate is kept exactly when it fails in some runs but fewer than run_count |
| Baseline.FlakyAmongSorted | src/verdict/core/baseline.py:34 | keeping some of sorted ids stays sorted |
| Baseline.FlakyExactly | src/verdict/core/baseline.py:28-37 | the flaky tests are sorted and are exactly those failing in more than zero and fewer than run_count runs |
| Baseline.AlwaysFailingNotFlaky | tests/core/test_baseline.py:57-61 | a test failing in every run is not flaky |
| Baseline.NoFailuresAllStable | tests/core/test_baseline.py:35-41 | runs without failures give no flaky tests and a pass rate of 1.0 |
| Baseline.PassRateBounds | src/verdict/core/baseline.py:39-46 | the pass rate, and its rounding to four places, lie in [0, 1] |
| Baseline.BaselineFields | src/verdict/core/baseline.py:48-54 | the result echoes the id, timestamp, repository, command and run count, its flaky list is sorted and its pass rate lies in [0, 1] |
| Baseline.FlakyExample | tests/core/test_baseline.py:43-55 | test_b failing in two of three runs is flaky; test_a failing in all three is not |
| Baseline.ExampleCounts | tests/core/test_baseline.py:46-50 | in that example test_b fails twice and test_a three times |
| Bridge.FilePathHits | src/verdict/core/bridge.py:86 | a path is a hit exactly when the pitfall lists it and it was changed |
| Bridge.FilePathHitsFirst | src/verdict/core/bridge.py:86-93 | the first hit is the first of the pitfall's paths that was changed |
| Bridge.FirstHitAt | src/verdict/core/bridge.py:86-93 | a changed path with no changed path before it is the first hit |
| Bridge.PathHitMatchesOnce | src/verdict/core/bridge.py:85-96 | a pitfall with a changed path gives exactly one `file_path` match, on its first changed path, and its code pattern is not tried |
| Bridge.NoHits | src/verdict/core/bridge.py:86-87 | a pitfall none of whose paths changed has no hits |
| Bridge.NoPatternNoMatch | src/verdict/core/bridge.py:99-104 | without a path hit, an empty or invalid pattern gives no match |
| Bridge.CodeMatchesSound | src/verdict/core/bridge.py:106-122 | every `code_pattern` match names this pitfall and a changed file that exists and whose text the pattern is found in |
| Bridge.MatchesSound | src/verdict/core/bridge.py:74-124 | every match names a changed file, one of the two match types and one of the store's pitfalls |
| Bridge.HotFilesOf | src/verdict/core/bridge.py:132-141 | there is at most one hot file per changed file |
| Bridge.HotFilesAppend | src/verdict/core/bridge.py:132-141 | the hot-file query distributes over the list of files, order kept |
| Bridge.HotFilesExactly | src/verdict/core/bridge.py:126-143 | a hot file is reported exactly when the store knows it for some changed file |
| Bridge.RowsOf | src/verdict/core/bridge.py:155-156 | each co-change row of a file is paired with that file, in order |
| Bridge.RowsOfSnoc | src/verdict/core/bridge.py:156 | one more co-change row adds one pair at the end |
| Bridge.UnsortedSnoc | src/verdict/core/bridge.py:157-164 | a row adds its partner exactly when the partner is neither changed nor already seen |
| Bridge.PartnersOfSnoc | src/verdict/core/bridge.py:159 | recording a missing partner adds it to the seen partners |
| Bridge.UnsortedExactly | src/verdict/core/bridge.py:151-164 | partners are reported at most once; a partner is reported exactly when it is unchanged and some row names it; each entry comes from the first row naming its partner |
| Bridge.PairsFromStore | src/verdict/core/bridge.py:154-156 | every visited row is one the store returned for its changed file |
| Bridge.MissingCoChangesExactly | src/verdict/core/bridge.py:145-166 | the result is sorted by change count descending, is a permutation of the entries found, names only changed sources and unchanged partners, and covers exactly the unchanged partners |
| Bridge.SignalsOf | src/verdict/core/bridge.py:58-72 | with no store the signals are unavailable and empty; with one they are available and hold at most one hot file per changed file |
| Bridge.StoreOf | src/verdict/core/bridge.py:27-46 | the bridge holds no store exactly when the Sentinel database is missing or the store could not be created; a store whose `open()` failed is still held |
| Bridge.OpenFailureStillQueried | src/verdict/core/bridge.py:40-72 | a store whose `open()` raised is kept, so `get_risk_signals` reports available signals from it |
| Bridge.SentinelBridge.constructor | src/verdict/core/bridge.py:27-46 | the store held is StoreOf's; the bridge is available exactly when the database exists and the store opened |
| Bridge.SentinelBridge.GetRiskSignals | src/verdict/core/bridge.py:58-72 | the signals are those of SignalsOf, and they are available exactly when a store object is held, opened or not; an available bridge gives available signals |
| Bridge.SentinelBridge.MatchPitfalls | src/verdict/core/bridge.py:74-124 | no store gives no matches; otherwise the loop over the pitfalls gives exactly Matches |
| Bridge.SentinelBridge.MatchPitfall | src/verdict/core/bridge.py:84-122 | one pitfall gives its path match, or else its code-pattern matches over the changed files |
| Bridge.SentinelBridge.GetHotFiles | src/verdict/core/bridge.py:126-143 | no store gives nothing; otherwise the loop gives exactly HotFilesOf |
| Bridge.SentinelBridge.GetMissingCoChanges | src/verdict/core/bridge.py:145-166 | no store gives nothing; otherwise exactly MissingCoChanges |
| Bridge.SentinelBridge.CollectMissing | src/verdict/core/bridge.py:151-164 | the double loop yields exactly the unsorted entries Unsorted describes |
| Bridge.SentinelBridge.VisitPartners | src/verdict/core/bridge.py:155-164 | the inner loop over one file's rows extends the entries and the seen partners as Unsorted and PartnersOf say |
| Bridge.SentinelBridge.Close | src/verdict/core/bridge.py:168-175 | after closing there is no store and the bridge is unavailable |
| Security.CweWeight | src/seraph/core/security.py:36-44 | a CWE's multiplier is one of 0.1, 3, 2 and 1 |
| Security.CweWeightByTier | src/seraph/core/security.py:20-44 | 0.1 exactly for tier 0, 3 exactly for tier 1, 2 exactly for tier 2, 1 exactly for an id in no tier |
| Security.CweWeightExamples | tests/core/test_security.py:28-48 | CWE-89 and CWE-117 weigh 3, CWE-78 and CWE-798 weigh 2, CWE-703 and CWE-390 weigh 0.1, CWE-330, the empty id and CWE-999 weigh 1 |
| Security.BanditCwe | src/seraph/core/security.py:49-91 | a bandit test id maps to its listed CWE and to the empty id when unlisted |
| Security.MappedBanditTestsAreTiered | src/seraph/core/security.py:49-91 | every listed bandit test except B311 maps to a CWE in some tier |
| Security.PasswordChecksAreCwe259 | src/seraph/core/security.py:64-67 | B105, B106 and B107 all map to CWE-259 |
| Security.SeverityIn | src/seraph/core/security.py:93-124 | a severity table gives its entry for a known key and the default for any other key |
| Security.SecretSeverities | src/seraph/core/security.py:107-124 | a secret type is MEDIUM exactly for the two high-entropy string types, and HIGH otherwise, unknown types included |
| Security.BanditFinding | src/seraph/core/security.py:159-176 | a bandit issue becomes a BANDIT finding whose code is its test id, whose CWE is that id's, whose severity comes from the table with MEDIUM for a missing or unknown one, and whose source line is stripped |
| Security.FirstCweIsFirstNamed | src/seraph/core/security.py:196-203 | the CWE is the one named by the first item that names any (a dict with a non-empty id, or a string starting `CWE-`, cut at its colon), and empty when none does |
| Security.CwePrefixSurvives | src/seraph/core/security.py:201-202 | cutting a `CWE-` string at its first colon leaves a non-empty `CWE-` id without a colon |
| Security.SemgrepCweExamples | tests/core/test_security.py:54-67 | a dict item gives its id; an empty list, a non-list and missing metadata give the empty id |
| Security.SemgrepCweTextExample | tests/core/test_security.py:53-55 | `CWE-94: Code Injection` gives CWE-94 |
| Security.SemgrepFinding | src/seraph/core/security.py:226-241 | a semgrep result becomes a SEMGREP finding with its check id and its extracted CWE |
| Security.SecretFinding | src/seraph/core/security.py:271-286 | a secret becomes a DETECT_SECRETS finding for CWE-798, its relative path and the severity of its type with HIGH by default |
| Security.BanditFindings | src/seraph/core/security.py:159-176 | one finding per bandit issue, in order |
| Security.SemgrepFindings | src/seraph/core/security.py:226-241 | one finding per semgrep result, in order |
| Security.FileSecretFindings | src/seraph/core/security.py:272-286 | one finding per secret of a file, in order |
| Security.RunnerOutcomes | src/seraph/core/security.py:151-183 | a missing tool gives nothing and is unavailable; no output, bad JSON or a timeout give nothing but count as available; decoded output gives its items |
| Security.RunBandit | src/seraph/core/security.py:138-183 | bandit's findings are those of its decoded issues, and its availability the outcome's |
| Security.RunSemgrep | src/seraph/core/security.py:206-248 | semgrep's findings are those of its decoded results, and its availability the outcome's |
| Security.RunDetectSecrets | src/seraph/core/security.py:251-293 | detect-secrets' findings are those of its decoded files, in file order, and its availability the outcome's |
| Security.FilterFindings | src/seraph/core/security.py:347-372 | the loop keeps exactly the findings Kept describes: not skipped, not a password check on a non-credential line, not a benign B311 |
| Security.KeptAppend | src/seraph/core/security.py:353-371 | filtering distributes over concatenation, so it keeps the order |
| Security.KeptExactly | src/seraph/core/security.py:347-372 | a finding survives exactly when it was found and passes the filter; the filter never adds findings |
| Security.KeptIdempotent | src/seraph/core/security.py:347-372 | filtering twice is filtering once |
| Security.SkippedCodesDropped | src/seraph/core/security.py:354-356 | no surviving finding has a code in the skip list |
| Security.MatchesAnyPatternExists | src/seraph/core/security.py:326-344 | a path is excluded exactly when one pattern, with a trailing `/` widened to `/*` and an optional leading `**/` dropped, matches it |
| Security.NotExcluded | src/seraph/core/security.py:383-388 | a file is passed on exactly when its relative path matches no exclude pattern |
| Security.FilterFilesForDetectSecrets | src/seraph/core/security.py:375-388 | no patterns passes every file unchanged; otherwise the loop keeps exactly NotExcluded, the absolute files whose repository-relative path no pattern matches |
| Security.NoPatternsKeepAll | src/seraph/core/security.py:381-382 | with no patterns every file is kept |
| Security.ToolsOfEntries | src/seraph/core/security.py:408-429 | the availability map has an entry exactly per enabled tool, the tool's outcome for bandit and semgrep, and for detect-secrets true when every file was excluded |
| Security.RunSecurityAnalysis | src/seraph/core/security.py:394-432 | no Python file gives an empty result; otherwise one availability entry per enabled tool and the filtered findings of bandit, semgrep and detect-secrets, in that order |
| Security.BanditStep | src/seraph/core/security.py:410-413 | bandit runs and records its availability only when enabled |
| Security.SemgrepStep | src/seraph/core/security.py:415-418 | semgrep runs and records its availability only when enabled |
| Security.SecretsStep | src/seraph/core/security.py:403-429 | detect-secrets runs only when enabled and some of the absolute `repo_path / f` files is left, recording true when none is left |
| Reporter.ConstantsAgree | src/seraph/core/reporter.py:27-52 | the seraph defaults equal the default ScoringConfig's values except for the thresholds and the missing scale factor; the verdict constants differ from them only in the empty-mutations wording; the module weights sum to 1.0 |
| Reporter.BaselineScore | src/seraph/core/reporter.py:58-66 | no flaky test scores 100; otherwise the score is at least 0 and at least 100 minus the deductions, never above 100, and 100 only when nothing is flaky |
| Reporter.BaselineScoreMonotone | src/seraph/core/reporter.py:58-66 | more flaky tests never raise the baseline score |
| Reporter.DeductionMonotone | src/seraph/core/reporter.py:66 | the clamped deduction is monotone in the count |
| Reporter.BaselineExamples | tests/core/test_reporter.py:28-35 | two flaky tests score 80; ten or more score 0 |
| Reporter.KilledCount | src/seraph/core/reporter.py:74 | no more mutants are killed than exist |
| Reporter.MutationScore | src/seraph/core/reporter.py:69-75 | no mutants scores 100; otherwise the score lies in [0, 100] within 0.05 of the killed percentage |
| Reporter.MutationScoreAllKilled | src/seraph/core/reporter.py:69-75 | all mutants killed scores 100 |
| Reporter.MutationScoreNoneKilled | src/seraph/core/reporter.py:69-75 | none of several mutants killed scores 0 |
| Reporter.AllKilled | src/seraph/core/reporter.py:74 | when every mutant is killed the killed count is the total |
| Reporter.NoneKilled | src/seraph/core/reporter.py:74 | when none is killed the killed count is 0 |
| Reporter.OnlyKilledCounts | src/seraph/core/reporter.py:74-75 | changing one non-killed mutant to another non-killed status leaves the score unchanged |
| Reporter.KilledCountUpdate | src/seraph/core/reporter.py:74 | the same change leaves the killed count unchanged |
| Reporter.HalfKilled | tests/core/test_reporter.py:42-47 | one killed and one survived mutant score 50 |
| Reporter.WeightedIssuesNonNegative | src/seraph/core/reporter.py:89 | with non-negative severity weights the weighted issue total is non-negative |
| Reporter.StaticScore | src/seraph/core/reporter.py:78-94 | no files scores 100; otherwise it raises exactly when the scale factor cannot be read; a score is never negative, is at most 100 for non-negative weights and scale, and is 100 for no findings |
| Reporter.StaticExample | tests/core/test_reporter.py:57-63 | one HIGH and one LOW finding over two files score 70 |
| Reporter.ConfiguredStaticScoreRaises | src/seraph/core/reporter.py:92 | with a ScoringConfig and some files the static score raises, since that config has no static_issue_scale_factor |
| Reporter.HotFileDeductionCapped | src/seraph/core/reporter.py:110-111 | each hot file deducts at most the cap |
| Reporter.HotFileDeductionNonNegative | src/seraph/core/reporter.py:110-111 | non-negative churn, divisor and cap deduct a non-negative amount |
| Reporter.RiskScoreOf | src/seraph/core/reporter.py:97-116 | no Sentinel data scores 100; otherwise it raises exactly when there is a hot file and the divisor is 0; a score is never negative |
| Reporter.RiskScore | src/seraph/core/reporter.py:97-116 | the loop over the hot files computes exactly RiskScoreOf |
| Reporter.RiskScoreBounded | src/seraph/core/reporter.py:97-116 | with a positive divisor and non-negative deductions and churn the risk score exists and lies in [0, 100] |
| Reporter.RiskScoreHotFileFloor | src/seraph/core/reporter.py:109-116 | the score is at least what it would be with every hot file at the cap |
| Reporter.RiskExample | tests/core/test_reporter.py:71-80 | two pitfalls, one hot file of churn 50 and one missing partner score 77 |
| Reporter.CoChangeScore | src/seraph/core/reporter.py:132-149 | the score lies in [0, 100]; no data or nothing missing scores 100; missing partners with no changed files score 0; otherwise it is within 0.05 of the covered percentage |
| Reporter.CoChangeExample | tests/core/test_reporter.py:87-93 | two changed files and two missing partners score 50 |
| Reporter.ScoreDimension | src/seraph/core/reporter.py:233-259 | a dimension keeps its name, weight and evaluated flag and grades its raw score; unevaluated it keeps the raw score, weighs 0 and says "Not evaluated"; evaluated it rounds the score and the weighted score and keeps its details |
| Reporter.Dimensions | src/seraph/core/reporter.py:181-197 | the five dimensions, in order, score each raw score with its weight, its details, its evaluated flag and the thresholds |
| Reporter.EvaluatedDims | src/seraph/core/reporter.py:200 | keeping the evaluated dimensions never adds any |
| Reporter.EvaluatedDimsExact | src/seraph/core/reporter.py:200 | a dimension is kept exactly when it is evaluated |
| Reporter.BuildReport | src/seraph/core/reporter.py:155-230 | the report has five named dimensions evaluated exactly per the evaluated set, the rounded re-weighted overall score and its grade, the gaps of its dimensions, and the issue, warning and flaky counts; the id, timestamp, repository, refs, changed files, mutation score, mutations, findings, baseline and signals are passed through unchanged |
| Reporter.WeightedSumBounds | src/seraph/core/reporter.py:204 | the re-weighted sum of scores in [0, 100] lies between 0 and 100 times the weight share |
| Reporter.BoundStep | src/seraph/core/reporter.py:204 | one more term keeps that bound |
| Reporter.WeightedSumConstant | src/seraph/core/reporter.py:204 | equal raw scores give that score times the weight share |
| Reporter.EvaluatedInRange | src/seraph/core/reporter.py:200 | the evaluated dimensions of in-range dimensions are in range |
| Reporter.TotalWeightNonNegative | src/seraph/core/reporter.py:202 | non-negative weights total to a non-negative weight |
| Reporter.OverallInRange | src/seraph/core/reporter.py:199-208 | the overall score of in-range dimensions lies in [0, 100] |
| Reporter.OverallOfUniform | src/seraph/core/reporter.py:199-206 | when every evaluated dimension scores v and they weigh something the overall score is v |
| Reporter.WeightedUniform | src/seraph/core/reporter.py:204 | re-weighting equal scores gives that score |
| Reporter.EvaluatedUniform | src/seraph/core/reporter.py:200 | the evaluated dimensions keep the common score |
| Reporter.OverallWithoutWeight | src/seraph/core/reporter.py:201-208 | no evaluated dimension, or no positive weight, gives an overall score of 100 |
| Reporter.DimensionsInRange | src/seraph/core/reporter.py:186-197 | raw scores in [0, 100] and non-negative weights give in-range dimensions |
| Reporter.ReportOverallInRange | src/seraph/core/reporter.py:199-219 | the report's overall score lies in [0, 100] |
| Reporter.SingleEvaluated | tests/core/test_reporter.py:201-223 | when one positively weighted dimension is evaluated the overall score is its rounded score |
| Reporter.NoneEvaluated | src/seraph/core/reporter.py:200 | no evaluated dimension keeps nothing |
| Reporter.OneEvaluated | src/seraph/core/reporter.py:200 | exactly one evaluated dimension keeps exactly it |
| Reporter.TotalFive | src/seraph/core/reporter.py:202 | the total weight of five dimensions is the sum of their weights |
| Reporter.WeightedOverOne | src/seraph/core/reporter.py:204 | dividing by a total weight of 1 changes nothing |
| Reporter.AllEvaluatedKept | src/seraph/core/reporter.py:200 | when all are evaluated all are kept |
| Reporter.OverallWhenAllEvaluated | src/seraph/core/reporter.py:199-204 | all evaluated and weights summing to 1 make the overall score the plain weighted sum |
| Reporter.AllEvaluatedOverall | src/seraph/core/reporter.py:181-204 | with no evaluated set and weights summing to 1 the overall score is the plain weighted sum of the five |
| Reporter.DimensionsTotalWeight | src/seraph/core/reporter.py:183-197 | the five dimensions weigh the configured total |
| Reporter.PlainFive | src/seraph/core/reporter.py:204 | the weighted sum of five is written out term by term |
| Reporter.NoneMeansAllEvaluated | src/seraph/core/reporter.py:181-182 | no evaluated set means all five are evaluated |
| Reporter.ReportAllEvaluated | src/seraph/core/reporter.py:181-197 | with no evaluated set every report dimension is evaluated |
| Reporter.UniformOverall | src/seraph/core/reporter.py:199-219 | five equal scores v give an overall score of v |
| Reporter.UniformExamples | tests/core/test_reporter.py:97-199 | five scores of 10 grade F; five of 100 score 100, grade A and have no gaps |
| Reporter.MixedOverall | tests/core/test_reporter.py:117-137 | scores 50/80/100/70/60 at the default weights give an overall score of 69 |
| Reporter.MixedExample | tests/core/test_reporter.py:117-137 | that report scores 69, grades C and has gaps |
| Reporter.MixedSum | tests/core/test_reporter.py:134-135 | 50·0.3 + 80·0.2 + 100·0.15 + 70·0.2 + 60·0.15 is 69 |
| Reporter.GapsOf | src/seraph/core/reporter.py:262-270 | there is one gap per evaluated dimension graded C or below |
| Reporter.IdentifyGaps | src/seraph/core/reporter.py:262-270 | the loop over the dimensions builds exactly GapsOf |
| Reporter.GapText | src/seraph/core/reporter.py:269 | a gap's text opens with "name: grade (" and closes with "%) — details" |
| Reporter.GapTextNamesWeakDimension | src/seraph/core/reporter.py:262-270 | each gap's text opens with the name of an evaluated dimension of the report graded C, D or F |
| Reporter.GapsOfCons | src/seraph/core/reporter.py:265-269 | a dimension adds its gap in front exactly when it needs attention |
| Reporter.GapDimsExact | src/seraph/core/reporter.py:265-269 | a dimension has a gap exactly when it is evaluated and graded C, D or F |
| Reporter.GapDimsAppend | src/seraph/core/reporter.py:265-269 | gaps distribute over the list, order kept |
| Reporter.GapDimsCons | src/seraph/core/reporter.py:265-269 | one dimension in front adds at most itself in front |
| Reporter.NoGaps | src/seraph/core/reporter.py:262-270 | dimensions that need no attention give no gaps |
| Reporter.MutationDetails | src/seraph/core/reporter.py:275-281 | no mutants gives the package's wording; otherwise "k/n killed, n−k survived" |
| Reporter.CountAnalyzer | src/seraph/core/reporter.py:288-289 | an analyzer is counted at most once per finding |
| Reporter.AnalyzerParts | src/seraph/core/reporter.py:290 | one part per analyzer |
| Reporter.AnalyzerValuesCount | src/seraph/core/reporter.py:287-289 | an analyzer has an entry exactly when it has a finding; only ruff and mypy occur |
| Reporter.PresentAnalyzersSorted | src/seraph/core/reporter.py:290 | the analyzers are listed once each, in sorted order |
| Reporter.CountStep | src/seraph/core/reporter.py:288-289 | one more finding adds its analyzer and bumps its count alone |
| Reporter.PartsStep | src/seraph/core/reporter.py:290 | one more analyzer adds its "count name" part |
| Reporter.CountInvariantStep | src/seraph/core/reporter.py:288-289 | one step of the counting loop keeps the counts exact |
| Reporter.CountByAnalyzer | src/seraph/core/reporter.py:287-289 | the loop counts exactly each analyzer's findings and sees exactly the analyzers present |
| Reporter.StaticDetails | src/seraph/core/reporter.py:284-291 | the static details are "No issues found" or the sorted "count analyzer" parts joined by commas |
| Reporter.CountParts | src/seraph/core/reporter.py:290 | the loop builds exactly the parts for the given analyzers |
| Reporter.BaselineDetails | src/seraph/core/reporter.py:294-300 | no baseline, a stable baseline and a flaky baseline each give their wording with the counts |
| Reporter.SentinelDetails | src/seraph/core/reporter.py:303-313 | no data, no signals, the pitfall count first and the hot-file count last |
| Reporter.Partners | src/seraph/core/reporter.py:322 | the partner files, in order |
| Reporter.CoChangeDetails | src/seraph/core/reporter.py:316-324 | no data, nothing missing, up to three partners listed, or three listed and "(+n more)" |
| Reporter.PerfectReport | tests/core/test_reporter.py:97-115 | five scores of 100 give an overall score of 100 and its grade |
| Store.PendingExactly | src/verdict/core/store.py:159-165 | the migrations run from version `current` are exactly the registered versions in [current, SCHEMA_VERSION), in ascending order |
| Store.VersionOnOpen | src/verdict/core/store.py:140-171 | after opening, the schema version is SCHEMA_VERSION for a fresh database and never lower than the stored one |
| Store.MigrationsOnOpenCases | src/verdict/core/store.py:100-102 | a fresh or current database runs no migration; a version-1 or version-0 database runs exactly the v1-to-v2 migration |
| Store.MutationRows | src/verdict/core/store.py:197-198 | saving a report writes one mutation row per mutation, in order, each tagged with the report's id |
| Store.FindAssessment | src/verdict/core/store.py:203-210 | the lookup is None exactly when no row has the id; otherwise it returns a stored row with that id |
| Store.FindAppend | src/verdict/core/store.py:203-210 | looking up an id after a row is appended returns the earlier match if there is one, else the new row when its id matches, else None |
| Store.SaveThenGet | src/verdict/core/store.py:175-210 | after saving a report with a fresh id, get_assessment of that id returns its row, and lookups of every other id are unchanged |
| Store.SaveAddsRows | src/verdict/core/store.py:175-201 | saving adds one assessment row, one mutation row per mutation after the existing ones, one baseline row when the report has a baseline, and no feedback |
| Store.ForRepo | src/verdict/core/store.py:215-220 | the repository filter keeps exactly the rows whose repo_path is the given one |
| Store.Page | src/verdict/core/store.py:218-225 | LIMIT/OFFSET returns at most `limit` rows, all taken from the ordered rows |
| Store.PageSplit | src/verdict/core/store.py:212-225 | the first `a` rows followed by the `b` rows at offset `a` are the first `a + b` rows |
| Store.Assessments | src/verdict/core/store.py:212-226 | get_assessments returns at most `limit` stored rows, all from the requested repository when a non-empty repo_path is given |
| Store.PageSorted | src/verdict/core/store.py:218-223 | a page of rows ordered newest first is itself ordered newest first |
| Store.AssessmentsNewestFirst | src/verdict/core/store.py:217-223 | get_assessments orders its result by created_at, newest first |
| Store.BaselinesFor | src/verdict/core/store.py:302-305 | the baseline filter keeps exactly the rows of the given repository |
| Store.LatestBaseline | src/verdict/core/store.py:301-318 | the latest baseline is None exactly when the repository has none; otherwise it is one of its baselines, and no other is newer |
| Store.SavedBaselineIsLatest | src/verdict/core/store.py:199-200 | a report's baseline, newer than every stored one of its repository, is what get_latest_baseline then returns |
| Store.FeedbackFor | src/verdict/core/store.py:330-334 | the feedback filter keeps exactly the rows for the given assessment |
| Store.NoFeedbackFor | src/verdict/core/store.py:330-344 | an assessment with no feedback row gets an empty list |
| Store.ToStored | src/verdict/core/store.py:335-344 | every row is converted, in order, with a NULL context read as the empty string |
| Store.FeedbackOf | src/verdict/core/store.py:330-344 | get_feedback returns one entry per feedback row of the assessment, all for that assessment, newest first |
| Store.SortedFeedback | src/verdict/core/store.py:331-333 | sorting an assessment's feedback keeps every row's assessment id and orders the rows newest first |
| Store.SaveThenGetFeedback | src/verdict/core/store.py:322-344 | saving the first feedback of an assessment makes get_feedback return exactly that entry |
| Store.FeedbackForAppend | src/verdict/core/store.py:322-334 | after one feedback row is appended, the assessment's feedback is the earlier feedback plus the new row when it is for that assessment |
| Store.OldIds | src/verdict/core/store.py:357-361 | the ids selected for deletion are exactly those of assessments created before the cutoff |
| Store.AssessmentsOutside | src/verdict/core/store.py:386-390 | deleting assessments removes exactly the rows whose id was selected |
| Store.MutationsOutside | src/verdict/core/store.py:375-379 | deleting mutation rows removes exactly those that belong to a selected assessment |
| Store.FeedbackOutside | src/verdict/core/store.py:369-373 | deleting feedback removes exactly the rows that belong to a selected assessment |
| Store.BaselinesSince | src/verdict/core/store.py:381-384 | deleting baselines removes exactly those created before the cutoff |
| Store.PruneNothingOld | src/verdict/core/store.py:363-364 | with no assessment older than the cutoff, prune reports zero for all four tables and deletes nothing, old baselines included |
| Store.PruneRemovesOld | src/verdict/core/store.py:348-398 | after prune no assessment older than the cutoff is left, no feedback or mutation row of a deleted assessment is left, every other row is kept, and every reported count is non-negative |
| Store.PruneIdempotent | src/verdict/core/store.py:348-398 | pruning twice with the same cutoff deletes nothing the second time |
| Store.StatsAfterSave | src/verdict/core/store.py:175-201 | after save_assessment the stats count one more assessment, one more mutation row per mutation, one more baseline when there is one, and the same feedback |
| Store.VerdictStore.Open | src/verdict/core/store.py:115-171 | opening keeps the stored rows, sets the schema version and runs exactly the pending migrations |
| Store.VerdictStore.RunMigrations | src/verdict/core/store.py:159-171 | the registered migrations in [current, SCHEMA_VERSION) run in order, the version becomes SCHEMA_VERSION, and no data row changes |
| Store.VerdictStore.SaveAssessment | src/verdict/core/store.py:175-201 | given a new report id and, with a baseline, a new baseline id, the tables become the saved tables of the report; the schema is untouched |
| Store.VerdictStore.SaveFeedback | src/verdict/core/store.py:322-328 | exactly one feedback row is appended; the other tables and the schema are untouched |
| Store.VerdictStore.Prune | src/verdict/core/store.py:348-398 | the counts and the new tables are those of the pruning specification, whose properties are the Prune lemmas above |
| Store.VerdictStore.Stats | src/verdict/core/store.py:402-407 | stats has exactly the four data tables as keys, each mapped to its row count |
| SeraphPipeline.ScoreableExactly | src/seraph/core/engine.py:127-128 | the scored findings are exactly those whose analyzer the tool config does not switch off (a missing entry counts as on) |
| SeraphPipeline.EmptyConfigScoresAll | src/seraph/core/engine.py:121-128 | with an empty tool config every finding is scored, in order |
| SeraphPipeline.AlwaysEvaluatedKept | src/seraph/core/engine.py:87-146 | static, sentinel_risk and co_change are always evaluated; apart from them only baseline, mutation and security can be |
| SeraphPipeline.EvaluatedExactly | src/seraph/core/engine.py:90-146 | baseline is evaluated iff it is not skipped, Python files changed and the run returned; mutation iff likewise and it produced results; security iff Python files changed, the run returned and it found something or some tool was available |
| SeraphPipeline.RaisingStepsKeepDefaults | src/seraph/core/engine.py:90-154 | a step that raises leaves its locals at their defaults (no baseline, no findings, a score of 100, empty signals) and its dimension unevaluated |
| SeraphPipeline.StaticScoreAlwaysDefault | src/seraph/core/engine.py:122-131 | the static score stays 100 even when the static run returns, because compute_static_score with a scoring config reads an attribute the config does not have; the findings are still reported |
| SeraphPipeline.EmptyDiffPerfect | src/seraph/core/engine.py:82-85 | a diff with no changed file gives a report with no files, an overall score of 100 and grade A |
| SeraphPipeline.ReportFollowsEvaluated | src/seraph/core/engine.py:159-180 | each of the five report dimensions is marked evaluated exactly when its key is in the evaluated set |
| SeraphPipeline.AssessRaisesOnlyOnRisk | src/seraph/core/engine.py:148-157 | the only exception that escapes assess is compute_risk_score's division by a zero churn divisor, with hot files present |
| SeraphPipeline.MutationScoreRounded | src/seraph/core/engine.py:110-112 | the mutation score passed on is already rounded to one decimal |
| SeraphPipeline.MutateOnlyEvaluatesMutation | src/seraph/core/engine.py:187-234 | mutate_only evaluates at most the mutation dimension, and when it does its overall score is the mutation score |
| SeraphPipeline.MutateOnlyNothingEvaluated | src/seraph/core/engine.py:205-231 | when no mutation results come back nothing is evaluated and the overall score is 100 |
| SeraphPipeline.BuildReportCalled | src/seraph/core/reporter.py:155-172 | a keyword call of build_report raises exactly when a keyword is not among its parameters; otherwise it builds the report |
| SeraphPipeline.AssessAsWrittenRaises | src/seraph/core/engine.py:160-180 | as written every assess raises a TypeError, the empty diff included, and mutate_only passes an undeclared keyword too |
| SeraphPipeline.SeraphEngine.constructor | src/seraph/core/engine.py:46-65 | the engine keeps the scoring section and the two skip flags and has saved nothing |
| SeraphPipeline.SeraphEngine.Assess | src/seraph/core/engine.py:67-185 | the result is the assessment specification's; the evaluated set is every dimension for an empty diff and the steps' set otherwise; a report that is produced is saved once |
| SeraphPipeline.SeraphEngine.RunSteps | src/seraph/core/engine.py:87-154 | steps 2 to 5 produce the locals of the specification |
| SeraphPipeline.SeraphEngine.BaselineStep | src/seraph/core/engine.py:90-99 | the baseline is kept only when it ran and returned, and the score is its baseline score, else 100 |
| SeraphPipeline.SeraphEngine.MutationStep | src/seraph/core/engine.py:101-116 | the mutations are the run's results when it ran and returned, and the score is their mutation score when there are any, else 100 |
| SeraphPipeline.SeraphEngine.StaticStep | src/seraph/core/engine.py:118-131 | the findings and the score are the specification's static run and static score |
| SeraphPipeline.SeraphEngine.SecurityStep | src/seraph/core/engine.py:133-146 | the findings are the security run's when Python files changed and it returned; the dimension counts as run exactly as the specification says |
| SeraphPipeline.SeraphEngine.MutateOnly | src/seraph/core/engine.py:187-234 | the result is the mutate_only specification's, the evaluated set is at most {mutation}, and a produced report is saved once |
| VerdictPipeline.BaselineScoreOf | src/verdict/core/engine.py:159-165 | the engine's baseline score agrees with the reporter's: 100 exactly when no test is flaky, 10 points less per flaky test, 0 from ten flaky tests on |
| VerdictPipeline.BaselineScoreSteps | src/verdict/core/engine.py:164-165 | below the floor, one more flaky test costs exactly 10 points |
| VerdictPipeline.AssessAsWrittenRaises | src/verdict/core/engine.py:88-102 | as written every assess of a non-empty diff raises, because the bridge has no compute_risk_score; the corrected pipeline returns a report whenever the steps before the bridge return |
| VerdictPipeline.AssessRaisesOnlyBeforeBridge | src/verdict/core/engine.py:53-124 | the corrected assess raises exactly when the diff is non-empty and a step before the Sentinel step raises; the risk score itself never raises |
| VerdictPipeline.EmptyDiffPerfect | src/verdict/core/engine.py:67-68 | a diff with no changed file gives a report with no files, an overall score of 100 and grade A |
| VerdictPipeline.SkippedBaselineScoresFull | src/verdict/core/engine.py:70-75 | when the baseline is skipped or no Python file changed there is no baseline and its score is 100 |
| VerdictPipeline.BaselineFromRun | src/verdict/core/engine.py:73-75 | when the baseline runs, the report carries the baseline of the configured test command and run count, scored by _compute_baseline_score, under the id supplied for it |
| VerdictPipeline.StaticScoreBounded | src/verdict/core/engine.py:84-86 | the static score lies in [0, 100], and is 100 with no findings when no Python file changed |
| VerdictPipeline.AllFiveCount | src/verdict/core/engine.py:104-119 | without an evaluated set every one of the five dimensions is evaluated |
| VerdictPipeline.OverallBounded | src/verdict/core/engine.py:104-119 | with a mutation score in [0, 100] and non-negative churn, the overall score lies in [0, 100] |
| VerdictPipeline.ArgsInRange | src/verdict/core/engine.py:70-100 | under the same conditions every dimension score handed to build_report lies in [0, 100] |
| VerdictPipeline.ArgsWithInRange | src/verdict/core/engine.py:84-100 | every dimension score computed from the step results lies in [0, 100] |
| VerdictPipeline.MutateOnlyWithoutPython | src/verdict/core/engine.py:133-138 | mutate_only with no Python file runs no mutation, scores the empty list and still marks the mutation dimension evaluated |
| VerdictPipeline.VerdictEngine.constructor | src/verdict/core/engine.py:34-51 | the engine keeps its store and its settings |
| VerdictPipeline.VerdictEngine.Assess | src/verdict/core/engine.py:53-124 | given a new report id and, when the baseline runs, a new baseline id, the result is the assessment specification's; a report of a non-empty diff is saved and the empty report is not; the bridge is opened exactly when the steps before it return, and is closed afterwards |
| VerdictPipeline.VerdictEngine.PrepareArgs | src/verdict/core/engine.py:62-102 | steps 2 to 5 produce the specification's report arguments, and the bridge exists exactly when they get that far |
| VerdictPipeline.VerdictEngine.BaselineStep | src/verdict/core/engine.py:70-75 | the baseline step is the specification's |
| VerdictPipeline.VerdictEngine.SentinelStep | src/verdict/core/engine.py:88-102 | the signals, the risk score and the co-change score are the specification's, and the bridge is closed at the end |
| VerdictPipeline.VerdictEngine.MutateOnly | src/verdict/core/engine.py:126-157 | the result is the mutate_only specification's, and a produced report is saved |
| Formatters.Truncate | src/verdict/mcp/formatters.py:118-122 | text within the 16,000-character budget is returned unchanged; longer text keeps its first 15,950 characters and ends with the truncation notice; the result never exceeds the budget |
| Formatters.TruncateIdempotent | src/verdict/mcp/formatters.py:118-122 | truncating twice is truncating once |
| Formatters.TruncateKeepsPrefix | src/verdict/mcp/formatters.py:118-122 | the output is the whole text, or starts with the text's first 15,950 characters when the text was too long |
| Formatters.CappedShape | src/verdict/mcp/formatters.py:42-45 | a capped list has at most cap + 1 lines: all lines when they fit, else the first `cap` followed by "- ... and N more" for the N left out |
| Formatters.ListCapped | src/verdict/mcp/formatters.py:42-45 | the loop builds exactly the capped list |
| Formatters.Bullets | src/verdict/mcp/formatters.py:34-35 | one "- " line per item, in order |
| Formatters.MissingEvaluatedIsTrue | src/verdict/mcp/formatters.py:21 | a dimension without an evaluated key is shown as an evaluated one |
| Formatters.DimensionLines | src/verdict/mcp/formatters.py:20-27 | one line per dimension, in order |
| Formatters.ListDimensions | src/verdict/mcp/formatters.py:19-28 | the loop builds exactly the dimension lines |
| Formatters.ListGaps | src/verdict/mcp/formatters.py:30-36 | the loop builds exactly the gap section, which is empty without gaps |
| Formatters.FormatAssessment | src/verdict/mcp/formatters.py:9-51 | the output is the truncated, newline-joined header, dimension, gap, file and footer lines |
| Formatters.FileSectionCapped | src/verdict/mcp/formatters.py:38-46 | the file section has at most 23 lines: none without files, every file when there are at most 20, else the first 20 followed by "- ... and N more" |
| Formatters.HistoryLines | src/verdict/mcp/formatters.py:66-77 | one line per assessment, in order |
| Formatters.ListHistory | src/verdict/mcp/formatters.py:66-77 | the loop builds exactly the history lines |
| Formatters.FormatHistory | src/verdict/mcp/formatters.py:54-79 | the output is the history text, and "No assessments found." for an empty list |
| Formatters.OnlyMissingIsUnknown | src/verdict/mcp/formatters.py:68-69 | the mutation shows "?%" exactly when its score is missing, and static shows "? issues" exactly when its count is missing |
| Formatters.ZeroIssuesShown | src/verdict/mcp/formatters.py:69 | a count of zero issues is shown as "0 issues", not as unknown |
| Formatters.LineText | src/verdict/mcp/formatters.py:105 | the line number shows "?" exactly when it is missing or zero |
| Formatters.MutationLines | src/verdict/mcp/formatters.py:104-105 | one line per mutation, in order |
| Formatters.Title | src/verdict/mcp/formatters.py:103 | a status title is its value with the first letter upper-cased |
| Formatters.StatusOrderSorted | src/verdict/mcp/formatters.py:102 | the status order lists every status, with their values strictly ascending, as sorted() orders the groups |
| Formatters.GroupByStatus | src/verdict/mcp/formatters.py:96-100 | the map has exactly the statuses that occur, each mapped to its mutations in their order |
| Formatters.ListGroup | src/verdict/mcp/formatters.py:103-108 | the loop builds exactly the group's lines |
| Formatters.ListSections | src/verdict/mcp/formatters.py:102-108 | the sections follow the status order |
| Formatters.FormatMutations | src/verdict/mcp/formatters.py:82-110 | the output is the mutation text, and "No mutation results. Score: 100%" for no mutations |
| Formatters.GroupsPartition | src/verdict/mcp/formatters.py:96-100 | the five status groups together hold every mutation exactly once |
| Formatters.GroupExactly | src/verdict/mcp/formatters.py:98-100 | a group holds exactly the mutations of its status |
| Formatters.GroupCapped | src/verdict/mcp/formatters.py:103-107 | a group section has at most 13 lines: the title, its first ten mutations, then "- ... and N more" when there are more |
| Formatters.FeedbackResponse | src/verdict/mcp/formatters.py:113-115 | the confirmation starts with "Feedback recorded: " and the outcome, and ends with the first eight characters of the id |

## Left out

- Numbers.Round1: Python's `round(x, 1)` on binary floats rounds half to
  even on the float's exact value. The model rounds half up on reals. Exact
  printed outputs such as 90.9 are not modelled, and the lemmas state only
  what holds for both roundings.
- Floating point in general: scores are reals, and how a float or a
  timestamp prints in a formatter is a `Renderer` parameter.
- Subprocesses (git, pytest, mutmut, ruff, mypy, bandit, semgrep,
  detect-secrets) are inputs: their output text, a timeout or a missing
  tool. Their argument lists are not modelled, apart from pytest's "-v".
- The JSON decoder is not modelled. Decoded documents are datatypes with
  optional fields. `to_dict`/`to_json` of the report and the JSON columns of
  the store are not modelled either.
- Regular expressions and glob matching are predicates supplied by the
  caller: the CWE-259 false-positive pattern, the benign-random patterns,
  `fnmatch`/`PurePath.match`, and a pitfall's `code_pattern`. The diff
  header and hunk patterns are hand-coded.
- Path resolution and `to_relative` are functions supplied by the caller.
  File existence and the config-file contents read by `detect_tool_config`
  are boolean inputs.
- `uuid4` ids and the clock are parameters. Timestamps are integers, and the
  retention cutoff is an integer timestamp.
- Case mapping (`lower`/`upper`) and `isdigit` follow ASCII only. Whitespace
  for `strip`/`split` and line breaks for `splitlines` follow Python's full
  sets, non-ASCII space and line-separator code points included.
- Config.Coerce: `float("inf")`, `"infinity"` and `"nan"` are not modelled:
  a real has no infinity or NaN, so the model returns None where Python
  returns a float. Overflow of a large literal to infinity, rounding to the
  nearest double, and non-ASCII digits are not modelled either.
- Bridge.SentinelBridge.GetRiskSignals: the answers of a store whose
  `open()` failed are inputs like those of an opened one. Exceptions its
  queries may raise are not modelled.
- `_parse_from_cache` in `src/seraph/core/mutator.py` reads mutmut's SQLite
  cache. The cached results are an input.
- Mutator.MutateSingleFile: the choice between the cache and `mutmut
  results` is an input, because it depends on the cache file on disk.
- `seraph`'s `mutation_tool_available` and `tool_config` are computed by
  the engine but never reach the report, because `build_report` does not
  accept them (see Findings).
- `compute_security_score` is imported by `src/seraph/core/engine.py` but
  missing from `src/seraph/core/reporter.py`. As written, importing the
  engine fails. The model keeps the engine and leaves out the security
  score: only the "security" membership of the evaluated set is modelled.
  The sixth "Security" dimension is not part of the shown reporter and is
  not modelled.
- `seraph`'s `compute_static_score` reads `scoring.static_issue_scale_factor`,
  which `ScoringConfig` does not define. With a config and at least one
  file it raises. The model keeps that error: the engine catches it, so the
  static score stays 100 (SeraphPipeline.StaticScoreAlwaysDefault).
- `seraph`'s security step reads `self._config.security`, which
  `SeraphConfig` does not define. The step's outcome is an input, so the
  step may raise or return.
- The `seraph` baseline, bridge and store the engine calls are not part of
  this model. Their calls are step outcomes, and the saved reports are
  recorded in a field.
- `verdict`'s mutator module is not part of this model. Its results and
  `compute_mutation_score` are inputs to the `verdict` engine.
- VerdictPipeline.VerdictEngine.Assess: `get_risk_signals` returns a
  `SentinelSignals`, but the engine calls `.get` on it. The corrected
  pipeline uses the returned signals directly.
- `verdict`'s `AnalyzerType` has only RUFF and MYPY. The security scanners'
  analyzer names are a separate datatype in the security module.
- Sentinel's `KnowledgeStore` and the file reads in `_match_pitfalls` are
  functions supplied by the caller. An import failure is a store that is
  absent.
- Store.VerdictStore.Open: the SQL text, WAL, `PRAGMA`, `VACUUM`, closing,
  and the RuntimeError of an unopened store are not modelled. The model is
  the store while it is open. A non-numeric stored schema version is not
  modelled.
- Store.VerdictStore.SaveAssessment, Store.VerdictStore.SaveFeedback,
  VerdictPipeline.VerdictEngine.Assess, VerdictPipeline.VerdictEngine.MutateOnly:
  SQLite's primary-key and foreign-key checks raise IntegrityError. The
  model states them as preconditions instead: a fresh report id, a fresh
  baseline id when a baseline is saved, a fresh feedback id, and a
  feedback's assessment that exists.
- Store.Assessments: rows with equal `created_at` stay in insertion order.
  SQLite leaves their order unspecified. A negative LIMIT means no limit,
  and a negative OFFSET is treated as 0.
- `get_mutations` is not modelled as a query. The mutation rows are stored
  and stated by Store.SaveAddsRows. Their row `id` and `created_at` columns
  are not modelled.
- `tests/core/test_baseline.py` imports `_parse_test_failures`, which
  `src/verdict/core/baseline.py` does not define (it has
  `_parse_pytest_failures`). The model follows the source.
- The CLIs, the MCP servers and the logging setup are outside the core.

## Findings

| source | as written | input that shows it | evidently intended | confidence | as-written member | corrected member |
|---|---|---|---|---|---|---|
| src/seraph/core/engine.py:160-180 | `assess` passes `security_score`, `security_findings`, `mutation_tool_available` and `tool_config` to `build_report`, whose keyword parameters (src/seraph/core/reporter.py:155-172) do not include them; `_empty_report` and `mutate_only` pass `mutation_tool_available` | any call of `assess`, including an empty diff: TypeError before the report is saved | `build_report` is called with its declared parameters, and the report is saved | not executed | SeraphPipeline.AssessAsWrittenRaises | SeraphPipeline.SeraphEngine.Assess |
| src/verdict/core/engine.py:92-93 | the Sentinel step calls `bridge.compute_risk_score` and `bridge.compute_co_change_score`, which `SentinelBridge` (src/verdict/core/bridge.py) does not define | any diff with a changed file whose earlier steps return: AttributeError, so nothing is saved | the reporter's `compute_risk_score` and `compute_co_change_score` (src/verdict/core/reporter.py) are applied to the signals | not executed | VerdictPipeline.AssessAsWrittenRaises | VerdictPipeline.VerdictEngine.Assess |
