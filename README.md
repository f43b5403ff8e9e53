# Paracetamol / Paracestamol in Dafny

A model of the core of Paracetamol, a tool that runs the tests of a Codeception project
in parallel processes. The model also covers Paracestamol, the orchestrator's newer form.
The model proves what the orchestration promises. A run loads the cests and test methods
of a project. It places each test in one of five phases:

- serial before;
- parallel before;
- main;
- parallel after;
- serial after.

Each parallel phase is split into one queue per process. Lanes run the queues, failed
tests are rerun up to the configured count, and the durations go to the statistics
service. At the end a sorted report of the tests that never passed is printed.

What is modelled, file by file:

- `paracestamol_run.dfy` (`ParacestamolRun`): both orchestrators as one class
  `Orchestrator`, with a variant switch for the older `ParacetamolRun`. Each PHP method
  is a spec function; the class methods are proved against them. Lemmas state:
  - the rerun loops' results and bounds;
  - the phase order of the runs;
  - the bucketing into five phases;
  - the sort of the serial phases;
  - the failure report;
  - the statistics that are sent;
  - the early stops of `execute`.
- `partitioner.dfy` (`Partitioner`), `partition_algorithms.dfy` (`PartitionAlgorithms`),
  `karmarkar_karp.dfy` (`KarmarkarKarp`), `priority_queues.dfy` (`PriorityQueues`):
  - the simple (by count) and statBased (by expected duration) partitioning;
  - smartPartition's choice between the greedy and the k-way Karmarkar–Karp algorithm;
  - `Ds\PriorityQueue` pop order;
  - the long-test note.
  Every algorithm keeps the multiset of tests and returns the requested number of queues.
- `runner_core.dfy` (`RunnerCore`) and `runner.dfy` (`Runner`): one lane's ticking state
  machine, generic over the unit it runs.
- `delayer.dfy` (`Delayer`): spacing of test starts.
- `supervisor.dfy` (`Supervisor`): the sweeps of RunnersSupervisor. This covers result
  collection, continuous rerun, moving backlog to a free process, and exploding and
  imploding cluster cests.
- `wrapper.dfy` (`Wrapper`) and `units.dfy` (`Units`): the test and cest wrappers and the
  cluster cest wrapper. They are held in one table keyed by an `Id`, so a wrapper shared by
  a cluster and a lane stays one object. The cest wrapper reads its results from a JSON
  log; the source only half makes that move, and "## Left out" says how the model finishes it.
- `loader.dfy` (`Loader`) and `test_name_parts.dfy` (`TestNameParts`): turning parsed cests
  into units to run, with the skip, immune, only-tests and group filters, and the
  classification of configured names into tests, cests and paths.
- `test_record.dfy` (`TestRecord`), `json_log_parser.dfy` (`JsonLogParser`),
  `test_case_record.dfy` (`TestCaseRecord`): the JSON and JUnit XML log records.
- `settings.dfy` (`Settings`): SettingsRun, its defaults, setters and computed values.
- `run_command.dfy` (`RunCommand`): the `run` command's settings-file lookup, its
  resolutions and its exit status.
- `command_params.dfy` (`CommandParams`): how console options reach their setters.
- `codeception_parsers.dfy` (`CodeceptionParsers`): the override YAML, the env names and
  merging, the tests path and the vendor search of the two Codeception parser traits.
- `basics.dfy`, `strings.dfy`, `text_helper.dfy`, `class_helper.dfy`: nullable values and
  exceptions, and the PHP string built-ins the code uses, over `seq<char>`.

## Model

| member | source | states |
|---|---|---|
| TextHelper.Collapse | src/Helpers/TextHelper.php:9 | `preg_replace('/\s+/', ' ', …)`: empty exactly for empty input; a leading whitespace run becomes one space, any other first character is kept |
| TextHelper.CollapseSingleSpaced | src/Helpers/TextHelper.php:9 | `preg_replace('/\s+/', ' ', …)` is SingleSpaced of the input: every character in order, each maximal run of whitespace replaced by exactly one space |
| TextHelper.StripShape | src/Helpers/TextHelper.php:7-10 | for a text without NUL characters, `strip` is the text without its leading and trailing whitespace, each inner whitespace run made one space and every other character kept in order |
| TextHelper.TrimLeft | src/Helpers/TextHelper.php:9 | the result is a suffix of the input; everything dropped is a character `trim` removes, and the result does not start with one |
| TextHelper.TrimRight | src/Helpers/TextHelper.php:9 | the result is a prefix of the input; everything dropped is a character `trim` removes, and the result does not end with one |
| TextHelper.StripEdges | src/Helpers/TextHelper.php:7-10 | `strip` gives a text that neither starts nor ends with whitespace or with a character `trim` removes |
| TextHelper.StripSingleSpaces | src/Helpers/TextHelper.php:7-10 | all whitespace left by `strip` is single spaces, never two in a row |
| TextHelper.StripIdempotent | src/Helpers/TextHelper.php:7-10 | stripping a stripped text changes nothing |
| TextHelper.StripBlank | src/Helpers/TextHelper.php:7-10 | an empty or all-whitespace text strips to '' |
| TextHelper.StripKeepsNonSpaces | src/Helpers/TextHelper.php:7-10 | without NUL characters, the non-whitespace characters survive `strip` unchanged and in order |
| ClassHelper.ShortNameAfterLastBackslash | src/Helpers/ClassHelper.php:8-11 | with a backslash in the name, the short name is exactly the text after the last backslash |
| ClassHelper.ShortNameOfNamespace | src/Helpers/ClassHelper.php:8-11 | a name ending in a backslash has the empty short name |
| ClassHelper.ShortNameWithoutNamespace | src/Helpers/ClassHelper.php:8-11 | without a backslash, `strrpos` gives false, `false + 1` is 1, and the short name is the name minus its first character |
| TestRecord.FromRawDefaults | src/Helpers/JsonLogParser/Records/TestRecord.php:21-27 | absent keys give '' for title, status and message and 0 for the time |
| TestRecord.FromRawStatus | src/Helpers/JsonLogParser/Records/TestRecord.php:28-65 | only an 'error' record whose first trace step is `markTestSkipped` becomes 'skipped'; every other record keeps its logged status |
| TestRecord.GetMethodIsLastToken | src/Helpers/JsonLogParser/Records/TestRecord.php:42-51 | getMethod holds no space, ends the title, and unless it is the whole title it follows a space: the last space-separated token |
| JsonLogParser.ParseLogKeys | src/Helpers/JsonLogParser/JsonLogParser.php:21-39 | the map's keys are exactly the titles of the records whose event is 'test'; all other records, including those without an event, are ignored |
| JsonLogParser.ParseLogLastWins | src/Helpers/JsonLogParser/JsonLogParser.php:35-39 | a title maps to the record built from its last 'test' event (`Map::put` overwrites) |
| JsonLogParser.ParseLogKeyOrder | src/Helpers/JsonLogParser/JsonLogParser.php:35-39 | the keys built from a prefix of the log are a prefix of the final keys: a title keeps the position of its first 'test' event (`Map::put` on an existing key keeps its place) |
| JsonLogParser.New | src/Helpers/JsonLogParser/JsonLogParser.php:12-33 | the constructor and parseLog's loop build the map ParseLog specifies, or throw the decoding error |
| JsonLogParser.ParseEdges | src/Helpers/JsonLogParser/JsonLogParser.php:12-19 | an empty log gives the empty map and malformed text throws |
| TestCaseRecord.ParseMessage | src/Helpers/XmlLogParser/Records/TestCaseRecord.php:78-104 | parseMessage's loop returns the message Message specifies: '' for an empty text, otherwise the stripped lines after the first, up to the first blank one, joined with spaces |
| TestCaseRecord.KeepLines | src/Helpers/XmlLogParser/Records/TestCaseRecord.php:91-101 | the loop keeps exactly the stripped lines before the first one that strips to '' |
| TestCaseRecord.KeptLinesStripped | src/Helpers/XmlLogParser/Records/TestCaseRecord.php:91-101 | every kept line is the stripped, non-empty form of an input line at the same position |
| TestCaseRecord.KeptLinesStop | src/Helpers/XmlLogParser/Records/TestCaseRecord.php:95-98 | nothing after the first line that strips to '' is kept |
| TestCaseRecord.TakeNonEmptyAt | src/Helpers/XmlLogParser/Records/TestCaseRecord.php:91-101 | each kept line is the line at the same position and is not empty |
| TestCaseRecord.TakeNonEmptyStop | src/Helpers/XmlLogParser/Records/TestCaseRecord.php:95-98 | when fewer lines are kept than given, the first line not kept is empty |
| TestCaseRecord.MessageSingleLine | src/Helpers/XmlLogParser/Records/TestCaseRecord.php:78-104 | a parsed message holds no line break |
| TestCaseRecord.StatusChild | src/Helpers/XmlLogParser/Records/TestCaseRecord.php:52-73 | the index found is the first child named failure, error or skipped; None means no child has one of those names |
| TestCaseRecord.FindStatusChild | src/Helpers/XmlLogParser/Records/TestCaseRecord.php:52-73 | parseStatus' loop over the children returns the index StatusChild specifies: the first failure, error or skipped child, or none |
| TestCaseRecord.New | src/Helpers/XmlLogParser/Records/TestCaseRecord.php:21-76 | the constructor and parseStatus, with their early returns, build the record or the LogParserException FromNode specifies |
| TestCaseRecord.FromNodeBasics | src/Helpers/XmlLogParser/Records/TestCaseRecord.php:23-49 | a missing name raises LogParserException; a built record has the node's name and its time or 0; a childless node passes |
| TestCaseRecord.FromNodeStatus | src/Helpers/XmlLogParser/Records/TestCaseRecord.php:52-75 | the first status child decides the status; failure and error carry its parsed text, skipped carries none |
| TestNameParts.NormalizeNullIff | src/Helpers/TestNameParts.php:92-99 | normalizeTestName gives null exactly when the name holds no ".php:" |
| TestNameParts.NormalizeShape | src/Helpers/TestNameParts.php:101-104 | the normalised name is the text up to and including the first ".php:" unchanged, followed by the rest lower-cased |
| TestNameParts.NormalizeIdempotent | src/Helpers/TestNameParts.php:92-105 | normalising a normalised name changes nothing |
| TestNameParts.ClassifyMembers | src/Helpers/TestNameParts.php:23-38 | tests hold the normalised form of every string with ".php:"; cests hold the other strings ending in ".php"; paths hold all remaining strings |
| TestNameParts.ClassesDisjoint | src/Helpers/TestNameParts.php:23-38 | no entry is in two of the three sets |
| TestNameParts.New | src/Helpers/TestNameParts.php:17-41 | the constructor's loop builds the classification Classify specifies and keeps the strings |
| TestNameParts.MatchesTestNeedsSeparator | src/Helpers/TestNameParts.php:63-72 | without a method name, a name with no ".php:" (normalised to null) never matches a test |
| TestNameParts.Subpaths | src/Helpers/TestNameParts.php:107-125 | there is exactly one candidate per '/'-separated component of the path |
| TestNameParts.GetSubpaths | src/Helpers/TestNameParts.php:107-125 | the implode-and-pop loop returns the component prefixes joined with '/', longest first, and the path alone when it has one component |
| TestNameParts.MatchesPath | src/Helpers/TestNameParts.php:79-90 | matchesPath is true exactly when the configured paths contain the path or one of its component prefixes |
| TestNameParts.PathMatchesItself | src/Helpers/TestNameParts.php:79-125 | a configured path matches itself; a single-component path matches only when it is configured |
| Settings.SettingsRun.constructor | src/Settings/SettingsRun.php:18-76 | a new settings object holds the declared defaults, among them the module name Paracestamol\Module\ParacestamolHelper |
| Settings.DefaultValues | src/Settings/SettingsRun.php:19-76 | no reruns, continuous rerun on, delay -1 ms, 10 requests per second, the 'tests' cest wrapper, fast cest rerun and whole-cest fail-fast on, 500 rows per bulk, adaptive delay on, helper module off, no groups, and the default module name is the Paracestamol helper class, not the Paracetamol class the run command looks for |
| Settings.TickFrequencyUs | src/Settings/SettingsRun.php:107 | the tick period is 0 for a zero delay, and five periods make the delay in microseconds |
| Settings.TickFrequencyIsTwoHundredTimes | src/Settings/SettingsRun.php:107 | `ceil(m * 1000 / 5)` is exactly 200·m microseconds, so the ceiling never rounds |
| Settings.SettingsRun.SetDelayMsec | src/Settings/SettingsRun.php:103-108 | the delay in milliseconds, the delay in seconds (a thousandth of it) and the tick period change together, and nothing else |
| Settings.SettingsRun.SetCestWrapper | src/Settings/SettingsRun.php:110-118 | 'tests', 'cest_rerun_whole' and 'cest_rerun_failed' are stored; any other name throws UsageException "Unknown cest wrapper: …" and changes nothing |
| Settings.SettingsRun.GetEnvAsString | src/Settings/SettingsRun.php:78-86 | the first call caches the env list joined with ','; later calls return the cached text |
| Settings.SettingsRun.GetOverrideAsString | src/Settings/SettingsRun.php:88-96 | the first call caches the override list joined with ','; later calls return the cached text |
| Settings.EnvCacheSticks | src/Settings/SettingsRun.php:78-86 | once the env text has been read, a later setEnv does not change it; before the first read it is the new list joined with ',' |
| Settings.OverrideCacheSticks | src/Settings/SettingsRun.php:88-96 | once the override text has been read, a later setOverride does not change it |
| Settings.SettingsRun.SetGroups | src/Settings/SettingsRun.php:98-101 | the groups become a set holding the first occurrence of each given group, in order |
| Settings.SettingsRun.SetEnv | src/Settings/SettingsRun.php:307-310 | only the env list changes |
| Settings.SettingsRun.SetOverride | src/Settings/SettingsRun.php:217-220 | only the override list changes |
| Settings.SettingsRun.SetSkipReruns | src/Settings/SettingsRun.php:277-280 | only the skip-reruns list changes |
| Settings.SettingsRun.GetSkipReruns | src/Settings/SettingsRun.php:605-608 | returns the stored skip-reruns list |
| Settings.SettingsRun.SetAdaptiveDelay | src/Settings/SettingsRun.php:142-145 | only the adaptive-delay switch changes |
| Settings.SettingsRun.SetProjectName | src/Settings/SettingsRun.php:207-210 | only the project name changes |
| Settings.SettingsRun.SetRunOutputPath | src/Settings/SettingsRun.php:297-300 | only the run output path changes |
| Settings.SettingsRun.SetModuleEnabled | src/Settings/SettingsRun.php:347-350 | only the helper-module switch changes |
| Settings.SettingsRun.SetModuleName | src/Settings/SettingsRun.php:362-365 | only the helper-module name changes |
| Settings.SettingsRun.SetMaxRunDuration | src/Settings/SettingsRun.php:212-215 | only the maximum run duration changes |
| Settings.SettingsRun.SetTestDurationStats | src/Settings/SettingsRun.php:257-270 | only the minimum, median and maximum test durations change, to the given values |
| Settings.SettingsRun.SetTestsPath | src/Settings/SettingsRun.php:167-170 | only the tests path changes |
| Settings.SettingsRun.SetOutputPath | src/Settings/SettingsRun.php:177-180 | only the output path changes |
| Delayer.Delayer.constructor | src/Test/Delayer.php:13-18 | a new delayer shares the settings and has next-allowed time -1 |
| Delayer.Delayer.AllowsTestStart | src/Test/Delayer.php:20-40 | the answer and the new next-allowed time are those of Step for the configured delay in seconds and the three clock readings of the call: the one stored on the first call, the one compared and the one the next time is counted from |
| Delayer.NoDelayAllows | src/Test/Delayer.php:22-25 | with a delay of at most 0, every call says yes and remembers nothing |
| Delayer.FirstCallRule | src/Test/Delayer.php:27-39 | with a positive delay and a clock that does not go back, the first call stores its first reading and says yes exactly when the compared reading is later; a yes sets the next-allowed time to the last reading plus the delay, a no leaves the stored reading |
| Delayer.DelayedAnswer | src/Test/Delayer.php:32-39 | with a positive delay and a stored time, the answer is no exactly when the compared reading is at or before it, leaving it unchanged; a yes moves it to the last reading plus the delay |
| Delayer.Answers | src/Test/Delayer.php:20-40 | a series of calls gives one answer per clock reading |
| Delayer.AllowedAfterNext | src/Test/Delayer.php:27-39 | with a positive delay and a clock that reads no negative time and does not go back within a call, a start is allowed only when its compared reading is strictly past the stored time |
| Delayer.AllowedStartsSeparated | src/Test/Delayer.php:32-39 | with a positive delay, a later allowed start compares a reading more than the delay past the last reading of an earlier allowed start, however the clock moves between calls, as long as it reads no negative time and does not go back within a call |
| RunnerCore.NewRunner | src/Test/Runner.php:25-34 | a new lane holds its queue, no current test, empty failed and timed-out queues and an empty passed map |
| RunnerCore.TickDone | src/Test/Runner.php:38-43 | ticking returns false exactly when there is no current test and the queue is empty, and then nothing changes |
| RunnerCore.TickStart | src/Test/Runner.php:45-51 | an idle lane with a queue asks the delayer once; on yes it pops the head and starts it, on no the lane is untouched; either way it returns true and the outputs stay the same |
| RunnerCore.TickRunning | src/Test/Runner.php:54-57 | while the current test reports running, ticking returns true and the lane is unchanged |
| RunnerCore.TickFinished | src/Test/Runner.php:59-84 | a finished test is checked for success before timeout: a pass is stored under its name with its actual duration (overwriting an earlier pass of that name), else it is appended to timed-out if it timed out, else to failed; the lane becomes idle with its queue untouched |
| RunnerCore.TickPending | src/Test/Runner.php:38-84 | each tick keeps the pending tests (current then queue) or removes the first one, which lands in exactly one output: tests run one at a time in FIFO order |
| Runner.Runner.constructor | src/Test/Runner.php:25-34 | the lane's fields are those of NewRunner over the given queue |
| Runner.Runner.Ticking | src/Test/Runner.php:36-87 | one call of ticking changes the lane, the units and the shared delayer's next-allowed time exactly as Tick specifies, and returns Tick's answer |
| Runner.Runner.PopQueue | src/Test/RunnersSupervisor.php:181-186 | popQueue, which the supervisor calls but the shown Runner lacks: returns the head of the queue and removes it, changing nothing else |
| Runner.Runner.SetLabel | src/Test/RunnersSupervisor.php:188-192 | setLabel, which the supervisor calls but the shown Runner lacks: only the label changes |
| Wrapper.NewLeaf | src/Test/CodeceptWrapper/AbstractCodeceptWrapper.php:35-48 | the test name keeps the method's case, the stored method name is lower-cased |
| Wrapper.Filter | src/Test/CodeceptWrapper/Wrapper/CestWrapper.php:48 | the intersection keeps exactly the actual groups that are also expected |
| Wrapper.PassedOf | src/Test/CodeceptWrapper/Wrapper/CestWrapper.php:192-202 | no more passed records than records |
| Wrapper.FailedOf | src/Test/CodeceptWrapper/Wrapper/CestWrapper.php:192-202 | no more failed records than records |
| Wrapper.FailureLines | src/Test/CodeceptWrapper/Wrapper/CestWrapper.php:241-254 | at most one message line per failed record |
| Wrapper.ParseFailedTestsLoop | src/Test/CodeceptWrapper/Wrapper/CestWrapper.php:183-203 | parseFailedTests' loop appends the passed records to the passed list and all others to the failed list, as ParseFailedTests specifies; without a log nothing is recorded |
| Wrapper.FailureLinesLoop | src/Test/CodeceptWrapper/Wrapper/CestWrapper.php:241-256 | the message loop builds the lines FailureLines specifies, skipping empty messages |
| Wrapper.IdentityKeepsCase | src/Test/CodeceptWrapper/AbstractCodeceptWrapper.php:41-43 | the hash is "cest:method" in the original case, the stored method name is lower-case, and equality compares hashes |
| Wrapper.CestName | src/Test/CodeceptWrapper/Wrapper/CestWrapper.php:41-54 | without expected groups the name is "()"; otherwise it is "(" + the common groups, sorted byte-wise and joined with ',', + ")" and the common groups are exactly the actual groups that are expected |
| Wrapper.TestCmdShape | src/Test/CodeceptWrapper/Wrapper/TestWrapper.php:11-39 | argv is php, the binary, 'run', the suite, "cest:^method$" with the lower-cased method, the fixed options, then '--env' and '-o' pairs only for a non-empty env and override |
| Wrapper.CestCmdShape | src/Test/CodeceptWrapper/Wrapper/CestWrapper.php:66-111 | argv starts php, the binary, 'run', the suite, the cest; '--fail-fast' follows the fixed options exactly when the wrapper fails fast; the group, env, module and override pairs are present exactly when set, the override last |
| Wrapper.FailFastRule | src/Test/CodeceptWrapper/Wrapper/ClusterCestWrapper/BombletCestWrapper.php:9-12 | a bomblet cest never fails fast; otherwise an explicit flag wins over the whole-cest-fail-fast setting (lines 125-128 of CestWrapper.php) |
| Wrapper.PollNeverStarted | src/Test/CodeceptWrapper/AbstractCodeceptWrapper.php:112-117 | a wrapper that was never started is not running and a poll changes nothing |
| Wrapper.TimeoutSticky | src/Test/CodeceptWrapper/AbstractCodeceptWrapper.php:137-149 | once a timeout was seen, every poll reports not running and keeps the flag; the next start clears it |
| Wrapper.TimeoutStopsRun | src/Test/CodeceptWrapper/AbstractCodeceptWrapper.php:119-122 | a poll that sees the idle timeout ends the run and marks it timed out |
| Wrapper.Handshake | src/Test/CodeceptWrapper/Wrapper/CestWrapper.php:151-181 | "Y\n" is written only with the helper module on, a non-zero delay, the prompt seen (or a refusal pending) and the delayer's consent; a refusal sets the waiting flag; a run always reports running |
| Wrapper.PassedFailedSplit | src/Test/CodeceptWrapper/Wrapper/CestWrapper.php:192-202 | the passed and failed records together are a permutation of the records; every passed one has status pass and no failed one has |
| Wrapper.ParseFailedTestsSplits | src/Test/CodeceptWrapper/Wrapper/CestWrapper.php:183-203 | parseFailedTests appends to both lists, and each parsed record lands in exactly one: passed ones in the passed list, every other status, skipped included, in the failed list |
| Wrapper.PollKeepsKind | src/Test/CodeceptWrapper/AbstractCodeceptWrapper.php:112-135 | a poll keeps the kind of the wrapper, its cest name, its hash and its expected duration |
| Wrapper.SuccessRules | src/Test/CodeceptWrapper/Wrapper/TestWrapper.php:41-63 | a test succeeded iff it has a log with a case, its process succeeded and the first case passed; it is marked skipped iff the first case is skipped, whatever the exit status; a cest succeeded iff it has a log, its process succeeded and nothing failed (lines 205-218 of CestWrapper.php), and is never marked skipped |
| Wrapper.ActualDurationMemo | src/Test/CodeceptWrapper/AbstractCodeceptWrapper.php:210-218 | the actual duration is null before a start; after a start it is last output time − start time, and the first read fixes it |
| Wrapper.CestStatusPriority | src/Test/CodeceptWrapper/Wrapper/CestWrapper.php:220-260 | TIMEOUT wins, then BROKEN with the stripped error output, then the first failure "(and following)" when failing fast, then the newline-joined non-empty failure messages; the value is stored |
| Wrapper.StatusMemo | src/Test/CodeceptWrapper/Wrapper/CestWrapper.php:222-259 | a non-empty description is returned without recomputation |
| Wrapper.TestStatusRule | src/Test/CodeceptWrapper/Wrapper/TestWrapper.php:65-82 | a test's description is its first case's message when the log has a case, else the stripped error output |
| Wrapper.MatchPriority | src/Test/CodeceptWrapper/AbstractCodeceptWrapper.php:173-198 | the match is the test's name on a test match, else the cest name on a cest match, else the directory on a path match; matches iff there is a match |
| Wrapper.ResetAndClone | src/Test/CodeceptWrapper/AbstractCodeceptWrapper.php:58-68 | reset forgets the process, the timings, the timeout, the status and the logs, keeps the identity and the expected duration, and for a cest empties both record lists and clears the waiting flag (lines 56-64 of CestWrapper.php); a clone (lines 252-257) is reset under a new log name with the same identity |
| Units.AddLeaf | src/Test/CodeceptWrapper/Wrapper/ClusterCestWrapper.php:190-191 | the bomblet test wrapper the factory makes gets the next free reference; every other wrapper is untouched |
| Units.AtLeastOne | src/Test/CodeceptWrapper/Wrapper/ClusterCestWrapper.php:173 | the `> 0 ? … : 1` floor: the result is at least 1 and equals a positive argument |
| Units.AddFailedTests | src/Test/CodeceptWrapper/Wrapper/ClusterCestWrapper.php:185-193 | one new wrapper per failed record, and nothing happens to the cluster table |
| Units.Collect | src/Test/CodeceptWrapper/Wrapper/ClusterCestWrapper.php:119-126 | one output, one error output and one status line per failed test, and no cluster is touched |
| Units.NonEmpty | src/Test/CodeceptWrapper/Wrapper/ClusterCestWrapper.php:128-132 | `array_filter` with the non-empty test keeps exactly the non-empty strings |
| Units.UnitClone | src/Test/CodeceptWrapper/Wrapper/ClusterCestWrapper.php:354-360 | `clone` makes a new object under the next free reference, of the same kind and with the same name |
| Units.SumTimesLoop | src/Test/CodeceptWrapper/Wrapper/ClusterCestWrapper.php:142-145 | the loop adds up the times of the passed records |
| Units.SumDurationsLoop | src/Test/CodeceptWrapper/Wrapper/ClusterCestWrapper.php:150-153 | the loop adds up the inner runner's passed durations, a null one counting as 0 |
| Units.AddFailedTestsLoop | src/Test/CodeceptWrapper/Wrapper/ClusterCestWrapper.php:185-193 | parseFailedTestRecords' loop creates the wrappers AddFailedTests specifies, in record order |
| Units.CollectLoop | src/Test/CodeceptWrapper/Wrapper/ClusterCestWrapper.php:112-135 | collectStrings' loop gathers the strings Collect specifies |
| Units.ImplodeLoopMethod | src/Test/CodeceptWrapper/Wrapper/ClusterCestWrapper.php:317-334 | implode's loop gives the kept children and the durations ImplodeLoop specifies |
| Units.StartRule | src/Test/CodeceptWrapper/Wrapper/ClusterCestWrapper.php:64-77 | start resets the run state and records previousRunFailedTestsCount as the number of remembered failures; without failures it starts the inner cest, otherwise it builds a '(RERUN)' inner runner over exactly those failures; the durations are kept |
| Units.SumTimesAppend | src/Test/CodeceptWrapper/Wrapper/ClusterCestWrapper.php:142-145 | the time of two record lists together is the sum of their times |
| Units.AddFailedTestsFresh | src/Test/CodeceptWrapper/Wrapper/ClusterCestWrapper.php:185-193 | the failed records give consecutive fresh references, each a bomblet test wrapper named after its record's method, and every older wrapper is unchanged |
| Units.FirstRunShape | src/Test/CodeceptWrapper/Wrapper/ClusterCestWrapper.php:84-98 | when the inner cest stops on its first run, the cluster books the durations and appends the new test wrappers, and reports not running |
| Units.ClusterPollFirstRun | src/Test/CodeceptWrapper/Wrapper/ClusterCestWrapper.php:79-98 | a cluster with no inner runner is in its first run, and its poll is the first-run poll (FirstPoll) |
| Units.FirstRunCluster | src/Test/CodeceptWrapper/Wrapper/ClusterCestWrapper.php:84-98 | when the inner cest stops on its first run, the cluster is the first-run update of the stopped cest with the new test wrappers after the earlier failures, and it reports not running |
| Units.FirstRunEnds | src/Test/CodeceptWrapper/Wrapper/ClusterCestWrapper.php:137-154 | after the first run the cluster reports not running, is still in its first run, and actual = actual + the passed records' time |
| Units.FirstRunExpected | src/Test/CodeceptWrapper/Wrapper/ClusterCestWrapper.php:156-175 | after the first run, expected = the inner cest's expected − the passed records' time, at least 1, when the cest's is known, and unchanged otherwise |
| Units.AfterFirstRunFields | src/Test/CodeceptWrapper/Wrapper/ClusterCestWrapper.php:137-183 | updateActualDuration and updateExpectedDuration on the first run change only the two durations as stated, keeping the runner |
| Units.FirstRunFailed | src/Test/CodeceptWrapper/Wrapper/ClusterCestWrapper.php:185-193 | after the first run, the earlier failures stay first and one new test wrapper per failed record follows |
| Units.FreshTestsAt | src/Test/CodeceptWrapper/Wrapper/ClusterCestWrapper.php:185-193 | the k-th new reference is the next free id + k and names a fresh test wrapper for the k-th failed record |
| Units.RerunEnds | src/Test/CodeceptWrapper/Wrapper/ClusterCestWrapper.php:100-109 | on a rerun the cluster runs exactly while its inner runner ticks; when the runner stops, the failures are the runner's failures, hasPassedTestsThisRun is whether it passed anything, and actual grows by its passed durations |
| Units.RerunOutcome | src/Test/CodeceptWrapper/Wrapper/ClusterCestWrapper.php:195-213 | after a rerun: successful iff no failures and no timed-out children; timed out iff no failures but some timed out; never both |
| Units.ExplodableRule | src/Test/CodeceptWrapper/Wrapper/ClusterCestWrapper.php:300-310 | with a positive previous count, explodable iff it was a rerun, failures remain, and `100·failed/previous ≥ 50` in real division |
| Units.ImplodeLoopFrame | src/Test/CodeceptWrapper/Wrapper/ClusterCestWrapper.php:317-334 | implode keeps only some of the children it had and touches no other wrapper, no cluster and no reference counter |
| Units.ImplodeLoopExpected | src/Test/CodeceptWrapper/Wrapper/ClusterCestWrapper.php:326-328 | once a successful child was dropped, the expected duration is at least 1 |
| Units.ImplodeKeepsExactlyFailing | src/Test/CodeceptWrapper/Wrapper/ClusterCestWrapper.php:317-337 | for distinct children, implode keeps exactly those that are not successful |
| Units.ExplodeCopies | src/Test/CodeceptWrapper/Wrapper/ClusterCestWrapper.php:312-315 | explode hands out the failed tests and leaves the cluster as it is |
| Units.CloneRule | src/Test/CodeceptWrapper/Wrapper/ClusterCestWrapper.php:354-360 | a clone is reset, has no failures and a new inner cest with the same name, and keeps the accumulated durations |
| Units.AddFailedTestsAsWritten | src/Test/CodeceptWrapper/Wrapper/ClusterCestWrapper.php:185-193 | the loop as written: the JSON test records have no `getName()`, so the first failed record raises an error; with no failed record nothing changes |
| Units.AsWrittenFailsOnFailures | src/Test/CodeceptWrapper/Wrapper/ClusterCestWrapper.php:185-193 | as written the first-run step fails exactly when the intended step would create a test to rerun |
| PriorityQueues.PushValues | src/Test/Partitioner.php:218-236 | a push adds exactly the new value to what the queue holds |
| PriorityQueues.PushPlace | src/Test/Partitioner.php:218-236 | a push lands after every entry whose priority is at least its own and before every entry whose priority is lower |
| PriorityQueues.PushOrdered | src/Test/Partitioner.php:218-236 | pushing keeps the queue in pop order |
| PriorityQueues.PushMultiset | src/Test/Partitioner.php:218-236 | pushing adds exactly the new entry |
| PriorityQueues.PopIsHighest | src/Test/Partitioner.php:229-231 | pop takes an entry of the highest priority |
| PartitionAlgorithms.ChoiceRule | src/Test/Partitioner.php:195-212 | more than 4096000 values raise UsageException; Karmarkar–Karp is chosen exactly when k·18000−256000 is positive and reached; with at most 14 parts greedy is always chosen |
| PartitionAlgorithms.EmptyLanes | src/Test/Partitioner.php:220-223 | k lanes, each empty with priority 0 |
| PartitionAlgorithms.GreedyStepSmallest | src/Test/Partitioner.php:229-235 | the lane a value goes to has the smallest sum of all lanes |
| PartitionAlgorithms.PushBalanced | src/Test/Partitioner.php:233-235 | pushing a lane with priority minus its sum keeps every lane's priority equal to minus its sum and the queue in pop order |
| PartitionAlgorithms.PushMass | src/Test/Partitioner.php:233-235 | pushing a lane adds exactly its values |
| PartitionAlgorithms.GreedyStepBalanced | src/Test/Partitioner.php:229-235 | one step keeps the lanes balanced and their number unchanged |
| PartitionAlgorithms.GreedyStepMass | src/Test/Partitioner.php:229-235 | one step adds exactly the value taken |
| PartitionAlgorithms.GreedyLoopShape | src/Test/Partitioner.php:227-236 | the loop fails exactly when a value is left and there is no lane; otherwise it keeps the number of lanes and their balance |
| PartitionAlgorithms.GreedyLoopMass | src/Test/Partitioner.php:227-236 | the lanes end up holding the starting lanes' values plus every input value |
| PartitionAlgorithms.EmptyLanesRule | src/Test/Partitioner.php:220-223 | the empty lanes are balanced and hold nothing |
| PartitionAlgorithms.GreedyFails | src/Test/Partitioner.php:214-239 | greedy throws exactly when there are values but k is at most 0 (popping an empty queue) |
| PartitionAlgorithms.GreedyPartitions | src/Test/Partitioner.php:214-239 | greedy returns max(k, 0) lanes whose values together are exactly the input values |
| PartitionAlgorithms.GreedySorted | src/Test/Partitioner.php:214-239 | the lanes come out in increasing order of their sums |
| PartitionAlgorithms.GreedyMethod | src/Test/Partitioner.php:214-239 | the method with the queue held in a local sequence returns what GreedySpec specifies, including the underflow exception |
| PartitionAlgorithms.EmptyLanesMethod | src/Test/Partitioner.php:220-223 | greedy's first loop leaves max(k, 0) empty lanes of priority 0 |
| KarmarkarKarp.Load | src/Test/Partitioner.php:255-262 | loading adds one one-id tuple to the heap per value |
| KarmarkarKarp.Round | src/Test/Partitioner.php:266-328 | a round pops two tuples and pushes one, so the heap shrinks by one |
| KarmarkarKarp.Rounds | src/Test/Partitioner.php:266-328 | the rounds stop with one tuple left, or with the empty heap they started from |
| KarmarkarKarp.Stacks | src/Test/Partitioner.php:333-335 | the result holds one stack per id of the last tuple, the id's stack at the same position |
| KarmarkarKarp.StepNone | src/Test/Partitioner.php:277-280 | a position where neither tuple has an id changes nothing |
| KarmarkarKarp.StepOne | src/Test/Partitioner.php:282-291 | a position with one id moves that id to the bucket of its sum and leaves the stacks and sums alone |
| KarmarkarKarp.StepBoth | src/Test/Partitioner.php:293-316 | a position with two ids keeps the merge invariant and the round's values, leaves the other tuples' stacks alone and records one id |
| KarmarkarKarp.MergedStack | src/Test/Partitioner.php:301-307 | the merged stack holds the values of both stacks |
| KarmarkarKarp.MergeLoopRule | src/Test/Partitioner.php:273-317 | the loop over the k positions keeps the merge invariant and the values of both tuples and leaves every other tuple's stacks alone |
| KarmarkarKarp.MergeLoopLength | src/Test/Partitioner.php:273-317 | the loop records one id per position that holds one |
| KarmarkarKarp.TakenAll | src/Test/Partitioner.php:273-291 | min(k, |a| + |b|) of the k positions hold an id |
| KarmarkarKarp.RoundMergeRule | src/Test/Partitioner.php:266-321 | after a merge every live id occurs once and has a stack and a sum, the merged tuple holds the values of both popped tuples and the other tuples keep their stacks |
| KarmarkarKarp.RoundMergeLength | src/Test/Partitioner.php:266-321 | the merged tuple has min(k, |a| + |b|) ids |
| KarmarkarKarp.RoundRule | src/Test/Partitioner.php:266-328 | a round keeps the invariant and the values held by the heap |
| KarmarkarKarp.RoundsRule | src/Test/Partitioner.php:266-328 | all the rounds together keep the invariant and the values held by the heap |
| KarmarkarKarp.LoadedRule | src/Test/Partitioner.php:245-262 | after loading, the ids are distinct, the invariant holds and the heap holds exactly the input values, one tuple per value |
| KarmarkarKarp.LastRule | src/Test/Partitioner.php:330-337 | the last tuple's stacks are min(k, number of values) many and hold exactly its values |
| KarmarkarKarp.Partitions | src/Test/Partitioner.php:241-338 | for k ≥ 1 the algorithm throws exactly on an empty input; otherwise it returns min(k, n) stacks that hold exactly the input values |
| KarmarkarKarp.PopOnto | src/Test/Partitioner.php:304-307 | popping every value of one stack onto the other appends it reversed |
| KarmarkarKarp.CombineInPlace | src/Test/Partitioner.php:293-316 | the in-place merge of two ids is the Combine step |
| KarmarkarKarp.MergePosition | src/Test/Partitioner.php:275-316 | one position of the loop, on the three structures, is MergeStep |
| KarmarkarKarp.MergeTuples | src/Test/Partitioner.php:273-321 | the loop over the positions produces the merge MergeLoop specifies |
| KarmarkarKarp.KarmarkarKarpMethod | src/Test/Partitioner.php:241-338 | the method returns what Spec specifies, including the underflow exception of the final pop |
| Partitioner.ChunksSizes | src/Test/Partitioner.php:43-58 | simple's nested loops make `count` queues, none longer than the queue length |
| Partitioner.ChunksFull | src/Test/Partitioner.php:47-55 | a queue is full before any later queue gets a test |
| Partitioner.EmptyChunks | src/Test/Partitioner.php:47-55 | with no tests every queue is empty |
| Partitioner.ChunksFlatten | src/Test/Partitioner.php:43-58 | when the tests fit, the queues read in turn are the tests in order |
| Partitioner.SimpleRule | src/Test/Partitioner.php:33-61 | simple fails (division by zero) only for a zero process count and gives no queue for a negative one; otherwise one queue per process, each at most ceil(n / processCount) long, full before a later one gets a test, and together the tests in order |
| Partitioner.Partitioner.Simple | src/Test/Partitioner.php:33-61 | records a zero run duration and returns what SimpleSpec specifies |
| Partitioner.Partitioner.TakeQueue | src/Test/Partitioner.php:47-55 | the inner loop takes up to queueLength tests from the front and leaves the rest |
| Partitioner.SortIntsRule | src/Test/Partitioner.php:100 | the sorted durations are an ascending permutation of the durations |
| Partitioner.TraversalMass | src/Test/Partitioner.php:112-125 | reading the lanes as statBased's foreach does yields their values |
| Partitioner.SmartPartitionRule | src/Test/Partitioner.php:195-212 | smartPartition fails exactly on more than 4096000 values or on values with no lane (UsageException for the former); otherwise the lanes hold exactly the values and number k when there are at least k values |
| Partitioner.Partitioner.SmartPartition | src/Test/Partitioner.php:195-212 | the method returns what SmartPartitionSpec specifies |
| Partitioner.LongestRule | src/Test/Partitioner.php:172-190 | no test is found exactly when no queue has a single test; otherwise the test found is the first single test whose expected duration is the largest |
| Partitioner.LongTestRule | src/Test/Partitioner.php:146-193 | the note is given exactly when some queue has a single test and some queue does not; it names the first single test of the largest expected duration |
| Partitioner.Partitioner.NotifyAboutLongTest | src/Test/Partitioner.php:146-193 | the method's loops name the test LongTest specifies |
| Partitioner.WithDurationCount | src/Test/Partitioner.php:79-98 | a duration's queue has as many tests as there are copies of that duration among the durations |
| Partitioner.CollectRule | src/Test/Partitioner.php:79-98 | the first loop succeeds exactly when every test has an expected duration, raising UsageException otherwise; it lists the durations in order and each duration's queue holds exactly the tests of that duration |
| Partitioner.CollectThrows | src/Test/Partitioner.php:83-86 | a test without a duration ends the loop with that exception whatever follows |
| Partitioner.Partitioner.CollectDurations | src/Test/Partitioner.php:79-98 | the method's loop returns what Collect specifies |
| Partitioner.PopTestsOk | src/Test/Partitioner.php:118-125 | filling a queue succeeds when every duration has enough tests left, and takes one test per listed duration |
| Partitioner.PopTestsKey | src/Test/Partitioner.php:118-125 | filling a queue takes each duration's front tests, one per time the lane lists it, and leaves the rest |
| Partitioner.PopTestsTagged | src/Test/Partitioner.php:118-125 | each test taken has the duration the lane lists at its place |
| Partitioner.PopLanesFlat | src/Test/Partitioner.php:112-132 | filling the queues lane by lane takes the tests the concatenated lanes take |
| Partitioner.Partitioner.FillQueue | src/Test/Partitioner.php:114-127 | one queue of the second loop is PopTests, and its total is the lane's sum |
| Partitioner.Partitioner.FillQueues | src/Test/Partitioner.php:108-132 | the second loop is PopLanes, and its maximum is MaxRun of the lanes |
| Partitioner.QueuesRule | src/Test/Partitioner.php:108-132 | statBased's queues: one per lane, each with its lane's durations in order, and together exactly the tests |
| Partitioner.QueuesTotals | src/Test/Partitioner.php:108-136 | every queue's expected total is at most the recorded run duration, which some queue reaches unless it is 0 |
| Partitioner.MaxRunRule | src/Test/Partitioner.php:110-131 | the run duration is at least 0 and every lane's total, and equals one of them unless it is 0 |
| Partitioner.StatBasedFails | src/Test/Partitioner.php:69-141 | statBased fails exactly when a test has no expected duration, there are no tests, too many, or the process count is not positive |
| Partitioner.StatBasedQueues | src/Test/Partitioner.php:69-141 | on success there are min(processCount, n) queues holding exactly the tests, each queue's expected total at most the recorded run duration, which one of them reaches unless it is 0 |
| Partitioner.StatBasedStats | src/Test/Partitioner.php:100-104 | the statistics are recorded exactly when every test has a duration and there is one, and are those of the sorted durations |
| Partitioner.StatsRule | src/Test/Partitioner.php:100-104 | the minimum and maximum bound every duration and occur among them; the median is the element at index n div 2 of an ascending permutation |
| Partitioner.Partitioner.StatBased | src/Test/Partitioner.php:69-141 | the method returns the queues and the noted test StatBasedSpec specifies and records the statistics and run duration in the settings |
| Supervisor.SplitFailedKeeps | src/Test/RunnersSupervisor.php:223-233 | the split of a lane's failures into the two failure queues loses and invents nothing |
| Supervisor.SplitFailedSorts | src/Test/RunnersSupervisor.php:223-233 | forbidden failures go to no-rerun and the others to the rerun queue |
| Supervisor.MergeKeysValues | src/Test/RunnersSupervisor.php:251-254 | after the puts the keys are the old ones and the lane's, the lane's carrying the lane's values and the others keeping theirs |
| Supervisor.RepeatChecksFrom | src/Test/RunnersSupervisor.php:316-328 | repeated checks of one name answer "exhausted" from the (rerunCount − start)-th on, so exactly max(0, min(k, rerunCount − start)) of k checks admit the test |
| Supervisor.LedgerAdmitsAtMostRerunCount | src/Test/RunnersSupervisor.php:316-328 | for a name never checked, the i-th check answers "exhausted" exactly when i ≥ rerunCount, so a test is admitted for rerun at most rerunCount times |
| Supervisor.CheckTouchesOnlyItsName | src/Test/RunnersSupervisor.php:316-328 | a check changes no other name's count |
| Supervisor.InheritValues | src/Test/RunnersSupervisor.php:336-343 | every child of an exploded cluster gets the cluster's count, other names keep theirs and nothing else is added |
| Supervisor.WithoutBombletsMembers | src/Test/RunnersSupervisor.php:372-384 | the filtered no-rerun queue holds exactly the entries that are not bomblets |
| Supervisor.PrepareRunners | src/Test/RunnersSupervisor.php:68-80 | one new lane per queue, in order, each over its queue with an empty label |
| Supervisor.RunnersSupervisor.constructor | src/Test/RunnersSupervisor.php:41-62 | one lane per queue, the process count is the number of queues, every output queue and map is empty and the skip-rerun names are classified from the settings |
| Supervisor.RunnersSupervisor.Run | src/Test/RunnersSupervisor.php:82-101 | the sweeps go on while lanes are left; relative to the state on entry, the outputs before the final implode only grew (OutputsGrow: timed-out and no-rerun tests and exploded clusters appended to, passed and ledger names kept, failed tests appended to outside continuous mode); with lanes left nothing more happens, otherwise the cluster cests are imploded as ImplodeAll specifies; on exit the timed-out tests extend those on entry and every passed name on entry is still there |
| Supervisor.RunnersSupervisor.Sweep | src/Test/RunnersSupervisor.php:88-95 | each lane present at the start of the sweep is touched once, in queue order, and the outputs only grow (OutputsGrow) relative to the state before the sweep |
| Supervisor.RunnersSupervisor.TouchRunner | src/Test/RunnersSupervisor.php:103-130 | the front lane ticks; one with more to do goes to the back and may become the most burdened; a finished one hands over its results and, in continuous mode, its reruns become a new lane; either way the outputs only grow (OutputsGrow) |
| Supervisor.RunnersSupervisor.TickFront | src/Test/RunnersSupervisor.php:106-110 | the front lane leaves the line and ticks once as Tick specifies |
| Supervisor.RunnersSupervisor.FinishRunner | src/Test/RunnersSupervisor.php:117-129 | a finished lane's data is saved and, in continuous mode, the reruns are added as one new lane; either way the outputs only grow (OutputsGrow) |
| Supervisor.RunnersSupervisor.RerunFailures | src/Test/RunnersSupervisor.php:119-129 | in continuous mode a non-empty rerun queue becomes a new lane labelled (RERUN) |
| Supervisor.RunnersSupervisor.AddLane | src/Test/RunnersSupervisor.php:128 | the new lane is fresh, at the back and runs the given queue under the given label |
| Supervisor.RunnersSupervisor.FindMostBurdenedRunner | src/Test/RunnersSupervisor.php:132-154 | the tracked lane becomes the ticked one exactly when MoreBurdened says so: continuous mode, a running test, a non-empty queue and more tests than the tracked one |
| Supervisor.RunnersSupervisor.TryTakeSomeBurden | src/Test/RunnersSupervisor.php:161-193 | with a free process, the first ceil(n / 2) tests of the most burdened lane move, in order, to a new lane with the same label; otherwise nothing changes |
| Supervisor.BurdenKeepsTests | src/Test/RunnersSupervisor.php:178-186 | the burden move keeps every test in order, takes at least one and leaves at most half |
| Supervisor.RunnersSupervisor.SaveFinishedRunnerData | src/Test/RunnersSupervisor.php:220-255 | the finished lane's failures, timeouts and passed durations are added as Save specifies |
| Supervisor.RunnersSupervisor.SaveFailed | src/Test/RunnersSupervisor.php:223-233 | the lane's failures are appended to no-rerun or to the failure queue as SplitFailed sorts them |
| Supervisor.RunnersSupervisor.SaveTimedOut | src/Test/RunnersSupervisor.php:236-239 | the lane's timed-out tests are appended in order |
| Supervisor.RunnersSupervisor.SavePassed | src/Test/RunnersSupervisor.php:251-254 | the lane's passed durations are put into the map, the later value winning |
| Supervisor.SaveRoutes | src/Test/RunnersSupervisor.php:220-255 | saving loses and invents no failure, only appends, sends forbidden failures to no-rerun and the others to the failure queue, appends the timeouts and adds every passed duration |
| Supervisor.SaveGrows | src/Test/RunnersSupervisor.php:220-255 | saving a finished lane only appends to the output queues and only adds passed names (OutputsGrow) |
| Supervisor.RunnersSupervisor.RerunIsForbiddenMethod | src/Test/RunnersSupervisor.php:257-265 | a rerun is forbidden exactly when skip-rerun names are configured and the test matches them |
| Supervisor.RunnersSupervisor.GetTestsForRerun | src/Test/RunnersSupervisor.php:267-314 | the rerun queue and the new outputs are those TestsForRerun specifies |
| Supervisor.RunnersSupervisor.RerunAll | src/Test/RunnersSupervisor.php:281-311 | the loop over the drained failures gives what RerunLoop specifies |
| Supervisor.RunnersSupervisor.RerunOne | src/Test/RunnersSupervisor.php:283-310 | the loop body for one test gives what RerunStep specifies |
| Supervisor.NoRerunLeavesFailures | src/Test/RunnersSupervisor.php:271-279 | with no failures or a rerun count of 0 nothing is rerun and no output changes |
| Supervisor.RerunStepRoutes | src/Test/RunnersSupervisor.php:283-310 | a test goes to exactly one place: no-rerun when its count is exhausted or a cest passed nothing under fast cest rerun; its children when it is an explodable cluster; the queue otherwise |
| Supervisor.RerunStepGrows | src/Test/RunnersSupervisor.php:283-310 | one step only appends, and the test lands in no-rerun, in the queue or among the exploded clusters |
| Supervisor.RerunLoopKeeps | src/Test/RunnersSupervisor.php:281-311 | the loop leaves the failed, timed-out and passed outputs alone and only appends |
| Supervisor.RerunLoopRoutes | src/Test/RunnersSupervisor.php:281-311 | every drained test ends in no-rerun, in the queue or among the exploded clusters |
| Supervisor.TestsForRerunRoutes | src/Test/RunnersSupervisor.php:267-314 | getTestsForRerun drains the failures when reruns are on and routes every one of them |
| Supervisor.TestsForRerunOutputsGrow | src/Test/RunnersSupervisor.php:267-314 | apart from draining the failed tests, getTestsForRerun only appends to no-rerun and the exploded clusters and only adds names to the rerun ledger |
| Supervisor.RunnersSupervisor.RerunCountIsExhausted | src/Test/RunnersSupervisor.php:316-328 | the ledger and the answer are those CheckExhausted specifies |
| Supervisor.RunnersSupervisor.ExplodeClusterCest | src/Test/RunnersSupervisor.php:330-348 | the children are the cluster's failed tests, each inheriting the cluster's count, and the cluster is remembered |
| Supervisor.RunnersSupervisor.ImplodeClusterCests | src/Test/RunnersSupervisor.php:350-385 | the outputs and world become those ImplodeAll specifies |
| Supervisor.RunnersSupervisor.ImplodeExploded | src/Test/RunnersSupervisor.php:358-370 | the first loop gives what ImplodeEach specifies |
| Supervisor.RunnersSupervisor.ImplodeCluster | src/Test/RunnersSupervisor.php:360-369 | one cluster gives what ImplodeOne specifies |
| Supervisor.RunnersSupervisor.DropBomblets | src/Test/RunnersSupervisor.php:372-384 | the no-rerun queue loses exactly its bomblets |
| Supervisor.ImplodeOneFrame | src/Test/RunnersSupervisor.php:360-369 | imploding one cluster touches only no-rerun and the passed durations |
| Supervisor.ImplodeOneGrows | src/Test/RunnersSupervisor.php:360-369 | one cluster is either booked as passed or appended to no-rerun |
| Supervisor.ImplodeEachKeeps | src/Test/RunnersSupervisor.php:358-370 | the loop keeps the failed and timed-out queues, only appends to no-rerun and only adds passed names |
| Supervisor.ImplodeEachAdds | src/Test/RunnersSupervisor.php:358-370 | whatever the loop adds to no-rerun is a cluster it imploded |
| Supervisor.ImplodeAllRoutes | src/Test/RunnersSupervisor.php:350-385 | afterwards no bomblet is left in no-rerun, every earlier entry that is not a bomblet is kept, and what is added are imploded clusters |
| Supervisor.ImplodeAllKeeps | src/Test/RunnersSupervisor.php:350-385 | implodeClusterCests keeps the failed and timed-out tests and every passed name |
| Loader.Union | src/Test/Loader.php:229 | the union holds exactly the groups of either set |
| Loader.CestPrefixRule | src/Test/Loader.php:106-111 | for a name with '.php:' the prefix taken is the cest file name: it ends with '.php' and the name continues with ':' |
| Loader.SetupRule | src/Test/Loader.php:47-95 | a configured only, skip or immune list replaces its name parts and an unconfigured one leaves them; with the 'tests' wrapper setting the dividable cests are exactly the configured ones |
| Loader.NotInExpectedGroups | src/Test/Loader.php:220-223 | true exactly when groups were asked for and the unit has none of them |
| Loader.ChoiceRule | src/Test/Loader.php:180-214 | per-method wrapping exactly when a dividable list names the cest, or no list does and the setting is 'tests'; whole-cest exactly when not dividable and the whole list names it or no list does and the setting is 'cest_rerun_whole'; a cluster otherwise |
| Loader.WrapTestRule | src/Test/Loader.php:235-256 | a method is dropped exactly when skip-tests names it or it is outside the asked groups, and immune-tests does not cover it; a kept one becomes a test wrapper named cest:method |
| Loader.MethodGroupsMembers | src/Test/Loader.php:290-301 | the collected groups are exactly the groups of some method |
| Loader.WrapCestRule | src/Test/Loader.php:258-288 | a whole or cluster cest is dropped exactly when it is outside the asked groups and not immune; a kept one has the chosen kind and the cest's name |
| Loader.ClassUnitsRule | src/Test/Loader.php:180-214 | every unit of a test class belongs to its cest and has the kind the choice made |
| Loader.WrapTestsRule | src/Test/Loader.php:225-233 | wrapTests makes at most one test wrapper per method, each of the cest |
| Loader.LoadTestsRule | src/Test/Loader.php:170-218 | every unit loadTests makes belongs to the cest and has the chosen kind |
| Loader.LoadCestsRule | src/Test/Loader.php:131-168 | every loaded unit comes from a cest that was not skipped, had no error and had tests, and has the kind chosen for that cest |
| Loader.KeptRule | src/Test/Loader.php:310-321 | the kept units are exactly those matching only-tests or immune-tests, in their order |
| Loader.FilterByOnlyTestsRule | src/Test/Loader.php:303-322 | without only-tests the units are returned as they are; otherwise exactly the units matching only-tests or immune-tests are kept |
| Loader.Loader.constructor | src/Test/Loader.php:29-42 | every selection list starts empty |
| Loader.Loader.GetTests | src/Test/Loader.php:47-95 | the lists become those Setup specifies and the tests those GetTestsSpec specifies |
| Loader.Loader.LoadWrapperLists | src/Test/Loader.php:51-67 | the three wrapper lists are set from the settings that are configured |
| Loader.Loader.LoadSelectionLists | src/Test/Loader.php:69-92 | the only, skip and immune lists are set from the settings that are configured, only and immune also marking their cests as dividable |
| Loader.Loader.MarkCestsAsDividable | src/Test/Loader.php:97-112 | unless the setting is 'tests', the cest of every named test joins the dividable cests |
| Loader.Loader.ParseTests | src/Test/Loader.php:114-127 | no cests give no tests; otherwise the loaded cests filtered by only-tests |
| Loader.Loader.LoadCestsMethod | src/Test/Loader.php:131-168 | the loop gives what LoadCests specifies |
| Loader.Loader.LoadTestsMethod | src/Test/Loader.php:170-218 | the loop gives what LoadTests specifies |
| Loader.Loader.CollectMethodGroups | src/Test/Loader.php:290-301 | the set of every method's groups, each once, in first-seen order |
| Loader.Loader.AddGroups | src/Test/Loader.php:297 | adding groups to a set gives the deduplicated concatenation |
| Loader.DedupSnoc | src/Test/Loader.php:297 | adding one group adds it only when it is new |
| Loader.Loader.WrapTestsMethod | src/Test/Loader.php:225-233 | the loop gives what WrapTests specifies |
| Loader.Loader.FilterByOnlyTestsMethod | src/Test/Loader.php:303-322 | the loop gives what FilterByOnlyTests specifies |
| ParacestamolRun.PartitionOptions | src/Paracestamol/ParacestamolRun.php:381-391 | partitioning, simple or stat-based, changes none of the options the rerun loops read (process count, rerun count, switches, max rps, endpoint) |
| ParacestamolRun.PartitionKeeps | src/Paracestamol/ParacestamolRun.php:381-391 | with a positive process count the queues partitionInQueues returns hold exactly the tests it was given |
| ParacestamolRun.PartitionOwnProcess | src/Paracestamol/ParacestamolRun.php:385-390 | in the current variant, no more tests than processes always takes the simple partition: it succeeds, every queue holds at most one test and the recorded maximal run duration is 0 |
| ParacestamolRun.PartitionRefuses | src/Paracetamol/ParacetamolRun.php:324-334 | the older variant takes statBased whenever durations were fetched, so a test without an expected duration makes it throw the UsageException of the partitioner |
| ParacestamolRun.PartitionOfLawful | src/Paracestamol/ParacestamolRun.php:381-391 | the partition of either variant keeps the options and keeps the tests, the two facts the rerun loops rely on |
| ParacestamolRun.FloorDivRule | src/Paracestamol/ParacestamolRun.php:443 | `floor(1000 / $rps)` is the floor of the quotient for divisors of either sign |
| ParacestamolRun.AdaptiveDelayRule | src/Paracestamol/ParacestamolRun.php:434-448 | with the adaptive delay on, a zero min(processCount, maxRps) throws and nothing else does; otherwise rps delays fit in one second and one more would not, the delay in seconds is the milliseconds over 1000 and no option changes |
| ParacestamolRun.ParallelLoopCount | src/Paracestamol/ParacestamolRun.php:165-189 | the loop makes at most count - i passes |
| ParacestamolRun.ParallelLoopRuns | src/Paracestamol/ParacestamolRun.php:179-180 | each pass starts one supervisor run of the phase and prints nothing |
| ParacestamolRun.ParallelLoopOptions | src/Paracestamol/ParacestamolRun.php:175-176 | the passes (partition and adaptive delay) change no option |
| ParacestamolRun.ParallelLoopResult | src/Paracestamol/ParacestamolRun.php:165-198 | the returned queue is the last pass's failures followed by every pass's no-rerun and timed-out tests in pass order |
| ParacestamolRun.ParallelLoopStops | src/Paracestamol/ParacestamolRun.php:167-171 | the loop stops before its count only when no failed test is left |
| ParacestamolRun.ParallelLoopStarts | src/Paracestamol/ParacestamolRun.php:167-171 | no pass starts on an empty queue |
| ParacestamolRun.ParallelLoopQueues | src/Paracestamol/ParacestamolRun.php:175-186 | every pass's queues hold exactly the tests it starts from: the input, then the previous pass's failures |
| ParacestamolRun.RunInParallelShape | src/Paracestamol/ParacestamolRun.php:134-189 | an empty input is returned untouched with no run; otherwise at most runCount passes, one in continuous mode, each recorded as one run of the phase |
| ParacestamolRun.RunInParallelResult | src/Paracestamol/ParacestamolRun.php:134-198 | the result is the last failures plus the no-rerun and timed-out tests, and fewer passes than allowed means nothing failed at the end |
| ParacestamolRun.RunInParallelOptions | src/Paracestamol/ParacestamolRun.php:134-198 | runInParallel changes no option |
| ParacestamolRun.SeriesLoopShape | src/Paracestamol/ParacestamolRun.php:232-262 | the serial loop never throws, makes at most count - i passes, each on one lane and recorded as one run of the phase, and leaves the settings as they were |
| ParacestamolRun.SeriesLoopInputs | src/Paracestamol/ParacestamolRun.php:242-258 | the first serial pass runs the input and each later one what the previous left: its failures, or with rerun-whole-series after any failure clones of its whole queue |
| ParacestamolRun.SeriesLoopResult | src/Paracestamol/ParacestamolRun.php:232-271 | the result is what the last pass left plus every pass's no-rerun and timed-out tests, and stopping early means nothing was left |
| ParacestamolRun.RunInSeriesShape | src/Paracestamol/ParacestamolRun.php:201-262 | runInSeries never throws, runs nothing on an empty input, makes at most runCount one-lane passes and changes no option (the one-second delay it sets under the adaptive delay only moves the delay) |
| ParacestamolRun.RunInSeriesResult | src/Paracestamol/ParacestamolRun.php:201-271 | the passes chain from the input as above and the result is what the last pass left plus the no-rerun and timed-out tests |
| ParacestamolRun.BucketsCover | src/Paracestamol/ParacestamolRun.php:308-335 | the five buckets together are a permutation of the loaded tests |
| ParacestamolRun.InPhaseMembers | src/Paracestamol/ParacestamolRun.php:308-335 | a test is in a bucket exactly when it is loaded and the first matching group list, in the order before-series, before-parallel, after-parallel, after-series, is that bucket's (main when none matches) |
| ParacestamolRun.InPhaseAppend | src/Paracestamol/ParacestamolRun.php:308-335 | bucketing keeps the tests' order: the bucket of two queues is the bucket of the first followed by that of the second |
| ParacestamolRun.LastPosition | src/Paracestamol/ParacestamolRun.php:357 | array_flip maps a string to its last position in the list, and a string not in the list to nothing |
| ParacestamolRun.SortAsWrittenDropsTests | src/Paracestamol/ParacestamolRun.php:362-369 | two tests matching the same configured string: the code as written returns only the second, the corrected sort returns both |
| ParacestamolRun.SortSlotsRule | src/Paracestamol/ParacestamolRun.php:371 | ksort with SORT_NUMERIC is a permutation of the entries ordered by numeric key |
| ParacestamolRun.SortByPositionRule | src/Paracestamol/ParacestamolRun.php:355-374 | the serial bucket after sorting holds each of its tests, ordered by the position of the string it matches; a test whose match is none of the strings counts as position 0, so it is kept and comes before every test of a later position |
| ParacestamolRun.TrimLineRule | src/Paracestamol/ParacestamolRun.php:510 | a trimmed line is at most 96 characters, equals the line exactly when the line was that short, and a shortened one keeps the first 92 characters |
| ParacestamolRun.MessageLines | src/Paracestamol/ParacestamolRun.php:509-512 | a message always splits into at least one line, so a test record always has a first line |
| ParacestamolRun.RawLinesFrom | src/Paracestamol/ParacestamolRun.php:516-530 | a non-empty report gives lines, and every line is at most 96 characters or starts with the name of a test record and ": " |
| ParacestamolRun.FailReportRule | src/Paracestamol/ParacestamolRun.php:500-538 | the printed report is the records' lines sorted as strings, empty exactly for an empty report, with only test lines longer than 96 characters |
| ParacestamolRun.NeverPassedKeys | src/Paracestamol/ParacestamolRun.php:557-577 | a name is sent exactly when some failed test of that name has no expected duration and a known actual one |
| ParacestamolRun.NeverPassedValues | src/Paracestamol/ParacestamolRun.php:557-577 | each sent duration is the actual duration of a failed test of that name that never passed |
| ParacestamolRun.ParallelStageRule | src/Paracestamol/ParacestamolRun.php:81-83 | a parallel phase of execute keeps the options, prints nothing, adds at most its count of runs of that phase and adds one result unless it threw |
| ParacestamolRun.SeriesStageRule | src/Paracestamol/ParacestamolRun.php:84 | a serial phase of execute keeps the options, prints nothing, adds at most runCount runs of that phase, never throws and adds one result |
| ParacestamolRun.ExecuteRebuildFails | src/Paracestamol/ParacestamolRun.php:50-53 | in the current variant a failed actor rebuild throws the GeneralException before any run and changes nothing |
| ParacestamolRun.ExecuteSerialBeforeFails | src/Paracestamol/ParacestamolRun.php:73-79 | with serial-before-fails-run set, failures left by the serial before phase print their report and throw SerialBeforeFailedException, and no later phase runs |
| ParacestamolRun.RestPhases | src/Paracestamol/ParacestamolRun.php:81-84 | the four later phases add their runs phase by phase in execute's order, each within its bound |
| ParacestamolRun.ExecutePhases | src/Paracestamol/ParacestamolRun.php:48-87 | execute runs supervisors phase by phase, series-before, parallel-before, main, parallel-after, series-after, at most 1 + rerunCount runs each and one per parallel phase in continuous mode |
| ParacestamolRun.ExecuteInOrder | src/Paracestamol/ParacestamolRun.php:48-87 | the phases of all runs of execute never step back |
| ParacestamolRun.Orchestrator.constructor | src/Paracestamol/ParacestamolRun.php:37-46 | the orchestrator holds the given settings, partitioner, wrappers' operations and supervisor factory, has run nothing and partitions as partitionInQueues does |
| ParacestamolRun.Orchestrator.SendTestsDurations | src/Paracestamol/ParacestamolRun.php:412-432 | the map is sent only with a non-empty endpoint and a non-empty map |
| ParacestamolRun.Orchestrator.PartitionInQueues | src/Paracestamol/ParacestamolRun.php:381-391 | the queues and settings are statBased's when durations were fetched and there are more tests than processes (older variant: whenever durations were fetched) and simple's otherwise |
| ParacestamolRun.Orchestrator.SetAdaptiveDelay | src/Paracestamol/ParacestamolRun.php:434-448 | the settings become the adaptive delay's, or the division by zero is returned and nothing changes |
| ParacestamolRun.Orchestrator.RunInParallel | src/Paracestamol/ParacestamolRun.php:134-199 | the loop's result and new state are those of the parallel rerun specification |
| ParacestamolRun.Orchestrator.ParallelPasses | src/Paracestamol/ParacestamolRun.php:165-198 | the loop of passes ends with the result and new state of the loop specification from pass 0: a throw of a pass ends it, otherwise the last failures followed by the no-rerun and timed-out tests |
| ParacestamolRun.Orchestrator.ParallelPass | src/Paracestamol/ParacestamolRun.php:173-188 | one pass either throws as the specification does or leaves a state from which the rest of the loop ends as the whole loop would |
| ParacestamolRun.Orchestrator.CloneQueue | src/Paracestamol/ParacestamolRun.php:579-592 | the original queue unchanged and a clone of each of its tests in order |
| ParacestamolRun.Orchestrator.RunInSeries | src/Paracestamol/ParacestamolRun.php:201-272 | the loop's result and new state are those of the serial rerun specification, including the one-second delay of the current variant |
| ParacestamolRun.Orchestrator.SeriesPass | src/Paracestamol/ParacestamolRun.php:240-261 | one serial pass leaves a state from which the rest of the loop ends as the whole loop would |
| ParacestamolRun.Orchestrator.PartitionInBeforeAfterGroups | src/Paracestamol/ParacestamolRun.php:292-353 | each of the five queues is its bucket, in input order |
| ParacestamolRun.Orchestrator.SortByTestNameParts | src/Paracestamol/ParacestamolRun.php:355-374 | the corrected sort: every test, ordered by the position of its match |
| ParacestamolRun.Orchestrator.PrintFailReport | src/Paracestamol/ParacestamolRun.php:500-538 | the sorted report lines are appended to what was printed; runs and sent durations stay |
| ParacestamolRun.Orchestrator.SendNeverPassedTestsDurations | src/Paracestamol/ParacestamolRun.php:557-577 | sends the never-passed durations of the failed tests |
| ParacestamolRun.Orchestrator.ProcessFailedTests | src/Paracestamol/ParacestamolRun.php:467-498 | the report of every failed test of every queue in order is printed, then the never-passed durations are sent |
| ParacestamolRun.Orchestrator.Execute | src/Paracestamol/ParacestamolRun.php:48-87 | the thrown exception and the new state are those of the execute specification, for either variant |
| ParacestamolRun.Orchestrator.RunGrouped | src/Paracestamol/ParacestamolRun.php:71-86 | after grouping: the serial-before run, the early stop with SerialBeforeFailedException when it left failures and the option asks for it, otherwise the remaining phases, all as the execute specification says |
| ParacestamolRun.Orchestrator.GroupTests | src/Paracestamol/ParacestamolRun.php:64-67 | the five buckets, the two serial ones sorted by the position of their match |
| ParacestamolRun.Orchestrator.RunRest | src/Paracestamol/ParacestamolRun.php:81-86 | the four later phases and the report end as the specification says |
| ParacestamolRun.Orchestrator.RunParallelPhases | src/Paracestamol/ParacestamolRun.php:81-83 | the three parallel phases end as the specification says, their results appended in order |
| ParacestamolRun.AssignRule | src/Paracestamol/ParacestamolRun.php:367 | `$result[$position] = $test` holds the test under its key, keeps every entry of another key and drops the old entry of that key; keys stay distinct |
| ParacestamolRun.KeyedRule | src/Paracestamol/ParacestamolRun.php:357-368 | the array the loop builds has one entry per key, and its entries are exactly the tests that no later test of the same key overwrites |
| ParacestamolRun.SortAsWrittenRule | src/Paracestamol/ParacestamolRun.php:355-374 | sortByTestNameParts as written returns exactly the last test of each key, one test per key, ordered by position with the key "" counted as 0 |
| ParacestamolRun.SortAsWrittenDropsUnmatched | src/Paracestamol/ParacestamolRun.php:364-366 | two tests matched through the configured path "tests" have the match "tests/api", none of the strings: as written only the second is returned, the corrected sort returns both |
| ParacestamolRun.UnmatchedFirst | src/Paracestamol/ParacestamolRun.php:366-371 | in tests ordered by position, a test whose match is none of the strings comes before every test of a later position |
| RunCommand.SettingsPath | src/Command/Run.php:240-254 | the settings file looked for always ends in '.yml' |
| RunCommand.SettingsPathGiven | src/Command/Run.php:246-254 | an option holding a separator and ending in '.yml' is used as given |
| RunCommand.SettingsPathBareName | src/Command/Run.php:246-249 | a bare name is looked for inside the test project directory |
| RunCommand.SettingsPathDefault | src/Command/Run.php:242-254 | without the option the file is the project directory's paracetamol.yml |
| RunCommand.SettingsPathStable | src/Command/Run.php:240-254 | a resolved path holding a separator resolves to itself, whatever the project directory |
| RunCommand.SameHelperName | src/Command/Run.php:223 | `substr($class, 0)` is the class name itself, not the name without its first slash |
| RunCommand.ModuleResolvedFields | src/Command/Run.php:219-236 | resolveParacetamolModule only enables the module, exactly when the helper is among the suite's modules; the branch that would set the module name cannot fire |
| RunCommand.ResolvedFields | src/Command/Run.php:153-156 | the four resolutions set only their own fields: the namespace for an empty project name, the adaptive delay exactly for a delay of -1, the codeception output path for an empty run output path, and the module switch |
| RunCommand.ResolvedIdempotent | src/Command/Run.php:153-156 | resolving twice is resolving once |
| RunCommand.ExitCodeCases | src/Command/Run.php:110-168 | the exit status is 0 or 1, and 1 exactly when something was thrown |
| RunCommand.Run.constructor | src/Command/Run.php:33-41 | the command holds the given settings |
| RunCommand.Run.LoadParacetamolSettings | src/Command/Run.php:238-264 | the path looked for is SettingsPath of the option and the project directory; the settings are populated from it only when the file exists |
| RunCommand.Run.ResolveAdaptiveDelay | src/Command/Run.php:194-197 | the adaptive delay is on exactly when the delay is -1; nothing else changes |
| RunCommand.Run.ResolveProjectName | src/Command/Run.php:199-207 | an empty project name becomes the namespace; nothing else changes |
| RunCommand.Run.ResolveRunOutputPath | src/Command/Run.php:209-217 | an empty run output path becomes the codeception output path; nothing else changes |
| RunCommand.Run.ResolveParacetamolModule | src/Command/Run.php:219-236 | the settings after the module resolution with both of its tests |
| RunCommand.Run.Execute | src/Command/Run.php:110-168 | the exit code, and the settings: the prepared ones when preparing threw, else the prepared ones resolved |
| CommandParams.UpperFirst | src/Helpers/CommandParamsToSettingsSaver.php:17 | ucfirst upper-cases the first character and keeps the rest and the length |
| CommandParams.SetterName | src/Helpers/CommandParamsToSettingsSaver.php:15-19 | the setter is "set" followed by the denormalized name with its first letter upper-cased |
| CommandParams.Saver.constructor | src/Helpers/CommandParamsToSettingsSaver.php:11-13 | a saver with the given name converter that has called no setter |
| CommandParams.Saver.SaveArgument | src/Helpers/CommandParamsToSettingsSaver.php:21-28 | an argument's value is always passed to its setter |
| CommandParams.Saver.OverrideSettings | src/Helpers/CommandParamsToSettingsSaver.php:30-69 | an option calls its setter with the normalized value, or no setter at all |
| CommandParams.NoCallIffAbsent | src/Helpers/CommandParamsToSettingsSaver.php:34-42 | no setter is called exactly for a null option or an empty list |
| CommandParams.ListsNormalized | src/Helpers/CommandParamsToSettingsSaver.php:44-50 | a one-item list holding one of the three empty-list markers becomes the empty list; any other non-empty list is passed as it is |
| CommandParams.StringsNormalized | src/Helpers/CommandParamsToSettingsSaver.php:52-64 | a string that trims and lower-cases to 'true' or 'false' becomes that boolean, any other string is passed as it is |
| CommandParams.NormalizedStable | src/Helpers/CommandParamsToSettingsSaver.php:34-64 | normalizing a normalized value other than the empty list changes nothing |
| CommandParams.OverrideCallsShape | src/Helpers/CommandParamsToSettingsSaver.php:30-69 | an override makes at most one call, to the option's setter with the normalized value |
| CodeceptionParsers.Spaces | src/Helpers/CodeceptionProjectParser.php:212 | `str_repeat(' ', n)` is n blanks |
| CodeceptionParsers.BuildOverrideYaml | src/Helpers/CodeceptionProjectParser.php:200-215 | the YAML text the loop builds for one override option, or the InvalidArgumentException for fewer than two parts |
| CodeceptionParsers.OverrideYamlLines | src/Helpers/CodeceptionProjectParser.php:200-215 | an option gives text exactly when it has two or more ': ' parts; read back line by line the text is an empty line and then one line per key, indented two blanks per level, the last carrying the value; the parts rejoin to the option |
| CodeceptionParsers.PatchesOk | src/Helpers/CodeceptionProjectParser.php:198-227 | the patches exist exactly when every option has a key and its text parses, and then there is one text per option in order |
| CodeceptionParsers.FilterOutputPath | src/Helpers/CodeceptionProjectParser.php:250-265 | the loop keeps the options WithoutOutputPath keeps |
| CodeceptionParsers.WithoutOutputPathCounts | src/Helpers/CodeceptionProjectParser.php:250-265 | the filter drops every option that sets the output path and keeps every other as often as it was given |
| CodeceptionParsers.WithoutOutputPathAppend | src/Helpers/CodeceptionProjectParser.php:250-265 | the filter keeps the options' order |
| CodeceptionParsers.SetsOutputPath | src/Helpers/CodeceptionProjectParser.php:256 | the pattern matches 'paths:' followed by any run of whitespace and 'output:' in any letter case |
| CodeceptionParsers.SortBy | src/Helpers/CodeceptionProjectParser.php:103 | sorting the env options loses and invents none |
| CodeceptionParsers.SortBySorted | src/Helpers/CodeceptionProjectParser.php:103 | under a total preorder such as the natural order the sorted options are ordered |
| CodeceptionParsers.ResolveEnvNames | src/Helpers/CodeceptionProjectParser.php:94-115 | the loop returns the env names EnvNames defines |
| CodeceptionParsers.SplitEachJoin | src/Helpers/CodeceptionProjectParser.php:107-112 | splitting each option on ',' and flattening loses nothing: rejoined with ',' it is the options joined with ',' |
| CodeceptionParsers.EnvNamesJoin | src/Helpers/CodeceptionProjectParser.php:94-115 | the env names rejoined are the sorted options joined, there are none exactly when there are no options, and options from the console win over the stored ones |
| CodeceptionParsers.EnvOptionsSorted | src/Helpers/CodeceptionProjectParser.php:96-103 | the env options are taken in natural order and none is lost |
| CodeceptionParsers.OverrideSuiteConfigFromEnv | src/Helpers/CodeceptionProjectParser.php:234-248 | the loop's configuration and missing names are SuiteFromEnv's |
| CodeceptionParsers.SuiteFromEnvMissing | src/Helpers/CodeceptionProjectParser.php:234-248 | a missing env is skipped and never an error: only given names are reported missing, and with none found the suite configuration is unchanged |
| CodeceptionParsers.ThrowPersists | src/Helpers/CodeceptionSettingsParser.php:158-175 | the first unusable env ends the merge with its exception |
| CodeceptionParsers.ConfigFromEnvOk | src/Helpers/CodeceptionSettingsParser.php:158-175 | the older parser's merge succeeds exactly when every named env exists and does not set the output path, and otherwise throws a UsageException |
| CodeceptionParsers.Parser.constructor | src/Helpers/CodeceptionSettingsParser.php:19-21 | the parser holds the given settings and codeception configuration |
| CodeceptionParsers.Parser.OverrideCodeceptionConfigFromOptions | src/Helpers/CodeceptionSettingsParser.php:230-286 | the options are the console's or else the stored ones; a bad option throws and changes nothing; otherwise their texts are merged into the configuration and the stored override drops the output-path options |
| CodeceptionParsers.Parser.OverrideCodeceptionConfigFromEnv | src/Helpers/CodeceptionSettingsParser.php:134-176 | no env options change nothing; otherwise the env names are stored and the configuration becomes the merge of every env, or the first failure is returned with the configuration merged from the envs before the first unusable one |
| CodeceptionParsers.Parser.SetTestsPath | src/Helpers/CodeceptionSettingsParser.php:77-91 | the tests path is the realpath of the tests directory under the project, '' when realpath fails |
| CodeceptionParsers.TestsSubdirCases | src/Helpers/CodeceptionSettingsParser.php:81-84 | a configured tests path of '.' means the suite's directory, any other is used as configured |
| CodeceptionParsers.FindVendorPathSound | src/Helpers/CodeceptionProjectParser.php:325-344 | a found path is the vendor directory of an ancestor fewer than `tries` levels up, every directory below it having been passed by |
| CodeceptionParsers.FindVendorPathComplete | src/Helpers/CodeceptionProjectParser.php:325-344 | such a vendor directory is always the one found |
| CodeceptionParsers.FindVendorPathStops | src/Helpers/CodeceptionProjectParser.php:329-333 | no tries left, the root, or a path that is no directory: nothing is found |
| CodeceptionParsers.EnvStop | src/Helpers/CodeceptionSettingsParser.php:158-170 | the merge stops at the first unknown env or env that sets the output path, with the UsageException that names it |
| CodeceptionParsers.FirstUnusable | src/Helpers/CodeceptionSettingsParser.php:158-170 | every env before the index is usable and the env at it is not |

## Left out

- Process spawning, stdout/stderr capture and timeouts in the wrappers: each poll of a running unit is an observation (`Env`/`Obs`) passed in, and the clock is a parameter.
- The `usleep` between sweeps at src/Test/RunnersSupervisor.php:97: timing only.
- Supervisor.RunnersSupervisor.Run: runs over a finite script of sweeps, so a run that never ends is cut off where the script ends.
- `microtime` floats and float test times: clock and durations are whole integer ticks, and `ceil` is the identity on them. The delayer alone keeps real seconds: each call's three `microtime` readings are a `Readings` value passed in.
- `rebuildActor` (src/Paracestamol/ParacestamolRun.php:89-132) starts a subprocess: its success is the `rebuilt` parameter of Execute.
- The statistics service (src/Test/Statistics.php), `fetchTestDurations` and the parser subprocess behind `parseTests` are network or file I/O: the durations and parsed cests are inputs, and what is sent is recorded in the orchestrator's `sent` field.
- The runners supervisor that the orchestrator starts is the `supervise` parameter. cloneQueue is modelled (ParacestamolRun.Clones); only a test's own `__clone` is a parameter, the `clone` field of the test operations.
- `saveFailReport` writes a file; `outputExpectedRunDuration`, `outputFirstFailedTest`/`showFirstFail`, the Log class and all console output are UI and are not modelled.
- Partitioner.NotifyAboutLongTest: returns the test the note would name instead of writing the note to the log.
- KarmarkarKarp.Partitions: stated for `k >= 1` only; smartPartition picks Karmarkar–Karp only for 15 or more processes.
- Partitioner.StatBased: `foreach` over the caller's `Ds\Queue` drains that queue; the model reads the tests as a sequence and leaves the caller's queue alone.
- Wrapper log file names: the random part of a log file name is the `logStamp` field, not a random string. The loader gives every unit it builds the stamp 0, so loaded units share a stamp; only the failed tests a cluster creates and the clones get stamps of their own.
- YAML parsing, `Configuration::mergeConfigs`, the env files found by Symfony's Finder (the `envs` parameter), `strnatcmp` (the `natLe` parameter), `realpath` and the filesystem are parameters of the parsers.
- CodeceptionParsers: findConfigPath, findCodeceptionBinPath, setSupportPath, setOutputPath, setNamespace, setEnabledModules and setTestProjectPath are filesystem or Codeception library calls and are not modelled.
- The exception text's parsed-line suffix from the YAML library: the parsers throw the exception without it.
- `setRunId` (clock and `random_bytes`) and `noMemoryLimit` (`ini_set`) are not modelled.
- CommandParams: Symfony's snake-to-camel name converter is the `denormalize` parameter, and the dynamic setter call is recorded as a (setter name, value) pair.
- RunCommand.Run.Execute: the preparation steps before the resolutions are summed up as their outcome, the `Prepared` value.
- `mb_strtolower` is ASCII-only lower-casing.
- The parsing of php files (src/Test/Parser.php, ParserWrapper.php, ParacestamolParse.php, src/Command/Parse.php), `ClassHelper::getNameFromFile` and XmlLogParser's file reading are reflection and file I/O. A JUnit testcase is read from an abstract node.
- The factories, the DI wiring, SettingsSerializer, SettingsParse (getters and setters only), ParacetamolHelper (a Codeception module in the test process) and the bomblet wrapper's fail-fast override are not modelled; the last is folded into the cest wrapper.
- Runner: the accessors used by the supervisor but absent from src/Test/Runner.php (hasTestRunning, hasEmptyQueue, testsCount, popQueue, getMarkedSkippedTests, and setLabel/getLabel, called at src/Test/RunnersSupervisor.php:188-192 and modelled by Runner.Runner.SetLabel and the label field) are modelled by their evident meaning. Nothing in src/Test/Runner.php marks a test skipped, so the lanes of the model hold no marked-skipped tests (Supervisor.Save) and the copy loop at src/Test/RunnersSupervisor.php:241-245 adds nothing.
- Wrapper.ReadLog, Wrapper.LogName, Wrapper.CestCmdShape, Wrapper.SuccessRules, Wrapper.CestStatusPriority and Wrapper.ParseFailedTestsLoop: complete the unfinished move of the cest wrapper from the XML log to the JSON log. src/Test/CodeceptWrapper/Wrapper/CestWrapper.php passes `$this->jsonLogName` to `--json` (line 74) and reads `$this->parsedJsonLog` (lines 185, 192, 207, 227), but no file declares or assigns either one; only `xmlLogName` and `parsedXmlLog` exist (src/Test/CodeceptWrapper/AbstractCodeceptWrapper.php:24-27, 52-53). Its constructor also hands a JsonLogParserFactory, which extends nothing, to the parent parameter typed LogParserFactory (AbstractCodeceptWrapper.php:35). As written, a cest's parsed JSON log is therefore always null: parseFailedTests finds nothing, isSuccessful is always false, and the status is always the BROKEN message unless the cest timed out. The model instead gives each cest its own `.json` log name, passes it to `--json`, parses that log with JsonLogParser after the run, and builds the passed and failed records from it.
- The cest wrapper's `getMessagePlain` is not part of this model: it is the `plain` parameter.
- RunCommand.Run.ResolveParacetamolModule: its second branch (src/Command/Run.php:231) compares the helper class name with `substr` of itself from 0, which is the same string, so the branch can never set the module name. The model keeps the test and proves that it cannot fire (RunCommand.ModuleResolvedFields).
- TextHelper.StripSingleSpaces: states only that no two whitespace characters are adjacent in the result; what the result is, character by character, is stated by TextHelper.StripShape.
- TextHelper.StripShape: stated for texts without NUL characters, because `trim` also removes a NUL at an end; TextHelper.StripEdges covers every text.
- ParacestamolRun.Orchestrator.Execute: uses the corrected sort of the serial buckets (SortByPosition), which keeps every test; the sort as written is SortAsWritten (see Findings).
- ParacestamolRun.Orchestrator.GroupTests: sorts the serial buckets with the corrected sort, not the overwriting one as written.
- ParacestamolRun.BucketsCover: is about the buckets partitionInBeforeAfterGroups returns, before the sort; after the sort as written the serial buckets lose every test a later test of the same key overwrites (SortAsWrittenRule), so the buckets Execute runs cover the loaded tests only with the corrected sort.
- ParacestamolRun.Orchestrator.SortByTestNameParts: the corrected sort; the code as written is SortAsWritten, characterized by SortAsWrittenRule.
- Units.AddLeaf, Units.AddFailedTests, Units.AddFailedTestsLoop, Units.AddFailedTestsFresh, Units.FirstRunShape, Units.FirstRunCluster, Units.FirstRunFailed and Units.FreshTestsAt: name each new test after the failed record's `getMethod()`, the corrected behaviour; as written the loop calls `getName()`, which the JSON test records lack (see Findings, Units.AddFailedTestsAsWritten).

## Findings

| source | as written | input that shows it | evidently intended | confidence | as-written member | corrected member |
|---|---|---|---|---|---|---|
| src/Paracestamol/ParacestamolRun.php:362-369 | sortByTestNameParts stores each test in `$result[$position]`, keyed by the position of the configured name it matched, so two tests matching the same name overwrite each other | two tests that both match "tests/api/UserCest.php" come out as the last of them alone | every test is kept, ordered by the position of its match | not executed | ParacestamolRun.SortAsWrittenDropsTests | ParacestamolRun.SortByPositionRule |
| src/Paracestamol/ParacestamolRun.php:364-366 | a test whose match is none of the configured strings (a path rule returns the test's whole directory, not the configured path) has no position, so `$nameToPosition[$name]` is null and the test is stored under the key "", where such tests overwrite each other | two tests of "tests/api" under the configured path "tests" come out as the second alone | every test is kept; one without a position goes with position 0 | not executed | ParacestamolRun.SortAsWrittenDropsUnmatched | ParacestamolRun.SortByPositionRule |
| src/Test/CodeceptWrapper/Wrapper/ClusterCestWrapper.php:190 | parseFailedTestRecords asks each failed record for `getName()`, a method of the XML test-case records, but the cest wrapper's failed records are JSON test records (src/Helpers/JsonLogParser/Records/TestRecord.php), which only have `getMethod()` | once a cest's JSON log is parsed (the model completes that, see "## Left out", Wrapper.ReadLog), a cluster cest whose first run has one failing test raises an error instead of creating the test to rerun; as written no JSON log is ever parsed, so the failed list is always empty and this line is never reached | each failed record gives a test named after its `getMethod()` | not executed | Units.AddFailedTestsAsWritten | Units.AddFailedTestsFresh |
