# TestSpark test-generation pipeline, modelled in Dafny

This project models the core of TestSpark, an IntelliJ plugin that uses a language model
to generate unit tests. It covers the work done before and after the model is asked for
tests:

- **Request preparation** (`Llm.kt`, module `Llm`). The walk up the superclass chain picks
  the classes shown to the model. It starts at the class under test, skips duplicates, and
  stops at a missing superclass, an unnamed one, one in `java.`, or after
  `maxPolymorphismDepth` steps. Then the prompt is rebuilt while it is over the length
  limit. Each rebuild first lowers the polymorphism depth and then the input-parameter
  depth, and neither goes below 1. The prompt-reduction warning follows, and a request with
  no token is refused.
- **The provider call** (`GrazieRequestManager.kt`, module `Grazie`). The append-only chat
  history is kept, and `getMessages` projects it into pairs in order. Provider error text
  is turned into user notifications. A missing Grazie client is handled on its own path.
- **Paths and command lines** (`CommandLineService.kt`, module `CommandLine`). This covers:
  - the session result path;
  - the `getPath` class path and `getLibrary`;
  - the `.java`→`.class` rule that decides compile success;
  - the package directories of a saved test;
  - the JaCoCo test-run and report command lines;
  - the passing-test set, updated from the test run's stderr.
- **Coverage collection** (`TestCoverageCollector.kt`, module `Coverage`). A report entry is
  built for each test. `compileTestCases` keeps the test cases that compiled. `runJacoco`
  runs each test method under the agent and stops at the first missing XML report.
  `saveData` stores for each test:
  - the fully covered lines of the class's source file (`mi == "0"`);
  - together with them, the lines named by frames of the class under test in the stack
    trace of an exception the test threw.

Modules `Wrappers` (`Option`, `Result`), `Text` (the Kotlin string operations used:
`split` and `replace` with a literal delimiter, `contains`, `isBlank`, `toIntOrNull`,
`Int.toString`), `Notifications` (`LLMErrorManager` as an append-only log of errors and
warnings) and `Workspace` (the shared `TestGenerationData` counters and compilable list)
support the four core modules.

The outside world is reached only through parameters and oracle objects:

- processes (`ProcessRunner`, seen through the stderr of each command line, with a log of
  the commands run);
- file existence (`fileExists`) and the parsed JaCoCo report (`reportOf`);
- the PSI class hierarchy (`Hierarchy`);
- prompt building (`promptFor`) and the prompt length check (`withinLimit`);
- the message bundle (`bundle`) and the random data-file names (`randomName`).

Where the code differs from the documented behaviour, the model follows the code:

- A non-empty request error is reported: an error containing `invalid: 401` as the
  invalid-token message, any other error verbatim
  (`src/main/kotlin/org/jetbrains/research/testspark/tools/llm/generation/GrazieRequestManager.kt:29-35`).
  The `Pair("", null)` built after the report (line 37) is a discarded expression value, so
  `processResponse` still runs on the assembler the call returned (line 40).
- The test-run class path is `getPath(buildPath)` followed directly by the
  `JUnitRunner.jar` path, with no `:` between them. It is modelled as written.
- A frame of the class under test that has no `:` makes `split(":")[1]` throw. The model
  returns this as the error `FrameIndexOutOfBounds`. In `runJacoco` the error ends the
  pass, and `collect` returns it instead of a report.
- A frame is matched to the class under test by `frame.contains(classFQN)`, a plain
  substring test. A frame of a class whose name only starts with that name (`pkg.Calculator`
  for `pkg.Calc`) therefore contributes its line too. The model keeps this matching
  (`Coverage.PrefixNamedClassFrameCounts`).

## Model

| member | source | states |
|---|---|---|
| Coverage.FrameLineNumberFails | src/main/kotlin/org/jetbrains/research/testspark/tools/llm/generation/TestCoverageCollector.kt:136 | reading a frame's line number raises exactly when the frame has no `:` |
| Coverage.FrameLineNumber | src/main/kotlin/org/jetbrains/research/testspark/tools/llm/generation/TestCoverageCollector.kt:136 | a frame's line number: the piece after its first `:` (up to a second one), every `)` removed, read by `toIntOrNull`; a frame without `:` is the `split(":")[1]` exception. Characterised by `FrameLineNumberFails` and `StandardFrameLine` |
| Coverage.FrameContributionFails | src/main/kotlin/org/jetbrains/research/testspark/tools/llm/generation/TestCoverageCollector.kt:135-136 | a frame raises exactly when it mentions the class under test and has no `:` |
| Coverage.CollectFramesFailurePersists | src/main/kotlin/org/jetbrains/research/testspark/tools/llm/generation/TestCoverageCollector.kt:134-141 | once a frame raises, the whole frame loop ends with that exception |
| Coverage.CollectFramesFailure | src/main/kotlin/org/jetbrains/research/testspark/tools/llm/generation/TestCoverageCollector.kt:134-141 | the frame loop fails if and only if some frame's contribution raises |
| Coverage.CollectFramesMembers | src/main/kotlin/org/jetbrains/research/testspark/tools/llm/generation/TestCoverageCollector.kt:134-141 | a successful loop holds a number if and only if some frame contributes exactly that number |
| Coverage.CollectFrames | src/main/kotlin/org/jetbrains/research/testspark/tools/llm/generation/TestCoverageCollector.kt:134-141 | the frame loop: each frame's contribution collected in order, the first raising frame aborting the loop. Characterised by `CollectFramesFailure`, `CollectFramesMembers` and `CollectFramesFailurePersists` |
| Coverage.ExceptionLinesExact | src/main/kotlin/org/jetbrains/research/testspark/tools/llm/generation/TestCoverageCollector.kt:123-144 | for a non-blank error the header segment never counts; the result fails if and only if a later frame of the class has no `:`; otherwise a line is in the set if and only if some later frame mentioning `classFQN` parses to it (frames that do not parse are skipped) |
| Coverage.LinesCoveredDuringException | src/main/kotlin/org/jetbrains/research/testspark/tools/llm/generation/TestCoverageCollector.kt:123-144 | the exception lines: none for a blank error text, otherwise the frame loop over the segments after the header. Characterised by `ExceptionLinesExact` and `BlankErrorNoLines` |
| Coverage.BlankErrorNoLines | src/main/kotlin/org/jetbrains/research/testspark/tools/llm/generation/TestCoverageCollector.kt:124-126 | a blank error text gives the empty set |
| Coverage.StandardFrameLine | src/main/kotlin/org/jetbrains/research/testspark/tools/llm/generation/TestCoverageCollector.kt:136-139 | a frame `m(File.java:n)` gives line `n` |
| Coverage.PrefixNamedClassFrameCounts | src/main/kotlin/org/jetbrains/research/testspark/tools/llm/generation/TestCoverageCollector.kt:135-136 | a frame of a class whose name only starts with `classFQN` still contributes its line number |
| Coverage.FullyCoveredLinesExact | src/main/kotlin/org/jetbrains/research/testspark/tools/llm/generation/TestCoverageCollector.kt:168-171 | a line number is taken if and only if some `<line>` has `mi == "0"` and that `nr` |
| Coverage.ReportLinesExact | src/main/kotlin/org/jetbrains/research/testspark/tools/llm/generation/TestCoverageCollector.kt:166-171 | the report lines are exactly the `nr` of `mi == "0"` lines inside a `<sourcefile>` named `fileNameFQN`; other source files never contribute |
| Coverage.FullyCoveredLines | src/main/kotlin/org/jetbrains/research/testspark/tools/llm/generation/TestCoverageCollector.kt:168-171 | the `nr` of every `<line>` with `mi == "0"` in one source file. Characterised by `FullyCoveredLinesExact` |
| Coverage.ReportLines | src/main/kotlin/org/jetbrains/research/testspark/tools/llm/generation/TestCoverageCollector.kt:166-171 | the fully covered lines of every `<sourcefile>` named `fileNameFQN`. Characterised by `ReportLinesExact` |
| Coverage.ReportEntry | src/main/kotlin/org/jetbrains/research/testspark/tools/llm/generation/TestCoverageCollector.kt:186-192 | the entry `saveData` stores: the test's name and text, report lines together with exception lines, the other two sets empty. Used by `SavedUpToEntry` and `SaveData` |
| Coverage.CompileFlags | src/main/kotlin/org/jetbrains/research/testspark/tools/llm/generation/TestCoverageCollector.kt:75-76 | one flag per generated file: whether its derived class file exists |
| Coverage.CompiledIndices | src/main/kotlin/org/jetbrains/research/testspark/tools/llm/generation/TestCoverageCollector.kt:75-79 | the compiled indices, strictly ascending, with every index that compiled and no other |
| Coverage.CompilableStep | src/main/kotlin/org/jetbrains/research/testspark/tools/llm/generation/TestCoverageCollector.kt:76-77 | judging one more file appends its test case exactly when it compiled |
| Coverage.CompilableExact | src/main/kotlin/org/jetbrains/research/testspark/tools/llm/generation/TestCoverageCollector.kt:75-79 | the compilable list is `testCases[i]` for exactly the compiled indices, in index order |
| Coverage.TestCoverageCollector.StopFrom | src/main/kotlin/org/jetbrains/research/testspark/tools/llm/generation/TestCoverageCollector.kt:91-114 | where a pass stops lies within the test cases, and no more cases are saved than exist |
| Coverage.TestCoverageCollector.StopFromExact | src/main/kotlin/org/jetbrains/research/testspark/tools/llm/generation/TestCoverageCollector.kt:105-113 | the pass stops exactly at the first missing XML report or the first trace that raises; every case before it had both a report and a readable trace |
| Coverage.TestCoverageCollector.TestClassName | src/main/kotlin/org/jetbrains/research/testspark/tools/llm/generation/TestCoverageCollector.kt:96 | `generatedTestFile.name.split('.')[0]`. Characterised by `TestClassNameShape` |
| Coverage.TestCoverageCollector.TestClassNameShape | src/main/kotlin/org/jetbrains/research/testspark/tools/llm/generation/TestCoverageCollector.kt:96 | the test class name is a `.`-free prefix of the file name, and the whole name when it has no `.` |
| Coverage.TestCoverageCollector.DataFileName | src/main/kotlin/org/jetbrains/research/testspark/tools/llm/generation/TestCoverageCollector.kt:93 | the `j`-th run's `jacoco-<random name>` base name in the test directory. Characterised by `DataFileNameShape` |
| Coverage.TestCoverageCollector.DataFileNameShape | src/main/kotlin/org/jetbrains/research/testspark/tools/llm/generation/TestCoverageCollector.kt:93 | the data file lies in the test directory with prefix `jacoco-` and reads back the random name; different random names give different data files |
| Coverage.TestCoverageCollector.SavedUpToEntry | src/main/kotlin/org/jetbrains/research/testspark/tools/llm/generation/TestCoverageCollector.kt:186-192 | after saving, a test's name maps to the entry from its last run: report lines together with exception lines |
| Coverage.TestCoverageCollector.SavedUpToUntouched | src/main/kotlin/org/jetbrains/research/testspark/tools/llm/generation/TestCoverageCollector.kt:186 | saving leaves every other name's entry (or absence) as it was |
| Coverage.TestCoverageCollector.PassingUpToLast | src/main/kotlin/org/jetbrains/research/testspark/tools/llm/generation/TestCoverageCollector.kt:91-103 | after a pass, a test passes if and only if its last run printed no stderr |
| Coverage.TestCoverageCollector.PassingUpToUntouched | src/main/kotlin/org/jetbrains/research/testspark/tools/llm/generation/TestCoverageCollector.kt:91-103 | names not run keep their passing status |
| Coverage.TestCoverageCollector.CollectLinesCoveredDuringException | src/main/kotlin/org/jetbrains/research/testspark/tools/llm/generation/TestCoverageCollector.kt:123-144 | the frame loop returns the exception lines, or the exception of the first bad frame |
| Coverage.TestCoverageCollector.ReadCoveredLines | src/main/kotlin/org/jetbrains/research/testspark/tools/llm/generation/TestCoverageCollector.kt:154-179 | the nested walk over source files and lines returns the report lines |
| Coverage.TestCoverageCollector.SaveData | src/main/kotlin/org/jetbrains/research/testspark/tools/llm/generation/TestCoverageCollector.kt:152-193 | only the key `testCase.name` is written: report lines together with exception lines, and the other two sets empty |
| Coverage.TestCoverageCollector.RunTestCase | src/main/kotlin/org/jetbrains/research/testspark/tools/llm/generation/TestCoverageCollector.kt:93-103 | one test run: the stderr returned, the passing set and the command log advanced by one case |
| Coverage.TestCoverageCollector.FinishTestCase | src/main/kotlin/org/jetbrains/research/testspark/tools/llm/generation/TestCoverageCollector.kt:105-113 | a missing report stops the pass with one error notice; a raising trace stops it; otherwise the case is saved |
| Coverage.TestCoverageCollector.RunJacocoStep | src/main/kotlin/org/jetbrains/research/testspark/tools/llm/generation/TestCoverageCollector.kt:91-114 | one iteration keeps the pass's invariants: saved report, passing set, command log, notices |
| Coverage.TestCoverageCollector.RunJacoco | src/main/kotlin/org/jetbrains/research/testspark/tools/llm/generation/TestCoverageCollector.kt:85-115 | the pass ends at the first stop; the cases before it are saved and no later case is saved; runs and report commands happen in order up to and including the stopping case; one error notice exactly when a report was missing |
| Coverage.TestCoverageCollector.Collect | src/main/kotlin/org/jetbrains/research/testspark/tools/llm/generation/TestCoverageCollector.kt:57-65 | runs one pass: the report holds the entries saved before the pass stopped, and the result is that report, or the exception a trace raised; the passing set and the command log advance over the cases run, up to and including the stopping case; one error notice exactly when a report was missing |
| Coverage.TestCoverageCollector.CompileOne | src/main/kotlin/org/jetbrains/research/testspark/tools/llm/generation/TestCoverageCollector.kt:76-78 | one file compiled; its test case is appended exactly when the file compiled |
| Coverage.TestCoverageCollector.CompileTestCases | src/main/kotlin/org/jetbrains/research/testspark/tools/llm/generation/TestCoverageCollector.kt:74-80 | appends exactly the compiled test cases, in order; one `javac` command per file is run; the depth counters are unchanged |
| CommandLine.ProcessRunner.RunCommandLine | src/main/kotlin/org/jetbrains/research/testspark/services/CommandLineService.kt:38-41 | runs the command (logged) and returns its stderr |
| CommandLine.UpdatePassing | src/main/kotlin/org/jetbrains/research/testspark/services/CommandLineService.kt:163-168 | the test is passing if and only if its stderr is empty; no other name changes |
| CommandLine.TestsExecutionResultService.AddPassingTest | src/main/kotlin/org/jetbrains/research/testspark/services/CommandLineService.kt:165 | the passing set gains the test's name and nothing else changes |
| CommandLine.TestsExecutionResultService.RemoveFromPassingTest | src/main/kotlin/org/jetbrains/research/testspark/services/CommandLineService.kt:167 | the passing set loses the test's name and nothing else changes |
| CommandLine.TestResultDirectory | src/main/kotlin/org/jetbrains/research/testspark/services/CommandLineService.kt:23 | the result directory starts with the temporary directory and a separator and ends with `<sep>testSparkResults<sep>` |
| CommandLine.TestResultName | src/main/kotlin/org/jetbrains/research/testspark/services/CommandLineService.kt:24 | the result name starts with `test_gen_result_`, after which the session id reads back |
| CommandLine.ResultPath | src/main/kotlin/org/jetbrains/research/testspark/services/CommandLineService.kt:26 | the result path starts with the result directory, after which the result name reads back |
| CommandLine.ResultPathsDistinct | src/main/kotlin/org/jetbrains/research/testspark/services/CommandLineService.kt:22-26 | result paths of sessions with different ids differ, and all lie under `testSparkResults` |
| CommandLine.ClassFilePath | src/main/kotlin/org/jetbrains/research/testspark/services/CommandLineService.kt:91 | `path.replace(".java", ".class")`. Characterised by `ClassFileOfJavaSource` and `ClassFileOfOtherPath` |
| CommandLine.ClassFileOfJavaSource | src/main/kotlin/org/jetbrains/research/testspark/services/CommandLineService.kt:90-91 | `<stem>.java` (no other `.java` in the stem) becomes `<stem>.class` |
| CommandLine.ClassFileOfOtherPath | src/main/kotlin/org/jetbrains/research/testspark/services/CommandLineService.kt:91 | a path without `.java` is left unchanged |
| CommandLine.PackageDirectories | src/main/kotlin/org/jetbrains/research/testspark/services/CommandLineService.kt:108-111 | each non-blank `.`-segment of the package followed by the separator. Characterised by `PackageDirectoriesShape` and `PackageDirectoriesMirror` |
| CommandLine.PackageDirectoriesShape | src/main/kotlin/org/jetbrains/research/testspark/services/CommandLineService.kt:109-111 | blank segments alone give no directory; a non-empty result ends in the separator |
| CommandLine.PackageDirectoriesMirror | src/main/kotlin/org/jetbrains/research/testspark/services/CommandLineService.kt:109-111 | non-blank segments become the segments joined by the separator, plus a trailing separator |
| CommandLine.SourceFilesArguments | src/main/kotlin/org/jetbrains/research/testspark/services/CommandLineService.kt:184-187 | one `--sourcefiles <root>` pair per root, in order |
| CommandLine.AgentArgumentShape | src/main/kotlin/org/jetbrains/research/testspark/services/CommandLineService.kt:155 | the agent argument starts with the agent jar, carries `destfile=<data>.exec,append=false`, and ends with `includes=<classFQN>` |
| CommandLine.ClassPathShape | src/main/kotlin/org/jetbrains/research/testspark/services/CommandLineService.kt:157 | the test-run class path starts with `getPath` and ends with `:<resultPath>` |
| CommandLine.CommandLineService.GetLibrary | src/main/kotlin/org/jetbrains/research/testspark/services/CommandLineService.kt:64-67 | `<plugins>/TestSpark/lib/<name>`. Characterised by `GetLibraryLocation` and `LibraryPathsDistinct` |
| CommandLine.CommandLineService.GetLibraryLocation | src/main/kotlin/org/jetbrains/research/testspark/services/CommandLineService.kt:64-67 | every library lies in the plugin's `lib` directory and ends with `<sep><name>` |
| CommandLine.CommandLineService.LibraryPathsDistinct | src/main/kotlin/org/jetbrains/research/testspark/services/CommandLineService.kt:64-67 | different library names give different paths |
| CommandLine.CommandLineService.GetPath | src/main/kotlin/org/jetbrains/research/testspark/services/CommandLineService.kt:49-56 | the junit, hamcrest and mockito jars and the build path, joined by `:`. Characterised by `GetPathEntries` |
| CommandLine.CommandLineService.GetPathEntries | src/main/kotlin/org/jetbrains/research/testspark/services/CommandLineService.kt:49-56 | read back as a class path: the junit, hamcrest and mockito jars in that order, then the build path's entries |
| CommandLine.CommandLineService.CompileCommand | src/main/kotlin/org/jetbrains/research/testspark/services/CommandLineService.kt:81-88 | `javac -cp getPath(projectBuildPath) path`. Run and logged by `CompileCode` |
| CommandLine.CommandLineService.CompileCode | src/main/kotlin/org/jetbrains/research/testspark/services/CommandLineService.kt:77-95 | runs `javac -cp getPath(b) path`; success is exactly the existence of the derived class file, whatever the error text |
| CommandLine.CommandLineService.TestDirectory | src/main/kotlin/org/jetbrains/research/testspark/services/CommandLineService.kt:108-112 | `<resultPath><sep>` followed by the package directories. Characterised by `DefaultPackagePath` and `PackagePathMirrorsPackage` |
| CommandLine.CommandLineService.TestFilePath | src/main/kotlin/org/jetbrains/research/testspark/services/CommandLineService.kt:115-120 | the test file in the test directory. Characterised by `DefaultPackagePath` and `PackagePathMirrorsPackage` |
| CommandLine.CommandLineService.DefaultPackagePath | src/main/kotlin/org/jetbrains/research/testspark/services/CommandLineService.kt:108-120 | in the empty package the test file lies directly under `resultPath` |
| CommandLine.CommandLineService.PackagePathMirrorsPackage | src/main/kotlin/org/jetbrains/research/testspark/services/CommandLineService.kt:108-111 | for non-blank segments the directory is the package with each `.` turned into the separator |
| CommandLine.CommandLineService.SaveGeneratedTests | src/main/kotlin/org/jetbrains/research/testspark/services/CommandLineService.kt:106-121 | creates the package directory, writes the code to the file there, and returns the path written |
| CommandLine.CommandLineService.TestRunCommand | src/main/kotlin/org/jetbrains/research/testspark/services/CommandLineService.kt:152-161 | the `java` command line that runs one test method under the JaCoCo agent. Characterised by `TestRunCommandShape` |
| CommandLine.CommandLineService.TestRunCommandShape | src/main/kotlin/org/jetbrains/research/testspark/services/CommandLineService.kt:152-161 | six arguments: `java`, the agent, `-cp`, the class path, the runner, the target; the agent writes `<data>.exec` afresh and instruments the classes matching `classFQN`, which it names last (`includes=<classFQN>` ends the argument); the class path starts with `getPath` and ends with `:resultPath`; the target is `<package><class>#<test>` |
| CommandLine.CommandLineService.ReportCommand | src/main/kotlin/org/jetbrains/research/testspark/services/CommandLineService.kt:171-191 | the JaCoCo report command line. Characterised by `ReportCommandShape` |
| CommandLine.CommandLineService.ReportCommandShape | src/main/kotlin/org/jetbrains/research/testspark/services/CommandLineService.kt:171-191 | `9 + 2 × roots` arguments: the fixed head `java -jar <jacococli> report <data>.exec --classfiles <dir>`, then per-root `--sourcefiles <root>` pairs in order, then `--xml <data>.xml` |
| CommandLine.CommandLineService.CreateXmlFromJacoco | src/main/kotlin/org/jetbrains/research/testspark/services/CommandLineService.kt:135-198 | runs the test and then the report command; updates the passing set from the test's stderr; returns that stderr, not the report command's output |
| Llm.NextClass | src/main/kotlin/org/jetbrains/research/testgenie/tools/llm/Llm.kt:52-58 | the superclass the walk moves up to, or nothing. Characterised by `NextClassExact` |
| Llm.NextClassExact | src/main/kotlin/org/jetbrains/research/testgenie/tools/llm/Llm.kt:52-58 | the walk moves up exactly when the superclass exists, has a qualified name and is outside `java.`, and then to that superclass |
| Llm.Walk | src/main/kotlin/org/jetbrains/research/testgenie/tools/llm/Llm.kt:47-59 | the walk's remaining rounds from a given state. Characterised by `WalkProperties`; `SelectClassesToTest` is proved equal to it |
| Llm.WalkProperties | src/main/kotlin/org/jetbrains/research/testgenie/tools/llm/Llm.kt:46-59 | from any reachable state the walk's result extends the list, stays duplicate-free and chained, starts with the class under test, is bounded by the depth, and ends only at the bound, a dead end or a cycle |
| Llm.WalkStops | src/main/kotlin/org/jetbrains/research/testgenie/tools/llm/Llm.kt:48-57 | a round whose class has no admissible superclass ends in a final, well-formed list |
| Llm.WalkAdvances | src/main/kotlin/org/jetbrains/research/testgenie/tools/llm/Llm.kt:48-58 | a round that moves up keeps the walk invariant |
| Llm.SelectedClasses | src/main/kotlin/org/jetbrains/research/testgenie/tools/llm/Llm.kt:46-59 | empty for depth < 1; otherwise starts with the class under test, holds at most `depth` classes and no repeats; each later class is the superclass of the one before, named and outside `java.`; ends early only at a dead end or a repeat |
| Llm.SelectClassesToTest | src/main/kotlin/org/jetbrains/research/testgenie/tools/llm/Llm.kt:46-59 | the loop with `break` computes the selected classes |
| Llm.ReducedPrompt | src/main/kotlin/org/jetbrains/research/testgenie/tools/llm/Llm.kt:61-88 | the final prompt is the one built at the final depths; it fits, or both depths are at most 1; each counter rises by at most the depth's excess over 1; the input depth is lowered only once the polymorphism depth is at the floor; every skipped depth gave a prompt over the limit |
| Llm.ReductionBound | src/main/kotlin/org/jetbrains/research/testgenie/tools/llm/Llm.kt:61-88 | from fresh counters there are at most (P−1)+(I−1) reductions |
| Llm.NoReductionWhenFits | src/main/kotlin/org/jetbrains/research/testgenie/tools/llm/Llm.kt:71-87 | a prompt that fits is used as it is, with no counter changed |
| Llm.ReductionWarning | src/main/kotlin/org/jetbrains/research/testgenie/tools/llm/Llm.kt:93-97 | the bundle's `promptReduction` text and the two final depths. Characterised by `ReductionWarningShape` |
| Llm.ReductionWarningShape | src/main/kotlin/org/jetbrains/research/testgenie/tools/llm/Llm.kt:93-97 | the warning opens with the bundle's text on a line of its own and ends with the input-parameter depth |
| Llm.PreparedRequest | src/main/kotlin/org/jetbrains/research/testgenie/tools/llm/Llm.kt:35-88 | the classes selected at the current depth, then the reduction loop over the prompt built from them. Characterised by `PreparedRequestPrompt` |
| Llm.PreparedRequestPrompt | src/main/kotlin/org/jetbrains/research/testgenie/tools/llm/Llm.kt:35-88 | the prompt is built for the class under test and the selected classes at the depths the reduction settled on; it fits, or both depths are at the floor |
| Llm.ReducePrompt | src/main/kotlin/org/jetbrains/research/testgenie/tools/llm/Llm.kt:61-88 | the `while (true)` loop leaves the counters and the prompt as the reduction prescribes |
| Llm.Llm.GetLLMProcessManager | src/main/kotlin/org/jetbrains/research/testgenie/tools/llm/Llm.kt:35-104 | the manager carries the reduced prompt for the selected classes; one warning with the final depths exactly when a counter is non-zero and the prompt fits |
| Llm.Llm.IsCorrectToken | src/main/kotlin/org/jetbrains/research/testgenie/tools/llm/Llm.kt:113-119 | true exactly when a token is set; otherwise one `missingToken` error |
| Llm.Llm.GenerateTests | src/main/kotlin/org/jetbrains/research/testgenie/tools/llm/Llm.kt:127-160 | with no token: refused, with the `missingToken` error reported and the counters untouched; otherwise the manager carries the prepared prompt, the counters are the ones the reduction settled on, and the only notice is the reduction warning with the final depths, appended exactly when a counter is non-zero and the prompt fits |
| Grazie.MessagePairs | src/main/kotlin/org/jetbrains/research/testspark/tools/llm/generation/GrazieRequestManager.kt:47-53 | one `(role, content)` pair per history entry, same length and order |
| Grazie.ReportedError | src/main/kotlin/org/jetbrains/research/testspark/tools/llm/generation/GrazieRequestManager.kt:29-35 | the notice a request error turns into. Characterised by `ReportedErrorExact` |
| Grazie.ReportedErrorExact | src/main/kotlin/org/jetbrains/research/testspark/tools/llm/generation/GrazieRequestManager.kt:29-35 | reported if and only if the error is non-empty; the message is never empty and never repeats `invalid: 401`; 401 errors become the invalid-token message, others are shown verbatim |
| Grazie.MessageLacksMarker | src/main/kotlin/org/jetbrains/research/testspark/tools/llm/generation/GrazieRequestManager.kt:32 | the invalid-token message does not itself mention `invalid: 401` |
| Grazie.GrazieRequestManager.GetMessages | src/main/kotlin/org/jetbrains/research/testspark/tools/llm/generation/GrazieRequestManager.kt:47-53 | the loop returns the history's pairs |
| Grazie.GrazieRequestManager.Request | src/main/kotlin/org/jetbrains/research/testspark/tools/llm/generation/GrazieRequestManager.kt:10-45 | appends exactly one user message; without the client: `("", null)` and the unavailable error; otherwise sends the whole history with the token, reports a non-empty error, and still returns `processResponse`'s result |
| Text.Split | src/main/kotlin/org/jetbrains/research/testspark/tools/llm/generation/TestCoverageCollector.kt:131 | at least one piece; no piece holds the delimiter; joining the pieces gives the input back |
| Text.RemoveAllChar | src/main/kotlin/org/jetbrains/research/testspark/tools/llm/generation/TestCoverageCollector.kt:136 | after `replace(")", "")` no `)` remains |
| Text.IntToStringRoundTrip | src/main/kotlin/org/jetbrains/research/testgenie/tools/llm/Llm.kt:95-96 | parsing a printed `Int` gives it back |

## Left out

- Processes: `runCommandLine` is an oracle that gives the stderr of each command line.
  `ScriptRunnerUtil`'s 30-second timeout and the process's standard output are not modelled.
- The `javac` and `java` binaries found by walking the SDK home are constructor parameters.
  A failed lookup, where `.first()` throws, is not modelled.
- Files: `File.exists` is the `fileExists` parameter. Directory creation and `writeText`
  update a map of files that cannot fail. Disk errors are not modelled.
- The konsume-xml parser: the JaCoCo report is given already parsed, as its `<sourcefile>`
  elements in document order, each with its `(nr, mi)` lines. The other elements are
  ignored, as the source ignores them. A `nr` that fails `toInt()` is not modelled.
- `Report.normalized()`: its body is not part of this model, so `collect` returns the map as
  it was built.
- Random names: the 20 random letters of the `jacoco-…` file name are `randomName(j)`, and the
  session `UUID` is the `id` parameter. The names are not assumed to be unique.
- The PSI and the IDE: the class hierarchy is the `Hierarchy` oracle.
  `getSurroundingClass`/`Method`/`Line` and `generateMethodDescriptor` are reduced to the
  `CodeType` value they yield. The action event, project services, progress indicator texts
  and logging are not modelled.
- `PromptManager`, `isPromptLengthWithinLimit`, `SettingsArguments` and `TestGenieBundle`
  are parameters:
  - `promptFor`;
  - `withinLimit`;
  - the configured depths and `isTokenSet`, with depth = configured value − counter;
  - `bundle`.
- `createLLMPipeline(e).runTestGeneration`: not modelled. `GenerateTests` returns the
  manager the pipeline would be started with.
- Grazie:
  - the `Class.forName` lookup is `providerAvailable`;
  - the client's `request` call is `send`;
  - `processResponse`/`TestsAssembler` (not part of this model) is the `processResponse`
    parameter;
  - exceptions other than `ClassNotFoundException` are not modelled.
- Other Kotlin exceptions are not modelled: `!!` on null, and `split('.')[0]` on the test
  file name, which cannot fail. The `classesToTest[0]` access is turned into the
  precondition that the polymorphism depth is at least 1. The one exception that is
  modelled is the failing `split(":")[1]` on a frame with no `:`.
- Text.ToIntOrNull: accepts ASCII decimal digits only. Kotlin also accepts other Unicode
  decimal digits.
- Text.IsWhitespace: the fixed list of Java whitespace and Unicode space characters. It is
  not derived from the Unicode tables.
- Coverage.TestCoverageCollector.SavedUpTo: a case whose trace raises is passed over. A pass
  never saves past such a case, so below `SavedCount` this never matters.
- `LLMErrorManager` and `TestsExecutionResultService` (not part of this model): modelled as
  an append-only notice log and a set of names.
