/**
 * `TestCoverageCollector`: compile the generated tests, run each test method under the
 * JaCoCo agent, and store per test the lines of the class under test it covered — the
 * fully covered lines of the JaCoCo XML report plus the lines named by the stack trace
 * of an exception the test threw.
 */
module Coverage {
  import opened Wrappers
  import opened Text
  import opened CommandLine
  import opened Notifications
  import opened Workspace

  /** A report entry: name, code, covered lines and two coverage sets this collector leaves empty. */
  datatype TestCase = TestCase(testName: string, testCode: string, coveredLines: set<int>,
                               coveredMutants: set<string>, coveredBranches: set<string>)

  /** A `<line>` element of the JaCoCo XML report: its `nr` and `mi` attributes. */
  datatype LineRecord = LineRecord(nr: int, mi: string)

  /** A `<sourcefile>` element: its `name` attribute and its `<line>` elements, in document order. */
  datatype SourceFileRecord = SourceFileRecord(name: string, lines: seq<LineRecord>)

  /** The `<sourcefile>` elements of all `<package>` elements of a report, in document order. */
  type XmlReport = seq<SourceFileRecord>

  /** The exception `frame.split(":")[1]` throws for a frame of the class under test without a `:`. */
  datatype CollectError = FrameIndexOutOfBounds(frame: string)

  /** How a pass over the test cases ended. */
  datatype RunOutcome = Finished | ReportMissing(index: nat) | Raised(index: nat, error: CollectError)

  const FrameSeparator: string := "\n\tat "
  const ReportMissingMessage: string := "Something went wrong with generating Jacoco report."

  /**
   * The line number in one stack frame: the piece after the first `:` (up to a second
   * one), with every `)` removed, if it parses as an `Int`; no piece there is an error.
   */
  function FrameLineNumber(frame: string): Result<Option<int>, CollectError>
  {
    var pieces := Split(frame, ":");
    if |pieces| < 2 then Failure(FrameIndexOutOfBounds(frame))
    else Success(ToIntOrNull(ReplaceAll(pieces[1], ")", "")))
  }

  /** What one frame contributes: nothing unless it mentions the class under test. */
  function FrameContribution(frame: string, classFQN: string): Result<Option<int>, CollectError>
  {
    if Contains(frame, classFQN) then FrameLineNumber(frame) else Success(None)
  }

  function Contribution(classFQN: string): string -> Result<Option<int>, CollectError> {
    frame => FrameContribution(frame, classFQN)
  }

  /**
   * The loop over the frames: collect what each frame contributes, in order; the first
   * frame whose contribution is an error aborts the loop with it.
   */
  function CollectFrames(frames: seq<string>, contribution: string -> Result<Option<int>, CollectError>): Result<set<int>, CollectError>
    decreases |frames|
  {
    if |frames| == 0 then Success({})
    else
      match CollectFrames(frames[..|frames| - 1], contribution)
      case Failure(e) => Failure(e)
      case Success(lines) =>
        match contribution(frames[|frames| - 1])
        case Failure(e) => Failure(e)
        case Success(None) => Success(lines)
        case Success(Some(n)) => Success(lines + {n})
  }

  /**
   * `collectLinesCoveredDuringException`: nothing for a blank error text; otherwise the
   * lines named by the frames after the header segment.
   */
  function LinesCoveredDuringException(testExecutionError: string, classFQN: string): Result<set<int>, CollectError>
  {
    if IsBlank(testExecutionError) then Success({})
    else CollectFrames(Split(testExecutionError, FrameSeparator)[1..], Contribution(classFQN))
  }

  /** A blank error text (no exception) recovers no lines. */
  lemma BlankErrorNoLines(testExecutionError: string, classFQN: string)
    requires IsBlank(testExecutionError)
    ensures LinesCoveredDuringException(testExecutionError, classFQN) == Success({})
  {
  }

  /** A frame of the class under test that makes `split(":")[1]` throw: it has no `:`. */
  predicate BadFrame(frame: string, classFQN: string) {
    Contains(frame, classFQN) && ':' !in frame
  }

  /** Reading a frame's line number fails exactly when the frame has no `:`. */
  lemma FrameLineNumberFails(frame: string)
    ensures FrameLineNumber(frame).Failure? <==> ':' !in frame
  {
    ContainsChar(frame, ':');
    assert ":" == [':'];
    match IndexOf(frame, ":")
    case None =>
    case Some(i) =>
      NoOccurrenceBefore(frame, ":", i);
      assert |Split(frame, ":")| >= 2;
  }

  /** Once a prefix of the frames fails, the whole loop fails with the same exception. */
  lemma {:induction false} CollectFramesFailurePersists(frames: seq<string>, contribution: string -> Result<Option<int>, CollectError>, i: nat)
    requires i <= |frames| && CollectFrames(frames[..i], contribution).Failure?
    ensures CollectFrames(frames, contribution) == CollectFrames(frames[..i], contribution)
    decreases |frames|
  {
    if i == |frames| {
      assert frames[..i] == frames;
    } else {
      var init := frames[..|frames| - 1];
      assert init[..i] == frames[..i];
      CollectFramesFailurePersists(init, contribution, i);
    }
  }

  /** The loop fails exactly when some frame's contribution is an error. */
  lemma {:induction false} CollectFramesFailure(frames: seq<string>, contribution: string -> Result<Option<int>, CollectError>)
    ensures CollectFrames(frames, contribution).Failure?
            <==> exists k :: 0 <= k < |frames| && contribution(frames[k]).Failure?
    decreases |frames|
  {
    if |frames| > 0 {
      var init := frames[..|frames| - 1];
      CollectFramesFailure(init, contribution);
      assert forall k :: 0 <= k < |init| ==> init[k] == frames[k];
    }
  }

  /** A successful loop collects exactly the line numbers the frames contribute. */
  lemma {:induction false} CollectFramesMembers(frames: seq<string>, contribution: string -> Result<Option<int>, CollectError>, n: int)
    requires CollectFrames(frames, contribution).Success?
    ensures n in CollectFrames(frames, contribution).value
            <==> exists k :: 0 <= k < |frames| && contribution(frames[k]) == Success(Some(n))
    decreases |frames|
  {
    if |frames| > 0 {
      var init := frames[..|frames| - 1];
      CollectFramesMembers(init, contribution, n);
      assert forall k :: 0 <= k < |init| ==> init[k] == frames[k];
    }
  }

  /** A frame's contribution is an error exactly when it is a bad frame. */
  lemma FrameContributionFails(frame: string, classFQN: string)
    ensures FrameContribution(frame, classFQN).Failure? <==> BadFrame(frame, classFQN)
  {
    FrameLineNumberFails(frame);
  }

  /**
   * For a non-blank error text the header segment never contributes: the collection
   * fails exactly when a later frame is bad, and otherwise holds exactly the lines that
   * later frames mentioning the class under test name.
   */
  lemma ExceptionLinesExact(testExecutionError: string, classFQN: string)
    requires !IsBlank(testExecutionError)
    ensures var frames := Split(testExecutionError, FrameSeparator);
      && (LinesCoveredDuringException(testExecutionError, classFQN).Failure?
          <==> exists k :: 1 <= k < |frames| && BadFrame(frames[k], classFQN))
      && (LinesCoveredDuringException(testExecutionError, classFQN).Success? ==>
          forall n :: n in LinesCoveredDuringException(testExecutionError, classFQN).value
                      <==> exists k :: 1 <= k < |frames| && Contains(frames[k], classFQN)
                                       && FrameLineNumber(frames[k]) == Success(Some(n)))
  {
    var frames := Split(testExecutionError, FrameSeparator);
    var tail := frames[1..];
    var c := Contribution(classFQN);
    CollectFramesFailure(tail, c);
    forall k | 1 <= k < |frames|
      ensures tail[k - 1] == frames[k]
      ensures c(frames[k]).Failure? <==> BadFrame(frames[k], classFQN)
    {
      FrameContributionFails(frames[k], classFQN);
    }
    if (exists k :: 1 <= k < |frames| && BadFrame(frames[k], classFQN)) {
      var k :| 1 <= k < |frames| && BadFrame(frames[k], classFQN);
      assert c(tail[k - 1]).Failure?;
    }
    if CollectFrames(tail, c).Success? {
      forall n
        ensures n in CollectFrames(tail, c).value
                <==> exists k :: 1 <= k < |frames| && Contains(frames[k], classFQN)
                                 && FrameLineNumber(frames[k]) == Success(Some(n))
      {
        CollectFramesMembers(tail, c, n);
        if exists k :: 0 <= k < |tail| && c(tail[k]) == Success(Some(n)) {
          var k :| 0 <= k < |tail| && c(tail[k]) == Success(Some(n));
          assert frames[k + 1] == tail[k];
        }
        if exists k :: 1 <= k < |frames| && Contains(frames[k], classFQN) && FrameLineNumber(frames[k]) == Success(Some(n)) {
          var k :| 1 <= k < |frames| && Contains(frames[k], classFQN) && FrameLineNumber(frames[k]) == Success(Some(n));
          assert c(tail[k - 1]) == Success(Some(n));
        }
      }
    }
  }

  /** Decimal digits contain no non-digit character. */
  lemma DigitsLackChar(s: string, c: char)
    requires AllDigits(s) && !IsDigit(c)
    ensures c !in s
  {
  }

  /** Splitting `head:tail` on `:` gives the two halves when neither holds a `:`. */
  lemma SplitAtColon(head: string, tail: string)
    requires ':' !in head && ':' !in tail
    ensures Split(head + ":" + tail, ":") == [head, tail]
  {
    assert [head, tail][1..] == [tail];
    assert Join([head, tail], [':']) == head + ":" + tail;
    SplitJoinChar([head, tail], ':');
  }

  /** `"<digits>)".replace(")", "")` is the digits. */
  lemma StripClosingParen(digits: string)
    requires ')' !in digits
    ensures ReplaceAll(digits + ")", ")", "") == digits
  {
    assert [digits, ""][1..] == [""];
    assert Join([digits, ""], [')']) == digits + ")";
    SplitJoinChar([digits, ""], ')');
    assert Join([digits, ""], "") == digits;
  }

  /**
   * A standard frame `method(File.java:<n>)`, with no `:` in the method and file names,
   * yields its line number `n`.
   */
  lemma StandardFrameLine(methodName: string, file: string, n: nat)
    requires ':' !in methodName && ':' !in file && n <= IntMax
    ensures FrameLineNumber(methodName + "(" + file + ":" + NatToString(n) + ")") == Success(Some(n))
  {
    var digits := NatToString(n);
    DigitsLackChar(digits, ':');
    DigitsLackChar(digits, ')');
    var head := methodName + "(" + file;
    var tail := digits + ")";
    assert ':' !in head;
    assert ':' !in tail;
    assert methodName + "(" + file + ":" + digits + ")" == head + ":" + tail;
    SplitAtColon(head, tail);
    StripClosingParen(digits);
    IntToStringRoundTrip(n);
  }

  /**
   * A frame is matched by a plain substring test, so a frame of another class whose
   * name starts with the class under test's name (`pkg.Calculator` for `pkg.Calc`) also
   * contributes its line number, whatever follows the common prefix.
   */
  lemma PrefixNamedClassFrameCounts(classFQN: string, nameRest: string, methodName: string, file: string, n: nat)
    requires ':' !in classFQN + nameRest + "." + methodName && ':' !in file && n <= IntMax
    ensures FrameContribution(classFQN + nameRest + "." + methodName + "(" + file + ":" + NatToString(n) + ")", classFQN)
            == Success(Some(n))
  {
    var qualified := classFQN + nameRest + "." + methodName;
    var frame := qualified + "(" + file + ":" + NatToString(n) + ")";
    assert frame == classFQN + nameRest + "." + methodName + "(" + file + ":" + NatToString(n) + ")";
    StandardFrameLine(qualified, file, n);
    assert frame[..|classFQN|] == classFQN;
  }

  /** The fully covered (`mi == "0"`) line numbers of one source file's `<line>` elements. */
  function FullyCoveredLines(lines: seq<LineRecord>): set<int>
    decreases |lines|
  {
    if |lines| == 0 then {}
    else
      var last := lines[|lines| - 1];
      FullyCoveredLines(lines[..|lines| - 1]) + (if last.mi == "0" then {last.nr} else {})
  }

  /** The fully covered lines of every `<sourcefile>` named `fileNameFQN`. */
  function ReportLines(xml: XmlReport, fileNameFQN: string): set<int>
    decreases |xml|
  {
    if |xml| == 0 then {}
    else
      var last := xml[|xml| - 1];
      ReportLines(xml[..|xml| - 1], fileNameFQN) + (if last.name == fileNameFQN then FullyCoveredLines(last.lines) else {})
  }

  lemma {:induction false} FullyCoveredLinesExact(lines: seq<LineRecord>)
    ensures forall n :: n in FullyCoveredLines(lines) <==> exists j :: 0 <= j < |lines| && lines[j].mi == "0" && lines[j].nr == n
    decreases |lines|
  {
    if |lines| > 0 {
      var init := lines[..|lines| - 1];
      FullyCoveredLinesExact(init);
      assert forall j :: 0 <= j < |init| ==> init[j] == lines[j];
    }
  }

  /**
   * The report lines are exactly the `nr` of the `<line>` elements with `mi == "0"` inside
   * a `<sourcefile>` named `fileNameFQN`; lines of other source files are never taken.
   */
  lemma {:induction false} ReportLinesExact(xml: XmlReport, fileNameFQN: string)
    ensures forall n :: n in ReportLines(xml, fileNameFQN)
                        <==> exists k, j :: 0 <= k < |xml| && xml[k].name == fileNameFQN
                                            && 0 <= j < |xml[k].lines| && xml[k].lines[j].mi == "0" && xml[k].lines[j].nr == n
    decreases |xml|
  {
    if |xml| > 0 {
      var init := xml[..|xml| - 1];
      var last := xml[|xml| - 1];
      ReportLinesExact(init, fileNameFQN);
      FullyCoveredLinesExact(last.lines);
      assert forall k :: 0 <= k < |init| ==> init[k] == xml[k];
    }
  }

  /** The entry `saveData` stores: report lines and exception lines together, the other two sets empty. */
  function ReportEntry(testCase: TestCaseGeneratedByLLM, reportLines: set<int>, exceptionLines: set<int>): TestCase
  {
    TestCase(testCase.name, testCase.text, reportLines + exceptionLines, {}, {})
  }

  /** Whether each generated test file compiled, judged by its class file existing. */
  function CompileFlags(paths: seq<string>, fileExists: string -> bool): (flags: seq<bool>)
    ensures |flags| == |paths|
    ensures forall i :: 0 <= i < |paths| ==> flags[i] == fileExists(ClassFilePath(paths[i]))
    decreases |paths|
  {
    if |paths| == 0 then []
    else CompileFlags(paths[..|paths| - 1], fileExists) + [fileExists(ClassFilePath(paths[|paths| - 1]))]
  }

  /** The test cases at the indices whose file compiled, in index order. */
  function Compilable(testCases: seq<TestCaseGeneratedByLLM>, compiled: seq<bool>): seq<TestCaseGeneratedByLLM>
    requires |compiled| <= |testCases|
    decreases |compiled|
  {
    if |compiled| == 0 then []
    else
      var n := |compiled| - 1;
      Compilable(testCases, compiled[..n]) + (if compiled[n] then [testCases[n]] else [])
  }

  /** Judging one more file extends the compilable list by that file's test case, if it compiled. */
  lemma CompilableStep(testCases: seq<TestCaseGeneratedByLLM>, compiled: seq<bool>, index: nat)
    requires index < |compiled| <= |testCases|
    ensures Compilable(testCases, compiled[..index + 1])
            == Compilable(testCases, compiled[..index]) + (if compiled[index] then [testCases[index]] else [])
  {
    assert compiled[..index + 1][..index] == compiled[..index];
  }

  /** The indices whose file compiled, ascending. */
  function CompiledIndices(compiled: seq<bool>): (indices: seq<nat>)
    ensures forall k :: 0 <= k < |indices| ==> indices[k] < |compiled| && compiled[indices[k]]
    ensures forall k, l :: 0 <= k < l < |indices| ==> indices[k] < indices[l]
    ensures forall i :: 0 <= i < |compiled| && compiled[i] ==> i in indices
    decreases |compiled|
  {
    if |compiled| == 0 then []
    else
      var n := |compiled| - 1;
      CompiledIndices(compiled[..n]) + (if compiled[n] then [n] else [])
  }

  /**
   * The compilable list holds `testCases[i]` for exactly the indices `i` that compiled,
   * in index order.
   */
  lemma {:induction false} CompilableExact(testCases: seq<TestCaseGeneratedByLLM>, compiled: seq<bool>)
    requires |compiled| <= |testCases|
    ensures |Compilable(testCases, compiled)| == |CompiledIndices(compiled)|
    ensures forall k :: 0 <= k < |CompiledIndices(compiled)|
                        ==> Compilable(testCases, compiled)[k] == testCases[CompiledIndices(compiled)[k]]
    decreases |compiled|
  {
    if |compiled| > 0 {
      CompilableExact(testCases, compiled[..|compiled| - 1]);
    }
  }

  class TestCoverageCollector {
    const classFQN: string
    const resultPath: string
    const generatedTestPaths: seq<string>
    /** `generatedTestFile.name` and `generatedTestFile.parentFile.absolutePath`. */
    const generatedTestFileName: string
    const generatedTestDirectory: string
    const generatedTestPackage: string
    const projectBuildPath: string
    const testCases: seq<TestCaseGeneratedByLLM>
    /** The compiler output path and source roots of the class under test's module. */
    const compilerOutputPath: string
    const sourceRoots: seq<string>
    const fileNameFQN: string
    /** The 20 random letters of the data file name chosen for the `j`-th run. */
    const randomName: nat -> string
    const service: CommandLineService
    const results: TestsExecutionResultService
    const workspace: TestGenerationData
    const errors: LLMErrorManager

    /** `report.testCaseList`. */
    var report: map<string, TestCase>

    constructor (classFQN: string, resultPath: string, generatedTestPaths: seq<string>,
                 generatedTestFileName: string, generatedTestDirectory: string, generatedTestPackage: string,
                 projectBuildPath: string, testCases: seq<TestCaseGeneratedByLLM>,
                 compilerOutputPath: string, sourceRoots: seq<string>, fileNameFQN: string,
                 randomName: nat -> string, service: CommandLineService, results: TestsExecutionResultService,
                 workspace: TestGenerationData, errors: LLMErrorManager)
      ensures this.classFQN == classFQN && this.resultPath == resultPath
      ensures this.generatedTestPaths == generatedTestPaths
      ensures this.generatedTestFileName == generatedTestFileName
      ensures this.generatedTestDirectory == generatedTestDirectory
      ensures this.generatedTestPackage == generatedTestPackage
      ensures this.projectBuildPath == projectBuildPath && this.testCases == testCases
      ensures this.compilerOutputPath == compilerOutputPath && this.sourceRoots == sourceRoots
      ensures this.fileNameFQN == fileNameFQN && this.randomName == randomName
      ensures this.service == service && this.results == results
      ensures this.workspace == workspace && this.errors == errors
      ensures report == map[]
    {
      this.classFQN := classFQN;
      this.resultPath := resultPath;
      this.generatedTestPaths := generatedTestPaths;
      this.generatedTestFileName := generatedTestFileName;
      this.generatedTestDirectory := generatedTestDirectory;
      this.generatedTestPackage := generatedTestPackage;
      this.projectBuildPath := projectBuildPath;
      this.testCases := testCases;
      this.compilerOutputPath := compilerOutputPath;
      this.sourceRoots := sourceRoots;
      this.fileNameFQN := fileNameFQN;
      this.randomName := randomName;
      this.service := service;
      this.results := results;
      this.workspace := workspace;
      this.errors := errors;
      report := map[];
    }

    /** `generatedTestFile.name.split('.')[0]`: the test class name, the file name up to its first `.`. */
    function TestClassName(): string
    {
      Split(generatedTestFileName, ".")[0]
    }

    /** The test class name is a `.`-free prefix of the file name, and all of it when the name has no `.`. */
    lemma TestClassNameShape()
      ensures StartsWith(generatedTestFileName, TestClassName()) && '.' !in TestClassName()
      ensures '.' !in generatedTestFileName ==> TestClassName() == generatedTestFileName
    {
      var parts := Split(generatedTestFileName, ".");
      assert |parts| > 1 ==> Join(parts, ".") == parts[0] + "." + Join(parts[1..], ".");
      assert Join(parts, ".")[..|parts[0]|] == parts[0];
      SplitPartsLackChar(generatedTestFileName, '.');
      assert "." == ['.'];
      if '.' !in generatedTestFileName {
        MissingCharNotContained(generatedTestFileName, ".", '.');
      }
    }

    /** The `.exec`/`.xml` base name of the `j`-th run: a `jacoco-` file named by the `j`-th random name. */
    function DataFileName(j: nat): string
    {
      generatedTestDirectory + "/jacoco-" + randomName(j)
    }

    /** Every data file is a `jacoco-` file in the test directory; runs with different random names never share one. */
    lemma DataFileNameShape(j: nat, k: nat)
      ensures StartsWith(DataFileName(j), generatedTestDirectory + "/jacoco-")
      ensures DataFileName(j)[|generatedTestDirectory + "/jacoco-"|..] == randomName(j)
      ensures randomName(j) != randomName(k) ==> DataFileName(j) != DataFileName(k)
    {
      var prefix := generatedTestDirectory + "/jacoco-";
      assert DataFileName(j) == prefix + randomName(j);
      assert DataFileName(k) == prefix + randomName(k);
      assert (prefix + randomName(j))[..|prefix|] == prefix;
      assert (prefix + randomName(j))[|prefix|..] == randomName(j);
      assert (prefix + randomName(k))[|prefix|..] == randomName(k);
    }

    function XmlFileName(j: nat): string {
      DataFileName(j) + ".xml"
    }

    function TestRun(j: nat): seq<string>
      requires j < |testCases|
    {
      service.TestRunCommand(TestClassName(), DataFileName(j), classFQN, testCases[j].name,
                             projectBuildPath, generatedTestPackage)
    }

    /** The stderr of running test case `j` under the agent. */
    function ExecutionError(j: nat): string
      requires j < |testCases|
    {
      service.runner.stderrOf(TestRun(j))
    }

    /** The entry test case `j` gets, or the exception its stack trace raises. */
    function CaseEntry(j: nat, reportOf: string -> XmlReport): Result<TestCase, CollectError>
      requires j < |testCases|
    {
      match LinesCoveredDuringException(ExecutionError(j), classFQN)
      case Failure(e) => Failure(e)
      case Success(exceptionLines) =>
        Success(ReportEntry(testCases[j], ReportLines(reportOf(XmlFileName(j)), fileNameFQN), exceptionLines))
    }

    /**
     * Where a pass started at test case `i` stops: at the first missing XML report, at the
     * first stack trace that raises, or after the last test case.
     */
    function StopFrom(i: nat, fileExists: string -> bool, reportOf: string -> XmlReport): (r: RunOutcome)
      requires i <= |testCases|
      ensures (r.ReportMissing? || r.Raised?) ==> i <= r.index < |testCases|
      ensures i <= SavedCount(r) <= |testCases|
      decreases |testCases| - i
    {
      if i == |testCases| then Finished
      else if !fileExists(XmlFileName(i)) then ReportMissing(i)
      else if CaseEntry(i, reportOf).Failure? then Raised(i, CaseEntry(i, reportOf).error)
      else StopFrom(i + 1, fileExists, reportOf)
    }

    /**
     * The pass stops exactly at the first problem: every test case before the stop had
     * its XML report and a readable stack trace, and the stop names the report that is
     * missing or the exception that the trace raised.
     */
    lemma {:induction false} StopFromExact(i: nat, fileExists: string -> bool, reportOf: string -> XmlReport)
      requires i <= |testCases|
      ensures var r := StopFrom(i, fileExists, reportOf);
        && (r.ReportMissing? ==> !fileExists(XmlFileName(r.index)))
        && (r.Raised? ==> fileExists(XmlFileName(r.index)) && CaseEntry(r.index, reportOf) == Failure(r.error))
        && (forall j :: i <= j < SavedCount(r) ==> fileExists(XmlFileName(j)) && CaseEntry(j, reportOf).Success?)
      decreases |testCases| - i
    {
      if i < |testCases| && fileExists(XmlFileName(i)) && CaseEntry(i, reportOf).Success? {
        StopFromExact(i + 1, fileExists, reportOf);
      }
    }

    /** How many test cases a pass with this outcome saved. */
    function SavedCount(outcome: RunOutcome): nat {
      match outcome
      case Finished => |testCases|
      case ReportMissing(i) => i
      case Raised(i, _) => i
    }

    /** How many test cases a pass with this outcome ran. */
    function RunCount(outcome: RunOutcome): nat {
      match outcome
      case Finished => |testCases|
      case ReportMissing(i) => i + 1
      case Raised(i, _) => i + 1
    }

    /**
     * The report after saving test cases `0 .. k-1` on top of `base` (a pass only saves
     * test cases whose entry was built, so a case that raised is passed over).
     */
    function SavedUpTo(base: map<string, TestCase>, k: nat, reportOf: string -> XmlReport): map<string, TestCase>
      requires k <= |testCases|
      decreases k
    {
      if k == 0 then base
      else if CaseEntry(k - 1, reportOf).Failure? then SavedUpTo(base, k - 1, reportOf)
      else SavedUpTo(base, k - 1, reportOf)[testCases[k - 1].name := CaseEntry(k - 1, reportOf).value]
    }

    /** The passing set after running test cases `0 .. k-1`. */
    function PassingUpTo(base: set<string>, k: nat): set<string>
      requires k <= |testCases|
      decreases k
    {
      if k == 0 then base
      else UpdatePassing(PassingUpTo(base, k - 1), testCases[k - 1].name, ExecutionError(k - 1))
    }

    function ReportRun(j: nat): seq<string> {
      service.ReportCommand(DataFileName(j), compilerOutputPath, sourceRoots)
    }

    /** The commands run for test cases `0 .. k-1`: each test run followed by its report command. */
    function CommandsUpTo(k: nat): seq<seq<string>>
      requires k <= |testCases|
      decreases k
    {
      if k == 0 then []
      else CommandsUpTo(k - 1) + [TestRun(k - 1), ReportRun(k - 1)]
    }

    /** Test case `j` is the last one before `k` with its name. */
    predicate LastRunOf(j: nat, k: nat)
      requires k <= |testCases|
    {
      j < k && forall l :: j < l < k ==> testCases[l].name != testCases[j].name
    }

    /**
     * After saving `0 .. k-1`, the entry under a test's name is the one built from its
     * last run: its report lines together with its exception lines.
     */
    lemma {:induction false} SavedUpToEntry(base: map<string, TestCase>, k: nat, reportOf: string -> XmlReport, j: nat)
      requires k <= |testCases|
      requires LastRunOf(j, k) && CaseEntry(j, reportOf).Success?
      ensures testCases[j].name in SavedUpTo(base, k, reportOf)
      ensures SavedUpTo(base, k, reportOf)[testCases[j].name] == CaseEntry(j, reportOf).value
      decreases k
    {
      if j < k - 1 {
        SavedUpToEntry(base, k - 1, reportOf, j);
      }
    }

    /** Saving `0 .. k-1` leaves every other name as it was in `base`. */
    lemma {:induction false} SavedUpToUntouched(base: map<string, TestCase>, k: nat, reportOf: string -> XmlReport, name: string)
      requires k <= |testCases|
      requires forall i :: 0 <= i < k ==> testCases[i].name != name
      ensures name in SavedUpTo(base, k, reportOf) <==> name in base
      ensures name in base ==> SavedUpTo(base, k, reportOf)[name] == base[name]
      decreases k
    {
      if k > 0 {
        SavedUpToUntouched(base, k - 1, reportOf, name);
      }
    }

    /** After running `0 .. k-1`, a test passes exactly when its last run printed no stderr. */
    lemma {:induction false} PassingUpToLast(base: set<string>, k: nat, j: nat)
      requires k <= |testCases|
      requires LastRunOf(j, k)
      ensures testCases[j].name in PassingUpTo(base, k) <==> ExecutionError(j) == ""
      decreases k
    {
      if j < k - 1 {
        PassingUpToLast(base, k - 1, j);
      }
    }

    /** Running `0 .. k-1` leaves the status of every other name as it was. */
    lemma {:induction false} PassingUpToUntouched(base: set<string>, k: nat, name: string)
      requires k <= |testCases|
      requires forall i :: 0 <= i < k ==> testCases[i].name != name
      ensures name in PassingUpTo(base, k) <==> name in base
      decreases k
    {
      if k > 0 {
        PassingUpToUntouched(base, k - 1, name);
      }
    }

    /** `collectLinesCoveredDuringException`, as the source runs it: a loop over the frames. */
    method CollectLinesCoveredDuringException(testExecutionError: string) returns (r: Result<set<int>, CollectError>)
      ensures r == LinesCoveredDuringException(testExecutionError, classFQN)
    {
      if IsBlank(testExecutionError) {
        return Success({});
      }
      var result: set<int> := {};
      var frames := Split(testExecutionError, FrameSeparator);
      frames := frames[1..];
      var i := 0;
      while i < |frames|
        invariant 0 <= i <= |frames|
        invariant CollectFrames(frames[..i], Contribution(classFQN)) == Success(result)
      {
        var frame := frames[i];
        assert frames[..i + 1][..i] == frames[..i];
        if Contains(frame, classFQN) {
          var pieces := Split(frame, ":");
          if |pieces| < 2 {
            assert CollectFrames(frames[..i + 1], Contribution(classFQN)) == Failure(FrameIndexOutOfBounds(frame));
            CollectFramesFailurePersists(frames, Contribution(classFQN), i + 1);
            return Failure(FrameIndexOutOfBounds(frame));
          }
          var coveredLineNumber := ToIntOrNull(ReplaceAll(pieces[1], ")", ""));
          if coveredLineNumber.Some? {
            result := result + {coveredLineNumber.value};
          }
        }
        i := i + 1;
      }
      assert frames[..i] == frames;
      return Success(result);
    }

    /** The walk over the report's `<sourcefile>` and `<line>` elements in `saveData`. */
    method ReadCoveredLines(xml: XmlReport) returns (setOfLines: set<int>)
      ensures setOfLines == ReportLines(xml, fileNameFQN)
    {
      setOfLines := {};
      var k := 0;
      while k < |xml|
        invariant 0 <= k <= |xml|
        invariant setOfLines == ReportLines(xml[..k], fileNameFQN)
      {
        assert xml[..k + 1][..k] == xml[..k];
        var isCorrectSourceFile := xml[k].name == fileNameFQN;
        var lines := xml[k].lines;
        ghost var before := setOfLines;
        var j := 0;
        while j < |lines|
          invariant 0 <= j <= |lines|
          invariant setOfLines == before + (if isCorrectSourceFile then FullyCoveredLines(lines[..j]) else {})
        {
          assert lines[..j + 1][..j] == lines[..j];
          if isCorrectSourceFile && lines[j].mi == "0" {
            setOfLines := setOfLines + {lines[j].nr};
          }
          j := j + 1;
        }
        assert lines[..j] == lines;
        k := k + 1;
      }
      assert xml[..k] == xml;
    }

    /**
     * `saveData`: store under the test's name its report lines together with the lines
     * recovered from the exception; every other entry stays as it was.
     */
    method SaveData(testCase: TestCaseGeneratedByLLM, linesCoveredDuringTheException: set<int>,
                    xmlFileName: string, reportOf: string -> XmlReport)
      modifies this
      ensures report == old(report)[testCase.name :=
                TestCase(testCase.name, testCase.text,
                         ReportLines(reportOf(xmlFileName), fileNameFQN) + linesCoveredDuringTheException, {}, {})]
    {
      var setOfLines := ReadCoveredLines(reportOf(xmlFileName));
      setOfLines := setOfLines + linesCoveredDuringTheException;
      report := report[testCase.name := TestCase(testCase.name, testCase.text, setOfLines, {}, {})];
    }

    /** One iteration's `createXmlFromJacoco` call for test case `i`. */
    method RunTestCase(i: nat, ghost passing0: set<string>, ghost executed0: seq<seq<string>>)
      returns (testExecutionError: string)
      requires i < |testCases|
      requires results.passingTests == PassingUpTo(passing0, i)
      requires service.runner.executed == executed0 + CommandsUpTo(i)
      modifies service.runner, results
      ensures testExecutionError == ExecutionError(i)
      ensures results.passingTests == PassingUpTo(passing0, i + 1)
      ensures service.runner.executed == executed0 + CommandsUpTo(i + 1)
    {
      testExecutionError := service.CreateXmlFromJacoco(
        TestClassName(), DataFileName(i), classFQN, testCases[i].name, projectBuildPath, generatedTestPackage,
        compilerOutputPath, sourceRoots, results);
    }

    /**
     * The rest of one iteration of `runJacoco`: stop (reporting a missing XML report) or
     * raise, or save test case `i`.
     */
    method FinishTestCase(i: nat, testExecutionError: string, fileExists: string -> bool, reportOf: string -> XmlReport,
                          ghost report0: map<string, TestCase>)
      returns (stop: Option<RunOutcome>)
      requires i < |testCases| && testExecutionError == ExecutionError(i)
      requires StopFrom(i, fileExists, reportOf) == StopFrom(0, fileExists, reportOf)
      requires report == SavedUpTo(report0, i, reportOf)
      modifies this, errors
      ensures stop.Some? ==> stop.value == StopFrom(0, fileExists, reportOf) && RunCount(stop.value) == i + 1
                             && report == SavedUpTo(report0, SavedCount(stop.value), reportOf)
      ensures stop.None? ==> StopFrom(i + 1, fileExists, reportOf) == StopFrom(0, fileExists, reportOf)
                             && report == SavedUpTo(report0, i + 1, reportOf)
      ensures errors.notices == old(errors.notices) + (if stop.Some? && stop.value.ReportMissing? then [Error(ReportMissingMessage)] else [])
    {
      var dataFileName := DataFileName(i);
      if !fileExists(dataFileName + ".xml") {
        errors.ErrorProcess(ReportMissingMessage);
        return Some(ReportMissing(i));
      }

      var lines := CollectLinesCoveredDuringException(testExecutionError);
      if lines.Failure? {
        return Some(Raised(i, lines.error));
      }
      SaveData(testCases[i], lines.value, dataFileName + ".xml", reportOf);
      return None;
    }

    /** One iteration of `runJacoco`, for a test case `i` the pass has reached. */
    method RunJacocoStep(i: nat, fileExists: string -> bool, reportOf: string -> XmlReport,
                         ghost report0: map<string, TestCase>, ghost passing0: set<string>,
                         ghost executed0: seq<seq<string>>)
      returns (stop: Option<RunOutcome>)
      requires i < |testCases|
      requires StopFrom(i, fileExists, reportOf) == StopFrom(0, fileExists, reportOf)
      requires report == SavedUpTo(report0, i, reportOf)
      requires results.passingTests == PassingUpTo(passing0, i)
      requires service.runner.executed == executed0 + CommandsUpTo(i)
      modifies this, service.runner, results, errors
      ensures results.passingTests == PassingUpTo(passing0, i + 1)
      ensures service.runner.executed == executed0 + CommandsUpTo(i + 1)
      ensures stop.Some? ==> stop.value == StopFrom(0, fileExists, reportOf) && RunCount(stop.value) == i + 1
                             && report == SavedUpTo(report0, SavedCount(stop.value), reportOf)
      ensures stop.None? ==> StopFrom(i + 1, fileExists, reportOf) == StopFrom(0, fileExists, reportOf)
                             && report == SavedUpTo(report0, i + 1, reportOf)
      ensures errors.notices == old(errors.notices) + (if stop.Some? && stop.value.ReportMissing? then [Error(ReportMissingMessage)] else [])
    {
      var testExecutionError := RunTestCase(i, passing0, executed0);
      stop := FinishTestCase(i, testExecutionError, fileExists, reportOf, report0);
    }

    /**
     * `runJacoco`: run and save the test cases in order, stopping for good at the first
     * missing XML report (after reporting it) or at the first stack trace that raises.
     */
    method RunJacoco(fileExists: string -> bool, reportOf: string -> XmlReport) returns (outcome: RunOutcome)
      modifies this, service.runner, results, errors
      ensures outcome == StopFrom(0, fileExists, reportOf)
      ensures report == SavedUpTo(old(report), SavedCount(outcome), reportOf)
      ensures RunCount(outcome) <= |testCases|
      ensures results.passingTests == PassingUpTo(old(results.passingTests), RunCount(outcome))
      ensures service.runner.executed == old(service.runner.executed) + CommandsUpTo(RunCount(outcome))
      ensures errors.notices == old(errors.notices) + (if outcome.ReportMissing? then [Error(ReportMissingMessage)] else [])
    {
      ghost var final := StopFrom(0, fileExists, reportOf);
      var i := 0;
      while i < |testCases|
        invariant 0 <= i <= |testCases|
        invariant StopFrom(i, fileExists, reportOf) == final
        invariant report == SavedUpTo(old(report), i, reportOf)
        invariant results.passingTests == PassingUpTo(old(results.passingTests), i)
        invariant service.runner.executed == old(service.runner.executed) + CommandsUpTo(i)
        invariant errors.notices == old(errors.notices)
      {
        var stop := RunJacocoStep(i, fileExists, reportOf, old(report), old(results.passingTests), old(service.runner.executed));
        if stop.Some? {
          return stop.value;
        }
        i := i + 1;
      }
      return Finished;
    }

    /**
     * `collect`: the report of one pass; an exception raised by a stack trace escapes
     * instead. (`Report.normalized()` is not part of this model: the report is returned as built.)
     */
    method Collect(fileExists: string -> bool, reportOf: string -> XmlReport)
      returns (r: Result<map<string, TestCase>, CollectError>)
      modifies this, service.runner, results, errors
      ensures var outcome := StopFrom(0, fileExists, reportOf);
        && report == SavedUpTo(old(report), SavedCount(outcome), reportOf)
        && r == (if outcome.Raised? then Failure(outcome.error) else Success(report))
        && results.passingTests == PassingUpTo(old(results.passingTests), RunCount(outcome))
        && service.runner.executed == old(service.runner.executed) + CommandsUpTo(RunCount(outcome))
        && errors.notices == old(errors.notices) + (if outcome.ReportMissing? then [Error(ReportMissingMessage)] else [])
    {
      var outcome := RunJacoco(fileExists, reportOf);
      if outcome.Raised? {
        return Failure(outcome.error);
      }
      return Success(report);
    }

    /** The `javac` commands for the first `k` generated test files, in order. */
    function CompileCommandsUpTo(k: nat): seq<seq<string>>
      requires k <= |generatedTestPaths|
      decreases k
    {
      if k == 0 then []
      else CompileCommandsUpTo(k - 1) + [service.CompileCommand(generatedTestPaths[k - 1], projectBuildPath)]
    }

    /** One iteration of `compileTestCases`: compile file `index`, keep its test case if it compiled. */
    method CompileOne(index: nat, fileExists: string -> bool, ghost flags: seq<bool>,
                      ghost compilable0: seq<TestCaseGeneratedByLLM>, ghost executed0: seq<seq<string>>)
      requires index < |generatedTestPaths| <= |testCases|
      requires flags == CompileFlags(generatedTestPaths, fileExists)
      requires workspace.compilableTestCases == compilable0 + Compilable(testCases, flags[..index])
      requires service.runner.executed == executed0 + CompileCommandsUpTo(index)
      modifies service.runner, workspace
      ensures workspace.compilableTestCases == compilable0 + Compilable(testCases, flags[..index + 1])
      ensures service.runner.executed == executed0 + CompileCommandsUpTo(index + 1)
      ensures workspace.polyDepthReducing == old(workspace.polyDepthReducing)
      ensures workspace.inputParamsDepthReducing == old(workspace.inputParamsDepthReducing)
    {
      var compiled, _ := service.CompileCode(generatedTestPaths[index], projectBuildPath, fileExists);
      CompilableStep(testCases, flags, index);
      if compiled {
        workspace.compilableTestCases := workspace.compilableTestCases + [testCases[index]];
      }
    }

    /**
     * `compileTestCases`: compile each generated test file and append `testCases[i]` to the
     * compilable list exactly when file `i` compiled.
     */
    method CompileTestCases(fileExists: string -> bool)
      requires |generatedTestPaths| <= |testCases|
      modifies service.runner, workspace
      ensures workspace.compilableTestCases
              == old(workspace.compilableTestCases) + Compilable(testCases, CompileFlags(generatedTestPaths, fileExists))
      ensures service.runner.executed == old(service.runner.executed) + CompileCommandsUpTo(|generatedTestPaths|)
      ensures workspace.polyDepthReducing == old(workspace.polyDepthReducing)
      ensures workspace.inputParamsDepthReducing == old(workspace.inputParamsDepthReducing)
    {
      var index := 0;
      ghost var flags := CompileFlags(generatedTestPaths, fileExists);
      while index < |generatedTestPaths|
        invariant 0 <= index <= |generatedTestPaths|
        invariant workspace.compilableTestCases
                  == old(workspace.compilableTestCases) + Compilable(testCases, flags[..index])
        invariant service.runner.executed == old(service.runner.executed) + CompileCommandsUpTo(index)
        invariant workspace.polyDepthReducing == old(workspace.polyDepthReducing)
        invariant workspace.inputParamsDepthReducing == old(workspace.inputParamsDepthReducing)
      {
        CompileOne(index, fileExists, flags, old(workspace.compilableTestCases), old(service.runner.executed));
        index := index + 1;
      }
      assert flags[..index] == flags;
    }
  }
}
