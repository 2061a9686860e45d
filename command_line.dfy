/**
 * `CommandLineService`: the session's result paths, the class paths and command lines
 * handed to `javac`, `java` and the JaCoCo command-line tool, and the bookkeeping of
 * which generated tests currently pass. Processes and the file system are oracles.
 */
module CommandLine {
  import opened Wrappers
  import opened Text

  /**
   * `runCommandLine`: an external process, seen only through the stderr text it
   * produces for a command line; every command run is recorded in order.
   */
  class ProcessRunner {
    const stderrOf: seq<string> -> string
    var executed: seq<seq<string>>

    constructor (stderrOf: seq<string> -> string)
      ensures this.stderrOf == stderrOf && executed == []
    {
      this.stderrOf := stderrOf;
      executed := [];
    }

    method RunCommandLine(cmd: seq<string>) returns (output: string)
      modifies this
      ensures executed == old(executed) + [cmd]
      ensures output == stderrOf(cmd)
    {
      executed := executed + [cmd];
      output := stderrOf(cmd);
    }
  }

  /** The files the plugin itself writes, and the directories it creates. */
  class FileSystem {
    var files: map<string, string>
    var directories: set<string>

    constructor ()
      ensures files == map[] && directories == {}
    {
      files := map[];
      directories := {};
    }

    /** `Path(p).createDirectories()`. */
    method CreateDirectories(path: string)
      modifies this
      ensures directories == old(directories) + {path} && files == old(files)
    {
      directories := directories + {path};
    }

    /** `File(p).createNewFile()` followed by `writeText(text)`: the file holds exactly `text`. */
    method WriteText(path: string, text: string)
      modifies this
      ensures files == old(files)[path := text] && directories == old(directories)
    {
      files := files[path := text];
    }
  }

  /** `TestsExecutionResultService`: the names of the generated tests that currently pass. */
  class TestsExecutionResultService {
    var passingTests: set<string>

    constructor ()
      ensures passingTests == {}
    {
      passingTests := {};
    }

    method AddPassingTest(name: string)
      modifies this
      ensures passingTests == old(passingTests) + {name}
    {
      passingTests := passingTests + {name};
    }

    method RemoveFromPassingTest(name: string)
      modifies this
      ensures passingTests == old(passingTests) - {name}
    {
      passingTests := passingTests - {name};
    }
  }

  /**
   * The passing set after a test run: an empty stderr marks the test passing, any other
   * text marks it failing, and no other name changes status.
   */
  function UpdatePassing(passing: set<string>, testCaseName: string, testExecutionError: string): (r: set<string>)
    ensures testCaseName in r <==> testExecutionError == ""
    ensures forall n :: n != testCaseName ==> (n in r <==> n in passing)
  {
    if testExecutionError == "" then passing + {testCaseName} else passing - {testCaseName}
  }

  /** `testResultDirectory`: the `testSparkResults` directory inside the temporary directory. */
  function TestResultDirectory(tempDirectory: string, sep: char): (r: string)
    ensures StartsWith(r, tempDirectory + [sep])
    ensures EndsWith(r, [sep] + "testSparkResults" + [sep])
  {
    var r := tempDirectory + [sep] + "testSparkResults" + [sep];
    assert r[..|tempDirectory| + 1] == tempDirectory + [sep];
    assert r[|r| - 18..] == [sep] + "testSparkResults" + [sep];
    r
  }

  /** `testResultName`: the fixed `test_gen_result_` prefix, after which the id reads back. */
  function TestResultName(id: string): (r: string)
    ensures StartsWith(r, "test_gen_result_")
    ensures r[|"test_gen_result_"|..] == id
  {
    "test_gen_result_" + id
  }

  /** `resultPath`: the session's own directory, named after its id, under the result directory. */
  function ResultPath(tempDirectory: string, sep: char, id: string): (r: string)
    ensures StartsWith(r, TestResultDirectory(tempDirectory, sep))
    ensures r[|TestResultDirectory(tempDirectory, sep)|..] == TestResultName(id)
  {
    var d := TestResultDirectory(tempDirectory, sep);
    assert (d + TestResultName(id))[..|d|] == d;
    d + TestResultName(id)
  }

  /**
   * Sessions with different identifiers get different result directories, all under the
   * same `testSparkResults` directory, so their artifacts never collide.
   */
  lemma ResultPathsDistinct(tempDirectory: string, sep: char, id1: string, id2: string)
    requires id1 != id2
    ensures ResultPath(tempDirectory, sep, id1) != ResultPath(tempDirectory, sep, id2)
    ensures StartsWith(ResultPath(tempDirectory, sep, id1), TestResultDirectory(tempDirectory, sep))
  {
    var d := TestResultDirectory(tempDirectory, sep);
    var prefix := d + "test_gen_result_";
    assert ResultPath(tempDirectory, sep, id1) == prefix + id1;
    assert ResultPath(tempDirectory, sep, id2) == prefix + id2;
    assert (prefix + id1)[|prefix|..] == id1;
    assert (prefix + id2)[|prefix|..] == id2;
    assert ResultPath(tempDirectory, sep, id1)[..|d|] == d;
  }

  /**
   * The `.class` file `javac` produces for a source path: every `.java` replaced by
   * `.class`; a path without `.java` is left unchanged.
   */
  function ClassFilePath(path: string): string
  {
    ReplaceAll(path, ".java", ".class")
  }

  /** `path.replace(".java", ".class")` leaves a path without `.java` unchanged. */
  lemma ClassFileOfOtherPath(path: string)
    requires !Contains(path, ".java")
    ensures ClassFilePath(path) == path
  {
    assert Split(path, ".java") == [path];
  }

  /**
   * For a source file `<stem>.java` whose stem has no other `.java`, the class file is
   * `<stem>.class` (no occurrence can straddle the stem and the extension).
   */
  lemma ClassFileOfJavaSource(stem: string)
    requires !Contains(stem, ".java")
    ensures ClassFilePath(stem + ".java") == stem + ".class"
  {
    var s := stem + ".java";
    JavaExtensionFirstOccurrence(stem);
    assert s[..|stem|] == stem;
    assert s[|stem| + 5..] == "";
    assert IndexOf("", ".java") == None;
    var tail := Split("", ".java");
    assert tail == [""];
    var parts := Split(s, ".java");
    assert parts == [stem] + tail;
    assert Join(parts, ".class") == stem + ".class" + Join(tail, ".class");
  }

  /** In `<stem>.java`, with no `.java` inside the stem, the first `.java` is the extension. */
  lemma JavaExtensionFirstOccurrence(stem: string)
    requires !Contains(stem, ".java")
    ensures IndexOf(stem + ".java", ".java") == Some(|stem|)
  {
    var s := stem + ".java";
    var n := |stem|;
    assert StartsWith(s[n..], ".java") by { assert s[n..] == ".java"; }
    forall j | 0 <= j < n
      ensures !StartsWith(s[j..], ".java")
    {
      if j + 5 <= n {
        NoJavaInsideStem(stem, j);
      } else {
        NoJavaAcrossExtension(stem, j);
      }
    }
    ContainsAtIndex(s, ".java", n);
  }

  lemma NoJavaInsideStem(stem: string, j: nat)
    requires !Contains(stem, ".java") && j + 5 <= |stem|
    ensures !StartsWith((stem + ".java")[j..], ".java")
  {
    assert (stem + ".java")[j..][..5] == stem[j..][..5];
    if StartsWith(stem[j..], ".java") {
      ContainsAtIndex(stem, ".java", j);
    }
  }

  /** `.java` has no border, so no occurrence can begin in the stem and end in the extension. */
  lemma NoJavaAcrossExtension(stem: string, j: nat)
    requires j < |stem| < j + 5
    ensures !StartsWith((stem + ".java")[j..], ".java")
  {
    var t := (stem + ".java")[j..];
    var k := |stem| - j;
    assert t[k] == '.';
  }

  /**
   * The directories for the `.`-separated package: each non-blank segment followed by the
   * separator. Blank segments alone give no directory, and a non-empty result ends in the
   * separator.
   */
  function PackageDirectories(segments: seq<string>, sep: char): string
    decreases |segments|
  {
    if |segments| == 0 then ""
    else
      var last := segments[|segments| - 1];
      PackageDirectories(segments[..|segments| - 1], sep) + (if IsBlank(last) then "" else last + [sep])
  }

  /** Blank segments alone give no directory, and a non-empty result ends in the separator. */
  lemma {:induction false} PackageDirectoriesShape(segments: seq<string>, sep: char)
    ensures (forall k :: 0 <= k < |segments| ==> IsBlank(segments[k])) ==> PackageDirectories(segments, sep) == ""
    ensures PackageDirectories(segments, sep) != "" ==> EndsWith(PackageDirectories(segments, sep), [sep])
    decreases |segments|
  {
    if |segments| > 0 {
      var init := segments[..|segments| - 1];
      var last := segments[|segments| - 1];
      PackageDirectoriesShape(init, sep);
      if !IsBlank(last) {
        var r := PackageDirectories(init, sep) + last + [sep];
        assert r[|r| - 1..] == [sep];
      }
    }
  }

  /**
   * With non-blank segments the package directories mirror the package: its segments
   * joined by the separator, followed by one more separator.
   */
  lemma {:induction false} PackageDirectoriesMirror(segments: seq<string>, sep: char)
    requires |segments| >= 1
    requires forall k :: 0 <= k < |segments| ==> !IsBlank(segments[k])
    ensures PackageDirectories(segments, sep) == Join(segments, [sep]) + [sep]
    decreases |segments|
  {
    var n := |segments|;
    if n == 1 {
      assert segments[..0] == [];
    } else {
      var init := segments[..n - 1];
      PackageDirectoriesMirror(init, sep);
      assert segments == init + [segments[n - 1]];
      JoinSnoc(init, [sep], segments[n - 1]);
    }
  }

  /** The agent argument `<agent>=destfile=<data>.exec,append=false,includes=<classFQN>`. */
  lemma AgentArgumentShape(agent: string, dataFileName: string, classFQN: string)
    ensures var s := agent + "=destfile=" + dataFileName + ".exec,append=false,includes=" + classFQN;
      && StartsWith(s, agent)
      && Contains(s, "=destfile=" + dataFileName + ".exec,append=false,includes=" + classFQN)
      && EndsWith(s, ",includes=" + classFQN)
  {
    var options := "=destfile=" + dataFileName + ".exec,append=false,includes=" + classFQN;
    var s := agent + options;
    assert s == agent + "=destfile=" + dataFileName + ".exec,append=false,includes=" + classFQN;
    assert s[..|agent|] == agent;
    assert s[|agent|..][..|options|] == options;
    ContainsAtIndex(s, options, |agent|);
    assert s[|s| - |",includes=" + classFQN|..] == ",includes=" + classFQN;
  }

  /** The class path `<getPath><runner jar>:<resultPath>` starts with `getPath` and ends with `:<resultPath>`. */
  lemma ClassPathShape(path: string, runnerJar: string, resultPath: string)
    ensures var s := path + runnerJar + ":" + resultPath;
      StartsWith(s, path) && EndsWith(s, ":" + resultPath)
  {
    var s := path + runnerJar + ":" + resultPath;
    assert s == (path + runnerJar) + (":" + resultPath);
    assert s[..|path|] == path;
    assert s[|s| - |":" + resultPath|..] == ":" + resultPath;
  }

  /**
   * The service of one session: its paths and the command lines it builds.
   * `javac` and `java` stand for the binaries found under the project SDK's home.
   */
  class CommandLineService {
    const sep: char
    const id: string
    const pluginsPath: string
    const testResultDirectory: string
    const testResultName: string
    const resultPath: string
    const javac: string
    const java: string
    const runner: ProcessRunner

    constructor (sep: char, id: string, tempDirectory: string, pluginsPath: string,
                 javac: string, java: string, runner: ProcessRunner)
      ensures this.sep == sep && this.id == id && this.pluginsPath == pluginsPath
      ensures testResultDirectory == TestResultDirectory(tempDirectory, sep)
      ensures testResultName == TestResultName(id)
      ensures resultPath == ResultPath(tempDirectory, sep, id)
      ensures this.javac == javac && this.java == java && this.runner == runner
    {
      this.sep := sep;
      this.id := id;
      this.pluginsPath := pluginsPath;
      testResultDirectory := TestResultDirectory(tempDirectory, sep);
      testResultName := TestResultName(id);
      resultPath := ResultPath(tempDirectory, sep, id);
      this.javac := javac;
      this.java := java;
      this.runner := runner;
    }

    /** `getLibrary(name)`: the file `name` in the plugin's `lib` directory under the plugins directory. */
    function GetLibrary(libraryName: string): string
    {
      pluginsPath + [sep] + "TestSpark" + [sep] + "lib" + [sep] + libraryName
    }

    /** Every library lies in the plugin's `lib` directory and is named by its file name. */
    lemma GetLibraryLocation(libraryName: string)
      ensures StartsWith(GetLibrary(libraryName), pluginsPath + [sep] + "TestSpark" + [sep] + "lib" + [sep])
      ensures EndsWith(GetLibrary(libraryName), [sep] + libraryName)
    {
      var dir := pluginsPath + [sep] + "TestSpark" + [sep] + "lib" + [sep];
      var r := GetLibrary(libraryName);
      assert r == dir + libraryName;
      assert r[..|dir|] == dir;
      assert r[|r| - |libraryName| - 1..] == [sep] + libraryName;
    }

    /** Different library names give different library paths. */
    lemma LibraryPathsDistinct(name1: string, name2: string)
      requires name1 != name2
      ensures GetLibrary(name1) != GetLibrary(name2)
    {
      var prefix := pluginsPath + [sep] + "TestSpark" + [sep] + "lib" + [sep];
      assert GetLibrary(name1)[|prefix|..] == name1;
      assert GetLibrary(name2)[|prefix|..] == name2;
    }

    function JunitPath(): string { GetLibrary("junit-4.13.jar") }
    function HamcrestPath(): string { GetLibrary("hamcrest-core-1.3.jar") }
    function MockitoPath(): string { GetLibrary("mockito-core-5.0.0.jar") }

    /** `getPath(buildPath)`: the class path junit, hamcrest, mockito, then the build path. */
    function GetPath(buildPath: string): string
    {
      JunitPath() + ":" + HamcrestPath() + ":" + MockitoPath() + ":" + buildPath
    }

    /**
     * Read back as a class path (split on `:`), `getPath(b)` lists the junit, hamcrest and
     * mockito jars, in that order, followed by the entries of `b` — as long as the
     * plugins directory and the separator contain no `:`.
     */
    lemma GetPathEntries(buildPath: string)
      requires ':' !in pluginsPath && sep != ':'
      ensures Split(GetPath(buildPath), ":") == [JunitPath(), HamcrestPath(), MockitoPath()] + Split(buildPath, ":")
    {
      var rest := Split(buildPath, ":");
      var parts := [JunitPath(), HamcrestPath(), MockitoPath()] + rest;
      JarsHaveNoColon();
      SplitPartsLackChar(buildPath, ':');
      forall k | 0 <= k < |parts|
        ensures ':' !in parts[k]
      {
        if k >= 3 {
          assert parts[k] == rest[k - 3];
        }
      }
      GetPathIsJoin(buildPath);
      SplitJoinChar(parts, ':');
    }

    lemma JarsHaveNoColon()
      requires ':' !in pluginsPath && sep != ':'
      ensures ':' !in JunitPath() && ':' !in HamcrestPath() && ':' !in MockitoPath()
    {
      assert ':' !in "TestSpark" && ':' !in "lib";
      assert ':' !in "junit-4.13.jar" && ':' !in "hamcrest-core-1.3.jar" && ':' !in "mockito-core-5.0.0.jar";
    }

    lemma GetPathIsJoin(buildPath: string)
      ensures Join([JunitPath(), HamcrestPath(), MockitoPath()] + Split(buildPath, ":"), ":") == GetPath(buildPath)
    {
      var rest := Split(buildPath, ":");
      var parts := [JunitPath(), HamcrestPath(), MockitoPath()] + rest;
      assert parts[1..] == [HamcrestPath(), MockitoPath()] + rest;
      assert parts[1..][1..] == [MockitoPath()] + rest;
      assert parts[1..][1..][1..] == rest;
      assert Join(parts[1..][1..], ":") == MockitoPath() + ":" + buildPath;
      assert Join(parts[1..], ":") == HamcrestPath() + ":" + MockitoPath() + ":" + buildPath;
    }

    /** The `javac` invocation for one generated test file, on the class path `getPath(projectBuildPath)`. */
    function CompileCommand(path: string, projectBuildPath: string): seq<string>
    {
      [javac, "-cp", GetPath(projectBuildPath), path]
    }

    /**
     * `compileCode`: run `javac`; success is exactly the existence of the class file
     * derived from `path`, whatever error text the compiler printed.
     */
    method CompileCode(path: string, projectBuildPath: string, fileExists: string -> bool)
      returns (compiled: bool, errorMsg: string)
      modifies runner
      ensures runner.executed == old(runner.executed) + [CompileCommand(path, projectBuildPath)]
      ensures errorMsg == runner.stderrOf(CompileCommand(path, projectBuildPath))
      ensures compiled == fileExists(ClassFilePath(path))
    {
      errorMsg := runner.RunCommandLine(CompileCommand(path, projectBuildPath));
      var classFilePath := ClassFilePath(path);
      compiled := fileExists(classFilePath);
    }

    /** The directory a generated test suite is saved in: `<resultPath>/<package dirs>`, ending in the separator. */
    function TestDirectory(resultPath: string, packageString: string): string
    {
      resultPath + [sep] + PackageDirectories(Split(packageString, "."), sep)
    }

    /** The path `saveGeneratedTests` writes to and returns: the file `testFileName` in the test directory. */
    function TestFilePath(resultPath: string, packageString: string, testFileName: string): string
    {
      TestDirectory(resultPath, packageString) + testFileName
    }

    /** In the default (empty) package the test file sits directly in the result directory. */
    lemma DefaultPackagePath(resultPath: string, testFileName: string)
      ensures TestFilePath(resultPath, "", testFileName) == resultPath + [sep] + testFileName
    {
      assert Split("", ".") == [""];
      assert PackageDirectories([""], sep) == PackageDirectories([], sep) + "";
    }

    /**
     * For a package whose `.`-segments are all non-blank, the test file sits in the
     * directories that mirror the package, each `.` turned into the separator.
     */
    lemma PackagePathMirrorsPackage(resultPath: string, packageString: string, testFileName: string)
      requires forall k :: 0 <= k < |Split(packageString, ".")| ==> !IsBlank(Split(packageString, ".")[k])
      ensures TestFilePath(resultPath, packageString, testFileName)
              == resultPath + [sep] + ReplaceAll(packageString, ".", [sep]) + [sep] + testFileName
    {
      PackageDirectoriesMirror(Split(packageString, "."), sep);
    }

    /**
     * `saveGeneratedTests`: create the package directories under `resultPath`, write
     * `code` to the test file there, and return the path written.
     */
    method SaveGeneratedTests(packageString: string, code: string, resultPath: string,
                              testFileName: string, fs: FileSystem)
      returns (path: string)
      modifies fs
      ensures path == TestFilePath(resultPath, packageString, testFileName)
      ensures fs.files == old(fs.files)[path := code]
      ensures fs.directories == old(fs.directories) + {TestDirectory(resultPath, packageString)}
    {
      var generatedTestPath := resultPath + [sep];
      var segments := Split(packageString, ".");
      var i := 0;
      while i < |segments|
        invariant 0 <= i <= |segments|
        invariant generatedTestPath == resultPath + [sep] + PackageDirectories(segments[..i], sep)
      {
        assert segments[..i + 1][..i] == segments[..i];
        if !IsBlank(segments[i]) {
          generatedTestPath := generatedTestPath + segments[i] + [sep];
        }
        i := i + 1;
      }
      assert segments[..i] == segments;
      fs.CreateDirectories(generatedTestPath);
      fs.WriteText(generatedTestPath + testFileName, code);
      path := generatedTestPath + testFileName;
    }

    /**
     * The `java` invocation that runs one test method under the JaCoCo agent: the agent,
     * the class path, the single-test runner, and `<package><class>#<testCase>`.
     */
    function TestRunCommand(className: string, dataFileName: string, classFQN: string, testCaseName: string,
                            projectBuildPath: string, generatedTestPackage: string): seq<string>
    {
      [ java,
        "-javaagent:" + GetLibrary("jacocoagent.jar") + "=destfile=" + dataFileName + ".exec,append=false,includes=" + classFQN,
        "-cp",
        GetPath(projectBuildPath) + GetLibrary("JUnitRunner.jar") + ":" + resultPath,
        "org.jetbrains.research.SingleJUnitTestRunner",
        generatedTestPackage + className + "#" + testCaseName ]
    }

    /**
     * The test-run command's agent and class path: the agent writes `<data>.exec` afresh
     * and instruments the classes matching `classFQN`, named last; the class path starts
     * with `getPath(projectBuildPath)` and ends with the session's result path.
     */
    lemma TestRunCommandShape(className: string, dataFileName: string, classFQN: string, testCaseName: string,
                              projectBuildPath: string, generatedTestPackage: string)
      ensures var cmd := TestRunCommand(className, dataFileName, classFQN, testCaseName, projectBuildPath, generatedTestPackage);
        && |cmd| == 6 && cmd[0] == java && cmd[2] == "-cp"
        && StartsWith(cmd[1], "-javaagent:" + GetLibrary("jacocoagent.jar"))
        && Contains(cmd[1], "=destfile=" + dataFileName + ".exec,append=false,includes=" + classFQN)
        && EndsWith(cmd[1], ",includes=" + classFQN)
        && StartsWith(cmd[3], GetPath(projectBuildPath))
        && EndsWith(cmd[3], ":" + resultPath)
        && cmd[5] == generatedTestPackage + className + "#" + testCaseName
    {
      AgentArgumentShape("-javaagent:" + GetLibrary("jacocoagent.jar"), dataFileName, classFQN);
      ClassPathShape(GetPath(projectBuildPath), GetLibrary("JUnitRunner.jar"), resultPath);
    }

    /**
     * The JaCoCo command line that turns `<data>.exec` into the XML report `<data>.xml`:
     * the fixed head, one `--sourcefiles <root>` pair per source root in order, and
     * `--xml <data>.xml` at the end.
     */
    function ReportCommand(dataFileName: string, classFiles: string, sourceRoots: seq<string>): seq<string>
    {
      [java, "-jar", GetLibrary("jacococli.jar"), "report", dataFileName + ".exec", "--classfiles", classFiles]
      + SourceFilesArguments(sourceRoots) + ["--xml", dataFileName + ".xml"]
    }

    /** The report command names the data file, the class files, every source root in order, and the XML output. */
    lemma ReportCommandShape(dataFileName: string, classFiles: string, sourceRoots: seq<string>)
      ensures var cmd := ReportCommand(dataFileName, classFiles, sourceRoots);
        && |cmd| == 9 + 2 * |sourceRoots|
        && cmd[..7] == [java, "-jar", GetLibrary("jacococli.jar"), "report", dataFileName + ".exec", "--classfiles", classFiles]
        && (forall k :: 0 <= k < |sourceRoots| ==> cmd[7 + 2 * k] == "--sourcefiles" && cmd[8 + 2 * k] == sourceRoots[k])
        && cmd[|cmd| - 2] == "--xml" && cmd[|cmd| - 1] == dataFileName + ".xml"
    {
      var head := [java, "-jar", GetLibrary("jacococli.jar"), "report", dataFileName + ".exec", "--classfiles", classFiles];
      var args := SourceFilesArguments(sourceRoots);
      var cmd := ReportCommand(dataFileName, classFiles, sourceRoots);
      assert cmd == head + args + ["--xml", dataFileName + ".xml"];
      forall k | 0 <= k < |sourceRoots|
        ensures cmd[7 + 2 * k] == "--sourcefiles" && cmd[8 + 2 * k] == sourceRoots[k]
      {
        assert cmd[7 + 2 * k] == args[2 * k];
        assert cmd[8 + 2 * k] == args[2 * k + 1];
      }
      assert cmd[..7] == head;
    }

    /**
     * `createXmlFromJacoco`: run the test method under the agent, record it as passing or
     * failing by its stderr, then run the report command; the test run's stderr, not the
     * report command's output, is returned.
     */
    method CreateXmlFromJacoco(className: string, dataFileName: string, classFQN: string, testCaseName: string,
                               projectBuildPath: string, generatedTestPackage: string,
                               compilerOutputPath: string, sourceRoots: seq<string>,
                               results: TestsExecutionResultService)
      returns (testExecutionError: string)
      modifies runner, results
      ensures testExecutionError
              == runner.stderrOf(TestRunCommand(className, dataFileName, classFQN, testCaseName, projectBuildPath, generatedTestPackage))
      ensures runner.executed == old(runner.executed)
              + [TestRunCommand(className, dataFileName, classFQN, testCaseName, projectBuildPath, generatedTestPackage),
                 ReportCommand(dataFileName, compilerOutputPath, sourceRoots)]
      ensures results.passingTests == UpdatePassing(old(results.passingTests), testCaseName, testExecutionError)
    {
      testExecutionError := runner.RunCommandLine(
        TestRunCommand(className, dataFileName, classFQN, testCaseName, projectBuildPath, generatedTestPackage));

      if testExecutionError == "" {
        results.AddPassingTest(testCaseName);
      } else {
        results.RemoveFromPassingTest(testCaseName);
      }

      var command := [java, "-jar", GetLibrary("jacococli.jar"), "report", dataFileName + ".exec"];
      command := command + ["--classfiles", compilerOutputPath];
      ghost var head := command;
      var i := 0;
      while i < |sourceRoots|
        invariant 0 <= i <= |sourceRoots|
        invariant command == head + SourceFilesArguments(sourceRoots[..i])
      {
        assert sourceRoots[..i + 1][..i] == sourceRoots[..i];
        command := command + ["--sourcefiles", sourceRoots[i]];
        i := i + 1;
      }
      assert sourceRoots[..i] == sourceRoots;
      command := command + ["--xml", dataFileName + ".xml"];
      assert command == ReportCommand(dataFileName, compilerOutputPath, sourceRoots);
      var _ := runner.RunCommandLine(command);
    }
  }

  /** One `--sourcefiles <root>` pair per source root, in order. */
  function SourceFilesArguments(sourceRoots: seq<string>): (args: seq<string>)
    ensures |args| == 2 * |sourceRoots|
    ensures forall k :: 0 <= k < |sourceRoots| ==> args[2 * k] == "--sourcefiles" && args[2 * k + 1] == sourceRoots[k]
    decreases |sourceRoots|
  {
    if |sourceRoots| == 0 then []
    else
      var n := |sourceRoots|;
      SourceFilesArguments(sourceRoots[..n - 1]) + ["--sourcefiles", sourceRoots[n - 1]]
  }
}
