/** ProcessClassesMojo: the Maven goal that runs Retrolambda over a directory
    of class files, in Maven's own JVM or in a forked one. Maven, the file
    system and the other plugins it calls are inputs; what the goal asks of
    them is recorded as invocations, log entries and temporary files. */
module Mojo {
  import opened Common
  import opened Text
  import opened RetrolambdaApi
  import opened Targets
  import opened Paths
  import opened Toolchains
  import opened Config
  import opened ForkedArgs

  /** The JVM that runs Maven. */
  datatype Host = Host(
    javaAtLeast18: bool,      // SystemUtils.isJavaVersionAtLeast(1.8f)
    javaHome: string,         // System.getProperty("java.home")
    pathSeparator: char)      // File.pathSeparator

  /** What the concrete goal (main or test classes) and the Maven project supply. */
  datatype Project = Project(
    inputDir: string,                          // getInputDir().getAbsolutePath()
    outputDir: string,                         // getOutputDir().getAbsolutePath()
    classpathElements: Result<seq<string>>,    // getClasspathElements(), or the dependency-resolution error
    buildDirectory: string)                    // project.getBuild().getDirectory()

  /** How the calls out of the model turn out. */
  datatype Environment = Environment(
    pluginVersion: Option<string>,  // the version in the plugin's pom.properties; None when it cannot be read
    copyResult: Outcome,       // maven-dependency-plugin:copy of the Retrolambda jar
    tempFile: Result<string>,  // File.createTempFile: the new file's path, or the I/O error
    classpathWrite: Outcome,   // Files.write of the classpath into that file
    forkedRun: Outcome,        // maven-antrun-plugin exec with failonerror=true
    deleteSucceeds: bool,      // File.delete() of the temporary file
    embeddedRun: Outcome)      // Retrolambda.run(config) through reflection; Failure for any Throwable

  /** A request the goal makes of something outside the model. */
  datatype Invocation =
    | RunInProcess(config: map<string, string>)
    | CopyArtifact(groupId: string, artifactId: string, version: string, overWrite: bool,
                   outputDirectory: string, destFileName: string)
    | Exec(executable: string, args: seq<string>, failOnError: bool,
           classpathFile: string, classpathFileContent: string)

  const RetrolambdaGroupId: string := "com.kohlschutter.retrolambda"
  const VersionUnknown: string := "Failed to detect the Retrolambda version"
  const NotPackagedMarker: string := "has not been packaged yet"

  /** The dependency-plugin request of retrieveRetrolambdaJar. */
  function CopyRequest(version: string, buildDirectory: string): Invocation
  {
    CopyArtifact(RetrolambdaGroupId, "retrolambda", version, true,
                 RetrolambdaJarDir(buildDirectory), RetrolambdaJarName())
  }

  /** The copy failed because the jar of this version was never built:
      not an error for the forked goal. */
  predicate NotPackagedYet(copyResult: Outcome)
  {
    copyResult.Failure? && Contains(copyResult.message, NotPackagedMarker)
  }

  // ---- processClassesInForkedProcess, once the jar is in place ----

  /** getClasspathFile's result: the temporary file once the classpath is
      written to it, or the I/O error of creating or of writing it. */
  function ClasspathFileOf(env: Environment): Result<string>
  {
    if env.tempFile.Err? then Err(env.tempFile.error)
    else if env.classpathWrite.Failure? then Err(env.classpathWrite.message)
    else Ok(env.tempFile.value)
  }

  /** launch is the antrun exec of javaCommand, failing on error, with a forked
      command line for config that reads the classpath from classpathFile. */
  ghost predicate IsLaunch(launch: Invocation, config: map<string, string>, javaCommand: string,
                           classpathFile: string, content: string, jar: string)
  {
    && launch.Exec?
    && launch.executable == javaCommand
    && launch.failOnError
    && launch.classpathFile == classpathFile
    && launch.classpathFileContent == content
    && IsForkedCommandLine(launch.args, config, classpathFile, jar)
  }

  /** How the run ends: the failure to create or write the classpath file, else the exec's outcome. */
  function RunResult(env: Environment): Outcome
  {
    if ClasspathFileOf(env).Err? then Failure(ClasspathFileOf(env).error) else env.forkedRun
  }

  /** The run adds one launch when the classpath file was written, and nothing otherwise. */
  ghost predicate RunInvocations(before: seq<Invocation>, after: seq<Invocation>,
                                 config: map<string, string>, elements: seq<string>,
                                 env: Environment, javaCommand: string, jar: string)
  {
    if ClasspathFileOf(env).Err? then after == before
    else
      && |after| == |before| + 1
      && after[..|before|] == before
      && IsLaunch(after[|before|], config, javaCommand, env.tempFile.value,
                  ClasspathFileContent(elements), jar)
  }

  /** The temporary files after the run. A file that was created but could
      not be written stays behind, since the try whose finally deletes it
      has not begun; a written one is gone again unless its deletion failed. */
  function RunFiles(before: map<string, string>, elements: seq<string>, env: Environment): map<string, string>
  {
    if env.tempFile.Err? then before
    else if env.classpathWrite.Failure? then before[env.tempFile.value := ""]
    else if env.deleteSucceeds then before - {env.tempFile.value}
    else before[env.tempFile.value := ClasspathFileContent(elements)]
  }

  function DeleteWarning(path: string): LogEntry
  {
    Warn("Unable to delete " + path)
  }

  function RetrievingEntry(version: string): LogEntry
  {
    Info("Retrieving Retrolambda " + version)
  }

  const ProcessingEntry: LogEntry := Info("Processing classes with Retrolambda")

  /** The warning of the finally block when the classpath file cannot be deleted. */
  function CleanupLog(env: Environment, path: string): seq<LogEntry>
  {
    if env.deleteSucceeds then [] else [DeleteWarning(path)]
  }

  /** What the run logs: that it processes the classes, and, once the
      classpath file is written, what getJavaCommand() logs and the warning
      of the finally block. */
  function RunLog(env: Environment, resolution: seq<LogEntry>): seq<LogEntry>
  {
    [ProcessingEntry] + if ClasspathFileOf(env).Err? then [] else resolution + CleanupLog(env, env.tempFile.value)
  }

  // ---- processClassesInForkedProcess as a whole ----

  /** The forked process is launched only when the version was read, the jar
      was copied and the classpath file was written. */
  predicate Launches(env: Environment)
  {
    env.pluginVersion.Some? && env.copyResult.Success? && ClasspathFileOf(env).Ok?
  }

  /** How processClassesInForkedProcess ends. */
  function ForkedResult(env: Environment): Outcome
  {
    if env.pluginVersion.None? then Failure(VersionUnknown)
    else if env.copyResult.Failure? then
      if NotPackagedYet(env.copyResult) then Success else env.copyResult
    else RunResult(env)
  }

  /** The invocations processClassesInForkedProcess adds: the copy request,
      then, when the jar was copied, those of the run. */
  ghost predicate ForkedInvocations(before: seq<Invocation>, after: seq<Invocation>,
                                    config: map<string, string>, elements: seq<string>,
                                    env: Environment, javaCommand: string, buildDirectory: string)
  {
    if env.pluginVersion.None? then after == before
    else if env.copyResult.Failure? then after == before + [CopyRequest(env.pluginVersion.value, buildDirectory)]
    else RunInvocations(before + [CopyRequest(env.pluginVersion.value, buildDirectory)], after, config, elements,
                        env, javaCommand, RetrolambdaJarPath(buildDirectory))
  }

  /** The temporary files after processClassesInForkedProcess. */
  function ForkedFiles(before: map<string, string>, elements: seq<string>, env: Environment): map<string, string>
  {
    if env.pluginVersion.None? || env.copyResult.Failure? then before else RunFiles(before, elements, env)
  }

  /** What processClassesInForkedProcess logs. */
  function ForkedLog(env: Environment, resolution: seq<LogEntry>): seq<LogEntry>
  {
    if env.pluginVersion.None? then []
    else
      [RetrievingEntry(env.pluginVersion.value)]
      + if env.copyResult.Success? then RunLog(env, resolution)
        else if NotPackagedYet(env.copyResult) then [Info(env.copyResult.message)]
        else []
  }

  /** The loop of processClassesInForkedProcess that turns the configuration
      into arguments, taking the keys in whatever order the table yields them. */
  method ForkedCommandLine(config: Properties, classpathFile: string, jar: string) returns (args: seq<string>)
    ensures IsForkedCommandLine(args, config.entries, classpathFile, jar)
  {
    var entries := config.entries;
    var remaining := entries.Keys;
    ghost var order: seq<string> := [];
    args := [];
    while remaining != {}
      invariant remaining <= entries.Keys
      invariant forall i :: 0 <= i < |order| ==> order[i] in entries && order[i] !in remaining
      invariant forall k :: k in entries ==> k in order || k in remaining
      invariant forall i, j :: 0 <= i < j < |order| ==> order[i] != order[j]
      invariant |order| + |remaining| == |entries|
      invariant args == seq(|order|, i requires 0 <= i < |order| => DefineOption(entries, order[i], classpathFile))
      decreases remaining
    {
      var key :| key in remaining;
      var name, value := key, entries[key];
      if key == Classpath {
        name, value := ClasspathFile, classpathFile;
      }
      args := args + ["-D" + name + "=" + value];
      order := order + [key];
      remaining := remaining - {key};
    }
    args := args + ["-javaagent:" + jar, "-jar", jar];
    assert IsKeyOrder(order, entries);
    assert args == CommandArgs(entries, order, classpathFile, jar);
  }

  class ProcessClassesMojo {
    // the goal's parameters
    var skip: bool
    var java8home: Option<string>
    var target: string
    var defaultMethods: bool
    var javacHacks: bool
    var quiet: bool
    var fork: bool
    var fixJava8Classpath: bool
    // injected components and the surroundings
    var toolchainManager: ToolchainManager
    const host: Host
    const project: Project
    // what the goal has done so far
    var log: seq<LogEntry>
    var invocations: seq<Invocation>
    var files: map<string, string>

    constructor (skip: bool, java8home: Option<string>, target: string, defaultMethods: bool,
                 javacHacks: bool, quiet: bool, fork: bool, fixJava8Classpath: bool,
                 toolchainManager: ToolchainManager, host: Host, project: Project,
                 files: map<string, string>)
      ensures this.skip == skip && this.java8home == java8home && this.target == target
      ensures this.defaultMethods == defaultMethods && this.javacHacks == javacHacks
      ensures this.quiet == quiet && this.fork == fork && this.fixJava8Classpath == fixJava8Classpath
      ensures this.toolchainManager == toolchainManager && this.host == host && this.project == project
      ensures log == [] && invocations == [] && this.files == files
    {
      this.skip, this.java8home, this.target := skip, java8home, target;
      this.defaultMethods, this.javacHacks, this.quiet := defaultMethods, javacHacks, quiet;
      this.fork, this.fixJava8Classpath := fork, fixJava8Classpath;
      this.toolchainManager, this.host, this.project := toolchainManager, host, project;
      log, invocations, this.files := [], [], files;
    }

    /** The configuration execute() builds from the parameters. */
    ghost function ExpectedConfig(): map<string, string>
      reads this
      requires target in TargetBytecodeVersions && project.classpathElements.Ok?
    {
      ConfigMap(TargetBytecodeVersions[target], defaultMethods, quiet, project.inputDir, project.outputDir,
                ClasspathString(project.classpathElements.value, host.pathSeparator),
                javacHacks, fixJava8Classpath)
    }

    /** validateFork: forks when Maven does not run on Java 8, with a warning.
        The new state is a fixed point of the rule, so a second call changes nothing. */
    method ValidateFork()
      modifies this`fork, this`log
      ensures fork == (old(fork) || !host.javaAtLeast18)
      ensures log == old(log) + if fork != old(fork)
                                then [Warn("Maven is not running under Java 8 - forced to fork the process")]
                                else []
      ensures fork == (fork || !host.javaAtLeast18)
    {
      if !fork && !host.javaAtLeast18 {
        log := log + [Warn("Maven is not running under Java 8 - forced to fork the process")];
        fork := true;
      }
    }

    /** One of the two loops of getJavaCommand(): the java tool of the first
        toolchain for this version that has one, logged when found. */
    method JavaFromToolchains(version: string) returns (command: Option<string>)
      modifies this`log
      ensures command == JavaOf(FirstWithJava(toolchainManager.GetToolchains(version)))
      ensures log == old(log) + match FirstWithJava(toolchainManager.GetToolchains(version))
                                case Some(tc) => [ToolchainInfo(tc)]
                                case None => []
    {
      command := None;
      var tcCandidates := toolchainManager.GetToolchains(version);
      for i := 0 to |tcCandidates|
        invariant command.None? && log == old(log)
        invariant forall j :: 0 <= j < i ==> tcCandidates[j].javaTool.None?
      {
        var cmd := tcCandidates[i].javaTool;
        if cmd.Some? {
          FirstWithJavaAt(tcCandidates, i);
          log := log + [ToolchainInfo(tcCandidates[i])];
          command := cmd;
          break;
        }
      }
    }

    /** The toolchain steps of getJavaCommand(): the "1.8" toolchains, then
        the "8" ones, then the build-context toolchain. */
    method JavaFromAnyToolchain() returns (command: Option<string>)
      modifies this`log
      ensures command == ToolchainJava(toolchainManager)
      ensures log == old(log) + ToolchainLog(toolchainManager)
    {
      command := JavaFromToolchains("1.8");
      if command.None? {
        command := JavaFromToolchains("8");
      }
      var tc := toolchainManager.buildContext;
      if command.None? && tc.Some? {
        log := log + [ToolchainInfo(tc.value)];
        command := tc.value.javaTool;
      }
    }

    /** getJavaCommand(): the java executable for the forked process. */
    method GetJavaCommand() returns (javaCommand: string)
      modifies this`log
      ensures javaCommand == ResolveJavaCommand(toolchainManager, java8home, host.javaHome)
      ensures log == old(log) + ResolutionLog(toolchainManager, java8home)
    {
      var command := JavaFromAnyToolchain();
      if java8home.Some? {
        if toolchainManager.buildContext.Some? {
          log := log + [ToolchainsIgnored(java8home.value)];
        }
        command := Some(JavaCommandAt(java8home.value));
      }
      if command.None? {
        command := Some(JavaCommandAt(host.javaHome));
      }
      javaCommand := command.value;
    }

    /** processClassesInCurrentProcess: hands the configuration to Retrolambda
        in Maven's JVM; any failure becomes "Failed to run Retrolambda". */
    method ProcessClassesInCurrentProcess(config: Properties, env: Environment) returns (r: Outcome)
      modifies this`log, this`invocations
      ensures log == old(log) + [ProcessingEntry]
      ensures invocations == old(invocations) + [RunInProcess(config.entries)]
      ensures r == if env.embeddedRun.Success? then Success else Failure("Failed to run Retrolambda")
    {
      log := log + [ProcessingEntry];
      invocations := invocations + [RunInProcess(config.entries)];
      if env.embeddedRun.Success? {
        r := Success;
      } else {
        r := Failure("Failed to run Retrolambda");
      }
    }

    /** retrieveRetrolambdaJar: asks the dependency plugin to copy the jar of
        this version to <build>/retrolambda/retrolambda.jar, overwriting. */
    method RetrieveRetrolambdaJar(version: string, env: Environment) returns (r: Outcome)
      modifies this`invocations
      ensures invocations == old(invocations) + [CopyRequest(version, project.buildDirectory)]
      ensures r == env.copyResult
    {
      invocations := invocations + [CopyRequest(version, project.buildDirectory)];
      r := env.copyResult;
    }

    /** getClasspathFile: a new temporary file holding the classpath elements,
        one per line. The file exists, still empty, before the write, so a
        failed write leaves it behind. */
    method GetClasspathFile(elements: seq<string>, env: Environment) returns (r: Result<string>)
      modifies this`files
      ensures r == ClasspathFileOf(env)
      ensures files == if env.tempFile.Err? then old(files)
                       else old(files)[env.tempFile.value := if env.classpathWrite.Success?
                                                             then ClasspathFileContent(elements) else ""]
    {
      if env.tempFile.Err? {
        return Err(env.tempFile.error);
      }
      var path := env.tempFile.value;
      files := files[path := ""];
      if env.classpathWrite.Failure? {
        return Err(env.classpathWrite.message);
      }
      files := files[path := ClasspathFileContent(elements)];
      r := Ok(path);
    }

    /** The try/finally block of processClassesInForkedProcess: builds the
        command line, runs java through the antrun exec, and then deletes the
        classpath file, warning when that fails. */
    method LaunchForked(config: Properties, path: string, jar: string, env: Environment) returns (r: Outcome)
      requires path in files
      modifies this`log, this`invocations, this`files
      ensures r == env.forkedRun
      ensures |invocations| == |old(invocations)| + 1 && invocations[..|old(invocations)|] == old(invocations)
      ensures IsLaunch(invocations[|old(invocations)|], config.entries,
                       ResolveJavaCommand(toolchainManager, java8home, host.javaHome),
                       path, old(files)[path], jar)
      ensures files == if env.deleteSucceeds then old(files) - {path} else old(files)
      ensures log == old(log) + (ResolutionLog(toolchainManager, java8home) + CleanupLog(env, path))
    {
      // try
      var args := ForkedCommandLine(config, path, jar);
      var javaCommand := GetJavaCommand();
      invocations := invocations + [Exec(javaCommand, args, true, path, files[path])];
      r := env.forkedRun;
      // finally
      if env.deleteSucceeds {
        files := files - {path};
        assert ResolutionLog(toolchainManager, java8home) + CleanupLog(env, path)
            == ResolutionLog(toolchainManager, java8home);
      } else {
        log := log + [DeleteWarning(path)];
        AppendTwice(old(log), ResolutionLog(toolchainManager, java8home), [DeleteWarning(path)]);
      }
    }

    /** The second half of processClassesInForkedProcess: writes the
        classpath file and, when that worked, launches the forked process. */
    method RunForked(config: Properties, elements: seq<string>, jar: string, env: Environment) returns (r: Outcome)
      modifies this`log, this`invocations, this`files
      ensures r == RunResult(env)
      ensures RunInvocations(old(invocations), invocations, config.entries, elements, env,
                             ResolveJavaCommand(toolchainManager, java8home, host.javaHome), jar)
      ensures files == RunFiles(old(files), elements, env)
      ensures log == old(log) + RunLog(env, ResolutionLog(toolchainManager, java8home))
    {
      log := log + [ProcessingEntry];
      var classpathFile := GetClasspathFile(elements, env);
      if classpathFile.Err? {
        assert RunLog(env, ResolutionLog(toolchainManager, java8home)) == [ProcessingEntry];
        return Failure(classpathFile.error);
      }
      ghost var written, processing := files, log;
      r := LaunchForked(config, classpathFile.value, jar, env);
      if env.deleteSucceeds {
        assert files == old(files) - {classpathFile.value} by {
          assert written - {classpathFile.value} == old(files) - {classpathFile.value};
        }
      }
      AppendTwice(old(log), [ProcessingEntry],
                  ResolutionLog(toolchainManager, java8home) + CleanupLog(env, classpathFile.value));
    }

    /** processClassesInForkedProcess: copies the Retrolambda jar, writes the
        classpath file, runs java with the agent and the jar, and deletes the
        classpath file once it is written, whatever the exec's outcome. A jar
        that "has not been packaged yet" ends the goal quietly; a failed
        deletion only warns; a file that could not be written is not deleted. */
    method ProcessClassesInForkedProcess(config: Properties, elements: seq<string>, env: Environment)
      returns (r: Outcome)
      modifies this`log, this`invocations, this`files
      ensures r == ForkedResult(env)
      ensures ForkedInvocations(old(invocations), invocations, config.entries, elements, env,
                                ResolveJavaCommand(toolchainManager, java8home, host.javaHome),
                                project.buildDirectory)
      ensures files == ForkedFiles(old(files), elements, env)
      ensures log == old(log) + ForkedLog(env, ResolutionLog(toolchainManager, java8home))
    {
      if env.pluginVersion.None? {
        // getRetrolambdaVersion() cannot read pom.properties
        return Failure(VersionUnknown);
      }
      var version := env.pluginVersion.value;
      log := log + [RetrievingEntry(version)];
      var retrieved := RetrieveRetrolambdaJar(version, env);
      if retrieved.Failure? {
        if NotPackagedYet(retrieved) {
          log := log + [Info(retrieved.message)];
          AppendTwice(old(log), [RetrievingEntry(version)], [Info(retrieved.message)]);
          return Success;
        } else {
          assert ForkedLog(env, ResolutionLog(toolchainManager, java8home)) == [RetrievingEntry(version)];
          return retrieved;
        }
      }
      r := RunForked(config, elements, RetrolambdaJarPath(project.buildDirectory), env);
      AppendTwice(old(log), [RetrievingEntry(version)], RunLog(env, ResolutionLog(toolchainManager, java8home)));
    }

    /** The last step of execute(): the configured run, forked or in process. */
    method Dispatch(config: Properties, elements: seq<string>, env: Environment) returns (r: Outcome)
      modifies this`log, this`invocations, this`files
      ensures !fork ==>
                && r == (if env.embeddedRun.Success? then Success else Failure("Failed to run Retrolambda"))
                && invocations == old(invocations) + [RunInProcess(config.entries)]
                && files == old(files)
                && log == old(log) + [ProcessingEntry]
      ensures fork ==>
                && r == ForkedResult(env)
                && ForkedInvocations(old(invocations), invocations, config.entries, elements, env,
                                     ResolveJavaCommand(toolchainManager, java8home, host.javaHome),
                                     project.buildDirectory)
                && files == ForkedFiles(old(files), elements, env)
                && log == old(log) + ForkedLog(env, ResolutionLog(toolchainManager, java8home))
    {
      if fork {
        r := ProcessClassesInForkedProcess(config, elements, env);
      } else {
        r := ProcessClassesInCurrentProcess(config, env);
      }
    }

    /** The rest of execute() once the target is valid and the fork setting
        decided: builds the configuration and runs Retrolambda in a forked
        JVM or in Maven's own. */
    method ProcessClasses(env: Environment) returns (r: Outcome)
      requires target in TargetBytecodeVersions
      modifies this`log, this`invocations, this`files
      ensures project.classpathElements.Err? ==>
                && r == Failure(project.classpathElements.error)
                && invocations == old(invocations) && files == old(files) && log == old(log)
      ensures project.classpathElements.Ok? && !fork ==>
                && r == (if env.embeddedRun.Success? then Success else Failure("Failed to run Retrolambda"))
                && invocations == old(invocations) + [RunInProcess(ExpectedConfig())]
                && files == old(files)
                && log == old(log) + [ProcessingEntry]
      ensures project.classpathElements.Ok? && fork ==>
                && r == ForkedResult(env)
                && ForkedInvocations(old(invocations), invocations, ExpectedConfig(),
                                     project.classpathElements.value, env,
                                     ResolveJavaCommand(toolchainManager, java8home, host.javaHome),
                                     project.buildDirectory)
                && files == ForkedFiles(old(files), project.classpathElements.value, env)
                && log == old(log) + ForkedLog(env, ResolutionLog(toolchainManager, java8home))
    {
      var config := new Properties();
      config.SetProperty(BytecodeVersion, DecimalString(TargetBytecodeVersions[target]));
      config.SetProperty(DefaultMethods, BoolString(defaultMethods));
      config.SetProperty(Quiet, BoolString(quiet));
      config.SetProperty(InputDir, project.inputDir);
      config.SetProperty(OutputDir, project.outputDir);
      if project.classpathElements.Err? {
        // getClasspath() rethrows the resolution failure unchecked
        return Failure(project.classpathElements.error);
      }
      var elements := project.classpathElements.value;
      config.SetProperty(Classpath, ClasspathString(elements, host.pathSeparator));
      config.SetProperty(JavacHacks, BoolString(javacHacks));
      config.SetProperty(FixJava8Classpath, BoolString(fixJava8Classpath));
      r := Dispatch(config, elements, env);
    }

    /** execute(): does nothing but log when skipped; otherwise validates the
        target, forces a fork when Maven does not run on Java 8, and processes
        the classes. */
    method Execute(env: Environment) returns (r: Outcome)
      modifies this`fork, this`log, this`invocations, this`files
      ensures skip ==> && r == Success && fork == old(fork) && invocations == old(invocations)
                       && files == old(files) && log == old(log) + [Info("Skipping execution (skip=true)")]
      ensures !skip && target !in TargetBytecodeVersions ==>
                && r == ValidateTarget(target) && r.Failure?
                && fork == old(fork) && invocations == old(invocations) && files == old(files) && log == old(log)
      ensures !skip && target in TargetBytecodeVersions ==> fork == (old(fork) || !host.javaAtLeast18)
      ensures !skip && target in TargetBytecodeVersions && project.classpathElements.Err? ==>
                && r == Failure(project.classpathElements.error)
                && invocations == old(invocations) && files == old(files)
      ensures !skip && target in TargetBytecodeVersions && project.classpathElements.Ok? && !fork ==>
                && r == (if env.embeddedRun.Success? then Success else Failure("Failed to run Retrolambda"))
                && invocations == old(invocations) + [RunInProcess(ExpectedConfig())]
                && files == old(files)
      ensures !skip && target in TargetBytecodeVersions && project.classpathElements.Ok? && fork ==>
                && r == ForkedResult(env)
                && ForkedInvocations(old(invocations), invocations, ExpectedConfig(),
                                     project.classpathElements.value, env,
                                     ResolveJavaCommand(toolchainManager, java8home, host.javaHome),
                                     project.buildDirectory)
                && files == ForkedFiles(old(files), project.classpathElements.value, env)
    {
      if skip {
        log := log + [Info("Skipping execution (skip=true)")];
        return Success;
      }

      var validated := ValidateTarget(target);
      if validated.Failure? {
        return validated;
      }
      ValidateFork();
      r := ProcessClasses(env);
    }
  }

  // ---- properties of the goal ----

  /** A copy failure whose message contains "has not been packaged yet" ends
      the forked goal successfully, logging that message, without writing a
      file or launching anything; any other copy failure is the goal's failure. */
  lemma NotPackagedIsBenign(env: Environment, i: int, before: map<string, string>, elements: seq<string>,
                            resolution: seq<LogEntry>)
    requires env.pluginVersion.Some? && env.copyResult.Failure?
    ensures OccursAt(env.copyResult.message, NotPackagedMarker, i) ==>
              && ForkedResult(env) == Success
              && ForkedLog(env, resolution) == [RetrievingEntry(env.pluginVersion.value), Info(env.copyResult.message)]
    ensures !Contains(env.copyResult.message, NotPackagedMarker) ==>
              ForkedResult(env) == env.copyResult && ForkedLog(env, resolution) == [RetrievingEntry(env.pluginVersion.value)]
    ensures !Launches(env) && ForkedFiles(before, elements, env) == before
  {
    ContainsIff(env.copyResult.message, NotPackagedMarker);
  }

  /** Once the classpath file exists it is deleted whether the forked run
      succeeds or fails, and a failed deletion does not change the result. */
  lemma ClasspathFileCleanedUp(env: Environment, before: map<string, string>, elements: seq<string>)
    requires Launches(env) && env.tempFile.value !in before
    ensures env.deleteSucceeds ==> ForkedFiles(before, elements, env) == before
    ensures ForkedResult(env) == env.forkedRun
    ensures ForkedResult(env.(deleteSucceeds := !env.deleteSucceeds)) == ForkedResult(env)
  {
    assert env.deleteSucceeds ==> before[env.tempFile.value := ClasspathFileContent(elements)] - {env.tempFile.value} == before;
  }

  /** Once createTempFile has made the classpath file, it is still there after
      the forked goal exactly when writing it or deleting it failed; a failed
      write is the goal's failure and leaves the file empty, never launched. */
  lemma ClasspathFileLeftBehind(env: Environment, before: map<string, string>, elements: seq<string>)
    requires env.pluginVersion.Some? && env.copyResult.Success? && env.tempFile.Ok?
    requires env.tempFile.value !in before
    ensures env.tempFile.value in ForkedFiles(before, elements, env) <==>
              env.classpathWrite.Failure? || !env.deleteSucceeds
    ensures env.classpathWrite.Failure? ==>
              && ForkedResult(env) == env.classpathWrite && !Launches(env)
              && ForkedFiles(before, elements, env) == before[env.tempFile.value := ""]
  {
  }

  /** The bytecode version execute() puts in the configuration for a valid
      target: 49, 50, 51 or 52 for 1.5 to 1.8, read back as the same number. */
  lemma ConfiguredBytecodeVersion(target: string, defaultMethods: bool, quiet: bool, inputDir: string,
                                  outputDir: string, classpath: string, javacHacks: bool, fixJava8Classpath: bool)
    requires ValidateTarget(target).Success?
    ensures var m := ConfigMap(TargetBytecodeVersions[target], defaultMethods, quiet, inputDir, outputDir,
                               classpath, javacHacks, fixJava8Classpath);
            && ParseDecimal(m[BytecodeVersion]) == TargetBytecodeVersions[target]
            && (target == "1.5" ==> m[BytecodeVersion] == "49")
            && (target == "1.6" ==> m[BytecodeVersion] == "50")
            && (target == "1.7" ==> m[BytecodeVersion] == "51")
            && (target == "1.8" ==> m[BytecodeVersion] == "52")
  {
    ConfigMapContents(TargetBytecodeVersions[target], defaultMethods, quiet, inputDir, outputDir,
                      classpath, javacHacks, fixJava8Classpath);
  }

  /** The configuration for target 1.8, input /in, output /out and the
      classpath /a.jar, /b.jar. */
  function SampleConfig(defaultMethods: bool, quiet: bool, javacHacks: bool,
                        fixJava8Classpath: bool, pathSeparator: char): map<string, string>
  {
    ConfigMap(TargetBytecodeVersions["1.8"], defaultMethods, quiet, "/in", "/out",
              ClasspathString(["/a.jar", "/b.jar"], pathSeparator), javacHacks, fixJava8Classpath)
  }

  lemma SampleConfigEntries(defaultMethods: bool, quiet: bool, javacHacks: bool,
                            fixJava8Classpath: bool, pathSeparator: char)
    ensures var config := SampleConfig(defaultMethods, quiet, javacHacks, fixJava8Classpath, pathSeparator);
            && config[BytecodeVersion] == "52" && config[InputDir] == "/in" && config[OutputDir] == "/out"
            && Classpath in config
            && BytecodeVersion != Classpath && InputDir != Classpath && OutputDir != Classpath
  {
    assert TargetBytecodeVersions["1.8"] == 52;
    assert DecimalString(52) == "52";
    ConfigMapContents(52, defaultMethods, quiet, "/in", "/out",
                      ClasspathString(["/a.jar", "/b.jar"], pathSeparator), javacHacks, fixJava8Classpath);
    assert BytecodeVersion[12] != Classpath[12] && InputDir[12] != Classpath[12] && OutputDir[12] != Classpath[12];
  }

  /** Target 1.8 with the classpath /a.jar, /b.jar: the forked command line sets
      the bytecode version to 52, passes the directories, and points the
      classpath-file property at the temporary file. */
  lemma ForkedEndToEnd(args: seq<string>, defaultMethods: bool, quiet: bool, javacHacks: bool,
                       fixJava8Classpath: bool, pathSeparator: char, classpathFile: string, jar: string)
    requires IsForkedCommandLine(args, SampleConfig(defaultMethods, quiet, javacHacks, fixJava8Classpath, pathSeparator),
                                 classpathFile, jar)
    ensures "-D" + BytecodeVersion + "=" + "52" in args
    ensures "-D" + ClasspathFile + "=" + classpathFile in args
    ensures "-D" + InputDir + "=" + "/in" in args && "-D" + OutputDir + "=" + "/out" in args
  {
    var config := SampleConfig(defaultMethods, quiet, javacHacks, fixJava8Classpath, pathSeparator);
    SampleConfigEntries(defaultMethods, quiet, javacHacks, fixJava8Classpath, pathSeparator);
    ForkedArgsInclude(args, config, classpathFile, jar, BytecodeVersion);
    ForkedArgsInclude(args, config, classpathFile, jar, InputDir);
    ForkedArgsInclude(args, config, classpathFile, jar, OutputDir);
    ForkedArgsInclude(args, config, classpathFile, jar, Classpath);
  }

  /** The classpath file for /a.jar, /b.jar holds exactly the two lines,
      and reading it line by line gives the two entries back. */
  lemma SampleClasspathFile()
    ensures ClasspathFileContent(["/a.jar", "/b.jar"]) == "/a.jar" + "\n" + "/b.jar"
    ensures Split(ClasspathFileContent(["/a.jar", "/b.jar"]), '\n') == ["/a.jar", "/b.jar"]
  {
    var elements := ["/a.jar", "/b.jar"];
    assert elements[1..] == ["/b.jar"];
    assert '\n' !in elements[0] && '\n' !in elements[1];
    ClasspathFileRoundTrip(elements);
  }
}
