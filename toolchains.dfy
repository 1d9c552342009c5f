/** Choosing the java executable for the forked process: Maven JDK toolchains,
    the java8home parameter, and the JVM that runs Maven, in that order of
    lookup, with java8home overriding any toolchain. */
module Toolchains {
  import opened Common
  import opened Paths

  /** A JDK toolchain: how it prints itself, and what findTool("java") returns. */
  datatype Toolchain = Toolchain(description: string, javaTool: Option<string>)

  /** The ToolchainManager as this plugin queries it: the JDK toolchains that
      match each version requirement, and the toolchain of the build context
      (the one chosen by maven-toolchains-plugin), if any. */
  datatype ToolchainManager = ToolchainManager(jdks: map<string, seq<Toolchain>>, buildContext: Option<Toolchain>)
  {
    /** getToolchains(session, "jdk", {"version": version}). */
    function GetToolchains(version: string): seq<Toolchain>
    {
      if version in jdks then jdks[version] else []
    }
  }

  /** The first toolchain whose findTool("java") is non-null. */
  function FirstWithJava(tcs: seq<Toolchain>): (r: Option<Toolchain>)
    ensures r.Some? ==> r.value in tcs && r.value.javaTool.Some?
    ensures r.None? <==> forall i :: 0 <= i < |tcs| ==> tcs[i].javaTool.None?
  {
    if tcs == [] then None
    else if tcs[0].javaTool.Some? then Some(tcs[0])
    else FirstWithJava(tcs[1..])
  }

  /** FirstWithJava picks the toolchain at the first index that has a java tool. */
  lemma {:induction false} FirstWithJavaAt(tcs: seq<Toolchain>, i: nat)
    requires i < |tcs| && tcs[i].javaTool.Some?
    requires forall j :: 0 <= j < i ==> tcs[j].javaTool.None?
    ensures FirstWithJava(tcs) == Some(tcs[i])
  {
    if i > 0 {
      FirstWithJavaAt(tcs[1..], i - 1);
    }
  }

  /** The toolchain the first "1.8" loop settles on, else the one the "8" loop settles on. */
  function VersionedToolchain(tm: ToolchainManager): Option<Toolchain>
  {
    match FirstWithJava(tm.GetToolchains("1.8"))
    case Some(tc) => Some(tc)
    case None => FirstWithJava(tm.GetToolchains("8"))
  }

  /** javaCommand after the toolchain steps, null when none gave a java tool:
      the versioned toolchain's tool, else the build-context toolchain's findTool,
      which may itself be null. */
  function ToolchainJava(tm: ToolchainManager): Option<string>
  {
    match VersionedToolchain(tm)
    case Some(tc) => tc.javaTool
    case None => JavaOf(tm.buildContext)
  }

  /** getJavaCommand(): java8home, when set, replaces whatever the toolchains
      gave; when nothing was found, the JVM running Maven (java.home) is used. */
  function ResolveJavaCommand(tm: ToolchainManager, java8home: Option<string>, javaHome: string): string
  {
    if java8home.Some? then JavaCommandAt(java8home.value)
    else match ToolchainJava(tm)
      case Some(cmd) => cmd
      case None => JavaCommandAt(javaHome)
  }

  function ToolchainInfo(tc: Toolchain): LogEntry
  {
    Info("Toolchain in retrolambda-maven-plugin: " + tc.description)
  }

  function ToolchainsIgnored(java8home: string): LogEntry
  {
    Warn("Toolchains are ignored, 'java8home' parameter is set to " + java8home)
  }

  /** What the toolchain steps log: the toolchain taken from the versioned
      queries, else the build-context toolchain when there is one. */
  function ToolchainLog(tm: ToolchainManager): seq<LogEntry>
  {
    match VersionedToolchain(tm)
    case Some(tc) => [ToolchainInfo(tc)]
    case None => if tm.buildContext.Some? then [ToolchainInfo(tm.buildContext.value)] else []
  }

  /** What getJavaCommand() logs: the toolchain steps, then the warning that
      java8home wins over a build-context toolchain. */
  function ResolutionLog(tm: ToolchainManager, java8home: Option<string>): seq<LogEntry>
  {
    ToolchainLog(tm) + if java8home.Some? && tm.buildContext.Some? then [ToolchainsIgnored(java8home.value)] else []
  }

  // ---- the resolution order, stated as a chain of candidate sources ----

  /** The first candidate that is present. */
  function FirstPresent(candidates: seq<Option<string>>): (r: Option<string>)
    ensures r.Some? ==> r.value in (set i | 0 <= i < |candidates| && candidates[i].Some? :: candidates[i].value)
    ensures r.None? <==> forall i :: 0 <= i < |candidates| ==> candidates[i].None?
  {
    if candidates == [] then None
    else if candidates[0].Some? then candidates[0]
    else FirstPresent(candidates[1..])
  }

  /** FirstPresent picks the candidate at the first index that is present. */
  lemma {:induction false} FirstPresentAt(candidates: seq<Option<string>>, i: nat)
    requires i < |candidates| && candidates[i].Some?
    requires forall j :: 0 <= j < i ==> candidates[j].None?
    ensures FirstPresent(candidates) == candidates[i]
  {
    if i > 0 {
      FirstPresentAt(candidates[1..], i - 1);
    }
  }

  function JavaOf(tc: Option<Toolchain>): Option<string>
  {
    if tc.Some? then tc.value.javaTool else None
  }

  /** The sources in priority order: java8home, the first "1.8" toolchain with
      java, the first "8" toolchain with java, the build-context toolchain, java.home. */
  function Candidates(tm: ToolchainManager, java8home: Option<string>, javaHome: string): seq<Option<string>>
  {
    [ if java8home.Some? then Some(JavaCommandAt(java8home.value)) else None,
      JavaOf(FirstWithJava(tm.GetToolchains("1.8"))),
      JavaOf(FirstWithJava(tm.GetToolchains("8"))),
      JavaOf(tm.buildContext),
      Some(JavaCommandAt(javaHome)) ]
  }

  /** getJavaCommand() is the first present source of the chain, and so is never null. */
  lemma ResolveIsFirstCandidate(tm: ToolchainManager, java8home: Option<string>, javaHome: string)
    ensures FirstPresent(Candidates(tm, java8home, javaHome)) == Some(ResolveJavaCommand(tm, java8home, javaHome))
  {
    var c := Candidates(tm, java8home, javaHome);
    assert c[1..][1..][1..][1..] == [Some(JavaCommandAt(javaHome))];
    if java8home.None? {
      assert FirstPresent(c) == FirstPresent(c[1..]);
      if c[1].None? {
        assert FirstPresent(c[1..]) == FirstPresent(c[1..][1..]);
        if c[2].None? {
          assert FirstPresent(c[1..][1..]) == FirstPresent(c[1..][1..][1..]);
          if c[3].None? {
            assert FirstPresent(c[1..][1..][1..]) == FirstPresent(c[1..][1..][1..][1..]);
          }
        }
      }
    }
  }

  // ---- the resolution order, case by case ----

  /** java8home wins over every toolchain. */
  lemma Java8HomeWins(tm: ToolchainManager, java8home: string, javaHome: string)
    ensures ResolveJavaCommand(tm, Some(java8home), javaHome) == java8home + "/bin/java"
  {
  }

  /** Without java8home, the first "1.8" toolchain that has a java tool is used. */
  lemma FirstVersion18ToolchainWins(tm: ToolchainManager, javaHome: string, i: nat)
    requires var tcs := tm.GetToolchains("1.8");
             i < |tcs| && tcs[i].javaTool.Some? &&
             forall j :: 0 <= j < i ==> tcs[j].javaTool.None?
    ensures ResolveJavaCommand(tm, None, javaHome) == tm.GetToolchains("1.8")[i].javaTool.value
  {
    FirstWithJavaAt(tm.GetToolchains("1.8"), i);
  }

  /** When no "1.8" toolchain has java, the first "8" toolchain that has one is used. */
  lemma FirstVersion8ToolchainNext(tm: ToolchainManager, javaHome: string, i: nat)
    requires forall j :: 0 <= j < |tm.GetToolchains("1.8")| ==> tm.GetToolchains("1.8")[j].javaTool.None?
    requires var tcs := tm.GetToolchains("8");
             i < |tcs| && tcs[i].javaTool.Some? &&
             forall j :: 0 <= j < i ==> tcs[j].javaTool.None?
    ensures ResolveJavaCommand(tm, None, javaHome) == tm.GetToolchains("8")[i].javaTool.value
  {
    FirstWithJavaAt(tm.GetToolchains("8"), i);
  }

  /** No versioned toolchain has java: the build-context toolchain's java is
      used when it has one; when it has none, or there is no build-context
      toolchain, java.home is used. */
  lemma BuildContextThenJavaHome(tm: ToolchainManager, javaHome: string)
    requires forall j :: 0 <= j < |tm.GetToolchains("1.8")| ==> tm.GetToolchains("1.8")[j].javaTool.None?
    requires forall j :: 0 <= j < |tm.GetToolchains("8")| ==> tm.GetToolchains("8")[j].javaTool.None?
    ensures tm.buildContext.Some? && tm.buildContext.value.javaTool.Some? ==>
              ResolveJavaCommand(tm, None, javaHome) == tm.buildContext.value.javaTool.value
    ensures (tm.buildContext.None? || tm.buildContext.value.javaTool.None?) ==>
              ResolveJavaCommand(tm, None, javaHome) == javaHome + "/bin/java"
  {
    assert FirstWithJava(tm.GetToolchains("1.8")).None?;
    assert FirstWithJava(tm.GetToolchains("8")).None?;
  }

  /** The result is always one of the sources: some toolchain's java tool, or
      the launcher under java8home or under java.home. */
  lemma ResolvedIsASource(tm: ToolchainManager, java8home: Option<string>, javaHome: string)
    ensures var r := ResolveJavaCommand(tm, java8home, javaHome);
            (java8home.Some? && r == java8home.value + "/bin/java")
            || (java8home.None? &&
                ((exists tc :: tc in tm.GetToolchains("1.8") && tc.javaTool == Some(r))
                 || (exists tc :: tc in tm.GetToolchains("8") && tc.javaTool == Some(r))
                 || (tm.buildContext.Some? && tm.buildContext.value.javaTool == Some(r))
                 || r == javaHome + "/bin/java"))
  {
    var v18 := FirstWithJava(tm.GetToolchains("1.8"));
    var v8 := FirstWithJava(tm.GetToolchains("8"));
    if java8home.None? && v18.Some? {
      assert v18.value in tm.GetToolchains("1.8");
    } else if java8home.None? && v8.Some? {
      assert v8.value in tm.GetToolchains("8");
    }
  }

  /** The "Toolchains are ignored" warning is logged exactly when java8home is
      set and there is a build-context toolchain, whatever the versioned queries found. */
  lemma ToolchainsIgnoredWarning(tm: ToolchainManager, java8home: Option<string>)
    ensures (exists i :: 0 <= i < |ResolutionLog(tm, java8home)| && ResolutionLog(tm, java8home)[i].Warn?)
            <==> java8home.Some? && tm.buildContext.Some?
    ensures java8home.Some? && tm.buildContext.Some? ==>
              ResolutionLog(tm, java8home)[|ResolutionLog(tm, java8home)| - 1] == ToolchainsIgnored(java8home.value)
  {
    var log := ResolutionLog(tm, java8home);
    if java8home.Some? && tm.buildContext.Some? {
      assert log[|log| - 1].Warn?;
    }
  }
}
