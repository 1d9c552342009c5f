/** The command line of the forked Retrolambda JVM:
    one -Dkey=value option per configuration entry, in the unspecified key
    order of the Properties table, with the classpath passed through a file,
    then the Java agent and the jar to run. */
module ForkedArgs {
  import opened Text
  import opened RetrolambdaApi

  /** The option for one configuration entry; the classpath entry is replaced
      by the classpath-file key pointing at the temporary file. */
  function DefineOption(config: map<string, string>, key: string, classpathFile: string): string
    requires key in config
  {
    if key == Classpath then "-D" + ClasspathFile + "=" + classpathFile
    else "-D" + key + "=" + config[key]
  }

  /** The three arguments after the options: the agent hook and "-jar <jar>". */
  function AgentOptions(jar: string): seq<string>
  {
    ["-javaagent:" + jar, "-jar", jar]
  }

  /** order lists every key of config exactly once: an iteration order of its key set. */
  ghost predicate IsKeyOrder(order: seq<string>, config: map<string, string>)
  {
    && |order| == |config|
    && (forall i :: 0 <= i < |order| ==> order[i] in config)
    && (forall k :: k in config ==> k in order)
    && (forall i, j :: 0 <= i < j < |order| ==> order[i] != order[j])
  }

  /** The argument list for one given key order. */
  function CommandArgs(config: map<string, string>, order: seq<string>, classpathFile: string, jar: string): seq<string>
    requires forall i :: 0 <= i < |order| ==> order[i] in config
  {
    seq(|order|, i requires 0 <= i < |order| => DefineOption(config, order[i], classpathFile))
      + AgentOptions(jar)
  }

  /** args is the forked command line for config, for some iteration order of its keys. */
  ghost predicate IsForkedCommandLine(args: seq<string>, config: map<string, string>, classpathFile: string, jar: string)
  {
    exists order :: IsKeyOrder(order, config) && args == CommandArgs(config, order, classpathFile, jar)
  }

  /** The property an option "-Dname=value" defines: what lies between "-D" and the first '='. */
  function DefinedName(option: string): string
  {
    if |option| >= 2 then Split(option[2..], '=')[0] else ""
  }

  lemma DefinedNameOf(key: string, value: string)
    requires '=' !in key
    ensures DefinedName("-D" + key + "=" + value) == key
  {
    assert ("-D" + key + "=" + value)[2..] == key + ['='] + value;
    SplitAfterFirst(key, '=', value);
  }

  /** The list has one entry per configuration entry plus three, and ends with
      "-javaagent:<jar>", "-jar", "<jar>". */
  lemma ForkedArgsLayout(args: seq<string>, config: map<string, string>, classpathFile: string, jar: string)
    requires IsForkedCommandLine(args, config, classpathFile, jar)
    ensures |args| == |config| + 3
    ensures args[|config|] == "-javaagent:" + jar && args[|config| + 1] == "-jar" && args[|config| + 2] == jar
  {
    var order :| IsKeyOrder(order, config) && args == CommandArgs(config, order, classpathFile, jar);
  }

  /** The name the option for key defines: the key itself, or the
      classpath-file key in place of the classpath. */
  function PassedName(key: string): string
  {
    if key == Classpath then ClasspathFile else key
  }

  /** The option for one key defines its passed name, and sets it to the
      key's value or, for the classpath, to the classpath file. */
  lemma DefineOptionName(config: map<string, string>, key: string, classpathFile: string)
    requires key in config && '=' !in key
    requires ClasspathFile !in config
    ensures var option := DefineOption(config, key, classpathFile);
            && DefinedName(option) == PassedName(key)
            && ((DefinedName(option) in config && DefinedName(option) != Classpath
                 && option == "-D" + DefinedName(option) + "=" + config[DefinedName(option)])
                || (DefinedName(option) == ClasspathFile && Classpath in config
                    && option == "-D" + ClasspathFile + "=" + classpathFile))
  {
    if key == Classpath {
      assert '=' !in ClasspathFile by {
        assert forall k :: k in ClasspathFile ==> k in Classpath || k in "File";
      }
      DefinedNameOf(ClasspathFile, classpathFile);
    } else {
      DefinedNameOf(key, config[key]);
    }
  }

  /** For one key order: the i-th option defines the passed name of the i-th key. */
  lemma OptionsInOrder(args: seq<string>, config: map<string, string>, classpathFile: string, jar: string,
                       order: seq<string>)
    requires IsKeyOrder(order, config) && args == CommandArgs(config, order, classpathFile, jar)
    requires forall k :: k in config ==> '=' !in k
    requires ClasspathFile !in config
    ensures forall i :: 0 <= i < |config| ==> DefinedName(args[i]) == PassedName(order[i])
    ensures forall i :: 0 <= i < |config| ==> DefinedName(args[i]) != Classpath
    ensures forall i, j :: 0 <= i < j < |config| ==> DefinedName(args[i]) != DefinedName(args[j])
    ensures forall i :: 0 <= i < |config| ==>
              (DefinedName(args[i]) in config && DefinedName(args[i]) != Classpath
               && args[i] == "-D" + DefinedName(args[i]) + "=" + config[DefinedName(args[i])])
              || (DefinedName(args[i]) == ClasspathFile && Classpath in config
                  && args[i] == "-D" + ClasspathFile + "=" + classpathFile)
  {
    forall i | 0 <= i < |config|
      ensures DefinedName(args[i]) == PassedName(order[i])
      ensures (DefinedName(args[i]) in config && DefinedName(args[i]) != Classpath
               && args[i] == "-D" + DefinedName(args[i]) + "=" + config[DefinedName(args[i])])
              || (DefinedName(args[i]) == ClasspathFile && Classpath in config
                  && args[i] == "-D" + ClasspathFile + "=" + classpathFile)
    {
      assert args[i] == DefineOption(config, order[i], classpathFile);
      DefineOptionName(config, order[i], classpathFile);
    }
    assert |ClasspathFile| == |Classpath| + 4;
    forall i, j | 0 <= i < j < |config|
      ensures DefinedName(args[i]) != DefinedName(args[j])
    {
      assert order[i] != order[j];
    }
  }

  /** Each of the first |config| entries defines a distinct property: a key of
      the configuration other than the classpath, with its value unchanged, or
      the classpath-file key with the temporary file's path (only when the
      configuration has a classpath). The classpath key itself is never passed. */
  lemma ForkedArgsDefinitions(args: seq<string>, config: map<string, string>, classpathFile: string, jar: string)
    requires IsForkedCommandLine(args, config, classpathFile, jar)
    requires forall k :: k in config ==> '=' !in k
    requires ClasspathFile !in config
    ensures |args| == |config| + 3
    ensures forall i :: 0 <= i < |config| ==>
              (DefinedName(args[i]) in config && DefinedName(args[i]) != Classpath
               && args[i] == "-D" + DefinedName(args[i]) + "=" + config[DefinedName(args[i])])
              || (DefinedName(args[i]) == ClasspathFile && Classpath in config
                  && args[i] == "-D" + ClasspathFile + "=" + classpathFile)
    ensures forall i :: 0 <= i < |config| ==> DefinedName(args[i]) != Classpath
    ensures forall i, j :: 0 <= i < j < |config| ==> DefinedName(args[i]) != DefinedName(args[j])
  {
    var order :| IsKeyOrder(order, config) && args == CommandArgs(config, order, classpathFile, jar);
    OptionsInOrder(args, config, classpathFile, jar, order);
  }

  /** Every configuration entry is passed: each key other than the classpath
      with its own value, and the classpath as the classpath-file option. */
  lemma ForkedArgsCoverConfig(args: seq<string>, config: map<string, string>, classpathFile: string, jar: string)
    requires IsForkedCommandLine(args, config, classpathFile, jar)
    ensures forall k :: k in config && k != Classpath ==> "-D" + k + "=" + config[k] in args[..|config|]
    ensures Classpath in config ==> "-D" + ClasspathFile + "=" + classpathFile in args[..|config|]
  {
    var order :| IsKeyOrder(order, config) && args == CommandArgs(config, order, classpathFile, jar);
    forall k | k in config
      ensures DefineOption(config, k, classpathFile) in args[..|config|]
    {
      var i :| 0 <= i < |order| && order[i] == k;
      assert args[..|config|][i] == DefineOption(config, k, classpathFile);
    }
  }

  /** A single configuration entry other than the classpath appears as its own option. */
  lemma ForkedArgsInclude(args: seq<string>, config: map<string, string>, classpathFile: string, jar: string, key: string)
    requires IsForkedCommandLine(args, config, classpathFile, jar)
    requires key in config
    ensures key != Classpath ==> "-D" + key + "=" + config[key] in args
    ensures key == Classpath ==> "-D" + ClasspathFile + "=" + classpathFile in args
  {
    ForkedArgsLayout(args, config, classpathFile, jar);
    ForkedArgsCoverConfig(args, config, classpathFile, jar);
    assert forall x :: x in args[..|config|] ==> x in args;
  }
}
