/** The java.util.Properties object that execute() fills and hands to
    Retrolambda, either in process or as -D options of a forked JVM. */
module Config {
  import opened Text
  import opened RetrolambdaApi

  /** A Properties table: string keys to string values. Its key iteration
      order is unspecified, so only the map is modelled. */
  class Properties {
    var entries: map<string, string>

    constructor ()
      ensures entries == map[]
    {
      entries := map[];
    }

    /** setProperty: adds the key, or replaces its value. */
    method SetProperty(key: string, value: string)
      modifies this
      ensures entries == old(entries)[key := value]
    {
      entries := entries[key := value];
    }
  }

  /** The eight keys execute() sets. */
  const ConfigKeys: set<string> :=
    {BytecodeVersion, DefaultMethods, Quiet, InputDir, OutputDir, Classpath, JavacHacks, FixJava8Classpath}

  /** The configuration execute() builds, key by key: the bytecode version in
      decimal, each flag as "true"/"false", the two directories and the classpath string. */
  function ConfigMap(bytecodeVersion: nat, defaultMethods: bool, quiet: bool,
                     inputDir: string, outputDir: string, classpath: string,
                     javacHacks: bool, fixJava8Classpath: bool): map<string, string>
  {
    map[BytecodeVersion := DecimalString(bytecodeVersion),
        DefaultMethods := BoolString(defaultMethods),
        Quiet := BoolString(quiet),
        InputDir := inputDir,
        OutputDir := outputDir,
        Classpath := classpath,
        JavacHacks := BoolString(javacHacks),
        FixJava8Classpath := BoolString(fixJava8Classpath)]
  }

  /** The eight keys as a sequence, in the order execute() sets them. */
  const ConfigKeyOrder: seq<string> :=
    [BytecodeVersion, DefaultMethods, Quiet, InputDir, OutputDir, Classpath, JavacHacks, FixJava8Classpath]

  /** The eight keys are distinct: they differ in the character right after "retrolambda.". */
  lemma ConfigKeysCount()
    ensures |ConfigKeys| == 8
  {
    var ks := ConfigKeyOrder;
    var marks := "bdqiocjf";
    assert forall i | 0 <= i < 8 :: |ks[i]| > 12 && ks[i][12] == marks[i];
    assert forall i, j :: 0 <= i < j < 8 ==> ks[i] != ks[j] by {
      forall i, j | 0 <= i < j < 8 ensures ks[i] != ks[j] {
        assert ks[i][12] != ks[j][12];
      }
    }
    DistinctCard(ks);
    var indexed := set i | 0 <= i < 8 :: ks[i];
    assert ks[0] in indexed && ks[1] in indexed && ks[2] in indexed && ks[3] in indexed;
    assert ks[4] in indexed && ks[5] in indexed && ks[6] in indexed && ks[7] in indexed;
    assert ConfigKeys == indexed;
  }

  /** No key contains '=', and the classpath-file key is not one of them, so a
      "-Dkey=value" option built from the configuration names its key unambiguously. */
  lemma ConfigKeysWellFormed()
    ensures ClasspathFile !in ConfigKeys
    ensures forall k :: k in ConfigKeys ==> '=' !in k
  {
    FirstKeysWithoutEquals();
    LastKeysWithoutEquals();
    assert ClasspathFile[12..] == "classpathFile";
  }

  lemma FirstKeysWithoutEquals()
    ensures '=' !in BytecodeVersion && '=' !in DefaultMethods && '=' !in Quiet && '=' !in InputDir
  {
  }

  lemma LastKeysWithoutEquals()
    ensures '=' !in OutputDir && '=' !in Classpath && '=' !in JavacHacks && '=' !in FixJava8Classpath
  {
  }

  lemma {:induction false} DistinctCard(s: seq<string>)
    requires forall i, j :: 0 <= i < j < |s| ==> s[i] != s[j]
    ensures |set i | 0 <= i < |s| :: s[i]| == |s|
  {
    if s != [] {
      DistinctCard(s[1..]);
      var rest := set i | 0 <= i < |s[1..]| :: s[1..][i];
      assert (set i | 0 <= i < |s| :: s[i]) == {s[0]} + rest;
      assert s[0] !in rest;
    }
  }

  /** The configuration holds exactly the eight keys; the tool parses back the
      same version number and flags, and gets the paths unchanged. */
  lemma ConfigMapContents(bytecodeVersion: nat, defaultMethods: bool, quiet: bool,
                          inputDir: string, outputDir: string, classpath: string,
                          javacHacks: bool, fixJava8Classpath: bool)
    ensures var m := ConfigMap(bytecodeVersion, defaultMethods, quiet, inputDir, outputDir,
                               classpath, javacHacks, fixJava8Classpath);
            && m.Keys == ConfigKeys
            && m[BytecodeVersion] == DecimalString(bytecodeVersion)
            && ParseDecimal(m[BytecodeVersion]) == bytecodeVersion
            && (m[DefaultMethods] == "true" <==> defaultMethods)
            && (m[Quiet] == "true" <==> quiet)
            && (m[JavacHacks] == "true" <==> javacHacks)
            && (m[FixJava8Classpath] == "true" <==> fixJava8Classpath)
            && m[InputDir] == inputDir && m[OutputDir] == outputDir && m[Classpath] == classpath
  {
    ParseDecimalString(bytecodeVersion);
  }
}
