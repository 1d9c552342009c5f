/** The paths the plugin builds from directories it is given. Paths are plain
    strings joined with '/', as the source's string concatenation does. */
module Paths {
  import opened Text

  /** getJavaCommand(File javaHome): the java launcher under a Java installation. */
  function JavaCommandAt(javaHome: string): (r: string)
    ensures StartsWith(r, javaHome) && r[|javaHome|..] == "/bin/java"
  {
    javaHome + "/bin/java"
  }

  /** getRetrolambdaJarDir: the cache directory inside the build directory. */
  function RetrolambdaJarDir(buildDirectory: string): string
  {
    buildDirectory + "/retrolambda"
  }

  /** getRetrolambdaJarName. */
  function RetrolambdaJarName(): string
  {
    "retrolambda.jar"
  }

  /** getRetrolambdaJarPath: the copied jar inside the cache directory. */
  function RetrolambdaJarPath(buildDirectory: string): string
  {
    RetrolambdaJarDir(buildDirectory) + "/" + RetrolambdaJarName()
  }

  /** The jar the dependency plugin writes is the jar the forked process runs:
      <build directory>/retrolambda/retrolambda.jar. */
  lemma JarPathLayout(buildDirectory: string)
    ensures RetrolambdaJarPath(buildDirectory) == buildDirectory + "/retrolambda/retrolambda.jar"
    ensures StartsWith(RetrolambdaJarPath(buildDirectory), RetrolambdaJarDir(buildDirectory) + "/")
  {
  }

  /** getClasspath: the classpath elements joined with the platform's path separator. */
  function ClasspathString(elements: seq<string>, pathSeparator: char): string
  {
    Join(elements, [pathSeparator])
  }

  /** What getClasspathFile writes into the temporary file: one element per line. */
  function ClasspathFileContent(elements: seq<string>): string
  {
    Join(elements, "\n")
  }

  /** Splitting the classpath string at the separator gives the elements back,
      when there is at least one and none contains the separator. */
  lemma ClasspathStringRoundTrip(elements: seq<string>, pathSeparator: char)
    requires |elements| >= 1
    requires forall i :: 0 <= i < |elements| ==> pathSeparator !in elements[i]
    ensures Split(ClasspathString(elements, pathSeparator), pathSeparator) == elements
  {
    SplitJoin(elements, pathSeparator);
  }

  /** Splitting the classpath file's content at '\n' gives the elements back,
      when there is at least one and none contains a line break. */
  lemma ClasspathFileRoundTrip(elements: seq<string>)
    requires |elements| >= 1
    requires forall i :: 0 <= i < |elements| ==> '\n' !in elements[i]
    ensures Split(ClasspathFileContent(elements), '\n') == elements
  {
    SplitJoin(elements, '\n');
  }
}
