/** The names of the configuration properties that Retrolambda reads.
    They are constants of RetrolambdaApi, which is not part of this model;
    the model relies only on their being distinct and free of '='. */
module RetrolambdaApi {
  const BytecodeVersion: string := "retrolambda.bytecodeVersion"
  const DefaultMethods: string := "retrolambda.defaultMethods"
  const Quiet: string := "retrolambda.quiet"
  const InputDir: string := "retrolambda.inputDir"
  const OutputDir: string := "retrolambda.outputDir"
  const Classpath: string := "retrolambda.classpath"
  /** Read by the tool instead of Classpath: the path of a file listing the classpath. */
  const ClasspathFile: string := Classpath + "File"
  const JavacHacks: string := "retrolambda.javacHacks"
  const FixJava8Classpath: string := "retrolambda.fixJava8Classpath"
}
