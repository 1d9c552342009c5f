# ProcessClassesMojo of retrolambda-maven-plugin, modelled in Dafny

The Maven goal `ProcessClassesMojo` runs Retrolambda over a directory of
compiled classes. Unless it is skipped, the goal does the following:

- it validates the `target` parameter against the four supported Java versions;
- it forces a forked JVM when Maven itself does not run on Java 8;
- it fills a `Properties` object with the eight configuration entries Retrolambda reads;
- it runs Retrolambda either in Maven's JVM, through reflection, or in a forked JVM.

The forked run has four steps:

1. It copies the Retrolambda jar into `<build>/retrolambda/retrolambda.jar` with the dependency plugin.
2. It writes the classpath into a temporary file.
3. It builds the java command line (`-Dkey=value` per entry, the classpath swapped for the classpath file, then the Java agent and `-jar`).
4. It runs that command line through the antrun plugin and deletes the temporary file in a `finally` block.

The temporary file is created, still empty, before the classpath is written into it. When the write fails, the exception leaves the goal before the `try` whose `finally` deletes the file. The file then stays behind, and only the JVM's delete-on-exit removes it later. The model keeps that path apart: `ClasspathFileLeftBehind` states when the file survives the goal.

The java executable comes from the following chain, in order:

- the first JDK toolchain for version "1.8" that has a java tool;
- the same for version "8";
- the build-context toolchain;
- `java8home`, which overrides all of the above;
- `java.home`.

How the project is laid out:

- `ProcessClassesMojo` is a class. Its fields are the goal's parameters, plus what it has done so far: the log, the requests made of other plugins, and the temporary files.
- `validateFork` changes the `fork` field.
- The two `for`/`break` loops of `getJavaCommand()` are one loop method, `JavaFromToolchains`, called first for version "1.8" and then for "8".
- The loop over the `Properties` key set picks keys in an unspecified order. Its result is specified up to that order (`IsForkedCommandLine`: there exists an iteration order of the keys that yields the arguments).
- The pure parts are functions with lemmas: target validation, the sorted list of possible values, the path helpers, the classpath strings and the resolution order.
- Calls out of the model become inputs. `Host` holds what is known about Maven's JVM. `Project` holds what the concrete goal supplies. `Environment` holds how the dependency plugin, the temporary file, the antrun exec, the file deletion and the reflective run turn out.

Modules:

- `Common`: Option, Result, the goal's outcome, log entries.
- `Text`: Joiner, String.contains, String.compareTo, int-to-string.
- `SortedStrings`: TreeSet.
- `RetrolambdaApi`: the property names.
- `Targets`
- `Paths`
- `Config`: Properties, the configuration map.
- `Toolchains`: the resolution order.
- `ForkedArgs`: the forked command line.
- `Mojo`: the goal itself.

## Model

In the source column, `P` stands for
`retrolambda-maven-plugin/src/main/java/net/orfjackal/retrolambda/maven/ProcessClassesMojo.java`;
each cell spells the path out.

| member | source | states |
|---|---|---|
| Targets.PossibleValuesSorted | retrolambda-maven-plugin/src/main/java/net/orfjackal/retrolambda/maven/ProcessClassesMojo.java:160-163 | the listed target keys are exactly the keys of the version map; putting them through a TreeSet gives them in ascending order, so the list of possible values reads "1.5, 1.6, 1.7, 1.8" |
| Targets.ValidateTargetAccepts | retrolambda-maven-plugin/src/main/java/net/orfjackal/retrolambda/maven/ProcessClassesMojo.java:159-165 | validateTarget is modelled by `Targets.ValidateTarget`, which succeeds exactly for "1.5", "1.6", "1.7" and "1.8"; any other target fails with "Unrecognized target '<t>'. Possible values are 1.5, 1.6, 1.7, 1.8" |
| Targets.BytecodeVersionOfTarget | retrolambda-maven-plugin/src/main/java/net/orfjackal/retrolambda/maven/ProcessClassesMojo.java:26-31 | a valid target is "1.x" with x from 5 to 8, and maps to class-file version 44 + x |
| SortedStrings.Insert | retrolambda-maven-plugin/src/main/java/net/orfjackal/retrolambda/maven/ProcessClassesMojo.java:161 | TreeSet.add keeps the elements strictly ascending under String.compareTo and adds exactly the new key |
| SortedStrings.TreeSetOf | retrolambda-maven-plugin/src/main/java/net/orfjackal/retrolambda/maven/ProcessClassesMojo.java:161 | new TreeSet(keys) holds exactly the given keys, strictly ascending |
| SortedStrings.SortedUnique | retrolambda-maven-plugin/src/main/java/net/orfjackal/retrolambda/maven/ProcessClassesMojo.java:161 | two strictly ascending sequences with the same elements are equal, so the joined list does not depend on the map's own key order |
| Text.ContainsIff | retrolambda-maven-plugin/src/main/java/net/orfjackal/retrolambda/maven/ProcessClassesMojo.java:193 | String.contains holds exactly when the text occurs at some index of the message |
| Text.DecimalString | retrolambda-maven-plugin/src/main/java/net/orfjackal/retrolambda/maven/ProcessClassesMojo.java:143 | "" + version is a non-empty string of decimal digits |
| Text.ParseDecimalString | retrolambda-maven-plugin/src/main/java/net/orfjackal/retrolambda/maven/ProcessClassesMojo.java:143 | the decimal string of the bytecode version reads back as the same number |
| Paths.JavaCommandAt | retrolambda-maven-plugin/src/main/java/net/orfjackal/retrolambda/maven/ProcessClassesMojo.java:304-306 | the launcher path starts with the Java home and continues with "/bin/java" |
| Paths.JarPathLayout | retrolambda-maven-plugin/src/main/java/net/orfjackal/retrolambda/maven/ProcessClassesMojo.java:330-340 | getRetrolambdaJarPath is modelled by `Paths.RetrolambdaJarPath`; the jar path is <build>/retrolambda/retrolambda.jar and lies in the directory the dependency plugin copies into |
| Paths.ClasspathStringRoundTrip | retrolambda-maven-plugin/src/main/java/net/orfjackal/retrolambda/maven/ProcessClassesMojo.java:308-314 | getClasspath is modelled by `Paths.ClasspathString`; splitting that string at the path separator gives back the elements, when there is at least one element and none contains the separator |
| Paths.ClasspathFileRoundTrip | retrolambda-maven-plugin/src/main/java/net/orfjackal/retrolambda/maven/ProcessClassesMojo.java:316-322 | splitting the content of the classpath file at '\n' gives back the elements, when there is at least one element and none contains a line break |
| Config.Properties.constructor | retrolambda-maven-plugin/src/main/java/net/orfjackal/retrolambda/maven/ProcessClassesMojo.java:142 | a new Properties object is empty |
| Config.Properties.SetProperty | retrolambda-maven-plugin/src/main/java/net/orfjackal/retrolambda/maven/ProcessClassesMojo.java:143-150 | setProperty maps the key to the value and leaves every other entry as it was |
| Config.ConfigKeysCount | retrolambda-maven-plugin/src/main/java/net/orfjackal/retrolambda/maven/ProcessClassesMojo.java:143-150 | the eight keys execute() sets are distinct, so the configuration has eight entries |
| Config.ConfigKeysWellFormed | retrolambda-maven-plugin/src/main/java/net/orfjackal/retrolambda/maven/ProcessClassesMojo.java:205-213 | no key contains '=', and the classpath-file key is not among them, so each "-Dkey=value" option names its key unambiguously |
| Config.ConfigMapContents | retrolambda-maven-plugin/src/main/java/net/orfjackal/retrolambda/maven/ProcessClassesMojo.java:142-150 | the properties execute() sets are modelled by `Config.ConfigMap`; that configuration has exactly the eight keys; the version reads back as the number; each flag is "true" exactly when it is set; the paths and classpath are passed unchanged |
| Toolchains.FirstWithJava | retrolambda-maven-plugin/src/main/java/net/orfjackal/retrolambda/maven/ProcessClassesMojo.java:259-268 | the toolchain the loop stops at is one of the candidates and has a java tool; there is none exactly when no candidate has one |
| Toolchains.FirstWithJavaAt | retrolambda-maven-plugin/src/main/java/net/orfjackal/retrolambda/maven/ProcessClassesMojo.java:261-267 | the loop stops at the first index whose toolchain has a java tool |
| Toolchains.FirstPresent | retrolambda-maven-plugin/src/main/java/net/orfjackal/retrolambda/maven/ProcessClassesMojo.java:255-302 | the first present source of a chain is one of the present sources; there is none exactly when every source is absent |
| Toolchains.FirstPresentAt | retrolambda-maven-plugin/src/main/java/net/orfjackal/retrolambda/maven/ProcessClassesMojo.java:255-302 | the chain's answer is the candidate at the first index that is present |
| Toolchains.ResolveIsFirstCandidate | retrolambda-maven-plugin/src/main/java/net/orfjackal/retrolambda/maven/ProcessClassesMojo.java:255-302 | getJavaCommand() is modelled by `Toolchains.ResolveJavaCommand`, which returns the first present source of the chain java8home, "1.8" toolchains, "8" toolchains, build context, java.home; since java.home is always present, it never returns null |
| Toolchains.Java8HomeWins | retrolambda-maven-plugin/src/main/java/net/orfjackal/retrolambda/maven/ProcessClassesMojo.java:290-295 | with java8home set, the command is java8home + "/bin/java", whatever the toolchains are |
| Toolchains.FirstVersion18ToolchainWins | retrolambda-maven-plugin/src/main/java/net/orfjackal/retrolambda/maven/ProcessClassesMojo.java:259-268 | without java8home, the java tool of the first "1.8" toolchain that has one is used |
| Toolchains.FirstVersion8ToolchainNext | retrolambda-maven-plugin/src/main/java/net/orfjackal/retrolambda/maven/ProcessClassesMojo.java:270-281 | when no "1.8" toolchain has a java tool, the first "8" toolchain that has one is used |
| Toolchains.BuildContextThenJavaHome | retrolambda-maven-plugin/src/main/java/net/orfjackal/retrolambda/maven/ProcessClassesMojo.java:284-299 | without versioned toolchains, the build-context toolchain's java tool is used when it has one; when it has none, or there is no such toolchain, java.home/bin/java is used |
| Toolchains.ResolvedIsASource | retrolambda-maven-plugin/src/main/java/net/orfjackal/retrolambda/maven/ProcessClassesMojo.java:255-302 | the command is always some toolchain's java tool, or the launcher under java8home or under java.home |
| Toolchains.ToolchainsIgnoredWarning | retrolambda-maven-plugin/src/main/java/net/orfjackal/retrolambda/maven/ProcessClassesMojo.java:290-293 | "Toolchains are ignored" is logged exactly when java8home is set and there is a build-context toolchain, and it is the last resolution message |
| ForkedArgs.ForkedArgsLayout | retrolambda-maven-plugin/src/main/java/net/orfjackal/retrolambda/maven/ProcessClassesMojo.java:205-216 | the forked arguments number one per configuration entry plus three, ending in "-javaagent:<jar>", "-jar", "<jar>" |
| ForkedArgs.ForkedArgsDefinitions | retrolambda-maven-plugin/src/main/java/net/orfjackal/retrolambda/maven/ProcessClassesMojo.java:205-213 | each option before those three defines a distinct property: a non-classpath key with its value unchanged, or the classpath-file key with the temporary file's path; the classpath key itself is never passed |
| ForkedArgs.ForkedArgsCoverConfig | retrolambda-maven-plugin/src/main/java/net/orfjackal/retrolambda/maven/ProcessClassesMojo.java:205-213 | every non-classpath entry appears as "-Dkey=value", and a classpath entry appears as the classpath-file option |
| ForkedArgs.ForkedArgsInclude | retrolambda-maven-plugin/src/main/java/net/orfjackal/retrolambda/maven/ProcessClassesMojo.java:205-213 | one given entry appears among the arguments, as its own option or as the classpath-file option |
| Mojo.ForkedCommandLine | retrolambda-maven-plugin/src/main/java/net/orfjackal/retrolambda/maven/ProcessClassesMojo.java:205-216 | the argument loop yields a forked command line for the configuration, for some iteration order of its keys |
| Mojo.ProcessClassesMojo.constructor | retrolambda-maven-plugin/src/main/java/net/orfjackal/retrolambda/maven/ProcessClassesMojo.java:33-124 | the goal starts with its injected parameters and components, an empty log and no requests made |
| Mojo.ProcessClassesMojo.ValidateFork | retrolambda-maven-plugin/src/main/java/net/orfjackal/retrolambda/maven/ProcessClassesMojo.java:167-172 | fork becomes old fork or not-on-Java-8; the warning is logged exactly when fork changed; the new state is a fixed point, so a second call changes nothing |
| Mojo.ProcessClassesMojo.JavaFromToolchains | retrolambda-maven-plugin/src/main/java/net/orfjackal/retrolambda/maven/ProcessClassesMojo.java:259-281 | each loop yields the java tool of the first toolchain for its version that has one, and logs that toolchain |
| Mojo.ProcessClassesMojo.JavaFromAnyToolchain | retrolambda-maven-plugin/src/main/java/net/orfjackal/retrolambda/maven/ProcessClassesMojo.java:258-288 | the toolchain steps give the versioned toolchain's tool, else the build-context toolchain's (possibly null), and log the one taken |
| Mojo.ProcessClassesMojo.GetJavaCommand | retrolambda-maven-plugin/src/main/java/net/orfjackal/retrolambda/maven/ProcessClassesMojo.java:255-302 | the result is the resolution chain's answer and the log gains exactly the resolution messages |
| Mojo.ProcessClassesMojo.ProcessClassesInCurrentProcess | retrolambda-maven-plugin/src/main/java/net/orfjackal/retrolambda/maven/ProcessClassesMojo.java:174-185 | it logs "Processing classes with Retrolambda" and hands over the configuration; any failure becomes "Failed to run Retrolambda" |
| Mojo.ProcessClassesMojo.RetrieveRetrolambdaJar | retrolambda-maven-plugin/src/main/java/net/orfjackal/retrolambda/maven/ProcessClassesMojo.java:237-253 | one copy request for com.kohlschutter.retrolambda:retrolambda of the version, overwriting, into the jar directory under the jar name |
| Mojo.ProcessClassesMojo.GetClasspathFile | retrolambda-maven-plugin/src/main/java/net/orfjackal/retrolambda/maven/ProcessClassesMojo.java:316-328 | a failed createTempFile adds no file and is the error; a failed write is the error and leaves the created file behind, empty; a successful write leaves the file holding the elements one per line |
| Mojo.ProcessClassesMojo.LaunchForked | retrolambda-maven-plugin/src/main/java/net/orfjackal/retrolambda/maven/ProcessClassesMojo.java:204-234 | one exec of the resolved java command, failing on error, with a forked command line; afterwards the classpath file is deleted, or a warning is logged |
| Mojo.ProcessClassesMojo.RunForked | retrolambda-maven-plugin/src/main/java/net/orfjackal/retrolambda/maven/ProcessClassesMojo.java:201-234 | after "Processing classes", either the classpath file cannot be created or written (the error, nothing launched, and a created file left behind) or the launch happens with the file's content and the file is cleaned up |
| Mojo.ProcessClassesMojo.ProcessClassesInForkedProcess | retrolambda-maven-plugin/src/main/java/net/orfjackal/retrolambda/maven/ProcessClassesMojo.java:187-235 | result, requests, temporary files and log for every outcome: unreadable version, not-packaged copy (success, nothing launched), other copy failure (propagated), file not created, file created but not written (left behind), launch |
| Mojo.ProcessClassesMojo.Dispatch | retrolambda-maven-plugin/src/main/java/net/orfjackal/retrolambda/maven/ProcessClassesMojo.java:152-156 | fork selects the forked run, otherwise the in-process run, each with its full effect |
| Mojo.ProcessClassesMojo.ProcessClasses | retrolambda-maven-plugin/src/main/java/net/orfjackal/retrolambda/maven/ProcessClassesMojo.java:142-156 | an unresolvable classpath fails with nothing done; otherwise the run receives exactly the expected eight-entry configuration |
| Mojo.ProcessClassesMojo.Execute | retrolambda-maven-plugin/src/main/java/net/orfjackal/retrolambda/maven/ProcessClassesMojo.java:133-157 | skip succeeds with only its log line, even for an invalid target; an invalid target fails with nothing done; otherwise fork is settled and the classes are processed in process or forked |
| Mojo.NotPackagedIsBenign | retrolambda-maven-plugin/src/main/java/net/orfjackal/retrolambda/maven/ProcessClassesMojo.java:190-199 | a copy failure mentioning "has not been packaged yet" ends in success with its message logged; any other copy failure is the result; neither launches or writes a file |
| Mojo.ClasspathFileCleanedUp | retrolambda-maven-plugin/src/main/java/net/orfjackal/retrolambda/maven/ProcessClassesMojo.java:203-234 | once written, the classpath file is gone again whatever the exec's outcome; a failed deletion does not change the result |
| Mojo.ClasspathFileLeftBehind | retrolambda-maven-plugin/src/main/java/net/orfjackal/retrolambda/maven/ProcessClassesMojo.java:203-234 | once the temporary file is created, it survives the forked goal exactly when writing the classpath into it or deleting it failed; a failed write is the goal's failure, launches nothing and leaves the file empty |
| Mojo.ConfiguredBytecodeVersion | retrolambda-maven-plugin/src/main/java/net/orfjackal/retrolambda/maven/ProcessClassesMojo.java:143 | the bytecode version in the configuration is "49", "50", "51" or "52" for 1.5 to 1.8, and reads back as the mapped number |
| Mojo.SampleConfigEntries | retrolambda-maven-plugin/src/main/java/net/orfjackal/retrolambda/maven/ProcessClassesMojo.java:142-150 | for target 1.8 with /in, /out and /a.jar, /b.jar the configuration has version "52", both directories and a classpath |
| Mojo.ForkedEndToEnd | retrolambda-maven-plugin/src/main/java/net/orfjackal/retrolambda/maven/ProcessClassesMojo.java:205-216 | for that configuration the forked arguments include the version 52, the classpath-file option and both directories |
| Mojo.SampleClasspathFile | retrolambda-maven-plugin/src/main/java/net/orfjackal/retrolambda/maven/ProcessClassesMojo.java:318 | the classpath file for /a.jar, /b.jar holds "/a.jar\n/b.jar" and reads back as the two entries |

## Left out

- Maven plugin calls are not modelled. The dependency plugin's copy and the antrun exec become a request value plus an outcome. Plugin coordinates, executeMojo and the session are not modelled.
- The reflective call to Retrolambda.run is not modelled. Only "any Throwable becomes 'Failed to run Retrolambda'" is kept. The cause is not kept.
- Temporary-file I/O is an input. Whether File.createTempFile succeeds, the path it returns, and whether Files.write succeeds are inputs. File.createTempFile naming and the UTF-8 encoding are not modelled.
- deleteOnExit is not modelled. The temporary files record what exists when the goal ends, so a file left behind by a failed write stays in them.
- Mojo.ProcessClassesMojo.GetClasspathFile: after a failed write, the file's content is modelled as empty. Whatever part of the classpath Files.write wrote before failing is not modelled.
- getClasspathFile and getClasspath each read the classpath elements. The model reads them once and assumes both calls agree. So the DependencyResolutionRequiredException branch of getClasspathFile cannot happen after getClasspath succeeded.
- getRetrolambdaVersion is modelled only as a version or none. None stands for the IOException case, which fails with "Failed to detect the Retrolambda version". A missing pom.properties resource makes load or close throw a NullPointerException, and the model does not tell that case apart.
- A missing `version` property makes getRetrolambdaVersion return null without failing. The source then logs "Retrieving Retrolambda null" and asks the dependency plugin for a copy with a null version. The model covers this only as the version string "null". That gives the same log line, but its copy request carries a string where the source passes null.
- SystemUtils.isJavaVersionAtLeast(1.8f) is a boolean input.
- System.getProperty("java.home") and File.pathSeparator are inputs.
- File path normalisation is not modelled. Paths are plain strings joined with "/". new File(home, "bin/java").getPath() is modelled as home + "/bin/java".
- Exception messages are plain strings. A RuntimeException wrapping another exception is modelled as a failure with the wrapped error's message.
- The log is a sequence of entries. Toolchain.toString and File.toString are taken as given strings.
- The RetrolambdaApi property names are taken to be "retrolambda." plus the property name. RetrolambdaApi.java is not part of this model. The proofs rely only on the names being distinct and free of '='.
- The toolchain manager is modelled as a lookup. It maps the version requirement to the matching JDK toolchains, plus an optional build-context toolchain. Its own matching of version ranges is not modelled.
- Text.Below compares strings character by character. Java's String.compareTo compares UTF-16 code units, so the two orders differ for characters outside the Basic Multilingual Plane. The four target keys are plain ASCII.
- Properties iteration order is unspecified. The forked command line is specified only up to that order.
- Mojo.ProcessClassesMojo.Execute: its contract states the log only for the skip and invalid-target paths. The later log lines are stated by ValidateFork, Dispatch and ProcessClasses.
- Targets.BytecodeVersionOfTarget: Dafny proves it directly from the map literal. It records the mapping rather than carrying proof work.
