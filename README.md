# `bal explain` — a Dafny model

This project models `ExplainCommand`, the command behind `bal explain <error-code>` in the Ballerina
command-line tool. The command does three things in order:

- It checks its argument list. The checks run in a fixed order: help flag, then a missing or empty
  list, then too many arguments, then an empty code.
- For a code that starts with `BCE`, it searches two diagnostic registries. The compiler-internal
  registry is searched first. It then prints one line: "invalid code", "no explanation", or the
  bundled explanation text verbatim.
- It always tries project detection. Inside a project, it submits three preparatory build tasks
  (clean target directory, pre-build tools, Maven dependency resolution). It then prints the
  package name and its dependencies.

The files:

- `wrappers.dfy` has `Option`. `None` stands for Java's `null`.
- `diagnostics.dfy` holds the registries and the two-registry first-match search. The search is
  modelled twice: as pure functions, and as a method with the two loops of the Java code. The method is
  proved equal to the functions.
- `explain_command.dfy` holds the command.
  - `Cmd.Run` specifies one `execute`. It is built from `Validate`, `Explanation` and
    `ProjectTranscript`.
  - The class `ExplainCommand` holds the out stream, the error stream, the exit outcome and the
    tasks handed to the executor. Its methods change these fields step by step, as the Java code
    does. Each method is proved to produce exactly what `Run` (or the matching part of it)
    specifies.
- `explain_properties.dfy` proves what the command promises, as lemmas about `Run`.

Collaborators the command calls are inputs, gathered in `Cmd.Environment`:

- the usage text;
- the two registries, as sequences of (diagnosticId, messageKey);
- the bundled "error-codes" directory, as `ExplanationStore`;
- the working directory;
- the detected project, as `Option<Project>`. `None` means `findProjectRoot` returned null. A
  `Project` carries the root, package name, dependency names, `isProjectUpdated`,
  `enableCache()`, and how the task executor's run ended, with the lines the tasks printed.

An output stream is a sequence with one entry per `println`. An error-stream entry is an
`ErrorReport` holding the message and the usage hint. The exit outcome is one of three: `Normal`,
`ErrorExit(message)` (for `exitError`), or `Uncaught(fault)` (an exception that leaves `execute`).

Two behaviours of the code are worth stating on their own:

- Only `NullPointerException` is caught around the task run (`ExplainCommand.java:100`). Any other
  exception from the task run escapes as `Uncaught(OtherException)`, after the detected line and the
  tasks' output.
- A missing `error-codes` resource makes `getSystemResource` return null, so `.toURI()` throws a
  `NullPointerException` that the `IOException | URISyntaxException` handler does not catch
  (`ExplainCommand.java:141-150`). `Explanation` then gives `None` and `Run` ends with
  `Uncaught(NullPointer)`. This happens only for codes that a registry defines: an unknown code
  returns at line 134, before the resource is touched.

## Model

| member | source | states |
|---|---|---|
| `Diagnostics.FirstMatch` | cli/ballerina-cli/src/main/java/io/ballerina/cli/cmd/ExplainCommand.java:156-160 | The result is null exactly when no entry has the id. Otherwise it is the entry at the first index whose diagnosticId equals the id exactly. |
| `Diagnostics.Lookup` | cli/ballerina-cli/src/main/java/io/ballerina/cli/cmd/ExplainCommand.java:155-168 | Null if and only if neither registry defines the id. A match in the compiler-internal registry wins over the second registry. Any result has exactly that id. |
| `Diagnostics.LookupIsFirstMatchOfConcatenation` | cli/ballerina-cli/src/main/java/io/ballerina/cli/cmd/ExplainCommand.java:155-168 | Searching the two registries in priority order equals one first-match search over their concatenation, compiler-internal codes first. |
| `Diagnostics.GetDiagnosticError` | cli/ballerina-cli/src/main/java/io/ballerina/cli/cmd/ExplainCommand.java:155-168 | The two for-each loops with early return give exactly `Lookup`'s result. |
| `Cmd.Validate` | cli/ballerina-cli/src/main/java/io/ballerina/cli/cmd/ExplainCommand.java:50-73 | Help wins over everything. A null or empty list gives "no error code given". Otherwise more than one argument gives "too many arguments". Otherwise an empty code gives "error code is empty". Each case holds in both directions. A code is accepted exactly when it is the single non-empty argument. |
| `Cmd.Explanation` | cli/ballerina-cli/src/main/java/io/ballerina/cli/cmd/ExplainCommand.java:130-153 | An unknown code gives "Invalid error code: <code>". For a known code, a malformed URI or a missing or unreadable `<code>.md` gives the no-explanation line, with the first-priority entry's messageKey. A readable file gives its text unchanged. A missing resource directory gives the uncaught null dereference, and only for a known code. |
| `Cmd.TaskPlan` | cli/ballerina-cli/src/main/java/io/ballerina/cli/cmd/ExplainCommand.java:87-93 | There are three tasks in stage order: clean target dir (with isPackageModified, enableCache and the explicit `false`), pre-build tools, Maven dependency resolution. |
| `Cmd.ProjectTranscript` | cli/ballerina-cli/src/main/java/io/ballerina/cli/cmd/ExplainCommand.java:79-106 | Without a root, it prints only "Ballerina project not detected at: <cwd>" and ends normally, with no tasks. With a root, it prints the detected line, then the tasks' output, then one of: the package name and the dependencies in manifest order; the generic message after a NullPointerException; nothing more, with the exception escaping, after any other exception. |
| `Cmd.Run` | cli/ballerina-cli/src/main/java/io/ballerina/cli/cmd/ExplainCommand.java:48-108 | The error exit happens exactly for the validation failures. It comes with no out-stream output and exactly one error report carrying the same message. Tasks are submitted exactly when a valid argument reaches a detected project. |
| `Cmd.ExplainCommand.constructor` | cli/ballerina-cli/src/main/java/io/ballerina/cli/cmd/ExplainCommand.java:43-46 | A new command has empty streams, a normal outcome and no submitted tasks. |
| `Cmd.ExplainCommand.FailWith` | cli/ballerina-cli/src/main/java/io/ballerina/cli/cmd/ExplainCommand.java:57-59 | It appends one report (the message with the usage hint `bal explain <error-code> `) to the error stream and takes the error exit with that message. |
| `Cmd.ExplainCommand.PrintDependencies` | cli/ballerina-cli/src/main/java/io/ballerina/cli/cmd/ExplainCommand.java:97-99 | It appends the dependency names to the out stream, in manifest order. |
| `Cmd.ExplainCommand.ExplainErrorCode` | cli/ballerina-cli/src/main/java/io/ballerina/cli/cmd/ExplainCommand.java:130-153 | It appends exactly the line `Explanation` gives, or reports a NullPointerException and appends nothing. |
| `Cmd.ExplainCommand.DetectProject` | cli/ballerina-cli/src/main/java/io/ballerina/cli/cmd/ExplainCommand.java:79-106 | The out stream, the outcome and the submitted tasks change exactly as `ProjectTranscript` says. |
| `Cmd.ExplainCommand.Execute` | cli/ballerina-cli/src/main/java/io/ballerina/cli/cmd/ExplainCommand.java:48-108 | Both streams grow by exactly `Run`'s output. The outcome is `Run`'s outcome. The submitted tasks grow by `Run`'s tasks. |
| `ExplainProperties.HelpOnlyPrintsUsage` | cli/ballerina-cli/src/main/java/io/ballerina/cli/cmd/ExplainCommand.java:50-54 | With the help flag, the usage text is the only output, whatever the arguments. There is no error, no lookup and no detection. |
| `ExplainProperties.ValidationCascade` | cli/ballerina-cli/src/main/java/io/ballerina/cli/cmd/ExplainCommand.java:56-73 | Each argument error writes only its fixed message to the error stream and takes the error exit. The errors are checked in the order `ExplainCommand.execute` uses. |
| `ExplainProperties.NonCompilerCodeIsNotExplained` | cli/ballerina-cli/src/main/java/io/ballerina/cli/cmd/ExplainCommand.java:75-77 | A code without the BCE prefix produces no explanation output and goes straight to project detection. |
| `ExplainProperties.CompilerCodeIsExplainedThenDetected` | cli/ballerina-cli/src/main/java/io/ballerina/cli/cmd/ExplainCommand.java:75-81 | A BCE code yields exactly one explanation line, followed by the whole project-branch output. The only exception to this is the uncaught missing-resource fault. |
| `ExplainProperties.UnknownCodeLine` | cli/ballerina-cli/src/main/java/io/ballerina/cli/cmd/ExplainCommand.java:132-134 | An unknown BCE code prints exactly "Invalid error code: <code>" and then the project-branch output. |
| `ExplainProperties.NoExplanationUsesFirstPriorityKey` | cli/ballerina-cli/src/main/java/io/ballerina/cli/cmd/ExplainCommand.java:137-151 | When the explanation is unavailable, the messageKey comes from the first compiler-internal entry, whatever the second registry holds. |
| `ExplainProperties.NotDetectedEndsNormally` | cli/ballerina-cli/src/main/java/io/ballerina/cli/cmd/ExplainCommand.java:104-105 | Outside a project, the last line is "Ballerina project not detected at: <cwd>", with no error, no task and a normal end. This holds for every valid code except a registry-defined BCE code when the error-codes resource is missing, where the uncaught NullPointerException ends the command first. |
| `ExplainProperties.DetectedProjectOutputOrder` | cli/ballerina-cli/src/main/java/io/ballerina/cli/cmd/ExplainCommand.java:75-99 | For a BCE code, the explanation line comes first; for any other code, nothing comes first. Then the output order is: detected line, task output, package name, dependencies. The tasks are submitted as clean, then pre-build tools, then Maven. This is for a task run that finished; `DetectedProjectPrefixOrder` covers the detected line, task output and task order for any run, and `OnlyNullPointerIsCaught` covers a run that threw. The missing-resource NullPointerException is excluded. |
| `ExplainProperties.DetectedProjectPrefixOrder` | cli/ballerina-cli/src/main/java/io/ballerina/cli/cmd/ExplainCommand.java:75-95 | For any task-run outcome inside a project: the explanation line of a BCE code comes first (nothing for other codes), then the detected line and the tasks' output; nothing goes to the error stream; the tasks are submitted as clean, then pre-build tools, then Maven. The missing-resource NullPointerException is excluded. |
| `ExplainProperties.OnlyNullPointerIsCaught` | cli/ballerina-cli/src/main/java/io/ballerina/cli/cmd/ExplainCommand.java:94-102 | A NullPointerException from the task run becomes the generic message with a normal end. Any other exception escapes, without the summary. |
| `ExplainProperties.UnknownCodeOutsideProject` | cli/ballerina-cli/src/main/java/io/ballerina/cli/cmd/ExplainCommand.java:75-105 | `bal explain BCE1234`, with the code in neither registry and outside a project, prints the invalid-code line and then the not-detected line, and ends normally. |

## Left out

- The help text from `BLauncherCmd.getCommandUsageInfo` is an input (`Environment.usage`). Its content is not modelled.
- `CommandUtil.printError` and `exitError` are not part of this model. Their formatting and process termination become an `ErrorReport` and the `ErrorExit` outcome.
- Classpath and filesystem access (`getSystemResource`, `Paths.get`, `Files.exists`, `Files.readString`) is modelled by `ExplanationStore`. Unchecked exceptions from `Paths.get`, such as a file system that is not found, are not modelled.
- `findProjectRoot`, `BuildProject.load`, `BuildOptions` and `isProjectUpdated` are not part of this model. Their results are inputs in `Project`. Exceptions thrown by loading the project, and `NullPointerException`s raised while printing the package summary, are not modelled.
- `TaskExecutor` and the three task classes are not part of this model. The model does not say what the explicit `false` argument means, when the cleaning task skips itself, or whether execution stops at the first failure. Only the order of `addTask` calls, the arguments, and an abstract run outcome are modelled.
- The picocli annotations and the trivial overrides (`getName`, `printLongDesc`, `printUsage`, `setParentCmdParser`) are framework glue and are not modelled.
- The contents of the two `DiagnosticErrorCode` enums are not modelled. They are arbitrary sequences of (diagnosticId, messageKey).
- Paths are strings. Their formatting when printed (`Path.toString`) is not modelled.
