/**
  `bal explain <error-code>`: validates its single argument, explains a
  compiler error code (one whose identifier starts with "BCE") from the
  diagnostic registries and the bundled explanation files, then reports
  whether the working directory is inside a Ballerina project and, if it is,
  runs the preparatory build tasks and prints the package name and its
  dependencies.

  The collaborators the command calls (usage text, registries, the bundled
  resource directory, project discovery and loading, the task executor) are
  inputs gathered in an `Environment`.
 */
module Cmd {
  import opened Wrappers
  import opened Diagnostics

  const COMPILER_ERROR_PREFIX: string := "BCE"
  const USAGE_HINT: string := "bal explain <error-code> "
  const NO_CODE_GIVEN: string := "no error code given"
  const TOO_MANY_ARGUMENTS: string := "too many arguments"
  const CODE_IS_EMPTY: string := "error code is empty"
  const PROJECT_DETECTED: string := "Ballerina project detected at: "
  const PROJECT_NOT_DETECTED: string := "Ballerina project not detected at: "
  const EXECUTION_FAILED: string := "Error occurred while executing the explain command"

  function InvalidCodeMessage(code: string): string
  {
    "Invalid error code: " + code
  }

  function NoExplanationMessage(code: string, messageKey: string): string
  {
    "Error code: " + code + " - \"" + messageKey + "\" does not have an explanation"
  }

  /** The name of the bundled explanation file for `code`. */
  function ExplanationFile(code: string): string
  {
    code + ".md"
  }

  // ---------------------------------------------------------------------------
  // Inputs and observable outcome

  /** What reading one file of the resource directory gives. */
  datatype FileContent = Readable(text: string) | Unreadable

  /**
    The bundled "error-codes" resource directory as the command finds it:
    missing from the class path (the resource URL is null), present under a
    URL that is not a valid URI, or a directory whose files are listed by name.
    A name absent from `files` is a file that does not exist.
   */
  datatype ExplanationStore =
    | NoResourceRoot
    | MalformedRootUri
    | ResourceRoot(files: map<string, FileContent>)

  /** The exceptions the model distinguishes. */
  datatype Fault = NullPointer | OtherException

  /** How the task executor's run ended, with the lines the tasks printed before that. */
  datatype TaskRun = Finished(log: seq<string>) | Threw(fault: Fault, log: seq<string>)

  /** The three tasks the command hands to the executor. */
  datatype Task =
    | CleanTargetDir(isPackageModified: bool, enableCache: bool)
    | RunPreBuildTools
    | ResolveMavenDependencies

  /** A task as added to the builder, with the second `addTask` argument when one is passed. */
  datatype TaskEntry = TaskEntry(task: Task, flag: Option<bool>)

  /** A detected and loaded project, together with the results of the calls made on it. */
  datatype Project = Project(
    root: string,
    packageName: string,
    dependencies: seq<string>,
    isModified: bool,
    cacheEnabled: bool,
    run: TaskRun)

  datatype Environment = Environment(
    usage: string,
    compilerCodes: Registry,
    langCodes: Registry,
    store: ExplanationStore,
    cwd: string,
    project: Option<Project>)

  /** One report written to the error stream: its message and the usage hint shown with it. */
  datatype ErrorReport = ErrorReport(message: string, usage: string)

  /** How `execute` ends: normally, through the error exit, or by an exception it does not catch. */
  datatype Exit = Normal | ErrorExit(message: string) | Uncaught(fault: Fault)

  /** Everything one `execute` makes observable. */
  datatype Transcript = Transcript(out: seq<string>, err: seq<ErrorReport>, exit: Exit, tasks: seq<TaskEntry>)

  // ---------------------------------------------------------------------------
  // Specification of `execute`

  datatype Validation = ShowHelp | Reject(message: string) | Accept(code: string)

  /** The argument checks, in the order the command makes them; `argList == None` is a null list. */
  function Validate(helpFlag: bool, argList: Option<seq<string>>): (v: Validation)
    ensures v.ShowHelp? <==> helpFlag
    ensures v == Reject(NO_CODE_GIVEN) <==> !helpFlag && (argList.None? || argList.value == [])
    ensures v == Reject(TOO_MANY_ARGUMENTS) <==> !helpFlag && argList.Some? && |argList.value| > 1
    ensures v == Reject(CODE_IS_EMPTY) <==> !helpFlag && argList.Some? && |argList.value| == 1 && argList.value[0] == ""
    ensures v.Reject? ==> v.message in {NO_CODE_GIVEN, TOO_MANY_ARGUMENTS, CODE_IS_EMPTY}
    ensures v.Accept? <==> !helpFlag && argList.Some? && |argList.value| == 1 && argList.value[0] != ""
    ensures v.Accept? ==> v.code == argList.value[0]
  {
    if helpFlag then ShowHelp
    else if argList.None? || argList.value == [] then Reject(NO_CODE_GIVEN)
    else if |argList.value| > 1 then Reject(TOO_MANY_ARGUMENTS)
    else if argList.value[0] == "" then Reject(CODE_IS_EMPTY)
    else Accept(argList.value[0])
  }

  /** The explanation text is unavailable: the resource URI is malformed, or the file is missing or unreadable. */
  predicate NoExplanationFor(code: string, store: ExplanationStore)
  {
    || store.MalformedRootUri?
    || (store.ResourceRoot? &&
        (ExplanationFile(code) !in store.files || store.files[ExplanationFile(code)].Unreadable?))
  }

  /**
    The one line the explanation step prints for `code`, or None when the
    resource directory is missing and dereferencing its null URL throws.
   */
  function Explanation(code: string, compilerCodes: Registry, langCodes: Registry, store: ExplanationStore)
    : (r: Option<string>)
    ensures !Defines(compilerCodes, code) && !Defines(langCodes, code) ==> r == Some(InvalidCodeMessage(code))
    ensures r.None? <==> (Defines(compilerCodes, code) || Defines(langCodes, code)) && store.NoResourceRoot?
    ensures (Defines(compilerCodes, code) || Defines(langCodes, code)) && NoExplanationFor(code, store) ==>
      exists c :: (FirstOf(compilerCodes, code, c) || (!Defines(compilerCodes, code) && FirstOf(langCodes, code, c)))
        && r == Some(NoExplanationMessage(code, c.messageKey))
    ensures && (Defines(compilerCodes, code) || Defines(langCodes, code))
            && store.ResourceRoot? && ExplanationFile(code) in store.files
            && store.files[ExplanationFile(code)].Readable?
            ==> r == Some(store.files[ExplanationFile(code)].text)
  {
    match Lookup(compilerCodes, langCodes, code)
    case None => Some(InvalidCodeMessage(code))
    case Some(diagnostic) =>
      var notFound := NoExplanationMessage(code, diagnostic.messageKey);
      match store
      case NoResourceRoot => None
      case MalformedRootUri => Some(notFound)
      case ResourceRoot(files) =>
        if ExplanationFile(code) !in files then Some(notFound)
        else match files[ExplanationFile(code)]
          case Unreadable => Some(notFound)
          case Readable(text) => Some(text)
  }

  /** Pipeline position of a task: cleaning, then build tools, then dependency resolution. */
  function Stage(t: Task): nat
  {
    match t
    case CleanTargetDir(_, _) => 0
    case RunPreBuildTools => 1
    case ResolveMavenDependencies => 2
  }

  /** The tasks in the order they are added to the executor. */
  function TaskPlan(isModified: bool, cacheEnabled: bool): (plan: seq<TaskEntry>)
    ensures |plan| == 3
    ensures forall i :: 0 <= i < 3 ==> Stage(plan[i].task) == i
    ensures plan[0] == TaskEntry(CleanTargetDir(isModified, cacheEnabled), Some(false))
    ensures plan[1].flag.None? && plan[2].flag.None?
  {
    [ TaskEntry(CleanTargetDir(isModified, cacheEnabled), Some(false)),
      TaskEntry(RunPreBuildTools, None),
      TaskEntry(ResolveMavenDependencies, None) ]
  }

  /** What the project branch prints and how it ends. */
  function ProjectTranscript(cwd: string, project: Option<Project>): (t: Transcript)
    ensures t.err == []
    ensures project.None? ==> t.out == [PROJECT_NOT_DETECTED + cwd] && t.exit == Normal && t.tasks == []
    ensures project.Some? ==>
      && |t.out| >= 1 + |project.value.run.log|
      && t.out[..1 + |project.value.run.log|] == [PROJECT_DETECTED + project.value.root] + project.value.run.log
      && t.tasks == TaskPlan(project.value.isModified, project.value.cacheEnabled)
    ensures project.Some? && project.value.run.Finished? ==>
      t.out[1 + |project.value.run.log|..] == [project.value.packageName] + project.value.dependencies
      && t.exit == Normal
    ensures project.Some? && project.value.run == Threw(NullPointer, project.value.run.log) ==>
      t.out[1 + |project.value.run.log|..] == [EXECUTION_FAILED] && t.exit == Normal
    ensures project.Some? && project.value.run == Threw(OtherException, project.value.run.log) ==>
      |t.out| == 1 + |project.value.run.log| && t.exit == Uncaught(OtherException)
  {
    match project
    case None => Transcript([PROJECT_NOT_DETECTED + cwd], [], Normal, [])
    case Some(p) =>
      var head := [PROJECT_DETECTED + p.root] + p.run.log;
      var plan := TaskPlan(p.isModified, p.cacheEnabled);
      match p.run
      case Finished(_) => Transcript(head + ([p.packageName] + p.dependencies), [], Normal, plan)
      case Threw(NullPointer, _) => Transcript(head + [EXECUTION_FAILED], [], Normal, plan)
      case Threw(OtherException, _) => Transcript(head, [], Uncaught(OtherException), plan)
  }

  /** Everything one `execute` with these fields and collaborators makes observable. */
  function Run(helpFlag: bool, argList: Option<seq<string>>, env: Environment): (t: Transcript)
    ensures t.exit.ErrorExit? <==> Validate(helpFlag, argList).Reject?
    ensures t.err != [] <==> t.exit.ErrorExit?
    ensures t.exit.ErrorExit? ==> t.out == [] && t.err == [ErrorReport(t.exit.message, USAGE_HINT)]
    ensures t.tasks != [] <==> Validate(helpFlag, argList).Accept? && env.project.Some? && t.exit != Uncaught(NullPointer)
  {
    match Validate(helpFlag, argList)
    case ShowHelp => Transcript([env.usage], [], Normal, [])
    case Reject(message) => Transcript([], [ErrorReport(message, USAGE_HINT)], ErrorExit(message), [])
    case Accept(code) =>
      var project := ProjectTranscript(env.cwd, env.project);
      if COMPILER_ERROR_PREFIX <= code then
        match Explanation(code, env.compilerCodes, env.langCodes, env.store)
        case None => Transcript([], [], Uncaught(NullPointer), [])
        case Some(line) => project.(out := [line] + project.out)
      else project
  }

  // ---------------------------------------------------------------------------
  // The command object

  class ExplainCommand {
    const helpFlag: bool
    /** The positional parameters; None stands for a null list. */
    const argList: Option<seq<string>>
    /** Lines printed to the out stream and reports printed to the error stream. */
    var outStream: seq<string>
    var errStream: seq<ErrorReport>
    /** How the last `Execute` ended. */
    var exit: Exit
    /** The tasks handed to the task executor so far. */
    var submittedTasks: seq<TaskEntry>

    constructor (helpFlag: bool, argList: Option<seq<string>>)
      ensures this.helpFlag == helpFlag && this.argList == argList
      ensures outStream == [] && errStream == [] && exit == Normal && submittedTasks == []
    {
      this.helpFlag := helpFlag;
      this.argList := argList;
      outStream, errStream := [], [];
      exit := Normal;
      submittedTasks := [];
    }

    /** printError followed by exitError. */
    method FailWith(message: string)
      modifies this`errStream, this`exit
      ensures errStream == old(errStream) + [ErrorReport(message, USAGE_HINT)]
      ensures exit == ErrorExit(message)
    {
      errStream := errStream + [ErrorReport(message, USAGE_HINT)];
      exit := ErrorExit(message);
    }

    /** The `forEach` over the dependency manifest: one line per package, in manifest order. */
    method PrintDependencies(dependencies: seq<string>)
      modifies this`outStream
      ensures outStream == old(outStream) + dependencies
    {
      for i := 0 to |dependencies|
        invariant outStream == old(outStream) + dependencies[..i]
      {
        outStream := outStream + [dependencies[i]];
      }
    }

    /** explainErrorCode: prints one line, or reports the uncaught exception it raises. */
    method ExplainErrorCode(errorCode: string, compilerCodes: Registry, langCodes: Registry, store: ExplanationStore)
      returns (thrown: Option<Fault>)
      modifies this`outStream
      ensures var line := Explanation(errorCode, compilerCodes, langCodes, store);
        && (thrown.None? <==> line.Some?)
        && (thrown.Some? ==> thrown.value == NullPointer)
        && outStream == old(outStream) + (if line.Some? then [line.value] else [])
    {
      thrown := None;
      var diagnosticCode := GetDiagnosticError(compilerCodes, langCodes, errorCode);
      if diagnosticCode.None? {
        outStream := outStream + [InvalidCodeMessage(errorCode)];
        return;
      }
      var notFoundMsg := NoExplanationMessage(errorCode, diagnosticCode.value.messageKey);
      match store {
        case NoResourceRoot =>
          thrown := Some(NullPointer);
        case MalformedRootUri =>
          outStream := outStream + [notFoundMsg];
        case ResourceRoot(files) =>
          var explanationPath := ExplanationFile(errorCode);
          if explanationPath !in files {
            outStream := outStream + [notFoundMsg];
            return;
          }
          match files[explanationPath] {
            case Unreadable =>
              outStream := outStream + [notFoundMsg];
            case Readable(explanation) =>
              outStream := outStream + [explanation];
          }
      }
    }

    method Execute(env: Environment)
      modifies this`outStream, this`errStream, this`exit, this`submittedTasks
      ensures var t := Run(helpFlag, argList, env);
        && outStream == old(outStream) + t.out
        && errStream == old(errStream) + t.err
        && exit == t.exit
        && submittedTasks == old(submittedTasks) + t.tasks
    {
      if helpFlag {
        outStream := outStream + [env.usage];
        exit := Normal;
        return;
      }
      if argList.None? || argList.value == [] {
        FailWith(NO_CODE_GIVEN);
        return;
      }
      if |argList.value| > 1 {
        FailWith(TOO_MANY_ARGUMENTS);
        return;
      }
      var errorCode := argList.value[0];
      if errorCode == "" {
        FailWith(CODE_IS_EMPTY);
        return;
      }
      if COMPILER_ERROR_PREFIX <= errorCode {
        var thrown := ExplainErrorCode(errorCode, env.compilerCodes, env.langCodes, env.store);
        if thrown.Some? {
          exit := Uncaught(thrown.value);
          return;
        }
      }
      DetectProject(env.cwd, env.project);
    }

    /** Project detection and, for a detected project, the task run and the summary. */
    method DetectProject(cwd: string, project: Option<Project>)
      modifies this`outStream, this`exit, this`submittedTasks
      ensures var t := ProjectTranscript(cwd, project);
        && outStream == old(outStream) + t.out
        && exit == t.exit
        && submittedTasks == old(submittedTasks) + t.tasks
    {
      match project {
        case None =>
          outStream := outStream + [PROJECT_NOT_DETECTED + cwd];
          exit := Normal;
        case Some(p) =>
          outStream := outStream + [PROJECT_DETECTED + p.root];
          var tasks: seq<TaskEntry> := [];
          tasks := tasks + [TaskEntry(CleanTargetDir(p.isModified, p.cacheEnabled), Some(false))];
          tasks := tasks + [TaskEntry(RunPreBuildTools, None)];
          tasks := tasks + [TaskEntry(ResolveMavenDependencies, None)];
          submittedTasks := submittedTasks + tasks;
          outStream := outStream + p.run.log;
          match p.run {
            case Finished(_) =>
              outStream := outStream + [p.packageName];
              PrintDependencies(p.dependencies);
              exit := Normal;
            case Threw(NullPointer, _) =>
              outStream := outStream + [EXECUTION_FAILED];
              exit := Normal;
            case Threw(OtherException, _) =>
              exit := Uncaught(OtherException);
          }
      }
    }
  }
}
