/**
  What `bal explain` promises, stated over the specification of one
  `execute` (`Cmd.Run`), which `Cmd.ExplainCommand.Execute` is proved to
  follow.
 */
module ExplainProperties {
  import opened Wrappers
  import opened Diagnostics
  import opened Cmd

  /** With the help flag set the usage text is the only output, whatever the arguments. */
  lemma HelpOnlyPrintsUsage(argList: Option<seq<string>>, env: Environment)
    ensures Run(true, argList, env) == Transcript([env.usage], [], Normal, [])
  {
  }

  /** The three argument errors, checked in this order, each on the error stream only and with the error exit. */
  lemma ValidationCascade(argList: Option<seq<string>>, env: Environment)
    ensures argList.None? || argList.value == [] ==>
      Run(false, argList, env) == Transcript([], [ErrorReport(NO_CODE_GIVEN, USAGE_HINT)], ErrorExit(NO_CODE_GIVEN), [])
    ensures argList.Some? && |argList.value| > 1 ==>
      Run(false, argList, env) == Transcript([], [ErrorReport(TOO_MANY_ARGUMENTS, USAGE_HINT)], ErrorExit(TOO_MANY_ARGUMENTS), [])
    ensures argList == Some([""]) ==>
      Run(false, argList, env) == Transcript([], [ErrorReport(CODE_IS_EMPTY, USAGE_HINT)], ErrorExit(CODE_IS_EMPTY), [])
  {
  }

  /** A code without the "BCE" prefix is not explained: only the project branch runs. */
  lemma NonCompilerCodeIsNotExplained(code: string, env: Environment)
    requires code != "" && !(COMPILER_ERROR_PREFIX <= code)
    ensures Run(false, Some([code]), env) == ProjectTranscript(env.cwd, env.project)
  {
  }

  /**
    A "BCE" code gets exactly one explanation line, printed before the
    project branch, which then runs whatever that line was; the only way the
    project branch is skipped is the exception from a missing resource directory.
   */
  lemma CompilerCodeIsExplainedThenDetected(code: string, env: Environment)
    requires COMPILER_ERROR_PREFIX <= code
    ensures var t := Run(false, Some([code]), env);
      var p := ProjectTranscript(env.cwd, env.project);
      match Explanation(code, env.compilerCodes, env.langCodes, env.store)
      case Some(line) => t.out == [line] + p.out && t.err == [] && t.exit == p.exit && t.tasks == p.tasks
      case None => t == Transcript([], [], Uncaught(NullPointer), [])
  {
  }

  /** An unknown "BCE" code prints exactly the invalid-code line and still goes on to project detection. */
  lemma UnknownCodeLine(code: string, env: Environment)
    requires COMPILER_ERROR_PREFIX <= code
    requires !Defines(env.compilerCodes, code) && !Defines(env.langCodes, code)
    ensures var t := Run(false, Some([code]), env);
      t.out == [InvalidCodeMessage(code)] + ProjectTranscript(env.cwd, env.project).out
  {
  }

  /**
    When both registries define a code the compiler-internal registry's first
    entry supplies the message key of the no-explanation line.
   */
  lemma NoExplanationUsesFirstPriorityKey(code: string, compilerCodes: Registry, langCodes: Registry,
                                          store: ExplanationStore, i: nat)
    requires IsFirstMatch(compilerCodes, code, i)
    requires NoExplanationFor(code, store)
    ensures Explanation(code, compilerCodes, langCodes, store)
         == Some(NoExplanationMessage(code, compilerCodes[i].messageKey))
  {
  }

  /**
    Outside a project the command reports where it looked and ends normally,
    unless explaining a "BCE" code raised the missing-resource exception.
   */
  lemma NotDetectedEndsNormally(code: string, env: Environment)
    requires code != "" && env.project.None?
    requires COMPILER_ERROR_PREFIX <= code ==> Explanation(code, env.compilerCodes, env.langCodes, env.store).Some?
    ensures var t := Run(false, Some([code]), env);
      && |t.out| >= 1 && t.out[|t.out| - 1] == PROJECT_NOT_DETECTED + env.cwd
      && t.err == [] && t.exit == Normal && t.tasks == []
  {
  }

  /**
    Inside a project, after the one explanation line of a "BCE" code (none for
    any other code): the detected line, what the tasks print, the package name
    and the dependencies in manifest order; the three tasks are submitted
    cleaning first, then build tools, then Maven dependency resolution.
   */
  lemma DetectedProjectOutputOrder(code: string, env: Environment, p: Project)
    requires code != ""
    requires COMPILER_ERROR_PREFIX <= code ==> Explanation(code, env.compilerCodes, env.langCodes, env.store).Some?
    requires env.project == Some(p) && p.run.Finished?
    ensures var t := Run(false, Some([code]), env);
      var tail := [PROJECT_DETECTED + p.root] + p.run.log + [p.packageName] + p.dependencies;
      && (COMPILER_ERROR_PREFIX <= code ==>
            t.out == [Explanation(code, env.compilerCodes, env.langCodes, env.store).value] + tail)
      && (!(COMPILER_ERROR_PREFIX <= code) ==> t.out == tail)
      && t.err == []
      && t.exit == Normal
      && |t.tasks| == 3
      && t.tasks[0].task == CleanTargetDir(p.isModified, p.cacheEnabled)
      && t.tasks[1].task == RunPreBuildTools
      && t.tasks[2].task == ResolveMavenDependencies
  {
    var tail := [PROJECT_DETECTED + p.root] + p.run.log + [p.packageName] + p.dependencies;
    var pt := ProjectTranscript(env.cwd, env.project);
    assert pt.out == tail;
    if COMPILER_ERROR_PREFIX <= code {
      var line := Explanation(code, env.compilerCodes, env.langCodes, env.store).value;
      assert Run(false, Some([code]), env).out == [line] + tail;
    } else {
      assert Run(false, Some([code]), env).out == tail;
    }
  }

  /**
    Whatever the task run does, inside a project the detected line and what
    the tasks print come right after the explanation line of a "BCE" code (at
    the start for any other code), and the three tasks are submitted in the
    order cleaning, build tools, Maven dependency resolution.
   */
  lemma DetectedProjectPrefixOrder(code: string, env: Environment, p: Project)
    requires code != ""
    requires COMPILER_ERROR_PREFIX <= code ==> Explanation(code, env.compilerCodes, env.langCodes, env.store).Some?
    requires env.project == Some(p)
    ensures var t := Run(false, Some([code]), env);
      var k := if COMPILER_ERROR_PREFIX <= code then 1 else 0;
      && |t.out| >= k + 1 + |p.run.log|
      && (COMPILER_ERROR_PREFIX <= code ==>
            t.out[0] == Explanation(code, env.compilerCodes, env.langCodes, env.store).value)
      && t.out[k..k + 1 + |p.run.log|] == [PROJECT_DETECTED + p.root] + p.run.log
      && t.err == []
      && t.tasks == TaskPlan(p.isModified, p.cacheEnabled)
  {
    if COMPILER_ERROR_PREFIX <= code {
      var line := Explanation(code, env.compilerCodes, env.langCodes, env.store).value;
      assert Run(false, Some([code]), env).out == [line] + ProjectTranscript(env.cwd, env.project).out;
    }
  }

  /**
    Only a NullPointerException from the task run is replaced by the generic
    message; any other exception leaves the command without a summary.
   */
  lemma OnlyNullPointerIsCaught(env: Environment, p: Project)
    requires env.project == Some(p) && p.run.Threw?
    ensures var t := ProjectTranscript(env.cwd, env.project);
      && (p.run.fault == NullPointer ==>
            t.out == [PROJECT_DETECTED + p.root] + p.run.log + [EXECUTION_FAILED] && t.exit == Normal)
      && (p.run.fault == OtherException ==>
            t.out == [PROJECT_DETECTED + p.root] + p.run.log && t.exit == Uncaught(OtherException))
  {
  }

  /** `bal explain BCE1234` with neither registry defining BCE1234, outside a project. */
  lemma UnknownCodeOutsideProject(env: Environment)
    requires !Defines(env.compilerCodes, "BCE1234") && !Defines(env.langCodes, "BCE1234")
    requires env.project.None?
    ensures Run(false, Some(["BCE1234"]), env)
         == Transcript(["Invalid error code: BCE1234", "Ballerina project not detected at: " + env.cwd], [], Normal, [])
  {
    assert COMPILER_ERROR_PREFIX <= "BCE1234";
    assert InvalidCodeMessage("BCE1234") == "Invalid error code: BCE1234";
  }
}
