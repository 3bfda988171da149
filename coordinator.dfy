/** The execution coordinator: dispatches a workflow's code to the runner
    for its language, turns the runner's tool result into an execution
    record, and is the last fault boundary before the caller. Clock readings
    are parameters: `startedAt` is read before dispatch and `finishedAt`
    when the attempt ends, on every path. */
module Coordinator {
  import opened Wrappers
  import opened Text
  import opened Models
  import opened CommandGate
  import opened Runners

  /** The translation of a runner's tool result into an execution record:
      SUCCESS exactly when the tool succeeded, FAILED otherwise (never
      TIMEOUT, PENDING or RUNNING); the error text becomes the error message
      only on failure; the exit code comes from the side channel when there
      is one. */
  function ToExecutionResult(workflowName: string, result: ToolResult, startedAt: int, finishedAt: int): (r: ExecutionResult)
    ensures r.workflowName == workflowName && r.startedAt == startedAt && r.finishedAt == Some(finishedAt)
    ensures r.status == Success <==> result.success
    ensures r.status == Failed <==> !result.success
    ensures r.errorMessage == if result.success then None else result.error
    ensures r.exitCode == if result.data.Some? then Some(result.data.value.exitCode) else None
    ensures r.stdout == result.output && r.stderr == result.error && r.duration == result.duration
  {
    ExecutionResult(
      workflowName := workflowName,
      status := if result.success then Success else Failed,
      startedAt := startedAt,
      finishedAt := Some(finishedAt),
      duration := result.duration,
      exitCode := if result.data.Some? then Some(result.data.value.exitCode) else None,
      stdout := result.output,
      stderr := result.error,
      errorMessage := if !result.success then result.error else None)
  }

  /** A FAILED record that carries only a message (the unsupported-language
      and fault-boundary paths). */
  function FailedRecord(workflowName: string, message: string, startedAt: int, finishedAt: int): (r: ExecutionResult)
    ensures r.status == Failed && r.errorMessage == Some(message)
    ensures r.workflowName == workflowName && r.startedAt == startedAt && r.finishedAt == Some(finishedAt)
    ensures r.duration.None? && r.exitCode.None? && r.stdout.None? && r.stderr.None?
  {
    ExecutionResult(workflowName, Failed, startedAt, finishedAt := Some(finishedAt), errorMessage := Some(message))
  }

  /** `is_safe` in `validate_workflow`: the model's safety reply says SAFE and
      does not say UNSAFE. */
  predicate IsSafe(reply: string) {
    Contains(reply, "SAFE") && !Contains(reply, "UNSAFE")
  }

  /** Since "UNSAFE" ends in "SAFE", a reply is judged safe exactly when it
      holds an occurrence of "SAFE" and no occurrence of "SAFE" is preceded
      by "UN". */
  lemma {:induction false} IsSafeByOccurrences(reply: string)
    ensures IsSafe(reply) <==>
      (exists i: nat :: i <= |reply| && OccursAt(reply, "SAFE", i)) &&
      (forall i: nat :: i <= |reply| && OccursAt(reply, "SAFE", i) ==> !(2 <= i && reply[i - 2..i] == "UN"))
  {
    if Contains(reply, "UNSAFE") {
      var j: nat :| j <= |reply| && OccursAt(reply, "UNSAFE", j);
      assert reply[j + 2..j + 6] == reply[j..j + 6][2..] == "SAFE";
      assert OccursAt(reply, "SAFE", j + 2);
      assert reply[j..j + 2] == reply[j..j + 6][..2] == "UN";
    }
    forall i: nat | i <= |reply| && OccursAt(reply, "SAFE", i) && 2 <= i && reply[i - 2..i] == "UN"
      ensures Contains(reply, "UNSAFE")
    {
      assert reply[i - 2..i + 4] == reply[i - 2..i] + reply[i..i + 4];
      assert OccursAt(reply, "UNSAFE", i - 2);
    }
  }

  /** A reply that negates the word ("NOT SAFE") still counts as safe. */
  lemma NegatedReplyCountsAsSafe()
    ensures IsSafe("The code is NOT SAFE")
  {
    var reply := "The code is NOT SAFE";
    assert OccursAt(reply, "SAFE", 16);
    MissingCharNotContained(reply, "UNSAFE", 'U');
  }

  class ExecutorAgent {
    const bashExecutor: BashExecutor
    const pythonExecutor: PythonExecutor

    /** `__init__`: both runners with their default configuration. */
    constructor (currentInterpreter: string)
      ensures fresh(bashExecutor) && fresh(pythonExecutor)
      ensures pythonExecutor.Valid() && pythonExecutor.events == [] && pythonExecutor.scriptsOnDisk == 0
      ensures bashExecutor.defaultTimeout == DefaultTimeout && bashExecutor.allowedCommands == {}
      ensures bashExecutor.deniedCommands == DefaultDenied
      ensures pythonExecutor.defaultTimeout == DefaultTimeout && pythonExecutor.pythonPath == currentInterpreter
    {
      bashExecutor := new BashExecutor();
      pythonExecutor := new PythonExecutor(currentInterpreter);
    }

    /** `execute_workflow`. `language` is the language tag's string value:
        "bash" goes to the shell runner with the code as the command,
        "python" to the interpreter runner, anything else is refused without
        running anything. The runner's result is translated into the
        record; an exception from a runner becomes a FAILED record. */
    method ExecuteWorkflow(workflowName: string, code: string, language: string, timeout: Option<int>,
                           workingDir: Option<string>, host: Host, startedAt: int, finishedAt: int)
      returns (r: ExecutionResult)
      requires pythonExecutor.Valid()
      modifies pythonExecutor
      ensures pythonExecutor.Valid()
      ensures r.workflowName == workflowName && r.startedAt == startedAt && r.finishedAt == Some(finishedAt)
      ensures r.status == Success || r.status == Failed
      ensures r.status == Success ==> r.exitCode == Some(0) && r.errorMessage.None?
      ensures r.status == Failed ==> r.errorMessage.Some?
      ensures language != "bash" && language != "python" ==>
        r == FailedRecord(workflowName, "Unsupported language: " + language, startedAt, finishedAt) &&
        pythonExecutor.events == old(pythonExecutor.events) && pythonExecutor.scriptsOnDisk == old(pythonExecutor.scriptsOnDisk)
      ensures language == "bash" ==>
        r == RecordOf(workflowName, BashOutcome(bashExecutor.deniedCommands, bashExecutor.allowedCommands,
                                                bashExecutor.defaultTimeout, code, workingDir, timeout, host),
                      startedAt, finishedAt) &&
        pythonExecutor.events == old(pythonExecutor.events) && pythonExecutor.scriptsOnDisk == old(pythonExecutor.scriptsOnDisk)
      ensures language == "bash" ==>
        (r.status == Success <==>
          IsCommandAllowed(bashExecutor.deniedCommands, bashExecutor.allowedCommands, code).allowed &&
          DirUsable(workingDir, host) && host.run.Exited? && host.run.code == 0)
      ensures language == "python" ==>
        r == RecordOf(workflowName, PythonOutcome(pythonExecutor.defaultTimeout, timeout, None, host), startedAt, finishedAt)
      ensures language == "python" ==>
        (r.status == Success <==> host.script.ScriptReady? && host.run.Exited? && host.run.code == 0)
      ensures language == "python" ==>
        pythonExecutor.scriptsOnDisk == old(pythonExecutor.scriptsOnDisk) + (if host.script.WriteRaised? then 1 else 0)
      ensures language == "python" && host.script.CreateRaised? ==> pythonExecutor.events == old(pythonExecutor.events)
      ensures language == "python" && host.script.WriteRaised? ==>
        pythonExecutor.events == old(pythonExecutor.events) + [ScriptCreated]
      ensures language == "python" && host.script.ScriptReady? ==>
        pythonExecutor.events == old(pythonExecutor.events) + [ScriptCreated, InterpreterRan, ScriptRemoved]
    {
      var call: Call<ToolResult>;
      if language == LanguageValue(Bash) {
        var launched;
        call, launched := bashExecutor.Execute(code, workingDir, timeout, host);
      } else if language == LanguageValue(Python) {
        call := pythonExecutor.Execute(code, timeout, None, host);
      } else {
        return FailedRecord(workflowName, "Unsupported language: " + language, startedAt, finishedAt);
      }
      r := RecordOf(workflowName, call, startedAt, finishedAt);
    }
  }

  /** The fault boundary of `execute_workflow`: a returned tool result is
      translated, an exception becomes a FAILED record. */
  function RecordOf(workflowName: string, call: Call<ToolResult>, startedAt: int, finishedAt: int): (r: ExecutionResult)
    ensures r.workflowName == workflowName && r.startedAt == startedAt && r.finishedAt == Some(finishedAt)
    ensures r.status == Success <==> call.Returned? && call.value.success
    ensures call.Threw? ==>
      r.status == Failed && r.errorMessage == Some("Execution error: " + call.message) && r.exitCode.None?
  {
    match call
    case Returned(result) => ToExecutionResult(workflowName, result, startedAt, finishedAt)
    case Threw(message) => FailedRecord(workflowName, "Execution error: " + message, startedAt, finishedAt)
  }

  /** A script that prints "OK" and exits with 0 gives a successful record
      whose output is "OK" and whose exit code is 0. */
  lemma PrintingScriptSucceeds(workflowName: string, defaultTimeout: int, timeout: Option<int>, host: Host, startedAt: int, finishedAt: int)
    requires host.script.ScriptReady? && host.run == Exited(0, "OK", "")
    ensures var r := RecordOf(workflowName, PythonOutcome(defaultTimeout, timeout, None, host), startedAt, finishedAt);
      r.status == Success && r.stdout == Some("OK") && r.exitCode == Some(0) && r.errorMessage.None? &&
      r.duration == Some(host.elapsed)
  {
  }

  /** A script that writes "boom" to stderr and exits with 1 gives a failed
      record whose stderr and message are "boom" and whose exit code is 1. */
  lemma FailingScriptFails(workflowName: string, defaultTimeout: int, timeout: Option<int>, host: Host, startedAt: int, finishedAt: int)
    requires host.script.ScriptReady? && host.run == Exited(1, "", "boom")
    ensures var r := RecordOf(workflowName, PythonOutcome(defaultTimeout, timeout, None, host), startedAt, finishedAt);
      r.status == Failed && r.stderr == Some("boom") && r.errorMessage == Some("boom") && r.exitCode == Some(1)
  {
  }

  /** A command that runs past its bound gives a failed record whose
      message names the bound in effect. */
  lemma SlowCommandTimesOut(agent: ExecutorAgent, workflowName: string, code: string, host: Host, startedAt: int, finishedAt: int)
    requires IsCommandAllowed(agent.bashExecutor.deniedCommands, agent.bashExecutor.allowedCommands, code).allowed
    requires host.run.TimedOut?
    ensures var r := RecordOf(workflowName, BashOutcome(agent.bashExecutor.deniedCommands, agent.bashExecutor.allowedCommands,
                                                        agent.bashExecutor.defaultTimeout, code, None, Some(5), host),
                              startedAt, finishedAt);
      r.status == Failed && r.errorMessage == Some("Command timed out after 5 seconds") && r.exitCode.None?
  {
    assert EffectiveTimeout(Some(5), agent.bashExecutor.defaultTimeout) == 5;
    assert IntToString(5) == "5";
    assert "Command timed out after " + IntToString(5) + " seconds" == "Command timed out after 5 seconds";
  }
}
