/** The two process runners: the shell-command runner and the
    interpreter-script runner. The child process, the file system and the
    clock are not modelled; each invocation is given a `Host` that says how
    the world answered (whether the working directory exists, whether the
    temporary file could be created, how each child process ended, and how
    much time passed). */
module Runners {
  import opened Wrappers
  import opened Text
  import opened Models
  import opened CommandGate

  /** How a child process ended. */
  datatype ProcessOutcome =
    | Exited(code: int, stdout: string, stderr: string)  // ran to completion; output already decoded
    | TimedOut                                           // still running when the bound expired
    | Raised(message: string)                            // spawning or communicating raised

  /** What `Path(working_dir).exists()` did. */
  datatype DirProbe = DirExists | DirMissing | ProbeRaised(message: string)

  /** What happened to the interpreter runner's temporary script: it was
      created and written, or creating it raised, or it was created and
      then writing or flushing the code raised. */
  datatype TempScript = ScriptReady | CreateRaised(message: string) | WriteRaised(message: string)

  /** The world's answers to one runner invocation. `install` and
      `installElapsed` concern the package-installation process, `run` and
      `elapsed` the script or command itself. */
  datatype Host = Host(
    dir: DirProbe,
    script: TempScript,
    install: ProcessOutcome,
    run: ProcessOutcome,
    installElapsed: real,
    elapsed: real)

  /** The runners' default timeout, in seconds. */
  const DefaultTimeout: int := 300

  /** `timeout or default_timeout`: an absent or zero timeout falls back to
      the default. */
  function EffectiveTimeout(timeout: Option<int>, default: int): (r: int)
    ensures (timeout.None? || timeout.value == 0) ==> r == default
    ensures timeout.Some? && timeout.value != 0 ==> r == timeout.value
  {
    if timeout.Some? && timeout.value != 0 then timeout.value else default
  }

  class BashExecutor {
    const tool: Tool
    const defaultTimeout: int
    /** The allow-list of program names; empty means no allow-list. */
    const allowedCommands: set<string>
    /** The deny patterns, in the order the deny check visits them. */
    const deniedCommands: seq<string>

    /** `__init__`: an absent or empty deny list installs the default
        patterns; an absent allow-list means none. */
    constructor (defaultTimeout: int := DefaultTimeout, allowedCommands: Option<seq<string>> := None,
                 deniedCommands: Option<seq<string>> := None)
      ensures tool == Tool("bash_executor", "Execute bash commands safely with timeout and monitoring")
      ensures this.defaultTimeout == defaultTimeout
      ensures this.allowedCommands == ResolveAllowed(allowedCommands)
      ensures this.deniedCommands == ResolveDenied(deniedCommands)
      ensures |this.deniedCommands| > 0
    {
      tool := Tool("bash_executor", "Execute bash commands safely with timeout and monitoring");
      this.defaultTimeout := defaultTimeout;
      this.allowedCommands := ResolveAllowed(allowedCommands);
      this.deniedCommands := ResolveDenied(deniedCommands);
    }

    /** The parameters `execute` accepts, and which of them are required. */
    function Schema(): InputSchema {
      InputSchema(["command", "working_dir", "timeout", "env_vars"], ["command"])
    }

    /** `execute`: the gate, then the working-directory check, then the
        child process. `launched` tells whether a child process was
        attempted. */
    method Execute(command: string, workingDir: Option<string>, timeout: Option<int>, host: Host)
      returns (c: Call<ToolResult>, launched: bool)
      ensures c == BashOutcome(deniedCommands, allowedCommands, defaultTimeout, command, workingDir, timeout, host)
      ensures launched <==> IsCommandAllowed(deniedCommands, allowedCommands, command).allowed && DirUsable(workingDir, host)
    {
      var verdict := IsCommandAllowed(deniedCommands, allowedCommands, command);
      if !verdict.allowed {
        return Returned(FailureResult("Command blocked: " + verdict.reason.value, host.elapsed)), false;
      }
      // The environment overlay only reaches the child process.
      if workingDir.Some? && workingDir.value != "" {
        match host.dir
        case ProbeRaised(m) =>
          return Threw(m), false;
        case DirMissing =>
          return Returned(FailureResult("Working directory does not exist: " + workingDir.value, host.elapsed)), false;
        case DirExists =>
      }
      launched := true;
      var bound := EffectiveTimeout(timeout, defaultTimeout);
      match host.run
      case Exited(code, out, err) =>
        c := Returned(CompletedResult(code, out, err, ToolData(code, Some(command)), host.elapsed));
      case TimedOut =>
        c := Returned(FailureResult("Command timed out after " + IntToString(bound) + " seconds", host.elapsed));
      case Raised(m) =>
        c := Returned(FailureResult("Execution error: " + m, host.elapsed));
    }
  }

  /** No working directory is given, or the given one exists. */
  predicate DirUsable(workingDir: Option<string>, host: Host) {
    workingDir.None? || workingDir.value == "" || host.dir.DirExists?
  }

  /** What one call of the shell runner comes to, for a runner with the
      given deny patterns, allow-list and default timeout. Only the
      directory probe can raise past the runner; every other failure is a
      result value. */
  function BashOutcome(deniedCommands: seq<string>, allowedCommands: set<string>, defaultTimeout: int,
                       command: string, workingDir: Option<string>, timeout: Option<int>, host: Host)
    : (c: Call<ToolResult>)
    ensures var v := IsCommandAllowed(deniedCommands, allowedCommands, command);
      !v.allowed ==> c.Returned? && !c.value.success && c.value.error == Some("Command blocked: " + v.reason.value)
    ensures var v := IsCommandAllowed(deniedCommands, allowedCommands, command);
      v.allowed && workingDir.Some? && workingDir.value != "" && host.dir.DirMissing? ==>
        c.Returned? && !c.value.success && c.value.error == Some("Working directory does not exist: " + workingDir.value)
    ensures c.Threw? <==> (IsCommandAllowed(deniedCommands, allowedCommands, command).allowed &&
                           workingDir.Some? && workingDir.value != "" && host.dir.ProbeRaised?)
    ensures c.Threw? ==> c.message == host.dir.message
    ensures c.Returned? ==> c.value.duration == Some(host.elapsed)
    ensures c.Returned? && c.value.success <==>
      IsCommandAllowed(deniedCommands, allowedCommands, command).allowed && DirUsable(workingDir, host) &&
      host.run.Exited? && host.run.code == 0
    ensures IsCommandAllowed(deniedCommands, allowedCommands, command).allowed && DirUsable(workingDir, host) ==>
      (host.run.Exited? ==>
         c == Returned(CompletedResult(host.run.code, host.run.stdout, host.run.stderr,
                                       ToolData(host.run.code, Some(command)), host.elapsed))) &&
      (host.run.TimedOut? ==>
         c == Returned(FailureResult("Command timed out after " + IntToString(EffectiveTimeout(timeout, defaultTimeout)) + " seconds", host.elapsed))) &&
      (host.run.Raised? ==>
         c == Returned(FailureResult("Execution error: " + host.run.message, host.elapsed)))
  {
    var verdict := IsCommandAllowed(deniedCommands, allowedCommands, command);
    if !verdict.allowed then Returned(FailureResult("Command blocked: " + verdict.reason.value, host.elapsed))
    else if workingDir.Some? && workingDir.value != "" && host.dir.ProbeRaised? then Threw(host.dir.message)
    else if workingDir.Some? && workingDir.value != "" && host.dir.DirMissing? then
      Returned(FailureResult("Working directory does not exist: " + workingDir.value, host.elapsed))
    else
      match host.run
      case Exited(code, out, err) => Returned(CompletedResult(code, out, err, ToolData(code, Some(command)), host.elapsed))
      case TimedOut =>
        Returned(FailureResult("Command timed out after " + IntToString(EffectiveTimeout(timeout, defaultTimeout)) + " seconds", host.elapsed))
      case Raised(m) => Returned(FailureResult("Execution error: " + m, host.elapsed))
  }

  /** The package installer's own bound, in seconds. */
  const InstallTimeout: int := 120

  /** `_install_requirements`: success exactly when the installer exits with
      0. A timeout is one more exception here, and its text is empty. */
  function InstallResult(outcome: ProcessOutcome, elapsed: real): (r: ToolResult)
    ensures r.success <==> outcome.Exited? && outcome.code == 0
    ensures r.data.None? && r.duration == Some(elapsed)
    ensures outcome.Exited? && outcome.code != 0 ==> r.error == Some(outcome.stderr)
    ensures outcome.TimedOut? ==> r.error == Some("Failed to install requirements: ")
    ensures outcome.Raised? ==> r.error == Some("Failed to install requirements: " + outcome.message)
  {
    match outcome
    case Exited(code, out, err) =>
      ToolResult(
        success := code == 0,
        output := Some(out),
        error := if code != 0 then Some(err) else None,
        duration := Some(elapsed))
    case TimedOut => FailureResult("Failed to install requirements: ", elapsed)
    case Raised(m) => FailureResult("Failed to install requirements: " + m, elapsed)
  }

  /** What happens to the interpreter runner's temporary scripts, in order. */
  datatype ScriptEvent = ScriptCreated | PackagesInstalled(packages: seq<string>) | InterpreterRan | ScriptRemoved

  /** How often `ev` occurs in `evs`. */
  function Occurrences(evs: seq<ScriptEvent>, ev: ScriptEvent): nat {
    if evs == [] then 0
    else Occurrences(evs[..|evs| - 1], ev) + (if evs[|evs| - 1] == ev then 1 else 0)
  }

  /** One more event adds one occurrence of itself and of nothing else. */
  lemma OccurrencesSnoc(evs: seq<ScriptEvent>, x: ScriptEvent, ev: ScriptEvent)
    ensures Occurrences(evs + [x], ev) == Occurrences(evs, ev) + (if x == ev then 1 else 0)
  {
    assert (evs + [x])[..|evs|] == evs;
  }

  /** `if requirements:` holds and the installer did not succeed, so the
      installer's result is what the call returns. */
  predicate InstallFails(requirements: Option<seq<string>>, host: Host) {
    requirements.Some? && requirements.value != [] && !InstallResult(host.install, host.installElapsed).success
  }

  /** What one call of the interpreter runner comes to, for a runner with
      the given default timeout. Only a failure to create or write the
      temporary script raises past the runner. */
  function PythonOutcome(defaultTimeout: int, timeout: Option<int>, requirements: Option<seq<string>>, host: Host)
    : (c: Call<ToolResult>)
    ensures !host.script.ScriptReady? ==> c == Threw(host.script.message)
    ensures host.script.ScriptReady? ==> c.Returned?
    ensures c.Returned? && c.value.success <==>
      (host.script.ScriptReady? && host.run.Exited? && host.run.code == 0 &&
       (requirements.None? || requirements.value == [] || (host.install.Exited? && host.install.code == 0)))
    ensures host.script.ScriptReady? && InstallFails(requirements, host) ==>
      c == Returned(InstallResult(host.install, host.installElapsed))
    ensures host.script.ScriptReady? && !InstallFails(requirements, host) ==>
      (host.run.Exited? ==>
         c == Returned(CompletedResult(host.run.code, host.run.stdout, host.run.stderr, ToolData(host.run.code, None), host.elapsed))) &&
      (host.run.TimedOut? ==>
         c == Returned(FailureResult("Code execution timed out after " + IntToString(EffectiveTimeout(timeout, defaultTimeout)) + " seconds", host.elapsed))) &&
      (host.run.Raised? ==>
         c == Returned(FailureResult("Execution error: " + host.run.message, host.elapsed)))
  {
    if !host.script.ScriptReady? then Threw(host.script.message)
    else if InstallFails(requirements, host) then Returned(InstallResult(host.install, host.installElapsed))
    else
      match host.run
      case Exited(code, out, err) => Returned(CompletedResult(code, out, err, ToolData(code, None), host.elapsed))
      case TimedOut =>
        Returned(FailureResult("Code execution timed out after " + IntToString(EffectiveTimeout(timeout, defaultTimeout)) + " seconds", host.elapsed))
      case Raised(m) => Returned(FailureResult("Execution error: " + m, host.elapsed))
  }

  class PythonExecutor {
    const tool: Tool
    const defaultTimeout: int
    const useVirtualenv: bool
    const pythonPath: string
    /** How many of this runner's temporary scripts are on disk. */
    var scriptsOnDisk: nat
    /** Everything that has happened to temporary scripts so far. */
    var events: seq<ScriptEvent>

    /** The scripts on disk are the ones created and not removed. */
    ghost predicate Valid()
      reads this
    {
      scriptsOnDisk + Occurrences(events, ScriptRemoved) == Occurrences(events, ScriptCreated)
    }

    /** `__init__`: the interpreter is the given path, or else the running
        interpreter `currentInterpreter`. */
    constructor (currentInterpreter: string, defaultTimeout: int := DefaultTimeout, useVirtualenv: bool := false,
                 pythonPath: Option<string> := None)
      ensures Valid() && events == [] && scriptsOnDisk == 0
      ensures tool == Tool("python_executor", "Execute Python code safely with timeout and monitoring")
      ensures this.defaultTimeout == defaultTimeout && this.useVirtualenv == useVirtualenv
      ensures this.pythonPath == if pythonPath.Some? && pythonPath.value != "" then pythonPath.value else currentInterpreter
    {
      tool := Tool("python_executor", "Execute Python code safely with timeout and monitoring");
      this.defaultTimeout := defaultTimeout;
      this.useVirtualenv := useVirtualenv;
      this.pythonPath := if pythonPath.Some? && pythonPath.value != "" then pythonPath.value else currentInterpreter;
      scriptsOnDisk := 0;
      events := [];
    }

    /** The parameters `execute` accepts, and which of them are required. */
    function Schema(): InputSchema {
      InputSchema(["code", "timeout", "requirements", "working_dir"], ["code"])
    }

    /** `execute`: write the script to a temporary file, install the
        requirements if any (a failed install is the result, and the script
        never runs), run the script, and remove the file on every path out
        of the attempt. Creating and writing the file happen before the
        attempt, so a script whose write raised stays on disk. */
    method Execute(code: string, timeout: Option<int>, requirements: Option<seq<string>>, host: Host)
      returns (c: Call<ToolResult>)
      requires Valid()
      modifies this`scriptsOnDisk, this`events
      ensures Valid()
      ensures c == PythonOutcome(defaultTimeout, timeout, requirements, host)
      ensures scriptsOnDisk == old(scriptsOnDisk) + (if host.script.WriteRaised? then 1 else 0)
      ensures host.script.CreateRaised? ==> events == old(events)
      ensures host.script.WriteRaised? ==> events == old(events) + [ScriptCreated]
      ensures host.script.ScriptReady? ==>
        events == old(events) + [ScriptCreated]
          + (if requirements.Some? && requirements.value != [] then [PackagesInstalled(requirements.value)] else [])
          + (if InstallFails(requirements, host) then [] else [InterpreterRan])
          + [ScriptRemoved]
    {
      if !host.script.ScriptReady? {
        if host.script.WriteRaised? {
          // the file exists; nothing removes it, since the attempt never began
          Created();
        }
        return Threw(host.script.message);
      }
      Created();
      var result := Attempt(timeout, requirements, host);
      // finally: the temporary script is removed
      Removed();
      c := Returned(result);
    }

    /** The attempt inside `try`: install the requirements if any (a failed
        install is the result, and the script never runs), then run the
        script, which exists throughout. */
    method Attempt(timeout: Option<int>, requirements: Option<seq<string>>, host: Host) returns (result: ToolResult)
      requires Valid() && host.script.ScriptReady? && scriptsOnDisk > 0
      modifies this`events
      ensures Valid()
      ensures Returned(result) == PythonOutcome(defaultTimeout, timeout, requirements, host)
      ensures events == old(events)
        + (if requirements.Some? && requirements.value != [] then [PackagesInstalled(requirements.value)] else [])
        + (if InstallFails(requirements, host) then [] else [InterpreterRan])
    {
      if requirements.Some? && requirements.value != [] {
        Record(PackagesInstalled(requirements.value));
        var pip := InstallResult(host.install, host.installElapsed);
        if !pip.success {
          return pip;
        }
      }
      Record(InterpreterRan);
      var bound := EffectiveTimeout(timeout, defaultTimeout);
      match host.run
      case Exited(code, out, err) =>
        result := CompletedResult(code, out, err, ToolData(code, None), host.elapsed);
      case TimedOut =>
        result := FailureResult("Code execution timed out after " + IntToString(bound) + " seconds", host.elapsed);
      case Raised(m) =>
        result := FailureResult("Execution error: " + m, host.elapsed);
    }

    /** A temporary script is created: one more on disk. */
    method Created()
      requires Valid()
      modifies this`scriptsOnDisk, this`events
      ensures Valid()
      ensures scriptsOnDisk == old(scriptsOnDisk) + 1 && events == old(events) + [ScriptCreated]
    {
      OccurrencesSnoc(events, ScriptCreated, ScriptCreated);
      OccurrencesSnoc(events, ScriptCreated, ScriptRemoved);
      scriptsOnDisk := scriptsOnDisk + 1;
      events := events + [ScriptCreated];
    }

    /** A step that neither creates nor removes a script. */
    method Record(ev: ScriptEvent)
      requires Valid() && ev != ScriptCreated && ev != ScriptRemoved
      modifies this`events
      ensures Valid()
      ensures events == old(events) + [ev]
    {
      OccurrencesSnoc(events, ev, ScriptCreated);
      OccurrencesSnoc(events, ev, ScriptRemoved);
      events := events + [ev];
    }

    /** The script of the current attempt is removed. */
    method Removed()
      requires Valid() && scriptsOnDisk > 0
      modifies this`scriptsOnDisk, this`events
      ensures Valid()
      ensures scriptsOnDisk == old(scriptsOnDisk) - 1 && events == old(events) + [ScriptRemoved]
    {
      OccurrencesSnoc(events, ScriptRemoved, ScriptCreated);
      OccurrencesSnoc(events, ScriptRemoved, ScriptRemoved);
      scriptsOnDisk := scriptsOnDisk - 1;
      events := events + [ScriptRemoved];
    }
  }
}
