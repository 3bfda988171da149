/** The records the execution layer passes around: workflow definitions,
    execution records, failure patterns and the runners' tool results.
    Timestamps are integers (a clock reading), durations are reals
    (seconds). */
module Models {
  import opened Wrappers

  /** The closed set of workflow languages. */
  datatype WorkflowLanguage = Bash | Python

  /** The enum's string value. */
  function LanguageValue(l: WorkflowLanguage): string {
    match l
    case Bash => "bash"
    case Python => "python"
  }

  /** `WorkflowLanguage(value)`: the member whose value is `s`, or None
      where Python raises ValueError. */
  function ParseLanguage(s: string): (r: Option<WorkflowLanguage>)
    ensures r.Some? ==> LanguageValue(r.value) == s
    ensures r.None? ==> forall l: WorkflowLanguage :: LanguageValue(l) != s
  {
    if s == "bash" then Some(Bash)
    else if s == "python" then Some(Python)
    else None
  }

  /** Every language survives a round trip through its string value. */
  lemma LanguageRoundTrip(l: WorkflowLanguage)
    ensures ParseLanguage(LanguageValue(l)) == Some(l)
  {
  }

  /** The closed set of execution states. */
  datatype WorkflowStatus = Pending | Running | Success | Failed | Timeout

  /** The enum's string value, the text stored in the history log. */
  function StatusValue(s: WorkflowStatus): string {
    match s
    case Pending => "pending"
    case Running => "running"
    case Success => "success"
    case Failed => "failed"
    case Timeout => "timeout"
  }

  /** `WorkflowStatus(value)`, as used when a stored record is read back. */
  function ParseStatus(v: string): (r: Option<WorkflowStatus>)
    ensures r.Some? ==> StatusValue(r.value) == v
    ensures r.None? ==> forall s: WorkflowStatus :: StatusValue(s) != v
  {
    if v == "pending" then Some(Pending)
    else if v == "running" then Some(Running)
    else if v == "success" then Some(Success)
    else if v == "failed" then Some(Failed)
    else if v == "timeout" then Some(Timeout)
    else None
  }

  /** Writing a status and reading it back gives the same status. */
  lemma StatusRoundTrip(s: WorkflowStatus)
    ensures ParseStatus(StatusValue(s)) == Some(s)
  {
  }

  /** A stored workflow definition. The two timestamps default to "now" in
      the system; here the clock reading is given by the caller. */
  datatype WorkflowConfig = WorkflowConfig(
    name: string,
    description: string,
    language: WorkflowLanguage,
    code: string,
    createdAt: int,
    updatedAt: int,
    version: int := 1,
    tags: seq<string> := [],
    envVars: map<string, string> := map[],
    timeout: int := 300)

  /** One run attempt. Only the name, the status and the start time are
      required; every other field is absent unless given. */
  datatype ExecutionResult = ExecutionResult(
    workflowName: string,
    status: WorkflowStatus,
    startedAt: int,
    finishedAt: Option<int> := None,
    duration: Option<real> := None,
    exitCode: Option<int> := None,
    stdout: Option<string> := None,
    stderr: Option<string> := None,
    errorMessage: Option<string> := None)

  /** A recurring failure mined from the history. */
  datatype FailurePattern = FailurePattern(
    patternType: string,
    count: int,
    lastSeen: int,
    errorMessages: seq<string>,
    suggestedFixes: seq<string> := [])

  /** The structured side channel of a tool result: the process exit code
      and, for the shell runner, the command that was run. */
  datatype ToolData = ToolData(exitCode: int, command: Option<string>)

  /** The outcome of one tool invocation. Only `success` is required. */
  datatype ToolResult = ToolResult(
    success: bool,
    output: Option<string> := None,
    error: Option<string> := None,
    data: Option<ToolData> := None,
    duration: Option<real> := None)

  /** A tool's identity, as given to its base-class constructor. */
  datatype Tool = Tool(name: string, description: string)

  /** The shape of a tool's input schema: the names of its parameters and
      which of them are required. */
  datatype InputSchema = InputSchema(properties: seq<string>, required: seq<string>)

  /** The tool description handed to the language-model API. */
  datatype ToolDescription = ToolDescription(name: string, description: string, inputSchema: InputSchema)

  /** `to_anthropic_tool`: exactly the tool's name, its description and its
      input schema. */
  function ToAnthropicTool(t: Tool, schema: InputSchema): (r: ToolDescription)
    ensures r.name == t.name && r.description == t.description && r.inputSchema == schema
  {
    ToolDescription(t.name, t.description, schema)
  }

  /** The result of a process that ran to completion: success exactly when
      the exit code is 0; stderr is reported as the error only on failure. */
  function CompletedResult(exitCode: int, stdout: string, stderr: string, data: ToolData, elapsed: real): (r: ToolResult)
    ensures r.success <==> exitCode == 0
    ensures r.error.Some? <==> exitCode != 0
    ensures r.error.Some? ==> r.error.value == stderr
    ensures r.output == Some(stdout) && r.data == Some(data) && r.duration == Some(elapsed)
  {
    ToolResult(
      success := exitCode == 0,
      output := Some(stdout),
      error := if exitCode != 0 then Some(stderr) else None,
      data := Some(data),
      duration := Some(elapsed))
  }

  /** A failed tool result that carries only an error message and the
      elapsed time. */
  function FailureResult(message: string, elapsed: real): (r: ToolResult)
    ensures !r.success && r.error == Some(message)
    ensures r.output.None? && r.data.None? && r.duration == Some(elapsed)
  {
    ToolResult(success := false, error := Some(message), duration := Some(elapsed))
  }
}
