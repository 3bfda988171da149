# Workflow execution core, modelled in Dafny

This project models the execution core of the `workflow` tool, a command-line assistant that
has a language model write shell or Python scripts, stores them as workflows, runs them and
mines their run history. The model covers:

- **Records** (`models.dfy`, module `Models`): the language and status enums with their string
  values, workflow definitions, execution records, failure patterns, tool results and the tool
  description handed to the model API.
- **Command gate** (`command_gate.dfy`, module `CommandGate`): the shell runner's deny patterns,
  its allow-list and its verdict on a command.
- **Runners** (`runners.dfy`, module `Runners`): the shell-command runner and the
  interpreter-script runner. They are classes, and the outside world is a `Host` value that says
  how the directory probe, the temporary file and each child process answered. Each call's
  outcome is a function of the runner's settings, the arguments and the host. The interpreter
  runner keeps a log of what happens to its temporary scripts and a count of the scripts still on
  disk. Its invariant ties the count to the log. A script whose write fails stays on disk; every
  other script is removed before the call returns.
- **Coordinator** (`coordinator.dfy`, module `Coordinator`): `execute_workflow`, which
  dispatches by language, turns tool results into execution records and is the fault boundary.
  It also has the `is_safe` reading of the language model's safety reply.
- **History** (`history.dfy`, module `History`): the history store over an append-only in-memory
  log. It covers saving, the filtered and limited most-recent-first query, the statistics, the
  error-message classifier and the failure-pattern miner. The miner is an imperative grouping
  loop, proved equal to a functional specification whose properties are proved separately.
- **Response parsing** (`response_parsing.dfy`, module `ResponseParsing`): the orchestrator's
  three reply parsers. They detect the script language, extract the first fenced code block and
  replace every block in the explanation.
- **Support modules**: `wrappers.dfy` (Option, and a `Call` that either returns or raises),
  `text.dfy` (substring search, ASCII lower-casing, whitespace split and strip, decimal
  rendering) and `sorting.dfy` (a stable descending insertion sort, which is the behaviour of
  `sorted(..., reverse=True)`).

Clock readings are integers passed in by the caller. Durations are `real`.

## Model

| member | source | states |
|---|---|---|
| Models.ParseLanguage | workflow/storage/models.py:9-12 | a string parses to the language whose value it is, and to nothing when no language has that value |
| Models.LanguageRoundTrip | workflow/storage/models.py:9-12 | every language parses back from its string value |
| Models.ParseStatus | workflow/storage/models.py:15-21 | a stored status text parses to the status with that value, and to nothing otherwise |
| Models.StatusRoundTrip | workflow/storage/models.py:15-21 | writing a status and reading it back gives the same status |
| Models.ToAnthropicTool | workflow/tools/base.py:29-35 | the description carries exactly the tool's name, its description and its input schema |
| Models.CompletedResult | workflow/tools/bash_executor.py:104-113 | success exactly when the exit code is 0; stderr is the error exactly on a non-zero exit; output, side data and duration are kept |
| Models.FailureResult | workflow/tools/bash_executor.py:123-134 | an unsuccessful result carrying only the message and the duration |
| CommandGate.Distinct | workflow/tools/bash_executor.py:27 | `set(...)` of a list: duplicate-free, the same members, no longer than the list |
| CommandGate.ResolveDenied | workflow/tools/bash_executor.py:27-33 | an absent or empty deny list gives the five default patterns; otherwise the given patterns without duplicates; never empty |
| CommandGate.ResolveAllowed | workflow/tools/bash_executor.py:26 | the allow-list holds exactly the given names, and is empty when none are given |
| CommandGate.FirstDenied | workflow/tools/bash_executor.py:38-40 | a reported pattern is a deny pattern that occurs in the command; nothing is reported exactly when no pattern occurs |
| CommandGate.CommandName | workflow/tools/bash_executor.py:44 | empty exactly for a blank command; never holds whitespace |
| CommandGate.CommandNameStartsStripped | workflow/tools/bash_executor.py:44 | a non-empty program name is where the stripped command begins |
| CommandGate.IsCommandAllowed | workflow/tools/bash_executor.py:35-48 | allowed exactly when no deny pattern occurs and, with an allow-list, the program name is on it; a reason is given exactly on refusal, naming a matching pattern or else the program name |
| CommandGate.DeniedAnywhere | workflow/tools/bash_executor.py:38-40 | a deny pattern anywhere in a command refuses it, whatever the allow-list says |
| CommandGate.NoAllowListOnlyDenies | workflow/tools/bash_executor.py:42-48 | without an allow-list, exactly the commands free of deny patterns pass |
| CommandGate.DefaultsBlock | workflow/tools/bash_executor.py:27-33 | the defaults refuse a recursive root delete and the fork bomb wherever they appear |
| Runners.EffectiveTimeout | workflow/tools/bash_executor.py:96 | an absent or zero timeout falls back to the default; any other value is used as given |
| Runners.BashExecutor.constructor | workflow/tools/bash_executor.py:15-33 | name and description, the timeout, the resolved allow-list and the resolved, non-empty deny list |
| Runners.BashExecutor.Execute | workflow/tools/bash_executor.py:50-134 | the outcome is `BashOutcome` of the runner's deny list, allow-list and default timeout; a process is launched exactly when the gate allows the command and the working directory is usable |
| Runners.BashOutcome | workflow/tools/bash_executor.py:50-134 | a blocked command fails with "Command blocked: " and the gate's reason; a given but missing working directory fails with "Working directory does not exist: "; the call raises exactly when the gate allows and the directory probe raises, with the probe's message; success exactly when the gate allows, the directory is usable and the command exits 0; a completed run is its exit code, output and error, a timeout gives "Command timed out after N seconds" with N the effective timeout, a raising launch gives "Execution error: "; every returned result has the elapsed time |
| Runners.InstallResult | workflow/tools/python_executor.py:115-145 | success exactly on installer exit 0; stderr on a non-zero exit; a timeout or a raise gives the "Failed to install requirements" message; no side data |
| Runners.PythonExecutor.constructor | workflow/tools/python_executor.py:16-28 | name and description, settings, and the interpreter (given, or else the running one); an empty log and no script on disk |
| Runners.PythonExecutor.Execute | workflow/tools/python_executor.py:30-113 | the outcome is `PythonOutcome`; the invariant (scripts on disk = scripts created - scripts removed) is kept; a failed creation changes nothing; a failed write leaves one more script on disk; a ready script is created, the packages installed when asked, the script run unless installation failed, and the script removed, so the count on disk is unchanged |
| Runners.PythonOutcome | workflow/tools/python_executor.py:30-113 | a failure to create or write the temporary script raises with its message, and nothing else raises; success exactly when the script is ready, the installer (when asked) exits 0 and the script exits 0; a failed installation is the installer's result; otherwise the exit code, output and error of the run, "Code execution timed out after N seconds" with N the effective timeout, or "Execution error: " with the launch's message |
| Runners.PythonExecutor.Attempt | workflow/tools/python_executor.py:49-106 | the body of the `try`: its result is the ready-script outcome; the log gains the installation when asked and the run unless installation failed |
| Coordinator.ToExecutionResult | workflow/agents/executor_agent.py:102-115 | SUCCESS exactly when the tool succeeded, FAILED otherwise; the error becomes the message only on failure; exit code from the side data; output, error and duration carried over |
| Coordinator.FailedRecord | workflow/agents/executor_agent.py:117-124 | a FAILED record carrying only the message and the two timestamps |
| Coordinator.IsSafeByOccurrences | workflow/agents/executor_agent.py:152 | a reply is safe exactly when it contains "SAFE" and no occurrence of "SAFE" is preceded by "UN" |
| Coordinator.NegatedReplyCountsAsSafe | workflow/agents/executor_agent.py:152 | "The code is NOT SAFE" is judged safe |
| Coordinator.ExecutorAgent.constructor | workflow/agents/executor_agent.py:46-55 | both runners are fresh, with default timeout, no allow-list, the default deny patterns and the running interpreter |
| Coordinator.ExecutorAgent.ExecuteWorkflow | workflow/agents/executor_agent.py:57-124 | the record names the workflow and both timestamps; status is SUCCESS or FAILED; SUCCESS means exit 0 and no message; FAILED always has a message; an unsupported language runs nothing and leaves the runners' state alone; for shell the record is `RecordOf` the shell runner's `BashOutcome`, for Python `RecordOf` the interpreter runner's `PythonOutcome` without requirements; SUCCESS exactly when the gate and directory allow and the command exits 0 (shell) or the script is ready and exits 0 (Python); for Python, a failed creation leaves the runner's log alone, a failed write logs the creation and leaves one more script on disk, and a ready script is created, run and removed, leaving the count on disk unchanged |
| Coordinator.RecordOf | workflow/agents/executor_agent.py:95-124 | a returned tool result becomes its execution record; a raised exception becomes a FAILED record with "Execution error: " and the message |
| Coordinator.PrintingScriptSucceeds | workflow/agents/executor_agent.py:102-115 | a script that prints "OK" and exits 0 gives SUCCESS with output "OK", exit code 0, no message and the run's duration |
| Coordinator.FailingScriptFails | workflow/agents/executor_agent.py:102-115 | a script that writes "boom" to stderr and exits 1 gives FAILED with error and message "boom" and exit code 1 |
| Coordinator.SlowCommandTimesOut | workflow/tools/bash_executor.py:115-126 | an allowed shell command that outlives a 5-second timeout gives FAILED with "Command timed out after 5 seconds" and no exit code |
| History.Select | workflow/storage/history_store.py:100-109 | a sub-multiset of the log whose records all pass the filters, containing every record that passes them, each exactly as often as in the log; an empty name filters nothing |
| History.Kept | workflow/storage/history_store.py:111-112 | a query never returns more than the selected records |
| History.GetExecutions | workflow/storage/history_store.py:84-132 | no filters and a limit of 100 by default; exactly min(limit, selected) records (all of them when the limit is negative), drawn from the selection, all passing the filters, most recent first |
| History.GetExecutionsKeepsLatest | workflow/storage/history_store.py:111 | every selected record left out started no later than every record returned |
| History.DroppedNotLater | workflow/storage/history_store.py:111 | in a list sorted by start, latest first, a record past the cut started no later than any record before it |
| History.GetExecutionsUnlimited | workflow/storage/history_store.py:111-112 | with a negative limit the query returns every selected record |
| History.SelectAfterAppend | workflow/storage/history_store.py:58-82 | saving a record extends a query's selection by that record exactly when it passes the filters |
| History.CountRuns | workflow/storage/history_store.py:223-226 | no more runs than records |
| History.CountSuccesses | workflow/storage/history_store.py:229-232 | no more successes than runs |
| History.CountNonSuccesses | workflow/storage/history_store.py:243 | non-successful runs and successful runs add up to all runs |
| History.CountTimed | workflow/storage/history_store.py:235-238 | only successful runs are timed |
| History.SumTimed | workflow/storage/history_store.py:235-238 | 0 without timed runs; never negative when no duration is |
| History.GetStats | workflow/storage/history_store.py:219-246 | total and successful counts; failed = total - successful; success rate in percent within [0, 100], 0 without runs; average over successful records with a duration, 0 when there are none |
| History.FailedCountsNonSuccesses | workflow/storage/history_store.py:243 | "failed" counts every non-successful run, including pending, running and timeout ones |
| History.StatsAfterSave | workflow/storage/history_store.py:219-246 | saving a record adds one run, and one success when it succeeded; a record of another workflow changes nothing |
| History.StatsExample | workflow/storage/history_store.py:240-246 | three successes in 1, 2 and 3 seconds and one failure give a 75% rate and a 2-second average |
| History.SuccessRate | workflow/storage/history_store.py:244 | 0 without runs; otherwise successes as a percentage of runs, within [0, 100] |
| History.Mean | workflow/storage/history_store.py:235-245 | 0 without timed successes; otherwise the value whose product with their number is their total duration |
| History.FirstMatchSpec | workflow/storage/history_store.py:198-213 | the first rule whose keywords occur wins; no key exactly when no rule matches |
| History.PatternKey | workflow/storage/history_store.py:193-217 | the key is never empty |
| History.PatternKeyIsFirstMatch | workflow/storage/history_store.py:193-217 | the key is the first matching rule's key on the lower-cased message, or else the first word lower-cased, or "unknown" |
| History.FallbackKey | workflow/storage/history_store.py:214-217 | "unknown" for a blank message; otherwise a non-empty key without whitespace |
| History.TimeoutBeatsConnection | workflow/storage/history_store.py:198-201 | "Connection timeout" classifies as timeout, since that rule is checked first |
| History.RequestTimeoutKey | workflow/storage/history_store.py:198-199 | "Request timeout" classifies as timeout |
| History.RefusedConnectionKey | workflow/storage/history_store.py:200-201 | "Connection refused" classifies as a network error |
| History.PermissionDeniedKey | workflow/storage/history_store.py:202-203 | "Permission denied" classifies as a permission error |
| History.PermissionDeniedMisses | workflow/storage/history_store.py:198-201 | "permission denied" contains none of the keywords of the two rules checked before the permission rule |
| History.RulesChain | workflow/storage/history_store.py:193-213 | the rule table tried in order is the source's if/elif chain of keyword tests, with the same keys in the same order |
| History.Entries | workflow/storage/history_store.py:161-166 | no more entries than records |
| History.EntriesOfMessages | workflow/storage/history_store.py:161-166 | every entry comes from a failure in the window with a non-empty message, carrying that message, its start time and `PatternKey` of the message; every such failure gives its entry |
| History.Keys | workflow/storage/history_store.py:168-173 | no key listed twice |
| History.KeysInFirstAppearanceOrder | workflow/storage/history_store.py:168-173 | of two listed keys, the earlier one first appears in the entries before the later one |
| History.KeysMembers | workflow/storage/history_store.py:168-173 | a key is listed exactly when some entry has it |
| History.GroupMembers | workflow/storage/history_store.py:168-176 | a key's group holds exactly the entries with that key |
| History.LastSeenIsLatest | workflow/storage/history_store.py:172-178 | last seen is the latest start time in the group and is attained |
| History.FirstFive | workflow/storage/history_store.py:188 | the first min(5, n) messages, in order |
| History.Candidates | workflow/storage/history_store.py:180-189 | no more patterns than keys |
| History.CandidatesDistinct | workflow/storage/history_store.py:180-189 | for duplicate-free keys, no two patterns have the same type |
| History.KeysHaveGroups | workflow/storage/history_store.py:168-176 | every listed key has a non-empty group |
| History.AbsentKeyHasNoGroup | workflow/storage/history_store.py:168-176 | a key no entry has has an empty group |
| History.Window | workflow/storage/history_store.py:149-153 | at most 50 failed records of the workflow, most recent first |
| History.CandidatesSound | workflow/storage/history_store.py:182-189 | every candidate is the pattern of a listed key whose group reaches the threshold |
| History.CandidatesComplete | workflow/storage/history_store.py:182-189 | every listed key whose group reaches the threshold yields its pattern |
| History.CandidatesAppend | workflow/storage/history_store.py:182-189 | one more key with entries adds its pattern at the end exactly when its group reaches the threshold |
| History.PatternsSound | workflow/storage/history_store.py:134-191 | each pattern reaches the threshold, counts its group, carries the group's latest start time and first five messages, has no fixes, and is the only pattern of its type |
| History.PatternsComplete | workflow/storage/history_store.py:134-191 | every key with enough failures appears, with its count |
| History.Reported | workflow/storage/history_store.py:134-191 | a reported pattern belongs to a key with failures, is that key's group summary and reaches the threshold |
| History.PatternForSummary | workflow/storage/history_store.py:170-189 | a group's pattern carries its key, its size, its latest start time (attained by one of its failures), its first min(5, n) messages in order and no fixes |
| History.PatternsOrdered | workflow/storage/history_store.py:191 | patterns by count, highest first, and equal counts keep their first-appearance order |
| History.SilentFailuresYieldNothing | workflow/storage/history_store.py:155-163 | failures without messages yield no patterns |
| History.NoEntries | workflow/storage/history_store.py:161-163 | failures without messages yield no entries |
| History.PatternsExample | workflow/storage/history_store.py:134-217 | two timeouts and one refused connection with threshold 2 give one timeout pattern: count 2, latest start, both messages in window order |
| History.TimeoutsOutnumberPermission | workflow/storage/history_store.py:134-217 | "Connection timeout", "Request timeout" and "Permission denied" with threshold 2 give exactly one pattern, the timeouts with count 2; no permission-error pattern |
| History.EntriesAppend | workflow/storage/history_store.py:161-166 | one more failure adds at most its own entry |
| History.GroupingAppend | workflow/storage/history_store.py:168-176 | one more entry adds its key if new, and joins only its own group |
| History.AccAppend | workflow/storage/history_store.py:168-178 | the per-key accumulator after one more entry: count + 1, message appended, last seen raised to the later time |
| History.GroupFailures | workflow/storage/history_store.py:159-178 | the dictionary's keys in insertion order are the first-appearance keys; each key's count, messages and last seen are those of its group |
| History.GroupRecord | workflow/storage/history_store.py:161-166 | visiting one failure keeps the dictionary equal to the grouping of the failures seen so far; a failure without a message changes nothing |
| History.AddEntry | workflow/storage/history_store.py:168-178 | inserting one keyed message keeps the dictionary and its insertion order equal to the grouping of the entries seen so far |
| History.FrequentPatterns | workflow/storage/history_store.py:180-189 | the patterns built from the dictionary are the specification's candidates |
| History.FrequentStep | workflow/storage/history_store.py:182-189 | one iteration of the filtering loop appends the next key's pattern exactly when its dictionary count reaches the threshold |
| History.HistoryStore.constructor | workflow/storage/history_store.py:15-27 | the store starts with the given log |
| History.HistoryStore.SaveExecution | workflow/storage/history_store.py:58-82 | the record is appended and its id is its 1-based position |
| History.HistoryStore.GetFailurePatterns | workflow/storage/history_store.py:134-191 | the result is the failure-pattern specification over the workflow's 50 latest failures |
| Sorting.SortDesc | workflow/storage/history_store.py:191 | a permutation of its input, ordered by key, highest first |
| Sorting.SortDescStable | workflow/storage/history_store.py:191 | among equal keys the input order is kept |
| Sorting.Insert | workflow/storage/history_store.py:191 | inserting into a descending list keeps it descending and adds exactly the one element |
| Sorting.InsertWithKey | workflow/storage/history_store.py:191 | an inserted element goes before every element with the same key |
| ResponseParsing.DetectLanguage | workflow/agents/orchestrator.py:287-296 | the result is always a valid language value, so the enum conversion at orchestrator.py:116 cannot fail |
| ResponseParsing.ShellShebangWins | workflow/agents/orchestrator.py:289-290 | a shell shebang makes a script shell, whatever follows |
| ResponseParsing.PythonShebangWins | workflow/agents/orchestrator.py:291-292 | a Python shebang makes a script Python, whatever follows, even if it echoes |
| ResponseParsing.EarlyImportIsPython | workflow/agents/orchestrator.py:291-292 | without a shell shebang, an "import " lying wholly within the first 100 characters makes a script Python |
| ResponseParsing.ShellIdioms | workflow/agents/orchestrator.py:293-296 | without shebangs or an early import, a script is shell exactly when it contains "echo " or "set -e" |
| ResponseParsing.OpeningLength | workflow/agents/orchestrator.py:268 | a recognised opening line starts with a fence and fits in the text |
| ResponseParsing.OpeningLengthSound | workflow/agents/orchestrator.py:268 | a recognised opening line is a fence, one of the tags python, bash, sh or none, and a newline, and its length is that of the tag plus four |
| ResponseParsing.OpeningOfTag | workflow/agents/orchestrator.py:268 | every accepted tag's opening line is recognised, with that length |
| ResponseParsing.FirstBlock | workflow/agents/orchestrator.py:263-272 | a block is found only in a reply with a fence; its body holds no fence and is at least seven characters shorter than the reply |
| ResponseParsing.BodyBeforeFence | workflow/agents/orchestrator.py:268 | the text up to the first fence at or after a position holds no fence |
| ResponseParsing.ExtractCode | workflow/agents/orchestrator.py:263-275 | the result is stripped; a reply without fences gives the whole reply stripped; an extracted block holds no fence |
| ResponseParsing.ExtractFirstBlock | workflow/agents/orchestrator.py:263-272 | for a reply with a fenced block with an accepted tag and no fence before it, the extracted code is that block's stripped body |
| ResponseParsing.ReplaceFirstBlock | workflow/agents/orchestrator.py:282-283 | the first fenced block is replaced by the placeholder, the text before it is kept, and replacement continues after it |
| ResponseParsing.ReplaceBlocksStep | workflow/agents/orchestrator.py:282-283 | where no fence starts, the character is kept and replacement continues after it |
| ResponseParsing.ReplaceBlocks | workflow/agents/orchestrator.py:281-283 | a text without fences is left unchanged |
| ResponseParsing.ExtractExplanation | workflow/agents/orchestrator.py:277-285 | the result is stripped; a reply without fences gives the whole reply stripped |
| ResponseParsing.ExplanationOfOneBlock | workflow/agents/orchestrator.py:277-285 | a reply with one fenced block explains as the surrounding text, stripped, with the placeholder in place of the block |
| Text.Strip | workflow/agents/orchestrator.py:272-275 | empty exactly for an all-whitespace text; otherwise starts and ends with non-whitespace |
| Text.StripIsInfix | workflow/agents/orchestrator.py:272-275 | the stripped text is a slice of the input with only whitespace cut on either side |
| Text.StripKeepsAbsence | workflow/agents/orchestrator.py:272 | stripping never creates an occurrence that was not there |
| Text.Lower | workflow/storage/history_store.py:196 | same length, each character lower-cased (ASCII letters) and every other kept |
| Text.FirstWord | workflow/tools/bash_executor.py:44 | none exactly for a blank text; otherwise a non-empty run of non-whitespace that starts after leading whitespace and ends at whitespace or the end |

## Left out

- The child processes, the file system and the clock are not executed. Each runner call gets a
  `Host` value with the directory probe's answer, the temporary file's fate, each process's
  outcome and the elapsed time. Timestamps are integers.
- Output decoding (`decode('utf-8', errors='replace')`) is left out. Process output is already
  text in the model.
- Killing a timed-out process and the exceptions swallowed while killing it are not modelled.
  The package installer's own 120-second bound is a constant; the installer is not killed.
- The shell runner's environment overlay (`env_vars`) only reaches the child process and is not
  modelled.
- Runners.PythonExecutor.Execute: the working directory only sets the child's directory and is
  not a parameter. A missing directory shows up as the process raising.
- Runners.PythonExecutor.Execute: a failure to remove the temporary file is swallowed
  (python_executor.py:110-113). The model always records the removal. The temporary file's
  creation and its write are modelled as the host's answer (created and written, creation
  raised, or write raised after creation); a write failure leaves its file on disk.
- The deny patterns are held in a Python set, visited in an order the model does not know. The
  model fixes one duplicate-free order. The properties about the refusal reason say "some
  matching pattern", so they hold for every order.
- Models.ToAnthropicTool and the two Schema functions keep only the parameter names and the
  required names of `get_input_schema`, not the descriptions and types. The Schema functions are
  data and carry no contract.
- History: the SQLite database is replaced by an in-memory log, with the id as the 1-based
  position. The table and index creation, and the conversion of rows back to records, are left out.
- History.GetExecutions: start times are compared as integers. history_store.py stores ISO-8601 text
  and orders it as text, which agrees for timestamps of the same format. The order among equal
  start times, which SQLite leaves open, is not promised.
- History.HistoryStore.GetFailurePatterns: the miner reads its 50 latest failures through the same
  query, so it inherits the open order among equal start times. That order decides which failures
  are in the window when equal start times straddle the cut, the order of the messages in a
  pattern, and the order of patterns with equal counts (first appearance in the window). The
  model fixes it as log order, through the stable sort.
- History.GetStats: floating-point division is modelled by exact real arithmetic.
- Text.Lower lower-cases ASCII letters only, so the classifier's lower-casing of non-ASCII
  letters is not modelled.
- The TIMEOUT, PENDING and RUNNING statuses are never produced by `execute_workflow`. They
  appear only as stored data.
- The orchestrator's interactive flow is left out: prompts, confirmation, saving and testing of
  workflows, and the language-model calls of the coder, validation and executor agents. Only the
  three reply parsers are modelled, together with the language-value property that the save at
  orchestrator.py:116 relies on.
- Coordinator: `validate_workflow` is modelled only through its `is_safe` verdict, since the
  safety reply comes from the language model. `analyze_execution` is left out for the same
  reason.
- ResponseParsing.ExtractFirstBlock and ResponseParsing.ExplanationOfOneBlock: they are stated
  for replies whose text before the block holds no fence. Two cases are covered by the
  definitions but no lemma describes them: an earlier fence with no closing fence, and a first
  block that is closed but has a tag other than python, bash, sh or none. In the second case the
  regular expression at orchestrator.py:268 starts its match at the block's closing fence, so
  "```json\n{}\n```\nSome text\n```python\nprint(1)\n```" extracts "Some text".
