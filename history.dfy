/** The execution history: an append-only log of execution records, the
    queries over it (filtered, most recent first, limited), the per-workflow
    statistics, and the failure-pattern miner. The database is replaced by
    the in-memory log; a record's id is its 1-based position in the log. */
module History {
  import opened Wrappers
  import opened Text
  import opened Models
  import opened Sorting

  // ---------------------------------------------------------------------
  // Queries

  /** Whether a record passes `get_executions`' filters: a name filter only
      when the name is given and non-empty, a status filter only when a
      status is given. */
  predicate Selected(e: ExecutionResult, workflowName: Option<string>, status: Option<WorkflowStatus>) {
    (workflowName.None? || workflowName.value == "" || e.workflowName == workflowName.value) &&
    (status.None? || e.status == status.value)
  }

  /** The records that pass the filters, in log order. */
  function Select(log: seq<ExecutionResult>, workflowName: Option<string>, status: Option<WorkflowStatus>): (r: seq<ExecutionResult>)
    ensures multiset(r) <= multiset(log)
    ensures forall e :: multiset(r)[e] == if Selected(e, workflowName, status) then multiset(log)[e] else 0
    ensures forall i :: 0 <= i < |r| ==> Selected(r[i], workflowName, status)
    ensures forall e :: e in log && Selected(e, workflowName, status) ==> e in r
  {
    if log == [] then []
    else
      var init := log[..|log| - 1];
      var last := log[|log| - 1];
      assert log == init + [last];
      Select(init, workflowName, status) + (if Selected(last, workflowName, status) then [last] else [])
  }

  function StartedAt(e: ExecutionResult): int {
    e.startedAt
  }

  /** How many of `n` selected records a query returns. */
  function Kept(n: nat, limit: int): (k: nat)
    ensures k <= n
  {
    if 0 <= limit < n then limit else n
  }

  /** `get_executions`: the selected records, most recent first, at most
      `limit` of them (a negative limit means no limit). Among records with
      equal start times no order is promised. */
  function GetExecutions(log: seq<ExecutionResult>, workflowName: Option<string> := None, status: Option<WorkflowStatus> := None,
                         limit: int := 100)
    : (r: seq<ExecutionResult>)
    ensures |r| == Kept(|Select(log, workflowName, status)|, limit)
    ensures multiset(r) <= multiset(Select(log, workflowName, status))
    ensures forall i :: 0 <= i < |r| ==> Selected(r[i], workflowName, status)
    ensures SortedDesc(r, StartedAt)
  {
    var selected := Select(log, workflowName, status);
    var sorted := SortDesc(selected, StartedAt);
    var k := Kept(|sorted|, limit);
    PrefixOfSorted(sorted, k);
    forall i | 0 <= i < k ensures Selected(sorted[..k][i], workflowName, status) {
      assert sorted[..k][i] in multiset(selected);
    }
    sorted[..k]
  }

  /** A prefix of a descending sequence is descending and a sub-multiset. */
  lemma PrefixOfSorted(sorted: seq<ExecutionResult>, k: nat)
    requires SortedDesc(sorted, StartedAt) && k <= |sorted|
    ensures SortedDesc(sorted[..k], StartedAt)
    ensures multiset(sorted[..k]) + multiset(sorted[k..]) == multiset(sorted)
  {
    assert sorted == sorted[..k] + sorted[k..];
  }

  /** The query keeps the latest records: every selected record it leaves
      out started no later than every record it returns. */
  lemma GetExecutionsKeepsLatest(log: seq<ExecutionResult>, workflowName: Option<string>, status: Option<WorkflowStatus>,
                                 limit: int, e: ExecutionResult, i: int)
    requires e in multiset(Select(log, workflowName, status)) - multiset(GetExecutions(log, workflowName, status, limit))
    requires 0 <= i < |GetExecutions(log, workflowName, status, limit)|
    ensures e.startedAt <= GetExecutions(log, workflowName, status, limit)[i].startedAt
  {
    var sorted := SortDesc(Select(log, workflowName, status), StartedAt);
    var k := Kept(|sorted|, limit);
    PrefixOfSorted(sorted, k);
    assert GetExecutions(log, workflowName, status, limit) == sorted[..k];
    assert e in multiset(sorted[k..]);
    DroppedNotLater(sorted, k, e, i);
  }

  /** In a descending sequence, what lies past position `k` started no
      later than what lies before it. */
  lemma DroppedNotLater(sorted: seq<ExecutionResult>, k: nat, e: ExecutionResult, i: nat)
    requires SortedDesc(sorted, StartedAt) && i < k <= |sorted|
    requires e in multiset(sorted[k..])
    ensures e.startedAt <= sorted[..k][i].startedAt
  {
    assert e in sorted[k..];
    var m :| 0 <= m < |sorted[k..]| && sorted[k..][m] == e;
    assert sorted[k + m] == e;
    assert StartedAt(sorted[i]) >= StartedAt(sorted[k + m]);
  }

  /** With no limit the query returns every selected record. */
  lemma GetExecutionsUnlimited(log: seq<ExecutionResult>, workflowName: Option<string>, status: Option<WorkflowStatus>, limit: int)
    requires limit < 0
    ensures multiset(GetExecutions(log, workflowName, status, limit)) == multiset(Select(log, workflowName, status))
  {
    var sorted := SortDesc(Select(log, workflowName, status), StartedAt);
    assert sorted[..|sorted|] == sorted;
  }

  /** Appending a record changes the selection only by that record, at the
      end, and only when it passes the filters. */
  lemma SelectAfterAppend(log: seq<ExecutionResult>, e: ExecutionResult, workflowName: Option<string>, status: Option<WorkflowStatus>)
    ensures Select(log + [e], workflowName, status) ==
      Select(log, workflowName, status) + (if Selected(e, workflowName, status) then [e] else [])
  {
    assert (log + [e])[..|log|] == log;
  }

  // ---------------------------------------------------------------------
  // Statistics

  /** Records of the workflow, records of it that succeeded, and the sum
      and number of the durations of its successful records. */
  function CountRuns(log: seq<ExecutionResult>, workflowName: string): (n: nat)
    ensures n <= |log|
  {
    if log == [] then 0
    else CountRuns(log[..|log| - 1], workflowName) + (if log[|log| - 1].workflowName == workflowName then 1 else 0)
  }

  function CountSuccesses(log: seq<ExecutionResult>, workflowName: string): (n: nat)
    ensures n <= CountRuns(log, workflowName)
  {
    if log == [] then 0
    else
      var e := log[|log| - 1];
      CountSuccesses(log[..|log| - 1], workflowName) + (if e.workflowName == workflowName && e.status == Success then 1 else 0)
  }

  function CountNonSuccesses(log: seq<ExecutionResult>, workflowName: string): (n: nat)
    ensures n + CountSuccesses(log, workflowName) == CountRuns(log, workflowName)
  {
    if log == [] then 0
    else
      var e := log[|log| - 1];
      CountNonSuccesses(log[..|log| - 1], workflowName) + (if e.workflowName == workflowName && e.status != Success then 1 else 0)
  }

  /** SQL's AVG skips NULL durations: only successful records that have a
      duration are averaged. */
  predicate TimedSuccess(e: ExecutionResult, workflowName: string) {
    e.workflowName == workflowName && e.status == Success && e.duration.Some?
  }

  function CountTimed(log: seq<ExecutionResult>, workflowName: string): (n: nat)
    ensures n <= CountSuccesses(log, workflowName)
  {
    if log == [] then 0
    else CountTimed(log[..|log| - 1], workflowName) + (if TimedSuccess(log[|log| - 1], workflowName) then 1 else 0)
  }

  function SumTimed(log: seq<ExecutionResult>, workflowName: string): (sum: real)
    ensures CountTimed(log, workflowName) == 0 ==> sum == 0.0
    ensures (forall i :: 0 <= i < |log| ==> log[i].duration.None? || log[i].duration.value >= 0.0) ==> sum >= 0.0
  {
    if log == [] then 0.0
    else
      var e := log[|log| - 1];
      SumTimed(log[..|log| - 1], workflowName) + (if TimedSuccess(e, workflowName) then e.duration.value else 0.0)
  }

  datatype Stats = Stats(totalExecutions: int, successful: int, failed: int, successRate: real, avgDuration: real)

  /** `get_stats`: a success rate in percent that is 0 when there are no
      runs, and the mean duration of the successful runs that is 0 when
      there are none. */
  function GetStats(log: seq<ExecutionResult>, workflowName: string): (st: Stats)
    ensures st.totalExecutions == CountRuns(log, workflowName) && st.successful == CountSuccesses(log, workflowName)
    ensures 0 <= st.successful <= st.totalExecutions
    ensures st.failed == st.totalExecutions - st.successful
    ensures st.totalExecutions == 0 ==> st.successRate == 0.0
    ensures st.totalExecutions > 0 ==> PercentOf(st.successRate, st.successful, st.totalExecutions)
    ensures 0.0 <= st.successRate <= 100.0
    ensures CountTimed(log, workflowName) == 0 ==> st.avgDuration == 0.0
    ensures CountTimed(log, workflowName) > 0 ==>
      MeanOf(st.avgDuration, SumTimed(log, workflowName), CountTimed(log, workflowName))
  {
    var total := CountRuns(log, workflowName);
    var successes := CountSuccesses(log, workflowName);
    var rate := SuccessRate(successes, total);
    var mean := Mean(SumTimed(log, workflowName), CountTimed(log, workflowName));
    Stats(total, successes, total - successes, rate, mean)
  }

  /** `rate` is `part` as a percentage of `whole`. */
  predicate PercentOf(rate: real, part: int, whole: int) {
    rate * (whole as real) == (part as real) * 100.0
  }

  /** `successes / total * 100`, or 0 without runs. */
  function SuccessRate(successes: nat, total: nat): (rate: real)
    requires successes <= total
    ensures total == 0 ==> rate == 0.0
    ensures total > 0 ==> PercentOf(rate, successes, total)
    ensures 0.0 <= rate <= 100.0
  {
    if total == 0 then 0.0
    else
      Percentage(successes, total);
      (successes as real) / (total as real) * 100.0
  }

  /** `part / whole * 100` is a percentage of `whole`. */
  lemma Percentage(part: nat, whole: nat)
    requires part <= whole && whole > 0
    ensures 0.0 <= (part as real) / (whole as real) * 100.0 <= 100.0
    ensures (part as real) / (whole as real) * 100.0 * (whole as real) == (part as real) * 100.0
  {
    var q := (part as real) / (whole as real);
    assert q * (whole as real) == part as real;
    assert 0.0 <= q <= 1.0;
  }

  /** `m` is the mean of `n` values summing to `sum`. */
  predicate MeanOf(m: real, sum: real, n: nat) {
    m * (n as real) == sum
  }

  /** SQL's `AVG(...) or 0`: the mean of `n` values summing to `sum`, or 0
      when there are none. */
  function Mean(sum: real, n: nat): (m: real)
    ensures n == 0 ==> m == 0.0
    ensures n > 0 ==> MeanOf(m, sum, n)
  {
    if n == 0 then 0.0 else sum / (n as real)
  }

  /** "failed" counts every run that did not succeed, whatever its status
      (pending, running and timeout included). */
  lemma {:induction false} FailedCountsNonSuccesses(log: seq<ExecutionResult>, workflowName: string)
    ensures GetStats(log, workflowName).failed == CountNonSuccesses(log, workflowName)
  {
    if log != [] {
      FailedCountsNonSuccesses(log[..|log| - 1], workflowName);
    }
  }

  /** Saving a record of the workflow adds one run, and one success when it
      succeeded; saving a record of another workflow changes nothing. */
  lemma StatsAfterSave(log: seq<ExecutionResult>, e: ExecutionResult, workflowName: string)
    ensures var before, after := GetStats(log, workflowName), GetStats(log + [e], workflowName);
      after.totalExecutions == before.totalExecutions + (if e.workflowName == workflowName then 1 else 0) &&
      after.successful == before.successful + (if e.workflowName == workflowName && e.status == Success then 1 else 0)
    ensures e.workflowName != workflowName ==> GetStats(log + [e], workflowName) == GetStats(log, workflowName)
  {
    assert (log + [e])[..|log|] == log;
  }

  /** Four runs, three of them successful in 1, 2 and 3 seconds: a 75%
      success rate and a mean duration of 2 seconds. */
  lemma StatsExample(w: string, t: int)
    ensures var log := [
        ExecutionResult(w, Success, t, duration := Some(1.0)),
        ExecutionResult(w, Success, t + 1, duration := Some(2.0)),
        ExecutionResult(w, Success, t + 2, duration := Some(3.0)),
        ExecutionResult(w, Failed, t + 3, duration := Some(0.5))];
      GetStats(log, w) == Stats(4, 3, 1, 75.0, 2.0)
  {
    var a := ExecutionResult(w, Success, t, duration := Some(1.0));
    var b := ExecutionResult(w, Success, t + 1, duration := Some(2.0));
    var c := ExecutionResult(w, Success, t + 2, duration := Some(3.0));
    var d := ExecutionResult(w, Failed, t + 3, duration := Some(0.5));
    var log := [a, b, c, d];
    assert log[..3] == [a, b, c];
    assert [a, b, c][..2] == [a, b];
    assert [a, b][..1] == [a];
    assert [a][..0] == [];
    assert TimedSuccess(a, w) && TimedSuccess(b, w) && TimedSuccess(c, w) && !TimedSuccess(d, w);
    assert CountTimed([a], w) == 1 && SumTimed([a], w) == 1.0;
    assert CountRuns([a, b], w) == 2 && CountSuccesses([a, b], w) == 2;
    assert CountTimed([a, b], w) == 2 && SumTimed([a, b], w) == 3.0;
    assert CountRuns([a, b, c], w) == 3 && CountSuccesses([a, b, c], w) == 3;
    assert CountTimed([a, b, c], w) == 3 && SumTimed([a, b, c], w) == 6.0;
    assert CountRuns(log, w) == 4 && CountSuccesses(log, w) == 3;
    assert CountTimed(log, w) == 3 && SumTimed(log, w) == 6.0;
    assert SuccessRate(3, 4) == 75.0;
    assert Mean(6.0, 3) == 2.0;
  }

  // ---------------------------------------------------------------------
  // Pattern keys

  /** A keyword rule of the classifier: a message containing any of the
      keywords gets the label. */
  datatype Rule = Rule(keywords: seq<string>, patternKey: string)

  /** The classifier's rules, in the order they are tried. */
  const Rules: seq<Rule> := [
    Rule(["timeout"], "timeout"),
    Rule(["connection", "network"], "network_error"),
    Rule(["permission", "denied"], "permission_error"),
    Rule(["not found", "404"], "not_found"),
    Rule(["rate limit", "429"], "rate_limit"),
    Rule(["authentication", "401"], "auth_error"),
    Rule(["syntax"], "syntax_error"),
    Rule(["import", "module"], "dependency_error")]

  predicate RuleMatches(text: string, rule: Rule) {
    exists w :: w in rule.keywords && Contains(text, w)
  }

  /** The key of the first rule from position `i` on that matches, if any. */
  function FirstMatch(rules: seq<Rule>, i: nat, text: string): Option<string>
    requires i <= |rules|
    decreases |rules| - i
  {
    if i == |rules| then None
    else if RuleMatches(text, rules[i]) then Some(rules[i].patternKey)
    else FirstMatch(rules, i + 1, text)
  }

  /** First-match semantics: no key when no rule matches, otherwise the key
      of a matching rule that every earlier rule fails to match. */
  lemma {:induction false} FirstMatchSpec(rules: seq<Rule>, i: nat, text: string)
    requires i <= |rules|
    ensures FirstMatch(rules, i, text).None? <==> forall j :: i <= j < |rules| ==> !RuleMatches(text, rules[j])
    ensures FirstMatch(rules, i, text).Some? ==>
      exists m :: i <= m < |rules| && RuleMatches(text, rules[m]) && FirstMatch(rules, i, text).value == rules[m].patternKey &&
        forall j :: i <= j < m ==> !RuleMatches(text, rules[j])
    decreases |rules| - i
  {
    if i == |rules| {
    } else if RuleMatches(text, rules[i]) {
      assert FirstMatch(rules, i, text) == Some(rules[i].patternKey);
    } else {
      assert FirstMatch(rules, i, text) == FirstMatch(rules, i + 1, text);
      FirstMatchSpec(rules, i + 1, text);
      if FirstMatch(rules, i + 1, text).Some? {
        var m :| i + 1 <= m < |rules| && RuleMatches(text, rules[m]) &&
          FirstMatch(rules, i + 1, text).value == rules[m].patternKey &&
          forall j :: i + 1 <= j < m ==> !RuleMatches(text, rules[j]);
        assert forall j :: i <= j < m ==> !RuleMatches(text, rules[j]);
      }
    }
  }

  /** A one-keyword rule matches exactly when its keyword occurs. */
  lemma MatchesOne(text: string, a: string, key: string)
    ensures RuleMatches(text, Rule([a], key)) <==> Contains(text, a)
  {
    if Contains(text, a) {
      assert a in [a];
    }
  }

  /** A two-keyword rule matches exactly when either keyword occurs. */
  lemma MatchesTwo(text: string, a: string, b: string, key: string)
    ensures RuleMatches(text, Rule([a, b], key)) <==> Contains(text, a) || Contains(text, b)
  {
    if Contains(text, a) {
      assert a in [a, b];
    }
    if Contains(text, b) {
      assert b in [a, b];
    }
  }

  /** The key of a message no rule claims: its first word, lower-cased, or
      "unknown" for a blank message. */
  function FallbackKey(message: string): (k: string)
    ensures AllSpace(message) ==> k == "unknown"
    ensures !AllSpace(message) ==> k != [] && forall i :: 0 <= i < |k| ==> !IsSpace(k[i])
  {
    match FirstWord(message)
    case Some(w) => Lower(w)
    case None => "unknown"
  }

  /** `_extract_pattern_key`: keyword tests on the lower-cased message, in
      a fixed order, the first hit deciding. */
  function PatternKey(message: string): (k: string)
    ensures k != ""
  {
    var lower := Lower(message);
    if Contains(lower, "timeout") then "timeout"
    else if Contains(lower, "connection") || Contains(lower, "network") then "network_error"
    else if Contains(lower, "permission") || Contains(lower, "denied") then "permission_error"
    else if Contains(lower, "not found") || Contains(lower, "404") then "not_found"
    else if Contains(lower, "rate limit") || Contains(lower, "429") then "rate_limit"
    else if Contains(lower, "authentication") || Contains(lower, "401") then "auth_error"
    else if Contains(lower, "syntax") then "syntax_error"
    else if Contains(lower, "import") || Contains(lower, "module") then "dependency_error"
    else FallbackKey(message)
  }

  /** The classifier is the first-match rule over the ordered table, with
      the first word as the fallback. */
  lemma PatternKeyIsFirstMatch(message: string)
    ensures PatternKey(message) == FirstMatch(Rules, 0, Lower(message)).GetOr(FallbackKey(message))
  {
    RulesChain(Lower(message));
  }

  /** The rule table, tried in order, is the chain of keyword tests. */
  lemma RulesChain(lower: string)
    ensures FirstMatch(Rules, 0, lower) ==
      if Contains(lower, "timeout") then Some("timeout")
      else if Contains(lower, "connection") || Contains(lower, "network") then Some("network_error")
      else if Contains(lower, "permission") || Contains(lower, "denied") then Some("permission_error")
      else if Contains(lower, "not found") || Contains(lower, "404") then Some("not_found")
      else if Contains(lower, "rate limit") || Contains(lower, "429") then Some("rate_limit")
      else if Contains(lower, "authentication") || Contains(lower, "401") then Some("auth_error")
      else if Contains(lower, "syntax") then Some("syntax_error")
      else if Contains(lower, "import") || Contains(lower, "module") then Some("dependency_error")
      else None
  {
    RuleStep(lower, 0, "timeout", "timeout", "timeout");
    RuleStep(lower, 1, "connection", "network", "network_error");
    RulesFrom2(lower);
  }

  /** The table from its third rule on. */
  lemma RulesFrom2(lower: string)
    ensures FirstMatch(Rules, 2, lower) ==
      if Contains(lower, "permission") || Contains(lower, "denied") then Some("permission_error")
      else if Contains(lower, "not found") || Contains(lower, "404") then Some("not_found")
      else if Contains(lower, "rate limit") || Contains(lower, "429") then Some("rate_limit")
      else if Contains(lower, "authentication") || Contains(lower, "401") then Some("auth_error")
      else if Contains(lower, "syntax") then Some("syntax_error")
      else if Contains(lower, "import") || Contains(lower, "module") then Some("dependency_error")
      else None
  {
    RuleStep(lower, 2, "permission", "denied", "permission_error");
    RuleStep(lower, 3, "not found", "404", "not_found");
    RulesFrom4(lower);
  }

  /** The table from its fifth rule on. */
  lemma RulesFrom4(lower: string)
    ensures FirstMatch(Rules, 4, lower) ==
      if Contains(lower, "rate limit") || Contains(lower, "429") then Some("rate_limit")
      else if Contains(lower, "authentication") || Contains(lower, "401") then Some("auth_error")
      else if Contains(lower, "syntax") then Some("syntax_error")
      else if Contains(lower, "import") || Contains(lower, "module") then Some("dependency_error")
      else None
  {
    RuleStep(lower, 4, "rate limit", "429", "rate_limit");
    RuleStep(lower, 5, "authentication", "401", "auth_error");
    RulesFrom6(lower);
  }

  /** The table's last two rules. */
  lemma RulesFrom6(lower: string)
    ensures FirstMatch(Rules, 6, lower) ==
      if Contains(lower, "syntax") then Some("syntax_error")
      else if Contains(lower, "import") || Contains(lower, "module") then Some("dependency_error")
      else None
  {
    RuleStep(lower, 6, "syntax", "syntax", "syntax_error");
    RuleStep(lower, 7, "import", "module", "dependency_error");
  }

  /** One step of the table: rule `i` has keywords `a` and `b` (the same
      word twice for a one-keyword rule). */
  lemma RuleStep(text: string, i: nat, a: string, b: string, key: string)
    requires i < |Rules| && Rules[i].patternKey == key
    requires Rules[i].keywords == [a, b] || (a == b && Rules[i].keywords == [a])
    ensures FirstMatch(Rules, i, text) ==
      if Contains(text, a) || Contains(text, b) then Some(key) else FirstMatch(Rules, i + 1, text)
  {
    if Rules[i].keywords == [a, b] {
      MatchesTwo(text, a, b, key);
    } else {
      MatchesOne(text, a, key);
    }
  }

  /** "Connection timeout" is a timeout, not a network error: the timeout
      test runs first. */
  lemma TimeoutBeatsConnection()
    ensures PatternKey("Connection timeout") == "timeout"
  {
    var lower := "connection timeout";
    assert Lower("Connection timeout") == lower;
    assert OccursAt(lower, "timeout", 11);
  }

  /** "Permission denied" is a permission error. */
  lemma PermissionDeniedKey()
    ensures PatternKey("Permission denied") == "permission_error"
  {
    var lower := "permission denied";
    assert Lower("Permission denied") == lower;
    PermissionDeniedMisses();
    assert OccursAt(lower, "permission", 0);
  }

  /** Neither the timeout nor the network keywords occur in "permission denied". */
  lemma PermissionDeniedMisses()
    ensures !Contains("permission denied", "timeout")
    ensures !Contains("permission denied", "connection") && !Contains("permission denied", "network")
  {
    MissingCharNotContained("permission denied", "timeout", 't');
    MissingCharNotContained("permission denied", "connection", 'c');
    MissingCharNotContained("permission denied", "network", 'w');
  }

  // ---------------------------------------------------------------------
  // Failure patterns

  /** A failure that takes part in the grouping: its key, message and start. */
  datatype Entry = Entry(key: string, message: string, startedAt: int)

  /** The failures with a non-empty error message, classified, in window order. */
  function Entries(window: seq<ExecutionResult>): (es: seq<Entry>)
    ensures |es| <= |window|
  {
    if window == [] then []
    else
      var f := window[|window| - 1];
      Entries(window[..|window| - 1]) +
        (if f.errorMessage.Some? && f.errorMessage.value != ""
         then [Entry(PatternKey(f.errorMessage.value), f.errorMessage.value, f.startedAt)] else [])
  }

  /** The distinct keys of the entries, in order of first appearance (the
      insertion order of the grouping dictionary). */
  function Keys(es: seq<Entry>): (ks: seq<string>)
    ensures forall i, j :: 0 <= i < j < |ks| ==> ks[i] != ks[j]
  {
    if es == [] then []
    else
      var ks := Keys(es[..|es| - 1]);
      var e := es[|es| - 1];
      assert es == es[..|es| - 1] + [e];
      if e.key in ks then ks else ks + [e.key]
  }

  /** The entries with key `k`, in order. */
  function Group(es: seq<Entry>, k: string): seq<Entry> {
    if es == [] then []
    else
      var e := es[|es| - 1];
      Group(es[..|es| - 1], k) + (if e.key == k then [e] else [])
  }

  /** The keys are exactly the keys of the entries. */
  lemma {:induction false} KeysMembers(es: seq<Entry>)
    ensures forall k :: k in Keys(es) <==> exists e :: e in es && e.key == k
  {
    if es != [] {
      var init := es[..|es| - 1];
      KeysMembers(init);
      assert es == init + [es[|es| - 1]];
    }
  }

  /** A group holds exactly the entries with its key. */
  lemma {:induction false} GroupMembers(es: seq<Entry>, k: string)
    ensures forall e :: e in Group(es, k) <==> e in es && e.key == k
  {
    if es != [] {
      var init := es[..|es| - 1];
      GroupMembers(init, k);
      assert es == init + [es[|es| - 1]];
    }
  }

  function Messages(g: seq<Entry>): seq<string> {
    seq(|g|, i requires 0 <= i < |g| => g[i].message)
  }

  /** The latest start time of a group, kept as the loop keeps it: the
      first one, replaced by every later one that is strictly greater. */
  function LastSeen(g: seq<Entry>): int
    requires g != []
  {
    if |g| == 1 then g[0].startedAt
    else
      var m := LastSeen(g[..|g| - 1]);
      var e := g[|g| - 1];
      if e.startedAt > m then e.startedAt else m
  }

  /** The kept start time is the latest start time of the group. */
  lemma {:induction false} LastSeenIsLatest(g: seq<Entry>)
    requires g != []
    ensures forall e :: e in g ==> e.startedAt <= LastSeen(g)
    ensures exists e :: e in g && e.startedAt == LastSeen(g)
  {
    if |g| == 1 {
      assert g[0] in g;
    } else {
      var init := g[..|g| - 1];
      LastSeenIsLatest(init);
      assert g == init + [g[|g| - 1]];
      var w :| w in init && w.startedAt == LastSeen(init);
      assert w in g;
    }
  }

  /** At most the first five messages: Python's `messages[:5]`. */
  function FirstFive(ms: seq<string>): (r: seq<string>)
    ensures |r| == if |ms| < 5 then |ms| else 5
    ensures r == ms[..|r|]
  {
    if |ms| <= 5 then ms else ms[..5]
  }

  /** The pattern reported for key `k`. */
  function PatternFor(es: seq<Entry>, k: string): FailurePattern
    requires Group(es, k) != []
  {
    var g := Group(es, k);
    FailurePattern(k, |g|, LastSeen(g), FirstFive(Messages(g)))
  }

  /** The patterns of the keys `ks` that reach `minCount`, in the order of
      `ks`. A key without entries has no group to summarise and is passed
      over; the keys of the dictionary always have entries. */
  function Candidates(es: seq<Entry>, ks: seq<string>, minCount: int): (ps: seq<FailurePattern>)
    ensures |ps| <= |ks|
  {
    if ks == [] then []
    else
      var k := ks[|ks| - 1];
      Candidates(es, ks[..|ks| - 1], minCount) +
        (if Group(es, k) != [] && |Group(es, k)| >= minCount then [PatternFor(es, k)] else [])
  }

  function Count(p: FailurePattern): int {
    p.count
  }

  /** Keys that occur in the entries have non-empty groups. */
  lemma KeysHaveGroups(es: seq<Entry>)
    ensures forall k :: k in Keys(es) ==> Group(es, k) != []
  {
    KeysMembers(es);
    forall k | k in Keys(es) ensures Group(es, k) != [] {
      var e :| e in es && e.key == k;
      GroupMembers(es, k);
      assert e in Group(es, k);
    }
  }

  /** A key that does not occur has an empty group. */
  lemma AbsentKeyHasNoGroup(es: seq<Entry>, k: string)
    requires k !in Keys(es)
    ensures Group(es, k) == []
  {
    KeysMembers(es);
    GroupMembers(es, k);
  }

  /** The entries are the window's failures that carry a non-empty error
      message, each classified by its message: every entry comes from such
      a failure, and every such failure gives its entry. */
  lemma {:induction false} EntriesOfMessages(window: seq<ExecutionResult>)
    ensures forall e :: e in Entries(window) ==>
      e.message != "" && e.key == PatternKey(e.message) &&
      exists f :: f in window && f.errorMessage == Some(e.message) && f.startedAt == e.startedAt
    ensures forall f :: f in window && f.errorMessage.Some? && f.errorMessage.value != "" ==>
      Entry(PatternKey(f.errorMessage.value), f.errorMessage.value, f.startedAt) in Entries(window)
  {
    if window != [] {
      var init := window[..|window| - 1];
      EntriesOfMessages(init);
      assert window == init + [window[|window| - 1]];
      forall e | e in Entries(window)
        ensures exists f :: f in window && f.errorMessage == Some(e.message) && f.startedAt == e.startedAt
      {
        if e in Entries(init) {
          var f :| f in init && f.errorMessage == Some(e.message) && f.startedAt == e.startedAt;
          assert f in window;
        } else {
          assert window[|window| - 1] in window;
        }
      }
    }
  }

  /** Key `a` occurs in an entry before any entry with key `b`. */
  ghost predicate AppearsBefore(es: seq<Entry>, a: string, b: string) {
    exists p :: 0 <= p < |es| && es[p].key == a && forall q :: 0 <= q <= p ==> es[q].key != b
  }

  /** More entries at the end do not change which key appeared first. */
  lemma AppearsBeforeExtends(es: seq<Entry>, e: Entry, a: string, b: string)
    requires AppearsBefore(es, a, b)
    ensures AppearsBefore(es + [e], a, b)
  {
    var p :| 0 <= p < |es| && es[p].key == a && forall q :: 0 <= q <= p ==> es[q].key != b;
    assert (es + [e])[p] == es[p];
    assert forall q :: 0 <= q <= p ==> (es + [e])[q] == es[q];
  }

  /** The keys are listed in order of first appearance: of two listed keys,
      the earlier one occurs in an entry before any entry of the later one. */
  lemma {:induction false} KeysInFirstAppearanceOrder(es: seq<Entry>)
    ensures forall i, j :: 0 <= i < j < |Keys(es)| ==> AppearsBefore(es, Keys(es)[i], Keys(es)[j])
  {
    if es != [] {
      var init := es[..|es| - 1];
      var e := es[|es| - 1];
      var ks0, ks := Keys(init), Keys(es);
      KeysInFirstAppearanceOrder(init);
      KeysMembers(init);
      assert es == init + [e];
      forall i, j | 0 <= i < j < |ks| ensures AppearsBefore(es, ks[i], ks[j]) {
        if j < |ks0| {
          assert ks[i] == ks0[i] && ks[j] == ks0[j];
          AppearsBeforeExtends(init, e, ks0[i], ks0[j]);
        } else {
          NewKeyAppearsAfter(init, e, ks0[i]);
        }
      }
    }
  }

  /** A listed key appears before a key that no earlier entry has. */
  lemma NewKeyAppearsAfter(init: seq<Entry>, e: Entry, a: string)
    requires a in Keys(init) && e.key !in Keys(init)
    ensures AppearsBefore(init + [e], a, e.key)
  {
    KeysMembers(init);
    var w :| w in init && w.key == a;
    var p :| 0 <= p < |init| && init[p] == w;
    var es := init + [e];
    assert es[p] == w;
    forall q | 0 <= q <= p ensures es[q].key != e.key {
      assert es[q] == init[q] && init[q] in init;
    }
  }

  /** No two patterns share a key. */
  predicate DistinctTypes(ps: seq<FailurePattern>) {
    forall i, j :: 0 <= i < j < |ps| ==> ps[i].patternType != ps[j].patternType
  }

  /** No two candidates share a key when the keys are distinct. */
  lemma {:induction false} CandidatesDistinct(es: seq<Entry>, ks: seq<string>, minCount: int)
    requires forall i, j :: 0 <= i < j < |ks| ==> ks[i] != ks[j]
    ensures DistinctTypes(Candidates(es, ks, minCount))
  {
    if ks != [] {
      var init := ks[..|ks| - 1];
      var k := ks[|ks| - 1];
      var ps0, ps := Candidates(es, init, minCount), Candidates(es, ks, minCount);
      CandidatesDistinct(es, init, minCount);
      CandidatesSound(es, init, minCount);
      assert k !in init;
      assert ps == ps0 + (if Group(es, k) != [] && |Group(es, k)| >= minCount then [PatternFor(es, k)] else []);
      forall i, j | 0 <= i < j < |ps| ensures ps[i].patternType != ps[j].patternType {
        if j < |ps0| {
          assert ps[i] == ps0[i] && ps[j] == ps0[j];
        } else {
          assert ps[i] == ps0[i] && ps0[i] in ps0;
          assert ps[j] == PatternFor(es, k);
        }
      }
    }
  }

  /** `get_failure_patterns` over the window of recent failures: the
      patterns of the keys that occur at least `minCount` times, most
      frequent first, ties in order of first appearance. */
  function FailurePatterns(window: seq<ExecutionResult>, minCount: int): seq<FailurePattern> {
    if window == [] then [] else SortDesc(Unsorted(window, minCount), Count)
  }

  /** The patterns before sorting, in the order their keys first appeared. */
  function Unsorted(window: seq<ExecutionResult>, minCount: int): seq<FailurePattern> {
    var es := Entries(window);
    Candidates(es, Keys(es), minCount)
  }

  /** The window the miner looks at: the 50 most recent FAILED records of
      the workflow. */
  function Window(log: seq<ExecutionResult>, workflowName: string): (w: seq<ExecutionResult>)
    ensures |w| <= 50
    ensures forall i :: 0 <= i < |w| ==> w[i].status == Failed
    ensures forall i :: 0 <= i < |w| ==> workflowName == "" || w[i].workflowName == workflowName
    ensures SortedDesc(w, StartedAt)
  {
    GetExecutions(log, Some(workflowName), Some(Failed), 50)
  }

  /** Every candidate is the summary of one of the keys and reaches the
      threshold. */
  lemma {:induction false} CandidatesSound(es: seq<Entry>, ks: seq<string>, minCount: int)
    ensures forall p :: p in Candidates(es, ks, minCount) ==>
      p.patternType in ks && Group(es, p.patternType) != [] && p == PatternFor(es, p.patternType) && p.count >= minCount
  {
    if ks != [] {
      var init := ks[..|ks| - 1];
      assert forall k :: k in init ==> k in ks;
      CandidatesSound(es, init, minCount);
    }
  }

  /** Every key that reaches the threshold has its candidate. */
  lemma {:induction false} CandidatesComplete(es: seq<Entry>, ks: seq<string>, minCount: int)
    requires forall k :: k in ks ==> Group(es, k) != []
    ensures forall k :: k in ks && |Group(es, k)| >= minCount ==> PatternFor(es, k) in Candidates(es, ks, minCount)
  {
    if ks != [] {
      var init := ks[..|ks| - 1];
      assert forall k :: k in init ==> k in ks;
      assert ks == init + [ks[|ks| - 1]];
      CandidatesComplete(es, init, minCount);
    }
  }

  /** Soundness of the miner: a reported pattern reaches the threshold, and
      it summarises exactly the window's failures with its key: their
      number, the latest of their start times, and the first five of their
      messages in window order. No suggested fixes are attached, and no two
      reported patterns share a key. */
  lemma PatternsSound(window: seq<ExecutionResult>, minCount: int, p: FailurePattern)
    requires p in FailurePatterns(window, minCount)
    ensures p.count >= minCount && p.suggestedFixes == []
    ensures var g := Group(Entries(window), p.patternType);
      g != [] && p.count == |g| &&
      (forall e :: e in g ==> e.startedAt <= p.lastSeen) && (exists e :: e in g && e.startedAt == p.lastSeen) &&
      |p.errorMessages| == (if |g| < 5 then |g| else 5) &&
      (forall i :: 0 <= i < |p.errorMessages| ==> p.errorMessages[i] == g[i].message)
    ensures forall q :: q in FailurePatterns(window, minCount) && q.patternType == p.patternType ==> q == p
  {
    Reported(window, minCount, p);
    PatternForSummary(Entries(window), p.patternType);
    forall q | q in FailurePatterns(window, minCount) && q.patternType == p.patternType ensures q == p {
      Reported(window, minCount, q);
    }
  }

  /** A reported pattern is the pattern of its key's group. */
  lemma Reported(window: seq<ExecutionResult>, minCount: int, p: FailurePattern)
    requires p in FailurePatterns(window, minCount)
    ensures Group(Entries(window), p.patternType) != []
    ensures p == PatternFor(Entries(window), p.patternType) && p.count >= minCount
  {
    var es := Entries(window);
    CandidatesSound(es, Keys(es), minCount);
    assert p in multiset(Candidates(es, Keys(es), minCount));
  }

  /** The pattern of a group summarises it: its size, its latest start
      time, and its first five messages in order. */
  lemma PatternForSummary(es: seq<Entry>, k: string)
    requires Group(es, k) != []
    ensures var p, g := PatternFor(es, k), Group(es, k);
      p.patternType == k && p.suggestedFixes == [] && p.count == |g| &&
      (forall e :: e in g ==> e.startedAt <= p.lastSeen) && (exists e :: e in g && e.startedAt == p.lastSeen) &&
      |p.errorMessages| == (if |g| < 5 then |g| else 5) &&
      (forall i :: 0 <= i < |p.errorMessages| ==> p.errorMessages[i] == g[i].message)
  {
    LastSeenIsLatest(Group(es, k));
  }

  /** Completeness of the miner: every key that at least `minCount` of the
      window's failures share is reported. */
  lemma PatternsComplete(window: seq<ExecutionResult>, minCount: int, k: string)
    requires k in Keys(Entries(window)) && |Group(Entries(window), k)| >= minCount
    ensures exists p :: p in FailurePatterns(window, minCount) && p.patternType == k && p.count == |Group(Entries(window), k)|
  {
    var es := Entries(window);
    KeysHaveGroups(es);
    CandidatesComplete(es, Keys(es), minCount);
    var p := PatternFor(es, k);
    assert p in multiset(Candidates(es, Keys(es), minCount));
    assert p in FailurePatterns(window, minCount);
  }

  /** The report is ordered by count, most frequent first, and patterns of
      equal count keep the order in which their keys first appeared in the
      window. */
  lemma PatternsOrdered(window: seq<ExecutionResult>, minCount: int, c: int)
    ensures SortedDesc(FailurePatterns(window, minCount), Count)
    ensures WithKey(FailurePatterns(window, minCount), Count, c) == WithKey(Unsorted(window, minCount), Count, c)
  {
    SortDescStable(Unsorted(window, minCount), Count, c);
  }

  /** Failures without an error message are never counted: a window in which
      no failure carries one yields no patterns, whatever the threshold. */
  lemma {:induction false} SilentFailuresYieldNothing(window: seq<ExecutionResult>, minCount: int)
    requires forall i :: 0 <= i < |window| ==> window[i].errorMessage.None? || window[i].errorMessage.value == ""
    ensures FailurePatterns(window, minCount) == []
  {
    NoEntries(window);
  }

  lemma {:induction false} NoEntries(window: seq<ExecutionResult>)
    requires forall i :: 0 <= i < |window| ==> window[i].errorMessage.None? || window[i].errorMessage.value == ""
    ensures Entries(window) == []
  {
    if window != [] {
      NoEntries(window[..|window| - 1]);
    }
  }

  /** Two timeouts and one refused connection, most recent first: with the
      default threshold of two only the timeouts are reported, with their
      latest start time and both messages. */
  lemma PatternsExample(w: string)
    ensures FailurePatterns(ExampleWindow(w), 2) == [FailurePattern("timeout", 2, 30, ["Connection timeout", "Request timeout"])]
  {
    ExampleUnsorted(w);
    var p := FailurePattern("timeout", 2, 30, ["Connection timeout", "Request timeout"]);
    assert [p][1..] == [];
  }

  function ExampleWindow(w: string): seq<ExecutionResult> {
    [ExecutionResult(w, Failed, 30, errorMessage := Some("Connection timeout")),
     ExecutionResult(w, Failed, 20, errorMessage := Some("Connection refused")),
     ExecutionResult(w, Failed, 10, errorMessage := Some("Request timeout"))]
  }

  lemma ExampleEntries(w: string)
    ensures Entries(ExampleWindow(w)) == [Entry("timeout", "Connection timeout", 30), Entry("network_error", "Connection refused", 20),
                                          Entry("timeout", "Request timeout", 10)]
  {
    var ws := ExampleWindow(w);
    TimeoutBeatsConnection();
    RequestTimeoutKey();
    RefusedConnectionKey();
    assert ws[..2][..1][..0] == [];
    assert Entries(ws[..1]) == [Entry("timeout", "Connection timeout", 30)];
    assert Entries(ws[..2]) == [Entry("timeout", "Connection timeout", 30), Entry("network_error", "Connection refused", 20)];
  }

  lemma ExampleUnsorted(w: string)
    ensures Unsorted(ExampleWindow(w), 2) == [FailurePattern("timeout", 2, 30, ["Connection timeout", "Request timeout"])]
  {
    ExampleEntries(w);
    var ea := Entry("timeout", "Connection timeout", 30);
    var eb := Entry("network_error", "Connection refused", 20);
    var ec := Entry("timeout", "Request timeout", 10);
    ExampleGrouping(ea, eb, ec);
    ExampleCandidates([ea, eb, ec], ea, eb, ec);
  }

  lemma ExampleCandidates(es: seq<Entry>, ea: Entry, eb: Entry, ec: Entry)
    requires ea == Entry("timeout", "Connection timeout", 30) && ec == Entry("timeout", "Request timeout", 10)
    requires Group(es, "timeout") == [ea, ec] && Group(es, "network_error") == [eb]
    ensures Candidates(es, ["timeout", "network_error"], 2) == [FailurePattern("timeout", 2, 30, ["Connection timeout", "Request timeout"])]
  {
    var ks := ["timeout", "network_error"];
    assert [ea, ec][..1] == [ea];
    assert LastSeen([ea, ec]) == 30;
    assert PatternFor(es, "timeout") == FailurePattern("timeout", 2, 30, ["Connection timeout", "Request timeout"]);
    assert ks[..1] == ["timeout"] && ["timeout"][..0] == [];
  }

  lemma ExampleGrouping(ea: Entry, eb: Entry, ec: Entry)
    requires ea.key == ec.key == "timeout" && eb.key == "network_error"
    ensures Keys([ea, eb, ec]) == ["timeout", "network_error"]
    ensures Group([ea, eb, ec], "timeout") == [ea, ec] && Group([ea, eb, ec], "network_error") == [eb]
  {
    ExampleGroupingTwo(ea, eb);
    GroupingAppend([ea, eb], ec);
    assert [ea, eb] + [ec] == [ea, eb, ec];
    assert Group([ea, eb, ec], "timeout") == Group([ea, eb], "timeout") + [ec];
    assert Group([ea, eb, ec], "network_error") == Group([ea, eb], "network_error");
  }

  lemma ExampleGroupingTwo(ea: Entry, eb: Entry)
    requires ea.key == "timeout" && eb.key == "network_error"
    ensures Keys([ea, eb]) == ["timeout", "network_error"]
    ensures Group([ea, eb], "timeout") == [ea] && Group([ea, eb], "network_error") == [eb]
  {
    GroupingAppend([], ea);
    assert [] + [ea] == [ea];
    GroupingAppend([ea], eb);
    assert [ea] + [eb] == [ea, eb];
    assert Group([ea, eb], "timeout") == Group([ea], "timeout");
    assert Group([ea, eb], "network_error") == Group([ea], "network_error") + [eb];
  }

  /** Three failures of one workflow, "Connection timeout", "Request timeout"
      and "Permission denied", most recent first: with the threshold of two
      the miner reports exactly one pattern, the timeouts, and leaves out the
      single permission error. */
  lemma TimeoutsOutnumberPermission(w: string)
    ensures FailurePatterns(TimeoutWindow(w), 2) == [FailurePattern("timeout", 2, 30, ["Connection timeout", "Request timeout"])]
    ensures forall p :: p in FailurePatterns(TimeoutWindow(w), 2) ==> p.patternType != "permission_error"
  {
    TimeoutUnsorted(w);
    var p := FailurePattern("timeout", 2, 30, ["Connection timeout", "Request timeout"]);
    assert [p][1..] == [];
  }

  function TimeoutWindow(w: string): seq<ExecutionResult> {
    [ExecutionResult(w, Failed, 30, errorMessage := Some("Connection timeout")),
     ExecutionResult(w, Failed, 20, errorMessage := Some("Request timeout")),
     ExecutionResult(w, Failed, 10, errorMessage := Some("Permission denied"))]
  }

  lemma TimeoutEntries(w: string)
    ensures Entries(TimeoutWindow(w)) == [Entry("timeout", "Connection timeout", 30), Entry("timeout", "Request timeout", 20),
                                          Entry("permission_error", "Permission denied", 10)]
  {
    var ws := TimeoutWindow(w);
    TimeoutBeatsConnection();
    RequestTimeoutKey();
    PermissionDeniedKey();
    assert ws[..2][..1][..0] == [];
    assert Entries(ws[..1]) == [Entry("timeout", "Connection timeout", 30)];
    assert Entries(ws[..2]) == [Entry("timeout", "Connection timeout", 30), Entry("timeout", "Request timeout", 20)];
  }

  lemma TimeoutUnsorted(w: string)
    ensures Unsorted(TimeoutWindow(w), 2) == [FailurePattern("timeout", 2, 30, ["Connection timeout", "Request timeout"])]
  {
    TimeoutEntries(w);
    var ea := Entry("timeout", "Connection timeout", 30);
    var eb := Entry("timeout", "Request timeout", 20);
    var ec := Entry("permission_error", "Permission denied", 10);
    TimeoutGrouping(ea, eb, ec);
    TimeoutCandidates([ea, eb, ec], ea, eb, ec);
  }

  lemma TimeoutCandidates(es: seq<Entry>, ea: Entry, eb: Entry, ec: Entry)
    requires ea == Entry("timeout", "Connection timeout", 30) && eb == Entry("timeout", "Request timeout", 20)
    requires Group(es, "timeout") == [ea, eb] && Group(es, "permission_error") == [ec]
    ensures Candidates(es, ["timeout", "permission_error"], 2) == [FailurePattern("timeout", 2, 30, ["Connection timeout", "Request timeout"])]
  {
    var ks := ["timeout", "permission_error"];
    assert [ea, eb][..1] == [ea];
    assert LastSeen([ea, eb]) == 30;
    assert PatternFor(es, "timeout") == FailurePattern("timeout", 2, 30, ["Connection timeout", "Request timeout"]);
    assert ks[..1] == ["timeout"] && ["timeout"][..0] == [];
  }

  lemma TimeoutGrouping(ea: Entry, eb: Entry, ec: Entry)
    requires ea.key == eb.key == "timeout" && ec.key == "permission_error"
    ensures Keys([ea, eb, ec]) == ["timeout", "permission_error"]
    ensures Group([ea, eb, ec], "timeout") == [ea, eb] && Group([ea, eb, ec], "permission_error") == [ec]
  {
    GroupingAppend([], ea);
    assert [] + [ea] == [ea];
    GroupingAppend([ea], eb);
    assert [ea] + [eb] == [ea, eb];
    GroupingAppend([ea, eb], ec);
    assert [ea, eb] + [ec] == [ea, eb, ec];
    assert Group([ea, eb, ec], "timeout") == Group([ea, eb], "timeout") == Group([ea], "timeout") + [eb];
    assert Group([ea, eb, ec], "permission_error") == Group([ea, eb], "permission_error") + [ec];
  }

  lemma RequestTimeoutKey()
    ensures PatternKey("Request timeout") == "timeout"
  {
    var lower := "request timeout";
    assert Lower("Request timeout") == lower;
    assert OccursAt(lower, "timeout", 8);
  }

  /** A refused connection is a network error. */
  lemma RefusedConnectionKey()
    ensures PatternKey("Connection refused") == "network_error"
  {
    var lower := "connection refused";
    assert Lower("Connection refused") == lower;
    MissingCharNotContained(lower, "timeout", 'm');
    assert OccursAt(lower, "connection", 0);
  }

  /** What the grouping dictionary holds for one key. */
  datatype Acc = Acc(count: int, messages: seq<string>, lastSeen: int)

  /** The dictionary entry of a non-empty group. */
  function AccOf(g: seq<Entry>): Acc
    requires g != []
  {
    Acc(|g|, Messages(g), LastSeen(g))
  }

  /** Adding one failure to the window adds at most one entry, at the end. */
  lemma EntriesAppend(window: seq<ExecutionResult>, f: ExecutionResult)
    ensures Entries(window + [f]) == Entries(window) +
      (if f.errorMessage.Some? && f.errorMessage.value != ""
       then [Entry(PatternKey(f.errorMessage.value), f.errorMessage.value, f.startedAt)] else [])
  {
    assert (window + [f])[..|window|] == window;
  }

  /** A new entry extends its own key's group and creates that key if it is
      new; every other group is unchanged. */
  lemma GroupingAppend(es: seq<Entry>, e: Entry)
    ensures Keys(es + [e]) == if e.key in Keys(es) then Keys(es) else Keys(es) + [e.key]
    ensures forall k :: Group(es + [e], k) == Group(es, k) + (if e.key == k then [e] else [])
  {
    assert (es + [e])[..|es|] == es;
  }

  /** The dictionary update for one more entry of a group: one more, its
      message appended, and the later of the two start times. */
  lemma AccAppend(g: seq<Entry>, e: Entry)
    ensures g == [] ==> AccOf(g + [e]) == Acc(1, [e.message], e.startedAt)
    ensures g != [] ==> (AccOf(g + [e]) ==
      Acc(AccOf(g).count + 1, AccOf(g).messages + [e.message],
          if e.startedAt > AccOf(g).lastSeen then e.startedAt else AccOf(g).lastSeen))
  {
    assert (g + [e])[..|g|] == g;
  }

  /** The grouping dictionary and its insertion order agree with the
      entries `es` seen so far. */
  ghost predicate Grouped(order: seq<string>, groups: map<string, Acc>, es: seq<Entry>) {
    order == Keys(es) &&
    (forall k :: k in groups <==> k in order) &&
    (forall k :: k in groups ==> Group(es, k) != [] && groups[k] == AccOf(Group(es, k)))
  }

  /** The grouping pass of `get_failure_patterns`: a dictionary from key
      to count, messages and latest start, filled in window order, and the
      order in which its keys were inserted. */
  method GroupFailures(failures: seq<ExecutionResult>) returns (order: seq<string>, groups: map<string, Acc>)
    ensures order == Keys(Entries(failures))
    ensures forall k :: k in groups <==> k in order
    ensures forall k :: k in groups ==>
      (Group(Entries(failures), k) != [] && groups[k] == AccOf(Group(Entries(failures), k)))
  {
    order := [];
    groups := map[];
    var i := 0;
    while i < |failures|
      invariant 0 <= i <= |failures|
      invariant Grouped(order, groups, Entries(failures[..i]))
    {
      assert failures[..i + 1] == failures[..i] + [failures[i]];
      order, groups := GroupRecord(order, groups, failures[..i], failures[i]);
      i := i + 1;
    }
    assert failures[..i] == failures;
  }

  /** The grouping pass visits one record: only a record with a non-empty
      error message contributes an entry. */
  method GroupRecord(order: seq<string>, groups: map<string, Acc>, ghost window: seq<ExecutionResult>, f: ExecutionResult)
    returns (order': seq<string>, groups': map<string, Acc>)
    requires Grouped(order, groups, Entries(window))
    ensures Grouped(order', groups', Entries(window + [f]))
  {
    EntriesAppend(window, f);
    ghost var es := Entries(window);
    if f.errorMessage.Some? && f.errorMessage.value != "" {
      var e := Entry(PatternKey(f.errorMessage.value), f.errorMessage.value, f.startedAt);
      assert Entries(window + [f]) == es + [e];
      order', groups' := AddEntry(order, groups, es, e);
    } else {
      assert Entries(window + [f]) == es + [] == es;
      order', groups' := order, groups;
    }
  }

  /** One iteration of the grouping pass: a new key is inserted with a
      count of one; a known key's count grows by one, its message is
      appended and its last-seen time moves to the later start. */
  method AddEntry(order: seq<string>, groups: map<string, Acc>, ghost es: seq<Entry>, e: Entry)
    returns (order': seq<string>, groups': map<string, Acc>)
    requires Grouped(order, groups, es)
    ensures Grouped(order', groups', es + [e])
  {
    GroupingAppend(es, e);
    AccAppend(Group(es, e.key), e);
    var acc: Acc;
    if e.key !in groups {
      AbsentKeyHasNoGroup(es, e.key);
      acc := Acc(1, [e.message], e.startedAt);
      order' := order + [e.key];
    } else {
      var a := groups[e.key];
      acc := Acc(a.count + 1, a.messages + [e.message], if e.startedAt > a.lastSeen then e.startedAt else a.lastSeen);
      order' := order;
    }
    assert acc == AccOf(Group(es + [e], e.key));
    groups' := groups[e.key := acc];
    forall k | k in groups'
      ensures Group(es + [e], k) != [] && groups'[k] == AccOf(Group(es + [e], k))
    {
      if k != e.key {
        assert k in groups;
        assert Group(es + [e], k) == Group(es, k);
      }
    }
  }

  /** The candidates of one more key. */
  lemma CandidatesAppend(es: seq<Entry>, ks: seq<string>, k: string, minCount: int)
    requires Group(es, k) != []
    ensures Candidates(es, ks + [k], minCount) ==
      Candidates(es, ks, minCount) + (if |Group(es, k)| >= minCount then [PatternFor(es, k)] else [])
  {
    assert (ks + [k])[..|ks|] == ks;
  }

  /** One iteration of the filtering pass extends the candidates of the
      keys seen so far by the candidate of the next key. */
  lemma FrequentStep(order: seq<string>, groups: map<string, Acc>, minCount: int, es: seq<Entry>, j: nat)
    requires forall k :: k in order ==> k in groups && Group(es, k) != [] && groups[k] == AccOf(Group(es, k))
    requires j < |order|
    ensures var a := groups[order[j]];
      Candidates(es, order[..j + 1], minCount) ==
        Candidates(es, order[..j], minCount) +
        (if a.count >= minCount then [FailurePattern(order[j], a.count, a.lastSeen, FirstFive(a.messages))] else [])
  {
    var key := order[j];
    assert order[..j + 1] == order[..j] + [key];
    CandidatesAppend(es, order[..j], key, minCount);
  }

  /** The filtering pass: the keys, in insertion order, whose count reaches
      `minCount`, each with its first five messages. */
  method FrequentPatterns(order: seq<string>, groups: map<string, Acc>, minCount: int, ghost es: seq<Entry>)
    returns (result: seq<FailurePattern>)
    requires forall k :: k in order ==> k in groups && Group(es, k) != [] && groups[k] == AccOf(Group(es, k))
    ensures result == Candidates(es, order, minCount)
  {
    result := [];
    var j := 0;
    while j < |order|
      invariant 0 <= j <= |order|
      invariant result == Candidates(es, order[..j], minCount)
    {
      FrequentStep(order, groups, minCount, es, j);
      var a := groups[order[j]];
      if a.count >= minCount {
        result := result + [FailurePattern(order[j], a.count, a.lastSeen, FirstFive(a.messages))];
      }
      j := j + 1;
    }
    assert order[..j] == order;
  }

  class HistoryStore {
    /** The execution records, in the order they were saved. */
    var log: seq<ExecutionResult>

    /** Opening a store shows the records saved before. */
    constructor (saved: seq<ExecutionResult>)
      ensures log == saved
    {
      log := saved;
    }

    /** `save_execution`: append the record; its id is its position. */
    method SaveExecution(result: ExecutionResult) returns (id: int)
      modifies this
      ensures log == old(log) + [result]
      ensures id == |log| && log[id - 1] == result
    {
      log := log + [result];
      id := |log|;
    }

    /** `get_failure_patterns`: group the window's failures by key in a
        dictionary (count, messages, latest start), keep the keys that reach
        `minCount`, and sort them by count, most frequent first. */
    method GetFailurePatterns(workflowName: string, minCount: int := 2) returns (patterns: seq<FailurePattern>)
      ensures patterns == FailurePatterns(Window(log, workflowName), minCount)
    {
      var failures := GetExecutions(log, Some(workflowName), Some(Failed), 50);
      if failures == [] {
        return [];
      }
      var order, groups := GroupFailures(failures);
      var result := FrequentPatterns(order, groups, minCount, Entries(failures));
      assert result == Unsorted(failures, minCount);
      patterns := SortDesc(result, Count);
    }
  }
}
