/** The shell runner's command gate: a static, side-effect-free decision
    whether a command string may run, from deny patterns (substrings) and an
    optional allow-list of program names.

    The deny patterns are held in a set, which Python visits in an order of
    its own choosing. The model keeps them as a duplicate-free sequence,
    `denyOrder`, that stands for that visiting order: the gate reports the
    first matching pattern in it. What is proved about the reason holds for
    every order, since it only says "some matching pattern". */
module CommandGate {
  import opened Wrappers
  import opened Text

  /** The deny patterns used when none are configured: a recursive root
      delete, a privileged delete, a filesystem format, a raw disk write and
      the classic fork bomb. */
  const DefaultDenied: seq<string> := ["rm -rf /", "sudo rm", "mkfs", "dd if=", ":(){:|:&};:"]

  ghost predicate NoDuplicates(s: seq<string>) {
    forall i, j :: 0 <= i < j < |s| ==> s[i] != s[j]
  }

  /** `set(xs)` visited in first-occurrence order: each element of `xs` once. */
  function Distinct(xs: seq<string>): (r: seq<string>)
    ensures NoDuplicates(r)
    ensures forall p :: p in r <==> p in xs
    ensures |r| <= |xs|
  {
    if xs == [] then []
    else
      var rest := Distinct(xs[..|xs| - 1]);
      var last := xs[|xs| - 1];
      assert xs == xs[..|xs| - 1] + [last];
      if last in rest then rest else rest + [last]
  }

  /** `set(denied_commands or DEFAULTS)`: an absent or empty list falls back
      to the default patterns, so configuration can never leave the gate
      without deny patterns. */
  function ResolveDenied(denied: Option<seq<string>>): (r: seq<string>)
    ensures NoDuplicates(r)
    ensures |r| > 0
    ensures (denied.None? || denied.value == []) ==> r == DefaultDenied
    ensures denied.Some? && denied.value != [] ==> forall p :: p in r <==> p in denied.value
  {
    if denied.None? || denied.value == [] then DefaultDenied
    else
      assert denied.value[0] in Distinct(denied.value);
      Distinct(denied.value)
  }

  /** `set(allowed_commands or [])`: an absent list means no allow-list. */
  function ResolveAllowed(allowed: Option<seq<string>>): (r: set<string>)
    ensures forall p :: p in r <==> allowed.Some? && p in allowed.value
  {
    if allowed.None? then {} else set p | p in allowed.value
  }

  /** The deny loop: the first pattern, in visiting order, that occurs in the
      command. */
  function FirstDenied(denyOrder: seq<string>, command: string): (r: Option<string>)
    ensures r.Some? ==> r.value in denyOrder && Contains(command, r.value)
    ensures r.None? <==> forall p :: p in denyOrder ==> !Contains(command, p)
  {
    if denyOrder == [] then None
    else if Contains(command, denyOrder[0]) then Some(denyOrder[0])
    else
      var r := FirstDenied(denyOrder[1..], command);
      assert forall p :: p in denyOrder ==> p == denyOrder[0] || p in denyOrder[1..];
      r
  }

  /** The program name the allow-list is checked against: the first
      whitespace-separated token, or "" for a blank command. */
  function CommandName(command: string): (r: string)
    ensures r == "" <==> AllSpace(command)
    ensures forall k :: 0 <= k < |r| ==> !IsSpace(r[k])
  {
    match FirstWord(command)
    case None => ""
    case Some(w) => w
  }

  /** The program name is where the stripped command begins. */
  lemma CommandNameStartsStripped(command: string)
    ensures CommandName(command) != "" ==> StartsWith(Strip(command), CommandName(command))
  {
    var i := SkipSpace(command, 0);
    if i < |command| {
      var j := SkipWord(command, i);
      assert AllSpace(command[..i]);
      StripPrefixWord(command, i, command[i..j]);
    }
  }

  /** A word that starts right after the leading whitespace starts the
      stripped text too. */
  lemma StripPrefixWord(s: string, i: nat, w: string)
    requires i + |w| <= |s| && AllSpace(s[..i]) && s[i..i + |w|] == w && |w| > 0
    requires forall k :: 0 <= k < |w| ==> !IsSpace(w[k])
    ensures StartsWith(Strip(s), w)
  {
    var lo := SkipSpace(s, 0);
    assert s[i] == w[0];
    assert lo == i;
    var hi := TrimEnd(s, lo, |s|);
    assert s[i + |w| - 1] == w[|w| - 1];
    assert hi >= i + |w|;
    assert Strip(s) == s[lo..hi];
    assert s[lo..hi][..|w|] == w;
  }

  /** The gate's verdict: whether the command may run and, if not, why. */
  datatype Verdict = Verdict(allowed: bool, reason: Option<string>)

  /** `_is_command_allowed`: the deny check first, then, with a non-empty
      allow-list, the program-name check. */
  function IsCommandAllowed(denyOrder: seq<string>, allowed: set<string>, command: string): (v: Verdict)
    ensures v.allowed <==>
      (forall p :: p in denyOrder ==> !Contains(command, p)) &&
      (allowed == {} || CommandName(command) in allowed)
    ensures v.allowed <==> v.reason.None?
    ensures (exists p :: p in denyOrder && Contains(command, p)) ==>
      exists p :: p in denyOrder && Contains(command, p) && v.reason == Some("Denied command pattern: " + p)
    ensures (forall p :: p in denyOrder ==> !Contains(command, p)) && allowed != {} && CommandName(command) !in allowed ==>
      v.reason == Some("Command not in allowed list: " + CommandName(command))
  {
    match FirstDenied(denyOrder, command)
    case Some(p) => Verdict(false, Some("Denied command pattern: " + p))
    case None =>
      if allowed != {} && CommandName(command) !in allowed then
        Verdict(false, Some("Command not in allowed list: " + CommandName(command)))
      else
        Verdict(true, None)
  }

  /** A command holding a deny pattern is refused whatever surrounds the
      pattern, even when its program name is on the allow-list. */
  lemma DeniedAnywhere(denyOrder: seq<string>, allowed: set<string>, before: string, p: string, after: string)
    requires p in denyOrder
    ensures !IsCommandAllowed(denyOrder, allowed, before + p + after).allowed
  {
    var command := before + p + after;
    assert command[|before|..|before| + |p|] == p;
    ContainsAt(command, p, |before|);
  }

  /** With no allow-list, exactly the commands free of deny patterns pass. */
  lemma NoAllowListOnlyDenies(denyOrder: seq<string>, command: string)
    ensures IsCommandAllowed(denyOrder, {}, command).allowed <==> FirstDenied(denyOrder, command).None?
  {
  }

  /** The default deny set blocks the fork bomb and a recursive root delete
      wherever they appear in a command line. */
  lemma DefaultsBlock(allowed: set<string>, before: string, after: string)
    ensures !IsCommandAllowed(ResolveDenied(None), allowed, before + "rm -rf /" + after).allowed
    ensures !IsCommandAllowed(ResolveDenied(Some([])), allowed, before + ":(){:|:&};:" + after).allowed
  {
    DeniedAnywhere(DefaultDenied, allowed, before, "rm -rf /", after);
    DeniedAnywhere(DefaultDenied, allowed, before, ":(){:|:&};:", after);
  }
}
