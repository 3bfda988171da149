/** The orchestrator's helpers that read a language model's reply: which
    language a script is written in, the code inside the first fenced block,
    and the prose around the blocks. All three are pure string functions. */
module ResponseParsing {
  import opened Wrappers
  import opened Text
  import opened Models

  // ---------------------------------------------------------------------
  // Language detection

  /** The first 100 characters of `s`: Python's `s[:100]`. */
  function Head(s: string): (h: string)
    ensures |h| <= 100 && StartsWith(s, h)
    ensures |s| <= 100 ==> h == s
  {
    if |s| <= 100 then s else s[..100]
  }

  /** `_detect_language`: a shell shebang first, then a Python shebang or an
      import near the top, then shell idioms anywhere, Python by default. */
  function DetectLanguage(code: string): (r: string)
    ensures ParseLanguage(r).Some?
  {
    if StartsWith(code, "#!/bin/bash") || StartsWith(code, "#!/bin/sh") then "bash"
    else if StartsWith(code, "#!/usr/bin/env python") || Contains(Head(code), "import ") then "python"
    else if Contains(code, "echo ") || Contains(code, "set -e") then "bash"
    else "python"
  }

  /** A shell shebang decides, whatever follows it. */
  lemma ShellShebangWins(rest: string)
    ensures DetectLanguage("#!/bin/bash" + rest) == "bash"
    ensures DetectLanguage("#!/bin/sh" + rest) == "bash"
  {
    assert ("#!/bin/bash" + rest)[..|"#!/bin/bash"|] == "#!/bin/bash";
    assert ("#!/bin/sh" + rest)[..|"#!/bin/sh"|] == "#!/bin/sh";
  }

  /** A Python shebang makes the script Python, whatever follows it, even
      if it echoes: the shell shebangs differ from it in their fourth
      character. */
  lemma PythonShebangWins(rest: string)
    ensures DetectLanguage("#!/usr/bin/env python" + rest) == "python"
  {
    var code := "#!/usr/bin/env python" + rest;
    assert code[..|"#!/usr/bin/env python"|] == "#!/usr/bin/env python";
    assert code[3] == 'u';
    assert !StartsWith(code, "#!/bin/bash") && !StartsWith(code, "#!/bin/sh");
  }

  /** Without a shell shebang, an "import " that lies wholly within the
      first 100 characters makes the script Python, even if it echoes. */
  lemma EarlyImportIsPython(code: string, i: nat)
    requires !StartsWith(code, "#!/bin/bash") && !StartsWith(code, "#!/bin/sh")
    requires OccursAt(code, "import ", i) && i + 7 <= 100
    ensures DetectLanguage(code) == "python"
  {
    var h := Head(code);
    assert h[i..i + 7] == code[i..i + 7];
    ContainsAt(h, "import ", i);
  }

  /** Without either shebang and without an early import, a script is shell
      exactly when it echoes or sets -e. */
  lemma ShellIdioms(code: string)
    requires !StartsWith(code, "#!/bin/bash") && !StartsWith(code, "#!/bin/sh")
    requires !StartsWith(code, "#!/usr/bin/env python") && !Contains(Head(code), "import ")
    ensures DetectLanguage(code) == "bash" <==> Contains(code, "echo ") || Contains(code, "set -e")
  {
  }

  // ---------------------------------------------------------------------
  // Fenced blocks

  const Fence: string := "```"

  /** The tags the code-extraction pattern accepts after an opening fence. */
  const Tags: seq<string> := ["python", "bash", "sh", ""]

  /** The first position at or after `from` where `sub` occurs. */
  function FindFrom(s: string, sub: string, from: nat): (r: Option<nat>)
    decreases |s| - from
    ensures r.Some? ==> from <= r.value && OccursAt(s, sub, r.value)
    ensures r.Some? ==> forall p: nat :: from <= p < r.value ==> !OccursAt(s, sub, p)
    ensures r.None? ==> forall p: nat :: from <= p ==> !OccursAt(s, sub, p)
  {
    if from + |sub| > |s| then None
    else if OccursAt(s, sub, from) then Some(from)
    else FindFrom(s, sub, from + 1)
  }

  /** The length of the opening line when `s` starts with a fence, an
      accepted tag and a newline. No two tags' opening lines can both
      start `s`, so at most one applies. */
  function OpeningLength(s: string): (r: Option<nat>)
    ensures r.Some? ==> |s| >= 3 && s[..3] == Fence && 4 <= r.value <= |s|
  {
    if StartsWith(s, "```python\n") then Some(10)
    else if StartsWith(s, "```bash\n") then Some(8)
    else if StartsWith(s, "```sh\n") then Some(6)
    else if StartsWith(s, "```\n") then Some(4)
    else None
  }

  /** An opening line that is found is a fence, an accepted tag and a
      newline. */
  lemma OpeningLengthSound(s: string)
    ensures OpeningLength(s).Some? ==>
      exists t :: t in Tags && OpeningLength(s).value == |t| + 4 && StartsWith(s, Fence + t + "\n")
  {
    if StartsWith(s, "```python\n") {
      assert Fence + Tags[0] + "\n" == "```python\n";
    } else if StartsWith(s, "```bash\n") {
      assert Fence + Tags[1] + "\n" == "```bash\n";
    } else if StartsWith(s, "```sh\n") {
      assert Fence + Tags[2] + "\n" == "```sh\n";
    } else if StartsWith(s, "```\n") {
      assert Fence + Tags[3] + "\n" == "```\n";
    }
  }

  /** The body of the leftmost fenced block: an opening line, then
      everything up to the first fence after it. A position whose opening
      line has no closing fence is passed over. */
  function FirstBlock(s: string): (r: Option<string>)
    ensures r.Some? ==> Contains(s, Fence) && !Contains(r.value, Fence) && |r.value| + 7 <= |s|
    decreases |s|
  {
    if |s| < 3 then None
    else
      ContainsInTail(s, Fence);
      match OpeningLength(s)
      case Some(j) =>
        (match FindFrom(s, Fence, j)
         case Some(k) =>
           ContainsAt(s, Fence, 0);
           BodyBeforeFence(s, j, k);
           Some(s[j..k])
         case None => FirstBlock(s[1..]))
      case None => FirstBlock(s[1..])
  }

  /** The text from `j` up to the first fence at or after `j` holds no
      fence: the block body of the non-greedy pattern. */
  lemma BodyBeforeFence(s: string, j: nat, k: nat)
    requires FindFrom(s, Fence, j) == Some(k)
    ensures j <= k && !Contains(s[j..k], Fence)
  {
    if Contains(s[j..k], Fence) {
      var q: nat :| q <= |s[j..k]| && OccursAt(s[j..k], Fence, q);
      assert s[j + q..j + q + 3] == s[j..k][q..q + 3];
      assert OccursAt(s, Fence, j + q);
    }
  }

  /** `_extract_code_from_response`: the stripped body of the first block,
      or the whole reply stripped when there is none. */
  function ExtractCode(response: string): (r: string)
    ensures r == [] || (!IsSpace(r[0]) && !IsSpace(r[|r| - 1]))
    ensures !Contains(response, Fence) ==> r == Strip(response)
    ensures FirstBlock(response).Some? ==> !Contains(r, Fence)
  {
    match FirstBlock(response)
    case Some(body) => StripKeepsAbsence(body, Fence); Strip(body)
    case None => Strip(response)
  }

  /** `body` between two fences. */
  function Fenced(body: string): (r: string)
    ensures |r| == |body| + 6 && r[..3] == Fence && r[|r| - 3..] == Fence
  {
    Fence + body + Fence
  }

  /** What a fenced block is replaced with in the explanation. */
  const Placeholder: string := "[code block shown above]"

  /** Every block, from a fence to the first fence after it, replaced by the
      placeholder, left to right. Once a fence has no closing fence no later
      block can close either, so the rest is kept as it is. */
  function ReplaceBlocks(s: string): (r: string)
    ensures !Contains(s, Fence) ==> r == s
    decreases |s|
  {
    if |s| < 3 then s
    else if s[..3] == Fence then
      ContainsAt(s, Fence, 0);
      match FindFrom(s, Fence, 3)
      case Some(k) => Placeholder + ReplaceBlocks(s[k + 3..])
      case None => s
    else
      ContainsInTail(s, Fence);
      assert s == [s[0]] + s[1..];
      [s[0]] + ReplaceBlocks(s[1..])
  }

  /** `_extract_explanation`: the reply with its blocks replaced, stripped. */
  function ExtractExplanation(response: string): (r: string)
    ensures r == [] || (!IsSpace(r[0]) && !IsSpace(r[|r| - 1]))
    ensures !Contains(response, Fence) ==> r == Strip(response)
  {
    Strip(ReplaceBlocks(response))
  }

  // ---------------------------------------------------------------------
  // What the parsers compute

  /** A suffix of text without a fence has no fence. */
  lemma NoFenceInSuffix(a: string, b: string)
    requires !Contains(a + b, Fence)
    ensures !Contains(b, Fence)
  {
    forall p: nat | p <= |b| && OccursAt(b, Fence, p) ensures false {
      assert (a + b)[|a| + p..|a| + p + 3] == b[p..p + 3];
      ContainsAt(a + b, Fence, |a| + p);
    }
  }

  /** No fence starts inside a window of `s` that holds none. */
  lemma NoFenceInside(s: string, off: nat, t: string)
    requires off + |t| <= |s| && s[off..off + |t|] == t && !Contains(t, Fence)
    ensures forall p: nat :: off <= p && p + 3 <= off + |t| ==> !OccursAt(s, Fence, p)
  {
    forall p: nat | off <= p && p + 3 <= off + |t| && OccursAt(s, Fence, p) ensures false {
      var q := p - off;
      assert t[q..q + 3] == s[p..p + 3] by {
        forall m | q <= m < q + 3 ensures t[m] == s[off + m] {
          assert t[m] == s[off..off + |t|][m];
        }
      }
      ContainsAt(t, Fence, p - off);
    }
  }

  /** Text that begins like a fence-free text of three or more characters
      does not begin with a fence. */
  lemma NoFenceAtStart(s: string, t: string)
    requires |t| >= 3 && |s| >= 3 && s[..3] == t[..3] && !Contains(t, Fence)
    ensures s[..3] != Fence
  {
    if s[..3] == Fence {
      ContainsAt(t, Fence, 0);
    }
  }

  /** The search finds `k` when a fence starts there and none before it. */
  lemma {:induction false} FindFromIs(s: string, from: nat, k: nat)
    requires from <= k && OccursAt(s, Fence, k)
    requires forall p: nat :: from <= p < k ==> !OccursAt(s, Fence, p)
    ensures FindFrom(s, Fence, from) == Some(k)
    decreases k - from
  {
    if from < k {
      FindFromIs(s, from + 1, k);
    }
  }

  /** Dropping the first character of a prefix that starts no fence keeps
      it fence-free, and text that continues such a prefix with a fence
      does not begin with a fence. */
  lemma ShiftPrefix(pre: string, tail: string)
    requires pre != [] && !Contains(pre + "``", Fence)
    requires |tail| >= 3 && tail[..3] == Fence
    ensures !Contains(pre[1..] + "``", Fence)
    ensures |pre + tail| >= 3 && (pre + tail)[..3] != Fence
    ensures (pre + tail)[1..] == pre[1..] + tail
  {
    var t := pre + "``";
    assert (pre + tail)[..3] == t[..3] by {
      forall m | 0 <= m < 3 ensures (pre + tail)[m] == t[m] {
        if m >= |pre| {
          assert tail[m - |pre|] == '`';
        }
      }
    }
    NoFenceAtStart(pre + tail, t);
    assert t == pre[..1] + (pre[1..] + "``");
    NoFenceInSuffix(pre[..1], pre[1..] + "``");
  }

  /** A block at the very start is replaced by the placeholder. */
  lemma ReplaceBlockAtStart(body: string, post: string)
    requires !Contains(body + "``", Fence)
    ensures ReplaceBlocks(Fenced(body) + post) == Placeholder + ReplaceBlocks(post)
  {
    var s := Fenced(body) + post;
    var k := 3 + |body|;
    assert s == Fence + (body + "``") + ("`" + post);
    assert s[3..k + 2] == body + "``";
    NoFenceInside(s, 3, body + "``");
    assert s[k..k + 3] == Fence;
    FindFromIs(s, 3, k);
    assert s[..3] == Fence;
    assert s[k + 3..] == post;
  }

  /** The first block is replaced by the placeholder, and the text before it
      is kept: given a prefix in which no fence starts (not even one that
      runs into the block's own fence) and a block body that holds no fence
      (not even one that runs into the closing fence). */
  lemma {:induction false} ReplaceFirstBlock(pre: string, body: string, post: string)
    requires !Contains(pre + "``", Fence) && !Contains(body + "``", Fence)
    ensures ReplaceBlocks(pre + (Fenced(body) + post)) == pre + Placeholder + ReplaceBlocks(post)
    decreases |pre|
  {
    var tail := Fenced(body) + post;
    if pre == [] {
      assert pre + tail == tail;
      ReplaceBlockAtStart(body, post);
    } else {
      ShiftPrefix(pre, tail);
      ReplaceFirstBlock(pre[1..], body, post);
      ReplaceBlocksStep(pre + tail);
      assert (pre + tail)[0] == pre[0];
      ConsRest(pre, Placeholder, ReplaceBlocks(post));
    }
  }

  /** Where no fence starts, the first character is kept as it is. */
  lemma ReplaceBlocksStep(s: string)
    requires |s| >= 3 && s[..3] != Fence
    ensures ReplaceBlocks(s) == [s[0]] + ReplaceBlocks(s[1..])
  {
  }

  lemma ConsRest(pre: string, mid: string, rest: string)
    requires pre != []
    ensures [pre[0]] + (pre[1..] + mid + rest) == pre + mid + rest
  {
    assert pre == [pre[0]] + pre[1..];
  }

  /** The explanation of a reply with a single block is the reply with the
      block replaced by the placeholder, stripped. */
  lemma ExplanationOfOneBlock(pre: string, body: string, post: string)
    requires !Contains(pre + "``", Fence) && !Contains(body + "``", Fence) && !Contains(post, Fence)
    ensures ExtractExplanation(pre + (Fenced(body) + post)) == Strip(pre + Placeholder + post)
  {
    ReplaceFirstBlock(pre, body, post);
  }

  /** The code of a reply is the stripped body of its first block, given an
      accepted tag, a prefix in which no fence starts and a body that holds
      no fence. What follows the block does not matter. */
  lemma {:induction false} ExtractFirstBlock(pre: string, tag: string, body: string, post: string)
    requires tag in Tags
    requires !Contains(pre + "``", Fence) && !Contains(body + "``", Fence)
    ensures FirstBlock(pre + (Fenced(tag + "\n" + body) + post)) == Some(body)
    ensures ExtractCode(pre + (Fenced(tag + "\n" + body) + post)) == Strip(body)
    decreases |pre|
  {
    var tail := Fenced(tag + "\n" + body) + post;
    if pre == [] {
      assert pre + tail == tail;
      FirstBlockAtStart(tag, body, post);
    } else {
      ShiftPrefix(pre, tail);
      assert OpeningLength(pre + tail) == None;
      ExtractFirstBlock(pre[1..], tag, body, post);
    }
  }

  /** The opening line of a fence with an accepted tag is recognised. */
  lemma OpeningOfTag(s: string, tag: string)
    requires tag in Tags && StartsWith(s, Fence + tag + "\n")
    ensures OpeningLength(s) == Some(|tag| + 4)
  {
    assert s[..|tag| + 4] == Fence + tag + "\n";
    assert s[3] == (Fence + tag + "\n")[3];
  }

  /** A reply that opens with a block yields that block's body. */
  lemma FirstBlockAtStart(tag: string, body: string, post: string)
    requires tag in Tags && !Contains(body + "``", Fence)
    ensures FirstBlock(Fenced(tag + "\n" + body) + post) == Some(body)
  {
    BlockOpening(tag, body, post);
    BlockClosing(tag, body, post);
  }

  lemma BlockOpening(tag: string, body: string, post: string)
    requires tag in Tags
    ensures OpeningLength(Fenced(tag + "\n" + body) + post) == Some(|tag| + 4)
  {
    var s := Fenced(tag + "\n" + body) + post;
    assert s == (Fence + tag + "\n") + (body + Fence + post);
    OpeningOfTag(s, tag);
  }

  lemma BlockClosing(tag: string, body: string, post: string)
    requires !Contains(body + "``", Fence)
    ensures FindFrom(Fenced(tag + "\n" + body) + post, Fence, |tag| + 4) == Some(|tag| + 4 + |body|)
    ensures (Fenced(tag + "\n" + body) + post)[|tag| + 4..|tag| + 4 + |body|] == body
  {
    FencedSplit(tag, body, post);
    ClosingAfter(Fence + tag + "\n", body, post);
  }

  lemma FencedSplit(tag: string, body: string, post: string)
    ensures Fenced(tag + "\n" + body) + post == (Fence + tag + "\n") + body + Fence + post
  {
  }

  /** The search from `j` stops at a fence at `k` when the text from `j` up
      to two characters past `k` holds no fence. */
  lemma ClosingAt(s: string, j: nat, k: nat)
    requires j <= k && k + 3 <= |s| && s[k..k + 3] == Fence && !Contains(s[j..k + 2], Fence)
    ensures FindFrom(s, Fence, j) == Some(k)
  {
    NoFenceInside(s, j, s[j..k + 2]);
    FindFromIs(s, j, k);
  }

  /** After a head, the first fence is the one that closes a fence-free body. */
  lemma ClosingAfter(head: string, body: string, post: string)
    requires !Contains(body + "``", Fence)
    ensures FindFrom(head + body + Fence + post, Fence, |head|) == Some(|head| + |body|)
    ensures (head + body + Fence + post)[|head|..|head| + |body|] == body
  {
    var s := head + body + Fence + post;
    var j := |head|;
    var k := j + |body|;
    assert s[j..k + 2] == body + "``";
    assert s[k..k + 3] == Fence;
    ClosingAt(s, j, k);
  }
}
