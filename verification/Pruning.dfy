/** The messages of a conversation (pi-ai's, plus the reflection summaries stored beside them). */
module Messages {
  datatype Block =
    | Text(text: string)
    | Thinking(thought: string)
    | Call(id: nat, name: string)

  datatype StopReason = EndTurn | ToolUse | Error | Aborted

  datatype Message =
    | User(text: string)
    | Assistant(content: seq<Block>, stop: StopReason, contextTokens: nat)
    | ToolResult(id: nat, name: string, result: seq<Block>, isError: bool)
    | Summary(text: string)

  predicate SameRole(a: Message, b: Message) {
    a.User? == b.User? && a.Assistant? == b.Assistant? && a.ToolResult? == b.ToolResult?
  }
}

/** Context pruning (context-utils.ts). */
module Pruning {
  import opened Messages

  const EPHEMERAL_TOOLS := {
    "Bash", "SearchWeb", "FetchUrl", "BrowseWeb", "InspectImage", "ReadAgentSessionDetail",
    "ReadAgentLlmCall", "ReadMissionMailboxAll", "SearchMissionHistory", "ReadSharedFile",
    "ReadAgentWorkdirFile", "ReadMissionLog" }

  const PRUNED_STUB :=
    "[Result pruned to reduce context size. Use AnalyzeMemories to retrieve if needed.]"

  /** The positions of the assistant messages, in order. */
  function AssistantIdxs(ms: seq<Message>): (idxs: seq<nat>)
    ensures forall k :: 0 <= k < |idxs| ==> idxs[k] < |ms| && ms[idxs[k]].Assistant?
    ensures forall j, k :: 0 <= j < k < |idxs| ==> idxs[j] < idxs[k]
  {
    if ms == [] then []
    else
      var n := |ms| - 1;
      AssistantIdxs(ms[..n]) + if ms[n].Assistant? then [n] else []
  }

  /** Tool results before this position are stubbed; -1 when nothing is. */
  function ToolPruneBefore(idxs: seq<nat>, keep: nat): int {
    if |idxs| <= keep || keep == 0 then -1 else idxs[|idxs| - keep]
  }

  /** Thinking before this position is dropped; -1 when nothing is. */
  function ThinkPruneBefore(idxs: seq<nat>): int {
    if |idxs| <= 1 then -1 else idxs[|idxs| - 1]
  }

  function NoThinking(content: seq<Block>): (r: seq<Block>)
    ensures forall b :: b in r <==> b in content && !b.Thinking?
    ensures |r| <= |content|
    ensures (forall b :: b in content ==> !b.Thinking?) ==> r == content
  {
    if content == [] then []
    else
      var rest := NoThinking(content[1..]);
      if content[0].Thinking? then rest else [content[0]] + rest
  }

  /** How many of the first blocks are no thinking. */
  function KeptBefore(content: seq<Block>, i: nat): nat
    requires i <= |content|
  {
    if i == 0 then 0 else KeptBefore(content, i - 1) + if content[i - 1].Thinking? then 0 else 1
  }

  lemma {:induction false} NoThinkingConcat(a: seq<Block>, b: seq<Block>)
    ensures NoThinking(a + b) == NoThinking(a) + NoThinking(b)
    decreases |a|
  {
    if a == [] {
      assert a + b == b;
    } else {
      assert (a + b)[1..] == a[1..] + b;
      NoThinkingConcat(a[1..], b);
    }
  }

  lemma {:induction false} NoThinkingOfPrefix(content: seq<Block>, i: nat)
    requires i <= |content|
    ensures |NoThinking(content[..i])| == KeptBefore(content, i)
  {
    if i == 0 {
      assert content[..0] == [];
    } else {
      NoThinkingOfPrefix(content, i - 1);
      assert content[..i] == content[..i - 1] + [content[i - 1]];
      NoThinkingConcat(content[..i - 1], [content[i - 1]]);
    }
  }

  /** Dropping the thinking keeps every other block, in its order, and nothing else. */
  lemma NoThinkingKeepsOrder(content: seq<Block>, i: nat)
    requires i < |content| && !content[i].Thinking?
    ensures |NoThinking(content)| == KeptBefore(content, |content|)
    ensures KeptBefore(content, i) < |NoThinking(content)|
    ensures NoThinking(content)[KeptBefore(content, i)] == content[i]
  {
    NoThinkingOfPrefix(content, i);
    NoThinkingOfPrefix(content, |content|);
    assert content[..|content|] == content && content == content[..i] + content[i..];
    NoThinkingConcat(content[..i], content[i..]);
  }

  function Stub(m: Message): Message
    requires m.ToolResult?
  {
    if m.name in EPHEMERAL_TOOLS && m.result != [Text(PRUNED_STUB)] then m.(result := [Text(PRUNED_STUB)]) else m
  }

  function PruneMessage(m: Message, i: nat, toolBefore: int, thinkBefore: int): (r: Message)
    ensures SameRole(r, m) && (m.ToolResult? ==> r.id == m.id && r.name == m.name)
  {
    if m.Assistant? && thinkBefore >= 0 && i < thinkBefore then m.(content := NoThinking(m.content))
    else if m.ToolResult? && toolBefore >= 0 && i < toolBefore then Stub(m)
    else m
  }

  /** `pruneEphemeralResults(messages, keepLastRounds)`. */
  function Prune(ms: seq<Message>, keep: nat): (r: seq<Message>)
    ensures |r| == |ms|
    ensures forall i :: 0 <= i < |ms| ==> SameRole(r[i], ms[i])
    ensures forall i :: 0 <= i < |ms| && ms[i].ToolResult? ==>
              r[i].ToolResult? && r[i].id == ms[i].id && r[i].name == ms[i].name
    ensures forall i :: 0 <= i < |ms| && !ms[i].Assistant? && !ms[i].ToolResult? ==> r[i] == ms[i]
  {
    var idxs := AssistantIdxs(ms);
    if |idxs| == 0 then ms
    else
      seq(|ms|, i requires 0 <= i < |ms| =>
        PruneMessage(ms[i], i, ToolPruneBefore(idxs, keep), ThinkPruneBefore(idxs)))
  }

  // ------------------------------------------------------------------ once is enough

  lemma {:induction false} RolesDecideIdxs(a: seq<Message>, b: seq<Message>)
    requires |a| == |b| && forall i :: 0 <= i < |a| ==> a[i].Assistant? == b[i].Assistant?
    ensures AssistantIdxs(a) == AssistantIdxs(b)
  {
    if a != [] {
      RolesDecideIdxs(a[..|a| - 1], b[..|b| - 1]);
    }
  }

  lemma {:induction false} IdxsExtend(m: seq<Message>, n: seq<Message>)
    ensures AssistantIdxs(m) <= AssistantIdxs(m + n)
    ensures forall k :: |AssistantIdxs(m)| <= k < |AssistantIdxs(m + n)| ==> AssistantIdxs(m + n)[k] >= |m|
    decreases |n|
  {
    if n == [] {
      assert m + n == m;
    } else {
      assert (m + n)[..|m + n| - 1] == m + n[..|n| - 1];
      IdxsExtend(m, n[..|n| - 1]);
    }
  }

  lemma Increasing(idxs: seq<nat>, j: nat, k: nat)
    requires j <= k < |idxs|
    requires forall a, b :: 0 <= a < b < |idxs| ==> idxs[a] < idxs[b]
    ensures idxs[j] <= idxs[k]
  {
  }

  lemma ThresholdsGrow(a: seq<nat>, b: seq<nat>, keep: nat)
    requires a <= b && forall j, k :: 0 <= j < k < |b| ==> b[j] < b[k]
    ensures ToolPruneBefore(a, keep) <= ToolPruneBefore(b, keep)
    ensures ThinkPruneBefore(a) <= ThinkPruneBefore(b)
  {
    if |a| > keep > 0 {
      Increasing(b, |a| - keep, |b| - keep);
    }
    if |a| > 1 {
      Increasing(b, |a| - 1, |b| - 1);
    }
  }

  lemma PruneAt(ms: seq<Message>, keep: nat, i: nat)
    requires i < |ms|
    ensures Prune(ms, keep)[i] ==
              PruneMessage(ms[i], i, ToolPruneBefore(AssistantIdxs(ms), keep), ThinkPruneBefore(AssistantIdxs(ms)))
  {
    NothingPruned(ms[i], i);
  }

  lemma NothingPruned(m: Message, i: nat)
    ensures PruneMessage(m, i, -1, -1) == m
  {
  }

  lemma PruneMessageTwice(m: Message, i: nat, tool: int, tool': int, think: int, think': int)
    requires tool <= tool' && think <= think'
    ensures PruneMessage(PruneMessage(m, i, tool, think), i, tool', think') == PruneMessage(m, i, tool', think')
  {
  }

  /**
   * Pruning mid-run and pruning again after more messages arrived gives what one
   * pruning at the end would have given.
   */
  lemma PruningIsIncremental(m: seq<Message>, n: seq<Message>, keep: nat)
    ensures Prune(Prune(m, keep) + n, keep) == Prune(m + n, keep)
  {
    var p := Prune(m, keep);
    RolesDecideIdxs(p + n, m + n);
    RolesDecideIdxs(p, m);
    IdxsExtend(m, n);
    ThresholdsGrow(AssistantIdxs(m), AssistantIdxs(m + n), keep);
    forall i | 0 <= i < |m + n| ensures Prune(p + n, keep)[i] == Prune(m + n, keep)[i] {
      PruneAt(p + n, keep, i);
      PruneAt(m + n, keep, i);
      if i < |m| {
        PruneAt(m, keep, i);
        PruneMessageTwice(m[i], i,
          ToolPruneBefore(AssistantIdxs(m), keep), ToolPruneBefore(AssistantIdxs(m + n), keep),
          ThinkPruneBefore(AssistantIdxs(m)), ThinkPruneBefore(AssistantIdxs(m + n)));
      }
    }
  }

  // ------------------------------------------------------------------ what is pruned

  /** How many rounds start after position i: the assistant messages behind it. */
  function RoundsAfter(ms: seq<Message>, i: nat): nat
    requires i < |ms|
    decreases |ms|
  {
    if i == |ms| - 1 then 0
    else RoundsAfter(ms[..|ms| - 1], i) + if ms[|ms| - 1].Assistant? then 1 else 0
  }

  lemma {:induction false} RoundsAfterCountsIdxs(ms: seq<Message>, i: nat, k: nat)
    requires i < |ms| && k <= |AssistantIdxs(ms)|
    requires forall j :: 0 <= j < k ==> AssistantIdxs(ms)[j] <= i
    requires forall j :: k <= j < |AssistantIdxs(ms)| ==> AssistantIdxs(ms)[j] > i
    ensures RoundsAfter(ms, i) == |AssistantIdxs(ms)| - k
    decreases |ms|
  {
    var n := |ms| - 1;
    var idxs, before := AssistantIdxs(ms), AssistantIdxs(ms[..n]);
    if i < n {
      assert idxs == before + if ms[n].Assistant? then [n] else [];
      assert k <= |before| by {
        assert k > 0 ==> idxs[k - 1] <= i;
      }
      assert forall j :: 0 <= j < |before| ==> before[j] == idxs[j];
      RoundsAfterCountsIdxs(ms[..n], i, k);
    } else {
      assert |idxs| > 0 ==> idxs[|idxs| - 1] <= i;
    }
  }

  /** A cut between the assistant positions up to i and those after it. */
  lemma SplitIdxs(idxs: seq<nat>, i: nat) returns (k: nat)
    requires forall a, b :: 0 <= a < b < |idxs| ==> idxs[a] < idxs[b]
    ensures k <= |idxs|
    ensures forall j :: 0 <= j < k ==> idxs[j] <= i
    ensures forall j :: k <= j < |idxs| ==> idxs[j] > i
  {
    k := 0;
    while k < |idxs| && idxs[k] <= i
      invariant k <= |idxs| && forall j :: 0 <= j < k ==> idxs[j] <= i
    {
      k := k + 1;
    }
  }

  /** The tools whose results are stubbed. */
  predicate IsEphemeral(name: string) {
    || name == "Bash" || name == "SearchWeb" || name == "FetchUrl" || name == "BrowseWeb" || name == "InspectImage"
    || name == "ReadAgentSessionDetail" || name == "ReadAgentLlmCall" || name == "ReadMissionMailboxAll"
    || name == "SearchMissionHistory" || name == "ReadSharedFile" || name == "ReadAgentWorkdirFile"
    || name == "ReadMissionLog"
  }

  lemma EphemeralTools(name: string)
    ensures name in EPHEMERAL_TOOLS <==> IsEphemeral(name)
  {
  }

  /**
   * Which messages pruning changes, and how: an ephemeral result with `keep` or
   * more rounds after it becomes the stub (once there are more than `keep` rounds
   * at all), an assistant message with a round after it loses its thinking, and
   * nothing else changes.
   */
  lemma PruneChangesExactly(ms: seq<Message>, keep: nat, i: nat)
    requires i < |ms| && keep > 0
    ensures Prune(ms, keep)[i] ==
      if ms[i].ToolResult? && IsEphemeral(ms[i].name)
         && RoundsAfter(ms, i) >= keep && |AssistantIdxs(ms)| > keep
      then ms[i].(result := [Text(PRUNED_STUB)])
      else if ms[i].Assistant? && RoundsAfter(ms, i) >= 1
      then ms[i].(content := NoThinking(ms[i].content))
      else ms[i]
  {
    PruneAt(ms, keep, i);
    if ms[i].ToolResult? {
      EphemeralTools(ms[i].name);
    }
    var idxs := AssistantIdxs(ms);
    var k := SplitIdxs(idxs, i);
    RoundsAfterCountsIdxs(ms, i, k);
    if |idxs| > keep {
      assert i < idxs[|idxs| - keep] <==> |idxs| - k >= keep;
    }
    if ms[i].Assistant? {
      AssistantIsListed(ms, i);
      assert k >= 1;
      assert |idxs| > 1 ==> (i < idxs[|idxs| - 1] <==> |idxs| - k >= 1);
    }
  }

  lemma {:induction false} AssistantIsListed(ms: seq<Message>, i: nat)
    requires i < |ms| && ms[i].Assistant?
    ensures i in AssistantIdxs(ms)
    decreases |ms|
  {
    if i < |ms| - 1 {
      AssistantIsListed(ms[..|ms| - 1], i);
    }
  }
}
