/**
 * Tool calls and their results in a conversation: what the providers demand of
 * it, and what an interruption leaves of it.
 */
module ToolPairing {
  import opened Messages
  import Seqs

  datatype CallRef = CallRef(id: nat, name: string)

  // ------------------------------------------------------------------ calls and results

  function CallsIn(content: seq<Block>): (cs: seq<CallRef>)
    ensures |cs| <= |content|
  {
    if content == [] then []
    else (if content[0].Call? then [CallRef(content[0].id, content[0].name)] else []) + CallsIn(content[1..])
  }

  lemma {:induction false} CallsInSplits(a: seq<Block>, b: seq<Block>)
    ensures CallsIn(a + b) == CallsIn(a) + CallsIn(b)
    decreases |a|
  {
    if a == [] {
      Seqs.NothingBefore(b);
      Seqs.NothingBefore(CallsIn(b));
    } else {
      CallsInSplits(a[1..], b);
      Seqs.TailOfConcat(a, b);
      Seqs.Regroup(if a[0].Call? then [CallRef(a[0].id, a[0].name)] else [], CallsIn(a[1..]), CallsIn(b));
    }
  }

  /** How many of the first blocks are calls. */
  function CallsBefore(content: seq<Block>, i: nat): nat
    requires i <= |content|
  {
    if i == 0 then 0 else CallsBefore(content, i - 1) + if content[i - 1].Call? then 1 else 0
  }

  lemma {:induction false} CallsOfPrefix(content: seq<Block>, i: nat)
    requires i <= |content|
    ensures |CallsIn(content[..i])| == CallsBefore(content, i)
  {
    if i == 0 {
      assert content[..0] == [];
    } else {
      CallsOfPrefix(content, i - 1);
      assert content[..i] == content[..i - 1] + [content[i - 1]];
      CallsInSplits(content[..i - 1], [content[i - 1]]);
    }
  }

  /** The calls of a message are its call blocks, each with its id and name, in their order. */
  lemma CallsStandInOrder(content: seq<Block>, i: nat)
    requires i < |content| && content[i].Call?
    ensures |CallsIn(content)| == CallsBefore(content, |content|)
    ensures CallsBefore(content, i) < |CallsIn(content)|
    ensures CallsIn(content)[CallsBefore(content, i)] == CallRef(content[i].id, content[i].name)
  {
    CallsOfPrefix(content, i);
    CallsOfPrefix(content, |content|);
    assert content[..|content|] == content && content == content[..i] + content[i..];
    CallsInSplits(content[..i], content[i..]);
  }

  function CallsOf(m: Message): seq<CallRef> {
    if m.Assistant? then CallsIn(m.content) else []
  }

  function Calls(ms: seq<Message>): seq<CallRef> {
    if ms == [] then [] else CallsOf(ms[0]) + Calls(ms[1..])
  }

  function ResultOf(m: Message): seq<CallRef> {
    if m.ToolResult? then [CallRef(m.id, m.name)] else []
  }

  function Results(ms: seq<Message>): seq<CallRef> {
    if ms == [] then [] else ResultOf(ms[0]) + Results(ms[1..])
  }

  ghost predicate Answers(results: seq<Message>, calls: seq<CallRef>) {
    && |results| == |calls|
    && forall i :: 0 <= i < |calls| ==>
         results[i].ToolResult? && results[i].id == calls[i].id && results[i].name == calls[i].name
  }

  /** Each assistant message is directly followed by one result per tool call, in call order; no other results. */
  ghost predicate Paired(ms: seq<Message>)
    decreases |ms|
  {
    ms == [] ||
    (if ms[0].Assistant? then
       var k := |CallsOf(ms[0])|;
       1 + k <= |ms| && Answers(ms[1..1 + k], CallsOf(ms[0])) && Paired(ms[1 + k..])
     else
       !ms[0].ToolResult? && Paired(ms[1..]))
  }

  /** Paired, except that the last assistant message may lack its last results. */
  ghost predicate Cut(ms: seq<Message>)
    decreases |ms|
  {
    ms == [] ||
    (if ms[0].Assistant? then
       var k := |CallsOf(ms[0])|;
       if 1 + k <= |ms| then Answers(ms[1..1 + k], CallsOf(ms[0])) && Cut(ms[1 + k..])
       else Answers(ms[1..], CallsOf(ms[0])[..|ms| - 1])
     else
       !ms[0].ToolResult? && Cut(ms[1..]))
  }

  ghost predicate Distinct(cs: seq<CallRef>) {
    forall i, j :: 0 <= i < j < |cs| ==> cs[i].id != cs[j].id
  }

  lemma {:induction false} PairedThen(a: seq<Message>, b: seq<Message>)
    requires Paired(a)
    ensures Paired(a + b) <==> Paired(b)
    ensures Cut(a + b) <==> Cut(b)
    decreases |a|
  {
    if a == [] {
      Seqs.NothingBefore(b);
    } else {
      var k := if a[0].Assistant? then 1 + |CallsOf(a[0])| else 1;
      PairedThen(a[k..], b);
      Seqs.SlicesOfConcat(a, b, k);
    }
  }

  /** Whatever a crash leaves of a paired conversation is a cut one. */
  lemma {:induction false} PrefixIsCut(ms: seq<Message>, n: nat)
    requires Paired(ms) && n <= |ms|
    ensures Cut(ms[..n])
    decreases |ms|
  {
    if n > 0 {
      var k := if ms[0].Assistant? then 1 + |CallsOf(ms[0])| else 1;
      if k <= n {
        PrefixIsCut(ms[k..], n - k);
        Seqs.SlicesOfPrefix(ms, n, k);
      } else {
        Seqs.ShortPrefix(ms, n, k);
      }
    }
  }

  lemma {:induction false} AnswersAreTheCalls(rs: seq<Message>, cs: seq<CallRef>)
    requires Answers(rs, cs)
    ensures Results(rs) == cs && Calls(rs) == []
    decreases |rs|
  {
    if rs != [] {
      AnswersAreTheCalls(rs[1..], cs[1..]);
      assert cs == [cs[0]] + cs[1..];
    }
  }

  lemma {:induction false} SplitCalls(a: seq<Message>, b: seq<Message>)
    ensures Calls(a + b) == Calls(a) + Calls(b)
    decreases |a|
  {
    if a == [] {
      Seqs.NothingBefore(b);
      Seqs.NothingBefore(Calls(b));
    } else {
      SplitCalls(a[1..], b);
      Seqs.TailOfConcat(a, b);
      Seqs.Regroup(CallsOf(a[0]), Calls(a[1..]), Calls(b));
    }
  }

  lemma {:induction false} SplitResults(a: seq<Message>, b: seq<Message>)
    ensures Results(a + b) == Results(a) + Results(b)
    decreases |a|
  {
    if a == [] {
      Seqs.NothingBefore(b);
      Seqs.NothingBefore(Results(b));
    } else {
      SplitResults(a[1..], b);
      Seqs.TailOfConcat(a, b);
      Seqs.Regroup(ResultOf(a[0]), Results(a[1..]), Results(b));
    }
  }

  lemma AnswersThenRest(now: seq<Message>, cs: seq<CallRef>, rest: seq<Message>)
    requires Answers(now, cs)
    ensures Calls(now + rest) == Calls(rest)
    ensures Results(now + rest) == cs + Results(rest)
  {
    AnswersAreTheCalls(now, cs);
    SplitCalls(now, rest);
    SplitResults(now, rest);
    assert [] + Calls(rest) == Calls(rest);
  }

  /** The calls a cut conversation still lacks the results of: a tail of its last assistant message's. */
  ghost function Missing(ms: seq<Message>): seq<CallRef>
    requires Cut(ms)
    decreases |ms|
  {
    if ms == [] then []
    else if ms[0].Assistant? then
      var k := |CallsOf(ms[0])|;
      if 1 + k <= |ms| then Missing(ms[1 + k..]) else CallsOf(ms[0])[|ms| - 1..]
    else Missing(ms[1..])
  }

  /** A complete first round contributes the same references to the calls and to the results. */
  lemma FirstRound(ms: seq<Message>, k: nat)
    requires ms != [] && ms[0].Assistant? && k == |CallsOf(ms[0])| && 1 + k <= |ms|
    requires Answers(ms[1..1 + k], CallsOf(ms[0]))
    ensures Calls(ms) == CallsOf(ms[0]) + Calls(ms[1 + k..])
    ensures Results(ms) == CallsOf(ms[0]) + Results(ms[1 + k..])
  {
    AnswersThenRest(ms[1..1 + k], CallsOf(ms[0]), ms[1 + k..]);
    assert ms[1..] == ms[1..1 + k] + ms[1 + k..];
  }

  /** When no calls follow the first message, its own are all; when it is no result, the results follow it. */
  lemma HeadOnly(ms: seq<Message>)
    requires ms != [] && ms[0].Assistant? && Calls(ms[1..]) == []
    ensures Calls(ms) == CallsOf(ms[0]) && Results(ms) == Results(ms[1..])
  {
    Seqs.NothingBefore(Results(ms[1..]));
    assert CallsOf(ms[0]) + [] == CallsOf(ms[0]);
  }

  lemma CutRoundRefs(ms: seq<Message>, cs: seq<CallRef>)
    requires ms != [] && ms[0].Assistant? && cs == CallsOf(ms[0]) && |cs| >= |ms|
    requires Answers(ms[1..], cs[..|ms| - 1])
    ensures Calls(ms) == cs && Results(ms) == cs[..|ms| - 1]
  {
    AnswersAreTheCalls(ms[1..], cs[..|ms| - 1]);
    HeadOnly(ms);
  }

  lemma FullRoundRefs(ms: seq<Message>, k: nat, missing: seq<CallRef>)
    requires ms != [] && ms[0].Assistant? && k == |CallsOf(ms[0])| && 1 + k <= |ms|
    requires Answers(ms[1..1 + k], CallsOf(ms[0]))
    requires Calls(ms[1 + k..]) == Results(ms[1 + k..]) + missing
    ensures Calls(ms) == Results(ms) + missing
  {
    FirstRound(ms, k);
    Seqs.Regroup(CallsOf(ms[0]), Results(ms[1 + k..]), missing);
  }

  /** The calls are the results so far, then the missing ones. */
  lemma {:induction false} CallsAreResultsThenMissing(ms: seq<Message>)
    requires Cut(ms)
    ensures Calls(ms) == Results(ms) + Missing(ms)
    decreases |ms|
  {
    if ms == [] {
    } else if !ms[0].Assistant? {
      CallsAreResultsThenMissing(ms[1..]);
      assert Calls(ms) == Calls(ms[1..]);
    } else {
      var k := |CallsOf(ms[0])|;
      if k < |ms| {
        CallsAreResultsThenMissing(ms[1 + k..]);
        FullRoundRefs(ms, k, Missing(ms[1 + k..]));
      } else {
        CutRoundRefs(ms, CallsOf(ms[0]));
        Seqs.TakeThenDrop(CallsOf(ms[0]), |ms| - 1);
      }
    }
  }

  lemma {:induction false} PairedMissesNothing(ms: seq<Message>)
    requires Cut(ms)
    ensures Paired(ms) <==> Missing(ms) == []
    decreases |ms|
  {
    if ms != [] {
      var k := if ms[0].Assistant? then 1 + |CallsOf(ms[0])| else 1;
      if k <= |ms| {
        PairedMissesNothing(ms[k..]);
      }
    }
  }

  /** Appending answers to the missing calls completes a cut conversation. */
  lemma {:induction false} AnswersComplete(ms: seq<Message>, rs: seq<Message>)
    requires Cut(ms) && Answers(rs, Missing(ms))
    ensures Paired(ms + rs)
    decreases |ms|
  {
    if ms == [] {
      assert ms + rs == [];
    } else {
      var k := if ms[0].Assistant? then 1 + |CallsOf(ms[0])| else 1;
      if k <= |ms| {
        AnswersComplete(ms[k..], rs);
        Seqs.SlicesOfConcat(ms, rs, k);
      } else {
        LastRound(ms, rs, CallsOf(ms[0]));
      }
    }
  }

  lemma LastRound(ms: seq<Message>, rs: seq<Message>, cs: seq<CallRef>)
    requires ms != [] && ms[0].Assistant? && cs == CallsOf(ms[0]) && |cs| >= |ms|
    requires Answers(ms[1..], cs[..|ms| - 1]) && Answers(rs, cs[|ms| - 1..])
    ensures Paired(ms + rs)
  {
    var all, j := ms + rs, |ms| - 1;
    assert all[1..1 + |cs|] == ms[1..] + rs;
    forall i | 0 <= i < |cs|
      ensures var r := (ms[1..] + rs)[i]; r.ToolResult? && r.id == cs[i].id && r.name == cs[i].name
    {
      if i < j {
        assert ms[1..][i].id == cs[..j][i].id;
      } else {
        assert rs[i - j].id == cs[j..][i - j].id;
      }
    }
    assert all[1 + |cs|..] == [];
  }
}
