/**
 * The inner loop (loop.ts): what one run appends to the conversation, and the
 * context it keeps beside it, which it prunes when large and whose first message
 * it replaces as the dynamic context changes.
 */
module InnerLoop {
  import opened Messages
  import opened Pruning
  import opened ToolPairing
  import Seqs

  /** How one tool call went; every failure is folded into a result the model reads. */
  datatype Execution =
    | UnknownTool
    | RunAborted
    | BadArguments(why: string)
    | Threw(why: string)
    | Returned(result: seq<Block>, isError: bool)

  /** A reply of the model, and how its tool calls go when they are executed (by position). */
  datatype Reply = Reply(content: seq<Block>, stop: StopReason, contextTokens: nat, execute: nat -> Execution)

  datatype Cap = NoCap | MaxTurns(n: nat)

  const MID_SESSION_PRUNE_THRESHOLD := 100_000

  const KEEP_ROUNDS: nat := 2

  const NOT_SAVED := "Not saved"

  function ErrorResult(c: CallRef, text: string): Message {
    ToolResult(c.id, c.name, [Text(text)], true)
  }

  predicate IsError(m: Message, text: string) {
    m.ToolResult? && m.isError && m.result == [Text(text)]
  }

  /** What the model is to read of a call: what the tool returned, or why it did not. */
  predicate IsResultOf(m: Message, c: CallRef, e: Execution) {
    && m.ToolResult? && m.id == c.id && m.name == c.name
    && match e
       case Returned(result, isError) => m.result == result && m.isError == isError
       case Threw(why) => IsError(m, why)
       case BadArguments(why) => IsError(m, why)
       case UnknownTool => IsError(m, c.name + " not found")
       case RunAborted => IsError(m, "Run aborted")
  }

  /** `executeToolCall`. */
  function Executed(c: CallRef, e: Execution): (m: Message)
    ensures m.ToolResult? && m.id == c.id && m.name == c.name
    ensures IsResultOf(m, c, e)
  {
    match e
    case UnknownTool => ErrorResult(c, c.name + " not found")
    case RunAborted => ErrorResult(c, "Run aborted")
    case BadArguments(why) => ErrorResult(c, why)
    case Threw(why) => ErrorResult(c, why)
    case Returned(result, isError) => ToolResult(c.id, c.name, result, isError)
  }

  function ToolResults(cs: seq<CallRef>, execute: nat -> Execution): (rs: seq<Message>)
    ensures Answers(rs, cs)
  {
    var rs := seq(|cs|, i requires 0 <= i < |cs| => Executed(cs[i], execute(i)));
    assert forall i :: 0 <= i < |cs| ==> rs[i] == Executed(cs[i], execute(i));
    rs
  }

  /** `interruptedToolResults`. */
  function InterruptedResults(cs: seq<CallRef>): (rs: seq<Message>)
    ensures Answers(rs, cs)
  {
    seq(|cs|, i requires 0 <= i < |cs| => ErrorResult(cs[i], NOT_SAVED))
  }

  function AssistantOf(r: Reply): Message {
    Assistant(r.content, r.stop, r.contextTokens)
  }

  predicate Interrupted(r: Reply) {
    r.stop == Error || r.stop == Aborted
  }

  predicate Capped(cap: Cap, turnCount: nat) {
    cap.MaxTurns? && turnCount >= cap.n
  }

  /** The loop goes round again after this reply. */
  predicate GoesOn(r: Reply, cap: Cap, turnCount: nat) {
    !Interrupted(r) && !Capped(cap, turnCount) && CallsIn(r.content) != []
  }

  /** What the loop appends behind the assistant message of its `turnCount`-th reply. */
  function Follow(r: Reply, cap: Cap, turnCount: nat): seq<Message> {
    if Interrupted(r) then InterruptedResults(CallsIn(r.content))
    else if Capped(cap, turnCount) then []
    else ToolResults(CallsIn(r.content), r.execute)
  }

  /** The rounds of a run that has made `turnCount` calls; it ends with the replies if it is aborted there. */
  function Rounds(replies: seq<Reply>, cap: Cap, turnCount: nat): seq<Message> {
    if replies == [] then []
    else
      var r := replies[0];
      [AssistantOf(r)] + Follow(r, cap, turnCount + 1)
      + if GoesOn(r, cap, turnCount + 1) then Rounds(replies[1..], cap, turnCount + 1) else []
  }

  /** Everything a run appends when nothing stops it short. */
  function RunLog(task: string, replies: seq<Reply>, cap: Cap): seq<Message> {
    [User(task)] + Rounds(replies, cap, 0)
  }

  // ------------------------------------------------------------------ what a run appends

  /** The run came to this reply: those before it carried calls, were whole, and below the cap. */
  ghost predicate Reached(replies: seq<Reply>, cap: Cap, k: nat) {
    && k < |replies|
    && forall j :: 0 <= j < k ==>
         && replies[j].stop != Error && replies[j].stop != Aborted && CallsIn(replies[j].content) != []
         && (cap.MaxTurns? ==> j + 1 < cap.n)
  }

  /** Where the k-th reply stands: behind the opening message, and behind the earlier replies with their results. */
  function Position(replies: seq<Reply>, k: nat): nat
    requires k <= |replies|
  {
    if k == 0 then 1 else Position(replies, k - 1) + 1 + |CallsIn(replies[k - 1].content)|
  }

  /** This part of a log holds the reply with all its content, and behind it one result per call, in call order. */
  ghost predicate Records(log: seq<Message>, r: Reply, cap: Cap, turnCount: nat) {
    && log != [] && log[0] == Assistant(r.content, r.stop, r.contextTokens)
    && var cs, rs := CallsIn(r.content), log[1..];
       if r.stop == Error || r.stop == Aborted then
         && |rs| == |cs|
         && forall j :: 0 <= j < |cs| ==> rs[j].ToolResult? && rs[j].id == cs[j].id && rs[j].name == cs[j].name
                                          && IsError(rs[j], NOT_SAVED)
       else if cap.MaxTurns? && turnCount >= cap.n then rs == []
       else
         && |cs| <= |rs| && (cs == [] ==> rs == [])
         && forall j :: 0 <= j < |cs| ==> IsResultOf(rs[j], cs[j], r.execute(j))
  }

  lemma ToolResultsAre(cs: seq<CallRef>, execute: nat -> Execution)
    ensures |ToolResults(cs, execute)| == |cs|
    ensures forall j :: 0 <= j < |cs| ==> IsResultOf(ToolResults(cs, execute)[j], cs[j], execute(j))
  {
    forall j | 0 <= j < |cs| ensures IsResultOf(ToolResults(cs, execute)[j], cs[j], execute(j)) {
      assert ToolResults(cs, execute)[j] == Executed(cs[j], execute(j));
    }
  }

  lemma FirstReplyRecorded(replies: seq<Reply>, cap: Cap, turnCount: nat)
    requires replies != []
    ensures Records(Rounds(replies, cap, turnCount), replies[0], cap, turnCount + 1)
  {
    var r := replies[0];
    var rest := if GoesOn(r, cap, turnCount + 1) then Rounds(replies[1..], cap, turnCount + 1) else [];
    var log := Rounds(replies, cap, turnCount);
    assert log == [AssistantOf(r)] + Follow(r, cap, turnCount + 1) + rest;
    RecordsFrom(log, Follow(r, cap, turnCount + 1), rest, r, cap, turnCount + 1);
  }

  lemma RecordsFrom(log: seq<Message>, follow: seq<Message>, rest: seq<Message>, r: Reply, cap: Cap, turnCount: nat)
    requires log == [AssistantOf(r)] + follow + rest
    requires follow == Follow(r, cap, turnCount) && (!GoesOn(r, cap, turnCount) ==> rest == [])
    ensures Records(log, r, cap, turnCount)
  {
    ToolResultsAre(CallsIn(r.content), r.execute);
    assert log[1..] == follow + rest;
    assert forall j :: 0 <= j < |follow| ==> (follow + rest)[j] == follow[j];
  }

  /** Stepping over the first reply and its results. */
  lemma FirstReplyGoesOn(replies: seq<Reply>, cap: Cap, turnCount: nat)
    requires replies != [] && GoesOn(replies[0], cap, turnCount + 1)
    ensures var k, log := 1 + |CallsIn(replies[0].content)|, Rounds(replies, cap, turnCount);
            k <= |log| && log[k..] == Rounds(replies[1..], cap, turnCount + 1)
  {
    var r := replies[0];
    var rest := Rounds(replies[1..], cap, turnCount + 1);
    assert Rounds(replies, cap, turnCount) == [AssistantOf(r)] + Follow(r, cap, turnCount + 1) + rest;
  }

  lemma DropTwice<T>(xs: seq<T>, ys: seq<T>, zs: seq<T>, a: nat, b: nat)
    requires a <= |xs| && ys == xs[a..] && b <= |ys| && zs == ys[b..]
    ensures a + b <= |xs| && xs[a + b..] == zs
  {
  }

  /** Stepping over the first k replies and their results. */
  lemma {:induction false} RoundsBehind(replies: seq<Reply>, cap: Cap, k: nat)
    requires k <= |replies| && forall j :: 0 <= j < k ==> GoesOn(replies[j], cap, j + 1)
    ensures Position(replies, k) - 1 <= |Rounds(replies, cap, 0)|
    ensures Rounds(replies, cap, 0)[Position(replies, k) - 1..] == Rounds(replies[k..], cap, k)
    decreases k
  {
    if k == 0 {
      assert replies[0..] == replies;
    } else {
      RoundsBehind(replies, cap, k - 1);
      OneReplyFurther(Rounds(replies, cap, 0), replies, cap, k);
    }
  }

  lemma OneReplyFurther(log: seq<Message>, replies: seq<Reply>, cap: Cap, k: nat)
    requires 1 <= k <= |replies| && GoesOn(replies[k - 1], cap, k) && Position(replies, k - 1) - 1 <= |log|
    requires log[Position(replies, k - 1) - 1..] == Rounds(replies[k - 1..], cap, k - 1)
    ensures Position(replies, k) - 1 <= |log|
    ensures log[Position(replies, k) - 1..] == Rounds(replies[k..], cap, k)
  {
    var at, n := Position(replies, k - 1) - 1, 1 + |CallsIn(replies[k - 1].content)|;
    DropTwice(replies, replies[k - 1..], replies[k - 1..][1..], k - 1, 1);
    FirstReplyGoesOn(replies[k - 1..], cap, k - 1);
    DropTwice(log, log[at..], log[at..][n..], at, n);
  }

  /**
   * What a run appends: its opening message, then every reply it comes to, with its whole content,
   * and behind it for each of its calls, in their order, a result with the call's id and
   * name and what the tool returned, or the reason it failed.
   */
  lemma ARunRecordsEveryReply(task: string, replies: seq<Reply>, cap: Cap, k: nat)
    requires Reached(replies, cap, k)
    ensures var log, at := RunLog(task, replies, cap), Position(replies, k);
            log[0] == User(task) && at <= |log| && Records(log[at..], replies[k], cap, k + 1)
  {
    var log := RunLog(task, replies, cap);
    RoundsBehind(replies, cap, k);
    assert log[1..] == Rounds(replies, cap, 0);
    DropTwice(log, log[1..], Rounds(replies[k..], cap, k), 1, Position(replies, k) - 1);
    FirstReplyRecorded(replies[k..], cap, k);
  }

  /** It appends nothing else: the log ends behind the last reply it comes to. */
  lemma {:induction false} ARunEndsBehindItsLastReply(task: string, replies: seq<Reply>, cap: Cap, k: nat)
    requires Reached(replies, cap, k) && !Reached(replies, cap, k + 1)
    ensures var log, r := RunLog(task, replies, cap), replies[k];
            |log| == Position(replies, k) + 1
                     + if r.stop != Error && r.stop != Aborted && cap.MaxTurns? && k + 1 >= cap.n then 0
                       else |CallsIn(r.content)|
  {
    RoundsBehind(replies, cap, k);
    assert replies[k..][0] == replies[k] && (k + 1 < |replies| ==> !GoesOn(replies[k], cap, k + 1));
    assert k + 1 == |replies| ==> replies[k..][1..] == [];
  }

  // ------------------------------------------------------------------ runs are paired

  lemma RoundIsPaired(r: Reply, cap: Cap, turnCount: nat)
    requires !Capped(cap, turnCount) || Interrupted(r) || CallsIn(r.content) == []
    ensures Paired([AssistantOf(r)] + Follow(r, cap, turnCount))
  {
    var round := [AssistantOf(r)] + Follow(r, cap, turnCount);
    assert round[1..] == Follow(r, cap, turnCount);
    assert round[1 + |CallsIn(r.content)|..] == [];
  }

  lemma {:induction false} RoundsArePaired(replies: seq<Reply>, turnCount: nat)
    ensures Paired(Rounds(replies, NoCap, turnCount))
  {
    if replies != [] {
      var r := replies[0];
      var rest := if GoesOn(r, NoCap, turnCount + 1) then Rounds(replies[1..], NoCap, turnCount + 1) else [];
      RoundsArePaired(replies[1..], turnCount + 1);
      RoundIsPaired(r, NoCap, turnCount + 1);
      PairedThen([AssistantOf(r)] + Follow(r, NoCap, turnCount + 1), rest);
    }
  }

  /** A run without a turn cap appends a paired conversation, however its replies and tools turn out. */
  lemma UncappedRunIsPaired(task: string, replies: seq<Reply>)
    ensures Paired(RunLog(task, replies, NoCap))
  {
    RoundsArePaired(replies, 0);
    assert RunLog(task, replies, NoCap)[1..] == Rounds(replies, NoCap, 0);
  }

  /** A capped one need not: its last reply's calls are left without results. */
  lemma CappedRunIsUnpaired(task: string, call: CallRef, execute: nat -> Execution)
    ensures var r := Reply([Call(call.id, call.name)], ToolUse, 0, execute);
            !Paired(RunLog(task, [r], MaxTurns(1)))
  {
    var r := Reply([Call(call.id, call.name)], ToolUse, 0, execute);
    assert CallsIn(r.content) == [call];
    var log := RunLog(task, [r], MaxTurns(1));
    assert log == [User(task), AssistantOf(r)];
    assert !Paired(log[1..]);
  }

  // ------------------------------------------------------------------ pruning keeps the pairing

  lemma {:induction false} NoThinkingKeepsCalls(content: seq<Block>)
    ensures CallsIn(NoThinking(content)) == CallsIn(content)
  {
    if content != [] {
      NoThinkingKeepsCalls(content[1..]);
      var rest := NoThinking(content[1..]);
      assert ([content[0]] + rest)[1..] == rest;
    }
  }

  /** The same roles, tool ids and calls, message by message. */
  ghost predicate SameShape(a: seq<Message>, b: seq<Message>) {
    && |a| == |b|
    && forall i :: 0 <= i < |a| ==>
         && SameRole(a[i], b[i]) && CallsOf(a[i]) == CallsOf(b[i])
         && (a[i].ToolResult? ==> a[i].id == b[i].id && a[i].name == b[i].name)
  }

  lemma PruningKeepsShape(ms: seq<Message>, keep: nat)
    ensures SameShape(Prune(ms, keep), ms)
  {
    var p := Prune(ms, keep);
    forall i | 0 <= i < |ms| ensures CallsOf(p[i]) == CallsOf(ms[i]) {
      PruneAt(ms, keep, i);
      if ms[i].Assistant? {
        NoThinkingKeepsCalls(ms[i].content);
      }
    }
  }

  lemma ShapeDecidesAnswers(a: seq<Message>, b: seq<Message>, cs: seq<CallRef>)
    requires SameShape(a, b)
    ensures Answers(a, cs) <==> Answers(b, cs)
  {
    if Answers(b, cs) {
      assert forall i :: 0 <= i < |a| ==> SameRole(a[i], b[i]);
    }
  }

  lemma SlicesKeepShape(a: seq<Message>, b: seq<Message>, k: nat)
    requires SameShape(a, b) && 1 <= k <= |a|
    ensures SameShape(a[1..k], b[1..k]) && SameShape(a[k..], b[k..])
  {
  }

  lemma {:induction false} ShapeDecidesPairing(a: seq<Message>, b: seq<Message>)
    requires SameShape(a, b)
    ensures Paired(a) <==> Paired(b)
    decreases |a|
  {
    if a != [] {
      var k := if a[0].Assistant? then 1 + |CallsOf(a[0])| else 1;
      assert SameRole(a[0], b[0]);
      if k <= |a| {
        SlicesKeepShape(a, b, k);
        ShapeDecidesAnswers(a[1..k], b[1..k], CallsOf(a[0]));
        ShapeDecidesPairing(a[k..], b[k..]);
      }
    }
  }

  // ------------------------------------------------------------------ the context of a run

  /** The context is the unpruned conversation, pruned once at some earlier length. */
  ghost predicate PrunedTo(messages: seq<Message>, whole: seq<Message>, p: nat) {
    && p <= |whole| == |messages|
    && (forall i :: 0 <= i < p ==> messages[i] == Prune(whole[..p], KEEP_ROUNDS)[i])
    && (forall i :: p <= i < |whole| ==> messages[i] == whole[i])
  }

  lemma PrunedThenAppend(messages: seq<Message>, whole: seq<Message>, p: nat, m: Message)
    requires PrunedTo(messages, whole, p)
    ensures PrunedTo(messages + [m], whole + [m], p)
  {
    assert (whole + [m])[..p] == whole[..p];
  }

  lemma PrunedIsConcat(messages: seq<Message>, whole: seq<Message>, p: nat)
    requires PrunedTo(messages, whole, p)
    ensures messages == Prune(whole[..p], KEEP_ROUNDS) + whole[p..]
  {
  }

  lemma PrunedAgain(messages: seq<Message>, whole: seq<Message>, p: nat)
    requires PrunedTo(messages, whole, p)
    ensures PrunedTo(Prune(messages, KEEP_ROUNDS), whole, |whole|)
  {
    var head, tail := whole[..p], whole[p..];
    PruningIsIncremental(head, tail, KEEP_ROUNDS);
    PrunedIsConcat(messages, whole, p);
    assert head + tail == whole && whole[..|whole|] == whole;
  }

  lemma PrunedThenReplaceFirst(messages: seq<Message>, whole: seq<Message>, p: nat, text: string)
    requires PrunedTo(messages, whole, p) && whole != [] && whole[0].User?
    ensures |messages| == |whole|
    ensures PrunedTo(messages[0 := User(text)], whole[0 := User(text)], p)
  {
    var before, after := whole[..p], whole[0 := User(text)][..p];
    RolesDecideIdxs(before, after);
    forall i | 0 <= i < p
      ensures Prune(after, KEEP_ROUNDS)[i] == if i == 0 then User(text) else Prune(before, KEEP_ROUNDS)[i]
    {
      PruneAt(before, KEEP_ROUNDS, i);
      PruneAt(after, KEEP_ROUNDS, i);
    }
  }

  lemma PrunedIsPaired(messages: seq<Message>, whole: seq<Message>, p: nat)
    requires PrunedTo(messages, whole, p)
    ensures Paired(messages) <==> Paired(whole)
  {
    PruningKeepsShape(whole[..p], KEEP_ROUNDS);
    assert SameShape(messages, whole) by {
      forall i | 0 <= i < |whole|
        ensures SameRole(messages[i], whole[i]) && CallsOf(messages[i]) == CallsOf(whole[i])
      {
        assert i >= p ==> messages[i] == whole[i];
      }
    }
    ShapeDecidesPairing(messages, whole);
  }

  /** The unpruned context: the dynamic-context message, the resumed history, and what this run appended. */
  function Whole(dynamic: seq<Message>, previous: seq<Message>, stored: seq<Message>): seq<Message> {
    dynamic + previous + stored
  }

  lemma WholeIsPaired(dynamic: seq<Message>, previous: seq<Message>, stored: seq<Message>)
    requires Paired(previous) && Paired(stored)
    requires dynamic == [] || (|dynamic| == 1 && dynamic[0].User?)
    ensures Paired(Whole(dynamic, previous, stored))
  {
    assert Paired(dynamic);
    PairedThen(dynamic, previous);
    PairedThen(dynamic + previous, stored);
  }

  /**
   * The model is sent the whole conversation so far, pruned at most: the dynamic
   * context, what was resumed, what is stored.
   */
  ghost predicate SentWhole(c: seq<Message>, dynamic: seq<Message>, previous: seq<Message>, stored: seq<Message>) {
    exists p :: PrunedTo(c, Whole(dynamic, previous, stored), p)
  }

  /** The k-th context is the conversation before the k-th reply, under the dynamic context of that moment. */
  ghost predicate AllSentWhole(sent: seq<seq<Message>>, log: seq<Message>, replies: seq<Reply>,
                               hasDynamic: bool, dynamicAt: nat -> string, previous: seq<Message>)
  {
    && |sent| <= |replies|
    && forall k :: 0 <= k < |sent| ==>
         SentAt(sent[k], log, Position(replies, k), DynamicContext(hasDynamic, dynamicAt(k)), previous)
  }

  ghost predicate SentAt(c: seq<Message>, log: seq<Message>, at: nat, dynamic: seq<Message>, previous: seq<Message>) {
    at <= |log| && SentWhole(c, dynamic, previous, log[..at])
  }

  function DynamicContext(hasDynamic: bool, text: string): seq<Message> {
    if hasDynamic then [User(text)] else []
  }

  lemma OneMoreSent(before: seq<seq<Message>>, sent: seq<seq<Message>>, log: seq<Message>, replies: seq<Reply>,
                    hasDynamic: bool, dynamicAt: nat -> string, previous: seq<Message>, stored: seq<Message>)
    requires AllSentWhole(before, log, replies, hasDynamic, dynamicAt, previous)
    requires before < sent && |sent| == |before| + 1 <= |replies|
    requires stored <= log && |stored| == Position(replies, |before|)
    requires SentWhole(sent[|before|], DynamicContext(hasDynamic, dynamicAt(|before|)), previous, stored)
    ensures AllSentWhole(sent, log, replies, hasDynamic, dynamicAt, previous)
  {
    var n := |before|;
    SentHere(sent[n], log, stored, DynamicContext(hasDynamic, dynamicAt(n)), previous);
    assert forall k :: 0 <= k < n ==> sent[k] == before[k];
  }

  lemma SentHere(c: seq<Message>, log: seq<Message>, stored: seq<Message>,
                 dynamic: seq<Message>, previous: seq<Message>)
    requires stored <= log && SentWhole(c, dynamic, previous, stored)
    ensures SentAt(c, log, |stored|, dynamic, previous)
  {
    assert log[..|stored|] == stored;
  }

  /** What is stored of messages appended one by one when all appends after the n-th fail. */
  function UpTo(ms: seq<Message>, n: nat): seq<Message> {
    if n < |ms| then ms[..n] else ms
  }

  lemma UpToSplits(a: seq<Message>, b: seq<Message>, n: nat)
    ensures UpTo(a + b, n) == if n < |a| then UpTo(a, n) else a + UpTo(b, n - |a|)
  {
  }

  /** So far `stored` of the log, with `rest` to go and `left` appends before the failing one. */
  ghost predicate Progress(log: seq<Message>, stored: seq<Message>, rest: seq<Message>,
                           left: nat, appends: nat, alive: bool) {
    && UpTo(log, appends) == stored + UpTo(rest, left)
    && (alive ==> left + |stored| == appends && |log| == |stored| + |rest|)
    && (!alive ==> appends < |log| && left == 0)
  }

  lemma StoredIsPrefix(log: seq<Message>, stored: seq<Message>, rest: seq<Message>, left: nat, appends: nat)
    requires Progress(log, stored, rest, left, appends, true)
    ensures |stored| <= |log| && log[..|stored|] == stored
  {
    var all := UpTo(log, appends);
    assert all[..|stored|] == stored && all <= log;
  }

  lemma ProgressByRound(log: seq<Message>, stored: seq<Message>, round: seq<Message>, rest: seq<Message>,
                        left: nat, appends: nat)
    requires Progress(log, stored, round + rest, left, appends, true)
    ensures left < |round| ==> Progress(log, stored + UpTo(round, left), [], 0, appends, false)
    ensures left >= |round| ==> Progress(log, stored + round, rest, left - |round|, appends, true)
  {
    UpToSplits(round, rest, left);
    if left < |round| {
      assert stored + UpTo(round, left) + [] == stored + UpTo(round, left);
    } else {
      Seqs.Regroup(stored, round, UpTo(rest, left - |round|));
    }
  }

  lemma RoundsFrom(replies: seq<Reply>, cap: Cap, i: nat)
    requires i < |replies|
    ensures var r := replies[i];
            Rounds(replies[i..], cap, i) ==
              [AssistantOf(r)] + Follow(r, cap, i + 1)
              + if GoesOn(r, cap, i + 1) then Rounds(replies[i + 1..], cap, i + 1) else []
  {
    assert replies[i..][1..] == replies[i + 1..];
  }

  /**
   * `runInnerLoop`. The environment decides the replies (their end is an abort
   * before the next call), the dynamic contexts, and after how many appends a hook
   * throws or the daemon dies.
   */
  class Run {
    var messages: seq<Message>
    var stored: seq<Message>
    var turnCount: nat
    var appendsLeft: nat
    const previous: seq<Message>
    const hasDynamic: bool
    var lastDynamic: string
    ghost var pruned: nat
    ghost var sent: seq<seq<Message>>

    ghost function Dynamic(): seq<Message>
      reads this
    {
      DynamicContext(hasDynamic, lastDynamic)
    }

    ghost predicate Valid()
      reads this
    {
      PrunedTo(messages, Whole(Dynamic(), previous, stored), pruned)
    }

    constructor (previous: seq<Message>, hasDynamic: bool, dynamic: string, appends: nat)
      ensures Valid() && stored == [] && sent == [] && turnCount == 0 && appendsLeft == appends
      ensures this.previous == previous && this.hasDynamic == hasDynamic
    {
      this.previous, this.hasDynamic, lastDynamic := previous, hasDynamic, dynamic;
      messages := (if hasDynamic then [User(dynamic)] else []) + previous;
      stored, turnCount, appendsLeft := [], 0, appends;
      pruned, sent := 0, [];
      new;
      assert Whole(Dynamic(), previous, stored) == messages;
    }

    /** `pushAndNotify`: false when the hook throws instead of storing the message. */
    method PushAndNotify(m: Message) returns (alive: bool)
      requires Valid()
      modifies this`messages, this`stored, this`appendsLeft
      ensures alive == (old(appendsLeft) > 0)
      ensures messages == old(messages) + [m]
      ensures stored == if alive then old(stored) + [m] else old(stored)
      ensures appendsLeft == if alive then old(appendsLeft) - 1 else 0
      ensures alive ==> Valid()
    {
      PrunedThenAppend(messages, Whole(Dynamic(), previous, stored), pruned, m);
      assert Whole(Dynamic(), previous, stored) + [m] == Whole(Dynamic(), previous, stored + [m]);
      messages := messages + [m];
      alive := appendsLeft > 0;
      if alive {
        stored, appendsLeft := stored + [m], appendsLeft - 1;
      }
    }

    /** Appends one message after another until one throws. */
    method PushAll(ms: seq<Message>) returns (alive: bool)
      requires Valid()
      modifies this`messages, this`stored, this`appendsLeft
      ensures alive == (old(appendsLeft) >= |ms|)
      ensures stored == old(stored) + UpTo(ms, old(appendsLeft))
      ensures appendsLeft == if alive then old(appendsLeft) - |ms| else 0
      ensures alive ==> Valid()
    {
      alive := true;
      var i := 0;
      while i < |ms| && alive
        invariant i <= |ms| && appendsLeft + i == old(appendsLeft)
        invariant stored == old(stored) + ms[..i]
        invariant if alive then Valid() else appendsLeft == 0 && i < |ms|
        decreases |ms| - i, alive
      {
        assert ms[..i + 1] == ms[..i] + [ms[i]];
        alive := PushAndNotify(ms[i]);
        i := if alive then i + 1 else i;
      }
    }

    /** `refreshDynamicContext`. */
    method RefreshDynamicContext(latest: string)
      requires Valid()
      modifies this`messages, this`lastDynamic
      ensures Valid() && (hasDynamic ==> lastDynamic == latest)
    {
      if hasDynamic && latest != lastDynamic {
        var whole := Whole([User(lastDynamic)], previous, stored);
        PrunedThenReplaceFirst(messages, whole, pruned, latest);
        messages := messages[0 := User(latest)];
        lastDynamic := latest;
        assert whole[0 := User(latest)] == Whole(Dynamic(), previous, stored);
      }
    }

    /** `pruneIfLarge`. */
    method PruneIfLarge(contextTokens: nat)
      requires Valid()
      modifies this`messages, this`pruned
      ensures Valid()
      ensures messages == if contextTokens <= 100_000 then old(messages) else Prune(old(messages), 2)
    {
      if contextTokens > MID_SESSION_PRUNE_THRESHOLD {
        ghost var whole := Whole(Dynamic(), previous, stored);
        PrunedAgain(messages, whole, pruned);
        messages := Prune(messages, KEEP_ROUNDS);
        pruned := |whole|;
      }
    }

    /** Stores the reply, prunes, then stores the results of its tool calls. */
    method Answer(r: Reply, cap: Cap) returns (alive: bool, goOn: bool)
      requires Valid()
      modifies this`messages, this`stored, this`appendsLeft, this`pruned
      ensures var log := [AssistantOf(r)] + Follow(r, cap, turnCount);
              && alive == (old(appendsLeft) >= |log|)
              && stored == old(stored) + UpTo(log, old(appendsLeft))
              && appendsLeft == if alive then old(appendsLeft) - |log| else 0
      ensures alive ==> Valid()
      ensures goOn == (alive && GoesOn(r, cap, turnCount))
    {
      goOn := false;
      UpToSplits([AssistantOf(r)], Follow(r, cap, turnCount), appendsLeft);
      Seqs.Regroup(stored, [AssistantOf(r)],
                   UpTo(Follow(r, cap, turnCount), if appendsLeft > 0 then appendsLeft - 1 else 0));
      alive := PushAndNotify(AssistantOf(r));
      if alive {
        PruneIfLarge(r.contextTokens);
        var calls := CallsIn(r.content);
        if r.stop == Error || r.stop == Aborted {
          alive := PushAll(InterruptedResults(calls));
        } else if !Capped(cap, turnCount) {
          alive := PushAll(ToolResults(calls, r.execute));
          goOn := alive && calls != [];
        }
      }
    }

    /** One turn of the loop: refresh the dynamic context, call the model, answer its reply. */
    method Round(r: Reply, cap: Cap, dynamic: string) returns (alive: bool, goOn: bool)
      requires Valid() && Paired(previous) && Paired(stored)
      requires forall c :: c in sent ==> Paired(c)
      modifies this
      ensures turnCount == old(turnCount) + 1
      ensures var log := [AssistantOf(r)] + Follow(r, cap, turnCount);
              && alive == (old(appendsLeft) >= |log|)
              && stored == old(stored) + UpTo(log, old(appendsLeft))
              && appendsLeft == if alive then old(appendsLeft) - |log| else 0
      ensures alive ==> Valid()
      ensures goOn == (alive && GoesOn(r, cap, turnCount))
      ensures |sent| == |old(sent)| + 1 && forall c :: c in sent ==> Paired(c)
      ensures old(sent) < sent
      ensures SentWhole(sent[|old(sent)|], DynamicContext(hasDynamic, dynamic), previous, old(stored))
    {
      turnCount := turnCount + 1;
      RefreshDynamicContext(dynamic);
      WholeIsPaired(Dynamic(), previous, stored);
      PrunedIsPaired(messages, Whole(Dynamic(), previous, stored), pruned);
      sent := sent + [messages];
      alive, goOn := Answer(r, cap);
    }

    /** One round of the loop: the log comes along by the round. */
    method NextRound(ghost log: seq<Message>, ghost appends: nat,
                     replies: seq<Reply>, cap: Cap, i: nat, dynamic: string)
      returns (alive: bool, goOn: bool)
      requires Valid() && Paired(previous) && Paired(stored) && turnCount == i < |replies|
      requires Progress(log, stored, Rounds(replies[i..], cap, i), appendsLeft, appends, true)
      requires forall c :: c in sent ==> Paired(c)
      modifies this
      ensures turnCount == i + 1 && |sent| == |old(sent)| + 1
      ensures forall c :: c in sent ==> Paired(c)
      ensures old(sent) < sent
      ensures SentWhole(sent[|old(sent)|], DynamicContext(hasDynamic, dynamic), previous, old(stored))
      ensures alive ==> Valid()
      ensures goOn ==> alive && Paired(stored) && |stored| == |old(stored)| + 1 + |CallsIn(replies[i].content)|
      ensures Progress(log, stored, if goOn then Rounds(replies[i + 1..], cap, i + 1) else [],
                       appendsLeft, appends, alive)
    {
      ghost var r, done := replies[i], stored;
      ghost var round := [AssistantOf(r)] + Follow(r, cap, i + 1);
      ghost var rest := if GoesOn(r, cap, i + 1) then Rounds(replies[i + 1..], cap, i + 1) else [];
      RoundsFrom(replies, cap, i);
      ProgressByRound(log, stored, round, rest, appendsLeft, appends);
      alive, goOn := Round(replies[i], cap, dynamic);
      if goOn {
        RoundIsPaired(r, cap, i + 1);
        PairedThen(done, round);
      }
    }

    /** The same, with what is sent. */
    method NextSent(ghost log: seq<Message>, ghost appends: nat,
                    replies: seq<Reply>, cap: Cap, i: nat, dynamicAt: nat -> string)
      returns (alive: bool, goOn: bool)
      requires Valid() && Paired(previous) && Paired(stored) && turnCount == i == |sent| < |replies|
      requires |stored| == Position(replies, i)
      requires Progress(log, stored, Rounds(replies[i..], cap, i), appendsLeft, appends, true)
      requires forall c :: c in sent ==> Paired(c)
      requires AllSentWhole(sent, log, replies, hasDynamic, dynamicAt, previous)
      modifies this
      ensures turnCount == i + 1 == |sent|
      ensures forall c :: c in sent ==> Paired(c)
      ensures AllSentWhole(sent, log, replies, hasDynamic, dynamicAt, previous)
      ensures alive ==> Valid()
      ensures goOn ==> alive && Paired(stored) && |stored| == Position(replies, i + 1)
      ensures Progress(log, stored, if goOn then Rounds(replies[i + 1..], cap, i + 1) else [],
                       appendsLeft, appends, alive)
    {
      ghost var before, done := sent, stored;
      StoredIsPrefix(log, stored, Rounds(replies[i..], cap, i), appendsLeft, appends);
      alive, goOn := NextRound(log, appends, replies, cap, i, dynamicAt(i));
      OneMoreSent(before, sent, log, replies, hasDynamic, dynamicAt, previous, done);
    }

    /**
     * A run stores exactly the run's log, up to the append that fails, and the
     * model is only ever sent paired contexts when the resumed history is paired.
     * What is left in memory is the whole conversation pruned at most once.
     */
    method RunInnerLoop(task: string, replies: seq<Reply>, cap: Cap, dynamicAt: nat -> string) returns (alive: bool)
      requires Valid() && stored == [] && sent == [] && turnCount == 0
      requires Paired(previous)
      modifies this
      ensures alive == (old(appendsLeft) >= |RunLog(task, replies, cap)|)
      ensures stored == UpTo(RunLog(task, replies, cap), old(appendsLeft))
      ensures alive ==> PrunedTo(messages, Whole(Dynamic(), previous, stored), pruned)
      ensures |sent| <= |replies| && forall c :: c in sent ==> Paired(c)
      ensures AllSentWhole(sent, RunLog(task, replies, cap), replies, hasDynamic, dynamicAt, previous)
    {
      ghost var log, appends := RunLog(task, replies, cap), appendsLeft;
      ProgressByRound(log, [], [User(task)], Rounds(replies, cap, 0), appends, appends);
      alive := PushAndNotify(User(task));
      assert replies[0..] == replies;
      var i, goOn := 0, alive;
      while goOn && i < |replies|
        invariant 0 <= i <= |replies| && turnCount == i && |sent| == i
        invariant goOn ==> alive && Paired(stored)
        invariant alive ==> Valid()
        invariant Progress(log, stored, if goOn then Rounds(replies[i..], cap, i) else [], appendsLeft, appends, alive)
        invariant forall c :: c in sent ==> Paired(c)
        invariant goOn ==> |stored| == Position(replies, i)
        invariant AllSentWhole(sent, log, replies, hasDynamic, dynamicAt, previous)
      {
        alive, goOn := NextSent(log, appends, replies, cap, i, dynamicAt);
        i := i + 1;
      }
    }
  }
}
