/**
 * An agent's conversation over its life (conversation-repository.ts, reflection.ts,
 * agent-runner.ts, agent-runner-turn.ts): turns append to it, a reflection or a
 * forced recovery replaces everything so far by a summary written above it, and
 * the daemon may die between any two writes, in the middle of a compaction too.
 */
module ConversationMemory {
  datatype Kind = Normal | Reflection | SubLoop | Summary

  datatype Doc = Doc(turn: int, kind: Kind, compacted: bool)

  /** What the daemon is doing with this agent; `before` and `turn` are turn numbers. */
  datatype Phase =
    | Idle
    /** A reflection on everything up to `before`; its own messages go to the turn after it. */
    | Reflecting(before: int)
    /** Its summary is stored; documents up to `before` are being compacted. */
    | Compacting(before: int)
    | Running(turn: int)
    /** The recovery summary is stored above `turn`; documents up to `turn` are being compacted. */
    | Recovering(turn: int)

  datatype State = State(docs: seq<Doc>, phase: Phase)

  datatype Action =
    /** A synthetic result for a dangling call of the live document i. */
    | Repair(i: nat)
    | BeginReflection
    | ReflectionMessage
    | SaveSummary
    | AbandonReflection
    /** `updateMany` reaches document i. */
    | CompactOne(i: nat)
    | FinishCompaction
    | BeginTurn
    | TurnMessage
    | SubLoopMessage
    | SaveRecoverySummary
    | EndTurn
    /** A sub-loop cut off in the turn of document i still stores a message there. */
    | LateSubLoopMessage(i: nat)
    | Crash

  /** `load()` reads it. */
  predicate Live(d: Doc) {
    !d.compacted && (d.kind == Normal || d.kind == Summary)
  }

  /** `lastTurnNumber`: over every document ever written, -1 for none. */
  function LastTurn(docs: seq<Doc>): (t: int)
    ensures forall i :: 0 <= i < |docs| ==> docs[i].turn <= t
    ensures t == -1 || exists i :: 0 <= i < |docs| && docs[i].turn == t
  {
    if docs == [] then -1
    else
      var n := |docs| - 1;
      var rest := LastTurn(docs[..n]);
      assert docs[n].turn <= rest || docs[n].turn > rest;
      if docs[n].turn > rest then docs[n].turn
      else
        assert rest == -1 || exists i :: 0 <= i < n && docs[..n][i].turn == rest && docs[i].turn == rest;
        rest
  }

  /** The documents strictly below this turn are the ones a running compaction reaches. */
  function Cutoff(p: Phase): int
    requires p.Compacting? || p.Recovering?
  {
    if p.Compacting? then p.before + 1 else p.turn + 1
  }

  predicate Enabled(s: State, a: Action) {
    match a
    case Repair(i) => s.phase.Idle? && i < |s.docs| && Live(s.docs[i])
    case BeginReflection => s.phase.Idle?
    case ReflectionMessage => s.phase.Reflecting?
    case SaveSummary => s.phase.Reflecting?
    case AbandonReflection => s.phase.Reflecting?
    case CompactOne(i) =>
      (s.phase.Compacting? || s.phase.Recovering?) && i < |s.docs| && s.docs[i].turn < Cutoff(s.phase)
    case FinishCompaction =>
      && (s.phase.Compacting? || s.phase.Recovering?)
      && forall i :: 0 <= i < |s.docs| && s.docs[i].turn < Cutoff(s.phase) && s.docs[i].kind != SubLoop ==>
           s.docs[i].compacted
    case BeginTurn => s.phase.Idle?
    case TurnMessage => s.phase.Running?
    case SubLoopMessage => s.phase.Running?
    case SaveRecoverySummary => s.phase.Running? && s.phase.turn > 0
    case EndTurn => s.phase.Running?
    case LateSubLoopMessage(i) => i < |s.docs|
    case Crash => true
  }

  function Add(s: State, turn: int, kind: Kind): State {
    s.(docs := s.docs + [Doc(turn, kind, false)])
  }

  function Apply(s: State, a: Action): State
    requires Enabled(s, a)
  {
    match a
    case Repair(i) => Add(s, s.docs[i].turn, Normal)
    case BeginReflection => s.(phase := Reflecting(LastTurn(s.docs)))
    case ReflectionMessage => Add(s, s.phase.before + 1, Reflection)
    case SaveSummary => Add(s, s.phase.before + 1, Summary).(phase := Compacting(s.phase.before))
    case AbandonReflection => s.(phase := Idle)
    case CompactOne(i) => s.(docs := s.docs[i := s.docs[i].(compacted := true)])
    case FinishCompaction =>
      s.(phase := if s.phase.Compacting? then Idle else Running(LastTurn(s.docs) + 1))
    case BeginTurn => s.(phase := Running(LastTurn(s.docs) + 1))
    case TurnMessage => Add(s, s.phase.turn, Normal)
    case SubLoopMessage => Add(s, s.phase.turn, SubLoop)
    case SaveRecoverySummary => Add(s, s.phase.turn + 1, Summary).(phase := Recovering(s.phase.turn))
    case EndTurn => s.(phase := Idle)
    case LateSubLoopMessage(i) => Add(s, s.docs[i].turn, SubLoop)
    case Crash => s.(phase := Idle)
  }

  ghost predicate Reachable(s: State, actions: seq<Action>)
    decreases |actions|
  {
    if actions == [] then s == State([], Idle)
    else
      var a := actions[|actions| - 1];
      exists r :: Reachable(r, actions[..|actions| - 1]) && Enabled(r, a) && s == Apply(r, a)
  }

  // ------------------------------------------------------------------ the invariant

  /** Document k is a summary `load()` reads, above every compacted document. */
  predicate Covers(docs: seq<Doc>, k: int) {
    && 0 <= k < |docs| && docs[k].kind == Summary && !docs[k].compacted
    && forall i :: 0 <= i < |docs| && docs[i].compacted ==> docs[i].turn < docs[k].turn
  }

  ghost predicate Remembered(docs: seq<Doc>) {
    (exists i :: 0 <= i < |docs| && docs[i].compacted) ==> exists k :: Covers(docs, k)
  }

  predicate UpTo(docs: seq<Doc>, turn: int) {
    forall i :: 0 <= i < |docs| ==> docs[i].turn <= turn
  }

  /** The only live document at this turn or above is a summary at this turn. */
  predicate OnlySummary(docs: seq<Doc>, turn: int, k: int) {
    && 0 <= k < |docs| && docs[k] == Doc(turn, Summary, false)
    && forall i :: 0 <= i < |docs| && docs[i].turn >= turn && Live(docs[i]) ==> i == k
  }

  ghost predicate Summarised(docs: seq<Doc>, turn: int) {
    UpTo(docs, turn) && exists k :: OnlySummary(docs, turn, k)
  }

  ghost predicate PhaseInv(docs: seq<Doc>, phase: Phase) {
    match phase
    case Idle => true
    case Reflecting(before) =>
      && UpTo(docs, before + 1)
      && forall i :: 0 <= i < |docs| && docs[i].turn == before + 1 ==> !Live(docs[i])
    case Compacting(before) => Summarised(docs, before + 1)
    case Running(turn) => UpTo(docs, turn) && forall i :: 0 <= i < |docs| && docs[i].compacted ==> docs[i].turn < turn
    case Recovering(turn) => Summarised(docs, turn + 1)
  }

  ghost predicate Inv(s: State) {
    Remembered(s.docs) && PhaseInv(s.docs, s.phase)
  }

  /** Adding a document leaves every summary where it covers. */
  lemma AddKeepsRemembered(docs: seq<Doc>, d: Doc)
    requires Remembered(docs) && !d.compacted
    ensures Remembered(docs + [d])
  {
    var all := docs + [d];
    if i :| 0 <= i < |all| && all[i].compacted {
      assert docs[i].compacted;
      var k :| Covers(docs, k);
      assert Covers(all, k);
    }
  }

  lemma SummaryAbove(docs: seq<Doc>, turn: int)
    requires Remembered(docs) && UpTo(docs, turn)
    ensures forall i :: 0 <= i < |docs| && docs[i].compacted ==> docs[i].turn < turn
  {
    if i :| 0 <= i < |docs| && docs[i].compacted {
      var k :| Covers(docs, k);
    }
  }

  lemma CompactionKeepsInv(s: State, i: nat)
    requires Inv(s) && Enabled(s, CompactOne(i))
    ensures Inv(Apply(s, CompactOne(i)))
  {
    var cut := Cutoff(s.phase);
    var k :| OnlySummary(s.docs, cut, k);
    SummaryAbove(s.docs, cut);
    var t := Apply(s, CompactOne(i));
    assert OnlySummary(t.docs, cut, k);
    assert Covers(t.docs, k);
  }

  lemma AddKeepsOnlySummary(docs: seq<Doc>, turn: int, k: int, d: Doc)
    requires OnlySummary(docs, turn, k) && !Live(d)
    ensures OnlySummary(docs + [d], turn, k)
  {
  }

  lemma LateMessageKeepsInv(s: State, a: Action)
    requires Inv(s) && Enabled(s, a) && a.LateSubLoopMessage?
    ensures Inv(Apply(s, a))
  {
    AddKeepsRemembered(s.docs, Doc(s.docs[a.i].turn, SubLoop, false));
    if s.phase.Compacting? || s.phase.Recovering? {
      var k :| OnlySummary(s.docs, Cutoff(s.phase), k);
      AddKeepsOnlySummary(s.docs, Cutoff(s.phase), k, Doc(s.docs[a.i].turn, SubLoop, false));
    }
  }

  lemma MessageKeepsInv(s: State, a: Action)
    requires Inv(s) && Enabled(s, a)
    requires a.Repair? || a.ReflectionMessage? || a.TurnMessage? || a.SubLoopMessage?
    ensures Inv(Apply(s, a))
  {
    var t := Apply(s, a);
    AddKeepsRemembered(s.docs, t.docs[|s.docs|]);
  }

  lemma SummaryKeepsInv(s: State, a: Action)
    requires Inv(s) && Enabled(s, a) && (a.SaveSummary? || a.SaveRecoverySummary?)
    ensures Inv(Apply(s, a))
  {
    var t := Apply(s, a);
    AddKeepsRemembered(s.docs, t.docs[|s.docs|]);
    assert OnlySummary(t.docs, Cutoff(t.phase), |s.docs|);
  }

  lemma StepKeepsInv(s: State, a: Action)
    requires Inv(s) && Enabled(s, a)
    ensures Inv(Apply(s, a))
  {
    match a {
      case Repair(_) => MessageKeepsInv(s, a);
      case BeginReflection =>
      case ReflectionMessage => MessageKeepsInv(s, a);
      case SaveSummary => SummaryKeepsInv(s, a);
      case AbandonReflection =>
      case CompactOne(i) => CompactionKeepsInv(s, i);
      case FinishCompaction => SummaryAbove(s.docs, LastTurn(s.docs) + 1);
      case BeginTurn => SummaryAbove(s.docs, LastTurn(s.docs) + 1);
      case TurnMessage => MessageKeepsInv(s, a);
      case SubLoopMessage => MessageKeepsInv(s, a);
      case SaveRecoverySummary => SummaryKeepsInv(s, a);
      case EndTurn =>
      case LateSubLoopMessage(_) => LateMessageKeepsInv(s, a);
      case Crash =>
    }
  }

  lemma {:induction false} ReachableKeepsInv(s: State, actions: seq<Action>)
    requires Reachable(s, actions)
    ensures Inv(s)
    decreases |actions|
  {
    if actions != [] {
      var before, a := actions[..|actions| - 1], actions[|actions| - 1];
      var r :| Reachable(r, before) && Enabled(r, a) && s == Apply(r, a);
      ReachableKeepsInv(r, before);
      StepKeepsInv(r, a);
    }
  }

  // ------------------------------------------------------------------ memory

  /**
   * Memory is never compacted away: in every reachable state, if any document is
   * compacted, `load()` reads a summary with a higher turn than all of them.
   */
  lemma CompactedMeansSummarised(s: State, actions: seq<Action>)
    requires Reachable(s, actions)
    requires exists i :: 0 <= i < |s.docs| && s.docs[i].compacted
    ensures exists k :: 0 <= k < |s.docs| && s.docs[k].kind == Summary && Live(s.docs[k])
                        && forall i :: 0 <= i < |s.docs| && s.docs[i].compacted ==> s.docs[i].turn < s.docs[k].turn
  {
    ReachableKeepsInv(s, actions);
    var k :| Covers(s.docs, k);
    assert Live(s.docs[k]);
  }

  /** Once something was said, `load()` never comes back empty. */
  lemma NeverForgetsAll(s: State, actions: seq<Action>, i: nat)
    requires Reachable(s, actions) && i < |s.docs| && (s.docs[i].kind == Normal || s.docs[i].kind == Summary)
    ensures exists k :: 0 <= k < |s.docs| && Live(s.docs[k])
  {
    if s.docs[i].compacted {
      CompactedMeansSummarised(s, actions);
    } else {
      assert Live(s.docs[i]);
    }
  }

  /** When a reflection or a forced recovery completes, `load()` reads exactly its summary. */
  lemma CompletedCompactionLeavesTheSummary(s: State, actions: seq<Action>)
    requires Reachable(s, actions) && Enabled(s, FinishCompaction)
    ensures exists k :: 0 <= k < |s.docs|
              && s.docs[k] == Doc(Cutoff(s.phase), Summary, false)
              && forall i :: 0 <= i < |s.docs| ==> (Live(s.docs[i]) <==> i == k)
  {
    ReachableKeepsInv(s, actions);
    var k :| OnlySummary(s.docs, Cutoff(s.phase), k);
    assert forall i :: 0 <= i < |s.docs| ==> (Live(s.docs[i]) <==> i == k);
  }

  /** t is reached from s by these actions. */
  ghost predicate Steps(s: State, actions: seq<Action>, t: State)
    decreases |actions|
  {
    if actions == [] then s == t
    else
      var a := actions[|actions| - 1];
      exists r :: Steps(s, actions[..|actions| - 1], r) && Enabled(r, a) && t == Apply(r, a)
  }

  lemma {:induction false} DocumentsStay(s: State, actions: seq<Action>, t: State)
    requires Steps(s, actions, t)
    ensures |s.docs| <= |t.docs|
    ensures forall i :: 0 <= i < |s.docs| ==> t.docs[i].turn == s.docs[i].turn && t.docs[i].kind == s.docs[i].kind
    decreases |actions|
  {
    if actions != [] {
      var a := actions[|actions| - 1];
      var r :| Steps(s, actions[..|actions| - 1], r) && Enabled(r, a) && t == Apply(r, a);
      DocumentsStay(s, actions[..|actions| - 1], r);
    }
  }

  /**
   * A turn number under which anything was ever stored is never given out again, and
   * none is skipped: whenever a turn begins, after whatever compactions and crashes,
   * its number is above every document's that was stored before, and right above the
   * highest, or 0.
   */
  lemma TurnNumbersAreNeverReused(s: State, actions: seq<Action>, t: State, a: Action)
    requires Steps(s, actions, t) && Enabled(t, a) && Apply(t, a).phase.Running? && !t.phase.Running?
    ensures forall i :: 0 <= i < |s.docs| ==> s.docs[i].turn < Apply(t, a).phase.turn
    ensures var next := Apply(t, a).phase.turn;
            next == 0 || exists i :: 0 <= i < |t.docs| && t.docs[i].turn == next - 1
  {
    DocumentsStay(s, actions, t);
    assert forall i :: 0 <= i < |s.docs| ==> t.docs[i].turn < Apply(t, a).phase.turn;
  }

  /** A running turn is above everything compacted, and nothing is stored above it. */
  lemma RunningTurnIsTheLast(s: State, actions: seq<Action>)
    requires Reachable(s, actions) && s.phase.Running?
    ensures forall i :: 0 <= i < |s.docs| ==> s.docs[i].turn <= s.phase.turn
    ensures forall i :: 0 <= i < |s.docs| && s.docs[i].compacted ==> s.docs[i].turn < s.phase.turn
  {
    ReachableKeepsInv(s, actions);
  }

  // ------------------------------------------------------------------ the writes themselves

  /** Every document below the cut is compacted. */
  function Compacted(docs: seq<Doc>, cut: int): seq<Doc> {
    seq(|docs|, i requires 0 <= i < |docs| => if docs[i].turn < cut then docs[i].(compacted := true) else docs[i])
  }

  /** Some are. */
  predicate PartlyCompacted(docs: seq<Doc>, cut: int, now: seq<Doc>) {
    && |now| == |docs|
    && forall i :: 0 <= i < |docs| ==>
         now[i] == docs[i] || (docs[i].turn < cut && now[i] == docs[i].(compacted := true))
  }

  /** The documents are still there, some flagged, perhaps with more behind them. */
  predicate OnlyFlagged(docs: seq<Doc>, now: seq<Doc>) {
    forall i :: 0 <= i < |docs| ==> i < |now| && (now[i] == docs[i] || now[i] == docs[i].(compacted := true))
  }

  lemma OneMore(s: State, actions: seq<Action>, a: Action)
    requires Reachable(s, actions) && Enabled(s, a)
    ensures Reachable(Apply(s, a), actions + [a])
  {
    assert (actions + [a])[..|actions|] == actions && (actions + [a])[|actions|] == a;
  }

  /** Once the compaction is through, `load()` reads the summary that was written last, and nothing else. */
  lemma OnlyTheLastIsLive(s: State, actions: seq<Action>, before: seq<Doc>)
    requires Reachable(s, actions) && (s.phase.Compacting? || s.phase.Recovering?)
    requires s.docs == Compacted(before + [Doc(Cutoff(s.phase), Summary, false)], Cutoff(s.phase))
    ensures Enabled(s, FinishCompaction)
    ensures forall i :: 0 <= i < |s.docs| ==> (Live(s.docs[i]) <==> i == |s.docs| - 1)
    ensures s.docs == Compacted(before, Cutoff(s.phase)) + [Doc(Cutoff(s.phase), Summary, false)]
  {
    CompletedCompactionLeavesTheSummary(s, actions);
    assert Live(s.docs[|s.docs| - 1]);
  }

  /**
   * The collection, where the daemon's code stands, and how many of its next document
   * writes succeed before it dies.
   */
  class Conversation {
    var docs: seq<Doc>
    var writesLeft: nat
    ghost var phase: Phase
    ghost var trace: seq<Action>

    ghost function View(): State
      reads this
    {
      State(docs, phase)
    }

    /** The fields are a state some run of turns, reflections, recoveries and crashes reaches. */
    ghost predicate Valid()
      reads this
    {
      Reachable(View(), trace)
    }

    constructor (writesLeft: nat)
      ensures Valid() && docs == [] && phase == Idle && this.writesLeft == writesLeft
    {
      this.docs, this.writesLeft, phase, trace := [], writesLeft, Idle, [];
    }

    /** The step just taken is one of the protocol's. */
    ghost method Took(before: State, a: Action)
      requires Reachable(before, trace) && Enabled(before, a) && View() == Apply(before, a)
      modifies this`trace
      ensures Valid()
    {
      OneMore(before, trace, a);
      trace := trace + [a];
    }

    /** The code moves on, or the daemon dies, without a write. */
    ghost method MoveOn(a: Action)
      requires Valid() && Enabled(View(), a) && Apply(View(), a).docs == docs
      modifies this`phase, this`trace
      ensures Valid() && phase == Apply(old(View()), a).phase
    {
      var before := View();
      phase := Apply(before, a).phase;
      Took(before, a);
    }

    method LastTurnNumber() returns (t: int)
      ensures t == LastTurn(docs)
    {
      t := -1;
      for i := 0 to |docs|
        invariant t == LastTurn(docs[..i])
      {
        assert docs[..i + 1][..i] == docs[..i];
        if docs[i].turn > t {
          t := docs[i].turn;
        }
      }
      assert docs[..|docs|] == docs;
    }

    /** `append` of one message, unless the daemon dies first. */
    method Append(turn: int, kind: Kind, ghost a: Action) returns (alive: bool)
      requires Valid() && Enabled(View(), a) && Apply(View(), a).docs == docs + [Doc(turn, kind, false)]
      modifies this
      ensures Valid() && alive == (old(writesLeft) > 0)
      ensures alive ==> View() == Apply(old(View()), a)
      ensures !alive ==> docs == old(docs) && phase == Idle
    {
      alive := writesLeft > 0;
      if alive {
        ghost var before := View();
        docs, writesLeft := docs + [Doc(turn, kind, false)], writesLeft - 1;
        phase := Apply(before, a).phase;
        Took(before, a);
      } else {
        MoveOn(Crash);
      }
    }

    /** `compact`: one flag after another; a crash cuts it short. */
    method Compact(keepFrom: int) returns (alive: bool)
      requires Valid() && (phase.Compacting? || phase.Recovering?) && Cutoff(phase) == keepFrom
      modifies this
      ensures Valid() && PartlyCompacted(old(docs), keepFrom, docs)
      ensures alive ==> docs == Compacted(old(docs), keepFrom) && phase == old(phase)
      ensures !alive ==> phase == Idle
    {
      var i := 0;
      while i < |docs|
        invariant 0 <= i <= |docs| == |old(docs)| && Valid() && phase == old(phase)
        invariant forall j :: 0 <= j < i ==> docs[j] == Compacted(old(docs), keepFrom)[j]
        invariant forall j :: i <= j < |docs| ==> docs[j] == old(docs)[j]
      {
        if docs[i].turn < keepFrom {
          if writesLeft == 0 {
            MoveOn(Crash);
            return false;
          }
          ghost var before := View();
          docs, writesLeft := docs[i := docs[i].(compacted := true)], writesLeft - 1;
          Took(before, CompactOne(i));
        }
        i := i + 1;
      }
      alive := true;
    }

    /** The compaction under a summary just stored, to its end unless the daemon dies. */
    method CompactBelow(at: int, ghost before: seq<Doc>) returns (alive: bool)
      requires Valid() && (phase.Compacting? || phase.Recovering?) && Cutoff(phase) == at
      requires docs == before + [Doc(at, Summary, false)]
      modifies this
      ensures Valid() && Remembered(docs)
      ensures !alive ==> OnlyFlagged(before, docs)
      ensures alive ==> docs == Compacted(before, at) + [Doc(at, Summary, false)]
      ensures alive ==> forall i :: 0 <= i < |docs| ==> (Live(docs[i]) <==> i == |docs| - 1)
      ensures phase == if alive && old(phase).Recovering? then Running(LastTurn(docs) + 1) else Idle
    {
      alive := Compact(at);
      ReachableKeepsInv(View(), trace);
      if alive {
        OnlyTheLastIsLive(View(), trace, before);
        MoveOn(FinishCompaction);
      }
    }

    /**
     * The summary first, above everything live, then the compaction below it.
     * Completed, `load()` reads only the summary; cut anywhere, the state is one of
     * the protocol's all the same, in which nothing is forgotten.
     */
    method SummariseThenCompact(at: int, ghost save: Action) returns (alive: bool)
      requires Valid() && (save.SaveSummary? || save.SaveRecoverySummary?) && Enabled(View(), save)
      requires at == if save.SaveSummary? then phase.before + 1 else phase.turn + 1
      modifies this
      ensures Valid() && Remembered(docs)
      ensures alive ==> docs == Compacted(old(docs), at) + [Doc(at, Summary, false)]
      ensures !alive ==> OnlyFlagged(old(docs), docs)
      ensures alive ==> forall i :: 0 <= i < |docs| ==> (Live(docs[i]) <==> i == |docs| - 1)
      ensures phase == if alive && save.SaveRecoverySummary? then Running(LastTurn(docs) + 1) else Idle
    {
      ghost var before := docs;
      alive := Append(at, Summary, save);
      if alive {
        alive := CompactBelow(at, before);
      } else {
        ReachableKeepsInv(View(), trace);
      }
    }

    /** `forceCompactSession`, whose caller asks for a turn above 0. */
    method ForceCompactSession(nextTurn: int) returns (alive: bool)
      requires Valid() && phase == Running(nextTurn) && nextTurn > 0
      modifies this
      ensures Valid() && Remembered(docs)
      ensures alive ==> |docs| == |old(docs)| + 1 && docs[|docs| - 1] == Doc(nextTurn + 1, Summary, false)
      ensures alive ==> forall i :: 0 <= i < |old(docs)| ==> docs[i] == old(docs)[i].(compacted := true)
      ensures !alive ==> OnlyFlagged(old(docs), docs)
      ensures alive ==> forall i :: 0 <= i < |docs| ==> (Live(docs[i]) <==> i == |docs| - 1)
      ensures phase == if alive then Running(nextTurn + 2) else Idle
    {
      ghost var before := docs;
      RunningTurnIsTheLast(View(), trace);
      alive := SummariseThenCompact(nextTurn + 1, SaveRecoverySummary);
      if alive {
        HighestOfRecovered(before, nextTurn, docs);
      }
    }

    /**
     * `runReflection`, whose loop stores `messages` reflection messages: without a
     * summary text the history stays as it is; with one, `load()` ends up reading
     * only the summary.
     */
    method RunReflection(messages: nat, summary: string) returns (alive: bool)
      requires Valid() && phase == Idle
      modifies this
      ensures Valid() && Remembered(docs) && phase == Idle
      ensures summary == "" ==> old(docs) <= docs
      ensures alive ==> |docs| == |old(docs)| + messages + if summary == "" then 0 else 1
      ensures alive ==> forall i :: |old(docs)| <= i < |old(docs)| + messages ==>
                docs[i].turn == LastTurn(old(docs)) + 1 && docs[i].kind == Reflection && !docs[i].compacted
      ensures OnlyFlagged(old(docs), docs)
      ensures alive && summary != "" ==> forall i :: 0 <= i < |old(docs)| ==> docs[i].compacted
      ensures alive && summary != "" ==> |docs| > 0 && docs[|docs| - 1] == Doc(LastTurn(old(docs)) + 1, Summary, false)
      ensures alive && summary != "" ==> forall i :: 0 <= i < |docs| ==> (Live(docs[i]) <==> i == |docs| - 1)
    {
      var turn := LastTurnNumber();
      MoveOn(BeginReflection);
      alive := true;
      var n := 0;
      while n < messages && alive
        invariant Valid() && old(docs) <= docs && phase == if alive then Reflecting(turn) else Idle
        invariant n <= messages && (alive ==> |docs| == |old(docs)| + n)
        invariant forall i :: |old(docs)| <= i < |docs| ==> docs[i] == Doc(turn + 1, Reflection, false)
        decreases messages - n, alive
      {
        alive := Append(turn + 1, Reflection, ReflectionMessage);
        n := n + 1;
      }
      if alive {
        if summary != "" {
          alive := SummariseThenCompact(turn + 1, SaveSummary);
        } else {
          MoveOn(AbandonReflection);
        }
      }
      ReachableKeepsInv(View(), trace);
    }
  }

  lemma HighestOfRecovered(before: seq<Doc>, turn: int, docs: seq<Doc>)
    requires turn >= 0 && UpTo(before, turn) && docs == Compacted(before, turn + 1) + [Doc(turn + 1, Summary, false)]
    ensures LastTurn(docs) == turn + 1
  {
    assert docs[|before|].turn == turn + 1;
    assert forall i :: 0 <= i < |before| ==> docs[i].turn == before[i].turn;
  }
}
