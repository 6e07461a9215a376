/**
 * Repairing an interrupted history (reflection.ts): the tool calls that never got
 * a result are answered once, in the store, before the next turn; what is read
 * for the model is patched again on every load.
 */
module HistoryRepair {
  import opened Messages
  import opened ToolPairing
  import Pruning
  import InnerLoop
  import Seqs

  /** A stored message with its turn; `load()` returns them by turn, then position. */
  datatype Stored = Stored(turn: nat, message: Message)

  datatype DanglingCall = DanglingCall(turn: nat, call: CallRef)

  function Msgs(h: seq<Stored>): seq<Message> {
    seq(|h|, i requires 0 <= i < |h| => h[i].message)
  }

  function Stamp(turn: nat, ms: seq<Message>): seq<Stored> {
    seq(|ms|, i requires 0 <= i < |ms| => Stored(turn, ms[i]))
  }

  /** Appending to a turn: the message is read back behind that turn's messages. */
  function Insert(h: seq<Stored>, x: Stored): seq<Stored>
    decreases |h|
  {
    if h != [] && h[0].turn <= x.turn then [h[0]] + Insert(h[1..], x) else [x] + h
  }

  function InsertAll(h: seq<Stored>, xs: seq<Stored>): seq<Stored>
    decreases |xs|
  {
    if xs == [] then h else InsertAll(Insert(h, xs[0]), xs[1..])
  }

  // ------------------------------------------------------------------ dangling calls

  function IdsOf(refs: seq<CallRef>): set<nat> {
    set r | r in refs :: r.id
  }

  function Unanswered(refs: seq<CallRef>, answered: set<nat>): seq<CallRef> {
    if refs == [] then []
    else (if refs[0].id in answered then [] else [refs[0]]) + Unanswered(refs[1..], answered)
  }

  function AtTurn(turn: nat, refs: seq<CallRef>): seq<DanglingCall> {
    seq(|refs|, i requires 0 <= i < |refs| => DanglingCall(turn, refs[i]))
  }

  function DanglingOf(s: Stored, answered: set<nat>): seq<DanglingCall> {
    AtTurn(s.turn, Unanswered(CallsOf(s.message), answered))
  }

  function DanglingIn(h: seq<Stored>, answered: set<nat>): seq<DanglingCall> {
    if h == [] then [] else DanglingOf(h[0], answered) + DanglingIn(h[1..], answered)
  }

  function Dangling(h: seq<Stored>): seq<DanglingCall> {
    DanglingIn(h, IdsOf(Results(Msgs(h))))
  }

  function LostResult(d: DanglingCall): Stored {
    Stored(d.turn, ToolResult(d.call.id, d.call.name, [Text(d.call.name + " lost")], true))
  }

  /** `syntheticResultsFor`. */
  function SyntheticResults(ds: seq<DanglingCall>): seq<Stored> {
    seq(|ds|, i requires 0 <= i < |ds| => LostResult(ds[i]))
  }

  /** `loadRepairedHistory`. */
  function Repaired(h: seq<Stored>): seq<Stored> {
    InsertAll(h, SyntheticResults(Dangling(h)))
  }

  function RefsOf(ds: seq<DanglingCall>): seq<CallRef> {
    seq(|ds|, i requires 0 <= i < |ds| => ds[i].call)
  }

  lemma {:induction false} UnansweredSplits(a: seq<CallRef>, b: seq<CallRef>, answered: set<nat>)
    ensures Unanswered(a + b, answered) == Unanswered(a, answered) + Unanswered(b, answered)
    decreases |a|
  {
    if a == [] {
      Seqs.NothingBefore(b);
      Seqs.NothingBefore(Unanswered(b, answered));
    } else {
      UnansweredSplits(a[1..], b, answered);
      Seqs.TailOfConcat(a, b);
      Seqs.Regroup(if a[0].id in answered then [] else [a[0]], Unanswered(a[1..], answered), Unanswered(b, answered));
    }
  }

  lemma {:induction false} AllAnswered(refs: seq<CallRef>, answered: set<nat>)
    requires forall r :: r in refs ==> r.id in answered
    ensures Unanswered(refs, answered) == []
  {
    if refs != [] {
      AllAnswered(refs[1..], answered);
    }
  }

  lemma {:induction false} NoneAnswered(refs: seq<CallRef>, answered: set<nat>)
    requires forall r :: r in refs ==> r.id !in answered
    ensures Unanswered(refs, answered) == refs
  {
    if refs != [] {
      NoneAnswered(refs[1..], answered);
    }
  }

  lemma RefsOfConcat(a: seq<DanglingCall>, b: seq<DanglingCall>)
    ensures RefsOf(a + b) == RefsOf(a) + RefsOf(b)
  {
  }

  lemma RefsAtTurn(turn: nat, refs: seq<CallRef>)
    ensures RefsOf(AtTurn(turn, refs)) == refs
  {
  }

  /** The dangling calls are the unanswered ones, in order. */
  lemma {:induction false} DanglingRefs(h: seq<Stored>, answered: set<nat>)
    ensures RefsOf(DanglingIn(h, answered)) == Unanswered(Calls(Msgs(h)), answered)
  {
    if h != [] {
      DanglingRefs(h[1..], answered);
      assert Msgs(h)[1..] == Msgs(h[1..]);
      UnansweredSplits(CallsOf(h[0].message), Calls(Msgs(h[1..])), answered);
      RefsOfConcat(DanglingOf(h[0], answered), DanglingIn(h[1..], answered));
      RefsAtTurn(h[0].turn, Unanswered(CallsOf(h[0].message), answered));
    }
  }

  /** In a cut history with distinct ids, the dangling calls are exactly the missing ones. */
  lemma DanglingIsMissing(h: seq<Stored>)
    requires Cut(Msgs(h)) && Distinct(Calls(Msgs(h)))
    ensures RefsOf(Dangling(h)) == Missing(Msgs(h))
  {
    var results, missing := Results(Msgs(h)), Missing(Msgs(h));
    CallsAreResultsThenMissing(Msgs(h));
    DanglingRefs(h, IdsOf(results));
    UnansweredSplits(results, missing, IdsOf(results));
    AllAnswered(results, IdsOf(results));
    forall r | r in missing ensures r.id !in IdsOf(results) {
      DistinctSides(results, missing, r);
    }
    NoneAnswered(missing, IdsOf(results));
  }

  lemma DistinctSides(a: seq<CallRef>, b: seq<CallRef>, r: CallRef)
    requires Distinct(a + b) && r in b
    ensures r.id !in IdsOf(a)
  {
    var j :| 0 <= j < |b| && b[j] == r;
    forall i | 0 <= i < |a| ensures a[i].id != r.id {
      assert (a + b)[i] == a[i] && (a + b)[|a| + j] == r;
    }
  }

  // ------------------------------------------------------------------ repair

  lemma {:induction false} InsertLast(h: seq<Stored>, x: Stored)
    requires forall s :: s in h ==> s.turn <= x.turn
    ensures Insert(h, x) == h + [x]
  {
    if h != [] {
      InsertLast(h[1..], x);
    }
  }

  lemma {:induction false} InsertAllLast(h: seq<Stored>, xs: seq<Stored>)
    requires forall s, x :: s in h + xs && x in xs ==> s.turn <= x.turn
    ensures InsertAll(h, xs) == h + xs
    decreases |xs|
  {
    if xs != [] {
      InsertLast(h, xs[0]);
      assert h + xs == h + [xs[0]] + xs[1..];
      InsertAllLast(h + [xs[0]], xs[1..]);
    }
  }

  lemma MsgsOfConcat(a: seq<Stored>, b: seq<Stored>)
    ensures Msgs(a + b) == Msgs(a) + Msgs(b)
  {
  }

  function LastTurn(h: seq<Stored>): nat {
    if h == [] then 0 else h[|h| - 1].turn
  }

  /** What every live history satisfies: cut at most at its end, in the last turn, with distinct call ids. */
  ghost predicate Sound(h: seq<Stored>) {
    && Cut(Msgs(h))
    && Distinct(Calls(Msgs(h)))
    && (forall s :: s in h ==> s.turn <= LastTurn(h))
    && (forall d :: d in Dangling(h) ==> d.turn == LastTurn(h))
  }

  lemma RepairAppends(h: seq<Stored>)
    requires Sound(h)
    ensures Repaired(h) == h + SyntheticResults(Dangling(h))
    ensures Answers(Msgs(SyntheticResults(Dangling(h))), Missing(Msgs(h)))
  {
    DanglingIsMissing(h);
    var ds := Dangling(h);
    var xs := SyntheticResults(ds);
    forall i | 0 <= i < |xs| ensures Msgs(xs)[i].id == RefsOf(ds)[i].id && Msgs(xs)[i].name == RefsOf(ds)[i].name {
    }
    forall x | x in xs ensures x.turn == LastTurn(h) {
      var i :| 0 <= i < |xs| && xs[i] == x;
      assert ds[i] in ds;
    }
    InsertAllLast(h, xs);
  }

  lemma SyntheticHaveNoCalls(ds: seq<DanglingCall>)
    ensures Calls(Msgs(SyntheticResults(ds))) == []
    ensures Results(Msgs(SyntheticResults(ds))) == RefsOf(ds)
  {
    var xs := Msgs(SyntheticResults(ds));
    assert forall i :: 0 <= i < |ds| ==> xs[i] == LostResult(ds[i]).message;
    AnswersAreTheCalls(xs, RefsOf(ds));
  }

  lemma PairedHasNoDangling(h: seq<Stored>)
    requires Paired(Msgs(h)) && Distinct(Calls(Msgs(h)))
    ensures Dangling(h) == []
    ensures Repaired(h) == h
  {
    var ms := Msgs(h);
    PrefixIsCut(ms, |ms|);
    assert ms[..|ms|] == ms;
    PairedMissesNothing(ms);
    DanglingIsMissing(h);
  }

  /**
   * One repair makes an interrupted history strictly paired, keeps all that was
   * stored, and leaves nothing for a second one.
   */
  lemma RepairCompletes(h: seq<Stored>)
    requires Sound(h)
    ensures Paired(Msgs(Repaired(h)))
    ensures h <= Repaired(h) && |Repaired(h)| == |h| + |Dangling(h)|
    ensures Dangling(Repaired(h)) == [] && Repaired(Repaired(h)) == Repaired(h)
    ensures Calls(Msgs(Repaired(h))) == Calls(Msgs(h))
    ensures Sound(Repaired(h)) && LastTurn(Repaired(h)) == LastTurn(h)
  {
    var xs := SyntheticResults(Dangling(h));
    RepairAppends(h);
    MsgsOfConcat(h, xs);
    AnswersComplete(Msgs(h), Msgs(xs));
    SplitCalls(Msgs(h), Msgs(xs));
    SyntheticHaveNoCalls(Dangling(h));
    PairedHasNoDangling(Repaired(h));
    PrefixIsCut(Msgs(Repaired(h)), |Repaired(h)|);
    assert Msgs(Repaired(h))[..|Repaired(h)|] == Msgs(Repaired(h));
    SyntheticAtLastTurn(h);
  }

  /** What a repair appends are errors that name their tool, in the last turn. */
  lemma RepairAppendsErrors(h: seq<Stored>, i: nat)
    requires Sound(h) && |h| <= i < |Repaired(h)|
    ensures var s := Repaired(h)[i];
            && s.turn == LastTurn(h) && s.message.ToolResult? && s.message.isError
            && s.message.result == [Text(s.message.name + " lost")]
  {
    RepairAppends(h);
    SyntheticAtLastTurn(h);
  }

  lemma SyntheticAtLastTurn(h: seq<Stored>)
    requires Sound(h)
    ensures forall i :: 0 <= i < |Dangling(h)| ==> SyntheticResults(Dangling(h))[i].turn == LastTurn(h)
    ensures LastTurn(h + SyntheticResults(Dangling(h))) == LastTurn(h)
  {
    assert forall i :: 0 <= i < |Dangling(h)| ==> Dangling(h)[i] in Dangling(h);
    if h == [] {
      assert Dangling(h) == [];
    }
  }

  // ------------------------------------------------------------------ every history

  /** What happens to an agent's live history. */
  datatype Event =
    /** A turn: the history is repaired, then a main run appends until it ends or its next append fails. */
    | Turn(turn: nat, task: string, replies: seq<InnerLoop.Reply>, appends: nat)
    /** The daemon dies while a repair is appending. */
    | RepairCut(appends: nat)
    /** The history is compacted into one summary. */
    | Summarised(turn: nat, text: string)
    /** The same, on a history repaired at this wakeup, cut short with only these documents flagged. */
    | SummaryCut(turn: nat, text: string, flagged: set<nat>)

  function TurnLog(e: Event): seq<Stored>
    requires e.Turn?
  {
    Stamp(e.turn, InnerLoop.UpTo(InnerLoop.RunLog(e.task, e.replies, InnerLoop.NoCap), e.appends))
  }

  /** A document of a history under compaction, and whether it is flagged yet. */
  datatype Marked = Marked(doc: Stored, gone: bool)

  function Marks(h: seq<Stored>, flagged: set<nat>): seq<Marked> {
    seq(|h|, i requires 0 <= i < |h| => Marked(h[i], i in flagged))
  }

  /** What `load()` still reads. */
  function Left(f: seq<Marked>): seq<Stored> {
    if f == [] then [] else (if f[0].gone then [] else [f[0].doc]) + Left(f[1..])
  }

  /** A compaction cut short: its summary is stored, some of the documents below it are flagged. */
  function PartlyCompacted(h: seq<Stored>, flagged: set<nat>, turn: nat, text: string): seq<Stored> {
    Left(Marks(h, flagged)) + [Stored(turn, Summary(text))]
  }

  function Apply(h: seq<Stored>, e: Event): seq<Stored> {
    match e
    case Turn(turn, task, replies, appends) => Repaired(h) + TurnLog(e)
    case RepairCut(appends) =>
      InsertAll(h, SyntheticResults(Dangling(h)[..if appends < |Dangling(h)| then appends else |Dangling(h)|]))
    case Summarised(turn, text) => [Stored(turn, Summary(text))]
    case SummaryCut(turn, text, flagged) => PartlyCompacted(Repaired(h), flagged, turn, text)
  }

  /**
   * New turns get new numbers, and the model's call ids do not repeat within the live
   * history, its results included.
   */
  ghost predicate Enabled(h: seq<Stored>, e: Event) {
    && (!e.RepairCut? && h != [] ==> e.turn > LastTurn(h))
    && (e.Turn? ==> IdsOf(Calls(Msgs(TurnLog(e)))) * IdsOf(Results(Msgs(h))) == {})
    && Distinct(Calls(Msgs(Apply(h, e))))
  }

  ghost predicate Reachable(h: seq<Stored>, es: seq<Event>)
    decreases |es|
  {
    if es == [] then h == []
    else
      var e := es[|es| - 1];
      exists g :: Reachable(g, es[..|es| - 1]) && Enabled(g, e) && h == Apply(g, e)
  }

  lemma {:induction false} DanglingSplits(a: seq<Stored>, b: seq<Stored>, answered: set<nat>)
    ensures DanglingIn(a + b, answered) == DanglingIn(a, answered) + DanglingIn(b, answered)
    decreases |a|
  {
    if a == [] {
      Seqs.NothingBefore(b);
      Seqs.NothingBefore(DanglingIn(b, answered));
    } else {
      DanglingSplits(a[1..], b, answered);
      Seqs.TailOfConcat(a, b);
      Seqs.Regroup(DanglingOf(a[0], answered), DanglingIn(a[1..], answered), DanglingIn(b, answered));
    }
  }

  lemma {:induction false} DanglingComesFrom(h: seq<Stored>, answered: set<nat>, d: DanglingCall)
    requires d in DanglingIn(h, answered)
    ensures exists s :: s in h && s.turn == d.turn
  {
    if d in DanglingOf(h[0], answered) {
      assert h[0] in h;
    } else {
      DanglingComesFrom(h[1..], answered, d);
    }
  }

  lemma {:induction false} UnansweredShrinks(refs: seq<CallRef>, few: set<nat>, many: set<nat>)
    requires few <= many
    ensures forall r :: r in Unanswered(refs, many) ==> r in Unanswered(refs, few)
  {
    if refs != [] {
      UnansweredShrinks(refs[1..], few, many);
    }
  }

  lemma {:induction false} DanglingShrinks(h: seq<Stored>, few: set<nat>, many: set<nat>, d: DanglingCall)
    requires few <= many && d in DanglingIn(h, many)
    ensures d in DanglingIn(h, few)
  {
    var refs := CallsOf(h[0].message);
    var here := AtTurn(h[0].turn, Unanswered(refs, many));
    if d in here {
      UnansweredShrinks(refs, few, many);
      var i :| 0 <= i < |here| && here[i] == d;
      assert Unanswered(refs, many)[i] in Unanswered(refs, many);
      var j :| 0 <= j < |Unanswered(refs, few)| && Unanswered(refs, few)[j] == d.call;
      assert AtTurn(h[0].turn, Unanswered(refs, few))[j] == d;
    } else {
      DanglingShrinks(h[1..], few, many, d);
    }
  }

  lemma NothingDanglesAgain(h: seq<Stored>, more: seq<Stored>)
    requires Dangling(h) == []
    ensures forall d :: d in Dangling(h + more) ==> exists s :: s in more && s.turn == d.turn
  {
    var few, many := IdsOf(Results(Msgs(h))), IdsOf(Results(Msgs(h + more)));
    MsgsOfConcat(h, more);
    SplitResults(Msgs(h), Msgs(more));
    forall d | d in Dangling(h + more) ensures exists s :: s in more && s.turn == d.turn {
      DanglingSplits(h, more, many);
      if d in DanglingIn(h, many) {
        DanglingShrinks(h, few, many, d);
        assert false;
      } else {
        DanglingComesFrom(more, many, d);
      }
    }
  }

  lemma TurnLogIsCut(e: Event)
    requires e.Turn?
    ensures Cut(Msgs(TurnLog(e)))
    ensures forall s :: s in TurnLog(e) ==> s.turn == e.turn
  {
    var run := InnerLoop.RunLog(e.task, e.replies, InnerLoop.NoCap);
    var upTo := InnerLoop.UpTo(run, e.appends);
    InnerLoop.UncappedRunIsPaired(e.task, e.replies);
    PrefixIsCut(run, |upTo|);
    assert Msgs(TurnLog(e)) == upTo == run[..|upTo|];
  }

  lemma GrowthIsSound(h: seq<Stored>, more: seq<Stored>, turn: nat)
    requires Paired(Msgs(h)) && Dangling(h) == [] && Cut(Msgs(more)) && Distinct(Calls(Msgs(h + more)))
    requires forall s :: s in h ==> s.turn <= LastTurn(h)
    requires forall s :: s in more ==> s.turn == turn
    requires LastTurn(h) <= turn
    ensures Sound(h + more)
  {
    MsgsOfConcat(h, more);
    PairedThen(Msgs(h), Msgs(more));
    NothingDanglesAgain(h, more);
    if more == [] {
      assert h + more == h;
    } else {
      assert more[|more| - 1] in more;
    }
  }

  lemma TurnKeepsSound(h: seq<Stored>, e: Event)
    requires Sound(h) && e.Turn? && Enabled(h, e)
    ensures Sound(Apply(h, e))
  {
    RepairCompletes(h);
    TurnLogIsCut(e);
    GrowthIsSound(Repaired(h), TurnLog(e), e.turn);
  }

  lemma SomeAnswers(h: seq<Stored>, n: nat) returns (xs: seq<Stored>)
    requires Sound(h) && n <= |Dangling(h)|
    ensures xs == SyntheticResults(Dangling(h)[..n]) && InsertAll(h, xs) == h + xs
    ensures forall x :: x in xs ==> x.turn == LastTurn(h)
    ensures xs == SyntheticResults(Dangling(h))[..n]
  {
    var ds := Dangling(h);
    xs := SyntheticResults(ds[..n]);
    SyntheticAtLastTurn(h);
    assert xs == SyntheticResults(ds)[..n];
    InsertAllLast(h, xs);
  }

  lemma RepairCutKeepsSound(h: seq<Stored>, e: Event)
    requires Sound(h) && e.RepairCut? && Enabled(h, e)
    ensures Sound(Apply(h, e))
  {
    var n := if e.appends < |Dangling(h)| then e.appends else |Dangling(h)|;
    var xs := SomeAnswers(h, n);
    RepairPrefixIsCut(h, n, xs);
    StillAtLastTurn(h, xs);
  }

  lemma PrefixOfMsgs(a: seq<Stored>, b: seq<Stored>, n: nat)
    requires n <= |b|
    ensures Msgs(a + b)[..|a| + n] == Msgs(a + b[..n])
  {
  }

  lemma RepairPrefixIsCut(h: seq<Stored>, n: nat, xs: seq<Stored>)
    requires Sound(h) && n <= |Dangling(h)| && xs == SyntheticResults(Dangling(h))[..n]
    ensures Cut(Msgs(h + xs))
  {
    RepairAppends(h);
    RepairCompletes(h);
    PairedThenPrefix(h, SyntheticResults(Dangling(h)), n);
  }

  lemma PairedThenPrefix(h: seq<Stored>, all: seq<Stored>, n: nat)
    requires Paired(Msgs(h + all)) && n <= |all|
    ensures Cut(Msgs(h + all[..n]))
  {
    PrefixOfMsgs(h, all, n);
    PrefixIsCut(Msgs(h + all), |h| + n);
  }

  lemma StillAtLastTurn(h: seq<Stored>, xs: seq<Stored>)
    requires Sound(h) && forall x :: x in xs ==> x.turn == LastTurn(h)
    ensures LastTurn(h + xs) == LastTurn(h)
    ensures forall d :: d in Dangling(h + xs) ==> d.turn == LastTurn(h)
  {
    var few, many := IdsOf(Results(Msgs(h))), IdsOf(Results(Msgs(h + xs)));
    MsgsOfConcat(h, xs);
    SplitResults(Msgs(h), Msgs(xs));
    forall d | d in Dangling(h + xs) ensures d.turn == LastTurn(h) {
      DanglingSplits(h, xs, many);
      if d in DanglingIn(h, many) {
        DanglingShrinks(h, few, many, d);
      } else {
        DanglingComesFrom(xs, many, d);
      }
    }
    if xs != [] {
      assert xs[|xs| - 1] in xs;
    }
  }

  lemma SummaryIsSound(turn: nat, text: string)
    ensures Sound([Stored(turn, Summary(text))])
  {
    var h := [Stored(turn, Summary(text))];
    assert Msgs(h) == [Summary(text)];
    assert h[1..] == [] && Msgs(h)[1..] == [];
    assert Calls(Msgs(h)) == [] && Cut(Msgs(h));
    NoCallsNoDangling(h);
  }

  lemma NoCallsNoDangling(h: seq<Stored>)
    requires Calls(Msgs(h)) == []
    ensures Dangling(h) == []
  {
    DanglingRefs(h, IdsOf(Results(Msgs(h))));
  }

  /** Every compaction completes. */
  predicate NoSummaryCut(es: seq<Event>) {
    forall i :: 0 <= i < |es| ==> !es[i].SummaryCut?
  }

  /**
   * However turns are cut short (by a crash after any append, or a hook that
   * throws), however often a repair itself is cut, and whenever the history is
   * compacted: it stays cut at most at the end of its last turn. What holds when
   * compactions are cut short as well is in `CompactionCuts`.
   */
  lemma {:induction false} HistoriesAreSound(h: seq<Stored>, es: seq<Event>)
    requires Reachable(h, es) && NoSummaryCut(es)
    ensures Sound(h)
    decreases |es|
  {
    if es != [] {
      var e := es[|es| - 1];
      var g :| Reachable(g, es[..|es| - 1]) && Enabled(g, e) && h == Apply(g, e);
      HistoriesAreSound(g, es[..|es| - 1]);
      match e {
        case Turn(_, _, _, _) => TurnKeepsSound(g, e);
        case RepairCut(_) => RepairCutKeepsSound(g, e);
        case Summarised(turn, text) => SummaryIsSound(turn, text);
        case SummaryCut(_, _, _) =>
      }
    }
  }

  /** The next wakeup starts from a strictly paired history, and has nothing left to repair. */
  lemma EveryWakeupIsPaired(h: seq<Stored>, es: seq<Event>)
    requires Reachable(h, es) && NoSummaryCut(es)
    ensures Paired(Msgs(Repaired(h)))
    ensures h <= Repaired(h)
    ensures Repaired(Repaired(h)) == Repaired(h)
  {
    HistoriesAreSound(h, es);
    RepairCompletes(h);
  }
}
