/**
 * Compactions cut short (reflection.ts, agent-runner.ts, conversation-repository.ts):
 * the summary is stored and only some of the documents below it are flagged when the
 * daemon dies. Which sets of flagged documents leave later turns a strictly paired
 * history, and which do not.
 */
module CompactionCuts {
  import opened Messages
  import opened ToolPairing
  import opened HistoryRepair
  import opened HistoryTurns
  import HistoryView
  import InnerLoop
  import Seqs

  // ------------------------------------------------------------------ flags over rounds

  function Docs(f: seq<Marked>): seq<Stored> {
    seq(|f|, i requires 0 <= i < |f| => f[i].doc)
  }

  predicate AllLeft(f: seq<Marked>) {
    forall i :: 0 <= i < |f| ==> !f[i].gone
  }

  /** What is flagged of it is its end. */
  predicate EndGone(f: seq<Marked>) {
    forall i, j :: 0 <= i < j < |f| && f[i].gone ==> f[j].gone
  }

  /** Every message but tool results is flagged. */
  predicate NothingLeft(f: seq<Marked>) {
    forall i :: 0 <= i < |f| ==> f[i].gone || f[i].doc.message.ToolResult?
  }

  /**
   * Of every round whose calls are left, all results are left too, or they are
   * flagged at the end and nothing but results is left behind them.
   */
  predicate KeepsRounds(f: seq<Marked>)
    decreases |f|
  {
    if f == [] then true
    else
      var k := |CallsOf(f[0].doc.message)|;
      if 1 + k > |f| then false
      else
        && (f[0].gone || AllLeft(f[1..1 + k]) || (EndGone(f[1..1 + k]) && NothingLeft(f[1 + k..])))
        && KeepsRounds(f[1 + k..])
  }

  function MarkedOwned(f: seq<Marked>, called: set<nat>): seq<Marked> {
    if f == [] then [] else (if Kept(f[0].doc.message, called) then [f[0]] else []) + MarkedOwned(f[1..], called)
  }

  function MarkedOfTurn(f: seq<Marked>, turn: nat): seq<Marked> {
    if f == [] then [] else (if f[0].doc.turn == turn then [f[0]] else []) + MarkedOfTurn(f[1..], turn)
  }

  /** One turn's messages with their flags, results without their call left aside. */
  function TurnMarks(g: seq<Stored>, flagged: set<nat>, turn: nat): seq<Marked> {
    MarkedOfTurn(MarkedOwned(Marks(g, flagged), CallIds(g)), turn)
  }

  /** The flags keep the rounds of every turn. */
  ghost predicate KeepsPairs(g: seq<Stored>, flagged: set<nat>) {
    forall t :: KeepsRounds(TurnMarks(g, flagged, t))
  }

  // ------------------------------------------------------------------ one turn

  lemma {:induction false} LeftConcat(a: seq<Marked>, b: seq<Marked>)
    ensures Left(a + b) == Left(a) + Left(b)
    decreases |a|
  {
    if a == [] {
      Seqs.NothingBefore(b);
      Seqs.NothingBefore(Left(b));
    } else {
      LeftConcat(a[1..], b);
      Seqs.TailOfConcat(a, b);
      Seqs.Regroup(if a[0].gone then [] else [a[0].doc], Left(a[1..]), Left(b));
    }
  }

  lemma {:induction false} AllLeftIsAll(f: seq<Marked>)
    ensures |Left(f)| <= |f|
    ensures AllLeft(f) <==> |Left(f)| == |f|
    ensures AllLeft(f) ==> Left(f) == Docs(f)
  {
    if f != [] {
      AllLeftIsAll(f[1..]);
      assert AllLeft(f) <==> !f[0].gone && AllLeft(f[1..]);
      assert Docs(f) == [f[0].doc] + Docs(f[1..]);
    }
  }

  lemma {:induction false} InLeft(f: seq<Marked>, s: Stored)
    ensures s in Left(f) ==> exists i :: 0 <= i < |f| && f[i].doc == s && !f[i].gone
  {
    if f != [] && s in Left(f) && !(s == f[0].doc && !f[0].gone) {
      InLeft(f[1..], s);
      var i :| 0 <= i < |f[1..]| && f[1..][i].doc == s && !f[1..][i].gone;
      assert f[i + 1].doc == s;
    }
  }

  lemma {:induction false} LeftHas(f: seq<Marked>, i: nat)
    requires i < |f| && !f[i].gone
    ensures f[i].doc in Left(f)
  {
    if i > 0 {
      LeftHas(f[1..], i - 1);
    }
  }

  /** The results left of a round are its first ones exactly when what is flagged is its end. */
  lemma {:induction false} LeftIsPrefix(f: seq<Marked>, cs: seq<CallRef>)
    requires Answers(Msgs(Docs(f)), cs) && Distinct(cs)
    ensures |Left(f)| <= |cs|
    ensures Answers(Msgs(Left(f)), cs[..|Left(f)|]) <==> EndGone(f)
    decreases |f|
  {
    AllLeftIsAll(f);
    if f != [] {
      assert Docs(f)[1..] == Docs(f[1..]) && Msgs(Docs(f))[1..] == Msgs(Docs(f[1..]));
      assert Answers(Msgs(Docs(f[1..])), cs[1..]) by {
        forall i | 0 <= i < |cs[1..]|
          ensures var m := Msgs(Docs(f[1..]))[i]; m.ToolResult? && m.id == cs[1..][i].id && m.name == cs[1..][i].name
        {
          assert Msgs(Docs(f[1..]))[i] == Msgs(Docs(f))[i + 1];
        }
      }
      LeftIsPrefix(f[1..], cs[1..]);
      if f[0].gone {
        HeadGone(f, cs);
      } else {
        HeadLeft(f, cs);
      }
    }
  }

  lemma AnswersTail(m: Message, ms: seq<Message>, c: CallRef, cs: seq<CallRef>)
    requires m.ToolResult? && m.id == c.id && m.name == c.name
    ensures Answers([m] + ms, [c] + cs) <==> Answers(ms, cs)
  {
    if Answers([m] + ms, [c] + cs) {
      forall i | 0 <= i < |cs| ensures ms[i].ToolResult? && ms[i].id == cs[i].id && ms[i].name == cs[i].name {
        assert ([m] + ms)[i + 1] == ms[i] && ([c] + cs)[i + 1] == cs[i];
      }
    }
  }

  lemma {:induction false} HeadLeft(f: seq<Marked>, cs: seq<CallRef>)
    requires f != [] && !f[0].gone && Answers(Msgs(Docs(f)), cs) && |Left(f[1..])| <= |cs| - 1
    ensures EndGone(f) <==> EndGone(f[1..])
    ensures Answers(Msgs(Left(f)), cs[..|Left(f)|]) <==> Answers(Msgs(Left(f[1..])), cs[1..][..|Left(f[1..])|])
  {
    var n := |Left(f[1..])|;
    var m, rest := f[0].doc.message, Msgs(Left(f[1..]));
    assert Msgs(Docs(f))[0] == m;
    assert Msgs(Left(f)) == [m] + rest && cs[..n + 1] == [cs[0]] + cs[1..][..n];
    AnswersTail(m, rest, cs[0], cs[1..][..n]);
    if EndGone(f[1..]) {
      forall i, j | 0 <= i < j < |f| && f[i].gone ensures f[j].gone {
        assert f[1..][i - 1].gone && f[1..][j - 1] == f[j];
      }
    }
    if EndGone(f) {
      forall i, j | 0 <= i < j < |f[1..]| && f[1..][i].gone ensures f[1..][j].gone {
        assert f[i + 1].gone && f[j + 1] == f[1..][j];
      }
    }
  }

  lemma {:induction false} HeadGone(f: seq<Marked>, cs: seq<CallRef>)
    requires f != [] && f[0].gone && Answers(Msgs(Docs(f)), cs) && Distinct(cs)
    ensures |Left(f)| <= |cs|
    ensures Answers(Msgs(Left(f)), cs[..|Left(f)|]) <==> EndGone(f)
  {
    AllLeftIsAll(f);
    if Left(f) == [] {
      forall i | 0 <= i < |f| ensures f[i].gone {
        if !f[i].gone {
          LeftHas(f, i);
        }
      }
    } else {
      var s := Left(f)[0];
      InLeft(f, s);
      var i :| 0 <= i < |f| && f[i].doc == s && !f[i].gone;
      assert Msgs(Docs(f))[i] == s.message && s.message.id == cs[i].id != cs[0].id;
      assert Msgs(Left(f))[0] == s.message;
    }
  }

  lemma {:induction false} LeftAreResults(f: seq<Marked>, cs: seq<CallRef>)
    requires Answers(Msgs(Docs(f)), cs)
    ensures forall s :: s in Left(f) ==> s.message.ToolResult? && s.message.id in IdsOf(cs)
  {
    forall s | s in Left(f) ensures s.message.ToolResult? && s.message.id in IdsOf(cs) {
      InLeft(f, s);
      var i :| 0 <= i < |f| && f[i].doc == s && !f[i].gone;
      assert Msgs(Docs(f))[i] == s.message && cs[i] in cs;
    }
  }

  /** A round, and what is left of it. */
  lemma {:induction false} CutAfterRound(m: Message, left: seq<Message>, cs: seq<CallRef>, rest: seq<Message>)
    requires m.Assistant? && cs == CallsOf(m) && |left| <= |cs|
    requires forall i :: 0 <= i < |left| ==> left[i].ToolResult?
    requires rest != [] ==> !rest[0].ToolResult?
    ensures |left| == |cs| ==> (Cut([m] + left + rest) <==> Answers(left, cs) && Cut(rest))
    ensures |left| < |cs| ==> (Cut([m] + left + rest) <==> Answers(left, cs[..|left|]) && rest == [])
  {
    var all := [m] + left + rest;
    var k := |cs|;
    if |left| == k {
      assert all[1..1 + k] == left && all[1 + k..] == rest;
    } else if rest == [] {
      assert all[1..] == left && |all| == 1 + |left|;
    } else {
      assert all[1 + |left|] == rest[0];
      if 1 + k <= |all| {
        assert all[1..1 + k][|left|] == rest[0];
      } else {
        assert all[1..][|left|] == rest[0];
      }
    }
  }

  ghost predicate TellsOf(x: Marked, called: set<nat>) {
    if x.gone then IdsOf(CallsOf(x.doc.message)) !! called else IdsOf(CallsOf(x.doc.message)) <= called
  }

  /** These are the ids of the calls left, and of no flagged ones. */
  ghost predicate Tells(f: seq<Marked>, called: set<nat>) {
    forall x :: x in f ==> TellsOf(x, called)
  }

  lemma TellsTail(f: seq<Marked>, called: set<nat>, k: nat)
    requires Tells(f, called) && k <= |f|
    ensures Tells(f[k..], called)
  {
  }

  /** What `load()` reads of it after the orphans are dropped. */
  function Remains(f: seq<Marked>, called: set<nat>): seq<Stored> {
    Owned(Left(f), called)
  }

  lemma RemainsConcat(a: seq<Marked>, b: seq<Marked>, called: set<nat>)
    ensures Remains(a + b, called) == Remains(a, called) + Remains(b, called)
  {
    LeftConcat(a, b);
    OwnedConcat(Left(a), Left(b), called);
  }

  /** Of a round with flagged calls nothing remains, of another what is not flagged. */
  lemma {:induction false} RoundRemains(f: seq<Marked>, cs: seq<CallRef>, called: set<nat>)
    requires Answers(Msgs(Docs(f)), cs)
    ensures IdsOf(cs) <= called ==> Remains(f, called) == Left(f)
    ensures IdsOf(cs) !! called ==> Remains(f, called) == []
  {
    LeftAreResults(f, cs);
    if IdsOf(cs) <= called {
      AllOwned(Left(f), called);
    } else if IdsOf(cs) !! called {
      forall s | s in Left(f) ensures !Kept(s.message, called) {
        assert s.message.id in IdsOf(cs);
      }
      NoneOwned(Left(f), called);
    }
  }

  lemma {:induction false} NoneOwned(h: seq<Stored>, called: set<nat>)
    requires forall s :: s in h ==> !Kept(s.message, called)
    ensures Owned(h, called) == []
  {
    if h != [] {
      assert h[0] in h;
      NoneOwned(h[1..], called);
    }
  }

  lemma DistinctRound(ms: seq<Message>, k: nat)
    requires ms != [] && 1 <= k <= |ms| && Distinct(Calls(ms))
    ensures Distinct(CallsOf(ms[0])) && Distinct(Calls(ms[k..]))
  {
    SplitCalls(ms[..k], ms[k..]);
    Seqs.TakeThenDrop(ms, k);
    DistinctParts(Calls(ms[..k]), Calls(ms[k..]));
    assert ms[..k][0] == ms[0];
    DistinctParts(CallsOf(ms[0]), Calls(ms[..k][1..]));
  }

  lemma MarkedSlices(f: seq<Marked>, k: nat)
    requires 1 <= k <= |f|
    ensures Msgs(Docs(f[1..k])) == Msgs(Docs(f))[1..k] && Msgs(Docs(f[k..])) == Msgs(Docs(f))[k..]
  {
  }

  /** The first round of a marked paired history, and the rest. */
  lemma {:induction false} MarkedRound(f: seq<Marked>)
    requires f != [] && Paired(Msgs(Docs(f))) && Distinct(Calls(Msgs(Docs(f))))
    ensures var cs := CallsOf(f[0].doc.message);
            && !f[0].doc.message.ToolResult? && 1 + |cs| <= |f| && Distinct(cs)
            && Answers(Msgs(Docs(f[1..1 + |cs|])), cs)
            && Paired(Msgs(Docs(f[1 + |cs|..]))) && Distinct(Calls(Msgs(Docs(f[1 + |cs|..]))))
  {
    var ms := Msgs(Docs(f));
    var k := 1 + |CallsOf(ms[0])|;
    MarkedSlices(f, k);
    DistinctRound(ms, k);
  }

  lemma {:induction false} NothingRemains(f: seq<Marked>, called: set<nat>)
    requires Paired(Msgs(Docs(f))) && Distinct(Calls(Msgs(Docs(f)))) && Tells(f, called)
    ensures Remains(f, called) == [] <==> NothingLeft(f)
    ensures Remains(f, called) != [] ==> !Remains(f, called)[0].message.ToolResult?
    decreases |f|
  {
    if f != [] {
      var cs := CallsOf(f[0].doc.message);
      var k := 1 + |cs|;
      MarkedRound(f);
      TellsTail(f, called, k);
      NothingRemains(f[k..], called);
      RoundSplits(f, cs, called);
      NothingLeftByRound(f, cs);
    }
  }

  lemma NothingLeftByRound(f: seq<Marked>, cs: seq<CallRef>)
    requires f != [] && 1 + |cs| <= |f| && !f[0].doc.message.ToolResult?
    requires Answers(Msgs(Docs(f[1..1 + |cs|])), cs)
    ensures NothingLeft(f) <==> f[0].gone && NothingLeft(f[1 + |cs|..])
  {
    var k := 1 + |cs|;
    forall i | 1 <= i < k ensures f[i].doc.message.ToolResult? {
      assert Msgs(Docs(f[1..k]))[i - 1] == f[i].doc.message;
    }
    assert forall i :: 0 <= i < |f[k..]| ==> f[k..][i] == f[i + k];
    if f[0].gone && NothingLeft(f[k..]) {
      forall i | 0 <= i < |f| ensures f[i].gone || f[i].doc.message.ToolResult? {
        assert i >= k ==> f[k..][i - k] == f[i];
      }
    }
  }

  /** What remains of a history is what remains of its first round and what remains of the rest. */
  lemma {:induction false} RoundSplits(f: seq<Marked>, cs: seq<CallRef>, called: set<nat>)
    requires f != [] && !f[0].doc.message.ToolResult? && cs == CallsOf(f[0].doc.message) && 1 + |cs| <= |f|
    requires Answers(Msgs(Docs(f[1..1 + |cs|])), cs) && Tells(f, called)
    ensures Remains(f, called) ==
              (if f[0].gone then [] else [f[0].doc] + Left(f[1..1 + |cs|])) + Remains(f[1 + |cs|..], called)
  {
    var k := 1 + |cs|;
    var head, round, rest := f[..1], f[1..k], f[k..];
    assert f == head + round + rest;
    assert f[0] in f && TellsOf(f[0], called);
    RemainsConcat(head + round, rest, called);
    RemainsConcat(head, round, called);
    RoundRemains(round, cs, called);
    assert head == [f[0]] && head[1..] == [];
    assert Left(head) == if f[0].gone then [] else [f[0].doc];
    assert Owned([f[0].doc], called) == [f[0].doc] by {
      assert [f[0].doc][1..] == [];
    }
  }

  lemma GoneRound(f: seq<Marked>, k: nat)
    requires f != [] && f[0].gone && k == 1 + |CallsOf(f[0].doc.message)| && k <= |f|
    ensures KeepsRounds(f) <==> KeepsRounds(f[k..])
  {
  }

  /** One turn is cut at its end at most exactly when the flags keep its rounds. */
  lemma {:induction false} CutExactlyWhenKept(f: seq<Marked>, called: set<nat>)
    requires Paired(Msgs(Docs(f))) && Distinct(Calls(Msgs(Docs(f)))) && Tells(f, called)
    ensures Cut(Msgs(Remains(f, called))) <==> KeepsRounds(f)
    decreases |f|
  {
    if f == [] {
      assert Remains(f, called) == [] && Msgs([]) == [];
    } else {
      var cs := CallsOf(f[0].doc.message);
      var k := 1 + |cs|;
      MarkedRound(f);
      TellsTail(f, called, k);
      RoundSplits(f, cs, called);
      CutExactlyWhenKept(f[k..], called);
      if f[0].gone {
        Seqs.NothingBefore(Remains(f[k..], called));
        GoneRound(f, k);
      } else {
        RoundCutExactly(f, cs, called);
      }
    }
  }

  lemma {:induction false} CutAfterMarkedRound(m: Message, round: seq<Marked>, rest: seq<Message>)
    requires m.Assistant? && Answers(Msgs(Docs(round)), CallsOf(m)) && Distinct(CallsOf(m))
    requires rest != [] ==> !rest[0].ToolResult?
    ensures Cut([m] + Msgs(Left(round)) + rest) <==>
              (AllLeft(round) && Cut(rest)) || (EndGone(round) && rest == [])
  {
    var cs := CallsOf(m);
    LeftAreResults(round, cs);
    LeftIsPrefix(round, cs);
    AllLeftIsAll(round);
    CutAfterRound(m, Msgs(Left(round)), cs, rest);
    if |Left(round)| == |cs| {
      assert cs[..|cs|] == cs;
    }
  }

  lemma {:induction false} RoundCutExactly(f: seq<Marked>, cs: seq<CallRef>, called: set<nat>)
    requires f != [] && !f[0].gone && cs == CallsOf(f[0].doc.message) && 1 + |cs| <= |f|
    requires Paired(Msgs(Docs(f))) && Distinct(Calls(Msgs(Docs(f)))) && Tells(f, called)
    requires Remains(f, called) == [f[0].doc] + Left(f[1..1 + |cs|]) + Remains(f[1 + |cs|..], called)
    requires Cut(Msgs(Remains(f[1 + |cs|..], called))) <==> KeepsRounds(f[1 + |cs|..])
    ensures Cut(Msgs(Remains(f, called))) <==> KeepsRounds(f)
  {
    var k := 1 + |cs|;
    var m, round, rest := f[0].doc.message, f[1..k], Remains(f[k..], called);
    MarkedRound(f);
    TellsTail(f, called, k);
    NothingRemains(f[k..], called);
    RoundMessages(f[0].doc, Left(round), rest);
    if m.Assistant? {
      CutAfterMarkedRound(m, round, Msgs(rest));
      if rest == [] {
        NothingLeftKeeps(f[k..]);
      }
    } else {
      assert round == [] && Left(round) == [];
      assert ([m] + Msgs(rest))[1..] == Msgs(rest);
    }
  }

  lemma RoundMessages(s: Stored, left: seq<Stored>, rest: seq<Stored>)
    ensures Msgs([s] + left + rest) == [s.message] + Msgs(left) + Msgs(rest)
  {
  }

  lemma {:induction false} NothingLeftKeeps(f: seq<Marked>)
    requires NothingLeft(f) && Paired(Msgs(Docs(f))) && Distinct(Calls(Msgs(Docs(f))))
    ensures KeepsRounds(f)
    decreases |f|
  {
    if f != [] {
      var k := 1 + |CallsOf(f[0].doc.message)|;
      MarkedRound(f);
      assert forall i :: 0 <= i < |f[k..]| ==> f[k..][i] == f[i + k];
      NothingLeftKeeps(f[k..]);
    }
  }

  // ------------------------------------------------------------------ all turns

  lemma DocsOfMarks(g: seq<Stored>, flagged: set<nat>)
    ensures Docs(Marks(g, flagged)) == g
  {
  }

  lemma {:induction false} DocsOfTurn(f: seq<Marked>, called: set<nat>, turn: nat)
    ensures Docs(MarkedOfTurn(MarkedOwned(f, called), turn)) == OfTurn(Owned(Docs(f), called), turn)
  {
    if f != [] {
      DocsOfTurn(f[1..], called, turn);
      assert Docs(f)[1..] == Docs(f[1..]);
      var rest, docs := MarkedOwned(f[1..], called), Owned(Docs(f[1..]), called);
      if Kept(f[0].doc.message, called) {
        assert ([f[0]] + rest)[1..] == rest && ([f[0].doc] + docs)[1..] == docs;
      } else {
        Seqs.NothingBefore(rest);
        Seqs.NothingBefore(docs);
      }
    }
  }

  lemma {:induction false} InMarkedOwned(f: seq<Marked>, called: set<nat>, x: Marked)
    requires x in MarkedOwned(f, called)
    ensures x in f
  {
    if x in MarkedOwned(f[1..], called) {
      InMarkedOwned(f[1..], called, x);
    }
  }

  lemma {:induction false} InMarkedOfTurn(f: seq<Marked>, turn: nat, x: Marked)
    requires x in MarkedOfTurn(f, turn)
    ensures x in f
  {
    if x in MarkedOfTurn(f[1..], turn) {
      InMarkedOfTurn(f[1..], turn, x);
    }
  }

  /** Leaving out orphans and other turns before or after what is flagged comes to the same. */
  lemma {:induction false} RemainsOfTurn(f: seq<Marked>, called: set<nat>, left: set<nat>, turn: nat)
    requires left <= called
    ensures OfTurn(Owned(Left(f), left), turn) == Remains(MarkedOfTurn(MarkedOwned(f, called), turn), left)
  {
    if f != [] {
      var x := f[0];
      var mine := if Kept(x.doc.message, called) then [x] else [];
      RemainsOfTurn(f[1..], called, left, turn);
      MarkedConcat(mine, MarkedOwned(f[1..], called), turn);
      RemainsConcat(MarkedOfTurn(mine, turn), MarkedOfTurn(MarkedOwned(f[1..], called), turn), left);
      OwnedConcat(if x.gone then [] else [x.doc], Left(f[1..]), left);
      OfTurnConcat(Owned(if x.gone then [] else [x.doc], left), Owned(Left(f[1..]), left), turn);
      OneMark(x, called, left, turn);
    }
  }

  lemma {:induction false} MarkedConcat(a: seq<Marked>, b: seq<Marked>, turn: nat)
    ensures MarkedOfTurn(a + b, turn) == MarkedOfTurn(a, turn) + MarkedOfTurn(b, turn)
    decreases |a|
  {
    if a == [] {
      Seqs.NothingBefore(b);
      Seqs.NothingBefore(MarkedOfTurn(b, turn));
    } else {
      MarkedConcat(a[1..], b, turn);
      Seqs.TailOfConcat(a, b);
      Seqs.Regroup(if a[0].doc.turn == turn then [a[0]] else [], MarkedOfTurn(a[1..], turn), MarkedOfTurn(b, turn));
    }
  }

  lemma OneOwned(s: Stored, called: set<nat>, turn: nat)
    ensures Owned([s], called) == if Kept(s.message, called) then [s] else []
    ensures OfTurn([s], turn) == if s.turn == turn then [s] else []
    ensures OfTurn([], turn) == []
  {
    assert [s][1..] == [];
  }

  lemma OneMark(x: Marked, called: set<nat>, left: set<nat>, turn: nat)
    requires left <= called
    ensures OfTurn(Owned(if x.gone then [] else [x.doc], left), turn) ==
              Remains(MarkedOfTurn(if Kept(x.doc.message, called) then [x] else [], turn), left)
  {
    assert [x][1..] == [];
    assert MarkedOfTurn([x], turn) == if x.doc.turn == turn then [x] else [];
    assert Left([x]) == if x.gone then [] else [x.doc];
    OneOwned(x.doc, left, turn);
  }

  lemma {:induction false} LeftCalls(f: seq<Marked>)
    requires Distinct(Calls(Msgs(Docs(f))))
    ensures Distinct(Calls(Msgs(Left(f)))) && CallIds(Left(f)) <= CallIds(Docs(f))
    ensures Tells(f, CallIds(Left(f)))
  {
    if f != [] {
      var s, rest := f[0].doc, Left(f[1..]);
      assert Docs(f)[1..] == Docs(f[1..]);
      DistinctTail(Docs(f));
      HeadIds(Docs(f));
      LeftCalls(f[1..]);
      assert f == [f[0]] + f[1..];
      if f[0].gone {
        assert Left(f) == rest;
      } else {
        HeadIds([s] + rest);
        assert ([s] + rest)[1..] == rest;
        DistinctJoin(CallsOf(s.message), Calls(Msgs(rest)));
        TellsMore(f, s, rest);
      }
    }
  }

  lemma TellsOfMore(x: Marked, more: set<nat>, called: set<nat>)
    requires TellsOf(x, called) && IdsOf(CallsOf(x.doc.message)) !! more
    ensures TellsOf(x, more + called)
  {
  }

  lemma CallsOfLater(f: seq<Marked>, x: Marked)
    requires x in f
    ensures IdsOf(CallsOf(x.doc.message)) <= CallIds(Docs(f))
  {
    var i :| 0 <= i < |f| && f[i] == x;
    assert Docs(f)[i] == x.doc;
    forall id | id in IdsOf(CallsOf(x.doc.message)) ensures id in CallIds(Docs(f)) {
      CallIdOf(Docs(f), x.doc, id);
    }
  }

  lemma TellsMore(f: seq<Marked>, s: Stored, rest: seq<Stored>)
    requires f != [] && f[0].doc == s && !f[0].gone && Tells(f[1..], CallIds(rest))
    requires CallIds([s] + rest) == IdsOf(CallsOf(s.message)) + CallIds(rest)
    requires forall id :: id in IdsOf(CallsOf(s.message)) ==> id !in CallIds(Docs(f[1..]))
    ensures Tells(f, CallIds([s] + rest))
  {
    assert f == [f[0]] + f[1..];
    forall x | x in f ensures TellsOf(x, IdsOf(CallsOf(s.message)) + CallIds(rest)) {
      if x in f[1..] {
        CallsOfLater(f[1..], x);
        TellsOfMore(x, IdsOf(CallsOf(s.message)), CallIds(rest));
      }
    }
  }

  lemma SummaryAlone(turn: nat, text: string)
    ensures Calls(Msgs([Stored(turn, Summary(text))])) == []
    ensures Cut(Msgs([Stored(turn, Summary(text))]))
  {
    var s := Stored(turn, Summary(text));
    assert Msgs([s]) == [Summary(text)] && Msgs([s])[1..] == [];
  }

  /** Paired in every turn, results without a call left aside. */
  ghost predicate Mended(g: seq<Stored>) {
    Orderly(g) && forall t :: Paired(Msgs(TurnPart(g, t)))
  }

  predicate Above(g: seq<Stored>, turn: nat) {
    forall s :: s in g ==> s.turn < turn
  }

  lemma LeftIn(f: seq<Marked>, s: Stored)
    requires s in Left(f)
    ensures s in Docs(f)
  {
    InLeft(f, s);
    var i :| 0 <= i < |f| && f[i].doc == s && !f[i].gone;
    assert Docs(f)[i] == s;
  }

  lemma CutCallIds(g: seq<Stored>, flagged: set<nat>, turn: nat, text: string)
    ensures CallIds(PartlyCompacted(g, flagged, turn, text)) == CallIds(Left(Marks(g, flagged)))
    ensures Calls(Msgs(PartlyCompacted(g, flagged, turn, text))) == Calls(Msgs(Left(Marks(g, flagged))))
  {
    var left := Left(Marks(g, flagged));
    ConcatIds(left, [Stored(turn, Summary(text))]);
    SummaryAlone(turn, text);
    assert Calls(Msgs(left)) + [] == Calls(Msgs(left));
  }

  /** One turn after the cut: what remains of it, or the summary. */
  lemma TurnPartAfterCut(g: seq<Stored>, flagged: set<nat>, turn: nat, text: string, t: nat)
    requires Distinct(Calls(Msgs(g))) && Above(g, turn)
    ensures var live := PartlyCompacted(g, flagged, turn, text);
            TurnPart(live, t) == if t == turn then [Stored(turn, Summary(text))]
                                 else Remains(TurnMarks(g, flagged, t), CallIds(live))
  {
    var f := Marks(g, flagged);
    var s := Stored(turn, Summary(text));
    var live := PartlyCompacted(g, flagged, turn, text);
    var left := CallIds(live);
    DocsOfMarks(g, flagged);
    CutCallIds(g, flagged, turn, text);
    LeftCalls(f);
    OwnedConcat(Left(f), [s], left);
    OneOwned(s, left, t);
    OfTurnConcat(Owned(Left(f), left), [s], t);
    RemainsOfTurn(f, CallIds(g), left, t);
    if t == turn {
      forall q | q in Owned(Left(f), left) ensures q.turn != t {
        InOwned(Left(f), left, q);
        LeftIn(f, q);
      }
      NoneOfTurn(Owned(Left(f), left), t);
    }
  }

  lemma TurnCutExactly(g: seq<Stored>, flagged: set<nat>, turn: nat, text: string, t: nat)
    requires Mended(g) && Above(g, turn)
    ensures Cut(Msgs(TurnPart(PartlyCompacted(g, flagged, turn, text), t))) <==> KeepsRounds(TurnMarks(g, flagged, t))
  {
    var f, part := Marks(g, flagged), TurnMarks(g, flagged, t);
    var left := CallIds(PartlyCompacted(g, flagged, turn, text));
    TurnPartAfterCut(g, flagged, turn, text, t);
    DocsOfMarks(g, flagged);
    DocsOfTurn(f, CallIds(g), t);
    if t == turn {
      SummaryAlone(turn, text);
      forall s | s in Owned(g, CallIds(g)) ensures s.turn != t {
        InOwned(g, CallIds(g), s);
      }
      NoneOfTurn(Owned(g, CallIds(g)), t);
      assert |part| == |Docs(part)| == 0;
    } else {
      CutCallIds(g, flagged, turn, text);
      LeftCalls(f);
      forall x | x in part ensures x in f {
        InMarkedOfTurn(MarkedOwned(f, CallIds(g)), t, x);
        InMarkedOwned(f, CallIds(g), x);
      }
      assert Paired(Msgs(TurnPart(g, t)));
      TurnPartDistinct(g, t);
      CutExactlyWhenKept(part, left);
    }
  }

  /**
   * A compaction cut short leaves every turn cut at its end at most, if and only if its
   * flags keep the rounds of every turn.
   */
  lemma CutKeepsTurnsExactly(g: seq<Stored>, flagged: set<nat>, turn: nat, text: string)
    requires Mended(g) && Above(g, turn)
    ensures TurnsCut(PartlyCompacted(g, flagged, turn, text)) <==> KeepsPairs(g, flagged)
  {
    forall t
      ensures Cut(Msgs(TurnPart(PartlyCompacted(g, flagged, turn, text), t))) <==> KeepsRounds(TurnMarks(g, flagged, t))
    {
      TurnCutExactly(g, flagged, turn, text, t);
    }
  }

  // ------------------------------------------------------------------ every history

  lemma {:induction false} LeftSorted(f: seq<Marked>)
    requires Sorted(Docs(f))
    ensures Sorted(Left(f))
  {
    if f != [] {
      assert Docs(f)[1..] == Docs(f[1..]) && Docs(f)[0] == f[0].doc;
      SortedTail(Docs(f));
      LeftSorted(f[1..]);
      if !f[0].gone {
        forall q: Stored | q in Left(f[1..]) ensures f[0].doc.turn <= q.turn {
          LeftIn(f[1..], q);
        }
        SortedCons(f[0].doc, Left(f[1..]));
      }
    }
  }

  lemma SortedThen(a: seq<Stored>, b: seq<Stored>)
    requires Sorted(a) && Sorted(b) && forall s, q :: s in a && q in b ==> s.turn <= q.turn
    ensures Sorted(a + b)
  {
    var all := a + b;
    forall i, j | 0 <= i < j < |all| ensures all[i].turn <= all[j].turn {
      if i < |a| <= j {
        assert all[i] in a && all[j] in b;
      }
    }
  }

  /** In a sorted history nothing is above its last turn. */
  lemma LastIsHighest(h: seq<Stored>)
    requires Sorted(h)
    ensures forall s :: s in h ==> s.turn <= LastTurn(h)
  {
    forall s | s in h ensures s.turn <= LastTurn(h) {
      var i :| 0 <= i < |h| && h[i] == s;
    }
  }

  /** A repair adds nothing above what is there. */
  lemma RepairStaysBelow(h: seq<Stored>, turn: nat)
    requires Orderly(h) && (h != [] ==> turn > LastTurn(h))
    ensures Above(Repaired(h), turn)
  {
    var xs := SyntheticResults(Dangling(h));
    LastIsHighest(h);
    forall s | s in Repaired(h) ensures s.turn < turn {
      InInsertAll(h, xs, s);
      if s !in h {
        SyntheticIsCalled(h, s);
        var q :| q in h && q.turn == s.turn && s.message.id in IdsOf(CallsOf(q.message));
      }
    }
  }

  lemma CutKeepsOrderly(g: seq<Stored>, flagged: set<nat>, turn: nat, text: string)
    requires Orderly(g) && Above(g, turn)
    ensures Orderly(PartlyCompacted(g, flagged, turn, text))
  {
    var f, s := Marks(g, flagged), Stored(turn, Summary(text));
    DocsOfMarks(g, flagged);
    LeftSorted(f);
    LeftCalls(f);
    forall q | q in Left(f) ensures q in g {
      LeftIn(f, q);
    }
    SortedThen(Left(f), [s]);
    CutCallIds(g, flagged, turn, text);
    assert forall q :: q in PartlyCompacted(g, flagged, turn, text) ==> q in Left(f) || q == s;
  }

  lemma {:induction false} TurnLogIds(e: Event)
    requires e.Turn?
    ensures ResultIdsIn(TurnLog(e)) <= CallIds(TurnLog(e))
    ensures Sorted(TurnLog(e)) && Cut(Msgs(TurnLog(e)))
    ensures forall s :: s in TurnLog(e) ==> s.turn == e.turn
  {
    var ms := Msgs(TurnLog(e));
    TurnLogIsCut(e);
    CallsAreResultsThenMissing(ms);
    HistoryTurns.IdsOfConcat(Results(ms), Missing(ms));
  }

  /** The ids of a new turn's calls and results occur nowhere in the history it follows. */
  lemma NewTurnIds(h: seq<Stored>, e: Event)
    requires Orderly(h) && e.Turn? && Enabled(h, e)
    ensures CallIds(TurnLog(e)) !! ResultIdsIn(Repaired(h))
    ensures CallIds(TurnLog(e)) !! CallIds(Repaired(h))
  {
    assert Apply(h, e) == Repaired(h) + TurnLog(e);
    NewIds(h, TurnLog(e));
  }

  lemma NewIds(h: seq<Stored>, log: seq<Stored>)
    requires Distinct(Calls(Msgs(Repaired(h) + log)))
    requires CallIds(log) * ResultIdsIn(h) == {}
    ensures CallIds(log) !! ResultIdsIn(Repaired(h))
    ensures CallIds(log) !! CallIds(Repaired(h))
  {
    RepairAnswersAll(h);
    ConcatIds(Repaired(h), log);
    DistinctParts(Calls(Msgs(Repaired(h))), Calls(Msgs(log)));
    ApartFromBoth(CallIds(log), ResultIdsIn(h), CallIds(Repaired(h)));
  }

  lemma ApartFromBoth(novel: set<nat>, results: set<nat>, calls: set<nat>)
    requires novel * results == {} && calls * novel == {}
    ensures novel !! results + calls && novel !! calls
  {
    forall id | id in novel ensures id !in results && id !in calls {
      assert id !in novel * results && id !in calls * novel;
    }
  }

  lemma TurnKeepsWithin(h: seq<Stored>, e: Event)
    requires Orderly(h) && Orderly(Repaired(h)) && e.Turn? && Enabled(h, e)
    ensures WithinTurns(Repaired(h) + TurnLog(e))
  {
    var a, b := Repaired(h), TurnLog(e);
    TurnLogIds(e);
    NewTurnIds(h, e);
    var all := a + b;
    forall s: Stored, q: Stored |
      s in all && q in all && s.message.ToolResult? && s.message.id in IdsOf(CallsOf(q.message))
      ensures s.turn == q.turn
    {
      if s in a && q in b {
        ResultIdOf(a, s);
        CallIdOf(b, q, s.message.id);
      } else if s in b && q in a {
        ResultIdOf(b, s);
        CallIdOf(a, q, s.message.id);
      }
    }
  }

  lemma TurnKeepsOrderly(h: seq<Stored>, e: Event)
    requires Orderly(h) && e.Turn? && Enabled(h, e)
    ensures Orderly(HistoryRepair.Apply(h, e))
  {
    RepairPairsExactly(h);
    RepairStaysBelow(h, e.turn);
    TurnLogIds(e);
    SortedThen(Repaired(h), TurnLog(e));
    TurnKeepsWithin(h, e);
  }

  lemma SummaryIsOrderly(turn: nat, text: string)
    ensures Orderly([Stored(turn, Summary(text))])
    ensures TurnsCut([Stored(turn, Summary(text))])
  {
    var s := Stored(turn, Summary(text));
    SummaryAlone(turn, text);
    forall t ensures Cut(Msgs(TurnPart([s], t))) {
      OneOwned(s, CallIds([s]), t);
      assert Msgs([]) == [];
    }
  }

  /** What a repair that was cut short has appended. */
  function SomeMending(h: seq<Stored>, appends: nat): seq<Stored> {
    SyntheticResults(Dangling(h)[..if appends < |Dangling(h)| then appends else |Dangling(h)|])
  }

  lemma SomeMendingIsPrefix(h: seq<Stored>, appends: nat) returns (rest: seq<Stored>)
    ensures SyntheticResults(Dangling(h)) == SomeMending(h, appends) + rest
  {
    var n := if appends < |Dangling(h)| then appends else |Dangling(h)|;
    rest := SyntheticResults(Dangling(h)[n..]);
    SyntheticConcat(Dangling(h)[..n], Dangling(h)[n..]);
    Seqs.TakeThenDrop(Dangling(h), n);
  }

  /**
   * Whatever happens to a live history, it stays sorted, with distinct call ids and
   * results in the turn of their calls.
   */
  lemma EventKeepsOrderly(h: seq<Stored>, e: Event)
    requires Orderly(h) && Enabled(h, e)
    ensures Orderly(HistoryRepair.Apply(h, e))
  {
    match e
    case Turn(_, _, _, _) => TurnKeepsOrderly(h, e);
    case RepairCut(appends) =>
      var rest := SomeMendingIsPrefix(h, appends);
      RepairKeepsOrderly(h, SomeMending(h, appends));
    case Summarised(turn, text) => SummaryIsOrderly(turn, text);
    case SummaryCut(turn, text, flagged) =>
      RepairPairsExactly(h);
      RepairStaysBelow(h, turn);
      CutKeepsOrderly(Repaired(h), flagged, turn, text);
  }

  // ------------------------------------------------------------------ what keeps every turn cut at its end at most

  lemma RepairMends(h: seq<Stored>)
    requires Orderly(h) && TurnsCut(h)
    ensures Mended(Repaired(h))
  {
    RepairPairsExactly(h);
    forall t ensures Paired(Msgs(TurnPart(Repaired(h), t))) {
      RepairedTurn(h, t);
      MendingPairsExactly(h, t);
      assert Cut(Msgs(TurnPart(h, t)));
    }
  }

  lemma PairedIsCut(ms: seq<Message>)
    requires Paired(ms)
    ensures Cut(ms)
  {
    PrefixIsCut(ms, |ms|);
    assert ms[..|ms|] == ms;
  }

  lemma RepairCutKeepsTurns(h: seq<Stored>, e: Event)
    requires Orderly(h) && TurnsCut(h) && e.RepairCut?
    ensures TurnsCut(HistoryRepair.Apply(h, e))
  {
    var xs := SomeMending(h, e.appends);
    var after := InsertAll(h, xs);
    var rest := SomeMendingIsPrefix(h, e.appends);
    forall t ensures Cut(Msgs(TurnPart(after, t))) {
      RepairCutTurn(h, xs, rest, t);
      MendingPairsExactly(h, t);
      assert Cut(Msgs(TurnPart(h, t)));
      var whole := TurnPart(h, t) + Mending(h, t);
      PrefixIsCut(Msgs(whole), |TurnPart(after, t)|);
      assert Msgs(whole)[..|TurnPart(after, t)|] == Msgs(TurnPart(after, t));
    }
  }

  lemma RepairCutTurn(h: seq<Stored>, xs: seq<Stored>, rest: seq<Stored>, t: nat)
    requires Orderly(h) && SyntheticResults(Dangling(h)) == xs + rest
    ensures TurnPart(InsertAll(h, xs), t) <= TurnPart(h, t) + Mending(h, t)
  {
    var called := CallIds(h);
    RepairKeepsOrderly(h, xs);
    InsertAllOfTurn(h, xs, t);
    OwnedOfTurn(InsertAll(h, xs), called, t);
    OwnedOfTurn(h, called, t);
    OwnedConcat(OfTurn(h, t), OfTurn(xs, t), called);
    SyntheticByTurn(h, ResultIdsIn(h), t);
    DanglingOwned(OfTurn(h, t), called, ResultIdsIn(h));
    OfTurnConcat(xs, rest, t);
    forall x | x in OfTurn(xs, t) ensures Kept(x.message, called) {
      InOfTurn(xs, t, x);
      SyntheticIsCalled(h, x);
    }
    AllOwned(OfTurn(xs, t), called);
    Seqs.Regroup(TurnPart(h, t), OfTurn(xs, t), OfTurn(rest, t));
  }

  lemma TurnKeepsTurns(h: seq<Stored>, e: Event)
    requires Orderly(h) && TurnsCut(h) && e.Turn? && Enabled(h, e)
    ensures TurnsCut(HistoryRepair.Apply(h, e))
  {
    var a, b := Repaired(h), TurnLog(e);
    RepairMends(h);
    TurnLogIds(e);
    forall t ensures Cut(Msgs(TurnPart(a + b, t))) {
      TurnPartThen(h, e, t);
      PairedIsCut(Msgs(TurnPart(a, t)));
    }
  }

  lemma {:induction false} OwnedByMore(h: seq<Stored>, called: set<nat>, more: set<nat>)
    requires more !! ResultIdsIn(h)
    ensures Owned(h, called + more) == Owned(h, called)
  {
    if h != [] {
      HeadIds(h);
      OwnedByMore(h[1..], called, more);
    }
  }

  lemma TurnPartThen(h: seq<Stored>, e: Event, t: nat)
    requires Orderly(h) && e.Turn? && Enabled(h, e)
    ensures TurnPart(Repaired(h) + TurnLog(e), t) == if t == e.turn then TurnLog(e) else TurnPart(Repaired(h), t)
  {
    var a, b := Repaired(h), TurnLog(e);
    var called := CallIds(a + b);
    NewTurnIds(h, e);
    TurnLogIds(e);
    RepairStaysBelow(h, e.turn);
    ConcatIds(a, b);
    OwnedConcat(a, b, called);
    OwnedByMore(a, CallIds(a), CallIds(b));
    forall s | s in b ensures Kept(s.message, called) {
      if s.message.ToolResult? {
        ResultIdOf(b, s);
      }
    }
    AllOwned(b, called);
    OfTurnConcat(Owned(a, called), b, t);
    if t == e.turn {
      forall s | s in Owned(a, called) ensures s.turn != t {
        InOwned(a, called, s);
      }
      NoneOfTurn(Owned(a, called), t);
      AllOfTurn(b, t);
    } else {
      NoneOfTurn(b, t);
    }
  }

  /** The event, if it is a compaction cut short, flags so that every turn keeps its rounds. */
  ghost predicate Careful(h: seq<Stored>, e: Event) {
    e.SummaryCut? ==> KeepsPairs(Repaired(h), e.flagged)
  }

  /** Every turn stays cut at its end at most exactly when the event is careful. */
  lemma EventKeepsTurnsExactly(h: seq<Stored>, e: Event)
    requires Orderly(h) && TurnsCut(h) && Enabled(h, e)
    ensures TurnsCut(HistoryRepair.Apply(h, e)) <==> Careful(h, e)
  {
    match e
    case Turn(_, _, _, _) => TurnKeepsTurns(h, e);
    case RepairCut(_) => RepairCutKeepsTurns(h, e);
    case Summarised(turn, text) => SummaryIsOrderly(turn, text);
    case SummaryCut(turn, text, flagged) =>
      RepairMends(h);
      RepairStaysBelow(h, turn);
      CutKeepsTurnsExactly(Repaired(h), flagged, turn, text);
  }

  // ------------------------------------------------------------------ every run

  /** What is live after these events. */
  function After(es: seq<Event>): seq<Stored>
    decreases |es|
  {
    if es == [] then [] else HistoryRepair.Apply(After(es[..|es| - 1]), es[|es| - 1])
  }

  ghost predicate CarefulAt(es: seq<Event>, i: nat)
    requires i < |es|
  {
    Careful(After(es[..i]), es[i])
  }

  /** Every compaction that was cut short since the last complete one kept the rounds of every turn. */
  ghost predicate CarefulSinceTheSummary(es: seq<Event>)
    decreases |es|
  {
    es != [] && !es[|es| - 1].Summarised? ==>
      CarefulAt(es, |es| - 1) && CarefulSinceTheSummary(es[..|es| - 1])
  }

  /** Every compaction cut short kept the rounds of every turn. */
  ghost predicate CarefulRun(es: seq<Event>)
    decreases |es|
  {
    es != [] ==> CarefulAt(es, |es| - 1) && CarefulRun(es[..|es| - 1])
  }

  /**
   * A wakeup after these events resumes from a strictly paired history, and so did one
   * after any number of the first of them.
   */
  ghost predicate EveryWakeupWasPaired(es: seq<Event>)
    decreases |es|
  {
    WakesUpPaired(After(es)) && (es != [] ==> EveryWakeupWasPaired(es[..|es| - 1]))
  }

  ghost predicate WakesUpPaired(h: seq<Stored>) {
    Paired(HistoryView.ToLlm(Repaired(h)))
  }

  lemma {:induction false} ReachableIsAfter(h: seq<Stored>, es: seq<Event>)
    requires Reachable(h, es)
    ensures h == After(es)
    decreases |es|
  {
    if es != [] {
      var e := es[|es| - 1];
      var g :| Reachable(g, es[..|es| - 1]) && Enabled(g, e) && h == HistoryRepair.Apply(g, e);
      ReachableIsAfter(g, es[..|es| - 1]);
    }
  }

  /** The step that led here. */
  lemma LastStep(h: seq<Stored>, es: seq<Event>) returns (g: seq<Stored>)
    requires Reachable(h, es) && es != []
    ensures Reachable(g, es[..|es| - 1]) && g == After(es[..|es| - 1])
    ensures Enabled(g, es[|es| - 1]) && h == HistoryRepair.Apply(g, es[|es| - 1])
  {
    var e := es[|es| - 1];
    g :| Reachable(g, es[..|es| - 1]) && Enabled(g, e) && h == HistoryRepair.Apply(g, e);
    ReachableIsAfter(g, es[..|es| - 1]);
  }

  lemma NothingIsOrderly()
    ensures Orderly([]) && TurnsCut([])
  {
    assert Msgs([]) == [];
  }

  /** Whatever turns, repairs and compactions were cut short, and wherever. */
  lemma {:induction false} EveryHistoryIsOrderly(h: seq<Stored>, es: seq<Event>)
    requires Reachable(h, es)
    ensures Orderly(h)
    decreases |es|
  {
    if es == [] {
      NothingIsOrderly();
    } else {
      var g := LastStep(h, es);
      EveryHistoryIsOrderly(g, es[..|es| - 1]);
      EventKeepsOrderly(g, es[|es| - 1]);
    }
  }

  lemma {:induction false} CarefulHistoriesAreCut(h: seq<Stored>, es: seq<Event>)
    requires Reachable(h, es) && CarefulSinceTheSummary(es)
    ensures Orderly(h) && TurnsCut(h)
    decreases |es|
  {
    EveryHistoryIsOrderly(h, es);
    if es == [] {
      NothingIsOrderly();
    } else {
      var e := es[|es| - 1];
      var g := LastStep(h, es);
      if e.Summarised? {
        SummaryIsOrderly(e.turn, e.text);
      } else {
        CarefulHistoriesAreCut(g, es[..|es| - 1]);
        EventKeepsTurnsExactly(g, e);
      }
    }
  }

  /**
   * Whatever interrupted the turns, repairs and compactions before, the main run
   * resumes from a strictly paired history if the compactions cut short since the
   * last complete one kept the rounds of every turn.
   */
  lemma EveryRunResumesPaired(h: seq<Stored>, es: seq<Event>)
    requires Reachable(h, es) && CarefulSinceTheSummary(es)
    ensures Paired(HistoryView.ToLlm(Repaired(h)))
  {
    CarefulHistoriesAreCut(h, es);
    HistoryView.AWakeupIsPairedExactly(h);
  }

  lemma NextWakeup(h: seq<Stored>, e: Event)
    requires Orderly(h) && TurnsCut(h) && Enabled(h, e)
    ensures WakesUpPaired(HistoryRepair.Apply(h, e)) <==> Careful(h, e)
  {
    EventKeepsOrderly(h, e);
    EventKeepsTurnsExactly(h, e);
    HistoryView.AWakeupIsPairedExactly(HistoryRepair.Apply(h, e));
  }

  /**
   * From a history like that, the next wakeup after a compaction cut short shows a
   * strictly paired one if and only if the flags keep the rounds of every turn.
   */
  lemma ACutIsPairedExactly(h: seq<Stored>, es: seq<Event>, turn: nat, text: string, flagged: set<nat>)
    requires Reachable(h, es) && CarefulSinceTheSummary(es)
    requires Enabled(h, SummaryCut(turn, text, flagged))
    ensures WakesUpPaired(HistoryRepair.Apply(h, SummaryCut(turn, text, flagged))) <==> KeepsPairs(Repaired(h), flagged)
  {
    CarefulHistoriesAreCut(h, es);
    NextWakeup(h, SummaryCut(turn, text, flagged));
  }

  lemma {:induction false} CarefulRunIsCareful(es: seq<Event>)
    requires CarefulRun(es)
    ensures CarefulSinceTheSummary(es)
    decreases |es|
  {
    if es != [] {
      CarefulRunIsCareful(es[..|es| - 1]);
    }
  }

  /**
   * Over a whole run: every wakeup resumes from a strictly paired history if and only
   * if every compaction that was cut short kept the rounds of every turn.
   */
  lemma {:induction false} EveryWakeupIsPairedExactly(h: seq<Stored>, es: seq<Event>)
    requires Reachable(h, es)
    ensures EveryWakeupWasPaired(es) <==> CarefulRun(es)
    decreases |es|
  {
    if es == [] {
      NothingIsOrderly();
      HistoryView.AWakeupIsPairedExactly([]);
    } else {
      var g := LastStep(h, es);
      ReachableIsAfter(h, es);
      EveryWakeupIsPairedExactly(g, es[..|es| - 1]);
      if CarefulRun(es[..|es| - 1]) {
        CarefulRunIsCareful(es[..|es| - 1]);
        LastWakeup(h, es, g);
      }
    }
  }

  lemma LastWakeup(h: seq<Stored>, es: seq<Event>, g: seq<Stored>)
    requires es != [] && Reachable(g, es[..|es| - 1]) && g == After(es[..|es| - 1])
    requires Enabled(g, es[|es| - 1]) && h == HistoryRepair.Apply(g, es[|es| - 1])
    requires CarefulSinceTheSummary(es[..|es| - 1])
    ensures WakesUpPaired(h) <==> CarefulAt(es, |es| - 1)
  {
    CarefulHistoriesAreCut(g, es[..|es| - 1]);
    NextWakeup(g, es[|es| - 1]);
  }

  // ------------------------------------------------------------------ flags in document order

  /** What is flagged is its beginning. */
  predicate FrontGone(f: seq<Marked>) {
    forall i, j :: 0 <= i < j < |f| && f[j].gone ==> f[i].gone
  }

  lemma FrontGoneTail(f: seq<Marked>, k: nat)
    requires FrontGone(f) && k <= |f|
    ensures FrontGone(f[k..])
    ensures f != [] && !f[0].gone ==> AllLeft(f)
  {
    forall i, j | 0 <= i < j < |f[k..]| && f[k..][j].gone ensures f[k..][i].gone {
      assert f[k + j].gone && f[k + i].gone;
    }
  }

  lemma FrontGoneCons(x: Marked, f: seq<Marked>)
    requires FrontGone(f) && (!x.gone ==> forall y :: y in f ==> !y.gone)
    ensures FrontGone([x] + f)
  {
    var all := [x] + f;
    forall i, j | 0 <= i < j < |all| && all[j].gone ensures all[i].gone {
      assert all[j] == f[j - 1] && f[j - 1] in f;
      assert i > 0 ==> all[i] == f[i - 1];
    }
  }

  lemma {:induction false} FrontGoneOwned(f: seq<Marked>, called: set<nat>)
    requires FrontGone(f)
    ensures FrontGone(MarkedOwned(f, called))
  {
    if f != [] {
      FrontGoneTail(f, 1);
      FrontGoneOwned(f[1..], called);
      if Kept(f[0].doc.message, called) {
        forall y | y in MarkedOwned(f[1..], called) ensures f[0].gone || !y.gone {
          InMarkedOwned(f[1..], called, y);
        }
        FrontGoneCons(f[0], MarkedOwned(f[1..], called));
      }
    }
  }

  lemma {:induction false} FrontGoneOfTurn(f: seq<Marked>, turn: nat)
    requires FrontGone(f)
    ensures FrontGone(MarkedOfTurn(f, turn))
  {
    if f != [] {
      FrontGoneTail(f, 1);
      FrontGoneOfTurn(f[1..], turn);
      if f[0].doc.turn == turn {
        forall y | y in MarkedOfTurn(f[1..], turn) ensures f[0].gone || !y.gone {
          InMarkedOfTurn(f[1..], turn, y);
        }
        FrontGoneCons(f[0], MarkedOfTurn(f[1..], turn));
      }
    }
  }

  /** Flags that go from the front, round after round, keep the rounds. */
  lemma {:induction false} FrontGoneKeepsRounds(f: seq<Marked>)
    requires FrontGone(f) && Paired(Msgs(Docs(f))) && Distinct(Calls(Msgs(Docs(f))))
    ensures KeepsRounds(f)
    decreases |f|
  {
    if f != [] {
      var k := 1 + |CallsOf(f[0].doc.message)|;
      MarkedRound(f);
      FrontGoneTail(f, k);
      FrontGoneKeepsRounds(f[k..]);
    }
  }

  /** The documents are flagged in their order, as far as it got. */
  ghost predicate InOrder(flagged: set<nat>) {
    forall i, j: nat :: i < j && j in flagged ==> i in flagged
  }

  lemma InOrderKeepsPairs(g: seq<Stored>, flagged: set<nat>)
    requires Mended(g) && InOrder(flagged)
    ensures KeepsPairs(g, flagged)
  {
    var f := Marks(g, flagged);
    DocsOfMarks(g, flagged);
    forall t ensures KeepsRounds(TurnMarks(g, flagged, t)) {
      FrontGoneOwned(f, CallIds(g));
      FrontGoneOfTurn(MarkedOwned(f, CallIds(g)), t);
      DocsOfTurn(f, CallIds(g), t);
      assert Paired(Msgs(TurnPart(g, t)));
      TurnPartDistinct(g, t);
      FrontGoneKeepsRounds(TurnMarks(g, flagged, t));
    }
  }

  ghost predicate CutsInOrder(es: seq<Event>) {
    forall i :: 0 <= i < |es| && es[i].SummaryCut? ==> InOrder(es[i].flagged)
  }

  lemma {:induction false} InOrderIsCareful(h: seq<Stored>, es: seq<Event>)
    requires Reachable(h, es) && CutsInOrder(es)
    ensures CarefulRun(es)
    decreases |es|
  {
    if es != [] {
      var e, front := es[|es| - 1], es[..|es| - 1];
      var g := LastStep(h, es);
      InOrderIsCareful(g, front);
      CarefulThenInOrder(g, front, e);
    }
  }

  lemma CarefulThenInOrder(h: seq<Stored>, es: seq<Event>, e: Event)
    requires Reachable(h, es) && CarefulRun(es) && (e.SummaryCut? ==> InOrder(e.flagged))
    ensures Careful(h, e)
  {
    CarefulRunIsCareful(es);
    CarefulHistoriesAreCut(h, es);
    InOrderEventIsCareful(h, e);
  }

  lemma InOrderEventIsCareful(h: seq<Stored>, e: Event)
    requires Orderly(h) && TurnsCut(h) && (e.SummaryCut? ==> InOrder(e.flagged))
    ensures Careful(h, e)
  {
    if e.SummaryCut? {
      RepairMends(h);
      InOrderKeepsPairs(Repaired(h), e.flagged);
    }
  }

  /** Compactions that flag in document order may be cut short anywhere: every wakeup is paired. */
  lemma InOrderRunsResumePaired(h: seq<Stored>, es: seq<Event>)
    requires Reachable(h, es) && CutsInOrder(es)
    ensures EveryWakeupWasPaired(es) && Paired(HistoryView.ToLlm(Repaired(h)))
  {
    InOrderIsCareful(h, es);
    EveryWakeupIsPairedExactly(h, es);
    CarefulRunIsCareful(es);
    EveryRunResumesPaired(h, es);
  }

  // ------------------------------------------------------------------ a cut that hides one result of two

  /** One reply that calls two tools. */
  function TwoCalls(a: nat, b: nat, tool: string, execute: nat -> InnerLoop.Execution): InnerLoop.Reply {
    InnerLoop.Reply([Call(a, tool), Call(b, tool)], ToolUse, 0, execute)
  }

  /** A turn with one round of two calls, and a compaction cut short with the first result alone flagged. */
  function FirstResultFlagged(a: nat, b: nat, tool: string, execute: nat -> InnerLoop.Execution,
                              task: string, turn: nat, text: string): seq<Event>
  {
    [Turn(turn, task, [TwoCalls(a, b, tool, execute)], 4), SummaryCut(turn + 1, text, {2})]
  }

  lemma TwoCallsLog(a: nat, b: nat, tool: string, execute: nat -> InnerLoop.Execution, task: string)
    ensures var log := InnerLoop.RunLog(task, [TwoCalls(a, b, tool, execute)], InnerLoop.NoCap);
            && |log| == 4 && log[0] == User(task)
            && CallsOf(log[1]) == [CallRef(a, tool), CallRef(b, tool)]
            && log[1].Assistant? && Answers(log[2..], CallsOf(log[1]))
            && Calls(log) == CallsOf(log[1])
  {
    var r := TwoCalls(a, b, tool, execute);
    var log := InnerLoop.RunLog(task, [r], InnerLoop.NoCap);
    var cs := [CallRef(a, tool), CallRef(b, tool)];
    assert r.content[1..] == [Call(b, tool)] && r.content[1..][1..] == [];
    assert CallsIn(r.content[1..]) == [cs[1]];
    assert CallsIn(r.content) == cs;
    var rs := InnerLoop.ToolResults(cs, execute);
    assert InnerLoop.Rounds([r][1..], InnerLoop.NoCap, 1) == [];
    assert InnerLoop.Rounds([r], InnerLoop.NoCap, 0) == [InnerLoop.AssistantOf(r)] + rs + [];
    assert log == [User(task), InnerLoop.AssistantOf(r)] + rs;
    assert log[1..][1..] == rs == log[2..];
    AnswersAreTheCalls(rs, cs);
    assert cs + [] == cs;
  }

  /** With the first result of two flagged and the second left, the flags do not keep the round. */
  lemma TwoOfFour(f: seq<Marked>)
    requires |f| == 4 && forall i :: 0 <= i < 4 ==> (f[i].gone <==> i == 2)
    requires CallsOf(f[0].doc.message) == [] && |CallsOf(f[1].doc.message)| == 2
    ensures !KeepsRounds(f)
  {
    var rest := f[1..];
    assert rest[1..3][0] == f[2] && rest[1..3][1] == f[3];
  }

  lemma {:induction false} AllMarksOwned(f: seq<Marked>, called: set<nat>)
    requires forall x :: x in f ==> Kept(x.doc.message, called)
    ensures MarkedOwned(f, called) == f
  {
    if f != [] {
      assert f[0] in f;
      AllMarksOwned(f[1..], called);
    }
  }

  lemma {:induction false} AllMarksOfTurn(f: seq<Marked>, turn: nat)
    requires forall x :: x in f ==> x.doc.turn == turn
    ensures MarkedOfTurn(f, turn) == f
  {
    if f != [] {
      assert f[0] in f;
      AllMarksOfTurn(f[1..], turn);
    }
  }

  /** One turn with all its results, and a flag on the first of two of them. */
  lemma SecondResultAlone(h: seq<Stored>, turn: nat)
    requires |h| == 4 && (forall s :: s in h ==> s.turn == turn && Kept(s.message, CallIds(h)))
    requires CallsOf(h[0].message) == [] && |CallsOf(h[1].message)| == 2
    ensures !KeepsPairs(h, {2})
  {
    var f := Marks(h, {2});
    forall x | x in f ensures x.doc in h {
      var i :| 0 <= i < |f| && f[i] == x;
    }
    AllMarksOwned(f, CallIds(h));
    AllMarksOfTurn(f, turn);
    TwoOfFour(f);
    assert !KeepsRounds(TurnMarks(h, {2}, turn));
  }

  lemma NextStep(h: seq<Stored>, es: seq<Event>, e: Event)
    requires Reachable(h, es) && Enabled(h, e)
    ensures Reachable(HistoryRepair.Apply(h, e), es + [e])
  {
    var all := es + [e];
    assert all[..|all| - 1] == es && all[|all| - 1] == e;
    assert Reachable(h, all[..|all| - 1]) && Enabled(h, all[|all| - 1]);
  }

  /** The first turn of an agent's life. */
  lemma FirstTurn(e: Event)
    requires e.Turn? && Distinct(Calls(Msgs(TurnLog(e))))
    ensures Reachable(TurnLog(e), [e])
  {
    assert Msgs([]) == [] && Dangling([]) == [] && Repaired([]) == [];
    Seqs.NothingBefore(TurnLog(e));
    NextStep([], [], e);
    assert [] + [e] == [e];
  }

  lemma OneTurnIsCareful(e: Event)
    requires e.Turn?
    ensures CarefulSinceTheSummary([e])
  {
    assert [e][..0] == [];
  }

  /** The log of a turn with the two calls, and both of their results. */
  lemma TwoCallsTurn(a: nat, b: nat, tool: string, execute: nat -> InnerLoop.Execution, task: string, turn: nat)
    returns (e: Event)
    requires a != b
    ensures e == Turn(turn, task, [TwoCalls(a, b, tool, execute)], 4)
    ensures var h := TurnLog(e);
            && |h| == 4 && (forall s :: s in h ==> s.turn == turn && Kept(s.message, CallIds(h)))
            && CallsOf(h[0].message) == [] && |CallsOf(h[1].message)| == 2
            && Distinct(Calls(Msgs(h))) && Paired(Msgs(h))
  {
    e := Turn(turn, task, [TwoCalls(a, b, tool, execute)], 4);
    var log := InnerLoop.RunLog(task, [TwoCalls(a, b, tool, execute)], InnerLoop.NoCap);
    TwoCallsLog(a, b, tool, execute, task);
    InnerLoop.UncappedRunIsPaired(task, [TwoCalls(a, b, tool, execute)]);
    var h := TurnLog(e);
    assert Msgs(h) == log;
    TurnLogIds(e);
    forall s | s in h ensures s.turn == turn && Kept(s.message, CallIds(h)) {
      if s.message.ToolResult? {
        ResultIdOf(h, s);
      }
    }
  }

  lemma ACutUnpairs(h: seq<Stored>, es: seq<Event>,
                    turn: nat, text: string, flagged: set<nat>, all: seq<Event>)
    requires Reachable(h, es) && CarefulSinceTheSummary(es)
    requires Enabled(h, SummaryCut(turn, text, flagged)) && !KeepsPairs(Repaired(h), flagged)
    requires all == es + [SummaryCut(turn, text, flagged)]
    ensures Reachable(After(all), all) && !WakesUpPaired(After(all))
  {
    var e := SummaryCut(turn, text, flagged);
    NextStep(h, es, e);
    ReachableIsAfter(HistoryRepair.Apply(h, e), es + [e]);
    ACutIsPairedExactly(h, es, turn, text, flagged);
  }

  lemma TheFirstOfTwoFlagged(e: Event, turn: nat, text: string)
    requires e.Turn? && var h := TurnLog(e);
             && |h| == 4 && (forall s :: s in h ==> s.turn == turn && Kept(s.message, CallIds(h)))
             && CallsOf(h[0].message) == [] && |CallsOf(h[1].message)| == 2
             && Distinct(Calls(Msgs(h))) && Paired(Msgs(h))
    ensures Enabled(TurnLog(e), SummaryCut(turn + 1, text, {2})) && !KeepsPairs(Repaired(TurnLog(e)), {2})
  {
    var h := TurnLog(e);
    PairedHasNoDangling(h);
    CutIsEnabled(h, turn + 1, text, {2});
    SecondResultAlone(h, turn);
  }

  lemma ACutAfterOneTurnUnpairs(e: Event, turn: nat, text: string, flagged: set<nat>, all: seq<Event>)
    requires e.Turn? && Distinct(Calls(Msgs(TurnLog(e))))
    requires Enabled(TurnLog(e), SummaryCut(turn, text, flagged)) && !KeepsPairs(Repaired(TurnLog(e)), flagged)
    requires all == [e] + [SummaryCut(turn, text, flagged)]
    ensures Reachable(After(all), all) && !WakesUpPaired(After(all))
  {
    FirstTurn(e);
    OneTurnIsCareful(e);
    ACutUnpairs(TurnLog(e), [e], turn, text, flagged, all);
  }

  /**
   * For every two calls of one round, their results stored, and a compaction cut short
   * with the first result alone flagged: the next wakeup is not paired.
   */
  lemma AHiddenResultUnpairs(a: nat, b: nat, tool: string, execute: nat -> InnerLoop.Execution,
                             task: string, turn: nat, text: string, es: seq<Event>)
    requires a != b && es == FirstResultFlagged(a, b, tool, execute, task, turn, text)
    ensures Reachable(After(es), es) && !WakesUpPaired(After(es))
  {
    var e := TwoCallsTurn(a, b, tool, execute, task, turn);
    TheFirstOfTwoFlagged(e, turn, text);
    ACutAfterOneTurnUnpairs(e, turn + 1, text, {2}, es);
  }

  lemma CutIsEnabled(h: seq<Stored>, turn: nat, text: string, flagged: set<nat>)
    requires Repaired(h) == h && Distinct(Calls(Msgs(h))) && LastTurn(h) < turn
    ensures Enabled(h, SummaryCut(turn, text, flagged))
  {
    DocsOfMarks(h, flagged);
    LeftCalls(Marks(h, flagged));
    CutCallIds(h, flagged, turn, text);
  }
}
