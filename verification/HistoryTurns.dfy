/**
 * Histories turn by turn (reflection.ts): when a repair leaves every turn strictly
 * paired, whatever is live and whatever compactions were cut short before.
 */
module HistoryTurns {
  import opened Messages
  import opened ToolPairing
  import opened HistoryRepair
  import InnerLoop
  import Seqs

  // ------------------------------------------------------------------ one turn of a history

  function OfTurn(h: seq<Stored>, turn: nat): seq<Stored> {
    if h == [] then [] else (if h[0].turn == turn then [h[0]] else []) + OfTurn(h[1..], turn)
  }

  predicate Kept(m: Message, called: set<nat>) {
    m.ToolResult? ==> m.id in called
  }

  /** Without the results of other calls than these. */
  function Owned(h: seq<Stored>, called: set<nat>): seq<Stored> {
    if h == [] then [] else (if Kept(h[0].message, called) then [h[0]] else []) + Owned(h[1..], called)
  }

  function CallIds(h: seq<Stored>): set<nat> {
    IdsOf(Calls(Msgs(h)))
  }

  function ResultIdsIn(h: seq<Stored>): set<nat> {
    IdsOf(Results(Msgs(h)))
  }

  predicate Sorted(h: seq<Stored>) {
    forall i, j :: 0 <= i < j < |h| ==> h[i].turn <= h[j].turn
  }

  /** A result stands in the turn of its call. */
  predicate WithinTurns(h: seq<Stored>) {
    forall s, q :: s in h && q in h && s.message.ToolResult? && s.message.id in IdsOf(CallsOf(q.message)) ==>
      s.turn == q.turn
  }

  lemma {:induction false} OfTurnConcat(a: seq<Stored>, b: seq<Stored>, turn: nat)
    ensures OfTurn(a + b, turn) == OfTurn(a, turn) + OfTurn(b, turn)
    decreases |a|
  {
    if a == [] {
      Seqs.NothingBefore(b);
      Seqs.NothingBefore(OfTurn(b, turn));
    } else {
      OfTurnConcat(a[1..], b, turn);
      Seqs.TailOfConcat(a, b);
      Seqs.Regroup(if a[0].turn == turn then [a[0]] else [], OfTurn(a[1..], turn), OfTurn(b, turn));
    }
  }

  lemma {:induction false} OwnedConcat(a: seq<Stored>, b: seq<Stored>, called: set<nat>)
    ensures Owned(a + b, called) == Owned(a, called) + Owned(b, called)
    decreases |a|
  {
    if a == [] {
      Seqs.NothingBefore(b);
      Seqs.NothingBefore(Owned(b, called));
    } else {
      OwnedConcat(a[1..], b, called);
      Seqs.TailOfConcat(a, b);
      Seqs.Regroup(if Kept(a[0].message, called) then [a[0]] else [], Owned(a[1..], called), Owned(b, called));
    }
  }

  lemma {:induction false} OwnedOfTurn(h: seq<Stored>, called: set<nat>, turn: nat)
    ensures OfTurn(Owned(h, called), turn) == Owned(OfTurn(h, turn), called)
  {
    if h != [] {
      OwnedOfTurn(h[1..], called, turn);
      OfTurnConcat(if Kept(h[0].message, called) then [h[0]] else [], Owned(h[1..], called), turn);
      OwnedConcat(if h[0].turn == turn then [h[0]] else [], OfTurn(h[1..], turn), called);
      assert OfTurn([h[0]], turn) == if h[0].turn == turn then [h[0]] else [];
      assert Owned([h[0]], called) == if Kept(h[0].message, called) then [h[0]] else [];
    }
  }

  lemma {:induction false} InOfTurn(h: seq<Stored>, turn: nat, s: Stored)
    ensures s in OfTurn(h, turn) <==> s in h && s.turn == turn
  {
    if h != [] {
      InOfTurn(h[1..], turn, s);
      assert h == [h[0]] + h[1..];
    }
  }

  lemma {:induction false} InOwned(h: seq<Stored>, called: set<nat>, s: Stored)
    ensures s in Owned(h, called) <==> s in h && Kept(s.message, called)
  {
    if h != [] {
      InOwned(h[1..], called, s);
      assert h == [h[0]] + h[1..];
    }
  }

  lemma {:induction false} NoneOfTurn(h: seq<Stored>, turn: nat)
    requires forall s :: s in h ==> s.turn != turn
    ensures OfTurn(h, turn) == []
  {
    if h != [] {
      assert h[0] in h;
      NoneOfTurn(h[1..], turn);
    }
  }

  lemma {:induction false} AllOfTurn(h: seq<Stored>, turn: nat)
    requires forall s :: s in h ==> s.turn == turn
    ensures OfTurn(h, turn) == h
  {
    if h != [] {
      assert h[0] in h;
      AllOfTurn(h[1..], turn);
    }
  }

  lemma {:induction false} AllOwned(h: seq<Stored>, called: set<nat>)
    requires forall s :: s in h ==> Kept(s.message, called)
    ensures Owned(h, called) == h
  {
    if h != [] {
      assert h[0] in h;
      AllOwned(h[1..], called);
    }
  }

  // ------------------------------------------------------------------ ids

  lemma IdsOfConcat(a: seq<CallRef>, b: seq<CallRef>)
    ensures IdsOf(a + b) == IdsOf(a) + IdsOf(b)
  {
    assert forall r :: r in a + b <==> r in a || r in b;
  }

  lemma ResultIdsOf(m: Message)
    ensures IdsOf(ResultOf(m)) == if m.ToolResult? then {m.id} else {}
  {
    if m.ToolResult? {
      assert ResultOf(m)[0] in ResultOf(m);
    }
  }

  lemma HeadIds(h: seq<Stored>)
    requires h != []
    ensures Calls(Msgs(h)) == CallsOf(h[0].message) + Calls(Msgs(h[1..]))
    ensures CallIds(h) == IdsOf(CallsOf(h[0].message)) + CallIds(h[1..])
    ensures ResultIdsIn(h) == (if h[0].message.ToolResult? then {h[0].message.id} else {}) + ResultIdsIn(h[1..])
  {
    assert Msgs(h)[1..] == Msgs(h[1..]);
    IdsOfConcat(CallsOf(h[0].message), Calls(Msgs(h[1..])));
    IdsOfConcat(ResultOf(h[0].message), Results(Msgs(h[1..])));
    ResultIdsOf(h[0].message);
  }

  lemma ConcatIds(a: seq<Stored>, b: seq<Stored>)
    ensures Calls(Msgs(a + b)) == Calls(Msgs(a)) + Calls(Msgs(b))
    ensures CallIds(a + b) == CallIds(a) + CallIds(b)
    ensures ResultIdsIn(a + b) == ResultIdsIn(a) + ResultIdsIn(b)
  {
    MsgsOfConcat(a, b);
    SplitCalls(Msgs(a), Msgs(b));
    SplitResults(Msgs(a), Msgs(b));
    IdsOfConcat(Calls(Msgs(a)), Calls(Msgs(b)));
    IdsOfConcat(Results(Msgs(a)), Results(Msgs(b)));
  }

  lemma {:induction false} CallIdIn(h: seq<Stored>, id: nat) returns (q: Stored)
    requires id in CallIds(h)
    ensures q in h && id in IdsOf(CallsOf(q.message))
  {
    HeadIds(h);
    if id in IdsOf(CallsOf(h[0].message)) {
      q := h[0];
    } else {
      q := CallIdIn(h[1..], id);
    }
  }

  lemma {:induction false} CallIdOf(h: seq<Stored>, q: Stored, id: nat)
    requires q in h && id in IdsOf(CallsOf(q.message))
    ensures id in CallIds(h)
  {
    HeadIds(h);
    if q != h[0] {
      CallIdOf(h[1..], q, id);
    }
  }

  lemma {:induction false} ResultIdIn(h: seq<Stored>, id: nat) returns (s: Stored)
    requires id in ResultIdsIn(h)
    ensures s in h && s.message.ToolResult? && s.message.id == id
  {
    HeadIds(h);
    if h[0].message.ToolResult? && h[0].message.id == id {
      s := h[0];
    } else {
      s := ResultIdIn(h[1..], id);
    }
  }

  lemma {:induction false} ResultIdOf(h: seq<Stored>, s: Stored)
    requires s in h && s.message.ToolResult?
    ensures s.message.id in ResultIdsIn(h)
  {
    HeadIds(h);
    if s != h[0] {
      ResultIdOf(h[1..], s);
    }
  }

  lemma DistinctParts(a: seq<CallRef>, b: seq<CallRef>)
    requires Distinct(a + b)
    ensures Distinct(a) && Distinct(b) && IdsOf(a) * IdsOf(b) == {}
  {
    var ab := a + b;
    assert forall i :: 0 <= i < |a| ==> ab[i] == a[i];
    forall i, j | 0 <= i < j < |b| ensures b[i].id != b[j].id {
      assert ab[|a| + i] == b[i] && ab[|a| + j] == b[j];
    }
    forall r | r in b ensures r.id !in IdsOf(a) {
      DistinctSides(a, b, r);
    }
  }

  lemma DistinctTail(h: seq<Stored>)
    requires h != [] && Distinct(Calls(Msgs(h)))
    ensures Distinct(CallsOf(h[0].message)) && Distinct(Calls(Msgs(h[1..])))
    ensures forall id :: id in IdsOf(CallsOf(h[0].message)) ==> id !in CallIds(h[1..])
  {
    HeadIds(h);
    var a, b := CallsOf(h[0].message), Calls(Msgs(h[1..]));
    DistinctParts(a, b);
    forall id | id in IdsOf(a) ensures id !in IdsOf(b) {
      assert id in IdsOf(a) * IdsOf(b) <==> id in IdsOf(b);
    }
  }

  /** With distinct ids a call stands in one document, so in one turn. */
  lemma {:induction false} CallHasOneTurn(h: seq<Stored>, q: Stored, p: Stored, id: nat)
    requires Distinct(Calls(Msgs(h))) && q in h && p in h
    requires id in IdsOf(CallsOf(q.message)) && id in IdsOf(CallsOf(p.message))
    ensures q.turn == p.turn
  {
    DistinctTail(h);
    assert h == [h[0]] + h[1..];
    if q in h[1..] && p in h[1..] {
      CallHasOneTurn(h[1..], q, p, id);
    } else if q in h[1..] {
      CallIdOf(h[1..], q, id);
    } else if p in h[1..] {
      CallIdOf(h[1..], p, id);
    }
  }

  // ------------------------------------------------------------------ pairing, turn by turn

  lemma SortedTail(h: seq<Stored>)
    requires h != [] && Sorted(h)
    ensures Sorted(h[1..]) && forall s :: s in h ==> h[0].turn <= s.turn
  {
    forall i, j | 0 <= i < j < |h[1..]| ensures h[1..][i].turn <= h[1..][j].turn {
      assert h[1..][i] == h[i + 1] && h[1..][j] == h[j + 1];
    }
    forall s | s in h ensures h[0].turn <= s.turn {
      var i :| 0 <= i < |h| && h[i] == s;
    }
  }

  /** A sorted history is its first turn, then the later ones. */
  lemma {:induction false} FirstTurnFirst(h: seq<Stored>, turn: nat) returns (rest: seq<Stored>)
    requires Sorted(h) && forall s :: s in h ==> turn <= s.turn
    ensures h == OfTurn(h, turn) + rest && Sorted(rest)
    ensures forall s :: s in rest ==> s in h && turn < s.turn
    ensures |rest| == |h| - |OfTurn(h, turn)|
  {
    if h == [] {
      rest := [];
    } else {
      SortedTail(h);
      if h[0].turn == turn {
        rest := FirstTurnFirst(h[1..], turn);
        Seqs.Regroup([h[0]], OfTurn(h[1..], turn), rest);
        assert h == [h[0]] + h[1..];
      } else {
        rest := h;
        NoneOfTurn(h, turn);
      }
    }
  }

  /** When the first part's rounds do not reach into the second, each part is paired by itself. */
  lemma {:induction false} PairedSplits(a: seq<Message>, b: seq<Message>)
    requires Paired(a + b) && IdsOf(Calls(a)) * IdsOf(Results(b)) == {}
    ensures Paired(a)
    decreases |a|
  {
    if a != [] {
      var cs := CallsOf(a[0]);
      var k := if a[0].Assistant? then 1 + |cs| else 1;
      assert (a + b)[0] == a[0];
      if k <= |a| {
        Seqs.SlicesOfConcat(a, b, k);
        LaterIds(a, k);
        PairedSplits(a[k..], b);
      } else {
        ReachesIn(a, b, |a| - 1);
      }
    }
  }

  lemma {:induction false} LaterIds(a: seq<Message>, k: nat)
    requires k <= |a|
    ensures IdsOf(Calls(a[k..])) <= IdsOf(Calls(a))
  {
    SplitCalls(a[..k], a[k..]);
    Seqs.TakeThenDrop(a, k);
    IdsOfConcat(Calls(a[..k]), Calls(a[k..]));
  }

  lemma FirstResultOf(b: seq<Message>)
    requires b != [] && b[0].ToolResult?
    ensures b[0].id in IdsOf(Results(b))
  {
    IdsOfConcat(ResultOf(b[0]), Results(b[1..]));
    ResultIdsOf(b[0]);
  }

  lemma FirstCallsOf(a: seq<Message>, i: nat)
    requires a != [] && i < |CallsOf(a[0])|
    ensures CallsOf(a[0])[i].id in IdsOf(Calls(a))
  {
    assert CallsOf(a[0])[i] in CallsOf(a[0]);
    IdsOfConcat(CallsOf(a[0]), Calls(a[1..]));
  }

  lemma RoundOf(ms: seq<Message>, i: nat)
    requires Paired(ms) && ms != [] && ms[0].Assistant? && i < |CallsOf(ms[0])|
    ensures i + 1 < |ms| && ms[i + 1].ToolResult? && ms[i + 1].id == CallsOf(ms[0])[i].id
  {
    var k := |CallsOf(ms[0])|;
    assert ms[1..1 + k][i] == ms[i + 1];
  }

  lemma ReachesIn(a: seq<Message>, b: seq<Message>, i: nat)
    requires a != [] && a[0].Assistant? && i + 1 == |a| && i < |CallsOf(a[0])|
    requires Paired(a + b)
    ensures IdsOf(Calls(a)) * IdsOf(Results(b)) != {}
  {
    var ab := a + b;
    assert ab[0] == a[0];
    RoundOf(ab, i);
    assert b != [] && ab[i + 1] == b[0];
    FirstResultOf(b);
    FirstCallsOf(a, i);
    assert b[0].id in IdsOf(Calls(a)) * IdsOf(Results(b));
  }

  ghost predicate TurnsPaired(h: seq<Stored>) {
    forall t :: Paired(Msgs(OfTurn(h, t)))
  }

  /** No result in one answers a call in the other. */
  lemma TurnsDisjoint(a: seq<Stored>, b: seq<Stored>, h: seq<Stored>)
    requires WithinTurns(h) && (forall s :: s in a ==> s in h) && (forall s :: s in b ==> s in h)
    requires forall s, q :: s in a && q in b ==> s.turn != q.turn
    ensures CallIds(a) * ResultIdsIn(b) == {}
  {
    forall id | id in CallIds(a) ensures id !in ResultIdsIn(b) {
      if id in ResultIdsIn(b) {
        var q := CallIdIn(a, id);
        var s := ResultIdIn(b, id);
      }
    }
  }

  /** A sorted history is paired exactly when each of its turns is. */
  lemma {:induction false} PairedByTurns(h: seq<Stored>)
    requires Sorted(h) && WithinTurns(h)
    ensures Paired(Msgs(h)) <==> TurnsPaired(h)
    decreases |h|
  {
    if h == [] {
      forall t ensures Paired(Msgs(OfTurn(h, t))) {
        assert OfTurn(h, t) == [];
      }
    } else {
      SortedTail(h);
      var turn := h[0].turn;
      var first := OfTurn(h, turn);
      var rest := FirstTurnFirst(h, turn);
      forall s ensures s in first <==> s in h && s.turn == turn {
        InOfTurn(h, turn, s);
      }
      PairedByTurns(rest);
      MsgsOfConcat(first, rest);
      TurnsDisjoint(first, rest, h);
      TurnsOfParts(h, first, rest, turn);
      if Paired(Msgs(h)) {
        PairedSplits(Msgs(first), Msgs(rest));
        PairedThen(Msgs(first), Msgs(rest));
      } else if TurnsPaired(h) {
        assert Paired(Msgs(OfTurn(h, turn)));
        PairedThen(Msgs(first), Msgs(rest));
      }
    }
  }

  lemma TurnsOfParts(h: seq<Stored>, first: seq<Stored>, rest: seq<Stored>, turn: nat)
    requires h == first + rest && first == OfTurn(h, turn)
    requires forall s :: s in rest ==> turn < s.turn
    requires forall s :: s in first ==> s.turn == turn
    ensures TurnsPaired(h) <==> Paired(Msgs(first)) && TurnsPaired(rest)
  {
    forall t ensures OfTurn(h, t) == if t == turn then first else OfTurn(rest, t) {
      OfTurnConcat(first, rest, t);
      if t != turn {
        NoneOfTurn(first, t);
        Seqs.NothingBefore(OfTurn(rest, t));
      }
    }
    NoneOfTurn(rest, turn);
    if Paired(Msgs(first)) && TurnsPaired(rest) {
      forall t ensures Paired(Msgs(OfTurn(h, t))) {
        assert Paired(Msgs(OfTurn(rest, t)));
      }
    }
    if TurnsPaired(h) {
      assert Paired(Msgs(OfTurn(h, turn)));
      forall t ensures Paired(Msgs(OfTurn(rest, t))) {
        assert Paired(Msgs(OfTurn(h, t)));
        assert t == turn ==> Msgs(OfTurn(rest, t)) == [];
      }
    }
  }

  // ------------------------------------------------------------------ inserting by turn

  lemma {:induction false} InInsert(h: seq<Stored>, x: Stored, s: Stored)
    ensures s in Insert(h, x) <==> s in h || s == x
  {
    if h != [] && h[0].turn <= x.turn {
      InInsert(h[1..], x, s);
      assert h == [h[0]] + h[1..];
    }
  }

  lemma {:induction false} InInsertAll(h: seq<Stored>, xs: seq<Stored>, s: Stored)
    ensures s in InsertAll(h, xs) <==> s in h || s in xs
    decreases |xs|
  {
    if xs != [] {
      InInsertAll(Insert(h, xs[0]), xs[1..], s);
      InInsert(h, xs[0], s);
      assert xs == [xs[0]] + xs[1..];
    }
  }

  lemma SortedCons(s: Stored, h: seq<Stored>)
    requires Sorted(h) && forall q :: q in h ==> s.turn <= q.turn
    ensures Sorted([s] + h)
  {
    var all := [s] + h;
    forall i, j | 0 <= i < j < |all| ensures all[i].turn <= all[j].turn {
      assert all[j] == h[j - 1] && (i > 0 ==> all[i] == h[i - 1]);
    }
  }

  lemma {:induction false} InsertSorts(h: seq<Stored>, x: Stored)
    requires Sorted(h)
    ensures Sorted(Insert(h, x))
  {
    if h != [] && h[0].turn <= x.turn {
      SortedTail(h);
      InsertSorts(h[1..], x);
      forall q | q in Insert(h[1..], x) ensures h[0].turn <= q.turn {
        InInsert(h[1..], x, q);
      }
      SortedCons(h[0], Insert(h[1..], x));
    } else {
      if h != [] {
        SortedTail(h);
      }
      SortedCons(x, h);
    }
  }

  lemma {:induction false} InsertOfTurn(h: seq<Stored>, x: Stored, turn: nat)
    requires Sorted(h)
    ensures OfTurn(Insert(h, x), turn) == OfTurn(h, turn) + if x.turn == turn then [x] else []
  {
    var last := if x.turn == turn then [x] else [];
    if h != [] && h[0].turn <= x.turn {
      SortedTail(h);
      InsertOfTurn(h[1..], x, turn);
      Seqs.Regroup(if h[0].turn == turn then [h[0]] else [], OfTurn(h[1..], turn), last);
    } else {
      if x.turn == turn {
        if h != [] {
          SortedTail(h);
        }
        NoneOfTurn(h, turn);
      }
      assert ([x] + h)[1..] == h;
    }
  }

  lemma {:induction false} InsertAllOfTurn(h: seq<Stored>, xs: seq<Stored>, turn: nat)
    requires Sorted(h)
    ensures Sorted(InsertAll(h, xs))
    ensures OfTurn(InsertAll(h, xs), turn) == OfTurn(h, turn) + OfTurn(xs, turn)
    decreases |xs|
  {
    if xs != [] {
      InsertSorts(h, xs[0]);
      InsertOfTurn(h, xs[0], turn);
      InsertAllOfTurn(Insert(h, xs[0]), xs[1..], turn);
      Seqs.Regroup(OfTurn(h, turn), if xs[0].turn == turn then [xs[0]] else [], OfTurn(xs[1..], turn));
    }
  }

  lemma {:induction false} InsertIds(h: seq<Stored>, x: Stored)
    requires x.message.ToolResult?
    ensures Calls(Msgs(Insert(h, x))) == Calls(Msgs(h))
    ensures ResultIdsIn(Insert(h, x)) == ResultIdsIn(h) + {x.message.id}
  {
    HeadIds(Insert(h, x));
    if h != [] && h[0].turn <= x.turn {
      InsertIds(h[1..], x);
      HeadIds(h);
      assert Insert(h, x)[1..] == Insert(h[1..], x);
    } else {
      assert Insert(h, x)[1..] == h;
      Seqs.NothingBefore(Calls(Msgs(h)));
    }
  }

  predicate AllResults(xs: seq<Stored>) {
    forall i :: 0 <= i < |xs| ==> xs[i].message.ToolResult?
  }

  lemma {:induction false} InsertAllIds(h: seq<Stored>, xs: seq<Stored>)
    requires AllResults(xs)
    ensures Calls(Msgs(InsertAll(h, xs))) == Calls(Msgs(h))
    ensures ResultIdsIn(InsertAll(h, xs)) == ResultIdsIn(h) + ResultIdsIn(xs)
    decreases |xs|
  {
    if xs != [] {
      InsertIds(h, xs[0]);
      HeadIds(xs);
      InsertAllIds(Insert(h, xs[0]), xs[1..]);
    } else {
      assert ResultIdsIn(xs) == {};
    }
  }

  // ------------------------------------------------------------------ dangling calls by turn

  lemma SyntheticConcat(a: seq<DanglingCall>, b: seq<DanglingCall>)
    ensures SyntheticResults(a + b) == SyntheticResults(a) + SyntheticResults(b)
  {
  }

  lemma DanglingAlone(s: Stored, answered: set<nat>)
    ensures DanglingIn([s], answered) == DanglingOf(s, answered)
  {
    assert [s][1..] == [] && DanglingIn([], answered) == [];
  }

  lemma SyntheticOfOne(s: Stored, answered: set<nat>, turn: nat)
    ensures OfTurn(SyntheticResults(DanglingOf(s, answered)), turn) ==
              if s.turn == turn then SyntheticResults(DanglingOf(s, answered)) else []
  {
    var xs := SyntheticResults(DanglingOf(s, answered));
    forall x | x in xs ensures x.turn == s.turn {
      var i :| 0 <= i < |xs| && xs[i] == x;
    }
    if s.turn == turn {
      AllOfTurn(xs, turn);
    } else {
      NoneOfTurn(xs, turn);
    }
  }

  lemma {:induction false} SyntheticByTurn(h: seq<Stored>, answered: set<nat>, turn: nat)
    ensures OfTurn(SyntheticResults(DanglingIn(h, answered)), turn) ==
              SyntheticResults(DanglingIn(OfTurn(h, turn), answered))
  {
    if h == [] {
      assert SyntheticResults([]) == [];
    } else {
      var here, later := DanglingOf(h[0], answered), DanglingIn(h[1..], answered);
      var first := if h[0].turn == turn then [h[0]] else [];
      SyntheticByTurn(h[1..], answered, turn);
      SyntheticConcat(here, later);
      OfTurnConcat(SyntheticResults(here), SyntheticResults(later), turn);
      SyntheticOfOne(h[0], answered, turn);
      DanglingSplits(first, OfTurn(h[1..], turn), answered);
      DanglingAlone(h[0], answered);
      SyntheticConcat(DanglingIn(first, answered), DanglingIn(OfTurn(h[1..], turn), answered));
      assert SyntheticResults([]) == [];
    }
  }

  lemma {:induction false} DanglingOwned(h: seq<Stored>, called: set<nat>, answered: set<nat>)
    ensures DanglingIn(Owned(h, called), answered) == DanglingIn(h, answered)
    ensures Calls(Msgs(Owned(h, called))) == Calls(Msgs(h))
  {
    if h != [] {
      var first := if Kept(h[0].message, called) then [h[0]] else [];
      DanglingOwned(h[1..], called, answered);
      DanglingSplits(first, Owned(h[1..], called), answered);
      DanglingAlone(h[0], answered);
      HeadIds(h);
      ConcatIds(first, Owned(h[1..], called));
      HeadIds([h[0]]);
      assert AtTurn(h[0].turn, []) == [];
      assert Calls(Msgs([h[0]])) == CallsOf(h[0].message) by {
        assert [h[0]][1..] == [] && Calls(Msgs([])) == [];
        assert CallsOf(h[0].message) + [] == CallsOf(h[0].message);
      }
    }
  }

  lemma {:induction false} UnansweredIn(refs: seq<CallRef>, answered: set<nat>, r: CallRef)
    ensures r in Unanswered(refs, answered) <==> r in refs && r.id !in answered
  {
    if refs != [] {
      UnansweredIn(refs[1..], answered, r);
      assert refs == [refs[0]] + refs[1..];
    }
  }

  lemma {:induction false} DanglingHasCall(h: seq<Stored>, answered: set<nat>, d: DanglingCall) returns (q: Stored)
    requires d in DanglingIn(h, answered)
    ensures q in h && q.turn == d.turn && d.call.id in IdsOf(CallsOf(q.message))
  {
    if d in DanglingOf(h[0], answered) {
      q := h[0];
      var i :| 0 <= i < |DanglingOf(q, answered)| && DanglingOf(q, answered)[i] == d;
      UnansweredIn(CallsOf(q.message), answered, d.call);
      assert Unanswered(CallsOf(q.message), answered)[i] == d.call;
    } else {
      q := DanglingHasCall(h[1..], answered, d);
    }
  }

  /** After a repair every call has a result. */
  lemma RepairAnswersAll(h: seq<Stored>)
    ensures Calls(Msgs(Repaired(h))) == Calls(Msgs(h))
    ensures ResultIdsIn(Repaired(h)) == ResultIdsIn(h) + CallIds(h)
  {
    var ds, answered := Dangling(h), ResultIdsIn(h);
    var xs := SyntheticResults(ds);
    InsertAllIds(h, xs);
    SyntheticHaveNoCalls(ds);
    DanglingRefs(h, answered);
    forall id ensures id in ResultIdsIn(xs) <==> id in CallIds(h) && id !in answered {
      var refs := Unanswered(Calls(Msgs(h)), answered);
      if id in IdsOf(refs) {
        var r :| r in refs && r.id == id;
        UnansweredIn(Calls(Msgs(h)), answered, r);
      }
      if id in CallIds(h) && id !in answered {
        var r :| r in Calls(Msgs(h)) && r.id == id;
        UnansweredIn(Calls(Msgs(h)), answered, r);
      }
    }
  }

  // ------------------------------------------------------------------ what a repair makes of it

  /**
   * What every live history satisfies, whatever was flagged: sorted by turn, with
   * distinct call ids, results in the turn of their calls.
   */
  ghost predicate Orderly(h: seq<Stored>) {
    Sorted(h) && Distinct(Calls(Msgs(h))) && WithinTurns(h)
  }

  /** One turn's messages, results without their call left aside. */
  function TurnPart(h: seq<Stored>, turn: nat): seq<Stored> {
    OfTurn(Owned(h, CallIds(h)), turn)
  }

  /** In every turn results are missing at its end at most. */
  ghost predicate TurnsCut(h: seq<Stored>) {
    forall t :: Cut(Msgs(TurnPart(h, t)))
  }

  lemma InTurnPart(h: seq<Stored>, turn: nat, s: Stored)
    ensures s in TurnPart(h, turn) <==> s in h && Kept(s.message, CallIds(h)) && s.turn == turn
  {
    InOfTurn(Owned(h, CallIds(h)), turn, s);
    InOwned(h, CallIds(h), s);
  }

  lemma {:induction false} DistinctOfTurn(h: seq<Stored>, turn: nat)
    requires Distinct(Calls(Msgs(h)))
    ensures Distinct(Calls(Msgs(OfTurn(h, turn))))
    ensures CallIds(OfTurn(h, turn)) <= CallIds(h)
  {
    if h != [] {
      DistinctTail(h);
      DistinctOfTurn(h[1..], turn);
      HeadIds(h);
      if h[0].turn == turn {
        var rest := OfTurn(h[1..], turn);
        HeadIds([h[0]] + rest);
        assert ([h[0]] + rest)[1..] == rest;
        DistinctJoin(CallsOf(h[0].message), Calls(Msgs(rest)));
      } else {
        Seqs.NothingBefore(OfTurn(h[1..], turn));
      }
    }
  }

  lemma DistinctJoin(a: seq<CallRef>, b: seq<CallRef>)
    requires Distinct(a) && Distinct(b) && forall id :: id in IdsOf(a) ==> id !in IdsOf(b)
    ensures Distinct(a + b)
  {
    forall i, j | 0 <= i < j < |a + b| ensures (a + b)[i].id != (a + b)[j].id {
      if i < |a| <= j {
        assert a[i] in a && b[j - |a|] in b;
        assert a[i].id in IdsOf(a) && b[j - |a|].id in IdsOf(b);
      }
    }
  }

  lemma AnsweredInItsTurn(h: seq<Stored>, turn: nat, id: nat)
    requires WithinTurns(h) && id in CallIds(TurnPart(h, turn)) && id in ResultIdsIn(h)
    ensures id in ResultIdsIn(TurnPart(h, turn))
  {
    var part := TurnPart(h, turn);
    var s := ResultIdIn(h, id);
    var q := CallIdIn(part, id);
    InTurnPart(h, turn, q);
    CallIdOf(h, q, id);
    InTurnPart(h, turn, s);
    ResultIdOf(part, s);
  }

  lemma TurnPartDistinct(h: seq<Stored>, turn: nat)
    requires Distinct(Calls(Msgs(h)))
    ensures Distinct(Calls(Msgs(TurnPart(h, turn))))
  {
    DanglingOwned(h, CallIds(h), {});
    DistinctOfTurn(Owned(h, CallIds(h)), turn);
  }

  /** A missing result of a turn's part is nowhere else in the history. */
  lemma MissingIsUnanswered(h: seq<Stored>, turn: nat, r: CallRef)
    requires Orderly(h) && Cut(Msgs(TurnPart(h, turn))) && r in Missing(Msgs(TurnPart(h, turn)))
    ensures r.id !in ResultIdsIn(h)
  {
    var ms := Msgs(TurnPart(h, turn));
    CallsAreResultsThenMissing(ms);
    TurnPartDistinct(h, turn);
    DistinctSides(Results(ms), Missing(ms), r);
    assert r in Calls(ms);
    assert r.id in CallIds(TurnPart(h, turn));
    if r.id in ResultIdsIn(h) {
      AnsweredInItsTurn(h, turn, r.id);
    }
  }

  /** The unanswered calls of a turn that is cut at its end are the missing ones. */
  lemma TurnUnanswered(h: seq<Stored>, turn: nat)
    requires Orderly(h) && Cut(Msgs(TurnPart(h, turn)))
    ensures Unanswered(Calls(Msgs(TurnPart(h, turn))), ResultIdsIn(h)) == Missing(Msgs(TurnPart(h, turn)))
  {
    var part, answered := TurnPart(h, turn), ResultIdsIn(h);
    CallsAreResultsThenMissing(Msgs(part));
    UnansweredSplits(Results(Msgs(part)), Missing(Msgs(part)), answered);
    forall r | r in Results(Msgs(part)) ensures r.id in answered {
      assert r.id in ResultIdsIn(part);
      var s := ResultIdIn(part, r.id);
      InTurnPart(h, turn, s);
      ResultIdOf(h, s);
    }
    AllAnswered(Results(Msgs(part)), answered);
    forall r | r in Missing(Msgs(part)) ensures r.id !in answered {
      MissingIsUnanswered(h, turn, r);
    }
    NoneAnswered(Missing(Msgs(part)), answered);
  }

  /** The results a repair adds to a turn. */
  function Mending(h: seq<Stored>, turn: nat): seq<Stored> {
    SyntheticResults(DanglingIn(TurnPart(h, turn), ResultIdsIn(h)))
  }

  /** A repair makes a turn strictly paired exactly when it was cut at its end at most. */
  lemma MendingPairsExactly(h: seq<Stored>, turn: nat)
    requires Orderly(h)
    ensures Paired(Msgs(TurnPart(h, turn) + Mending(h, turn))) <==> Cut(Msgs(TurnPart(h, turn)))
  {
    var part, more := TurnPart(h, turn), Mending(h, turn);
    var ds := DanglingIn(part, ResultIdsIn(h));
    MsgsOfConcat(part, more);
    if Paired(Msgs(part + more)) {
      PrefixIsCut(Msgs(part + more), |part|);
      assert Msgs(part + more)[..|part|] == Msgs(part);
    }
    if Cut(Msgs(part)) {
      TurnUnanswered(h, turn);
      DanglingRefs(part, ResultIdsIn(h));
      forall i | 0 <= i < |ds|
        ensures var m, r := Msgs(more)[i], RefsOf(ds)[i]; m.ToolResult? && m.id == r.id && m.name == r.name
      {
      }
      AnswersComplete(Msgs(part), Msgs(more));
    }
  }

  lemma RepairedTurn(h: seq<Stored>, turn: nat)
    requires Sorted(h)
    ensures TurnPart(Repaired(h), turn) == TurnPart(h, turn) + Mending(h, turn)
  {
    var called, answered := CallIds(h), ResultIdsIn(h);
    var xs := SyntheticResults(Dangling(h));
    RepairAnswersAll(h);
    InsertAllOfTurn(h, xs, turn);
    OwnedOfTurn(Repaired(h), called, turn);
    OwnedOfTurn(h, called, turn);
    OwnedConcat(OfTurn(h, turn), OfTurn(xs, turn), called);
    SyntheticByTurn(h, answered, turn);
    DanglingOwned(OfTurn(h, turn), called, answered);
    forall x | x in OfTurn(xs, turn) ensures Kept(x.message, called) {
      InOfTurn(xs, turn, x);
      SyntheticIsCalled(h, x);
    }
    AllOwned(OfTurn(xs, turn), called);
  }

  lemma SyntheticIsCalled(h: seq<Stored>, x: Stored)
    requires x in SyntheticResults(Dangling(h))
    ensures x.message.ToolResult? && x.message.id in CallIds(h)
    ensures exists q :: q in h && q.turn == x.turn && x.message.id in IdsOf(CallsOf(q.message))
  {
    var ds := Dangling(h);
    var i :| 0 <= i < |ds| && SyntheticResults(ds)[i] == x;
    var q := DanglingHasCall(h, ResultIdsIn(h), ds[i]);
    CallIdOf(h, q, x.message.id);
  }

  /** Some of a repair's appends, in their order, leave the history orderly. */
  lemma RepairKeepsOrderly(h: seq<Stored>, xs: seq<Stored>)
    requires Orderly(h) && forall x :: x in xs ==> x in SyntheticResults(Dangling(h))
    ensures Orderly(InsertAll(h, xs)) && Calls(Msgs(InsertAll(h, xs))) == Calls(Msgs(h))
  {
    var after := InsertAll(h, xs);
    forall i | 0 <= i < |xs| ensures xs[i].message.ToolResult? {
      SyntheticIsCalled(h, xs[i]);
    }
    InsertAllOfTurn(h, xs, 0);
    InsertAllIds(h, xs);
    forall s, q | s in after && q in after && s.message.ToolResult? && s.message.id in IdsOf(CallsOf(q.message))
      ensures s.turn == q.turn
    {
      InInsertAll(h, xs, s);
      InInsertAll(h, xs, q);
      assert q in h;
      if s !in h {
        SyntheticIsCalled(h, s);
        var p :| p in h && p.turn == s.turn && s.message.id in IdsOf(CallsOf(p.message));
        CallHasOneTurn(h, p, q, s.message.id);
      }
    }
  }

  lemma {:induction false} OwnedSorted(h: seq<Stored>, called: set<nat>)
    requires Sorted(h)
    ensures Sorted(Owned(h, called))
  {
    if h != [] {
      SortedTail(h);
      OwnedSorted(h[1..], called);
      if Kept(h[0].message, called) {
        forall q | q in Owned(h[1..], called) ensures h[0].turn <= q.turn {
          InOwned(h[1..], called, q);
        }
        SortedCons(h[0], Owned(h[1..], called));
      }
    }
  }

  /**
   * Whatever is live, a repair makes it strictly paired, results without a call left
   * aside, if and only if every turn lacks results at its end at most.
   */
  lemma RepairPairsExactly(h: seq<Stored>)
    requires Orderly(h)
    ensures Paired(Msgs(Owned(Repaired(h), CallIds(h)))) <==> TurnsCut(h)
    ensures Orderly(Repaired(h)) && CallIds(Repaired(h)) == CallIds(h)
  {
    var after, called := Repaired(h), CallIds(h);
    var p := Owned(after, called);
    RepairKeepsOrderly(h, SyntheticResults(Dangling(h)));
    OwnedSorted(after, called);
    forall s ensures s in p ==> s in after {
      InOwned(after, called, s);
    }
    PairedByTurns(p);
    forall t ensures Paired(Msgs(OfTurn(p, t))) <==> Cut(Msgs(TurnPart(h, t))) {
      RepairedTurn(h, t);
      MendingPairsExactly(h, t);
    }
    if TurnsPaired(p) {
      forall t ensures Cut(Msgs(TurnPart(h, t))) {
        assert Paired(Msgs(OfTurn(p, t)));
      }
    }
  }
}
