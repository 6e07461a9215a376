/**
 * Appending to the conversation collection (conversation-repository.ts): any
 * number of appenders each count the documents of a turn, then insert at that
 * position; a unique index rejects a taken one and the appender counts again.
 */
module ConversationAppend {
  datatype Doc = Doc(turn: nat, position: nat, message: string)

  const MAX_ATTEMPTS: nat := 5

  function CountTurn(docs: seq<Doc>, turn: nat): nat {
    if docs == [] then 0
    else CountTurn(docs[..|docs| - 1], turn) + if docs[|docs| - 1].turn == turn then 1 else 0
  }

  predicate Taken(docs: seq<Doc>, turn: nat, position: nat) {
    exists i :: 0 <= i < |docs| && docs[i].turn == turn && docs[i].position == position
  }

  /** In insertion order, each document sits behind all earlier ones of its turn. */
  ghost predicate Gapless(docs: seq<Doc>) {
    forall i :: 0 <= i < |docs| ==> docs[i].position == CountTurn(docs[..i], docs[i].turn)
  }

  // ------------------------------------------------------------------ positions

  lemma {:induction false} CountGrows(docs: seq<Doc>, turn: nat, i: nat)
    requires i <= |docs|
    ensures CountTurn(docs[..i], turn) <= CountTurn(docs, turn)
    ensures i < |docs| && docs[i].turn == turn ==> CountTurn(docs[..i], turn) < CountTurn(docs, turn)
    decreases |docs|
  {
    if i == |docs| {
      assert docs[..i] == docs;
    } else {
      var init := docs[..|docs| - 1];
      CountGrows(init, turn, i);
      assert init[..i] == docs[..i];
    }
  }

  lemma {:induction false} EveryPositionIsFilled(docs: seq<Doc>, turn: nat, position: nat)
    requires Gapless(docs) && position < CountTurn(docs, turn)
    ensures Taken(docs, turn, position)
    decreases |docs|
  {
    var n := |docs| - 1;
    var init := docs[..n];
    assert forall i :: 0 <= i < n ==> init[..i] == docs[..i];
    if docs[n].turn != turn || position != CountTurn(init, turn) {
      EveryPositionIsFilled(init, turn, position);
      var i :| 0 <= i < |init| && init[i].turn == turn && init[i].position == position;
      assert docs[i] == init[i];
    } else {
      assert docs[n].position == position;
    }
  }

  /** The positions of a turn with n documents are exactly 0..n-1. */
  lemma PositionsAreGapless(docs: seq<Doc>, turn: nat, position: nat)
    requires Gapless(docs)
    ensures Taken(docs, turn, position) <==> position < CountTurn(docs, turn)
  {
    if Taken(docs, turn, position) {
      var i :| 0 <= i < |docs| && docs[i].turn == turn && docs[i].position == position;
      CountGrows(docs, turn, i);
    }
    if position < CountTurn(docs, turn) {
      EveryPositionIsFilled(docs, turn, position);
    }
  }

  /** No two documents share a turn and a position; within a turn positions follow insertion order. */
  lemma PositionsAreOrdered(docs: seq<Doc>, i: nat, j: nat)
    requires Gapless(docs) && i < j < |docs| && docs[i].turn == docs[j].turn
    ensures docs[i].position < docs[j].position
  {
    CountGrows(docs[..j], docs[i].turn, i);
    assert docs[..j][..i] == docs[..i];
  }

  lemma InsertKeepsGapless(docs: seq<Doc>, d: Doc)
    requires Gapless(docs) && d.position == CountTurn(docs, d.turn)
    ensures Gapless(docs + [d])
    ensures forall t :: CountTurn(docs + [d], t) == CountTurn(docs, t) + if t == d.turn then 1 else 0
  {
    var all := docs + [d];
    assert all[..|docs|] == docs;
    forall i | 0 <= i < |docs| ensures all[..i] == docs[..i] {
    }
  }

  // ------------------------------------------------------------------ interleaved appenders

  datatype Id = Id(name: string)

  /** An appender of one message: `found` is what it counted, `began` the turn's count when it began. */
  datatype Appender =
    | Counting(turn: nat, message: string, failures: nat, began: nat)
    | Inserting(turn: nat, message: string, failures: nat, began: nat, found: nat)
    | Done
    | GaveUp(turn: nat, began: nat)

  datatype State = State(docs: seq<Doc>, appenders: map<Id, Appender>)

  datatype Action =
    | Begin(who: Id, turn: nat, message: string)
    | Count(who: Id)
    | Insert(who: Id)
    | Crash(who: Id)

  /** New, or through with its last message. */
  predicate Free(appenders: map<Id, Appender>, who: Id) {
    who in appenders ==> appenders[who].Done? || appenders[who].GaveUp?
  }

  predicate Enabled(s: State, a: Action) {
    match a
    case Begin(who, _, _) => Free(s.appenders, who)
    case Count(who) => who in s.appenders && s.appenders[who].Counting?
    case Insert(who) => who in s.appenders && s.appenders[who].Inserting?
    case Crash(who) => who in s.appenders
  }

  /** After the failed insert of its `failures`-th attempt. */
  function Failed(p: Appender): Appender
    requires p.Inserting?
  {
    if p.failures + 1 >= MAX_ATTEMPTS then GaveUp(p.turn, p.began)
    else Counting(p.turn, p.message, p.failures + 1, p.began)
  }

  function Apply(s: State, a: Action): State
    requires Enabled(s, a)
  {
    match a
    case Begin(who, turn, message) =>
      s.(appenders := s.appenders[who := Counting(turn, message, 0, CountTurn(s.docs, turn))])
    case Count(who) =>
      var p := s.appenders[who];
      s.(appenders := s.appenders[who := Inserting(p.turn, p.message, p.failures, p.began, CountTurn(s.docs, p.turn))])
    case Insert(who) =>
      var p := s.appenders[who];
      if Taken(s.docs, p.turn, p.found) then s.(appenders := s.appenders[who := Failed(p)])
      else State(s.docs + [Doc(p.turn, p.found, p.message)], s.appenders[who := Done])
    case Crash(who) => s.(appenders := s.appenders - {who})
  }

  /** What an appender knows of its turn: every failure of its was another's insert. */
  ghost predicate Knows(docs: seq<Doc>, p: Appender) {
    match p
    case Counting(turn, _, failures, began) => failures < MAX_ATTEMPTS && CountTurn(docs, turn) >= began + failures
    case Inserting(turn, _, failures, began, found) =>
      failures < MAX_ATTEMPTS && CountTurn(docs, turn) >= found >= began + failures
    case Done => true
    case GaveUp(turn, began) => CountTurn(docs, turn) >= began + MAX_ATTEMPTS
  }

  ghost predicate Inv(s: State) {
    && Gapless(s.docs)
    && forall who :: who in s.appenders ==> Knows(s.docs, s.appenders[who])
  }

  /** An insert lands exactly when nobody else's landed since the count. */
  lemma InsertLandsIfUndisturbed(s: State, who: Id)
    requires Inv(s) && Enabled(s, Insert(who))
    ensures var p := s.appenders[who];
            Apply(s, Insert(who)).appenders[who] == Done <==> CountTurn(s.docs, p.turn) == p.found
  {
    PositionsAreGapless(s.docs, s.appenders[who].turn, s.appenders[who].found);
    assert Knows(s.docs, s.appenders[who]);
  }

  lemma StepKeepsInv(s: State, a: Action)
    requires Inv(s) && Enabled(s, a)
    ensures Inv(Apply(s, a))
  {
    if a.Insert? {
      var p := s.appenders[a.who];
      assert Knows(s.docs, p);
      PositionsAreGapless(s.docs, p.turn, p.found);
      if !Taken(s.docs, p.turn, p.found) {
        InsertKeepsGapless(s.docs, Doc(p.turn, p.found, p.message));
      }
    }
  }

  ghost predicate Reachable(s: State, actions: seq<Action>)
    decreases |actions|
  {
    if actions == [] then s == State([], map[])
    else
      var a := actions[|actions| - 1];
      exists r :: Reachable(r, actions[..|actions| - 1]) && Enabled(r, a) && s == Apply(r, a)
  }

  lemma {:induction false} ReachableKeepsInv(s: State, actions: seq<Action>)
    requires Reachable(s, actions)
    ensures Inv(s)
    decreases |actions|
  {
    if actions != [] {
      var a := actions[|actions| - 1];
      var r :| Reachable(r, actions[..|actions| - 1]) && Enabled(r, a) && s == Apply(r, a);
      ReachableKeepsInv(r, actions[..|actions| - 1]);
      StepKeepsInv(r, a);
    }
  }

  /** However appenders interleave and die, a turn with n documents holds exactly the positions 0..n-1. */
  lemma ConcurrentAppendsAreGapless(s: State, actions: seq<Action>, turn: nat, position: nat)
    requires Reachable(s, actions)
    ensures Taken(s.docs, turn, position) <==> position < CountTurn(s.docs, turn)
  {
    ReachableKeepsInv(s, actions);
    PositionsAreGapless(s.docs, turn, position);
  }

  /** An appender that fails k attempts saw k other inserts land in its turn; one that gives up, five. */
  lemma FailuresAreOthersInserts(s: State, actions: seq<Action>, who: Id)
    requires Reachable(s, actions) && who in s.appenders
    ensures var p := s.appenders[who];
            && (p.Counting? || p.Inserting? ==> CountTurn(s.docs, p.turn) - p.began >= p.failures)
            && (p.GaveUp? ==> CountTurn(s.docs, p.turn) - p.began >= 5)
  {
    ReachableKeepsInv(s, actions);
    assert Knows(s.docs, s.appenders[who]);
  }

  // ------------------------------------------------------------------ the retry loop

  datatype Entry = Entry(turn: nat, message: string)

  /** What other appenders do between a count and the insert that follows it, by message and attempt. */
  type Rivals = (nat, nat) -> seq<Action>

  /** `e` is the last document, behind all others of its turn. */
  ghost predicate LandedLast(before: seq<Doc>, docs: seq<Doc>, e: Entry) {
    && |before| < |docs| && before <= docs
    && docs[|docs| - 1] == Doc(e.turn, CountTurn(docs[..|docs| - 1], e.turn), e.message)
  }

  /** The entries are documents after `before`, in the given order, at the indices `at`. */
  ghost predicate LandedAt(before: seq<Doc>, docs: seq<Doc>, es: seq<Entry>, at: seq<nat>) {
    && |at| == |es|
    && (forall k :: 0 <= k < |es| ==>
          |before| <= at[k] < |docs| && docs[at[k]].turn == es[k].turn && docs[at[k]].message == es[k].message)
    && (forall j, k :: 0 <= j < k < |es| ==> at[j] < at[k])
  }

  /** Five documents landed in the turn, as many as an appender has attempts. */
  predicate Crowded(before: seq<Doc>, docs: seq<Doc>, turn: nat) {
    CountTurn(docs, turn) >= CountTurn(before, turn) + 5
  }

  lemma LandedAtKept(before: seq<Doc>, docs: seq<Doc>, later: seq<Doc>, es: seq<Entry>, at: seq<nat>)
    requires LandedAt(before, docs, es, at) && docs <= later
    ensures LandedAt(before, later, es, at)
  {
  }

  lemma LandedAtExtends(before: seq<Doc>, docs: seq<Doc>, later: seq<Doc>, es: seq<Entry>, at: seq<nat>, e: Entry)
    requires LandedAt(before, docs, es, at) && before <= docs && LandedLast(docs, later, e)
    ensures LandedAt(before, later, es + [e], at + [|later| - 1])
  {
    LandedAtKept(before, docs, later, es, at);
  }

  lemma CountOfPrefix(before: seq<Doc>, docs: seq<Doc>, turn: nat)
    requires before <= docs
    ensures CountTurn(before, turn) <= CountTurn(docs, turn)
  {
    CountGrows(docs, turn, |before|);
    assert docs[..|before|] == before;
  }

  /** After counting n documents in its turn. */
  function Counted(p: Appender, n: nat): Appender
    requires p.Counting?
  {
    Inserting(p.turn, p.message, p.failures, p.began, n)
  }

  lemma OneMore(s: State, actions: seq<Action>, a: Action)
    requires Reachable(s, actions) && Enabled(s, a)
    ensures Reachable(Apply(s, a), actions + [a])
  {
    var longer := actions + [a];
    assert longer[..|longer| - 1] == actions && longer[|longer| - 1] == a;
  }

  /** An insert that lands does so at the end of its turn. */
  lemma LandsLast(s: State, actions: seq<Action>, who: Id)
    requires Reachable(s, actions) && who in s.appenders && s.appenders[who].Inserting?
    ensures var p, t := s.appenders[who], Apply(s, Insert(who));
            && s.docs <= t.docs
            && (!Taken(s.docs, p.turn, p.found) ==>
                  t.docs == s.docs + [Doc(p.turn, p.found, p.message)] && p.found == CountTurn(s.docs, p.turn)
                  && LandedLast(s.docs, t.docs, Entry(p.turn, p.message)))
  {
    ReachableKeepsInv(s, actions);
    InsertLandsIfUndisturbed(s, who);
    var t := Apply(s, Insert(who));
    assert |t.docs| > |s.docs| ==> t.docs[..|t.docs| - 1] == s.docs;
  }

  lemma LandedLastFrom(first: seq<Doc>, before: seq<Doc>, docs: seq<Doc>, e: Entry)
    requires first <= before && LandedLast(before, docs, e)
    ensures LandedLast(first, docs, e)
  {
  }

  /** The collection, with where each appender stands. */
  class Collection {
    var docs: seq<Doc>
    var appenders: map<Id, Appender>
    ghost var trace: seq<Action>

    function View(): State
      reads this
    {
      State(docs, appenders)
    }

    /** The fields are a state some run of interleaved appenders reaches. */
    ghost predicate Valid()
      reads this
    {
      Reachable(View(), trace)
    }

    constructor ()
      ensures Valid() && docs == [] && appenders == map[]
    {
      docs, appenders, trace := [], map[], [];
    }

    method CountDocuments(turn: nat) returns (n: nat)
      ensures n == CountTurn(docs, turn)
    {
      n := 0;
      for i := 0 to |docs|
        invariant n == CountTurn(docs[..i], turn)
      {
        assert docs[..i + 1][..i] == docs[..i];
        if docs[i].turn == turn {
          n := n + 1;
        }
      }
      assert docs[..|docs|] == docs;
    }

    /** The unique index: false on a duplicate key. */
    method InsertOne(d: Doc) returns (ok: bool)
      modifies this`docs
      ensures ok == !Taken(old(docs), d.turn, d.position)
      ensures docs == if ok then old(docs) + [d] else old(docs)
    {
      ok := true;
      for i := 0 to |docs|
        invariant ok == !exists k :: 0 <= k < i && docs[k].turn == d.turn && docs[k].position == d.position
      {
        if docs[i].turn == d.turn && docs[i].position == d.position {
          ok := false;
        }
      }
      if ok {
        docs := docs + [d];
      }
    }

    /** The step just taken is one of the protocol's. */
    ghost method Took(before: State, a: Action)
      requires Reachable(before, trace) && Enabled(before, a) && View() == Apply(before, a)
      modifies this`trace
      ensures Valid()
    {
      OneMore(before, trace, a);
      trace := trace + [a];
    }

    /** The others' steps, as far as they can be taken. */
    method Others(who: Id, script: seq<Action>)
      requires Valid() && who in appenders
      modifies this
      ensures Valid() && old(docs) <= docs && who in appenders && appenders[who] == old(appenders)[who]
    {
      for i := 0 to |script|
        invariant Valid() && old(docs) <= docs && who in appenders && appenders[who] == old(appenders)[who]
      {
        if script[i].who != who && Enabled(View(), script[i]) {
          var before := View();
          var after := Apply(before, script[i]);
          docs, appenders := after.docs, after.appenders;
          Took(before, script[i]);
        }
      }
    }

    /** The insert of an attempt: done, or one more failure. */
    method TryInsert(who: Id) returns (inserted: bool)
      requires Valid() && who in appenders && appenders[who].Inserting?
      modifies this
      ensures Valid() && View() == Apply(old(View()), Insert(who))
      ensures inserted == !Taken(old(docs), old(appenders)[who].turn, old(appenders)[who].found)
    {
      ghost var before := View();
      var p := appenders[who];
      inserted := InsertOne(Doc(p.turn, p.found, p.message));
      appenders := appenders[who := if inserted then Done else Failed(p)];
      Took(before, Insert(who));
    }

    /** One attempt: count, let others in, insert. */
    method Attempt(who: Id, others: seq<Action>) returns (inserted: bool)
      requires Valid() && who in appenders && appenders[who].Counting?
      modifies this
      ensures Valid() && old(docs) <= docs && who in appenders
      ensures inserted ==>
                && appenders[who] == Done
                && LandedLast(old(docs), docs, Entry(old(appenders)[who].turn, old(appenders)[who].message))
      ensures !inserted ==>
                var p := old(appenders)[who];
                appenders[who] == if p.failures >= 4 then GaveUp(p.turn, p.began)
                                  else Counting(p.turn, p.message, p.failures + 1, p.began)
    {
      var p := appenders[who];
      ghost var before := View();
      var position := CountDocuments(p.turn);
      appenders := appenders[who := Counted(p, position)];
      Took(before, Count(who));
      Others(who, others);
      before := View();
      LandsLast(before, trace, who);
      inserted := TryInsert(who);
      if inserted {
        LandedLastFrom(old(docs), before.docs, docs, Entry(p.turn, p.message));
      }
    }

    /**
     * One message: counted and inserted again after each duplicate, at most
     * MAX_ATTEMPTS times. It lands at the end of its turn, or that many others did.
     */
    method AppendOne(who: Id, e: Entry, rivals: nat -> seq<Action>) returns (inserted: bool)
      requires Valid() && Free(appenders, who)
      modifies this
      ensures Valid() && old(docs) <= docs && Free(appenders, who)
      ensures inserted ==> LandedLast(old(docs), docs, e)
      ensures !inserted ==> Crowded(old(docs), docs, e.turn)
    {
      ghost var before := View();
      var began := CountTurn(docs, e.turn);
      appenders := appenders[who := Counting(e.turn, e.message, 0, began)];
      Took(before, Begin(who, e.turn, e.message));
      inserted := false;
      var attempt := 1;
      while attempt <= MAX_ATTEMPTS && !inserted
        invariant 1 <= attempt <= MAX_ATTEMPTS + 1
        invariant Valid() && old(docs) <= docs && who in appenders
        invariant inserted ==> appenders[who] == Done && LandedLast(old(docs), docs, e)
        invariant !inserted ==>
                    appenders[who] == if attempt <= MAX_ATTEMPTS then Counting(e.turn, e.message, attempt - 1, began)
                                      else GaveUp(e.turn, began)
      {
        inserted := Attempt(who, rivals(attempt));
        attempt := attempt + 1;
      }
      if !inserted {
        FailuresAreOthersInserts(View(), trace, who);
      }
    }

    /**
     * `append`: the messages land in order, each behind everything stored in its
     * turn before it; if one gives up, the earlier ones have landed.
     */
    method Append(who: Id, messages: seq<Entry>, rivals: Rivals) returns (done: nat, ghost at: seq<nat>)
      requires Valid() && Free(appenders, who)
      modifies this
      ensures Valid() && old(docs) <= docs && Free(appenders, who)
      ensures done <= |messages| && LandedAt(old(docs), docs, messages[..done], at)
      ensures done < |messages| ==> Crowded(old(docs), docs, messages[done].turn)
    {
      done, at := 0, [];
      var ok := true;
      while done < |messages| && ok
        invariant done <= |messages| && LandedAt(old(docs), docs, messages[..done], at)
        invariant Valid() && old(docs) <= docs && Free(appenders, who)
        invariant !ok ==> done < |messages| && Crowded(old(docs), docs, messages[done].turn)
        decreases |messages| - done, ok
      {
        ghost var before, e := docs, messages[done];
        ok := AppendOne(who, messages[done], (attempt: nat) => rivals(done, attempt));
        if ok {
          LandedAtExtends(old(docs), before, docs, messages[..done], at, e);
          assert messages[..done + 1] == messages[..done] + [e];
          at := at + [|docs| - 1];
          done := done + 1;
        } else {
          LandedAtKept(old(docs), before, docs, messages[..done], at);
          CountOfPrefix(old(docs), before, e.turn);
        }
      }
    }
  }
}
