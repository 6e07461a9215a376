/**
 * What the model is given of a stored history (reflection.ts, `convertToLlm`), and
 * the loops that find and answer dangling tool calls.
 */
module HistoryView {
  import opened Messages
  import opened ToolPairing
  import opened HistoryRepair
  import opened HistoryTurns
  import opened Pruning
  import InnerLoop
  import Seqs

  const SUMMARY_PREFIX := "[Session history summary]\n"

  function AsUser(m: Message): Message {
    if m.Summary? then User(SUMMARY_PREFIX + m.text) else m
  }

  function AsUsers(ms: seq<Message>): seq<Message> {
    seq(|ms|, i requires 0 <= i < |ms| => AsUser(ms[i]))
  }

  /** Pass 1: results without a call are dropped. */
  function DropOrphans(ms: seq<Message>, called: set<nat>): seq<Message> {
    if ms == [] then []
    else (if Kept(ms[0], called) then [ms[0]] else []) + DropOrphans(ms[1..], called)
  }

  function Injected(refs: seq<CallRef>): (rs: seq<Message>)
    ensures Answers(rs, refs)
  {
    seq(|refs|, i requires 0 <= i < |refs| => InnerLoop.ErrorResult(refs[i], InnerLoop.NOT_SAVED))
  }

  /** Pass 2: behind each assistant message, results for its unanswered calls. */
  function Patch(ms: seq<Message>, answered: set<nat>): seq<Message> {
    if ms == [] then []
    else [ms[0]] + Injected(Unanswered(CallsOf(ms[0]), answered)) + Patch(ms[1..], answered)
  }

  /** `convertToLlm`. */
  function ToLlm(h: seq<Stored>): seq<Message> {
    var raw := AsUsers(Msgs(h));
    Prune(Patch(DropOrphans(raw, IdsOf(Calls(raw))), IdsOf(Results(raw))), InnerLoop.KEEP_ROUNDS)
  }

  // ------------------------------------------------------------------ ids

  lemma {:induction false} UnansweredIds(refs: seq<CallRef>, answered: set<nat>)
    ensures IdsOf(Unanswered(refs, answered)) == IdsOf(refs) - answered
  {
    if refs != [] {
      UnansweredIds(refs[1..], answered);
      IdsOfConcat(if refs[0].id in answered then [] else [refs[0]], Unanswered(refs[1..], answered));
      IdsOfConcat([refs[0]], refs[1..]);
      assert refs == [refs[0]] + refs[1..];
    }
  }

  lemma {:induction false} OrphansDropped(ms: seq<Message>, called: set<nat>)
    ensures Calls(DropOrphans(ms, called)) == Calls(ms)
    ensures IdsOf(Results(DropOrphans(ms, called))) == IdsOf(Results(ms)) * called
  {
    if ms != [] {
      var rest := DropOrphans(ms[1..], called);
      OrphansDropped(ms[1..], called);
      ResultIdsOf(ms[0]);
      IdsOfConcat(ResultOf(ms[0]), Results(ms[1..]));
      IdsOfConcat(ResultOf(ms[0]), Results(rest));
      assert ([ms[0]] + rest)[1..] == rest;
      assert !Kept(ms[0], called) ==> [] + rest == rest && [] + Calls(ms[1..]) == Calls(ms[1..]);
    }
  }

  lemma PatchStep(m: Message, refs: seq<CallRef>, rest: seq<Message>)
    requires refs == [] || m.Assistant?
    ensures Calls([m] + Injected(refs) + rest) == CallsOf(m) + Calls(rest)
    ensures Results([m] + Injected(refs) + rest) == ResultOf(m) + (refs + Results(rest))
  {
    AnswersThenRest(Injected(refs), refs, rest);
    Seqs.Regroup([m], Injected(refs), rest);
    Seqs.TailOfConcat([m], Injected(refs) + rest);
    Seqs.NothingBefore(Injected(refs) + rest);
  }

  lemma {:induction false} PatchAnswersAll(ms: seq<Message>, answered: set<nat>)
    ensures Calls(Patch(ms, answered)) == Calls(ms)
    ensures IdsOf(Results(Patch(ms, answered))) == IdsOf(Results(ms)) + (IdsOf(Calls(ms)) - answered)
  {
    if ms != [] {
      var refs, rest := Unanswered(CallsOf(ms[0]), answered), Patch(ms[1..], answered);
      PatchAnswersAll(ms[1..], answered);
      PatchStep(ms[0], refs, rest);
      PatchStepIds(ms[0], refs, Results(rest), Results(ms[1..]), Calls(ms[1..]), answered);
    }
  }

  lemma PatchStepIds(m: Message, refs: seq<CallRef>, patched: seq<CallRef>,
                     results: seq<CallRef>, calls: seq<CallRef>, answered: set<nat>)
    requires refs == Unanswered(CallsOf(m), answered)
    requires IdsOf(patched) == IdsOf(results) + (IdsOf(calls) - answered)
    ensures IdsOf(ResultOf(m) + (refs + patched)) ==
              IdsOf(ResultOf(m) + results) + (IdsOf(CallsOf(m) + calls) - answered)
  {
    UnansweredIds(CallsOf(m), answered);
    IdsOfConcat(ResultOf(m), refs + patched);
    IdsOfConcat(refs, patched);
    IdsOfConcat(ResultOf(m), results);
    IdsOfConcat(CallsOf(m), calls);
  }

  lemma {:induction false} ShapeDecidesRefs(a: seq<Message>, b: seq<Message>)
    requires InnerLoop.SameShape(a, b)
    ensures Calls(a) == Calls(b) && Results(a) == Results(b)
  {
    if a != [] {
      assert SameRole(a[0], b[0]);
      ShapeDecidesRefs(a[1..], b[1..]);
    }
  }

  /**
   * Whatever the stored history is (results lost, results orphaned, any order), in
   * what the model is given every tool call has a result and every result a call.
   */
  lemma ConvertedIsConsistent(h: seq<Stored>)
    ensures IdsOf(Results(ToLlm(h))) == IdsOf(Calls(ToLlm(h)))
    ensures Calls(ToLlm(h)) == Calls(AsUsers(Msgs(h)))
  {
    var raw := AsUsers(Msgs(h));
    var called, answered := IdsOf(Calls(raw)), IdsOf(Results(raw));
    var patched := Patch(DropOrphans(raw, called), answered);
    OrphansDropped(raw, called);
    PatchAnswersAll(DropOrphans(raw, called), answered);
    InnerLoop.PruningKeepsShape(patched, InnerLoop.KEEP_ROUNDS);
    ShapeDecidesRefs(ToLlm(h), patched);
    assert answered * called + (called - answered) == called;
  }

  // ------------------------------------------------------------------ what the model reads

  /** All but the tool results. */
  function Spoken(ms: seq<Message>): seq<Message> {
    if ms == [] then [] else (if ms[0].ToolResult? then [] else [ms[0]]) + Spoken(ms[1..])
  }

  lemma {:induction false} SpokenConcat(a: seq<Message>, b: seq<Message>)
    ensures Spoken(a + b) == Spoken(a) + Spoken(b)
    decreases |a|
  {
    if a == [] {
      Seqs.NothingBefore(b);
      Seqs.NothingBefore(Spoken(b));
    } else {
      SpokenConcat(a[1..], b);
      Seqs.TailOfConcat(a, b);
      Seqs.Regroup(if a[0].ToolResult? then [] else [a[0]], Spoken(a[1..]), Spoken(b));
    }
  }

  lemma {:induction false} OnlyResultsDropped(ms: seq<Message>, called: set<nat>)
    ensures Spoken(DropOrphans(ms, called)) == Spoken(ms)
  {
    if ms != [] {
      OnlyResultsDropped(ms[1..], called);
      SpokenConcat(if Kept(ms[0], called) then [ms[0]] else [], DropOrphans(ms[1..], called));
    }
  }

  lemma SpokenStep(m: Message, rs: seq<Message>, refs: seq<CallRef>, rest: seq<Message>)
    requires Answers(rs, refs)
    ensures Spoken([m] + rs + rest) == (if m.ToolResult? then [] else [m]) + Spoken(rest)
  {
    SpokenConcat([m] + rs, rest);
    SpokenConcat([m], rs);
    NothingSpoken(rs, refs);
    assert [m][1..] == [];
  }

  lemma {:induction false} OnlyResultsAdded(ms: seq<Message>, answered: set<nat>)
    ensures Spoken(Patch(ms, answered)) == Spoken(ms)
  {
    if ms != [] {
      var refs := Unanswered(CallsOf(ms[0]), answered);
      OnlyResultsAdded(ms[1..], answered);
      SpokenStep(ms[0], Injected(refs), refs, Patch(ms[1..], answered));
    }
  }

  lemma {:induction false} NothingSpoken(rs: seq<Message>, refs: seq<CallRef>)
    requires Answers(rs, refs)
    ensures Spoken(rs) == []
    decreases |rs|
  {
    if rs != [] {
      NothingSpoken(rs[1..], refs[1..]);
    }
  }

  /** How a stored message is shown: a summary as the user's, an assistant's perhaps without its thinking. */
  predicate ShownAs(stored: Message, shown: Message) {
    match stored
    case Summary(text) => shown == User("[Session history summary]\n" + text)
    case Assistant(content, _, _) => shown == stored || shown == stored.(content := NoThinking(content))
    case _ => shown == stored
  }

  ghost predicate AllShown(stored: seq<Message>, shown: seq<Message>) {
    |shown| == |stored| && forall i :: 0 <= i < |stored| ==> ShownAs(stored[i], shown[i])
  }

  lemma ShownCons(a: Message, b: Message, stored: seq<Message>, shown: seq<Message>)
    requires ShownAs(a, b) && AllShown(stored, shown)
    ensures AllShown([a] + stored, [b] + shown)
  {
  }

  predicate ShownOrResult(stored: Message, shown: Message) {
    if stored.ToolResult? then shown.ToolResult? else !shown.ToolResult? && ShownAs(stored, shown)
  }

  /** Of two conversations that agree message by message but for pruning and summaries, so do what is spoken. */
  lemma {:induction false} SpokenIsShown(stored: seq<Message>, shown: seq<Message>)
    requires |stored| == |shown| && forall i :: 0 <= i < |stored| ==> ShownOrResult(stored[i], shown[i])
    ensures AllShown(Spoken(stored), Spoken(shown))
    decreases |stored|
  {
    if stored != [] {
      SpokenIsShown(stored[1..], shown[1..]);
      if !stored[0].ToolResult? {
        ShownCons(stored[0], shown[0], Spoken(stored[1..]), Spoken(shown[1..]));
      }
    }
  }

  lemma {:induction false} SpokenOfUsers(ms: seq<Message>)
    ensures Spoken(AsUsers(ms)) == AsUsers(Spoken(ms))
  {
    if ms != [] {
      SpokenOfUsers(ms[1..]);
      assert AsUsers(ms)[1..] == AsUsers(ms[1..]);
    }
  }

  lemma OneIsShown(ms: seq<Message>, keep: nat, i: nat)
    requires i < |ms| && !ms[i].Summary?
    ensures ShownOrResult(ms[i], Prune(ms, keep)[i])
  {
    PruneAt(ms, keep, i);
  }

  lemma PrunedIsShown(ms: seq<Message>, keep: nat)
    requires forall i :: 0 <= i < |ms| ==> !ms[i].Summary?
    ensures AllShown(Spoken(ms), Spoken(Prune(ms, keep)))
  {
    forall i | 0 <= i < |ms| ensures ShownOrResult(ms[i], Prune(ms, keep)[i]) {
      OneIsShown(ms, keep, i);
    }
    SpokenIsShown(ms, Prune(ms, keep));
  }

  lemma {:induction false} NoSummaryLeft(ms: seq<Message>, called: set<nat>, answered: set<nat>)
    ensures forall m :: m in Patch(DropOrphans(AsUsers(ms), called), answered) ==> !m.Summary?
  {
    if ms != [] {
      NoSummaryLeft(ms[1..], called, answered);
      assert AsUsers(ms)[1..] == AsUsers(ms[1..]);
      var first := if Kept(AsUser(ms[0]), called) then [AsUser(ms[0])] else [];
      var rest := DropOrphans(AsUsers(ms[1..]), called);
      assert DropOrphans(AsUsers(ms), called) == first + rest;
      if first != [] {
        assert (first + rest)[1..] == rest && (first + rest)[0] == first[0];
      } else {
        assert first + rest == rest;
      }
    }
  }

  /**
   * Whatever was stored, the model reads every user message as it is, every summary's
   * text as a user message, and every reply but perhaps its thinking, all in order and
   * nothing else beside tool results.
   */
  lemma TheModelReadsWhatWasSaid(h: seq<Stored>)
    ensures AllShown(Spoken(Msgs(h)), Spoken(ToLlm(h)))
  {
    var raw := AsUsers(Msgs(h));
    var called, answered := IdsOf(Calls(raw)), IdsOf(Results(raw));
    var patched := Patch(DropOrphans(raw, called), answered);
    OnlyResultsDropped(raw, called);
    OnlyResultsAdded(DropOrphans(raw, called), answered);
    SpokenOfUsers(Msgs(h));
    NoSummaryLeft(Msgs(h), called, answered);
    PrunedIsShown(patched, InnerLoop.KEEP_ROUNDS);
    ShownThroughUsers(Spoken(Msgs(h)), Spoken(ToLlm(h)));
  }

  lemma ShownThroughUsers(stored: seq<Message>, shown: seq<Message>)
    requires AllShown(AsUsers(stored), shown)
    ensures AllShown(stored, shown)
  {
    forall i | 0 <= i < |stored| ensures ShownAs(stored[i], shown[i]) {
      assert ShownAs(AsUsers(stored)[i], shown[i]) && AsUsers(stored)[i] == AsUser(stored[i]);
    }
  }

  /** A result the model reads is a stored one of that call, perhaps stubbed, or says that it was not saved. */
  ghost predicate ResultComesFrom(ms: seq<Message>, r: Message)
    requires r.ToolResult?
  {
    || Stubbed(ToolResult(r.id, r.name, [Text(InnerLoop.NOT_SAVED)], true), r)
    || exists m :: m in ms && m.ToolResult? && Stubbed(m, r)
  }

  /** The same result, or if its tool is ephemeral the stub in its place. */
  predicate Stubbed(m: Message, r: Message)
    requires m.ToolResult? && r.ToolResult?
  {
    r == m || (r == m.(result := [Text(PRUNED_STUB)]) && m.name in EPHEMERAL_TOOLS)
  }

  lemma {:induction false} PatchedResults(ms: seq<Message>, called: set<nat>, answered: set<nat>, r: Message)
    requires r in Patch(DropOrphans(ms, called), answered) && r.ToolResult?
    ensures r == ToolResult(r.id, r.name, [Text(InnerLoop.NOT_SAVED)], true) || r in ms
  {
    if ms != [] {
      var rest := DropOrphans(ms[1..], called);
      if Kept(ms[0], called) {
        var kept := [ms[0]] + rest;
        assert kept[1..] == rest && kept[0] == ms[0];
        var injected := Injected(Unanswered(CallsOf(ms[0]), answered));
        if r in injected {
          var i :| 0 <= i < |injected| && injected[i] == r;
        } else if r in Patch(rest, answered) {
          PatchedResults(ms[1..], called, answered, r);
        }
      } else {
        assert [] + rest == rest;
        PatchedResults(ms[1..], called, answered, r);
      }
    }
  }

  lemma TheModelReadsStoredResults(h: seq<Stored>, r: Message)
    requires r in ToLlm(h) && r.ToolResult?
    ensures ResultComesFrom(Msgs(h), r)
  {
    var raw := AsUsers(Msgs(h));
    var called, answered := IdsOf(Calls(raw)), IdsOf(Results(raw));
    var patched := Patch(DropOrphans(raw, called), answered);
    var i :| 0 <= i < |ToLlm(h)| && ToLlm(h)[i] == r;
    assert SameRole(ToLlm(h)[i], patched[i]) && patched[i] in patched;
    PatchedResults(raw, called, answered, patched[i]);
    PrunedIsStubbed(patched, InnerLoop.KEEP_ROUNDS, i);
    if patched[i] in raw {
      UsersResults(Msgs(h), patched[i]);
    }
  }

  lemma PrunedIsStubbed(ms: seq<Message>, keep: nat, i: nat)
    requires i < |ms| && ms[i].ToolResult?
    ensures Stubbed(ms[i], Prune(ms, keep)[i])
  {
    PruneAt(ms, keep, i);
  }

  lemma UsersResults(ms: seq<Message>, m: Message)
    requires m in AsUsers(ms) && m.ToolResult?
    ensures m in ms
  {
    var k :| 0 <= k < |ms| && AsUsers(ms)[k] == m;
    assert AsUsers(ms)[k] == AsUser(ms[k]);
  }

  // ------------------------------------------------------------------ a paired history is given as it is

  lemma {:induction false} AsUsersPaired(ms: seq<Message>)
    ensures Paired(AsUsers(ms)) <==> Paired(ms)
    decreases |ms|
  {
    if ms != [] {
      var k := if ms[0].Assistant? then 1 + |CallsOf(ms[0])| else 1;
      if k <= |ms| {
        AsUsersSlices(ms, k);
        AsUsersAnswers(ms[1..k], CallsOf(ms[0]));
        AsUsersPaired(ms[k..]);
      }
    }
  }

  lemma AsUsersSlices(ms: seq<Message>, k: nat)
    requires 1 <= k <= |ms|
    ensures AsUsers(ms)[0] == AsUser(ms[0]) && CallsOf(AsUser(ms[0])) == CallsOf(ms[0])
    ensures AsUsers(ms)[1..k] == AsUsers(ms[1..k]) && AsUsers(ms)[k..] == AsUsers(ms[k..])
  {
  }

  lemma AsUsersAnswers(ms: seq<Message>, cs: seq<CallRef>)
    ensures Answers(AsUsers(ms), cs) <==> Answers(ms, cs)
  {
    if Answers(AsUsers(ms), cs) {
      forall i | 0 <= i < |cs| ensures ms[i].ToolResult? && ms[i].id == cs[i].id && ms[i].name == cs[i].name {
        assert AsUsers(ms)[i] == AsUser(ms[i]);
      }
    }
  }

  lemma {:induction false} AsUsersRefs(ms: seq<Message>)
    ensures Calls(AsUsers(ms)) == Calls(ms) && Results(AsUsers(ms)) == Results(ms)
  {
    if ms != [] {
      AsUsersRefs(ms[1..]);
      assert AsUsers(ms)[1..] == AsUsers(ms[1..]);
    }
  }

  lemma {:induction false} OwnedAsUsers(h: seq<Stored>, called: set<nat>)
    ensures DropOrphans(AsUsers(Msgs(h)), called) == AsUsers(Msgs(Owned(h, called)))
  {
    if h != [] {
      OwnedAsUsers(h[1..], called);
      var rest := Owned(h[1..], called);
      assert AsUsers(Msgs(h))[1..] == AsUsers(Msgs(h[1..]));
      assert AsUsers(Msgs([h[0]] + rest)) == [AsUser(h[0].message)] + AsUsers(Msgs(rest));
    }
  }

  lemma {:induction false} NothingDropped(ms: seq<Message>, called: set<nat>)
    requires IdsOf(Results(ms)) <= called
    ensures DropOrphans(ms, called) == ms
  {
    if ms != [] {
      IdsOfConcat(ResultOf(ms[0]), Results(ms[1..]));
      ResultIdsOf(ms[0]);
      NothingDropped(ms[1..], called);
    }
  }

  lemma {:induction false} NothingInjected(ms: seq<Message>, answered: set<nat>)
    requires IdsOf(Calls(ms)) <= answered
    ensures Patch(ms, answered) == ms
  {
    if ms != [] {
      IdsOfConcat(CallsOf(ms[0]), Calls(ms[1..]));
      forall r | r in CallsOf(ms[0]) ensures r.id in answered {
        assert r.id in IdsOf(CallsOf(ms[0]));
      }
      AllAnswered(CallsOf(ms[0]), answered);
      NothingInjected(ms[1..], answered);
      assert ms == [ms[0]] + [] + ms[1..];
    }
  }

  /** A paired history is only pruned, and what the model is given is strictly paired too. */
  lemma PairedIsConvertedAsIs(h: seq<Stored>)
    requires Paired(Msgs(h))
    ensures ToLlm(h) == Prune(AsUsers(Msgs(h)), 2)
    ensures Paired(ToLlm(h))
  {
    var raw := AsUsers(Msgs(h));
    AsUsersPaired(Msgs(h));
    PrefixIsCut(raw, |raw|);
    assert raw[..|raw|] == raw;
    PairedMissesNothing(raw);
    CallsAreResultsThenMissing(raw);
    NothingDropped(raw, IdsOf(Calls(raw)));
    NothingInjected(raw, IdsOf(Results(raw)));
    InnerLoop.PruningKeepsShape(raw, InnerLoop.KEEP_ROUNDS);
    InnerLoop.ShapeDecidesPairing(ToLlm(h), raw);
  }

  /** After a repair, what the model is given is what is live without its orphans, pruned. */
  lemma RepairedIsConverted(h: seq<Stored>)
    ensures ToLlm(Repaired(h)) ==
              Prune(AsUsers(Msgs(Owned(Repaired(h), CallIds(h)))), 2)
  {
    var after, called := Repaired(h), CallIds(h);
    var raw := AsUsers(Msgs(after));
    RepairAnswersAll(h);
    AsUsersRefs(Msgs(after));
    OwnedAsUsers(after, called);
    OrphansDropped(raw, called);
    NothingInjected(DropOrphans(raw, called), ResultIdsIn(after));
  }

  /**
   * Whatever is live at a wakeup, the main run resumes from a strictly paired history
   * if and only if every turn lacks results at its end at most, those without a call
   * left aside.
   */
  lemma AWakeupIsPairedExactly(h: seq<Stored>)
    requires Orderly(h)
    ensures Paired(ToLlm(Repaired(h))) <==> TurnsCut(h)
  {
    var shown := AsUsers(Msgs(Owned(Repaired(h), CallIds(h))));
    RepairedIsConverted(h);
    RepairPairsExactly(h);
    AsUsersPaired(Msgs(Owned(Repaired(h), CallIds(h))));
    InnerLoop.PruningKeepsShape(shown, InnerLoop.KEEP_ROUNDS);
    InnerLoop.ShapeDecidesPairing(ToLlm(Repaired(h)), shown);
  }

  // ------------------------------------------------------------------ patching alone

  lemma PatchPasses(m: Message, rest: seq<Message>, answered: set<nat>)
    requires Unanswered(CallsOf(m), answered) == []
    ensures Patch([m] + rest, answered) == [m] + Patch(rest, answered)
  {
    assert ([m] + rest)[1..] == rest;
    assert Injected([]) == [] && [m] + [] == [m];
  }

  lemma {:induction false} PatchPassesResults(rs: seq<Message>, cs: seq<CallRef>,
                                              rest: seq<Message>, answered: set<nat>)
    requires Answers(rs, cs)
    ensures Patch(rs + rest, answered) == rs + Patch(rest, answered)
    decreases |rs|
  {
    if rs == [] {
      Seqs.NothingBefore(rest);
      Seqs.NothingBefore(Patch(rest, answered));
    } else {
      PatchPassesResults(rs[1..], cs[1..], rest, answered);
      assert rs == [rs[0]] + rs[1..];
      Seqs.Regroup([rs[0]], rs[1..], rest);
      PatchPasses(rs[0], rs[1..] + rest, answered);
      Seqs.Regroup([rs[0]], rs[1..], Patch(rest, answered));
    }
  }

  /** A round with its results passes as it is. */
  lemma PatchPassesRound(m: Message, rs: seq<Message>, rest: seq<Message>, answered: set<nat>)
    requires m.Assistant? && Answers(rs, CallsOf(m)) && IdsOf(CallsOf(m)) <= answered
    ensures Paired(Patch([m] + rs + rest, answered)) <==> Paired(Patch(rest, answered))
  {
    forall r | r in CallsOf(m) ensures r.id in answered {
      assert r.id in IdsOf(CallsOf(m));
    }
    AllAnswered(CallsOf(m), answered);
    Seqs.Regroup([m], rs, rest);
    PatchPasses(m, rs + rest, answered);
    PatchPassesResults(rs, CallsOf(m), rest, answered);
    Seqs.Regroup([m], rs, Patch(rest, answered));
    OneRoundIsPaired(m, rs);
    PairedThen([m] + rs, Patch(rest, answered));
  }

  lemma OneRoundIsPaired(m: Message, rs: seq<Message>)
    requires m.Assistant? && Answers(rs, CallsOf(m))
    ensures Paired([m] + rs)
  {
    var ms := [m] + rs;
    assert ms[1..1 + |rs|] == rs && ms[1 + |rs|..] == [];
  }

  /** Behind the calls of a round that was cut, the placeholders come before the results that are there. */
  lemma PatchOfCutRound(ms: seq<Message>, cs: seq<CallRef>, answered: set<nat>)
    requires ms != [] && ms[0].Assistant? && cs == CallsOf(ms[0]) && |cs| >= |ms|
    requires Answers(ms[1..], cs[..|ms| - 1])
    requires IdsOf(cs[..|ms| - 1]) <= answered && forall r :: r in cs[|ms| - 1..] ==> r.id !in answered
    ensures Patch(ms, answered) == [ms[0]] + Injected(cs[|ms| - 1..]) + ms[1..]
  {
    var j := |ms| - 1;
    forall r | r in cs[..j] ensures r.id in answered {
      assert r.id in IdsOf(cs[..j]);
    }
    UnansweredSplits(cs[..j], cs[j..], answered);
    AllAnswered(cs[..j], answered);
    NoneAnswered(cs[j..], answered);
    Seqs.TakeThenDrop(cs, j);
    Seqs.NothingBefore(cs[j..]);
    PatchPassesResults(ms[1..], cs[..j], [], answered);
    assert ms[1..] + [] == ms[1..];
  }

  lemma NotPairedFrom(p: seq<Message>, cs: seq<CallRef>)
    requires |p| > 1 && p[0].Assistant? && CallsOf(p[0]) == cs && cs != []
    requires p[1].ToolResult? ==> p[1].id != cs[0].id
    ensures !Paired(p)
  {
    if 1 + |cs| <= |p| {
      assert p[1..1 + |cs|][0] == p[1];
    }
  }

  lemma CutRoundPairedExactly(ms: seq<Message>, cs: seq<CallRef>, answered: set<nat>)
    requires ms != [] && ms[0].Assistant? && cs == CallsOf(ms[0]) && |cs| >= |ms|
    requires Answers(ms[1..], cs[..|ms| - 1])
    requires IdsOf(cs[..|ms| - 1]) <= answered && forall r :: r in cs[|ms| - 1..] ==> r.id !in answered
    ensures Paired(Patch(ms, answered)) <==> |ms| == 1
  {
    var j := |ms| - 1;
    var p := Patch(ms, answered);
    PatchOfCutRound(ms, cs, answered);
    assert p[1] == Injected(cs[j..])[0] && p[1].id == cs[j].id && cs[j] in cs[j..];
    if j == 0 {
      assert p[1..1 + |cs|] == Injected(cs) && p[1 + |cs|..] == [];
    } else {
      assert cs[..j][0].id in IdsOf(cs[..j]) && p[1].id != cs[0].id;
      NotPairedFrom(p, cs);
    }
  }

  /** Nothing is missing, or the interruption came before the last round's first result. */
  ghost predicate NoneOfTheLastRound(ms: seq<Message>)
    requires Cut(ms)
  {
    Missing(ms) == [] || ms[|ms| - 1].Assistant?
  }

  lemma FullRoundIds(ms: seq<Message>, k: nat)
    requires ms != [] && ms[0].Assistant? && k == |CallsOf(ms[0])| && 1 + k <= |ms|
    requires Answers(ms[1..1 + k], CallsOf(ms[0]))
    ensures IdsOf(Results(ms)) == IdsOf(CallsOf(ms[0])) + IdsOf(Results(ms[1 + k..]))
  {
    FirstRound(ms, k);
    IdsOfConcat(CallsOf(ms[0]), Results(ms[1 + k..]));
  }

  lemma SplitRound(ms: seq<Message>, k: nat)
    requires 1 + k <= |ms|
    ensures ms == [ms[0]] + ms[1..1 + k] + ms[1 + k..]
  {
  }

  lemma FullRoundEnds(ms: seq<Message>, k: nat)
    requires Cut(ms) && ms != [] && ms[0].Assistant? && k == |CallsOf(ms[0])| && 1 + k <= |ms|
    ensures Cut(ms[1 + k..]) && Missing(ms) == Missing(ms[1 + k..])
    ensures NoneOfTheLastRound(ms) <==> NoneOfTheLastRound(ms[1 + k..])
  {
    var rest := ms[1 + k..];
    assert Missing(ms) == Missing(rest);
    if rest != [] {
      assert rest[|rest| - 1] == ms[|ms| - 1];
    } else {
      assert Missing(rest) == [];
    }
  }

  lemma FullRoundSteps(ms: seq<Message>, k: nat, answered: set<nat>)
    requires ms != [] && ms[0].Assistant? && k == |CallsOf(ms[0])| && 1 + k <= |ms|
    requires Answers(ms[1..1 + k], CallsOf(ms[0])) && IdsOf(Results(ms)) <= answered
    ensures IdsOf(Results(ms[1 + k..])) <= answered
    ensures Paired(Patch(ms, answered)) <==> Paired(Patch(ms[1 + k..], answered))
  {
    var m, rs, rest := ms[0], ms[1..1 + k], ms[1 + k..];
    FullRoundIds(ms, k);
    PatchPassesRound(m, rs, rest, answered);
    SplitRound(ms, k);
  }

  lemma OtherHeadSteps(ms: seq<Message>, answered: set<nat>)
    requires Cut(ms) && ms != [] && !ms[0].Assistant? && IdsOf(Results(ms)) <= answered
    ensures IdsOf(Results(ms[1..])) <= answered && Missing(ms) == Missing(ms[1..])
    ensures NoneOfTheLastRound(ms) <==> NoneOfTheLastRound(ms[1..])
    ensures Paired(Patch(ms, answered)) <==> Paired(Patch(ms[1..], answered))
  {
    Seqs.NothingBefore(Results(ms[1..]));
    assert ms == [ms[0]] + ms[1..];
    PatchPasses(ms[0], ms[1..], answered);
    assert ([ms[0]] + Patch(ms[1..], answered))[1..] == Patch(ms[1..], answered);
  }

  lemma CutRoundSteps(ms: seq<Message>, cs: seq<CallRef>, answered: set<nat>)
    requires Cut(ms) && ms != [] && ms[0].Assistant? && cs == CallsOf(ms[0]) && |cs| >= |ms|
    requires IdsOf(Results(ms)) <= answered && forall r :: r in Missing(ms) ==> r.id !in answered
    ensures Paired(Patch(ms, answered)) <==> NoneOfTheLastRound(ms)
  {
    CutRoundRefs(ms, cs);
    CutRoundPairedExactly(ms, cs, answered);
    if |ms| > 1 {
      assert ms[1..][|ms| - 2] == ms[|ms| - 1];
    }
  }

  lemma {:induction false} PatchedCutExactly(ms: seq<Message>, answered: set<nat>)
    requires Cut(ms) && IdsOf(Results(ms)) <= answered && forall r :: r in Missing(ms) ==> r.id !in answered
    ensures Paired(Patch(ms, answered)) <==> NoneOfTheLastRound(ms)
    decreases |ms|
  {
    if ms == [] {
    } else if !ms[0].Assistant? {
      OtherHeadSteps(ms, answered);
      PatchedCutExactly(ms[1..], answered);
    } else {
      var k := |CallsOf(ms[0])|;
      if 1 + k <= |ms| {
        FullRoundEnds(ms, k);
        FullRoundSteps(ms, k, answered);
        PatchedCutExactly(ms[1 + k..], answered);
      } else {
        CutRoundSteps(ms, CallsOf(ms[0]), answered);
      }
    }
  }

  /**
   * Patching on read alone keeps the results in call order if and only if the
   * interruption left no result missing, or none of the last round's stored: with
   * some of them stored the placeholders for the others go before them.
   */
  lemma PatchingKeepsOrderExactly(ms: seq<Message>)
    requires Cut(ms) && Distinct(Calls(ms))
    ensures Paired(Patch(ms, IdsOf(Results(ms)))) <==> Missing(ms) == [] || ms[|ms| - 1].Assistant?
  {
    CallsAreResultsThenMissing(ms);
    forall r | r in Missing(ms) ensures r.id !in IdsOf(Results(ms)) {
      DistinctSides(Results(ms), Missing(ms), r);
    }
    PatchedCutExactly(ms, IdsOf(Results(ms)));
  }

  /** One of two results stored: the placeholder for the other goes first. */
  lemma PatchingAloneReorders(a: nat, b: nat, tool: string)
    requires a != b
    ensures var ms := [Assistant([Call(a, tool), Call(b, tool)], ToolUse, 0), ToolResult(a, tool, [], false)];
            Cut(ms) && Distinct(Calls(ms)) && !Paired(Patch(ms, IdsOf(Results(ms))))
  {
    var m, result := Assistant([Call(a, tool), Call(b, tool)], ToolUse, 0), ToolResult(a, tool, [], false);
    var ms, cs := [m, result], [CallRef(a, tool), CallRef(b, tool)];
    assert m.content[1..] == [Call(b, tool)] && m.content[1..][1..] == [];
    assert CallsIn(m.content[1..]) == [cs[1]];
    assert CallsOf(m) == cs;
    assert ms[1..] == [result] && cs[..1] == [cs[0]];
    CutRoundRefs(ms, cs);
    PatchingKeepsOrderExactly(ms);
  }

  // ------------------------------------------------------------------ the loops

  /** The set of the stored results' ids. */
  method ResultIds(history: seq<Stored>) returns (ids: set<nat>)
    ensures ids == IdsOf(Results(Msgs(history)))
  {
    ids := {};
    for i := 0 to |history|
      invariant ids == IdsOf(Results(Msgs(history[..i])))
    {
      var m := history[i].message;
      MsgsOfConcat(history[..i], [history[i]]);
      assert history[..i + 1] == history[..i] + [history[i]] && Msgs([history[i]]) == [m];
      SplitResults(Msgs(history[..i]), [m]);
      IdsOfConcat(Results(Msgs(history[..i])), ResultOf(m));
      ResultIdsOf(m);
      if m.ToolResult? {
        ids := ids + {m.id};
      }
    }
    assert history[..|history|] == history;
  }

  /** `findDanglingToolCalls`. */
  method FindDanglingToolCalls(history: seq<Stored>) returns (out: seq<DanglingCall>)
    ensures out == Dangling(history)
  {
    var resultIds := ResultIds(history);
    out := [];
    for i := 0 to |history|
      invariant out == DanglingIn(history[..i], resultIds)
    {
      DanglingSplits(history[..i], [history[i]], resultIds);
      assert history[..i + 1] == history[..i] + [history[i]];
      if history[i].message.Assistant? {
        var more := DanglingInContent(history[i].turn, history[i].message.content, resultIds);
        out := out + more;
      }
    }
    assert history[..|history|] == history;
  }

  method DanglingInContent(turn: nat, content: seq<Block>, resultIds: set<nat>) returns (out: seq<DanglingCall>)
    ensures out == AtTurn(turn, Unanswered(CallsIn(content), resultIds))
  {
    out := [];
    for k := 0 to |content|
      invariant out == AtTurn(turn, Unanswered(CallsIn(content[..k]), resultIds))
    {
      var here := CallsIn([content[k]]);
      CallsInSplits(content[..k], [content[k]]);
      UnansweredSplits(CallsIn(content[..k]), here, resultIds);
      assert content[..k + 1] == content[..k] + [content[k]];
      if content[k].Call? && content[k].id !in resultIds {
        out := out + [DanglingCall(turn, CallRef(content[k].id, content[k].name))];
      }
    }
    assert content[..|content|] == content;
  }
}
