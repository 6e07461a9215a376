/**
 * The dispatcher's own code (orchestrator-dispatch.ts): `dispatchReady`,
 * `dispatchOnePass` and `startRun` as methods on its fields, every await letting
 * the environment do anything, shown to take steps of the protocol in `Dispatch`.
 */
module DispatcherClass {
  import opened Dispatch

  lemma OneStep(c: Config, s: State, actions: seq<Action>, a: Action)
    requires Reachable(c, s, actions) && Enabled(c, s, a)
    ensures Reachable(c, Apply(c, s, a), actions + [a])
  {
    var longer := actions + [a];
    assert longer[..|longer| - 1] == actions && longer[|longer| - 1] == a;
  }

  /** What others do while the dispatcher waits. */
  predicate Foreign(a: Action) {
    a.Request? || a.Post? || a.ToolRead? || a.NoteError? || a.NoteSuccess? || a.RunEnds? || a.Tick?
  }

  lemma ForeignKeepsThePass(c: Config, s: State, a: Action)
    requires s.dispatchInFlight && Foreign(a) && Enabled(c, s, a)
    ensures Apply(c, s, a).passes == s.passes && Apply(c, s, a).dispatchInFlight
  {
  }

  lemma MarkingIsSound(c: Config, s: State, actions: seq<Action>, m: nat)
    requires Reachable(c, s, actions) && |s.passes| == 1 && s.passes[0].Marking?
    requires m in s.passes[0].batch && m !in s.passes[0].marked
    ensures Enabled(c, s, MarkOne(0, m))
  {
    ReachableKeepsInv(c, s, actions);
    assert PassOk(c, s, s.passes[0]);
  }

  /** The environment: what happens at the k-th await, who is paused there, and whether the gates open. */
  datatype World = World(others: nat -> seq<Action>, paused: (nat, Agent) -> bool, opens: nat -> bool)

  /** Nobody else does anything, the gates open, and who is paused stays so. */
  ghost predicate Undisturbed(w: World) {
    && (forall k :: w.others(k) == [] && w.opens(k))
    && forall k, a :: w.paused(k, a) == w.paused(0, a)
  }

  /** The pass goes on to the next agent, has begun anew, or is over. */
  datatype Outcome = Next | Again | Ended

  /** Only the mail and the place of the pass differ. */
  predicate OthersKept(s: State, t: State) {
    t == s.(mail := t.mail, passes := t.passes)
  }

  /** These messages are marked read by the agent, the others are as they were. */
  predicate MarkedIn(before: seq<Mail>, after: seq<Mail>, ms: set<nat>, a: Agent) {
    && |after| == |before|
    && forall m :: 0 <= m < |before| ==>
         after[m] == if m in ms then before[m].(readBy := before[m].readBy + {a}) else before[m]
  }

  lemma OneMoreMarked(before: seq<Mail>, after: seq<Mail>, ms: set<nat>, m: nat, a: Agent)
    requires MarkedIn(before, after, ms, a) && m < |before| && m !in ms
    ensures MarkedIn(before, after[m := after[m].(readBy := after[m].readBy + {a})], ms + {m}, a)
  {
  }

  /** The batch was all the agent's unread mail, so all of its mail is read now. */
  lemma BatchMarked(before: seq<Mail>, after: seq<Mail>, batch: set<nat>, a: Agent)
    requires MarkedIn(before, after, batch, a) && batch == UnreadOf(before, a)
    ensures MarkedFor(before, after, a)
  {
    forall m | 0 <= m < |before|
      ensures after[m].readBy == before[m].readBy + if a in before[m].to then {a} else {}
    {
      assert m in batch <==> Unread(before, m, a);
    }
  }

  /** What a pass nobody interferes with does at an agent. */
  ghost predicate AgentServed(c: Config, s: State, t: State, a: Agent, paused: bool, outcome: Outcome) {
    t.now == s.now &&
    if !Free(s, a) || paused then
      outcome == Next && t.runs == s.runs && t.mail == s.mail && t.until == s.until
    else if |s.runs| >= c.maxRuns then
      outcome != Next && t.runs == s.runs && t.mail == s.mail
    else if !Waits(s, a) then
      outcome == Next && t.runs == s.runs && t.mail == s.mail && t.until == s.until - {a}
    else
      HandedOver(c, s.(until := s.until - {a}), t, a, outcome)
  }

  ghost predicate HandedOver(c: Config, s: State, t: State, a: Agent, outcome: Outcome) {
    && t.until == s.until && t.now == s.now
    && if a in c.identities then
         && outcome == Next && MarkedFor(s.mail, t.mail, a)
         && |t.runs| == |s.runs| + 1 && t.runs[..|s.runs|] == s.runs && HandsOver(s, t.runs[|s.runs|], a)
       else outcome == Ended && t.runs == s.runs
  }

  lemma UnreadIsWaiting(s: State, a: Agent)
    ensures UnreadOf(s.mail, a) != {} <==> Waits(s, a)
  {
    if Waits(s, a) {
      var m :| 0 <= m < |s.mail| && a in s.mail[m].to && a !in s.mail[m].readBy;
      assert m in UnreadOf(s.mail, a);
    }
    if m :| m in UnreadOf(s.mail, a) {
      assert Unread(s.mail, m, a);
    }
  }

  lemma UnreadIsHandedOver(s: State, batch: set<nat>, a: Agent)
    requires batch == UnreadOf(s.mail, a)
    ensures HandsOver(s, Run(a, batch, true), a)
  {
    forall m ensures m in batch <==> 0 <= m < |s.mail| && a in s.mail[m].to && a !in s.mail[m].readBy {
      assert m in UnreadOf(s.mail, a) <==> 0 <= m < |s.mail| && Unread(s.mail, m, a);
    }
  }

  lemma SameMailHandedOver(c: Config, r: State, s: State, t: State, a: Agent, outcome: Outcome)
    requires r.mail == s.mail && r.runs == s.runs && r.until == s.until && r.now == s.now
    requires HandedOver(c, r, t, a, outcome)
    ensures HandedOver(c, s, t, a, outcome)
  {
  }

  lemma FreeMeans(s: State, a: Agent)
    ensures Active(s.runs, a) || Cooling(s, a) <==> !Free(s, a)
  {
  }

  /** At these agents it served whom it should: each that is due got its run, and there is no other new run. */
  ghost predicate Served(s: State, t: State, agents: seq<Agent>, w: World) {
    && |s.runs| <= |t.runs| && t.runs[..|s.runs|] == s.runs
    && (forall a :: a in agents && Due(s, a, w) ==> GotRun(s, t, a))
    && (forall r :: |s.runs| <= r < |t.runs| ==>
          var a := t.runs[r].agent; a in agents && Due(s, a, w) && HandsOver(s, t.runs[r], a))
  }

  /** Free, not paused, and with mail unread. */
  ghost predicate Due(s: State, a: Agent, w: World) {
    Free(s, a) && !w.paused(0, a) && Waits(s, a)
  }

  /** One of the new runs is the agent's, with exactly the mail that was unread. */
  ghost predicate GotRun(s: State, t: State, a: Agent) {
    exists r :: |s.runs| <= r < |t.runs| && HandsOver(s, t.runs[r], a)
  }

  /** It came to the first n agents: to all, unless the runs ran out or the next one due has no identity. */
  ghost predicate PassServed(c: Config, s: State, t: State, n: nat, w: World) {
    && n <= |c.agents| && Served(s, t, c.agents[..n], w)
    && (n < |c.agents| ==>
          || |t.runs| >= c.maxRuns
          || (c.agents[n] !in c.identities && Due(s, c.agents[n], w)))
  }

  /** Whoever has got no run since is as free as before, and has the same mail unread; whoever has is busy. */
  ghost predicate Carried(s: State, t: State) {
    && t.now == s.now && |s.runs| <= |t.runs| && t.runs[..|s.runs|] == s.runs
    && |t.mail| == |s.mail| && (forall m :: 0 <= m < |s.mail| ==> t.mail[m].to == s.mail[m].to)
    && (forall r :: |s.runs| <= r < |t.runs| ==> t.runs[r].active)
    && forall a :: (forall r :: |s.runs| <= r < |t.runs| ==> t.runs[r].agent != a) ==> SameFor(s, t, a)
  }

  /** So far, at these agents. */
  ghost predicate ServedTo(s: State, t: State, agents: seq<Agent>, w: World) {
    Carried(s, t) && Served(s, t, agents, w)
  }

  ghost predicate SameFor(s: State, t: State, a: Agent) {
    && (Free(t, a) <==> Free(s, a)) && |t.mail| == |s.mail|
    && forall m :: 0 <= m < |s.mail| ==>
         t.mail[m].to == s.mail[m].to && (a in t.mail[m].readBy <==> a in s.mail[m].readBy)
  }

  lemma SameMeans(s: State, t: State, a: Agent, run: Run)
    requires SameFor(s, t, a)
    ensures (Waits(t, a) <==> Waits(s, a)) && (HandsOver(t, run, a) <==> HandsOver(s, run, a))
  {
  }

  /** An agent that was free when the pass came to it has had no run from this pass. */
  lemma FreeIsTheSame(s: State, t: State, a: Agent)
    requires Carried(s, t) && Free(t, a)
    ensures SameFor(s, t, a)
  {
  }

  lemma MarkedKeepsOthers(s: State, t: State, a: Agent, b: Agent)
    requires MarkedFor(s.mail, t.mail, a) && b != a && t.now == s.now && t.until == s.until - {a}
    requires |t.runs| == |s.runs| + 1 && t.runs[..|s.runs|] == s.runs && t.runs[|s.runs|].agent == a
    ensures SameFor(s, t, b)
  {
    assert forall r :: 0 <= r < |s.runs| ==> t.runs[r] == s.runs[r];
  }

  lemma SameForOn(s: State, t: State, u: State, a: Agent)
    requires SameFor(s, t, a) && SameFor(t, u, a)
    ensures SameFor(s, u, a)
  {
  }

  /** The pass went on without a run for this agent. */
  lemma NothingStarted(s: State, t: State, u: State, a: Agent)
    requires Carried(s, t) && u.now == t.now && u.runs == t.runs && u.mail == t.mail
    requires u.until == t.until || (Free(t, a) && u.until == t.until - {a})
    ensures Carried(s, u)
  {
    forall b | forall r :: |s.runs| <= r < |u.runs| ==> u.runs[r].agent != b ensures SameFor(s, u, b) {
      assert SameFor(s, t, b);
    }
  }

  lemma SomethingStarted(s: State, t: State, u: State, a: Agent)
    requires Carried(s, t) && Free(t, a) && u.now == t.now && MarkedFor(t.mail, u.mail, a) && u.until == t.until - {a}
    requires |u.runs| == |t.runs| + 1 && u.runs[..|t.runs|] == t.runs && HandsOver(t, u.runs[|t.runs|], a)
    ensures Carried(s, u)
  {
    forall r | 0 <= r < |t.runs| ensures u.runs[r] == t.runs[r] {
    }
    forall b | forall r :: |s.runs| <= r < |u.runs| ==> u.runs[r].agent != b ensures SameFor(s, u, b) {
      assert u.runs[|t.runs|].agent != b;
      assert SameFor(s, t, b);
      MarkedKeepsOthers(t, u, a, b);
      SameForOn(s, t, u, b);
    }
  }

  lemma OneMoreServed(c: Config, s: State, t: State, u: State, agents: seq<Agent>, a: Agent, w: World)
    requires Carried(s, t) && Served(s, t, agents, w) && AgentServed(c, t, u, a, w.paused(0, a), Next)
    ensures Carried(s, u) && Served(s, u, agents + [a], w)
  {
    if Due(t, a, w) {
      FreeIsTheSame(s, t, a);
      SameMeans(s, t, a, u.runs[|t.runs|]);
      SomethingStarted(s, t, u, a);
      ServedMore(s, t, u, agents, a, w);
    } else {
      NothingStarted(s, t, u, a);
      ServedNoMore(s, t, u, agents, a, w);
    }
  }

  lemma GotRunStays(s: State, t: State, u: State, a: Agent)
    requires GotRun(s, t, a) && |t.runs| <= |u.runs| && forall r :: 0 <= r < |t.runs| ==> u.runs[r] == t.runs[r]
    ensures GotRun(s, u, a)
  {
    var r :| |s.runs| <= r < |t.runs| && HandsOver(s, t.runs[r], a);
    assert HandsOver(s, u.runs[r], a);
  }

  lemma ServedMore(s: State, t: State, u: State, agents: seq<Agent>, a: Agent, w: World)
    requires Served(s, t, agents, w) && Due(s, a, w)
    requires |u.runs| == |t.runs| + 1 && u.runs[..|t.runs|] == t.runs && HandsOver(s, u.runs[|t.runs|], a)
    ensures Served(s, u, agents + [a], w)
  {
    assert forall r :: 0 <= r < |t.runs| ==> u.runs[r] == t.runs[r];
    forall b | b in agents + [a] && Due(s, b, w) ensures GotRun(s, u, b) {
      if b != a {
        GotRunStays(s, t, u, b);
      }
    }
  }

  lemma ServedNoMore(s: State, t: State, u: State, agents: seq<Agent>, a: Agent, w: World)
    requires Carried(s, t) && Served(s, t, agents, w) && u.runs == t.runs && !Due(t, a, w)
    ensures Served(s, u, agents + [a], w)
  {
    forall b | b in agents + [a] && Due(s, b, w) ensures GotRun(s, u, b) {
      if b in agents {
        GotRunStays(s, t, u, b);
      } else {
        NotDueGotRun(s, t, agents, a, w);
        GotRunStays(s, t, u, a);
      }
    }
  }

  /** Who was due and is no longer has got its run. */
  lemma NotDueGotRun(s: State, t: State, agents: seq<Agent>, a: Agent, w: World)
    requires Carried(s, t) && Served(s, t, agents, w) && Due(s, a, w) && !Due(t, a, w)
    ensures GotRun(s, t, a)
  {
    if SameFor(s, t, a) {
      SameMeans(s, t, a, Run(a, {}, true));
    }
    var r :| |s.runs| <= r < |t.runs| && t.runs[r].agent == a;
    assert HandsOver(s, t.runs[r], a);
  }

  lemma ServedBySameRuns(s: State, t: State, u: State, agents: seq<Agent>, w: World)
    requires Served(s, t, agents, w) && u.runs == t.runs
    ensures Served(s, u, agents, w)
  {
    forall a | a in agents && Due(s, a, w) ensures GotRun(s, u, a) {
      GotRunStays(s, t, u, a);
    }
  }

  lemma NobodyServed(s: State, t: State, w: World)
    requires OthersKept(s, t) && t.mail == s.mail
    ensures ServedTo(s, t, [], w)
  {
  }

  /** The pass ended at its n-th agent. */
  lemma EndedServed(c: Config, s: State, t: State, u: State, n: nat, w: World, outcome: Outcome)
    requires n < |c.agents| && Carried(s, t) && Served(s, t, c.agents[..n], w) && outcome != Next
    requires AgentServed(c, t, u, c.agents[n], w.paused(0, c.agents[n]), outcome)
    ensures PassServed(c, s, u, n, w)
  {
    FreeIsTheSame(s, t, c.agents[n]);
    SameMeans(s, t, c.agents[n], Run(c.agents[n], {}, true));
    ServedBySameRuns(s, t, u, c.agents[..n], w);
  }

  /** The pass came to all agents. */
  lemma AllServed(c: Config, s: State, t: State, u: State, w: World)
    requires Served(s, t, c.agents, w) && u.runs == t.runs
    ensures PassServed(c, s, u, |c.agents|, w)
  {
    assert c.agents[..|c.agents|] == c.agents;
    ServedBySameRuns(s, t, u, c.agents, w);
  }

  class Dispatcher {
    const config: Config
    const world: World
    var mail: seq<Mail>
    var runs: seq<Run>
    var passes: seq<Pass>
    var dispatchInFlight: bool
    var dispatchAgainRequested: bool
    var until: map<Agent, nat>
    /** The clock, and the counts and sets that only record what happened; its other parts are not used. */
    var record: State
    var awaits: nat
    ghost var trace: seq<Action>

    function State(): State
      reads this
    {
      record.(mail := mail, runs := runs, passes := passes, dispatchInFlight := dispatchInFlight,
              dispatchAgainRequested := dispatchAgainRequested, until := until)
    }

    /** The fields are a state some run of the protocol reaches. */
    ghost predicate Valid()
      reads this
    {
      Reachable(config, State(), trace)
    }

    constructor (config: Config, world: World)
      ensures Valid() && State() == INIT && this.config == config
    {
      this.config, this.world := config, world;
      mail, runs, passes, dispatchInFlight, dispatchAgainRequested := [], [], [], false, false;
      until, record, awaits, trace := map[], INIT, 0, [];
    }

    /** The step just taken is one of the protocol's. */
    ghost method Took(before: State, a: Action)
      requires Reachable(config, before, trace)
      requires Enabled(config, before, a) && State() == Apply(config, before, a)
      modifies this`trace
      ensures Valid() && trace == old(trace) + [a]
    {
      OneStep(config, before, trace, a);
      trace := trace + [a];
    }

    method Foreigner(a: Action)
      requires Valid() && Foreign(a) && Enabled(config, State(), a)
      modifies this
      ensures Valid() && State() == Apply(config, old(State()), a) && awaits == old(awaits)
    {
      ghost var before := State();
      Load(Apply(config, State(), a));
      Took(before, a);
    }

    method Load(t: State)
      modifies this
      ensures State() == t && awaits == old(awaits) && trace == old(trace)
    {
      mail, runs, passes, dispatchInFlight, dispatchAgainRequested :=
        t.mail, t.runs, t.passes, t.dispatchInFlight, t.dispatchAgainRequested;
      until, record := t.until, t;
    }

    /** Others go ahead; the pass stays where it is. */
    method Await()
      requires Valid() && dispatchInFlight
      modifies this
      ensures Valid() && dispatchInFlight && passes == old(passes) && awaits == old(awaits) + 1
      ensures Undisturbed(world) ==> State() == old(State())
    {
      var others := world.others(awaits);
      for k := 0 to |others|
        invariant Valid() && dispatchInFlight && passes == old(passes) && awaits == old(awaits)
        invariant k == 0 ==> State() == old(State())
      {
        if Foreign(others[k]) && Enabled(config, State(), others[k]) {
          ForeignKeepsThePass(config, State(), others[k]);
          Foreigner(others[k]);
        }
      }
      awaits := awaits + 1;
    }

    /** The pass moves on by its own step a, which changes nothing else. */
    method MoveTo(next: Pass, ghost a: Action)
      requires Valid() && |passes| == 1 && Enabled(config, State(), a)
      requires Apply(config, State(), a) == To(State(), 0, next)
      modifies this`passes, this`trace
      ensures Valid() && passes == [next]
    {
      ghost var before := State();
      passes := [next];
      Took(before, a);
    }

    /** `markRead`: one message after another, waiting in between. */
    method MarkRead(i: nat, batch: set<nat>)
      requires Valid() && dispatchInFlight && passes == [Marking(i, batch, {})] && i < |config.agents|
      modifies this
      ensures Valid() && dispatchInFlight && passes == [Marking(i, batch, batch)]
      ensures Undisturbed(world) ==>
                OthersKept(old(State()), State()) && MarkedIn(old(mail), mail, batch, config.agents[i])
    {
      var left := batch;
      assert batch - left == {};
      while left != {}
        invariant Valid() && dispatchInFlight && left <= batch && passes == [Marking(i, batch, batch - left)]
        invariant Undisturbed(world) ==>
                    OthersKept(old(State()), State()) && MarkedIn(old(mail), mail, batch - left, config.agents[i])
        decreases left
      {
        var m: nat :| m in left;
        Await();
        ghost var before := mail;
        MarkMessage(i, m, batch, batch - left);
        if Undisturbed(world) {
          OneMoreMarked(old(mail), before, batch - left, m, config.agents[i]);
        }
        assert batch - left + {m} == batch - (left - {m});
        left := left - {m};
      }
      assert batch - left == batch;
    }

    method MarkMessage(i: nat, m: nat, batch: set<nat>, marked: set<nat>)
      requires Valid() && passes == [Marking(i, batch, marked)] && i < |config.agents| && m in batch && m !in marked
      modifies this`mail, this`passes, this`trace
      ensures Valid() && passes == [Marking(i, batch, marked + {m})] && m < |mail|
      ensures m < |old(mail)|
      ensures mail == old(mail)[m := old(mail)[m].(readBy := old(mail)[m].readBy + {config.agents[i]})]
    {
      MarkingIsSound(config, State(), trace, m);
      ghost var before := State();
      mail := mail[m := mail[m].(readBy := mail[m].readBy + {config.agents[i]})];
      passes := [Marking(i, batch, marked + {m})];
      Took(before, MarkOne(0, m));
    }
  
    method HasUnread(a: Agent) returns (b: bool)
      ensures b == (UnreadOf(mail, a) != {})
    {
      b := false;
      for m := 0 to |mail|
        invariant b <==> exists k :: 0 <= k < m && Unread(mail, k, a)
      {
        assert Unread(mail, m, a) <==> a in mail[m].to && a !in mail[m].readBy;
        if a in mail[m].to && a !in mail[m].readBy {
          b := true;
        }
      }
      if b {
        var k :| 0 <= k < |mail| && Unread(mail, k, a);
        assert k in UnreadOf(mail, a);
      }
    }

    method ListUnread(a: Agent) returns (batch: set<nat>)
      ensures batch == UnreadOf(mail, a)
    {
      batch := {};
      for m := 0 to |mail|
        invariant batch == set k | 0 <= k < m && Unread(mail, k, a)
      {
        if a in mail[m].to && a !in mail[m].readBy {
          batch := batch + {m};
        }
      }
    }

    /** `startRun`: false when it throws, for want of an identity. */
    method StartRun(i: nat, batch: set<nat>) returns (started: bool)
      requires Valid() && dispatchInFlight && passes == [Marking(i, batch, batch)] && i < |config.agents|
      modifies this
      ensures Valid() && started == (config.agents[i] in config.identities)
      ensures started ==> dispatchInFlight && passes == [At(i + 1)]
      ensures started ==> runs == old(runs) + [Run(config.agents[i], batch, true)]
      ensures !started ==> passes == [] && !dispatchInFlight && runs == old(runs)
      ensures mail == old(mail) && until == old(until) && record.now == old(record.now)
    {
      ghost var before := State();
      started := config.agents[i] in config.identities;
      if started {
        runs := runs + [Run(config.agents[i], batch, true)];
        passes := [At(i + 1)];
      } else {
        PassFails(PairsOf(batch, config.agents[i]));
      }
      Took(before, Action.StartRun(0));
    }

    /** The exception leaves `dispatchReady` by its `finally`. */
    method PassFails(lost: set<(nat, Agent)>)
      requires |passes| == 1
      modifies this`passes, this`dispatchInFlight, this`record
      ensures State() == PassFailed(old(State()), 0, lost)
    {
      passes, dispatchInFlight := [], false;
      record := record.(stranded := record.stranded + lost, unserved := 0,
                        droppedRequests := record.droppedRequests + record.unserved);
    }

    /** A pass returns: `dispatchReady` goes round again if it was asked to meanwhile. */
    method PassReturns()
      requires |passes| == 1
      modifies this`passes, this`dispatchInFlight, this`dispatchAgainRequested, this`record
      ensures State() == PassDone(old(State()), 0)
      ensures dispatchAgainRequested == false
      ensures passes == if old(dispatchAgainRequested) then [Flushing] else []
      ensures old(dispatchInFlight) ==> dispatchInFlight == old(dispatchAgainRequested)
    {
      if dispatchAgainRequested {
        dispatchAgainRequested, passes := false, [Flushing];
        record := record.(served := record.served + record.unserved, unserved := 0);
      } else {
        dispatchInFlight, passes := false, [];
      }
    }

    /** One agent of a pass, from `skips` to `startRun`. */
    method DispatchAgent(i: nat) returns (outcome: Outcome)
      requires Valid() && dispatchInFlight && passes == [At(i)] && i < |config.agents|
      modifies this
      ensures Valid()
      ensures outcome == Next ==> dispatchInFlight && passes == [At(i + 1)]
      ensures outcome == Again ==> dispatchInFlight && passes == [Flushing]
      ensures outcome == Ended ==> !dispatchInFlight && passes == []
      ensures Undisturbed(world) ==>
                AgentServed(config, old(State()), State(), config.agents[i], world.paused(0, config.agents[i]), outcome)
    {
      var a := config.agents[i];
      var paused := world.paused(awaits, a);
      ghost var before := State();
      FreeMeans(before, a);
      if Active(runs, a) || paused || Cooling(State(), a) {
        MoveTo(At(i + 1), Consider(0, paused));
        return Next;
      }
      until := until - {a};
      if |runs| >= config.maxRuns {
        PassReturns();
        Took(before, Consider(0, paused));
        return if dispatchInFlight then Again else Ended;
      }
      passes := [AskingFirst(i)];
      Took(before, Consider(0, paused));
      ghost var asked := State();
      outcome := AskAgent(i);
      if Undisturbed(world) {
        assert Free(asked, a) && (Waits(asked, a) <==> Waits(before, a));
        if Waits(asked, a) {
          SameMailHandedOver(config, asked, before.(until := before.until - {a}), State(), a, outcome);
        }
      }
    }

    method AskAgent(i: nat) returns (outcome: Outcome)
      requires Valid() && dispatchInFlight && passes == [AskingFirst(i)] && i < |config.agents|
      modifies this
      ensures Valid()
      ensures outcome == Next ==> dispatchInFlight && passes == [At(i + 1)]
      ensures outcome == Again ==> dispatchInFlight && passes == [Flushing]
      ensures outcome == Ended ==> !dispatchInFlight && passes == []
      ensures Undisturbed(world) && Free(old(State()), config.agents[i]) ==>
                if Waits(old(State()), config.agents[i])
                then HandedOver(config, old(State()), State(), config.agents[i], outcome)
                else outcome == Next && OthersKept(old(State()), State()) && mail == old(mail)
    {
      var a := config.agents[i];
      Await();
      var unread := HasUnread(a);
      UnreadIsWaiting(State(), a);
      if !unread {
        MoveTo(At(i + 1), AskFirst(0));
        return Next;
      }
      MoveTo(AtGates(i), AskFirst(0));
      ghost var asked := State();
      outcome := DispatchAtGates(i);
      if Undisturbed(world) && Free(old(State()), a) {
        SameMailHandedOver(config, asked, old(State()), State(), a, outcome);
      }
    }

    method DispatchAtGates(i: nat) returns (outcome: Outcome)
      requires Valid() && dispatchInFlight && passes == [AtGates(i)] && i < |config.agents|
      modifies this
      ensures Valid()
      ensures Undisturbed(world) && Free(old(State()), config.agents[i]) && Waits(old(State()), config.agents[i]) ==>
                HandedOver(config, old(State()), State(), config.agents[i], outcome)
      ensures outcome == Next ==> dispatchInFlight && passes == [At(i + 1)]
      ensures outcome == Again ==> dispatchInFlight && passes == [Flushing]
      ensures outcome == Ended ==> !dispatchInFlight && passes == []
    {
      var a := config.agents[i];
      Await();
      if !world.opens(awaits) {
        ghost var before := State();
        PassReturns();
        Took(before, AbortAtGates(0));
        return if dispatchInFlight then Again else Ended;
      }
      if Active(runs, a) {
        MoveTo(At(i + 1), PassGates(0));
        return Next;
      }
      MoveTo(AskingAgain(i), PassGates(0));
      outcome := HandOver(i);
    }

    /** The mail is asked for again, listed, marked read, and handed to a run. */
    method HandOver(i: nat) returns (outcome: Outcome)
      requires Valid() && dispatchInFlight && passes == [AskingAgain(i)] && i < |config.agents|
      modifies this
      ensures Valid()
      ensures Undisturbed(world) && Waits(old(State()), config.agents[i]) ==>
                HandedOver(config, old(State()), State(), config.agents[i], outcome)
      ensures outcome == Next ==> dispatchInFlight && passes == [At(i + 1)]
      ensures outcome == Again ==> dispatchInFlight && passes == [Flushing]
      ensures outcome == Ended ==> !dispatchInFlight && passes == []
    {
      var a := config.agents[i];
      Await();
      var unread := HasUnread(a);
      UnreadIsWaiting(State(), a);
      if !unread {
        MoveTo(At(i + 1), AskAgain(0));
        return Next;
      }
      MoveTo(Listing(i), AskAgain(0));
      ghost var asked := State();
      outcome := ListAndGive(i);
      if Undisturbed(world) && Waits(old(State()), a) {
        SameMailHandedOver(config, asked, old(State()), State(), a, outcome);
      }
    }

    method ListAndGive(i: nat) returns (outcome: Outcome)
      requires Valid() && dispatchInFlight && passes == [Listing(i)] && i < |config.agents|
      modifies this
      ensures Valid()
      ensures outcome == Next ==> dispatchInFlight && passes == [At(i + 1)]
      ensures outcome == Again ==> dispatchInFlight && passes == [Flushing]
      ensures outcome == Ended ==> !dispatchInFlight && passes == []
      ensures Undisturbed(world) && Waits(old(State()), config.agents[i]) ==>
                HandedOver(config, old(State()), State(), config.agents[i], outcome)
    {
      var a := config.agents[i];
      Await();
      UnreadIsWaiting(State(), a);
      var batch := ListUnread(a);
      if batch == {} {
        MoveTo(At(i + 1), Action.ListUnread(0));
        return Next;
      }
      MoveTo(Marking(i, batch, {}), Action.ListUnread(0));
      ghost var listed := State();
      outcome := GiveBatch(i, batch);
      if Undisturbed(world) {
        SameMailHandedOver(config, listed, old(State()), State(), a, outcome);
      }
    }

    method GiveBatch(i: nat, batch: set<nat>) returns (outcome: Outcome)
      requires Valid() && dispatchInFlight && passes == [Marking(i, batch, {})] && i < |config.agents|
      modifies this
      ensures Valid() && outcome != Again
      ensures outcome == Next ==> dispatchInFlight && passes == [At(i + 1)]
      ensures outcome == Ended ==> !dispatchInFlight && passes == []
      ensures Undisturbed(world) && batch == UnreadOf(old(mail), config.agents[i]) ==>
                HandedOver(config, old(State()), State(), config.agents[i], outcome)
    {
      var a := config.agents[i];
      MarkRead(i, batch);
      if Undisturbed(world) && batch == UnreadOf(old(mail), a) {
        BatchMarked(old(mail), mail, batch, a);
        UnreadIsHandedOver(old(State()), batch, a);
      }
      var started := StartRun(i, batch);
      outcome := if started then Next else Ended;
    }
  
    /** `dispatchOnePass`: true when `dispatchReady` goes round again. */
    method DispatchOnePass() returns (again: bool)
      requires Valid() && dispatchInFlight && passes == [Flushing]
      modifies this
      ensures Valid() && again == dispatchInFlight
      ensures passes == if again then [Flushing] else []
      ensures Undisturbed(world) ==>
                exists n :: PassServed(config, old(State()), State(), n, world)
    {
      BeginPass();
      var i := 0;
      while i < |config.agents|
        invariant 0 <= i <= |config.agents|
        invariant Valid() && dispatchInFlight && passes == [At(i)]
        invariant Undisturbed(world) ==> ServedTo(old(State()), State(), config.agents[..i], world)
      {
        var outcome := DispatchNext(old(State()), i);
        if outcome != Next {
          return outcome == Again;
        }
        i := i + 1;
      }
      again := EndPass(old(State()));
    }

    /** The input is flushed, and the pass is at its first agent. */
    method BeginPass()
      requires Valid() && dispatchInFlight && passes == [Flushing]
      modifies this
      ensures Valid() && dispatchInFlight && passes == [At(0)]
      ensures Undisturbed(world) ==> ServedTo(old(State()), State(), config.agents[..0], world)
    {
      Await();
      MoveTo(At(0), Flushed(0));
      assert config.agents[..0] == [];
      if Undisturbed(world) {
        NobodyServed(old(State()), State(), world);
      }
    }

    /** The next agent, with what the pass that began at this state has served by then. */
    method DispatchNext(ghost start: State, i: nat) returns (outcome: Outcome)
      requires Valid() && dispatchInFlight && passes == [At(i)] && i < |config.agents|
      requires Undisturbed(world) ==> ServedTo(start, State(), config.agents[..i], world)
      modifies this
      ensures Valid()
      ensures outcome == Next ==> dispatchInFlight && passes == [At(i + 1)]
      ensures outcome == Again ==> dispatchInFlight && passes == [Flushing]
      ensures outcome == Ended ==> !dispatchInFlight && passes == []
      ensures Undisturbed(world) && outcome == Next ==> ServedTo(start, State(), config.agents[..i + 1], world)
      ensures Undisturbed(world) && outcome != Next ==> PassServed(config, start, State(), i, world)
    {
      ghost var before := State();
      outcome := DispatchAgent(i);
      if Undisturbed(world) {
        if outcome == Next {
          OneMoreServed(config, start, before, State(), config.agents[..i], config.agents[i], world);
          assert config.agents[..i + 1] == config.agents[..i] + [config.agents[i]];
        } else {
          EndedServed(config, start, before, State(), i, world, outcome);
        }
      }
    }

    method EndPass(ghost start: State) returns (again: bool)
      requires Valid() && dispatchInFlight && passes == [At(|config.agents|)]
      requires Undisturbed(world) ==> ServedTo(start, State(), config.agents[..|config.agents|], world)
      modifies this
      ensures Valid() && again == dispatchInFlight
      ensures passes == if again then [Flushing] else []
      ensures Undisturbed(world) ==> PassServed(config, start, State(), |config.agents|, world)
    {
      assert config.agents[..|config.agents|] == config.agents;
      ghost var before := State();
      PassReturns();
      Took(before, Consider(0, false));
      again := dispatchInFlight;
      if Undisturbed(world) {
        AllServed(config, start, before, State(), world);
      }
    }

    /** A request while a pass is in flight. */
    method Coalesce()
      requires Valid() && dispatchInFlight
      modifies this
      ensures Valid() && dispatchInFlight && dispatchAgainRequested && passes == old(passes)
    {
      ghost var before := State();
      dispatchAgainRequested := true;
      record := record.(requests := record.requests + 1, unserved := record.unserved + 1);
      Took(before, Request);
    }

    /** A request that begins a pass itself. */
    method Begin()
      requires Valid() && !dispatchInFlight
      modifies this
      ensures Valid() && dispatchInFlight && passes == [Flushing]
    {
      ghost var before := State();
      FlightOf(config, before, trace);
      dispatchInFlight, dispatchAgainRequested, passes := true, false, [Flushing];
      record := record.(requests := record.requests + 1, served := record.served + record.unserved + 1, unserved := 0);
      Took(before, Request);
    }

    /**
     * `dispatchReady`, for as many rounds as given: every request made meanwhile
     * keeps it going round, and it ends with nothing in flight and no request
     * waiting.
     */
    method DispatchReady(rounds: nat) returns (finished: bool)
      requires Valid()
      modifies this
      ensures Valid()
      ensures finished && !old(dispatchInFlight) ==> passes == [] && !dispatchInFlight && record.unserved == 0
      ensures old(dispatchInFlight) ==> finished && dispatchAgainRequested && passes == old(passes)
    {
      if dispatchInFlight {
        Coalesce();
        return true;
      }
      Begin();
      var again, left := true, rounds;
      while again && left > 0
        invariant Valid() && again == dispatchInFlight && passes == if again then [Flushing] else []
      {
        again := DispatchOnePass();
        left := left - 1;
      }
      FlightOf(config, State(), trace);
      finished := !again;
    }
  }
}
