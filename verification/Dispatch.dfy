/**
 * The dispatcher (orchestrator-dispatch.ts, mailbox.ts, retry-backoff.ts): passes
 * over the agents that hand each one's unread mail to a run. Everything between
 * two awaits is one step; mail, requests and the runs themselves come in between.
 */
module Dispatch {
  import opened Powers

  datatype Agent = Agent(name: string)

  datatype Mail = Mail(to: set<Agent>, readBy: set<Agent>)

  datatype Run = Run(agent: Agent, batch: set<nat>, active: bool)

  /** Where a pass waits; `i` is the agent it is at. */
  datatype Pass =
    | Flushing
    | At(i: nat)
    | AskingFirst(i: nat)
    | AtGates(i: nat)
    | AskingAgain(i: nat)
    | Listing(i: nat)
    /** The unread mail listed, and how much of it is marked read. */
    | Marking(i: nat, batch: set<nat>, marked: set<nat>)

  datatype Config = Config(agents: seq<Agent>, identities: set<Agent>, maxRuns: nat)

  datatype State = State(
    mail: seq<Mail>,
    runs: seq<Run>,
    /** The passes in progress. */
    passes: seq<Pass>,
    dispatchInFlight: bool,
    dispatchAgainRequested: bool,
    /** All requests; those a pass began after; those waiting for one; those dropped by a pass that threw. */
    requests: nat,
    served: nat,
    unserved: nat,
    droppedRequests: nat,
    /** What the agents read by their own tool. */
    toolRead: set<(nat, Agent)>,
    /** Marked read by a pass that threw before it started the run. */
    stranded: set<(nat, Agent)>,
    now: nat,
    /** The cooldowns in force, and the end of the one the agent's last error set. */
    until: map<Agent, nat>,
    lastCooldown: map<Agent, nat>)

  datatype Action =
    /** `dispatchReady()` is called. */
    | Request
    | Post(to: set<Agent>)
    | Flushed(p: nat)
    /** The pass looks at its next agent; `paused` covers the operator's pause and an inactive agent. */
    | Consider(p: nat, paused: bool)
    | AskFirst(p: nat)
    | PassGates(p: nat)
    | AbortAtGates(p: nat)
    | AskAgain(p: nat)
    | ListUnread(p: nat)
    | MarkOne(p: nat, m: nat)
    | StartRun(p: nat)
    | PassThrows(p: nat)
    | ToolRead(r: nat, m: nat)
    | NoteError(r: nat, cooldown: nat)
    | NoteSuccess(r: nat)
    | RunEnds(r: nat)
    | Tick(dt: nat)

  predicate Unread(mail: seq<Mail>, m: nat, a: Agent) {
    m < |mail| && a in mail[m].to && a !in mail[m].readBy
  }

  function UnreadOf(mail: seq<Mail>, a: Agent): set<nat> {
    set m | 0 <= m < |mail| && Unread(mail, m, a)
  }

  predicate Active(runs: seq<Run>, a: Agent) {
    exists r :: 0 <= r < |runs| && runs[r].active && runs[r].agent == a
  }

  predicate Cooling(s: State, a: Agent) {
    a in s.until && s.until[a] > s.now
  }

  function MarkRead(mail: seq<Mail>, m: nat, a: Agent): seq<Mail>
    requires m < |mail|
  {
    mail[m := mail[m].(readBy := mail[m].readBy + {a})]
  }

  predicate Enabled(c: Config, s: State, a: Action) {
    match a
    case Request => true
    case Post(_) => true
    case Flushed(p) => p < |s.passes| && s.passes[p].Flushing?
    case Consider(p, _) => p < |s.passes| && s.passes[p].At?
    case AskFirst(p) => p < |s.passes| && s.passes[p].AskingFirst? && s.passes[p].i < |c.agents|
    case PassGates(p) => p < |s.passes| && s.passes[p].AtGates? && s.passes[p].i < |c.agents|
    case AbortAtGates(p) => p < |s.passes| && s.passes[p].AtGates?
    case AskAgain(p) => p < |s.passes| && s.passes[p].AskingAgain? && s.passes[p].i < |c.agents|
    case ListUnread(p) => p < |s.passes| && s.passes[p].Listing? && s.passes[p].i < |c.agents|
    case MarkOne(p, m) =>
      && p < |s.passes| && s.passes[p].Marking? && s.passes[p].i < |c.agents|
      && m in s.passes[p].batch && m !in s.passes[p].marked && m < |s.mail|
    case StartRun(p) =>
      p < |s.passes| && s.passes[p].Marking? && s.passes[p].i < |c.agents| && s.passes[p].marked == s.passes[p].batch
    case PassThrows(p) => p < |s.passes|
    case ToolRead(r, m) => r < |s.runs| && s.runs[r].active && m < |s.mail|
    case NoteError(r, _) => r < |s.runs| && s.runs[r].active
    case NoteSuccess(r) => r < |s.runs| && s.runs[r].active
    case RunEnds(r) => r < |s.runs| && s.runs[r].active
    case Tick(_) => true
  }

  function Without<T>(xs: seq<T>, p: nat): seq<T>
    requires p < |xs|
  {
    xs[..p] + xs[p + 1..]
  }

  /** A pass begins: it serves every request made so far. */
  function PassBegins(s: State): State {
    s.(dispatchAgainRequested := false, served := s.served + s.unserved, unserved := 0)
  }

  /** `dispatchReady`: coalesced into the pass in flight, or a new pass. */
  function Requested(s: State): State {
    if s.dispatchInFlight then
      s.(requests := s.requests + 1, dispatchAgainRequested := true, unserved := s.unserved + 1)
    else
      PassBegins(s.(requests := s.requests + 1, unserved := s.unserved + 1, dispatchInFlight := true,
                    passes := s.passes + [Flushing]))
  }

  /** A pass returns: once more if requested meanwhile, else nothing is in flight. */
  function PassDone(s: State, p: nat): State
    requires p < |s.passes|
  {
    if s.dispatchAgainRequested then PassBegins(s.(passes := s.passes[p := Flushing]))
    else s.(dispatchInFlight := false, passes := Without(s.passes, p))
  }

  function PassFailed(s: State, p: nat, lost: set<(nat, Agent)>): State
    requires p < |s.passes|
  {
    s.(dispatchInFlight := false, passes := Without(s.passes, p), stranded := s.stranded + lost,
       droppedRequests := s.droppedRequests + s.unserved, unserved := 0)
  }

  function To(s: State, p: nat, next: Pass): State
    requires p < |s.passes|
  {
    s.(passes := s.passes[p := next])
  }

  function PairsOf(ms: set<nat>, a: Agent): set<(nat, Agent)> {
    set m | m in ms :: (m, a)
  }

  /** What a pass that throws here has marked read for nothing. */
  function MarkedBy(c: Config, pass: Pass): set<(nat, Agent)> {
    if pass.Marking? && pass.i < |c.agents| then PairsOf(pass.marked, c.agents[pass.i]) else {}
  }

  /** The synchronous part at one agent: skip it, end the pass, or ask for its mail. */
  function Considered(c: Config, s: State, p: nat, paused: bool): State
    requires p < |s.passes| && s.passes[p].At?
  {
    var i := s.passes[p].i;
    if i >= |c.agents| then PassDone(s, p)
    else
      var a := c.agents[i];
      if Active(s.runs, a) || paused || Cooling(s, a) then To(s, p, At(i + 1))
      else
        var t := s.(until := s.until - {a});
        if |s.runs| >= c.maxRuns then PassDone(t, p) else To(t, p, AskingFirst(i))
  }

  /** `startRun`, right after the mail is marked; without an identity it throws. */
  function RunStarted(c: Config, s: State, p: nat): State
    requires Enabled(c, s, StartRun(p))
  {
    var pass := s.passes[p];
    var a := c.agents[pass.i];
    if a !in c.identities then PassFailed(s, p, MarkedBy(c, pass))
    else s.(runs := s.runs + [Run(a, pass.batch, true)], passes := s.passes[p := At(pass.i + 1)])
  }

  function Apply(c: Config, s: State, a: Action): State
    requires Enabled(c, s, a)
  {
    match a
    case Request => Requested(s)
    case Post(to) => s.(mail := s.mail + [Mail(to, {})])
    case Flushed(p) => To(s, p, At(0))
    case Consider(p, paused) => Considered(c, s, p, paused)
    case AskFirst(p) =>
      var i := s.passes[p].i;
      To(s, p, if UnreadOf(s.mail, c.agents[i]) == {} then At(i + 1) else AtGates(i))
    case PassGates(p) =>
      var i := s.passes[p].i;
      To(s, p, if Active(s.runs, c.agents[i]) then At(i + 1) else AskingAgain(i))
    case AbortAtGates(p) => PassDone(s, p)
    case AskAgain(p) =>
      var i := s.passes[p].i;
      To(s, p, if UnreadOf(s.mail, c.agents[i]) == {} then At(i + 1) else Listing(i))
    case ListUnread(p) =>
      var i := s.passes[p].i;
      var batch := UnreadOf(s.mail, c.agents[i]);
      To(s, p, if batch == {} then At(i + 1) else Marking(i, batch, {}))
    case MarkOne(p, m) =>
      var pass := s.passes[p];
      To(s, p, pass.(marked := pass.marked + {m})).(mail := MarkRead(s.mail, m, c.agents[pass.i]))
    case StartRun(p) => RunStarted(c, s, p)
    case PassThrows(p) => PassFailed(s, p, MarkedBy(c, s.passes[p]))
    case ToolRead(r, m) =>
      var who := s.runs[r].agent;
      s.(mail := MarkRead(s.mail, m, who),
         toolRead := if Unread(s.mail, m, who) then s.toolRead + {(m, who)} else s.toolRead)
    case NoteError(r, cooldown) =>
      var who := s.runs[r].agent;
      s.(until := s.until[who := s.now + cooldown], lastCooldown := s.lastCooldown[who := s.now + cooldown])
    case NoteSuccess(r) =>
      var who := s.runs[r].agent;
      s.(until := s.until - {who}, lastCooldown := s.lastCooldown - {who})
    case RunEnds(r) => s.(runs := s.runs[r := s.runs[r].(active := false)])
    case Tick(dt) => s.(now := s.now + dt)
  }

  const INIT := State([], [], [], false, false, 0, 0, 0, 0, {}, {}, 0, map[], map[])

  // ------------------------------------------------------------------ whom a pass serves

  /** No run of the agent is active, and its cooldown, if any, has ended. */
  ghost predicate Free(s: State, a: Agent) {
    && (forall r :: 0 <= r < |s.runs| && s.runs[r].active ==> s.runs[r].agent != a)
    && (a in s.until ==> s.until[a] <= s.now)
  }

  /** Some mail to the agent is unread. */
  ghost predicate Waits(s: State, a: Agent) {
    exists m :: 0 <= m < |s.mail| && a in s.mail[m].to && a !in s.mail[m].readBy
  }

  /** The run is the agent's, and its batch is exactly the mail that was unread. */
  ghost predicate HandsOver(s: State, run: Run, a: Agent) {
    && run.agent == a && run.active
    && forall m :: m in run.batch <==> 0 <= m < |s.mail| && a in s.mail[m].to && a !in s.mail[m].readBy
  }

  /** The agent's mail has been marked read, and nobody else's. */
  ghost predicate MarkedFor(before: seq<Mail>, after: seq<Mail>, a: Agent) {
    && |after| == |before|
    && forall m :: 0 <= m < |before| ==>
         && after[m].to == before[m].to
         && after[m].readBy == before[m].readBy + if a in before[m].to then {a} else {}
  }

  /**
   * An agent is passed over exactly when a run of it is active, it is paused, or its
   * cooldown has not ended; otherwise its mail is asked for exactly when there is room.
   */
  lemma AnAgentIsConsideredExactly(c: Config, s: State, p: nat, paused: bool)
    requires Enabled(c, s, Consider(p, paused)) && s.passes[p].i < |c.agents|
    ensures var i, t := s.passes[p].i, Apply(c, s, Consider(p, paused));
            var a := c.agents[i];
            if !Free(s, a) || paused then t == s.(passes := s.passes[p := At(i + 1)])
            else if |s.runs| < c.maxRuns then t == s.(passes := s.passes[p := AskingFirst(i)], until := s.until - {a})
            else
              && t.runs == s.runs && t.mail == s.mail && t.until == s.until - {a}
              && (if s.dispatchAgainRequested then t.passes == s.passes[p := Flushing]
                  else t.passes == Without(s.passes, p) && !t.dispatchInFlight)
  {
  }

  // ------------------------------------------------------------------ single flight

  /** At most one pass; it is the one in flight, and another is asked for exactly while requests are unserved. */
  predicate FlightOk(s: State) {
    && |s.passes| == (if s.dispatchInFlight then 1 else 0)
    && (s.unserved > 0 ==> s.dispatchInFlight)
    && (s.dispatchInFlight ==> (s.dispatchAgainRequested <==> s.unserved > 0))
    && s.requests == s.served + s.unserved + s.droppedRequests
  }

  lemma StepKeepsFlight(c: Config, s: State, a: Action)
    requires FlightOk(s) && Enabled(c, s, a)
    ensures FlightOk(Apply(c, s, a))
  {
  }

  // ------------------------------------------------------------------ mail

  /** How many runs were handed message m for agent a. */
  function RunsWith(runs: seq<Run>, m: nat, a: Agent): nat {
    if runs == [] then 0
    else
      var r := runs[|runs| - 1];
      RunsWith(runs[..|runs| - 1], m, a) + if r.agent == a && m in r.batch then 1 else 0
  }

  function One(b: bool): nat {
    if b then 1 else 0
  }

  /** A pass has marked it read and not started the run yet. */
  predicate InHand(c: Config, passes: seq<Pass>, m: nat, a: Agent) {
    exists p :: 0 <= p < |passes| && (m, a) in MarkedBy(c, passes[p])
  }

  /** The places message m for agent a is in. */
  function Places(c: Config, s: State, m: nat, a: Agent): nat {
    One(Unread(s.mail, m, a))
    + One(InHand(c, s.passes, m, a))
    + RunsWith(s.runs, m, a)
    + One((m, a) in s.toolRead)
    + One((m, a) in s.stranded)
  }

  ghost predicate InOnePlace(c: Config, s: State) {
    forall m, a :: 0 <= m < |s.mail| && a in s.mail[m].to ==> Places(c, s, m, a) == 1
  }

  /** The agent a pass has passed the checks of: idle, cooled down, and room for its run. */
  predicate ClearedAgent(c: Config, s: State, i: nat) {
    && i < |c.agents| && !Active(s.runs, c.agents[i]) && c.agents[i] !in s.until && |s.runs| < c.maxRuns
  }

  predicate PassOk(c: Config, s: State, pass: Pass) {
    match pass
    case Flushing => true
    case At(i) => true
    case AskingFirst(i) => ClearedAgent(c, s, i)
    case AtGates(i) => ClearedAgent(c, s, i)
    case AskingAgain(i) => ClearedAgent(c, s, i)
    case Listing(i) => ClearedAgent(c, s, i)
    case Marking(i, batch, marked) =>
      && ClearedAgent(c, s, i)
      && marked <= batch && batch != {}
      && (forall m :: m in batch ==> m < |s.mail| && c.agents[i] in s.mail[m].to)
      && (forall m :: m in batch && m !in marked ==> Unread(s.mail, m, c.agents[i]))
  }

  /** An agent has one active run at most. */
  predicate OneActiveEach(runs: seq<Run>) {
    forall i, j :: 0 <= i < j < |runs| && runs[i].active && runs[j].active ==> runs[i].agent != runs[j].agent
  }

  /** The cooldown set by the last error is in force until it has ended. */
  predicate CooldownOk(s: State) {
    && (forall a :: a in s.lastCooldown && s.lastCooldown[a] > s.now ==>
          a in s.until && s.until[a] == s.lastCooldown[a])
    && (forall a :: a in s.until ==> a in s.lastCooldown && s.until[a] == s.lastCooldown[a])
  }

  predicate PassesOk(c: Config, s: State) {
    forall p :: 0 <= p < |s.passes| ==> PassOk(c, s, s.passes[p])
  }

  /** Nothing refers to mail not posted yet. */
  ghost predicate Known(s: State) {
    && (forall r, m :: 0 <= r < |s.runs| && m in s.runs[r].batch ==> m < |s.mail|)
    && (forall e :: e in s.toolRead || e in s.stranded ==> e.0 < |s.mail|)
  }

  ghost predicate Inv(c: Config, s: State) {
    && FlightOk(s)
    && PassesOk(c, s)
    && OneActiveEach(s.runs) && |s.runs| <= c.maxRuns
    && CooldownOk(s)
    && Known(s)
    && InOnePlace(c, s)
  }

  lemma StepKeepsCooldown(c: Config, s: State, a: Action)
    requires Inv(c, s) && Enabled(c, s, a)
    ensures CooldownOk(Apply(c, s, a))
  {
  }

  lemma StepKeepsRuns(c: Config, s: State, a: Action)
    requires Inv(c, s) && Enabled(c, s, a)
    ensures OneActiveEach(Apply(c, s, a).runs) && |Apply(c, s, a).runs| <= c.maxRuns
  {
    if a.StartRun? {
      assert PassOk(c, s, s.passes[a.p]);
    }
  }

  /** The steps a pass takes itself, but for marking mail. */
  predicate PassStep(a: Action) {
    a.Flushed? || a.Consider? || a.AskFirst? || a.PassGates? || a.AbortAtGates? || a.AskAgain? || a.ListUnread?
  }

  lemma PassStepKeepsPasses(c: Config, s: State, a: Action)
    requires Inv(c, s) && Enabled(c, s, a) && PassStep(a)
    ensures PassesOk(c, Apply(c, s, a))
  {
    var t := Apply(c, s, a);
    assert PassOk(c, s, s.passes[a.p]);
    forall p | 0 <= p < |t.passes| ensures PassOk(c, t, t.passes[p]) {
    }
  }

  lemma EndingPassKeepsPasses(c: Config, s: State, a: Action)
    requires Inv(c, s) && Enabled(c, s, a) && (a.StartRun? || a.PassThrows? || a.MarkOne?)
    ensures PassesOk(c, Apply(c, s, a))
  {
    var t := Apply(c, s, a);
    assert PassOk(c, s, s.passes[a.p]);
    forall p | 0 <= p < |t.passes| ensures PassOk(c, t, t.passes[p]) {
    }
  }

  lemma StepKeepsPasses(c: Config, s: State, a: Action)
    requires Inv(c, s) && Enabled(c, s, a)
    ensures PassesOk(c, Apply(c, s, a))
  {
    if PassStep(a) {
      PassStepKeepsPasses(c, s, a);
    } else if a.StartRun? || a.PassThrows? || a.MarkOne? {
      EndingPassKeepsPasses(c, s, a);
    } else {
      var t := Apply(c, s, a);
      forall p | 0 <= p < |t.passes| ensures PassOk(c, t, t.passes[p]) {
        assert p < |s.passes| ==> PassOk(c, s, s.passes[p]);
      }
    }
  }

  lemma FinishedPassKeepsKnown(c: Config, s: State, a: Action)
    requires Inv(c, s) && Enabled(c, s, a) && (a.StartRun? || a.PassThrows?)
    ensures Known(Apply(c, s, a))
  {
    assert PassOk(c, s, s.passes[a.p]);
  }

  lemma StepKeepsKnown(c: Config, s: State, a: Action)
    requires Inv(c, s) && Enabled(c, s, a)
    ensures Known(Apply(c, s, a))
  {
    if a.StartRun? || a.PassThrows? {
      FinishedPassKeepsKnown(c, s, a);
    }
  }

  lemma {:induction false} UnknownMailIsInNoRun(runs: seq<Run>, m: nat, a: Agent)
    requires forall r :: 0 <= r < |runs| ==> m !in runs[r].batch
    ensures RunsWith(runs, m, a) == 0
  {
    if runs != [] {
      UnknownMailIsInNoRun(runs[..|runs| - 1], m, a);
    }
  }

  lemma {:induction false} EndingKeepsRunsWith(runs: seq<Run>, r: nat, m: nat, a: Agent)
    requires r < |runs|
    ensures RunsWith(runs[r := runs[r].(active := false)], m, a) == RunsWith(runs, m, a)
    decreases |runs|
  {
    var n := |runs| - 1;
    var after := runs[r := runs[r].(active := false)];
    if r < n {
      EndingKeepsRunsWith(runs[..n], r, m, a);
      assert after[..n] == runs[..n][r := runs[r].(active := false)];
    } else {
      assert after[..n] == runs[..n];
    }
  }

  /** With a single pass, what is in hand is what it has marked. */
  lemma InHandOfOne(c: Config, passes: seq<Pass>, m: nat, a: Agent)
    requires |passes| <= 1
    ensures InHand(c, passes, m, a) <==> passes != [] && (m, a) in MarkedBy(c, passes[0])
  {
  }

  /** Steps that touch neither mail nor runs nor what a pass has marked. */
  predicate Quiet(a: Action) {
    PassStep(a) || a.Request? || a.NoteError? || a.NoteSuccess? || a.Tick?
  }

  lemma QuietMarksTheSame(c: Config, s: State, a: Action)
    requires FlightOk(s) && Enabled(c, s, a) && Quiet(a)
    ensures var t := Apply(c, s, a);
            && t.mail == s.mail && t.runs == s.runs && t.toolRead == s.toolRead && t.stranded == s.stranded
            && (if t.passes == [] then {} else MarkedBy(c, t.passes[0])) ==
               (if s.passes == [] then {} else MarkedBy(c, s.passes[0]))
  {
  }

  lemma QuietMarksNothing(c: Config, s: State, a: Action)
    requires Inv(c, s) && Enabled(c, s, a) && Quiet(a)
    ensures var t := Apply(c, s, a);
            t.mail == s.mail && t.runs == s.runs && t.toolRead == s.toolRead && t.stranded == s.stranded
    ensures forall m, g :: InHand(c, Apply(c, s, a).passes, m, g) <==> InHand(c, s.passes, m, g)
  {
    var t := Apply(c, s, a);
    StepKeepsFlight(c, s, a);
    QuietMarksTheSame(c, s, a);
    forall m, g ensures InHand(c, t.passes, m, g) <==> InHand(c, s.passes, m, g) {
      InHandOfOne(c, s.passes, m, g);
      InHandOfOne(c, t.passes, m, g);
    }
  }

  lemma QuietKeepsPlaces(c: Config, s: State, a: Action)
    requires Inv(c, s) && Enabled(c, s, a) && Quiet(a)
    ensures InOnePlace(c, Apply(c, s, a))
  {
    var t := Apply(c, s, a);
    QuietMarksNothing(c, s, a);
    forall m, g | 0 <= m < |t.mail| && g in t.mail[m].to ensures Places(c, t, m, g) == 1 {
      assert Places(c, s, m, g) == 1;
    }
  }

  lemma PostKeepsPlaces(c: Config, s: State, a: Action)
    requires Inv(c, s) && Enabled(c, s, a) && a.Post?
    ensures InOnePlace(c, Apply(c, s, a))
  {
    var t := Apply(c, s, a);
    forall m, g | 0 <= m < |t.mail| && g in t.mail[m].to ensures Places(c, t, m, g) == 1 {
      InHandOfOne(c, s.passes, m, g);
      if m < |s.mail| {
        assert Places(c, s, m, g) == 1;
      } else {
        UnknownMailIsInNoRun(s.runs, m, g);
        assert s.passes != [] ==> PassOk(c, s, s.passes[0]);
        assert (m, g) !in s.toolRead && (m, g) !in s.stranded;
      }
    }
  }

  lemma MarkKeepsPlaces(c: Config, s: State, a: Action)
    requires Inv(c, s) && Enabled(c, s, a) && a.MarkOne?
    ensures InOnePlace(c, Apply(c, s, a))
  {
    var t := Apply(c, s, a);
    forall m, g | 0 <= m < |t.mail| && g in t.mail[m].to ensures Places(c, t, m, g) == 1 {
      InHandOfOne(c, s.passes, m, g);
      InHandOfOne(c, t.passes, m, g);
      assert PassOk(c, s, s.passes[0]);
      assert Places(c, s, m, g) == 1;
    }
  }

  lemma FailureKeepsPlaces(c: Config, s: State, p: nat)
    requires Inv(c, s) && p < |s.passes|
    ensures InOnePlace(c, PassFailed(s, p, MarkedBy(c, s.passes[p])))
  {
    var t := PassFailed(s, p, MarkedBy(c, s.passes[p]));
    assert t.passes == [];
    forall m, g | 0 <= m < |t.mail| && g in t.mail[m].to ensures Places(c, t, m, g) == 1 {
      InHandOfOne(c, s.passes, m, g);
      InHandOfOne(c, t.passes, m, g);
      assert Places(c, s, m, g) == 1;
    }
  }

  lemma StartKeepsPlaces(c: Config, s: State, p: nat)
    requires Inv(c, s) && Enabled(c, s, StartRun(p)) && c.agents[s.passes[p].i] in c.identities
    ensures InOnePlace(c, RunStarted(c, s, p))
  {
    var t := RunStarted(c, s, p);
    assert t.runs[..|s.runs|] == s.runs;
    forall m, g | 0 <= m < |t.mail| && g in t.mail[m].to ensures Places(c, t, m, g) == 1 {
      InHandOfOne(c, s.passes, m, g);
      InHandOfOne(c, t.passes, m, g);
      assert Places(c, s, m, g) == 1;
    }
  }

  lemma ToolReadKeepsPlaces(c: Config, s: State, a: Action)
    requires Inv(c, s) && Enabled(c, s, a) && a.ToolRead?
    ensures InOnePlace(c, Apply(c, s, a))
  {
    var t := Apply(c, s, a);
    forall m, g | 0 <= m < |t.mail| && g in t.mail[m].to ensures Places(c, t, m, g) == 1 {
      assert Places(c, s, m, g) == 1;
    }
  }

  lemma EndKeepsPlaces(c: Config, s: State, a: Action)
    requires Inv(c, s) && Enabled(c, s, a) && a.RunEnds?
    ensures InOnePlace(c, Apply(c, s, a))
  {
    var t := Apply(c, s, a);
    forall m, g | 0 <= m < |t.mail| && g in t.mail[m].to ensures Places(c, t, m, g) == 1 {
      EndingKeepsRunsWith(s.runs, a.r, m, g);
      assert Places(c, s, m, g) == 1;
    }
  }

  lemma StepKeepsInv(c: Config, s: State, a: Action)
    requires Inv(c, s) && Enabled(c, s, a)
    ensures Inv(c, Apply(c, s, a))
  {
    StepKeepsFlight(c, s, a);
    StepKeepsPasses(c, s, a);
    StepKeepsRuns(c, s, a);
    StepKeepsCooldown(c, s, a);
    StepKeepsKnown(c, s, a);
    if Quiet(a) {
      QuietKeepsPlaces(c, s, a);
    } else if a.Post? {
      PostKeepsPlaces(c, s, a);
    } else if a.MarkOne? {
      MarkKeepsPlaces(c, s, a);
    } else if a.PassThrows? || (a.StartRun? && c.agents[s.passes[a.p].i] !in c.identities) {
      FailureKeepsPlaces(c, s, a.p);
    } else if a.StartRun? {
      StartKeepsPlaces(c, s, a.p);
    } else if a.ToolRead? {
      ToolReadKeepsPlaces(c, s, a);
    } else {
      EndKeepsPlaces(c, s, a);
    }
  }

  ghost predicate Reachable(c: Config, s: State, actions: seq<Action>)
    decreases |actions|
  {
    if actions == [] then s == INIT
    else
      var a := actions[|actions| - 1];
      exists r :: Reachable(c, r, actions[..|actions| - 1]) && Enabled(c, r, a) && s == Apply(c, r, a)
  }

  lemma InitFlight(s: State)
    requires s == INIT
    ensures FlightOk(s)
  {
  }

  lemma InitRecords(c: Config, s: State)
    requires s == INIT
    ensures PassesOk(c, s) && OneActiveEach(s.runs) && CooldownOk(s) && Known(s)
  {
  }

  lemma InitPlaces(c: Config, s: State)
    requires s == INIT
    ensures InOnePlace(c, s)
  {
  }

  lemma InitInv(c: Config, s: State)
    requires s == INIT
    ensures Inv(c, s)
  {
    InitFlight(s);
    InitRecords(c, s);
    InitPlaces(c, s);
  }

  lemma {:induction false} ReachableKeepsInv(c: Config, s: State, actions: seq<Action>)
    requires Reachable(c, s, actions)
    ensures Inv(c, s)
    decreases |actions|
  {
    if actions == [] {
      InitInv(c, s);
    } else {
      var a := actions[|actions| - 1];
      var r :| Reachable(c, r, actions[..|actions| - 1]) && Enabled(c, r, a) && s == Apply(c, r, a);
      ReachableKeepsInv(c, r, actions[..|actions| - 1]);
      StepKeepsInv(c, r, a);
    }
  }

  // ------------------------------------------------------------------ theorems

  /** Passes never overlap. */
  lemma PassesNeverOverlap(c: Config, s: State, actions: seq<Action>)
    requires Reachable(c, s, actions)
    ensures |s.passes| <= 1
    ensures s.dispatchInFlight <==> |s.passes| == 1
  {
    ReachableKeepsInv(c, s, actions);
  }

  /** Every message is in exactly one place, for each of its recipients. */
  lemma MailIsHandedOutOnce(c: Config, s: State, actions: seq<Action>, m: nat, a: Agent)
    requires Reachable(c, s, actions) && m < |s.mail| && a in s.mail[m].to
    ensures Places(c, s, m, a) == 1
    ensures RunsWith(s.runs, m, a) <= 1
  {
    ReachableKeepsInv(c, s, actions);
    assert Places(c, s, m, a) == 1;
  }

  lemma OnlyAThrowStrandsHere(c: Config, s: State, a: Action)
    requires Enabled(c, s, a) && !a.PassThrows? && forall g :: g in c.agents ==> g in c.identities
    ensures Apply(c, s, a).stranded == s.stranded && Apply(c, s, a).droppedRequests == s.droppedRequests
  {
  }

  /** Without a pass that throws, read mail is in a run, in hand, or read by the agent itself. */
  lemma {:induction false} OnlyAThrowStrandsMail(c: Config, s: State, actions: seq<Action>)
    requires Reachable(c, s, actions)
    requires forall a :: a in actions ==> !a.PassThrows?
    requires forall g :: g in c.agents ==> g in c.identities
    ensures s.stranded == {} && s.droppedRequests == 0
    decreases |actions|
  {
    if actions != [] {
      var a := actions[|actions| - 1];
      var r :| Reachable(c, r, actions[..|actions| - 1]) && Enabled(c, r, a) && s == Apply(c, r, a);
      assert a in actions;
      OnlyAThrowStrandsMail(c, r, actions[..|actions| - 1]);
      OnlyAThrowStrandsHere(c, r, a);
    }
  }

  /** A throw once some mail is marked read, or a start for want of an identity. */
  predicate Strands(c: Config, s: State, a: Action)
    requires Enabled(c, s, a)
  {
    || (a.PassThrows? && MarkedBy(c, s.passes[a.p]) != {})
    || (a.StartRun? && c.agents[s.passes[a.p].i] !in c.identities)
  }

  /** What is marked in hand is not stranded yet. */
  lemma InHandIsNotStranded(c: Config, s: State, p: nat)
    requires Inv(c, s) && p < |s.passes|
    ensures MarkedBy(c, s.passes[p]) * s.stranded == {}
  {
    var pass := s.passes[p];
    forall e | e in MarkedBy(c, pass) ensures e !in s.stranded {
      assert PassOk(c, s, pass) && InHand(c, s.passes, e.0, e.1);
      assert Places(c, s, e.0, e.1) == 1;
    }
  }

  lemma AThrowStrandsExactly(c: Config, s: State, p: nat)
    requires Inv(c, s) && p < |s.passes|
    ensures var t := PassFailed(s, p, MarkedBy(c, s.passes[p]));
            && (t.stranded != s.stranded <==> MarkedBy(c, s.passes[p]) != {})
            && t.stranded - s.stranded == MarkedBy(c, s.passes[p])
  {
    InHandIsNotStranded(c, s, p);
  }

  lemma AStartHasMarkedMail(c: Config, s: State, p: nat)
    requires Inv(c, s) && Enabled(c, s, StartRun(p))
    ensures MarkedBy(c, s.passes[p]) != {} && c.maxRuns > 0
  {
    assert PassOk(c, s, s.passes[p]);
    var m :| m in s.passes[p].batch;
    assert (m, c.agents[s.passes[p].i]) in MarkedBy(c, s.passes[p]);
  }

  /** What a step strands: nothing, or what its pass had marked read. */
  ghost predicate StrandsExactly(c: Config, s: State, a: Action)
    requires Enabled(c, s, a)
  {
    var t := Apply(c, s, a);
    && (t.stranded != s.stranded <==> Strands(c, s, a))
    && (Strands(c, s, a) ==> t.stranded - s.stranded == MarkedBy(c, s.passes[a.p]))
  }

  lemma OthersStrandNothing(c: Config, s: State, a: Action)
    requires Enabled(c, s, a) && !a.PassThrows? && !a.StartRun?
    ensures StrandsExactly(c, s, a)
  {
    assert Apply(c, s, a).stranded == s.stranded;
  }

  lemma AThrowStrands(c: Config, s: State, a: Action)
    requires Inv(c, s) && Enabled(c, s, a) && a.PassThrows?
    ensures StrandsExactly(c, s, a)
  {
    AThrowStrandsExactly(c, s, a.p);
  }

  lemma AStartStrands(c: Config, s: State, a: Action)
    requires Inv(c, s) && Enabled(c, s, a) && a.StartRun?
    ensures StrandsExactly(c, s, a)
  {
    AThrowStrandsExactly(c, s, a.p);
    AStartHasMarkedMail(c, s, a.p);
  }

  /** Mail is stranded by a throw behind a marking or for want of an identity, and by nothing else. */
  lemma AStepStrandsExactly(c: Config, s: State, actions: seq<Action>, a: Action)
    requires Reachable(c, s, actions) && Enabled(c, s, a)
    ensures StrandsExactly(c, s, a)
  {
    ReachableKeepsInv(c, s, actions);
    if a.PassThrows? {
      AThrowStrands(c, s, a);
    } else if a.StartRun? {
      AStartStrands(c, s, a);
    } else {
      OthersStrandNothing(c, s, a);
    }
  }

  lemma Extended(c: Config, s: State, actions: seq<Action>, a: Action) returns (t: State, longer: seq<Action>)
    requires Reachable(c, s, actions) && Enabled(c, s, a)
    ensures t == Apply(c, s, a) && longer == actions + [a] && Reachable(c, t, longer)
  {
    t, longer := Apply(c, s, a), actions + [a];
    assert longer[..|longer| - 1] == actions && longer[|longer| - 1] == a;
  }

  /** A pass has come to agent i; its mail is the only one, and nobody runs. */
  predicate StandsAt(c: Config, s: State, i: nat, pass: Pass) {
    && i < |c.agents| && c.maxRuns > 0
    && s.mail == [Mail({c.agents[i]}, {})] && s.runs == [] && s.until == map[]
    && s.passes == [pass] && s.stranded == {}
  }

  predicate NothingThrown(actions: seq<Action>) {
    forall a :: a in actions ==> !a.PassThrows?
  }

  lemma Onward(c: Config, s: State, actions: seq<Action>, a: Action) returns (t: State, longer: seq<Action>)
    requires Reachable(c, s, actions) && NothingThrown(actions) && Enabled(c, s, a) && !a.PassThrows?
    ensures t == Apply(c, s, a) && Reachable(c, t, longer) && NothingThrown(longer)
  {
    t, longer := Extended(c, s, actions, a);
  }

  /** The step that takes the pass on at an agent whose mail is unread. */
  function Next(pass: Pass): Action {
    match pass
    case At(_) => Consider(0, false)
    case AskingFirst(_) => AskFirst(0)
    case AtGates(_) => PassGates(0)
    case AskingAgain(_) => AskAgain(0)
    case Listing(_) => ListUnread(0)
    case _ => MarkOne(0, 0)
  }

  function Then(i: nat, pass: Pass): Pass {
    match pass
    case At(_) => AskingFirst(i)
    case AskingFirst(_) => AtGates(i)
    case AtGates(_) => AskingAgain(i)
    case AskingAgain(_) => Listing(i)
    case _ => Marking(i, {0}, {})
  }

  lemma GoesOn(c: Config, s: State, i: nat, pass: Pass)
    requires StandsAt(c, s, i, pass)
    requires pass in {At(i), AskingFirst(i), AtGates(i), AskingAgain(i), Listing(i)}
    ensures Enabled(c, s, Next(pass)) && StandsAt(c, Apply(c, s, Next(pass)), i, Then(i, pass))
  {
    assert Unread(s.mail, 0, c.agents[i]);
    assert UnreadOf(s.mail, c.agents[i]) == {0};
  }

  lemma PassBeginsAt(c: Config, i: nat) returns (s: State, actions: seq<Action>)
    requires i < |c.agents| && c.maxRuns > 0
    ensures Reachable(c, s, actions) && NothingThrown(actions) && StandsAt(c, s, i, At(0))
  {
    s, actions := INIT, [];
    s, actions := Onward(c, s, actions, Post({c.agents[i]}));
    s, actions := Onward(c, s, actions, Request);
    s, actions := Onward(c, s, actions, Flushed(0));
  }

  /** The pass goes past the agents before, which are paused. */
  lemma {:induction false} ComesTo(c: Config, i: nat, k: nat) returns (s: State, actions: seq<Action>)
    requires i < |c.agents| && c.maxRuns > 0 && k <= i
    ensures Reachable(c, s, actions) && NothingThrown(actions) && StandsAt(c, s, i, At(k))
  {
    if k == 0 {
      s, actions := PassBeginsAt(c, i);
    } else {
      s, actions := ComesTo(c, i, k - 1);
      s, actions := Onward(c, s, actions, Consider(0, true));
    }
  }

  lemma OneOn(c: Config, s: State, actions: seq<Action>, i: nat, pass: Pass) returns (t: State, longer: seq<Action>)
    requires Reachable(c, s, actions) && NothingThrown(actions) && StandsAt(c, s, i, pass)
    requires pass in {At(i), AskingFirst(i), AtGates(i), AskingAgain(i), Listing(i)}
    ensures Reachable(c, t, longer) && NothingThrown(longer) && StandsAt(c, t, i, Then(i, pass))
  {
    GoesOn(c, s, i, pass);
    t, longer := Onward(c, s, actions, Next(pass));
  }

  lemma MarksIt(c: Config, s: State, i: nat)
    requires StandsAt(c, s, i, Marking(i, {0}, {}))
    ensures Enabled(c, s, MarkOne(0, 0))
    ensures var t := Apply(c, s, MarkOne(0, 0));
            t.passes == [Marking(i, {0}, {0})] && t.stranded == {} && t.runs == []
  {
    assert s.passes[0].marked + {0} == {0};
  }

  /** The agent's mail is marked read, and its run not started yet. */
  lemma ComesToGates(c: Config, i: nat) returns (s: State, actions: seq<Action>)
    requires i < |c.agents| && c.maxRuns > 0
    ensures Reachable(c, s, actions) && NothingThrown(actions) && StandsAt(c, s, i, AtGates(i))
  {
    s, actions := ComesTo(c, i, i);
    s, actions := OneOn(c, s, actions, i, At(i));
    s, actions := OneOn(c, s, actions, i, AskingFirst(i));
  }

  lemma ComesToList(c: Config, i: nat) returns (s: State, actions: seq<Action>)
    requires i < |c.agents| && c.maxRuns > 0
    ensures Reachable(c, s, actions) && NothingThrown(actions) && StandsAt(c, s, i, Listing(i))
  {
    s, actions := ComesToGates(c, i);
    s, actions := OneOn(c, s, actions, i, AtGates(i));
    s, actions := OneOn(c, s, actions, i, AskingAgain(i));
  }

  lemma ComesToMark(c: Config, i: nat) returns (s: State, actions: seq<Action>)
    requires i < |c.agents| && c.maxRuns > 0
    ensures Reachable(c, s, actions) && NothingThrown(actions)
    ensures s.passes == [Marking(i, {0}, {0})] && s.stranded == {} && s.runs == []
  {
    s, actions := ComesToList(c, i);
    s, actions := OneOn(c, s, actions, i, Listing(i));
    MarksIt(c, s, i);
    s, actions := Onward(c, s, actions, MarkOne(0, 0));
  }

  lemma FailingStrands(c: Config, s: State, i: nat)
    requires s.passes == [Marking(i, {0}, {0})] && s.stranded == {} && s.runs == [] && i < |c.agents|
    ensures PassFailed(s, 0, MarkedBy(c, s.passes[0])).stranded == {(0, c.agents[i])}
    ensures PassFailed(s, 0, MarkedBy(c, s.passes[0])).passes == []
  {
    assert PairsOf({0}, c.agents[i]) == {(0, c.agents[i])};
  }

  /** In every dispatcher that may start runs, a throw behind the marking strands any agent's mail. */
  lemma AThrowStrandsMail(c: Config, i: nat) returns (s: State, actions: seq<Action>)
    requires i < |c.agents| && c.maxRuns > 0
    ensures Reachable(c, s, actions)
    ensures s.stranded == {(0, c.agents[i])} && s.passes == [] && s.runs == []
  {
    s, actions := ComesToMark(c, i);
    FailingStrands(c, s, i);
    s, actions := Extended(c, s, actions, PassThrows(0));
  }

  lemma AMissingIdentityStrands(c: Config, i: nat) returns (s: State, actions: seq<Action>)
    requires i < |c.agents| && c.maxRuns > 0 && c.agents[i] !in c.identities
    ensures Reachable(c, s, actions) && NothingThrown(actions)
    ensures s.stranded == {(0, c.agents[i])} && s.passes == [] && s.runs == []
  {
    s, actions := ComesToMark(c, i);
    FailingStrands(c, s, i);
    s, actions := Onward(c, s, actions, StartRun(0));
  }

  /**
   * Mail can be stranded without any call of a pass failing if and only if some
   * agent has no identity and runs may start at all.
   */
  lemma MissingIdentitiesStrandExactly(c: Config)
    ensures (exists s, actions :: Reachable(c, s, actions) && NothingThrown(actions) && s.stranded != {}) <==>
            c.maxRuns > 0 && exists i :: 0 <= i < |c.agents| && c.agents[i] !in c.identities
  {
    if c.maxRuns > 0 && exists i :: 0 <= i < |c.agents| && c.agents[i] !in c.identities {
      var i :| 0 <= i < |c.agents| && c.agents[i] !in c.identities;
      var s, actions := AMissingIdentityStrands(c, i);
    } else {
      forall s, actions | Reachable(c, s, actions) && NothingThrown(actions) ensures s.stranded == {} {
        NothingIsStranded(c, s, actions);
      }
    }
  }

  lemma {:induction false} NothingIsStranded(c: Config, s: State, actions: seq<Action>)
    requires Reachable(c, s, actions) && NothingThrown(actions)
    requires c.maxRuns == 0 || forall i :: 0 <= i < |c.agents| ==> c.agents[i] in c.identities
    ensures s.stranded == {}
    decreases |actions|
  {
    if actions != [] {
      var a := actions[|actions| - 1];
      var before := actions[..|actions| - 1];
      var r :| Reachable(c, r, before) && Enabled(c, r, a) && s == Apply(c, r, a);
      assert a in actions;
      NothingIsStranded(c, r, before);
      AStepStrandsExactly(c, r, before, a);
      if a.StartRun? {
        ReachableKeepsInv(c, r, before);
        AStartHasMarkedMail(c, r, a.p);
      }
    }
  }

  /** One active run per agent, never more runs than allowed. */
  lemma RunsAreBounded(c: Config, s: State, actions: seq<Action>, i: nat, j: nat)
    requires Reachable(c, s, actions)
    ensures |s.runs| <= c.maxRuns
    ensures i < j < |s.runs| && s.runs[i].active && s.runs[j].active ==> s.runs[i].agent != s.runs[j].agent
  {
    ReachableKeepsInv(c, s, actions);
  }

  /** No run starts before the cooldown its agent's last error set has ended. */
  lemma CooldownIsRespected(c: Config, s: State, actions: seq<Action>, p: nat)
    requires Reachable(c, s, actions) && Enabled(c, s, StartRun(p))
    ensures var a := c.agents[s.passes[p].i];
            && !Active(s.runs, a)
            && (a in s.lastCooldown ==> s.lastCooldown[a] <= s.now)
            && s.passes[p].batch != {}
  {
    ReachableKeepsInv(c, s, actions);
    assert PassOk(c, s, s.passes[p]);
  }

  /**
   * No request is lost: each is served by a pass that began after it, or waits
   * for the pass in flight to go round again, or was dropped by a pass that threw;
   * and a pass in flight goes round again only for a request that waits.
   */
  lemma EveryRequestIsAccountedFor(c: Config, s: State, actions: seq<Action>)
    requires Reachable(c, s, actions)
    ensures s.requests == s.served + s.unserved + s.droppedRequests
    ensures s.unserved > 0 ==> |s.passes| == 1
    ensures |s.passes| == 1 ==> (s.dispatchAgainRequested <==> s.unserved > 0)
    ensures s.passes == [] ==> s.requests == s.served + s.droppedRequests
  {
    ReachableKeepsInv(c, s, actions);
  }

  lemma FlightOf(c: Config, s: State, actions: seq<Action>)
    requires Reachable(c, s, actions)
    ensures FlightOk(s)
  {
    ReachableKeepsInv(c, s, actions);
  }

  lemma ServedHere(c: Config, s: State, a: Action)
    requires FlightOk(s) && Enabled(c, s, a) && Apply(c, s, a).served > s.served
    ensures Apply(c, s, a).passes == [Flushing] && Apply(c, s, a).unserved == 0
  {
  }

  lemma DroppedHere(c: Config, s: State, a: Action)
    requires FlightOk(s) && Enabled(c, s, a) && Apply(c, s, a).droppedRequests > s.droppedRequests
    ensures a.PassThrows? || (a.StartRun? && c.agents[s.passes[a.p].i] !in c.identities)
  {
  }

  /** Requests are served only by a pass that begins, and dropped only by one that throws. */
  lemma OnlyAPassServes(c: Config, s: State, actions: seq<Action>, a: Action)
    requires Reachable(c, s, actions) && Enabled(c, s, a)
    ensures Apply(c, s, a).served > s.served ==> Apply(c, s, a).passes == [Flushing] && Apply(c, s, a).unserved == 0
    ensures Apply(c, s, a).droppedRequests > s.droppedRequests ==>
              a.PassThrows? || (a.StartRun? && c.agents[s.passes[a.p].i] !in c.identities)
  {
    FlightOf(c, s, actions);
    if Apply(c, s, a).served > s.served {
      ServedHere(c, s, a);
    }
    if Apply(c, s, a).droppedRequests > s.droppedRequests {
      DroppedHere(c, s, a);
    }
  }

  // ------------------------------------------------------------------ back-off

  function Min(a: nat, b: nat): nat {
    if a < b then a else b
  }

  function Max(a: nat, b: nat): nat {
    if a > b then a else b
  }

  /** `failureBackoffMs`; `retryAfter` is the provider's, in seconds, 0 for none. */
  function FailureBackoff(failures: int, retryAfter: nat, base: nat, max: nat): nat {
    var exp := Min(base * Pow2(if failures > 0 then failures - 1 else 0), max);
    Max(exp, Min(retryAfter * 1000, 2 * max))
  }

  lemma Scale(base: nat, x: nat, y: nat)
    requires x <= y
    ensures base * x <= base * y
  {
  }

  /**
   * Longer with every failure, at least the base or the maximum, at most twice the
   * maximum, and the provider's wish within it.
   */
  lemma BackoffIsBoundedAndMonotone(failures: int, more: int, retryAfter: nat, base: nat, max: nat)
    requires failures <= more
    ensures Min(base, max) <= FailureBackoff(failures, retryAfter, base, max) <= 2 * max
    ensures FailureBackoff(failures, retryAfter, base, max) <= FailureBackoff(more, retryAfter, base, max)
    ensures retryAfter * 1000 <= 2 * max ==> FailureBackoff(failures, retryAfter, base, max) >= retryAfter * 1000
  {
    var m, n := if failures > 0 then failures - 1 else 0, if more > 0 then more - 1 else 0;
    Pow2Grows(m, n);
    Scale(base, Pow2(m), Pow2(n));
    Scale(base, 1, Pow2(m));
  }

  lemma Doubled(base: nat, x: nat)
    ensures base * (2 * x) == 2 * (base * x)
  {
  }

  /** The first failure waits the base, each further one twice as long, up to the maximum. */
  lemma BackoffDoubles(failures: nat, base: nat, max: nat)
    requires failures >= 1
    ensures FailureBackoff(1, 0, base, max) == if base < max then base else max
    ensures var wait := FailureBackoff(failures, 0, base, max);
            FailureBackoff(failures + 1, 0, base, max) == if 2 * wait < max then 2 * wait else max
  {
    assert Pow2(0) == 1 && Pow2(failures) == 2 * Pow2(failures - 1);
    Doubled(base, Pow2(failures - 1));
  }

  /** The provider's wish counts when it is longer, up to twice the maximum. */
  lemma TheProvidersWishCounts(failures: int, retryAfter: nat, base: nat, max: nat)
    ensures var wait, wish := FailureBackoff(failures, 0, base, max), FailureBackoff(failures, retryAfter, base, max);
            if retryAfter * 1000 <= wait then wish == wait
            else if retryAfter * 1000 <= 2 * max then wish == retryAfter * 1000 else wish == 2 * max
  {
    Scale(base, 0, Pow2(if failures > 0 then failures - 1 else 0));
  }

  /** An error sets the cooldown of its agent from now on; any other reply ends it. */
  lemma RepliesSetTheCooldown(c: Config, s: State, r: nat, cooldown: nat)
    requires r < |s.runs| && s.runs[r].active
    ensures Enabled(c, s, NoteError(r, cooldown)) && Enabled(c, s, NoteSuccess(r))
    ensures Apply(c, s, NoteError(r, cooldown)).until == s.until[s.runs[r].agent := s.now + cooldown]
    ensures Apply(c, s, NoteSuccess(r)).until == s.until - {s.runs[r].agent}
  {
  }
}
