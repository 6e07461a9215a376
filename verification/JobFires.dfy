/**
 * Job ids of cron fires (schedule-ingest.ts, `jobFireId`) against the spool's id rule
 * (job-recovery.ts, `JOB_ID_RE`).
 */
module JobFireIds {
  /** The largest time value a JavaScript Date holds, in milliseconds. */
  const MAX_DATE_MS := 8_640_000_000_000_000

  predicate IsDigit(c: char) { '0' <= c <= '9' }

  predicate IsAlnum(c: char) { IsDigit(c) || 'a' <= c <= 'z' || 'A' <= c <= 'Z' }

  /** SCHEDULE_LABEL_RE. */
  predicate IsLabel(s: string) {
    && 1 <= |s| <= 64
    && (IsDigit(s[0]) || 'a' <= s[0] <= 'z')
    && forall i :: 0 <= i < |s| ==> IsDigit(s[i]) || 'a' <= s[i] <= 'z' || s[i] in {'.', '_', '-'}
  }

  /** JOB_ID_RE. */
  predicate IsJobId(s: string) {
    && 1 <= |s| <= 81
    && IsAlnum(s[0])
    && forall i :: 0 <= i < |s| ==> IsAlnum(s[i]) || s[i] in {'_', '-'}
  }

  const DIGITS: string := "0123456789"

  function Digits(n: nat): (s: string)
    ensures |s| >= 1 && forall i :: 0 <= i < |s| ==> IsDigit(s[i])
  {
    if n < 10 then [DIGITS[n]] else Digits(n / 10) + [DIGITS[n % 10]]
  }

  function Decimal(n: int): string {
    if n < 0 then "-" + Digits(-n) else Digits(n)
  }

  /** `label.replace(/\./g, "_")`. */
  function Underscored(name: string): (s: string)
    ensures |s| == |name|
    ensures forall i :: 0 <= i < |s| ==> s[i] == if name[i] == '.' then '_' else name[i]
  {
    if name == "" then "" else [if name[0] == '.' then '_' else name[0]] + Underscored(name[1..])
  }

  function JobFireId(name: string, dueAt: int): string {
    Underscored(name) + "-" + Decimal(dueAt)
  }

  function Pow10(k: nat): nat {
    if k == 0 then 1 else 10 * Pow10(k - 1)
  }

  lemma {:induction false} DigitsLength(n: nat, k: nat)
    requires 1 <= k && n < Pow10(k)
    ensures |Digits(n)| <= k
  {
    if n >= 10 {
      DigitsLength(n / 10, k - 1);
    }
  }

  lemma {:induction false} DigitsInjective(a: nat, b: nat)
    requires Digits(a) == Digits(b)
    ensures a == b
  {
    var s, t := Digits(a), Digits(b);
    if a >= 10 && b >= 10 {
      assert s[..|s| - 1] == Digits(a / 10) && t[..|t| - 1] == Digits(b / 10);
      DigitsInjective(a / 10, b / 10);
      assert s[|s| - 1] == DIGITS[a % 10] && t[|t| - 1] == DIGITS[b % 10];
    } else {
      assert |s| == 1 <==> a < 10;
      assert |t| == 1 <==> b < 10;
    }
  }

  /** A fire's id is a job id exactly when it fits in the 81 characters. */
  lemma FireIdIsJobId(name: string, dueAt: int)
    requires IsLabel(name)
    ensures IsJobId(JobFireId(name, dueAt)) <==> |name| + 1 + |Decimal(dueAt)| <= 81
  {
    var s := JobFireId(name, dueAt);
    var n := |name|;
    assert s[0] == Underscored(name)[0];
    forall i | 0 <= i < |s| ensures IsAlnum(s[i]) || s[i] in {'_', '-'} {
      if i < n {
        assert s[i] == Underscored(name)[i];
      } else if i > n {
        assert s[i] == Decimal(dueAt)[i - n - 1];
      } else {
        assert s[i] == '-';
      }
    }
  }

  /** For every name and every date from 1970 on, it fits. */
  lemma FireIdFits(name: string, dueAt: int)
    requires IsLabel(name) && 0 <= dueAt <= MAX_DATE_MS
    ensures IsJobId(JobFireId(name, dueAt))
  {
    assert Pow10(2) == 100 && Pow10(4) == 10_000 && Pow10(6) == 1_000_000 && Pow10(8) == 100_000_000;
    assert Pow10(10) == 10_000_000_000 && Pow10(12) == 1_000_000_000_000;
    assert Pow10(14) == 100_000_000_000_000 && Pow10(16) == 10_000_000_000_000_000;
    DigitsLength(dueAt, 16);
    FireIdIsJobId(name, dueAt);
  }

  lemma NoDashAfter(a: string, n: nat)
    ensures var s := a + "-" + Digits(n);
            forall i :: |a| < i < |s| ==> s[i] != '-'
  {
    var s := a + "-" + Digits(n);
    forall i | |a| < i < |s| ensures s[i] != '-' {
      assert s[i] == Digits(n)[i - |a| - 1];
    }
  }

  lemma LastDash(a: string, m: nat, b: string, n: nat)
    requires a + "-" + Digits(m) == b + "-" + Digits(n)
    ensures a == b && m == n
  {
    var s, t := a + "-" + Digits(m), b + "-" + Digits(n);
    assert s[|a|] == '-' && t[|b|] == '-';
    NoDashAfter(a, m);
    NoDashAfter(b, n);
    assert a == s[..|a|] && b == t[..|b|];
    assert Digits(m) == s[|a| + 1..] && Digits(n) == t[|b| + 1..];
    DigitsInjective(m, n);
  }

  /**
   * Two fires share an id exactly when they are due together and their labels differ at
   * most in dots and underscores.
   */
  lemma FireIdsCollide(l1: string, d1: nat, l2: string, d2: nat)
    ensures JobFireId(l1, d1) == JobFireId(l2, d2) <==> d1 == d2 && Underscored(l1) == Underscored(l2)
  {
    if JobFireId(l1, d1) == JobFireId(l2, d2) {
      LastDash(Underscored(l1), d1, Underscored(l2), d2);
    }
  }

  /** "a.b" and "a_b" are different schedules whose fires at one instant map to one job. */
  lemma DottedLabelsCollide(dueAt: nat)
    ensures "a.b" != "a_b" && IsLabel("a.b") && IsLabel("a_b")
    ensures JobFireId("a.b", dueAt) == JobFireId("a_b", dueAt)
  {
    var dotted, underscored := "a.b", "a_b";
    assert dotted[1] != underscored[1];
    assert Underscored("a.b") == Underscored("a_b");
  }
}

/**
 * Cron fires becoming queued jobs (schedule-ingest.ts, `claimJobFires`) over the
 * job spool: a stamp on the schedule document, one exclusive enqueue, and a
 * compare-and-set acknowledgement, with crashes and failed acknowledgements
 * anywhere and any number of ticks in flight.
 */
module JobFires {
  import opened JobSpool
  import opened JobFireIds

  const MAX_JOB_FIRE_LATENESS_MS := 6 * 3_600_000

  datatype Fire = Fire(name: string, dueAt: nat)

  datatype State = State(
    spool: Spool,
    stamps: map<string, nat>,  // pendingFire.dueAt of each name's document
    read: set<Fire>,           // documents a running tick has read, not yet handled
    handled: set<Fire>,        // handled, acknowledgement outstanding
    late: set<Fire>,           // history: fires skipped as late
    queuedFor: seq<Fire>,      // history: fires whose handling queued a job, each time it did
    others: set<Id>,           // history: ids under which agents submitted or restarts queued jobs
    stamped: set<string>)      // history: names ever stamped

  datatype Event =
    | Job(a: Action)
    | Stamp(name: string, dueAt: nat)   // the control plane's scheduler
    | Clear(name: string)               // an operator's cancel, or a re-arm of the schedule
    | Read(name: string)
    | Handle(f: Fire, now: int)
    | Ack(f: Fire)
    | AckFails(f: Fire)

  function IdOf(f: Fire): Id { Id(JobFireId(f.name, f.dueAt)) }

  /** `alreadyFired`: the job is in one of the private directories. */
  predicate AlreadyFired(s: Spool, x: Id) {
    x in s.queue || x in s.running || x in s.status || x in s.failed
  }

  /** The id under which somebody else's job enters the spool. */
  function Entering(a: Action): set<Id> {
    if a.Submit? || a.Enqueue? then {a.id} else {}
  }

  predicate IsLate(f: Fire, now: int) { now - f.dueAt > MAX_JOB_FIRE_LATENESS_MS }

  ghost predicate Can(s: State, e: Event) {
    match e
    // Agents submit under any id, fire ids included.
    case Job(a) => Enabled(s.spool, a)
    case Stamp(_, _) => true
    case Clear(_) => true
    case Read(l) => l in s.stamps
    case Handle(f, _) => f in s.read && s.spool.phase.Idle?
    case Ack(f) => f in s.handled
    case AckFails(f) => f in s.handled
  }

  ghost function Do(s: State, e: Event): State
    requires Can(s, e)
  {
    match e
    case Job(Crash) => s.(spool := Apply(s.spool, Crash), read := {}, handled := {})
    case Job(a) => s.(spool := Apply(s.spool, a), others := s.others + Entering(a))
    case Stamp(l, d) => s.(stamps := s.stamps[l := d], stamped := s.stamped + {l})
    case Clear(l) => s.(stamps := s.stamps - {l})
    case Read(l) => s.(read := s.read + {Fire(l, s.stamps[l])})
    case Handle(f, now) =>
      var t := s.(read := s.read - {f}, handled := s.handled + {f});
      if IsLate(f, now) then t.(late := t.late + {f})
      else if AlreadyFired(s.spool, IdOf(f)) then t
      else t.(spool := Apply(s.spool, Enqueue(IdOf(f), 0)), queuedFor := s.queuedFor + [f])
    case Ack(f) =>
      s.(handled := s.handled - {f},
         stamps := if f.name in s.stamps && s.stamps[f.name] == f.dueAt then s.stamps - {f.name} else s.stamps)
    case AckFails(f) => s.(handled := s.handled - {f})
  }

  // ------------------------------------------------------------------ invariant

  /** How often the handling of a fire with this id queued a job. */
  function TimesQueued(queuedFor: seq<Fire>, x: Id): nat {
    if queuedFor == [] then 0
    else
      var last := |queuedFor| - 1;
      TimesQueued(queuedFor[..last], x) + if IdOf(queuedFor[last]) == x then 1 else 0
  }

  function Refusals(refusals: seq<Id>, x: Id): nat {
    if refusals == [] then 0
    else Refusals(refusals[..|refusals| - 1], x) + if refusals[|refusals| - 1] == x then 1 else 0
  }

  ghost predicate FireOk(s: Spool, queuedFor: seq<Fire>, x: Id) {
    TimesQueued(queuedFor, x) <= Refusals(s.refusals, x) + if AlreadyFired(s, x) then 1 else 0
  }

  ghost predicate QueuedFor(queuedFor: seq<Fire>, x: Id) {
    exists g :: g in queuedFor && IdOf(g) == x
  }

  /** A job under this id was queued for a fire, submitted, or restarted. */
  ghost predicate Known(s: State, x: Id) {
    QueuedFor(s.queuedFor, x) || x in s.others
  }

  /** This very fire was queued, or skipped as late. */
  predicate Settled(s: State, f: Fire) {
    f in s.late || f in s.queuedFor
  }

  ghost predicate NamesOk(s: State) {
    && s.stamps.Keys <= s.stamped
    && (forall f :: f in s.read || f in s.handled || f in s.queuedFor ==> f.name in s.stamped)
  }

  ghost predicate FireInv(s: State) {
    && Inv(s.spool) && s.spool.pending.Keys <= s.others
    && (forall x :: FireOk(s.spool, s.queuedFor, x))
    && (forall x :: AlreadyFired(s.spool, x) ==> Known(s, x))
    && (forall f :: f in s.handled ==> f in s.late || Known(s, IdOf(f)))
    && NamesOk(s)
  }

  lemma TimesQueuedAppend(queuedFor: seq<Fire>, f: Fire, x: Id)
    ensures TimesQueued(queuedFor + [f], x) == TimesQueued(queuedFor, x) + if IdOf(f) == x then 1 else 0
  {
    assert (queuedFor + [f])[..|queuedFor|] == queuedFor;
  }

  lemma RefusalsAppend(refusals: seq<Id>, last: Id, x: Id)
    ensures Refusals(refusals + [last], x) == Refusals(refusals, x) + if last == x then 1 else 0
  {
    assert (refusals + [last])[..|refusals|] == refusals;
  }

  /** Every step but a refusal leaves a job that is in the private directories there. */
  lemma OnlyARefusalErasesAJob(s: Spool, a: Action, x: Id)
    requires Inv(s) && Enabled(s, a) && AlreadyFired(s, x)
    ensures AlreadyFired(Apply(s, a), x) || (a.Refuse? && s.phase.cands[0].id == x)
  {
    assert PhaseOk(s) && IdOk(s, x);
  }

  /** A job enters the private directories only by being queued there, or claimed from pending. */
  lemma OnlyEntryCreatesAJob(s: Spool, a: Action, x: Id)
    requires Inv(s) && Enabled(s, a) && AlreadyFired(Apply(s, a), x)
    ensures AlreadyFired(s, x) || x in s.pending || (a.Enqueue? && a.id == x)
  {
    assert PhaseOk(s);
  }

  lemma RefusalsOfStep(s: Spool, a: Action, x: Id)
    requires Enabled(s, a)
    ensures Refusals(Apply(s, a).refusals, x) ==
              Refusals(s.refusals, x) + if a.Refuse? && s.phase.cands[0].id == x then 1 else 0
  {
    if a.Refuse? {
      RefusalsAppend(s.refusals, s.phase.cands[0].id, x);
    }
  }

  lemma SpoolStepKeepsFire(s: Spool, a: Action, queuedFor: seq<Fire>, x: Id)
    requires Inv(s) && FireOk(s, queuedFor, x) && Enabled(s, a)
    ensures FireOk(Apply(s, a), queuedFor, x)
  {
    RefusalsOfStep(s, a, x);
    if AlreadyFired(s, x) {
      OnlyARefusalErasesAJob(s, a, x);
    }
  }

  lemma PendingIsSubmitted(s: Spool, a: Action)
    requires Enabled(s, a)
    ensures Apply(s, a).pending.Keys <= s.pending.Keys + Entering(a)
  {
  }

  lemma KnownGrows(s: State, t: State, x: Id)
    requires Known(s, x) && s.others <= t.others && s.queuedFor <= t.queuedFor
    ensures Known(t, x)
  {
    if QueuedFor(s.queuedFor, x) {
      var g :| g in s.queuedFor && IdOf(g) == x;
      assert g in t.queuedFor;
    }
  }

  lemma SpoolStepKeepsFires(s: State, a: Action)
    requires FireInv(s) && Can(s, Job(a))
    ensures FireInv(Do(s, Job(a)))
  {
    var t := Do(s, Job(a));
    StepKeepsInv(s.spool, a);
    PendingIsSubmitted(s.spool, a);
    forall x ensures FireOk(t.spool, t.queuedFor, x) {
      SpoolStepKeepsFire(s.spool, a, s.queuedFor, x);
    }
    forall x | AlreadyFired(t.spool, x) ensures Known(t, x) {
      OnlyEntryCreatesAJob(s.spool, a, x);
      if AlreadyFired(s.spool, x) {
        KnownGrows(s, t, x);
      }
    }
    forall f | f in t.handled ensures f in t.late || Known(t, IdOf(f)) {
      if f !in s.late {
        KnownGrows(s, t, IdOf(f));
      }
    }
  }

  lemma QueueingKeepsCounts(s: State, f: Fire, x: Id)
    requires FireInv(s) && s.spool.phase.Idle? && !AlreadyFired(s.spool, IdOf(f))
    ensures FireOk(Apply(s.spool, Enqueue(IdOf(f), 0)), s.queuedFor + [f], x)
  {
    TimesQueuedAppend(s.queuedFor, f, x);
    assert FireOk(s.spool, s.queuedFor, x);
  }

  lemma HandlingKeepsFires(s: State, f: Fire, now: int)
    requires FireInv(s) && Can(s, Handle(f, now)) && !IsLate(f, now) && !AlreadyFired(s.spool, IdOf(f))
    ensures FireInv(Do(s, Handle(f, now)))
  {
    var t := Do(s, Handle(f, now));
    assert f in t.queuedFor && Known(t, IdOf(f));
    StepKeepsInv(s.spool, Enqueue(IdOf(f), 0));
    forall x ensures FireOk(t.spool, t.queuedFor, x) {
      QueueingKeepsCounts(s, f, x);
    }
    forall x | AlreadyFired(t.spool, x) ensures Known(t, x) {
      if x != IdOf(f) {
        assert AlreadyFired(s.spool, x);
        KnownGrows(s, t, x);
      }
    }
    forall g | g in t.handled ensures g in t.late || Known(t, IdOf(g)) {
      if g != f && g !in s.late {
        KnownGrows(s, t, IdOf(g));
      }
    }
  }

  lemma StepKeepsFires(s: State, e: Event)
    requires FireInv(s) && Can(s, e)
    ensures FireInv(Do(s, e))
  {
    match e
    case Job(a) => SpoolStepKeepsFires(s, a);
    case Handle(f, now) =>
      if !IsLate(f, now) && !AlreadyFired(s.spool, IdOf(f)) {
        HandlingKeepsFires(s, f, now);
      } else {
        assert !IsLate(f, now) ==> Known(s, IdOf(f));
      }
    case _ =>
  }

  // ------------------------------------------------------------------ runs

  const START := State(EMPTY, map[], {}, {}, {}, [], {}, {})

  ghost predicate Legal(s: State, run: seq<Event>)
    decreases |run|
  {
    run != [] ==> Can(s, run[0]) && Legal(Do(s, run[0]), run[1..])
  }

  ghost function End(s: State, run: seq<Event>): State
    requires Legal(s, run)
    decreases |run|
  {
    if run == [] then s else End(Do(s, run[0]), run[1..])
  }

  ghost predicate Reachable(s: State) {
    exists run :: Legal(START, run) && End(START, run) == s
  }

  lemma {:induction false} RunKeepsFires(s: State, run: seq<Event>)
    requires FireInv(s) && Legal(s, run)
    ensures FireInv(End(s, run))
    decreases |run|
  {
    if run != [] {
      StepKeepsFires(s, run[0]);
      RunKeepsFires(Do(s, run[0]), run[1..]);
    }
  }

  lemma ReachableKeepsFires(s: State)
    requires Reachable(s)
    ensures FireInv(s)
  {
    var run :| Legal(START, run) && End(START, run) == s;
    RunKeepsFires(START, run);
  }

  /**
   * Over every run (crashes, failed acknowledgements, racing ticks, repeated
   * stamps, submissions under any id), the job of a fire is queued at most once more
   * often than a job of its id was refused: at most once when none is.
   */
  lemma AFireIsQueuedOnce(s: State, f: Fire)
    requires Reachable(s)
    ensures TimesQueued(s.queuedFor, IdOf(f)) <= 1 + Refusals(s.spool.refusals, IdOf(f))
  {
    ReachableKeepsFires(s);
    assert FireOk(s.spool, s.queuedFor, IdOf(f));
  }

  /** The event handles a fire that is not late and whose job is not known. */
  predicate Queues(s: State, e: Event) {
    e.Handle? && !IsLate(e.f, e.now) && !AlreadyFired(s.spool, IdOf(e.f))
  }

  lemma SpoolOfStep(s: State, e: Event)
    requires Can(s, e)
    ensures e.Job? ==> Do(s, e).spool == Apply(s.spool, e.a)
    ensures Queues(s, e) ==> Enabled(s.spool, Enqueue(IdOf(e.f), 0))
                             && Do(s, e).spool == Apply(s.spool, Enqueue(IdOf(e.f), 0))
    ensures !e.Job? && !Queues(s, e) ==> Do(s, e).spool == s.spool
    ensures Do(s, e).queuedFor == s.queuedFor + if Queues(s, e) then [e.f] else []
  {
  }

  lemma KnownStepStaysKnown(s: State, e: Event, x: Id)
    requires FireInv(s) && Can(s, e) && AlreadyFired(s.spool, x)
    ensures Refusals(Do(s, e).spool.refusals, x) >= Refusals(s.spool.refusals, x)
    ensures Refusals(Do(s, e).spool.refusals, x) == Refusals(s.spool.refusals, x) ==> AlreadyFired(Do(s, e).spool, x)
    ensures TimesQueued(Do(s, e).queuedFor, x) == TimesQueued(s.queuedFor, x)
  {
    SpoolOfStep(s, e);
    if e.Job? {
      RefusalsOfStep(s.spool, e.a, x);
      OnlyARefusalErasesAJob(s.spool, e.a, x);
    } else if Queues(s, e) {
      TimesQueuedAppend(s.queuedFor, e.f, x);
    }
  }

  lemma {:induction false} KnownStaysKnown(s: State, run: seq<Event>, x: Id)
    requires FireInv(s) && Legal(s, run) && AlreadyFired(s.spool, x)
    ensures Refusals(End(s, run).spool.refusals, x) == Refusals(s.spool.refusals, x) ==>
              AlreadyFired(End(s, run).spool, x) && TimesQueued(End(s, run).queuedFor, x) == TimesQueued(s.queuedFor, x)
    decreases |run|
  {
    if run != [] {
      var t := Do(s, run[0]);
      StepKeepsFires(s, run[0]);
      KnownStepStaysKnown(s, run[0], x);
      RefusalsGrow(t, run[1..], x);
      if AlreadyFired(t.spool, x) {
        KnownStaysKnown(t, run[1..], x);
      }
    }
  }

  lemma {:induction false} RefusalsGrow(s: State, run: seq<Event>, x: Id)
    requires Legal(s, run)
    ensures Refusals(End(s, run).spool.refusals, x) >= Refusals(s.spool.refusals, x)
    decreases |run|
  {
    if run != [] {
      if run[0].Job? {
        RefusalsOfStep(s.spool, run[0].a, x);
      }
      RefusalsGrow(Do(s, run[0]), run[1..], x);
    }
  }

  /**
   * Once a job of a fire's id is known (queued, running, failed out or done), no later
   * run queues the fire, whatever crashes, ticks, stamps and submissions it holds,
   * short of a refusal of that job.
   */
  lemma AKnownFireIsNotQueuedAgain(s: State, run: seq<Event>, f: Fire)
    requires Reachable(s) && AlreadyFired(s.spool, IdOf(f)) && Legal(s, run)
    requires Refusals(End(s, run).spool.refusals, IdOf(f)) == Refusals(s.spool.refusals, IdOf(f))
    ensures AlreadyFired(End(s, run).spool, IdOf(f))
    ensures TimesQueued(End(s, run).queuedFor, IdOf(f)) == TimesQueued(s.queuedFor, IdOf(f))
  {
    ReachableKeepsFires(s);
    KnownStaysKnown(s, run, IdOf(f));
  }

  /** A fire of another schedule, due at the same time, whose name differs in dots and underscores only. */
  predicate Twins(f: Fire, g: Fire) {
    g.name != f.name && g.dueAt == f.dueAt && Underscored(g.name) == Underscored(f.name)
  }

  /** Of two fires with one id, this one's twin was queued, or a job under the id came from somebody else. */
  ghost predicate StoodFor(s: State, f: Fire) {
    IdOf(f) in s.others || exists g :: g in s.queuedFor && Twins(f, g) && g.name in s.stamped
  }

  /**
   * A stamp disappears only when an operator or a re-arm clears it, or when an
   * acknowledgement finds that very stamp still there, and its fire queued or skipped
   * as late, or a twin's queued, or a job under its id submitted by an agent or queued
   * by a restart; a newer stamp survives.
   */
  lemma AStampIsClearedOnlyOnceSettled(s: State, e: Event, name: string)
    requires Reachable(s) && Can(s, e) && name in s.stamps
    ensures var f := Fire(name, s.stamps[name]);
            || (name in Do(s, e).stamps && (Do(s, e).stamps[name] == s.stamps[name] || e.Stamp?))
            || e == Clear(name)
            || (e == Ack(f) && (Settled(s, f) || StoodFor(s, f)))
  {
    ReachableKeepsFires(s);
    if e.Ack? && name !in Do(s, e).stamps {
      assert e.f == Fire(name, s.stamps[name]);
      HandledIsSettledOrStoodFor(s, e.f);
    }
  }

  lemma HandledIsSettledOrStoodFor(s: State, f: Fire)
    requires FireInv(s) && f in s.handled
    ensures Settled(s, f) || StoodFor(s, f)
  {
    if !Settled(s, f) && IdOf(f) !in s.others {
      assert Known(s, IdOf(f));
      var g :| g in s.queuedFor && IdOf(g) == IdOf(f);
      FireIdsCollide(g.name, g.dueAt, f.name, f.dueAt);
      assert Twins(f, g);
    }
  }

  /** No two of these names differ in dots and underscores only. */
  predicate Apart(names: set<string>) {
    forall a, b :: a in names && b in names && a != b ==> Underscored(a) != Underscored(b)
  }

  /** None of these ids is that of a fire of one of these names. */
  ghost predicate NoFireIds(names: set<string>, ids: iset<Id>) {
    forall f: Fire :: f.name in names ==> IdOf(f) !in ids
  }

  ghost predicate Within(s: State, names: set<string>, ids: iset<Id>) {
    s.stamped <= names && forall x :: x in s.others ==> x in ids
  }

  /**
   * Whatever is acknowledged was itself queued, or skipped as late, in every run over
   * schedules of these names with jobs submitted and restarted under these ids.
   */
  ghost predicate EveryFireIsItsOwn(names: set<string>, ids: iset<Id>) {
    forall s, f :: Reachable(s) && Within(s, names, ids) && f in s.handled ==> Settled(s, f)
  }

  /**
   * A fire is acknowledged on its own account if and only if no two schedules' names
   * differ in dots and underscores only, and nobody else uses the id of a fire.
   */
  lemma FiresAreTheirOwnExactlyWhenApart(names: set<string>, ids: iset<Id>)
    ensures EveryFireIsItsOwn(names, ids) <==> Apart(names) && NoFireIds(names, ids)
  {
    if !Apart(names) {
      var a, b :| a in names && b in names && a != b && Underscored(a) == Underscored(b);
      var s := ATwinIsAcknowledged(a, b, 0);
      assert Within(s, names, ids);
    } else if !NoFireIds(names, ids) {
      var f: Fire :| f.name in names && IdOf(f) in ids;
      var s := ASubmissionStandsForAFire(f);
      assert Within(s, names, ids);
    } else {
      forall s, f | Reachable(s) && Within(s, names, ids) && f in s.handled ensures Settled(s, f) {
        ReachableKeepsFires(s);
        HandledIsSettledOrStoodFor(s, f);
      }
    }
  }

  // A refused job leaves no trace, so a fire whose acknowledgement failed is queued a second time.

  lemma {:induction false} RunThen(s: State, first: seq<Event>, last: Event)
    requires Legal(s, first) && Can(End(s, first), last)
    ensures Legal(s, first + [last]) && End(s, first + [last]) == Do(End(s, first), last)
    decreases |first|
  {
    if first == [] {
      assert first + [last] == [last];
      assert Legal(Do(s, last), []) && [last][1..] == [];
    } else {
      RunThen(Do(s, first[0]), first[1..], last);
      assert (first + [last])[1..] == first[1..] + [last];
    }
  }

  lemma Next(s: State, e: Event) returns (t: State)
    requires Reachable(s) && Can(s, e)
    ensures Reachable(t) && t == Do(s, e)
  {
    var run :| Legal(START, run) && End(START, run) == s;
    RunThen(START, run, e);
    t := Do(s, e);
  }

  lemma BothStamped(a: string, b: string, dueAt: nat) returns (s: State)
    requires a != b
    ensures Reachable(s) && s.spool.phase.Idle? && !AlreadyFired(s.spool, IdOf(Fire(a, dueAt)))
    ensures s.stamps == map[a := dueAt, b := dueAt] && s.stamped == {a, b}
    ensures s.read == {} && s.handled == {} && s.late == {} && s.queuedFor == [] && s.others == {}
  {
    assert Legal(START, []) && End(START, []) == START;
    s := Next(START, Job(Boot([])));
    s := Next(s, Job(Recovered));
    s := Next(s, Stamp(a, dueAt));
    s := Next(s, Stamp(b, dueAt));
  }

  /** The twin's job stands for this fire's: it is acknowledged, and its stamp cleared, with no job of its own. */
  lemma ATwinIsAcknowledged(a: string, b: string, dueAt: nat) returns (s: State)
    requires a != b && Underscored(a) == Underscored(b)
    ensures Reachable(s) && s.stamped == {a, b} && s.others == {}
    ensures s.queuedFor == [Fire(a, dueAt)] && s.late == {}
    ensures Fire(b, dueAt) in s.handled && b in s.stamps
    ensures b !in Do(s, Ack(Fire(b, dueAt))).stamps
  {
    var f, g := Fire(a, dueAt), Fire(b, dueAt);
    SameId(a, b, dueAt);
    s := BothStamped(a, b, dueAt);
    s := BothRead(s, a, b, dueAt);
    s := QueueingNew(s, f);
    s := HandlingKnown(s, g);
    AckClears(s, g);
  }

  lemma SameId(a: string, b: string, dueAt: nat)
    requires Underscored(a) == Underscored(b)
    ensures IdOf(Fire(a, dueAt)) == IdOf(Fire(b, dueAt))
  {
    FireIdsCollide(a, dueAt, b, dueAt);
  }

  lemma AckClears(s: State, f: Fire)
    requires f in s.handled && f.name in s.stamps && s.stamps[f.name] == f.dueAt
    ensures f.name !in Do(s, Ack(f)).stamps
  {
  }

  lemma QueueingNew(s: State, f: Fire) returns (t: State)
    requires Reachable(s) && f in s.read && s.spool.phase.Idle? && !AlreadyFired(s.spool, IdOf(f))
    ensures Reachable(t) && t.spool.phase.Idle? && AlreadyFired(t.spool, IdOf(f))
    ensures t == s.(spool := t.spool, read := s.read - {f}, handled := s.handled + {f}, queuedFor := s.queuedFor + [f])
  {
    t := Next(s, Handle(f, f.dueAt));
  }

  lemma HandlingKnown(s: State, f: Fire) returns (t: State)
    requires Reachable(s) && f in s.read && s.spool.phase.Idle? && AlreadyFired(s.spool, IdOf(f))
    ensures Reachable(t) && t == s.(read := s.read - {f}, handled := s.handled + {f})
  {
    t := Next(s, Handle(f, f.dueAt));
  }

  lemma BothRead(s: State, a: string, b: string, dueAt: nat) returns (t: State)
    requires Reachable(s) && a != b && s.stamps == map[a := dueAt, b := dueAt]
    ensures Reachable(t) && t == s.(read := s.read + {Fire(a, dueAt), Fire(b, dueAt)})
  {
    t := Next(s, Read(a));
    t := Next(t, Read(b));
    assert t.read == s.read + {Fire(a, dueAt), Fire(b, dueAt)};
  }

  /** Idle, nothing in the spool, the fire stamped and no tick under way. */
  ghost predicate Ready(s: State, f: Fire) {
    && s.spool.phase.Idle? && s.spool.procs == {}
    && s.spool.pending == map[] && s.spool.queue == map[] && s.spool.running == map[]
    && s.spool.status == {} && s.spool.failed == map[]
    && s.stamps == map[f.name := f.dueAt] && s.read == {} && s.handled == {}
    && s.stamped == {f.name}
  }

  lemma Stamped(f: Fire) returns (s: State)
    ensures Reachable(s) && Ready(s, f) && s.queuedFor == [] && s.late == {} && s.others == {}
  {
    assert Legal(START, []) && End(START, []) == START;
    s := Next(START, Job(Boot([])));
    s := Next(s, Job(Recovered));
    s := Next(s, Stamp(f.name, f.dueAt));
  }

  lemma Queueing(s: State, f: Fire) returns (t: State)
    requires Reachable(s) && Ready(s, f)
    ensures Reachable(t) && t.spool == Apply(s.spool, Enqueue(IdOf(f), 0))
    ensures t.stamps == s.stamps && t.read == {} && t.handled == {} && t.stamped == s.stamped
    ensures t.queuedFor == s.queuedFor + [f]
  {
    t := Next(s, Read(f.name));
    assert t.read == {f};
    t := Next(t, Handle(f, f.dueAt));
    t := Next(t, AckFails(f));
    assert t.read == {} && t.handled == {};
  }

  lemma RefusingIt(s: State, f: Fire) returns (t: State)
    requires Reachable(s) && Ready(s, f)
    ensures Reachable(t) && Ready(t, f)
    ensures t.queuedFor == s.queuedFor + [f]
    ensures t.spool.refusals == s.spool.refusals + [IdOf(f)]
  {
    var x := IdOf(f);
    t := Queueing(s, f);
    t := ClaimingIt(t, x);
    t := DroppingIt(t, x);
  }

  lemma DroppingIt(s: State, x: Id) returns (t: State)
    requires Reachable(s) && s.spool.phase == Claimed([Candidate(FromQueue, x)]) && s.spool.running.Keys == {x}
    ensures Reachable(t) && t.spool.phase == Idle && t.spool.running == map[]
    ensures t.spool == s.spool.(running := t.spool.running, refusals := s.spool.refusals + [x],
                                closed := t.spool.closed, phase := t.spool.phase)
    ensures t == s.(spool := t.spool)
  {
    t := Next(s, Job(Refuse));
    assert t.spool.running.Keys == {};
    t := Next(t, Job(EndScan));
  }

  lemma ClaimingIt(s: State, x: Id) returns (t: State)
    requires Reachable(s) && s.spool.phase.Idle? && s.spool.procs == {}
    requires s.spool.pending == map[] && s.spool.running == map[] && s.spool.queue.Keys == {x}
    ensures Reachable(t)
    ensures t == s.(spool := s.spool.(queue := map[], running := s.spool.queue,
                                      phase := Claimed([Candidate(FromQueue, x)])))
  {
    t := Next(s, Job(Scan([], [x])));
    assert t.spool.phase.cands == [Candidate(FromQueue, x)];
    t := MovingIt(t, x);
  }

  lemma MovingIt(s: State, x: Id) returns (t: State)
    requires Reachable(s) && s.spool.phase == Scanning([Candidate(FromQueue, x)]) && s.spool.procs == {}
    requires s.spool.pending == map[] && s.spool.running == map[] && s.spool.queue.Keys == {x}
    ensures Reachable(t)
    ensures t == s.(spool := s.spool.(queue := map[], running := s.spool.queue,
                                      phase := Claimed([Candidate(FromQueue, x)])))
  {
    t := Next(s, Job(Copy));
    assert t.spool.running == s.spool.queue;
    t := Next(t, Job(RemoveSource));
    assert t.spool.queue.Keys == {};
  }

  /** The bound of `AFireIsQueuedOnce` is met: one refusal and one failed acknowledgement queue a fire twice. */
  lemma ARefusedFireIsQueuedTwice(f: Fire) returns (s: State)
    ensures Reachable(s)
    ensures Refusals(s.spool.refusals, IdOf(f)) >= 1 && TimesQueued(s.queuedFor, IdOf(f)) == 2
  {
    s := Stamped(f);
    RefusalsAppend(s.spool.refusals, IdOf(f), IdOf(f));
    TimesQueuedAppend(s.queuedFor, f, IdOf(f));
    TimesQueuedAppend(s.queuedFor + [f], f, IdOf(f));
    s := RefusingIt(s, f);
    s := Queueing(s, f);
  }

  // ------------------------------------------------------------------ when a fire is queued again

  /** A tick has read the fire, or its stamp still stands. */
  predicate Outstanding(s: State, f: Fire) {
    f in s.read || (f.name in s.stamps && s.stamps[f.name] == f.dueAt)
  }

  /** This run queues a job for the fire, without a new stamp for it and without a refusal of a job of its id. */
  ghost predicate QueuesIt(s: State, run: seq<Event>, f: Fire) {
    && Legal(s, run) && Stamp(f.name, f.dueAt) !in run
    && Refusals(End(s, run).spool.refusals, IdOf(f)) == Refusals(s.spool.refusals, IdOf(f))
    && multiset(End(s, run).queuedFor)[f] > multiset(s.queuedFor)[f]
  }

  lemma QueuedMoreOften(s: State, e: Event, f: Fire)
    requires Can(s, e) && multiset(Do(s, e).queuedFor)[f] > multiset(s.queuedFor)[f]
    ensures !AlreadyFired(s.spool, IdOf(f)) && Outstanding(s, f)
  {
    SpoolOfStep(s, e);
    if Queues(s, e) {
      CountOfAppend(s.queuedFor, e.f, f);
    }
  }

  lemma CountOfAppend(queuedFor: seq<Fire>, g: Fire, f: Fire)
    ensures multiset(queuedFor + [g])[f] == multiset(queuedFor)[f] + if g == f then 1 else 0
  {
  }

  lemma OutstandingBefore(s: State, e: Event, f: Fire)
    requires Can(s, e) && Outstanding(Do(s, e), f) && e != Stamp(f.name, f.dueAt)
    ensures Outstanding(s, f)
  {
  }

  lemma {:induction false} QueuedOnlyIfOutstanding(s: State, run: seq<Event>, f: Fire)
    requires FireInv(s) && QueuesIt(s, run, f)
    ensures !AlreadyFired(s.spool, IdOf(f)) && Outstanding(s, f)
    decreases |run|
  {
    if run != [] {
      var t := Do(s, run[0]);
      StepKeepsFires(s, run[0]);
      RefusalsGrow(t, run[1..], IdOf(f));
      if multiset(t.queuedFor)[f] > multiset(s.queuedFor)[f] {
        QueuedMoreOften(s, run[0], f);
      } else {
        StepRefusals(s, run[0], IdOf(f));
        QueuedOnlyIfOutstanding(t, run[1..], f);
        OutstandingBefore(s, run[0], f);
        if AlreadyFired(s.spool, IdOf(f)) {
          KnownStepStaysKnown(s, run[0], IdOf(f));
        }
      }
    }
  }

  lemma StepRefusals(s: State, e: Event, x: Id)
    requires Can(s, e)
    ensures Refusals(Do(s, e).spool.refusals, x) >= Refusals(s.spool.refusals, x)
  {
    if e.Job? {
      RefusalsOfStep(s.spool, e.a, x);
    }
  }

  lemma {:induction false} ListOf(ids: set<Id>) returns (files: seq<Id>)
    ensures Lists(files, ids)
    decreases ids
  {
    if ids == {} {
      files := [];
    } else {
      var x :| x in ids;
      var rest := ListOf(ids - {x});
      files := [x] + rest;
    }
  }

  /** How far the daemon is from being idle, once it is up. */
  function ToGo(p: Phase): int {
    match p
    case Down => 0
    case Recovering(todo) => 4 * |todo| + 1
    case Requeued(todo) => 4 * |todo|
    case FailedWritten(todo) => 4 * |todo|
    case StatusWritten(todo) => 4 * |todo| - 1
    case Idle => 0
    case Scanning(cands) => 4 * |cands| + 1
    case Copied(cands) => 4 * |cands|
    case Claimed(cands) => 4 * |cands| - 1
  }

  /** A step that only gets on with recovery or the tick, refuses nothing and leaves x unknown. */
  ghost predicate GetsOn(s: Spool, a: Action, x: Id) {
    && Enabled(s, a) && Entering(a) == {} && !a.Crash? && !a.Refuse?
    && !AlreadyFired(Apply(s, a), x)
    && !Apply(s, a).phase.Down? && (!s.phase.Down? ==> 0 <= ToGo(Apply(s, a).phase) < ToGo(s.phase))
  }

  lemma RecoveryGetsOn(s: Spool, x: Id) returns (a: Action)
    requires Inv(s) && !AlreadyFired(s, x)
    requires s.phase.Recovering? || s.phase.Requeued? || s.phase.FailedWritten? || s.phase.StatusWritten?
    ensures GetsOn(s, a, x)
  {
    assert PhaseOk(s);
    match s.phase
    case Recovering(todo) =>
      if todo == [] {
        a := Recovered;
      } else {
        assert todo[0] in todo;
        a := if s.running[todo[0]].attempts + 1 <= MAX_JOB_RECOVERY_ATTEMPTS then Requeue else WriteFailed;
      }
    case Requeued(todo) => a := DropOrphan;
    case FailedWritten(todo) => a := WriteStatus;
    case StatusWritten(todo) =>
      assert todo[0] in todo;
      a := RemoveFailed;
  }

  lemma ScanGetsOn(s: Spool, x: Id) returns (a: Action)
    requires s.phase.Scanning? && !AlreadyFired(s, x)
    ensures GetsOn(s, a, x)
  {
    var cands := s.phase.cands;
    if cands == [] || |s.procs| >= MAX_CONCURRENT_JOBS {
      a := EndScan;
    } else if cands[0].id !in SourceDir(s, cands[0]) {
      a := Skip;
    } else if cands[0].source.FromPending? {
      a := Reject;
    } else {
      a := if cands[0].id in s.running then Skip else Copy;
    }
  }

  lemma ClaimGetsOn(s: Spool, x: Id) returns (a: Action)
    requires PhaseOk(s) && !AlreadyFired(s, x) && (s.phase.Copied? || s.phase.Claimed?)
    ensures GetsOn(s, a, x)
  {
    a := if s.phase.Copied? then RemoveSource else Start;
  }

  lemma BootGetsOn(s: Spool, x: Id) returns (a: Action)
    requires s.phase.Down? && !AlreadyFired(s, x)
    ensures GetsOn(s, a, x)
  {
    var files := ListOf(s.running.Keys);
    a := Boot(files);
  }

  lemma StepGetsOn(s: Spool, x: Id) returns (a: Action)
    requires Inv(s) && !AlreadyFired(s, x) && !s.phase.Idle?
    ensures GetsOn(s, a, x)
  {
    if s.phase.Down? {
      a := BootGetsOn(s, x);
    } else if s.phase.Scanning? {
      a := ScanGetsOn(s, x);
    } else if s.phase.Copied? || s.phase.Claimed? {
      a := ClaimGetsOn(s, x);
    } else {
      a := RecoveryGetsOn(s, x);
    }
  }

  /** These differ at most in the spool, which is as the fire's id knows it. */
  ghost predicate SameBut(s: State, t: State, x: Id) {
    t == s.(spool := t.spool) && t.spool.refusals == s.spool.refusals && !AlreadyFired(t.spool, x)
  }

  /** Whatever the daemon is at, it can become idle with no crash, no refusal and nothing new under x. */
  lemma {:induction false} BecomingIdle(s: State, x: Id) returns (run: seq<Event>)
    requires FireInv(s) && !AlreadyFired(s.spool, x)
    ensures Legal(s, run) && End(s, run).spool.phase.Idle? && SameBut(s, End(s, run), x)
    ensures forall e :: e in run ==> e.Job?
    decreases s.spool.phase.Down?, ToGo(s.spool.phase)
  {
    if s.spool.phase.Idle? {
      run := [];
    } else {
      var a := StepGetsOn(s.spool, x);
      var t := Do(s, Job(a));
      StepKeepsFires(s, Job(a));
      GettingOn(s, a, x);
      var rest := BecomingIdle(t, x);
      run := [Job(a)] + rest;
      assert run[1..] == rest && run[0] == Job(a);
    }
  }

  lemma GettingOn(s: State, a: Action, x: Id)
    requires GetsOn(s.spool, a, x)
    ensures Can(s, Job(a)) && SameBut(s, Do(s, Job(a)), x)
  {
  }

  lemma QueueingOutstanding(s: State, f: Fire) returns (run: seq<Event>)
    requires s.spool.phase.Idle? && !AlreadyFired(s.spool, IdOf(f)) && Outstanding(s, f)
    ensures QueuesIt(s, run, f)
  {
    var reading := [];
    if f !in s.read {
      reading := [Read(f.name)];
      assert Legal(Do(s, Read(f.name)), []) && reading[1..] == [];
    }
    RunThen(s, reading, Handle(f, f.dueAt));
    run := reading + [Handle(f, f.dueAt)];
    CountOfAppend(s.queuedFor, f, f);
  }

  lemma {:induction false} RunsCompose(s: State, first: seq<Event>, second: seq<Event>)
    requires Legal(s, first) && Legal(End(s, first), second)
    ensures Legal(s, first + second) && End(s, first + second) == End(End(s, first), second)
    decreases |first|
  {
    if first == [] {
      assert first + second == second;
    } else {
      RunsCompose(Do(s, first[0]), first[1..], second);
      assert (first + second)[1..] == first[1..] + second;
    }
  }

  /**
   * A fire can still be queued (again), with no new stamp for it and no job of its id
   * refused meanwhile, if and only if no job of its id is known and a tick has read
   * the fire or its stamp still stands. Once it was queued that means its job has been
   * refused and its acknowledgement has not come through.
   */
  lemma AFireIsQueuedAgainExactly(s: State, f: Fire)
    requires Reachable(s)
    ensures (exists run :: QueuesIt(s, run, f)) <==> !AlreadyFired(s.spool, IdOf(f)) && Outstanding(s, f)
  {
    ReachableKeepsFires(s);
    if run :| QueuesIt(s, run, f) {
      QueuedOnlyIfOutstanding(s, run, f);
    }
    if !AlreadyFired(s.spool, IdOf(f)) && Outstanding(s, f) {
      var idling := BecomingIdle(s, IdOf(f));
      var t := End(s, idling);
      var queueing := QueueingOutstanding(t, f);
      RunsCompose(s, idling, queueing);
      assert QueuesIt(s, idling + queueing, f);
    }
  }

  // An agent's job under the id of a fire is taken for the fire's own.

  lemma Submitting(s: State, x: Id) returns (t: State)
    requires Reachable(s) && s.spool.phase.Idle? && s.spool.pending == map[] && s.spool.queue == map[]
    ensures Reachable(t) && t.spool.phase == Scanning([Candidate(FromPending, x)])
    ensures t.spool.pending.Keys == {x}
    ensures t.spool == s.spool.(pending := t.spool.pending, submitted := t.spool.submitted, phase := t.spool.phase)
    ensures t == s.(spool := t.spool, others := s.others + {x})
  {
    t := Next(s, Job(Submit(x, 0)));
    assert t.spool.pending.Keys == {x};
    t := Next(t, Job(Scan([x], [])));
    assert t.spool.phase.cands == [Candidate(FromPending, x)];
  }

  lemma ClaimingPending(s: State, x: Id) returns (t: State)
    requires Reachable(s) && s.spool.phase == Scanning([Candidate(FromPending, x)]) && s.spool.procs == {}
    requires s.spool.pending.Keys == {x} && s.spool.running == map[]
    ensures Reachable(t) && t.spool.phase == Claimed([Candidate(FromPending, x)]) && x in t.spool.running
    ensures t.spool.procs == {} && t == s.(spool := t.spool)
  {
    t := Next(s, Job(Copy));
    assert t.spool.running.Keys == {x};
    t := Next(t, Job(RemoveSource));
  }

  lemma Starting(s: State, x: Id, c: Candidate) returns (t: State)
    requires Reachable(s) && s.spool.phase == Claimed([c]) && c.id == x && x in s.spool.running
    ensures Reachable(t) && t.spool.phase.Idle? && AlreadyFired(t.spool, x)
    ensures t == s.(spool := t.spool)
  {
    t := Next(s, Job(Start));
    assert t.spool.phase.cands == [];
    t := Next(t, Job(EndScan));
  }

  /**
   * For every fire: an agent submits a job under its id and it runs; the fire is then
   * acknowledged, and its stamp cleared, with no job of its own.
   */
  lemma ASubmissionStandsForAFire(f: Fire) returns (s: State)
    ensures Reachable(s) && s.stamped == {f.name} && s.others == {IdOf(f)}
    ensures s.queuedFor == [] && s.late == {}
    ensures f in s.handled && f.name in s.stamps && f.name !in Do(s, Ack(f)).stamps
  {
    s := Stamped(f);
    s := Submitting(s, IdOf(f));
    s := ClaimingPending(s, IdOf(f));
    s := Starting(s, IdOf(f), Candidate(FromPending, IdOf(f)));
    s := Next(s, Read(f.name));
    s := HandlingKnown(s, f);
  }

  // ------------------------------------------------------------------ what handling a fire does

  /** A fire at most six hours late, with no file of its id, gets a fresh job. */
  lemma APunctualFireIsQueued(s: State, f: Fire, now: int)
    requires Can(s, Handle(f, now)) && now - f.dueAt <= 21_600_000
    requires var x, p := IdOf(f), s.spool; x !in p.queue && x !in p.running && x !in p.status && x !in p.failed
    ensures var t, x := Do(s, Handle(f, now)), IdOf(f);
            && t.spool.queue == s.spool.queue[x := JobSpec(|s.spool.submitted|, 0)]
            && t.spool.submitted == s.spool.submitted + [Submission(x, 0)]
            && t.spool == s.spool.(queue := t.spool.queue, submitted := t.spool.submitted)
            && t.queuedFor == s.queuedFor + [f] && t.late == s.late
            && f in t.handled && t.stamps == s.stamps
  {
  }

  /** One whose job is queued, running, failed out or done is left to be acknowledged. */
  lemma AKnownFireIsLeft(s: State, f: Fire, now: int)
    requires Can(s, Handle(f, now)) && now - f.dueAt <= 21_600_000
    requires var x, p := IdOf(f), s.spool; x in p.queue || x in p.running || x in p.status || x in p.failed
    ensures Do(s, Handle(f, now)) == s.(read := s.read - {f}, handled := s.handled + {f})
  {
  }

  /** One more than six hours late is skipped. */
  lemma ALateFireIsSkipped(s: State, f: Fire, now: int)
    requires Can(s, Handle(f, now)) && now - f.dueAt > 21_600_000
    ensures Do(s, Handle(f, now)) == s.(read := s.read - {f}, handled := s.handled + {f}, late := s.late + {f})
  {
  }

  /** Over a whole run: skipped is what was handled more than six hours late, queued only what was handled within. */
  lemma {:induction false} LatenessDecides(s: State, run: seq<Event>, f: Fire)
    requires Legal(s, run)
    ensures f in End(s, run).late <==>
              f in s.late || exists e :: e in run && e.Handle? && e.f == f && e.now - f.dueAt > 21_600_000
    ensures f in End(s, run).queuedFor ==>
              f in s.queuedFor || exists e :: e in run && e.Handle? && e.f == f && e.now - f.dueAt <= 21_600_000
    decreases |run|
  {
    if run != [] {
      var e, t := run[0], Do(s, run[0]);
      assert run == [e] + run[1..];
      LatenessDecides(t, run[1..], f);
      if e.Handle? && e.now - e.f.dueAt > 21_600_000 {
        ALateFireIsSkipped(s, e.f, e.now);
      }
    }
  }

  // ------------------------------------------------------------------ the code

  /** Handling one document and acknowledging it, as two steps of the model. */
  ghost function HandleAndAck(s: State, f: Fire, now: int, acked: bool): State
    requires Can(s, Handle(f, now))
  {
    Do(Do(s, Handle(f, now)), if acked then Ack(f) else AckFails(f))
  }

  /** The ingestor's side of a fire: the private directories it looks into and writes, and the stamps. */
  class FireClaimer {
    var queue: map<Id, JobSpec>
    var running: map<Id, JobSpec>
    var status: set<Id>
    var failed: map<Id, JobSpec>
    var stamps: map<string, nat>
    ghost var rest: Spool  // the parts of the spool this code does not touch
    var submitted: seq<Submission>
    ghost var read: set<Fire>
    ghost var handled: set<Fire>
    ghost var late: set<Fire>
    ghost var queuedFor: seq<Fire>
    ghost var others: set<Id>
    ghost var stamped: set<string>

    ghost function View(): State
      reads this
    {
      State(rest.(queue := queue, running := running, status := status, failed := failed, submitted := submitted),
            stamps, read, handled, late, queuedFor, others, stamped)
    }

    /** A late fire is skipped, a new one is queued. */
    method HandleFire(f: Fire, now: int) returns (skipped: bool)
      requires Can(View(), Handle(f, now))
      modifies this
      ensures View() == Do(old(View()), Handle(f, now))
      ensures skipped <==> now - f.dueAt > 21_600_000
      ensures var x := IdOf(f);
              var known := x in old(queue) || x in old(running) || x in old(status) || x in old(failed);
              queue == if skipped || known then old(queue) else old(queue)[x := JobSpec(|old(submitted)|, 0)]
      ensures stamps == old(stamps) && running == old(running) && status == old(status) && failed == old(failed)
    {
      var id := Id(JobFireId(f.name, f.dueAt));
      skipped := now - f.dueAt > MAX_JOB_FIRE_LATENESS_MS;
      read, handled := read - {f}, handled + {f};
      if skipped {
        late := late + {f};
      } else if !(id in queue || id in running || id in status || id in failed) {
        queue := queue[id := JobSpec(|submitted|, 0)];
        submitted := submitted + [Submission(id, 0)];
        queuedFor := queuedFor + [f];
      }
    }

    /** The acknowledgement takes away the stamp it was read from, and no other. */
    method Acknowledge(f: Fire, ackFails: bool)
      requires f in handled
      modifies this`handled, this`stamps
      ensures View() == Do(old(View()), if ackFails then AckFails(f) else Ack(f))
      ensures stamps == if !ackFails && f.name in old(stamps) && old(stamps)[f.name] == f.dueAt
                        then old(stamps) - {f.name} else old(stamps)
    {
      handled := handled - {f};
      if !ackFails && f.name in stamps && stamps[f.name] == f.dueAt {
        stamps := stamps - {f.name};
      }
    }

    /** The body of `claimJobFires`' loop: skip a late fire, queue a new one, acknowledge either. */
    method ClaimJobFire(f: Fire, now: int, ackFails: bool) returns (skipped: bool)
      requires Can(View(), Handle(f, now))
      modifies this
      ensures View() == HandleAndAck(old(View()), f, now, !ackFails)
      ensures skipped <==> now - f.dueAt > 21_600_000
      ensures var x := IdOf(f);
              var known := x in old(queue) || x in old(running) || x in old(status) || x in old(failed);
              queue == if skipped || known then old(queue) else old(queue)[x := JobSpec(|old(submitted)|, 0)]
      ensures stamps == if !ackFails && f.name in old(stamps) && old(stamps)[f.name] == f.dueAt
                        then old(stamps) - {f.name} else old(stamps)
    {
      skipped := HandleFire(f, now);
      Acknowledge(f, ackFails);
    }
  }
}
