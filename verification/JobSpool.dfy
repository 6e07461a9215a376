/**
 * The background-job spool (job-runner.ts, job-recovery.ts) as a transition
 * system over its directories. One action is one file operation (or one process
 * event), and `Crash` may stand between any two of them, so a run of actions is
 * a run of the daemon interrupted anywhere, restarted, interrupted again, ...
 */
module JobSpool {
  import Seqs

  datatype Id = Id(name: string)

  const MAX_JOB_RECOVERY_ATTEMPTS := 2
  const MAX_CONCURRENT_JOBS := 3

  /** A job spec: which submission it stems from, and its `recoveryAttempts`. */
  datatype JobSpec = JobSpec(sub: nat, attempts: int)

  /** What was submitted or enqueued: the job id and the recovery count it came with. */
  datatype Submission = Submission(id: Id, attempts: int)

  datatype Source = FromPending | FromQueue
  datatype Candidate = Candidate(source: Source, id: Id)

  /** Where the daemon's code stands. A non-empty `todo` starts with the item being worked on. */
  datatype Phase =
    | Down
    | Recovering(todo: seq<Id>)
    | Requeued(todo: seq<Id>)       // queue copy written, running copy not yet removed
    | FailedWritten(todo: seq<Id>)
    | StatusWritten(todo: seq<Id>)
    | Idle
    | Scanning(cands: seq<Candidate>)
    | Copied(cands: seq<Candidate>)  // running copy written, source not yet removed
    | Claimed(cands: seq<Candidate>) // source removed, process not yet started

  datatype Spool = Spool(
    pending: map<Id, JobSpec>,
    queue: map<Id, JobSpec>,
    running: map<Id, JobSpec>,
    failed: map<Id, JobSpec>,
    status: set<Id>,
    procs: set<Id>,               // processes this daemon is watching
    submitted: seq<Submission>,   // history: every submission so far
    starts: seq<JobSpec>,         // history: every process start
    refusals: seq<Id>,            // history: claimed jobs that were never started
    closed: set<nat>,             // submissions that exited, were refused or failed out
    overwritten: set<nat>,        // submissions whose queued spec recovery overwrote with another's
    phase: Phase)

  const EMPTY := Spool(map[], map[], map[], map[], {}, {}, [], [], [], {}, {}, Down)

  datatype Action =
    | Submit(id: Id, attempts: int)
    | Enqueue(id: Id, attempts: int)
    | Boot(files: seq<Id>) | Requeue | DropOrphan
    | WriteFailed | WriteStatus | RemoveFailed | Recovered
    | Scan(pendingFiles: seq<Id>, queueFiles: seq<Id>) | EndScan
    | Skip | Reject | Copy | RemoveSource | Start | Refuse
    | Exit(id: Id)
    | Crash

  // ------------------------------------------------------------------ steps

  ghost predicate Lists(files: seq<Id>, ids: set<Id>) {
    && (forall x :: x in files <==> x in ids)
    && (forall i, j :: 0 <= i < j < |files| ==> files[i] != files[j])
  }

  function SourceDir(s: Spool, c: Candidate): map<Id, JobSpec> {
    match c.source
    case FromPending => s.pending
    case FromQueue => s.queue
  }

  function CandidatesOf(pendingFiles: seq<Id>, queueFiles: seq<Id>): seq<Candidate> {
    seq(|pendingFiles|, i requires 0 <= i < |pendingFiles| => Candidate(FromPending, pendingFiles[i])) +
    seq(|queueFiles|, i requires 0 <= i < |queueFiles| => Candidate(FromQueue, queueFiles[i]))
  }

  predicate Live(s: Spool, id: Id) {
    id in s.pending || id in s.queue || id in s.running
  }

  ghost predicate RecoveryEnabled(s: Spool, a: Action) {
    match a
    case Boot(files) => s.phase.Down? && Lists(files, s.running.Keys)
    case Requeue =>
      && s.phase.Recovering? && s.phase.todo != [] && s.phase.todo[0] in s.running
      && s.running[s.phase.todo[0]].attempts + 1 <= MAX_JOB_RECOVERY_ATTEMPTS
    case DropOrphan => s.phase.Requeued? && s.phase.todo != []
    case WriteFailed =>
      && s.phase.Recovering? && s.phase.todo != [] && s.phase.todo[0] in s.running
      && s.running[s.phase.todo[0]].attempts + 1 > MAX_JOB_RECOVERY_ATTEMPTS
    case WriteStatus => s.phase.FailedWritten? && s.phase.todo != []
    case RemoveFailed => s.phase.StatusWritten? && s.phase.todo != [] && s.phase.todo[0] in s.running
    case Recovered => s.phase.Recovering? && s.phase.todo == []
    case _ => false
  }

  ghost predicate TickEnabled(s: Spool, a: Action) {
    match a
    case Scan(p, q) => s.phase.Idle? && Lists(p, s.pending.Keys) && Lists(q, s.queue.Keys)
    case EndScan => s.phase.Scanning? && (s.phase.cands == [] || |s.procs| >= MAX_CONCURRENT_JOBS)
    case Skip =>
      && s.phase.Scanning? && s.phase.cands != [] && |s.procs| < MAX_CONCURRENT_JOBS
      && var c := s.phase.cands[0];
         c.id !in SourceDir(s, c) || (c.source.FromQueue? && c.id in s.running)
    case Reject =>
      && s.phase.Scanning? && s.phase.cands != [] && |s.procs| < MAX_CONCURRENT_JOBS
      && s.phase.cands[0].source.FromPending? && s.phase.cands[0].id in s.pending
    case Copy =>
      && s.phase.Scanning? && s.phase.cands != [] && |s.procs| < MAX_CONCURRENT_JOBS
      && var c := s.phase.cands[0];
         c.id in SourceDir(s, c) && c.id !in s.running
    case RemoveSource => s.phase.Copied? && s.phase.cands != []
    case Start => s.phase.Claimed? && s.phase.cands != [] && s.phase.cands[0].id in s.running
    case Refuse => s.phase.Claimed? && s.phase.cands != [] && s.phase.cands[0].id in s.running
    case _ => false
  }

  ghost predicate Enabled(s: Spool, a: Action) {
    match a
    // A file pending already is its submitter's; an id that is queued or running may come again.
    case Submit(id, _) => id !in s.pending
    // The queue file is created exclusively.
    case Enqueue(id, _) => s.phase.Idle? && id !in s.queue
    case Exit(id) => s.phase.Idle? && id in s.procs && id in s.running
    case Crash => true
    case _ => RecoveryEnabled(s, a) || TickEnabled(s, a)
  }

  function Without(m: map<Id, JobSpec>, x: Id): (r: map<Id, JobSpec>)
    ensures r.Keys == m.Keys - {x}
    ensures forall y :: y in m && y != x ==> y in r && r[y] == m[y]
    ensures x !in m ==> r == m
  {
    m - {x}
  }

  /** The submission whose queued spec a requeued orphan of the same id overwrites. */
  function Displaced(s: Spool, x: Id): set<nat>
    requires x in s.running
  {
    if x in s.queue && s.queue[x].sub != s.running[x].sub then {s.queue[x].sub} else {}
  }

  function Apply(s: Spool, a: Action): Spool
    requires Enabled(s, a)
  {
    match a
    case Submit(id, n) =>
      s.(pending := s.pending[id := JobSpec(|s.submitted|, n)], submitted := s.submitted + [Submission(id, n)])
    case Enqueue(id, n) =>
      s.(queue := s.queue[id := JobSpec(|s.submitted|, n)], submitted := s.submitted + [Submission(id, n)])
    case Boot(files) => s.(phase := Recovering(files))
    case Requeue =>
      var x := s.phase.todo[0];
      s.(queue := s.queue[x := s.running[x].(attempts := s.running[x].attempts + 1)],
         overwritten := s.overwritten + Displaced(s, x), phase := Requeued(s.phase.todo))
    case DropOrphan => s.(running := Without(s.running, s.phase.todo[0]), phase := Recovering(s.phase.todo[1..]))
    case WriteFailed =>
      var x := s.phase.todo[0];
      s.(failed := s.failed[x := s.running[x]], phase := FailedWritten(s.phase.todo))
    case WriteStatus => s.(status := s.status + {s.phase.todo[0]}, phase := StatusWritten(s.phase.todo))
    case RemoveFailed =>
      var x := s.phase.todo[0];
      s.(running := Without(s.running, x),
         closed := s.closed + {s.running[x].sub},
         phase := Recovering(s.phase.todo[1..]))
    case Recovered => s.(phase := Idle)
    case Scan(p, q) => s.(phase := Scanning(CandidatesOf(p, q)))
    case EndScan => s.(phase := Idle)
    case Skip => s.(phase := Scanning(s.phase.cands[1..]))
    case Reject =>
      var x := s.phase.cands[0].id;
      s.(pending := Without(s.pending, x),
         closed := s.closed + {s.pending[x].sub},
         phase := Scanning(s.phase.cands[1..]))
    case Copy =>
      var c := s.phase.cands[0];
      s.(running := s.running[c.id := SourceDir(s, c)[c.id]], phase := Copied(s.phase.cands))
    case RemoveSource =>
      var c := s.phase.cands[0];
      if c.source.FromPending? then
        s.(pending := Without(s.pending, c.id), phase := Claimed(s.phase.cands))
      else
        s.(queue := Without(s.queue, c.id), phase := Claimed(s.phase.cands))
    case Start =>
      var x := s.phase.cands[0].id;
      s.(procs := s.procs + {x}, starts := s.starts + [s.running[x]], phase := Scanning(s.phase.cands[1..]))
    case Refuse =>
      var x := s.phase.cands[0].id;
      s.(running := Without(s.running, x), closed := s.closed + {s.running[x].sub},
         refusals := s.refusals + [x], phase := Scanning(s.phase.cands[1..]))
    case Exit(x) =>
      s.(procs := s.procs - {x}, running := Without(s.running, x), status := s.status + {x},
         closed := s.closed + {s.running[x].sub})
    case Crash => s.(procs := {}, phase := Down)
  }

  // ------------------------------------------------------------------ runs

  ghost predicate Legal(s: Spool, run: seq<Action>)
    decreases |run|
  {
    run != [] ==> Enabled(s, run[0]) && Legal(Apply(s, run[0]), run[1..])
  }

  ghost function Run(s: Spool, run: seq<Action>): Spool
    requires Legal(s, run)
    decreases |run|
  {
    if run == [] then s else Run(Apply(s, run[0]), run[1..])
  }

  lemma {:induction false} RunThen(s: Spool, first: seq<Action>, second: seq<Action>)
    requires Legal(s, first) && Legal(Run(s, first), second)
    ensures Legal(s, first + second)
    ensures Run(s, first + second) == Run(Run(s, first), second)
    decreases |first|
  {
    if first == [] {
      Seqs.NothingBefore(second);
    } else {
      Seqs.TailOfConcat(first, second);
      RunThen(Apply(s, first[0]), first[1..], second);
    }
  }

  // ------------------------------------------------------------------ invariant

  /** No start of this submission carried a count of `n` or more. */
  ghost predicate Below(starts: seq<JobSpec>, sub: nat, n: int) {
    forall i :: 0 <= i < |starts| && starts[i].sub == sub ==> starts[i].attempts < n
  }

  ghost predicate SpecOk(submitted: seq<Submission>, id: Id, spec: JobSpec) {
    && spec.sub < |submitted|
    && submitted[spec.sub].id == id
    && submitted[spec.sub].attempts <= spec.attempts
    && (spec.attempts == submitted[spec.sub].attempts || spec.attempts <= MAX_JOB_RECOVERY_ATTEMPTS)
  }

  ghost predicate PendingOk(s: Spool, id: Id)
    requires id in s.pending
  {
    var p := s.pending[id];
    && SpecOk(s.submitted, id, p)
    && p.attempts == s.submitted[p.sub].attempts
    && Below(s.starts, p.sub, p.attempts)
    && (id in s.queue && s.queue[id].sub == p.sub ==>
          s.queue[id] == p.(attempts := p.attempts + 1) && (id in s.running ==> s.running[id].sub == p.sub))
    && (id in s.running && s.running[id].sub == p.sub ==> s.running[id] == p && id !in s.procs)
  }

  ghost predicate IdOk(s: Spool, id: Id) {
    && (id in s.pending ==> PendingOk(s, id))
    && (id in s.queue ==>
          SpecOk(s.submitted, id, s.queue[id]) && Below(s.starts, s.queue[id].sub, s.queue[id].attempts))
    && (id in s.running ==>
          && SpecOk(s.submitted, id, s.running[id])
          && Below(s.starts, s.running[id].sub, s.running[id].attempts + 1))
    && (id in s.queue && id in s.running && s.queue[id].sub == s.running[id].sub ==>
          || s.queue[id] == s.running[id].(attempts := s.running[id].attempts + 1)
          || (s.queue[id] == s.running[id] && id !in s.procs))
  }

  /** Distinct recovery counts, in increasing order, for the starts of one submission. */
  ghost predicate StartsOk(s: Spool) {
    && (forall i :: 0 <= i < |s.starts| ==>
          s.starts[i].sub < |s.submitted| && SpecOk(s.submitted, s.submitted[s.starts[i].sub].id, s.starts[i]))
    && (forall i, j :: 0 <= i < j < |s.starts| && s.starts[i].sub == s.starts[j].sub ==>
          s.starts[i].attempts < s.starts[j].attempts)
  }

  /** What is submitted is in the spool until it exits or is refused, unless its spec was overwritten. */
  ghost predicate HeldOrOverwritten(s: Spool) {
    && (forall n :: 0 <= n < |s.submitted| && n !in s.closed && n !in s.overwritten ==> Held(s, s.submitted[n].id, n))
    && (forall n :: n in s.overwritten ==> n < |s.submitted| && !Held(s, s.submitted[n].id, n))
  }

  ghost predicate Held(s: Spool, id: Id, sub: nat) {
    || (id in s.pending && s.pending[id].sub == sub)
    || (id in s.queue && s.queue[id].sub == sub)
    || (id in s.running && s.running[id].sub == sub)
  }

  /** Pending candidates come before queued ones, and cover every submission that is in both directories. */
  ghost predicate CandsOk(pending: map<Id, JobSpec>, queue: map<Id, JobSpec>, cands: seq<Candidate>) {
    && (forall i, j :: 0 <= i < j < |cands| && cands[j].source.FromPending? ==> cands[i].source.FromPending?)
    && (forall id :: id in pending && id in queue && pending[id].sub == queue[id].sub ==>
          Candidate(FromPending, id) in cands)
  }

  ghost predicate Working(s: Spool, todo: seq<Id>) {
    s.procs == {} && Lists(todo, s.running.Keys)
  }

  ghost predicate Claiming(s: Spool, cands: seq<Candidate>) {
    && cands != []
    && cands[0].id in s.running && cands[0].id !in s.procs
    && s.running.Keys == s.procs + {cands[0].id}
    && |s.procs| < MAX_CONCURRENT_JOBS
    && CandsOk(s.pending, s.queue, cands)
  }

  ghost predicate PhaseOk(s: Spool) {
    match s.phase
    case Down => s.procs == {}
    case Recovering(todo) => Working(s, todo)
    case Requeued(todo) =>
      && Working(s, todo) && todo != [] && todo[0] in s.queue
      && s.queue[todo[0]] == s.running[todo[0]].(attempts := s.running[todo[0]].attempts + 1)
    case FailedWritten(todo) => Working(s, todo) && todo != [] && todo[0] in s.failed
    case StatusWritten(todo) => Working(s, todo) && todo != [] && todo[0] in s.failed && todo[0] in s.status
    case Idle => s.running.Keys == s.procs
    case Scanning(cands) => s.running.Keys == s.procs && CandsOk(s.pending, s.queue, cands)
    case Copied(cands) =>
      && Claiming(s, cands)
      && var x := cands[0].id;
         x in SourceDir(s, cands[0]) && SourceDir(s, cands[0])[x] == s.running[x]
    case Claimed(cands) =>
      && Claiming(s, cands)
      && var x := cands[0].id;
      && (x in s.pending ==> s.pending[x].sub != s.running[x].sub)
      && Below(s.starts, s.running[x].sub, s.running[x].attempts)
      && (x in s.queue && s.queue[x].sub == s.running[x].sub ==>
            s.queue[x] == s.running[x].(attempts := s.running[x].attempts + 1))
  }

  ghost predicate Inv(s: Spool) {
    && (forall id :: IdOk(s, id))
    && StartsOk(s)
    && HeldOrOverwritten(s)
    && PhaseOk(s)
    && |s.procs| <= MAX_CONCURRENT_JOBS
  }

  lemma ListsTail(files: seq<Id>, ids: set<Id>)
    requires Lists(files, ids) && files != []
    ensures Lists(files[1..], ids - {files[0]})
  {
    assert files == [files[0]] + files[1..];
  }

  lemma QueueHeadNotPending(s: Spool, cands: seq<Candidate>)
    requires CandsOk(s.pending, s.queue, cands) && cands != [] && cands[0].source.FromQueue?
    ensures var x := cands[0].id; x in s.queue && x in s.pending ==> s.pending[x].sub != s.queue[x].sub
  {
    assert forall k :: 0 <= k < |cands| ==> cands[k].source.FromQueue?;
  }

  lemma CandsTail(s: Spool, t: Spool, cands: seq<Candidate>)
    requires cands != [] && CandsOk(s.pending, s.queue, cands)
    requires forall id :: id in t.pending ==> id in s.pending && t.pending[id] == s.pending[id]
    requires forall id :: id in t.queue ==> id in s.queue && t.queue[id] == s.queue[id]
    requires var x := cands[0].id;
             cands[0].source.FromPending? && x in t.pending && x in t.queue ==> t.pending[x].sub != t.queue[x].sub
    ensures CandsOk(t.pending, t.queue, cands[1..])
  {
    assert cands == [cands[0]] + cands[1..];
  }

  lemma CandidatesCover(s: Spool, p: seq<Id>, q: seq<Id>)
    requires Lists(p, s.pending.Keys)
    ensures CandsOk(s.pending, s.queue, CandidatesOf(p, q))
  {
    var cands := CandidatesOf(p, q);
    forall id | id in s.pending ensures Candidate(FromPending, id) in cands {
      var k :| 0 <= k < |p| && p[k] == id;
      assert cands[k] == Candidate(FromPending, id);
    }
  }

  lemma RecoveryKeepsPhase(s: Spool, a: Action)
    requires PhaseOk(s) && RecoveryEnabled(s, a) && Enabled(s, a)
    ensures PhaseOk(Apply(s, a))
  {
    if a.DropOrphan? || a.RemoveFailed? {
      ListsTail(s.phase.todo, s.running.Keys);
    }
  }

  lemma RemoveSourceKeepsPhase(s: Spool)
    requires PhaseOk(s) && s.phase.Copied? && IdOk(s, s.phase.cands[0].id) && TickEnabled(s, RemoveSource)
    ensures PhaseOk(Apply(s, RemoveSource))
  {
    var t := Apply(s, RemoveSource);
    var x := s.phase.cands[0].id;
    if s.phase.cands[0].source.FromQueue? {
      QueueHeadNotPending(s, s.phase.cands);
    }
    assert t.starts == s.starts;
    assert Below(t.starts, t.running[x].sub, t.running[x].attempts);
  }

  lemma CopyClaims(s: Spool)
    requires s.phase.Scanning? && s.running.Keys == s.procs && CandsOk(s.pending, s.queue, s.phase.cands)
    requires TickEnabled(s, Copy)
    ensures Claiming(Apply(s, Copy), s.phase.cands)
  {
    assert Apply(s, Copy).running.Keys == s.procs + {s.phase.cands[0].id};
  }

  lemma CopyKeepsPhase(s: Spool)
    requires PhaseOk(s) && TickEnabled(s, Copy)
    ensures PhaseOk(Apply(s, Copy))
  {
    CopyClaims(s);
  }

  lemma ScanKeepsPhase(s: Spool, a: Action)
    requires PhaseOk(s) && TickEnabled(s, a) && Enabled(s, a) && (a.Scan? || a.EndScan?)
    ensures PhaseOk(Apply(s, a))
  {
    if a.Scan? {
      CandidatesCover(s, a.pendingFiles, a.queueFiles);
    }
  }

  lemma NextKeepsPhase(s: Spool, a: Action)
    requires PhaseOk(s) && TickEnabled(s, a) && Enabled(s, a) && (a.Skip? || a.Reject? || a.Start? || a.Refuse?)
    requires IdOk(s, s.phase.cands[0].id)
    ensures PhaseOk(Apply(s, a))
  {
    CandsTail(s, Apply(s, a), s.phase.cands);
  }

  lemma SubmitKeepsPhase(s: Spool, a: Action)
    requires a.Submit? && IdOk(s, a.id) && PhaseOk(s) && Enabled(s, a)
    ensures PhaseOk(Apply(s, a))
  {
    var t := Apply(s, a);
    assert forall id :: id in t.pending && id in t.queue && t.pending[id].sub == t.queue[id].sub ==>
        id != a.id && id in s.pending && t.pending[id] == s.pending[id];
  }

  lemma EventKeepsPhase(s: Spool, a: Action)
    requires (forall id :: IdOk(s, id)) && PhaseOk(s) && Enabled(s, a)
    requires a.Submit? || a.Enqueue? || a.Exit? || a.Crash?
    ensures PhaseOk(Apply(s, a))
  {
    if a.Submit? {
      assert IdOk(s, a.id);
      SubmitKeepsPhase(s, a);
    }
  }

  lemma StartKeepsId(s: Spool, id: Id)
    requires (forall x :: IdOk(s, x)) && PhaseOk(s) && Enabled(s, Start)
    ensures IdOk(Apply(s, Start), id)
  {
    var x := s.phase.cands[0].id;
    assert IdOk(s, id) && IdOk(s, x);
    var t := Apply(s, Start);
    assert t.starts == s.starts + [s.running[x]];
    assert forall sub, n :: Below(s.starts, sub, n) && (sub == s.running[x].sub ==> s.running[x].attempts < n) ==>
                              Below(t.starts, sub, n);
  }

  lemma TickKeepsId(s: Spool, a: Action, id: Id)
    requires IdOk(s, id) && PhaseOk(s) && TickEnabled(s, a) && Enabled(s, a) && !a.Start?
    ensures IdOk(Apply(s, a), id)
  {
    if a.Copy? && s.phase.cands[0].source.FromQueue? {
      QueueHeadNotPending(s, s.phase.cands);
    }
  }

  lemma RecoveryKeepsId(s: Spool, a: Action, id: Id)
    requires IdOk(s, id) && PhaseOk(s) && RecoveryEnabled(s, a) && Enabled(s, a)
    ensures IdOk(Apply(s, a), id)
  {
  }

  lemma EventKeepsId(s: Spool, a: Action, id: Id)
    requires IdOk(s, id) && PhaseOk(s) && StartsOk(s) && Enabled(s, a)
    requires a.Submit? || a.Enqueue? || a.Exit? || a.Crash?
    ensures IdOk(Apply(s, a), id)
  {
    assert forall n :: Below(s.starts, |s.submitted|, n);
  }

  lemma StepKeepsStarts(s: Spool, a: Action)
    requires (forall x :: IdOk(s, x)) && PhaseOk(s) && StartsOk(s) && Enabled(s, a)
    ensures StartsOk(Apply(s, a))
  {
    var t := Apply(s, a);
    if a.Start? {
      var x := s.phase.cands[0].id;
      assert IdOk(s, x);
      assert t.starts == s.starts + [s.running[x]];
    } else {
      assert t.starts == s.starts;
      assert s.submitted <= t.submitted;
    }
  }

  lemma TickKeepsHeld(s: Spool, a: Action, n: nat)
    requires n < |s.submitted| && IdOk(s, s.submitted[n].id) && PhaseOk(s) && TickEnabled(s, a) && Enabled(s, a)
    ensures n !in Apply(s, a).closed && Held(s, s.submitted[n].id, n) ==> Held(Apply(s, a), s.submitted[n].id, n)
    ensures !Held(s, s.submitted[n].id, n) ==> !Held(Apply(s, a), s.submitted[n].id, n)
  {
  }

  lemma RecoveryKeepsHeld(s: Spool, a: Action, n: nat)
    requires n < |s.submitted| && IdOk(s, s.submitted[n].id) && PhaseOk(s) && RecoveryEnabled(s, a) && Enabled(s, a)
    ensures n !in Apply(s, a).closed && n !in Apply(s, a).overwritten && Held(s, s.submitted[n].id, n) ==>
              Held(Apply(s, a), s.submitted[n].id, n)
    ensures !Held(s, s.submitted[n].id, n) ==> !Held(Apply(s, a), s.submitted[n].id, n)
  {
  }

  lemma DisplacedIsGone(s: Spool, n: nat)
    requires PhaseOk(s) && RecoveryEnabled(s, Requeue) && n in Displaced(s, s.phase.todo[0])
    requires IdOk(s, s.phase.todo[0])
    ensures n < |s.submitted| && !Held(Apply(s, Requeue), s.submitted[n].id, n)
  {
  }

  lemma EventKeepsHeld(s: Spool, a: Action, n: nat)
    requires n < |s.submitted| && IdOk(s, s.submitted[n].id) && PhaseOk(s) && Enabled(s, a)
    requires a.Submit? || a.Enqueue? || a.Exit? || a.Crash?
    ensures n !in Apply(s, a).closed && Held(s, s.submitted[n].id, n) ==> Held(Apply(s, a), s.submitted[n].id, n)
    ensures !Held(s, s.submitted[n].id, n) ==> !Held(Apply(s, a), s.submitted[n].id, n)
  {
  }

  lemma DisplacedWasSubmitted(s: Spool, a: Action, n: nat)
    requires (forall x :: IdOk(s, x)) && Enabled(s, a) && n in Apply(s, a).overwritten
    ensures n in s.overwritten || a.Requeue?
    ensures n !in s.overwritten ==> n < |s.submitted|
    ensures s.submitted <= Apply(s, a).submitted
  {
    if n !in s.overwritten {
      assert IdOk(s, s.phase.todo[0]);
    }
  }

  lemma StepKeepsHeldAt(s: Spool, a: Action, n: nat)
    requires Inv(s) && Enabled(s, a) && n < |s.submitted|
    ensures var t := Apply(s, a);
            && (n !in t.closed && n !in t.overwritten ==> Held(t, s.submitted[n].id, n))
            && (n in t.overwritten ==> !Held(t, s.submitted[n].id, n))
  {
    assert IdOk(s, s.submitted[n].id);
    if TickEnabled(s, a) {
      TickKeepsHeld(s, a, n);
    } else if RecoveryEnabled(s, a) {
      RecoveryKeepsHeld(s, a, n);
      if a.Requeue? && n in Displaced(s, s.phase.todo[0]) {
        assert IdOk(s, s.phase.todo[0]);
        DisplacedIsGone(s, n);
      }
    } else {
      EventKeepsHeld(s, a, n);
    }
  }

  lemma NewIsHeld(s: Spool, a: Action)
    requires Enabled(s, a) && (a.Submit? || a.Enqueue?)
    ensures Held(Apply(s, a), a.id, |s.submitted|)
  {
  }

  lemma SubmittedStays(s: Spool, a: Action, n: nat)
    requires Enabled(s, a) && n < |Apply(s, a).submitted|
    ensures n < |s.submitted| ==> Apply(s, a).submitted[n] == s.submitted[n]
    ensures n >= |s.submitted| ==>
              n == |s.submitted| && (a.Submit? || a.Enqueue?) && Apply(s, a).submitted[n].id == a.id
  {
  }

  lemma StepKeepsHeld(s: Spool, a: Action)
    requires Inv(s) && Enabled(s, a)
    ensures HeldOrOverwritten(Apply(s, a))
  {
    var t := Apply(s, a);
    forall n | n in t.overwritten ensures n < |t.submitted| && !Held(t, t.submitted[n].id, n) {
      DisplacedWasSubmitted(s, a, n);
      SubmittedStays(s, a, n);
      StepKeepsHeldAt(s, a, n);
    }
    forall n | 0 <= n < |t.submitted| && n !in t.closed && n !in t.overwritten
      ensures Held(t, t.submitted[n].id, n)
    {
      SubmittedStays(s, a, n);
      if n < |s.submitted| {
        StepKeepsHeldAt(s, a, n);
      } else {
        NewIsHeld(s, a);
      }
    }
  }

  lemma StepKeepsInv(s: Spool, a: Action)
    requires Inv(s) && Enabled(s, a)
    ensures Inv(Apply(s, a))
  {
    if RecoveryEnabled(s, a) {
      RecoveryKeepsPhase(s, a);
    } else if a.Copy? {
      CopyKeepsPhase(s);
    } else if a.RemoveSource? {
      RemoveSourceKeepsPhase(s);
    } else if a.Scan? || a.EndScan? {
      ScanKeepsPhase(s, a);
    } else if TickEnabled(s, a) {
      assert IdOk(s, s.phase.cands[0].id);
      NextKeepsPhase(s, a);
    } else {
      EventKeepsPhase(s, a);
    }
    forall id
      ensures IdOk(Apply(s, a), id)
    {
      if a.Start? {
        StartKeepsId(s, id);
      } else if TickEnabled(s, a) {
        TickKeepsId(s, a, id);
      } else if RecoveryEnabled(s, a) {
        RecoveryKeepsId(s, a, id);
      } else {
        EventKeepsId(s, a, id);
      }
    }
    StepKeepsStarts(s, a);
    StepKeepsHeld(s, a);
  }

  lemma {:induction false} RunKeepsInv(s: Spool, run: seq<Action>)
    requires Inv(s) && Legal(s, run)
    ensures Inv(Run(s, run))
    decreases |run|
  {
    if run != [] {
      StepKeepsInv(s, run[0]);
      RunKeepsInv(Apply(s, run[0]), run[1..]);
    }
  }

  // ------------------------------------------------------------------ what every run guarantees

  ghost predicate Reachable(s: Spool) {
    exists run :: Legal(EMPTY, run) && Run(EMPTY, run) == s
  }

  lemma ReachableIsInv(s: Spool)
    requires Reachable(s)
    ensures Inv(s)
  {
    var run :| Legal(EMPTY, run) && Run(EMPTY, run) == s;
    RunKeepsInv(EMPTY, run);
  }

  /** How often the processes of one submission were started. */
  ghost function StartCount(starts: seq<JobSpec>, sub: nat): nat {
    if starts == [] then 0
    else StartCount(starts[..|starts| - 1], sub) + if starts[|starts| - 1].sub == sub then 1 else 0
  }

  lemma {:induction false} IncreasingCountsAreFew(starts: seq<JobSpec>, sub: nat, lo: int, hi: int)
    requires forall i :: 0 <= i < |starts| && starts[i].sub == sub ==> lo <= starts[i].attempts <= hi
    requires forall i, j :: 0 <= i < j < |starts| && starts[i].sub == sub && starts[j].sub == sub ==>
               starts[i].attempts < starts[j].attempts
    requires lo <= hi + 1
    ensures StartCount(starts, sub) <= hi - lo + 1
    decreases |starts|
  {
    if starts != [] {
      var last := starts[|starts| - 1];
      IncreasingCountsAreFew(starts[..|starts| - 1], sub, lo, if last.sub == sub then last.attempts - 1 else hi);
    }
  }

  /**
   * However often and wherever the daemon crashes, a submission that came with
   * count n is started at most 1 + (MAX_JOB_RECOVERY_ATTEMPTS - n) times (once
   * when n is past the maximum): three times for an ordinary spec.
   */
  lemma StartsAreBounded(s: Spool, sub: nat)
    requires Reachable(s) && sub < |s.submitted|
    ensures var n := s.submitted[sub].attempts;
            StartCount(s.starts, sub) <= if n > 2 then 1 else 3 - n
  {
    ReachableIsInv(s);
    var n := s.submitted[sub].attempts;
    IncreasingCountsAreFew(s.starts, sub, n, if n > MAX_JOB_RECOVERY_ATTEMPTS then n else MAX_JOB_RECOVERY_ATTEMPTS);
  }

  /** Each start of a submission carries its own recovery count, larger than the one before. */
  lemma StartsCarryDistinctCounts(s: Spool, i: nat, j: nat)
    requires Reachable(s) && i < j < |s.starts| && s.starts[i].sub == s.starts[j].sub
    ensures s.starts[i].attempts < s.starts[j].attempts
  {
    ReachableIsInv(s);
  }

  /**
   * Until its process exits or it is refused or failed out, a submission's spec is
   * in the spool, if and only if recovery has not overwritten it in the queue with
   * an orphan of the same id.
   */
  lemma SubmissionsAreHeldUnlessOverwritten(s: Spool, sub: nat)
    requires Reachable(s) && sub < |s.submitted| && sub !in s.closed
    ensures Held(s, s.submitted[sub].id, sub) <==> sub !in s.overwritten
  {
    ReachableIsInv(s);
  }

  /** The step ends what was submitted: its process exits, or its spec is refused, rejected or failed out. */
  ghost predicate Closes(s: Spool, a: Action, n: nat)
    requires Enabled(s, a)
  {
    match a
    case Exit(x) => s.running[x].sub == n
    case Refuse => s.running[s.phase.cands[0].id].sub == n
    case RemoveFailed => s.running[s.phase.todo[0]].sub == n
    case Reject => s.pending[s.phase.cands[0].id].sub == n
    case _ => false
  }

  /** The step requeues an orphan over another submission's spec of the same id. */
  ghost predicate Overwrites(s: Spool, a: Action, n: nat)
    requires Enabled(s, a)
  {
    && a.Requeue? && s.phase.todo[0] in s.queue && s.queue[s.phase.todo[0]].sub == n
    && s.running[s.phase.todo[0]].sub != n
  }

  ghost predicate ClosedIn(s: Spool, run: seq<Action>, n: nat)
    requires Legal(s, run)
    decreases |run|
  {
    run != [] && (Closes(s, run[0], n) || ClosedIn(Apply(s, run[0]), run[1..], n))
  }

  ghost predicate OverwrittenIn(s: Spool, run: seq<Action>, n: nat)
    requires Legal(s, run)
    decreases |run|
  {
    run != [] && (Overwrites(s, run[0], n) || OverwrittenIn(Apply(s, run[0]), run[1..], n))
  }

  /** A submission counts as closed, or as overwritten, exactly if a step of the run has done that to it. */
  lemma {:induction false} ClosedAndOverwrittenExactly(s: Spool, run: seq<Action>, n: nat)
    requires Legal(s, run)
    ensures n in Run(s, run).closed <==> n in s.closed || ClosedIn(s, run, n)
    ensures n in Run(s, run).overwritten <==> n in s.overwritten || OverwrittenIn(s, run, n)
    decreases |run|
  {
    if run != [] {
      StepEndsExactly(s, run[0], n);
      ClosedAndOverwrittenExactly(Apply(s, run[0]), run[1..], n);
    }
  }

  lemma StepEndsExactly(s: Spool, a: Action, n: nat)
    requires Enabled(s, a)
    ensures n in Apply(s, a).closed <==> n in s.closed || Closes(s, a, n)
    ensures n in Apply(s, a).overwritten <==> n in s.overwritten || Overwrites(s, a, n)
  {
  }

  /** No id comes while a spec under it is still somewhere in the spool. */
  ghost predicate IdsAreUnique(s: Spool, run: seq<Action>)
    requires Legal(s, run)
    decreases |run|
  {
    run != [] ==>
      && (run[0].Submit? || run[0].Enqueue? ==> !Live(s, run[0].id))
      && IdsAreUnique(Apply(s, run[0]), run[1..])
  }

  /** All specs of this id are of one submission. */
  ghost predicate OneSubmission(s: Spool, x: Id) {
    && (x in s.pending && x in s.queue ==> s.pending[x].sub == s.queue[x].sub)
    && (x in s.pending && x in s.running ==> s.pending[x].sub == s.running[x].sub)
    && (x in s.queue && x in s.running ==> s.queue[x].sub == s.running[x].sub)
  }

  lemma StepKeepsOneSubmission(s: Spool, a: Action, x: Id)
    requires Inv(s) && Enabled(s, a) && OneSubmission(s, x)
    requires a.Submit? || a.Enqueue? ==> !Live(s, a.id)
    ensures OneSubmission(Apply(s, a), x)
  {
    assert IdOk(s, x);
  }

  lemma NothingDisplacedHere(s: Spool, a: Action)
    requires Enabled(s, a) && (a.Requeue? ==> OneSubmission(s, s.phase.todo[0]))
    ensures Apply(s, a).overwritten == s.overwritten
  {
  }

  lemma {:induction false} UniqueIdsOverwriteNothing(s: Spool, run: seq<Action>)
    requires Inv(s) && (forall x :: OneSubmission(s, x)) && s.overwritten == {}
    requires Legal(s, run) && IdsAreUnique(s, run)
    ensures Inv(Run(s, run)) && Run(s, run).overwritten == {}
    decreases |run|
  {
    if run != [] {
      var t := Apply(s, run[0]);
      StepKeepsInv(s, run[0]);
      NothingDisplacedHere(s, run[0]);
      forall x ensures OneSubmission(t, x) {
        StepKeepsOneSubmission(s, run[0], x);
      }
      UniqueIdsOverwriteNothing(t, run[1..]);
    }
  }

  /** Where job ids are unique among live jobs, nothing submitted is ever lost. */
  lemma SubmissionsAreNeverLost(run: seq<Action>, sub: nat)
    requires Legal(EMPTY, run) && IdsAreUnique(EMPTY, run)
    requires var s := Run(EMPTY, run); sub < |s.submitted| && sub !in s.closed
    ensures var s := Run(EMPTY, run); Held(s, s.submitted[sub].id, sub)
  {
    UniqueIdsOverwriteNothing(EMPTY, run);
  }

  lemma AtMostThreeProcesses(s: Spool)
    requires Reachable(s)
    ensures |s.procs| <= 3
    ensures s.phase.Idle? ==> s.running.Keys == s.procs
  {
    ReachableIsInv(s);
  }

  // A count below zero (the field is read from the submitted file as it stands) buys extra starts.

  ghost predicate Waiting(s: Spool, src: Source, x: Id, spec: JobSpec) {
    && s.phase.Idle? && s.procs == {} && s.running == map[]
    && s.pending == (if src.FromPending? then map[x := spec] else map[])
    && s.queue == (if src.FromQueue? then map[x := spec] else map[])
  }

  lemma ReachableStep(s: Spool, a: Action)
    requires Reachable(s) && Enabled(s, a)
    ensures Reachable(Apply(s, a))
  {
    var run :| Legal(EMPTY, run) && Run(EMPTY, run) == s;
    assert Legal(s, [a]);
    RunThen(EMPTY, run, [a]);
  }

  lemma EmptyIsReachable()
    ensures Reachable(EMPTY)
  {
    assert Legal(EMPTY, []);
  }

  lemma Submitting(x: Id, n: int) returns (s: Spool)
    ensures Reachable(s) && Waiting(s, FromPending, x, JobSpec(0, n))
    ensures s.starts == [] && s.submitted == [Submission(x, n)] && s.closed == {}
  {
    EmptyIsReachable();
    ReachableStep(EMPTY, Boot([]));
    s := Apply(EMPTY, Boot([]));
    ReachableStep(s, Recovered);
    s := Apply(s, Recovered);
    ReachableStep(s, Submit(x, n));
    s := Apply(s, Submit(x, n));
  }

  lemma Copying(s: Spool, src: Source, x: Id, spec: JobSpec) returns (t: Spool)
    requires Reachable(s) && Waiting(s, src, x, spec)
    ensures Reachable(t) && t.starts == s.starts && t.submitted == s.submitted && t.closed == s.closed
    ensures t.phase == Copied([Candidate(src, x)])
    ensures t.pending == s.pending && t.queue == s.queue && t.running == map[x := spec]
  {
    var scan := if src.FromPending? then Scan([x], []) else Scan([], [x]);
    ReachableStep(s, scan);
    t := Apply(s, scan);
    assert t.phase.cands == [Candidate(src, x)];
    ReachableStep(t, Copy);
    t := Apply(t, Copy);
  }

  lemma Starting(s: Spool, src: Source, x: Id, spec: JobSpec) returns (t: Spool)
    requires Reachable(s) && Waiting(s, src, x, spec)
    ensures Reachable(t) && t.starts == s.starts + [spec] && t.submitted == s.submitted && t.closed == s.closed
    ensures t.pending == map[] && t.queue == map[] && t.running == map[x := spec]
  {
    t := Copying(s, src, x, spec);
    ReachableStep(t, RemoveSource);
    t := Apply(t, RemoveSource);
    assert t.pending.Keys == {} && t.queue.Keys == {};
    ReachableStep(t, Start);
    t := Apply(t, Start);
  }

  lemma Rebooting(s: Spool, x: Id, spec: JobSpec) returns (t: Spool)
    requires Reachable(s) && s.running == map[x := spec]
    ensures Reachable(t) && t == s.(procs := {}, phase := Recovering([x]))
  {
    ReachableStep(s, Crash);
    t := Apply(s, Crash);
    ReachableStep(t, Boot([x]));
    t := Apply(t, Boot([x]));
  }

  lemma Crashing(s: Spool, x: Id, spec: JobSpec) returns (t: Spool)
    requires Reachable(s) && s.running == map[x := spec] && spec.attempts + 1 <= MAX_JOB_RECOVERY_ATTEMPTS
    ensures Reachable(t)
    ensures t == s.(procs := {}, queue := s.queue[x := spec.(attempts := spec.attempts + 1)],
                    overwritten := s.overwritten + Displaced(s, x), phase := Requeued([x]))
  {
    t := Rebooting(s, x, spec);
    ReachableStep(t, Requeue);
    t := Apply(t, Requeue);
  }

  lemma CrashingAndRecovering(s: Spool, x: Id, spec: JobSpec) returns (t: Spool)
    requires Reachable(s) && s.pending == map[] && s.queue == map[] && s.running == map[x := spec]
    requires spec.attempts + 1 <= MAX_JOB_RECOVERY_ATTEMPTS
    ensures Reachable(t) && Waiting(t, FromQueue, x, spec.(attempts := spec.attempts + 1))
    ensures t.starts == s.starts && t.submitted == s.submitted && t.closed == s.closed
  {
    t := Crashing(s, x, spec);
    ReachableStep(t, DropOrphan);
    t := Apply(t, DropOrphan);
    assert t.running.Keys == {};
    ReachableStep(t, Recovered);
    t := Apply(t, Recovered);
  }

  /** Another submission of an id that is queued: its copy is taken first, from pending. */
  lemma CopyingAhead(s: Spool, x: Id, queued: JobSpec, n: int) returns (t: Spool)
    requires Reachable(s) && Waiting(s, FromQueue, x, queued)
    ensures Reachable(t) && t.submitted == s.submitted + [Submission(x, n)] && t.closed == s.closed
    ensures t.pending == t.running == map[x := JobSpec(|s.submitted|, n)] && t.queue == map[x := queued]
    ensures t.phase == Copied([Candidate(FromPending, x), Candidate(FromQueue, x)])
  {
    ReachableStep(s, Submit(x, n));
    t := Apply(s, Submit(x, n));
    ReachableStep(t, Scan([x], [x]));
    t := Apply(t, Scan([x], [x]));
    assert t.phase.cands == [Candidate(FromPending, x), Candidate(FromQueue, x)];
    ReachableStep(t, Copy);
    t := Apply(t, Copy);
  }

  lemma StartingAhead(s: Spool, x: Id, queued: JobSpec, n: int) returns (t: Spool)
    requires Reachable(s) && Waiting(s, FromQueue, x, queued)
    ensures Reachable(t) && t.submitted == s.submitted + [Submission(x, n)] && t.closed == s.closed
    ensures t.pending == map[] && t.queue == map[x := queued]
    ensures t.running == map[x := JobSpec(|s.submitted|, n)]
  {
    t := CopyingAhead(s, x, queued, n);
    ReachableStep(t, RemoveSource);
    t := Apply(t, RemoveSource);
    assert t.pending.Keys == {};
  }

  /**
   * A submission that is lost: started, requeued after a crash, and overwritten there
   * when a second submission of its id is claimed first and orphaned in turn.
   */
  lemma AReusedIdLosesASubmission(x: Id, n: int, m: int) returns (s: Spool)
    requires n < 2 && m < 2
    ensures Reachable(s) && s.submitted == [Submission(x, n), Submission(x, m)]
    ensures 0 !in s.closed && !Held(s, x, 0)
  {
    s := Submitting(x, n);
    s := Starting(s, FromPending, x, JobSpec(0, n));
    s := CrashingAndRecovering(s, x, JobSpec(0, n));
    s := StartingAhead(s, x, JobSpec(0, n + 1), m);
    s := Crashing(s, x, JobSpec(1, m));
    assert s.submitted[0].id == x && 0 in s.overwritten;
    SubmissionsAreHeldUnlessOverwritten(s, 0);
  }

  lemma NegativeCountBuysAStart(x: Id, n: int) returns (s: Spool)
    requires n < 0
    ensures Reachable(s) && s.submitted == [Submission(x, n)]
    ensures StartCount(s.starts, 0) == 4
  {
    s := Submitting(x, n);
    var src, k := FromPending, 0;
    while k < 3
      invariant 0 <= k <= 3 && |s.starts| == k && s.submitted == [Submission(x, n)]
      invariant Reachable(s) && Waiting(s, src, x, JobSpec(0, n + k)) && StartCount(s.starts, 0) == k
    {
      var before := s;
      s := Starting(s, src, x, JobSpec(0, n + k));
      assert s.starts[..k] == before.starts;
      s := CrashingAndRecovering(s, x, JobSpec(0, n + k));
      src, k := FromQueue, k + 1;
    }
    var before := s;
    s := Starting(s, src, x, JobSpec(0, n + 3));
    assert s.starts[..3] == before.starts;
  }

  /** The bound MAX_JOB_RECOVERY_ATTEMPTS + 1 holds in every run if and only if the submitted count is not negative. */
  lemma BoundHoldsExactlyForNonNegativeCounts(x: Id, n: int)
    ensures n >= 0 <==>
            forall s, sub :: Reachable(s) && 0 <= sub < |s.submitted| && s.submitted[sub] == Submission(x, n) ==>
              StartCount(s.starts, sub) <= 3
  {
    if n >= 0 {
      forall s, sub | Reachable(s) && 0 <= sub < |s.submitted| && s.submitted[sub] == Submission(x, n)
        ensures StartCount(s.starts, sub) <= 3
      {
        StartsAreBounded(s, sub);
      }
    } else {
      var s := NegativeCountBuysAStart(x, n);
      assert s.submitted[0] == Submission(x, n);
    }
  }
}
