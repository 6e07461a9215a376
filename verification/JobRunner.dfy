/**
 * The daemon's own code over the spool: `recoverOrphanedJobs` and
 * `runPendingJobs`, as methods that write and remove one file at a time. Their
 * results are `RecoverAll` and `TickAll`, and each of these is the end of a run
 * of JobSpool's actions, so everything JobSpool proves of every run (cut by a
 * crash after any action) holds of this code.
 */
module JobRunner {
  import opened JobSpool

  // ------------------------------------------------------------------ recovery

  /** What recovery does with the first orphan. */
  function RecoverHead(s: Spool): (t: Spool)
    requires s.phase.Recovering? && s.phase.todo != []
    ensures t.phase == Recovering(s.phase.todo[1..])
  {
    var x, rest := s.phase.todo[0], s.phase.todo[1..];
    if x !in s.running then s.(phase := Recovering(rest))
    else if s.running[x].attempts + 1 > MAX_JOB_RECOVERY_ATTEMPTS then
      s.(failed := s.failed[x := s.running[x]], status := s.status + {x}, running := Without(s.running, x),
         closed := s.closed + {s.running[x].sub}, phase := Recovering(rest))
    else
      s.(queue := s.queue[x := s.running[x].(attempts := s.running[x].attempts + 1)],
         overwritten := s.overwritten + Displaced(s, x), running := Without(s.running, x), phase := Recovering(rest))
  }

  function RecoverAll(s: Spool): Spool
    requires s.phase.Recovering?
    decreases |s.phase.todo|
  {
    if s.phase.todo == [] then s.(phase := Idle) else RecoverAll(RecoverHead(s))
  }

  lemma RequeueIsARun(s: Spool, x: Id) returns (run: seq<Action>)
    requires s.phase.Recovering? && s.phase.todo != [] && s.phase.todo[0] == x && x in s.running
    requires s.running[x].attempts + 1 <= MAX_JOB_RECOVERY_ATTEMPTS
    ensures Legal(s, run) && Run(s, run) == RecoverHead(s)
  {
    run := [Requeue, DropOrphan];
    var s1 := Apply(s, Requeue);
    assert run[1..] == [DropOrphan] && [DropOrphan][1..] == [];
    assert Legal(Apply(s1, DropOrphan), []) && Legal(s1, [DropOrphan]);
  }

  lemma FailingOutIsARun(s: Spool, x: Id) returns (run: seq<Action>)
    requires s.phase.Recovering? && s.phase.todo != [] && s.phase.todo[0] == x && x in s.running
    requires s.running[x].attempts + 1 > MAX_JOB_RECOVERY_ATTEMPTS
    ensures Legal(s, run) && Run(s, run) == RecoverHead(s)
  {
    run := [WriteFailed, WriteStatus, RemoveFailed];
    var s1 := Apply(s, WriteFailed);
    var s2 := Apply(s1, WriteStatus);
    assert run[1..] == [WriteStatus, RemoveFailed] && run[1..][1..] == [RemoveFailed];
    assert Legal(Apply(s2, RemoveFailed), []) && Legal(s2, [RemoveFailed]) && Legal(s1, run[1..]);
  }

  lemma RecoverHeadIsARun(s: Spool) returns (run: seq<Action>)
    requires Inv(s) && s.phase.Recovering? && s.phase.todo != []
    ensures Legal(s, run) && Run(s, run) == RecoverHead(s)
  {
    var x := s.phase.todo[0];
    assert x in s.phase.todo && x in s.running;
    if s.running[x].attempts + 1 > MAX_JOB_RECOVERY_ATTEMPTS {
      run := FailingOutIsARun(s, x);
    } else {
      run := RequeueIsARun(s, x);
    }
  }

  /** Recovery as a whole is a run of the spool's atomic actions. */
  lemma {:induction false} RecoverAllIsARun(s: Spool) returns (run: seq<Action>)
    requires Inv(s) && s.phase.Recovering?
    ensures Legal(s, run) && Run(s, run) == RecoverAll(s)
    decreases |s.phase.todo|
  {
    if s.phase.todo == [] {
      run := [Recovered];
      assert Legal(Apply(s, Recovered), []) && run[1..] == [];
    } else {
      var first := RecoverHeadIsARun(s);
      RunKeepsInv(s, first);
      var rest := RecoverAllIsARun(RecoverHead(s));
      RunThen(s, first, rest);
      run := first + rest;
    }
  }

  /** Recovery does not touch the files of a job that was not running. */
  lemma {:induction false} RecoveryLeavesOthersAlone(s: Spool, x: Id)
    requires s.phase.Recovering? && Lists(s.phase.todo, s.running.Keys) && x !in s.running
    ensures SameFiles(s, RecoverAll(s), x)
    decreases |s.phase.todo|
  {
    if s.phase.todo != [] {
      ListsTail(s.phase.todo, s.running.Keys);
      assert s.phase.todo[0] in s.running;
      RecoveryLeavesOthersAlone(RecoverHead(s), x);
    }
  }

  /** Every orphan is requeued with one more attempt, or failed out for good with its spec and a status kept. */
  lemma {:induction false} RecoverySettlesEveryOrphan(s: Spool, x: Id)
    requires s.phase.Recovering? && Lists(s.phase.todo, s.running.Keys) && x in s.running
    ensures var t := RecoverAll(s);
            if s.running[x].attempts < 2 then
              x in t.queue && t.queue[x] == s.running[x].(attempts := s.running[x].attempts + 1)
            else
              x in t.failed && t.failed[x] == s.running[x] && x in t.status
    decreases |s.phase.todo|
  {
    ListsTail(s.phase.todo, s.running.Keys);
    var h := RecoverHead(s);
    if s.phase.todo[0] == x {
      RecoveryLeavesOthersAlone(h, x);
    } else {
      assert s.phase.todo[0] in s.running;
      assert x in h.running && h.running[x] == s.running[x];
      RecoverySettlesEveryOrphan(h, x);
    }
    assert RecoverAll(s) == RecoverAll(h);
  }

  /** After recovery nothing is marked running, and nothing else of the spool has moved. */
  lemma {:induction false} RecoveryLeavesNothingRunning(s: Spool)
    requires s.phase.Recovering? && Lists(s.phase.todo, s.running.Keys)
    ensures RecoverAll(s).running == map[] && RecoverAll(s).phase == Idle
    ensures RecoverAll(s).pending == s.pending && RecoverAll(s).starts == s.starts
    decreases |s.phase.todo|
  {
    if s.phase.todo != [] {
      ListsTail(s.phase.todo, s.running.Keys);
      RecoveryLeavesNothingRunning(RecoverHead(s));
    } else {
      assert s.running.Keys == {};
    }
  }

  ghost predicate SameFiles(s: Spool, t: Spool, x: Id) {
    && (x in t.queue <==> x in s.queue) && (x in s.queue ==> t.queue[x] == s.queue[x])
    && (x in t.failed <==> x in s.failed) && (x in s.failed ==> t.failed[x] == s.failed[x])
    && (x in t.status <==> x in s.status)
  }

  // ------------------------------------------------------------------ the tick

  /** A claimed spec, moved into the running set; `claimPending` and `claimQueued` when they accept. */
  function Claim(s: Spool, c: Candidate): (t: Spool)
    requires c.id in SourceDir(s, c)
  {
    var spec := SourceDir(s, c)[c.id];
    if c.source.FromPending? then
      s.(pending := Without(s.pending, c.id), running := s.running[c.id := spec])
    else
      s.(queue := Without(s.queue, c.id), running := s.running[c.id := spec])
  }

  /** A claimed job becomes a process, unless its identity, script, log or spawn is refused. */
  function StartOrRefuse(s: Spool, x: Id, runnable: set<Id>): Spool
    requires x in s.running
  {
    if x in runnable then
      s.(procs := s.procs + {x}, starts := s.starts + [s.running[x]])
    else
      s.(running := Without(s.running, x), closed := s.closed + {s.running[x].sub}, refusals := s.refusals + [x])
  }

  /** `trusted` are the ids whose pending file passes the ownership, name and shape checks. */
  predicate Claimable(s: Spool, c: Candidate, trusted: set<Id>) {
    c.id in SourceDir(s, c) && c.id !in s.running && (c.source.FromPending? ==> c.id in trusted)
  }

  /** A candidate that is not claimed: a pending file is deleted, a queued one stays. */
  function PassOver(s: Spool, c: Candidate): Spool {
    if c.source.FromPending? && c.id in s.pending then
      s.(pending := Without(s.pending, c.id), closed := s.closed + {s.pending[c.id].sub})
    else s
  }

  function TickHead(s: Spool, trusted: set<Id>, runnable: set<Id>): (t: Spool)
    requires s.phase.Scanning? && s.phase.cands != []
    ensures t.phase == Scanning(s.phase.cands[1..])
  {
    var c := s.phase.cands[0];
    var done := if Claimable(s, c, trusted) then StartOrRefuse(Claim(s, c), c.id, runnable) else PassOver(s, c);
    done.(phase := Scanning(s.phase.cands[1..]))
  }

  /** Between claims, the running set holds exactly the jobs whose process is watched. */
  lemma RunningIsWatched(s: Spool, trusted: set<Id>, runnable: set<Id>)
    requires s.phase.Scanning? && s.phase.cands != [] && s.running.Keys == s.procs
    ensures TickHead(s, trusted, runnable).running.Keys == TickHead(s, trusted, runnable).procs
  {
    var c := s.phase.cands[0];
    if Claimable(s, c, trusted) {
      assert Claim(s, c).running.Keys == s.procs + {c.id};
    }
  }

  function TickAll(s: Spool, trusted: set<Id>, runnable: set<Id>): Spool
    requires s.phase.Scanning?
    decreases |s.phase.cands|
  {
    if s.phase.cands == [] || |s.procs| >= MAX_CONCURRENT_JOBS then s.(phase := Idle)
    else TickAll(TickHead(s, trusted, runnable), trusted, runnable)
  }

  lemma TickAllGoesOn(s: Spool, trusted: set<Id>, runnable: set<Id>)
    requires s.phase.Scanning? && s.phase.cands != [] && |s.procs| < MAX_CONCURRENT_JOBS
    ensures TickHead(s, trusted, runnable).phase == Scanning(s.phase.cands[1..])
    ensures TickAll(s, trusted, runnable) == TickAll(TickHead(s, trusted, runnable), trusted, runnable)
  {
  }

  lemma TickAllStops(s: Spool, trusted: set<Id>, runnable: set<Id>)
    requires s.phase.Scanning? && (s.phase.cands == [] || |s.procs| >= MAX_CONCURRENT_JOBS)
    ensures TickAll(s, trusted, runnable) == s.(phase := Idle)
  {
  }

  lemma Preceded(s: Spool, a: Action, rest: seq<Action>)
    requires Enabled(s, a) && Legal(Apply(s, a), rest)
    ensures Legal(s, [a] + rest) && Run(s, [a] + rest) == Run(Apply(s, a), rest)
  {
    assert ([a] + rest)[0] == a && ([a] + rest)[1..] == rest;
  }

  lemma ClaimIsARun(s: Spool, runnable: set<Id>) returns (run: seq<Action>)
    requires s.phase.Scanning? && TickEnabled(s, Copy)
    ensures var c := s.phase.cands[0];
            && Legal(s, run)
            && Run(s, run) == StartOrRefuse(Claim(s, c), c.id, runnable).(phase := Scanning(s.phase.cands[1..]))
  {
    var c := s.phase.cands[0];
    var last := if c.id in runnable then Start else Refuse;
    var s1 := Apply(s, Copy);
    var s2 := Apply(s1, RemoveSource);
    Preceded(s2, last, []);
    Preceded(s1, RemoveSource, [last] + []);
    Preceded(s, Copy, [RemoveSource] + ([last] + []));
    run := [Copy] + ([RemoveSource] + ([last] + []));
  }

  lemma TickHeadIsARun(s: Spool, trusted: set<Id>, runnable: set<Id>) returns (run: seq<Action>)
    requires s.phase.Scanning? && s.phase.cands != [] && |s.procs| < MAX_CONCURRENT_JOBS
    ensures Legal(s, run) && Run(s, run) == TickHead(s, trusted, runnable)
  {
    var c := s.phase.cands[0];
    if c.id in SourceDir(s, c) && c.id !in s.running && (c.source.FromPending? ==> c.id in trusted) {
      run := ClaimIsARun(s, runnable);
    } else {
      var a := if c.source.FromPending? && c.id in s.pending then Reject else Skip;
      run := [a];
      assert Legal(Apply(s, a), []) && run[1..] == [];
    }
  }

  /** A heartbeat as a whole is a run of the spool's atomic actions. */
  lemma {:induction false} TickAllIsARun(s: Spool, trusted: set<Id>, runnable: set<Id>) returns (run: seq<Action>)
    requires s.phase.Scanning?
    ensures Legal(s, run) && Run(s, run) == TickAll(s, trusted, runnable)
    decreases |s.phase.cands|
  {
    if s.phase.cands == [] || |s.procs| >= MAX_CONCURRENT_JOBS {
      run := [EndScan];
      assert Legal(Apply(s, EndScan), []) && run[1..] == [];
    } else {
      var first := TickHeadIsARun(s, trusted, runnable);
      var rest := TickAllIsARun(TickHead(s, trusted, runnable), trusted, runnable);
      RunThen(s, first, rest);
      run := first + rest;
    }
  }

  // ------------------------------------------------------------------ what a tick does to each file

  /** The tick has started this spec, and its process is watched. */
  ghost predicate Started(s: Spool, t: Spool, x: Id, spec: JobSpec) {
    && x in t.procs && x in t.running && t.running[x] == spec
    && exists i :: |s.starts| <= i < |t.starts| && t.starts[i] == spec
  }

  /** The tick has claimed this spec and dropped it unstarted. */
  ghost predicate Refused(s: Spool, t: Spool, x: Id, spec: JobSpec) {
    spec.sub in t.closed && exists i :: |s.refusals| <= i < |t.refusals| && t.refusals[i] == x
  }

  /** A pending file the tick came to: started or refused if it is trusted and not running, else deleted. */
  ghost predicate PendingSettled(s: Spool, t: Spool, x: Id, trusted: set<Id>, runnable: set<Id>)
    requires x in s.pending
  {
    && x !in t.pending
    && if x in trusted && x !in s.running then
         if x in runnable then Started(s, t, x, s.pending[x]) else Refused(s, t, x, s.pending[x])
       else
         && s.pending[x].sub in t.closed
         && (x !in s.queue ==> x !in t.queue && (x in t.running <==> x in s.running))
         && (x in s.running ==> x in t.running && t.running[x] == s.running[x])
  }

  /** A queued file the tick came to: left while a job of its id runs, else started or refused. */
  ghost predicate QueuedSettled(s: Spool, t: Spool, x: Id, runnable: set<Id>)
    requires x in s.queue
  {
    if x in t.queue then t.queue[x] == s.queue[x] && x in t.running
    else if x in runnable then Started(s, t, x, s.queue[x])
    else Refused(s, t, x, s.queue[x])
  }

  predicate PendingFirst(cands: seq<Candidate>) {
    && (forall i, j :: 0 <= i < j < |cands| ==> cands[i] != cands[j])
    && (forall i, j :: 0 <= i < j < |cands| && cands[j].source.FromPending? ==> cands[i].source.FromPending?)
  }

  /**
   * A job the tick has started comes from the queue, or from a pending file that is
   * trusted; none of its id was running.
   */
  ghost predicate Entitled(s: Spool, t: Spool, cands: seq<Candidate>, x: Id, trusted: set<Id>, runnable: set<Id>)
    requires x in t.running
  {
    && x in runnable && x !in s.running
    && (|| (Candidate(FromPending, x) in cands && x in s.pending && t.running[x] == s.pending[x] && x in trusted)
        || (Candidate(FromQueue, x) in cands && x in s.queue && t.running[x] == s.queue[x]))
  }

  /** What no tick does: change a file it leaves, stop a process, or rewrite the history. */
  ghost predicate Advanced(s: Spool, t: Spool) {
    && |s.starts| <= |t.starts| && (forall i :: 0 <= i < |s.starts| ==> t.starts[i] == s.starts[i])
    && |s.refusals| <= |t.refusals| && (forall i :: 0 <= i < |s.refusals| ==> t.refusals[i] == s.refusals[i])
    && s.closed <= t.closed && s.procs <= t.procs && t.running.Keys == t.procs
    && (forall x :: x in s.running ==> x in t.running && t.running[x] == s.running[x])
    && (forall x :: x in t.pending ==> x in s.pending && t.pending[x] == s.pending[x])
    && (forall x :: x in t.queue ==> x in s.queue && t.queue[x] == s.queue[x])
    && t.failed == s.failed && t.status == s.status && t.submitted == s.submitted && t.overwritten == s.overwritten
    && |t.starts| - |s.starts| == |t.procs| - |s.procs|
  }

  /** What has been started is what has processes now, and everything so started is entitled to. */
  ghost predicate StartsAreEntitled(s: Spool, t: Spool, cands: seq<Candidate>, trusted: set<Id>, runnable: set<Id>)
    requires t.running.Keys == t.procs
  {
    && (forall x :: x in t.procs && x !in s.procs ==> Entitled(s, t, cands, x, trusted, runnable))
    && (forall i :: |s.starts| <= i < |t.starts| ==>
          exists x :: x in t.procs && x !in s.procs && t.starts[i] == t.running[x])
  }

  ghost predicate FilesSettled(s: Spool, t: Spool, cands: seq<Candidate>, trusted: set<Id>, runnable: set<Id>) {
    && (forall x :: x in s.pending ==>
          if Candidate(FromPending, x) in cands then PendingSettled(s, t, x, trusted, runnable) else x in t.pending)
    && (forall x :: x in s.queue ==>
          if Candidate(FromQueue, x) in cands then QueuedSettled(s, t, x, runnable) else x in t.queue)
  }

  /** The tick has come to these candidates. */
  ghost predicate Settled(s: Spool, t: Spool, cands: seq<Candidate>, trusted: set<Id>, runnable: set<Id>) {
    && Advanced(s, t)
    && FilesSettled(s, t, cands, trusted, runnable)
    && StartsAreEntitled(s, t, cands, trusted, runnable)
  }

  /**
   * All that a tick does: it comes to the first n candidates, to all unless the places
   * run out, and then the last one it came to has taken the last place.
   */
  ghost predicate TickOutcome(s: Spool, t: Spool, cands: seq<Candidate>, n: nat, trusted: set<Id>, runnable: set<Id>) {
    && n <= |cands| && Settled(s, t, cands[..n], trusted, runnable)
    && (n < |cands| ==> |t.procs| >= 3)
    && (n > 0 && |t.procs| >= 3 ==> cands[n - 1].id in t.procs && cands[n - 1].id !in s.procs)
  }

  lemma StartedStays(s: Spool, h: Spool, t: Spool, x: Id, spec: JobSpec)
    requires Advanced(s, h) && Advanced(h, t)
    ensures Started(s, h, x, spec) || Started(h, t, x, spec) ==> Started(s, t, x, spec)
    ensures Refused(s, h, x, spec) || Refused(h, t, x, spec) ==> Refused(s, t, x, spec)
  {
    if Started(s, h, x, spec) {
      var i :| |s.starts| <= i < |h.starts| && h.starts[i] == spec;
      assert t.starts[i] == spec;
    }
    if Refused(s, h, x, spec) {
      var i :| |s.refusals| <= i < |h.refusals| && h.refusals[i] == x;
      assert t.refusals[i] == x;
    }
  }

  lemma AdvancedOn(s: Spool, h: Spool, t: Spool)
    requires Advanced(s, h) && Advanced(h, t)
    ensures Advanced(s, t)
  {
  }

  /** The candidate's file has left its directory, and no other has. */
  ghost predicate Taken(s: Spool, t: Spool, c: Candidate) {
    && t.pending == (if c.source.FromPending? then Without(s.pending, c.id) else s.pending)
    && t.queue == (if c.source.FromQueue? then Without(s.queue, c.id) else s.queue)
    && t.failed == s.failed && t.status == s.status && t.submitted == s.submitted && t.overwritten == s.overwritten
  }

  /** A spec was claimed and its process started. */
  ghost predicate ClaimedAndStarted(s: Spool, t: Spool, c: Candidate)
    requires c.id in SourceDir(s, c)
  {
    && Taken(s, t, c)
    && t.running == s.running[c.id := SourceDir(s, c)[c.id]] && t.procs == s.procs + {c.id}
    && t.starts == s.starts + [SourceDir(s, c)[c.id]] && t.refusals == s.refusals && t.closed == s.closed
  }

  /** A spec was claimed and dropped. */
  ghost predicate ClaimedAndDropped(s: Spool, t: Spool, c: Candidate)
    requires c.id in SourceDir(s, c)
  {
    && Taken(s, t, c) && t.running == s.running && t.procs == s.procs && t.starts == s.starts
    && t.refusals == s.refusals + [c.id] && t.closed == s.closed + {SourceDir(s, c)[c.id].sub}
  }

  lemma TakenFiles(s: Spool, t: Spool, c: Candidate)
    requires Taken(s, t, c)
    ensures forall x :: x in t.pending ==> x in s.pending && t.pending[x] == s.pending[x]
    ensures forall x :: x in t.queue ==> x in s.queue && t.queue[x] == s.queue[x]
    ensures forall x :: x in s.pending && c != Candidate(FromPending, x) ==> x in t.pending
    ensures forall x :: x in s.queue && c != Candidate(FromQueue, x) ==> x in t.queue
    ensures c.id !in SourceDir(t, c)
  {
  }

  lemma StartAdvances(s: Spool, c: Candidate, t: Spool)
    requires s.running.Keys == s.procs && c.id in SourceDir(s, c) && c.id !in s.running
    requires ClaimedAndStarted(s, t, c)
    ensures Advanced(s, t) && Started(s, t, c.id, SourceDir(s, c)[c.id])
  {
    TakenFiles(s, t, c);
    assert t.starts[|s.starts|] == SourceDir(s, c)[c.id];
  }

  lemma StartIsEntitled(s: Spool, c: Candidate, t: Spool, trusted: set<Id>, runnable: set<Id>)
    requires s.running.Keys == s.procs && c.id in SourceDir(s, c) && c.id !in s.running && c.id in runnable
    requires (c.source.FromPending? ==> c.id in trusted) && ClaimedAndStarted(s, t, c)
    ensures t.running.Keys == t.procs && StartsAreEntitled(s, t, [c], trusted, runnable)
  {
    assert c in [c] && c == Candidate(c.source, c.id);
    assert Entitled(s, t, [c], c.id, trusted, runnable);
    assert t.starts[|s.starts|] == t.running[c.id];
  }

  lemma OneFileSettled(s: Spool, t: Spool, c: Candidate, trusted: set<Id>, runnable: set<Id>)
    requires Taken(s, t, c)
    requires c.id in SourceDir(s, c) ==>
               match c.source
               case FromPending => PendingSettled(s, t, c.id, trusted, runnable)
               case FromQueue => QueuedSettled(s, t, c.id, runnable)
    ensures FilesSettled(s, t, [c], trusted, runnable)
  {
    TakenFiles(s, t, c);
    forall d ensures d in [c] <==> d == c {
    }
  }

  lemma StartSettles(s: Spool, c: Candidate, t: Spool, trusted: set<Id>, runnable: set<Id>)
    requires s.running.Keys == s.procs && c.id in SourceDir(s, c) && c.id !in s.running && c.id in runnable
    requires (c.source.FromPending? ==> c.id in trusted) && ClaimedAndStarted(s, t, c)
    ensures Settled(s, t, [c], trusted, runnable)
  {
    StartAdvances(s, c, t);
    StartIsEntitled(s, c, t, trusted, runnable);
    TakenFiles(s, t, c);
    OneFileSettled(s, t, c, trusted, runnable);
  }

  lemma RefusalSettles(s: Spool, c: Candidate, t: Spool, trusted: set<Id>, runnable: set<Id>)
    requires s.running.Keys == s.procs && c.id in SourceDir(s, c) && c.id !in s.running && c.id !in runnable
    requires (c.source.FromPending? ==> c.id in trusted) && ClaimedAndDropped(s, t, c)
    ensures Settled(s, t, [c], trusted, runnable)
  {
    TakenFiles(s, t, c);
    assert Refused(s, t, c.id, SourceDir(s, c)[c.id]) by {
      assert t.refusals[|s.refusals|] == c.id;
    }
    OneFileSettled(s, t, c, trusted, runnable);
  }

  lemma HeadIsClaimed(s: Spool, trusted: set<Id>, runnable: set<Id>)
    requires s.phase.Scanning? && s.phase.cands != [] && s.running.Keys == s.procs
    requires var c := s.phase.cands[0];
             c.id in SourceDir(s, c) && c.id !in s.running && (c.source.FromPending? ==> c.id in trusted)
    ensures var c, t := s.phase.cands[0], TickHead(s, trusted, runnable);
            if c.id in runnable then ClaimedAndStarted(s, t, c) else ClaimedAndDropped(s, t, c)
  {
    var c := s.phase.cands[0];
    assert Without(s.running[c.id := SourceDir(s, c)[c.id]], c.id) == s.running;
  }

  lemma PassingSettles(s: Spool, c: Candidate, t: Spool, trusted: set<Id>, runnable: set<Id>)
    requires s.running.Keys == s.procs && t == PassOver(s, c).(phase := t.phase)
    requires c.id !in SourceDir(s, c) || c.id in s.running || (c.source.FromPending? && c.id !in trusted)
    ensures Settled(s, t, [c], trusted, runnable)
  {
    assert t.running == s.running && t.procs == s.procs && t.starts == s.starts && t.queue == s.queue;
  }

  lemma HeadSettles(s: Spool, trusted: set<Id>, runnable: set<Id>)
    requires s.phase.Scanning? && s.phase.cands != [] && s.running.Keys == s.procs
    ensures Settled(s, TickHead(s, trusted, runnable), [s.phase.cands[0]], trusted, runnable)
  {
    var c, t := s.phase.cands[0], TickHead(s, trusted, runnable);
    if c.id !in SourceDir(s, c) || c.id in s.running || (c.source.FromPending? && c.id !in trusted) {
      PassingSettles(s, c, t, trusted, runnable);
    } else {
      HeadIsClaimed(s, trusted, runnable);
      if c.id in runnable {
        StartSettles(s, c, t, trusted, runnable);
      } else {
        RefusalSettles(s, c, t, trusted, runnable);
      }
    }
  }

  lemma PendingStaysSettled(s: Spool, h: Spool, t: Spool, c: Candidate, rest: seq<Candidate>, x: Id,
                            trusted: set<Id>, runnable: set<Id>)
    requires x in s.pending && c == Candidate(FromPending, x) && PendingSettled(s, h, x, trusted, runnable)
    requires Advanced(s, h) && Advanced(h, t) && StartsAreEntitled(h, t, rest, trusted, runnable) && c !in rest
    ensures PendingSettled(s, t, x, trusted, runnable)
  {
    StartedStays(s, h, t, x, s.pending[x]);
    assert x in t.procs && x !in h.procs ==> Entitled(h, t, rest, x, trusted, runnable);
  }

  lemma LaterPendingSettled(s: Spool, h: Spool, t: Spool, c: Candidate, x: Id, trusted: set<Id>, runnable: set<Id>)
    requires x in h.pending && PendingSettled(h, t, x, trusted, runnable)
    requires c.source.FromPending? && c.id != x && s.running.Keys == s.procs
    requires Advanced(s, h) && Advanced(h, t) && StartsAreEntitled(s, h, [c], trusted, runnable)
    ensures x in s.pending && PendingSettled(s, t, x, trusted, runnable)
  {
    StartedStays(s, h, t, x, s.pending[x]);
    assert x in h.procs && x !in s.procs ==> Entitled(s, h, [c], x, trusted, runnable);
  }

  lemma QueuedStaysSettled(s: Spool, h: Spool, t: Spool, x: Id, runnable: set<Id>)
    requires x in s.queue && Advanced(s, h) && Advanced(h, t)
    requires (QueuedSettled(s, h, x, runnable) && (x in h.queue ==> x in t.queue))
             || (x in h.queue && QueuedSettled(h, t, x, runnable))
    ensures QueuedSettled(s, t, x, runnable)
  {
    StartedStays(s, h, t, x, s.queue[x]);
  }

  lemma EntitledOn(s: Spool, h: Spool, t: Spool, c: Candidate, rest: seq<Candidate>,
                   trusted: set<Id>, runnable: set<Id>)
    requires Advanced(s, h) && Advanced(h, t) && s.running.Keys == s.procs
    requires StartsAreEntitled(s, h, [c], trusted, runnable) && StartsAreEntitled(h, t, rest, trusted, runnable)
    ensures StartsAreEntitled(s, t, [c] + rest, trusted, runnable)
  {
    forall x | x in t.procs && x !in s.procs ensures Entitled(s, t, [c] + rest, x, trusted, runnable) {
      if x in h.procs {
        assert Entitled(s, h, [c], x, trusted, runnable);
      } else {
        assert Entitled(h, t, rest, x, trusted, runnable);
      }
    }
    forall i | |s.starts| <= i < |t.starts|
      ensures exists x :: x in t.procs && x !in s.procs && t.starts[i] == t.running[x]
    {
      if i < |h.starts| {
        var x :| x in h.procs && x !in s.procs && h.starts[i] == h.running[x];
        assert t.starts[i] == t.running[x];
      } else {
        var x :| x in t.procs && x !in h.procs && t.starts[i] == t.running[x];
        assert x !in s.procs;
      }
    }
  }

  lemma FilesSettledOn(s: Spool, h: Spool, t: Spool, c: Candidate, rest: seq<Candidate>,
                       trusted: set<Id>, runnable: set<Id>)
    requires s.running.Keys == s.procs && PendingFirst([c] + rest)
    requires Settled(s, h, [c], trusted, runnable) && Settled(h, t, rest, trusted, runnable)
    ensures FilesSettled(s, t, [c] + rest, trusted, runnable)
  {
    var cands := [c] + rest;
    forall x | x in s.pending
      ensures if Candidate(FromPending, x) in cands then PendingSettled(s, t, x, trusted, runnable) else x in t.pending
    {
      PendingFileOn(s, h, t, c, rest, x, trusted, runnable);
    }
    forall x | x in s.queue
      ensures if Candidate(FromQueue, x) in cands then QueuedSettled(s, t, x, runnable) else x in t.queue
    {
      QueuedFileOn(s, h, t, c, rest, x, trusted, runnable);
    }
  }

  lemma HeadIsApart(c: Candidate, rest: seq<Candidate>, d: Candidate)
    requires PendingFirst([c] + rest)
    ensures d in [c] + rest <==> d == c || d in rest
    ensures d in rest ==> d != c && (d.source.FromPending? ==> c.source.FromPending?)
    ensures [c][..] == [c] && (d in [c] <==> d == c)
  {
    var cands := [c] + rest;
    if d in rest {
      var i :| 0 <= i < |rest| && rest[i] == d;
      assert cands[0] != cands[i + 1] && cands[i + 1] == d;
    }
  }

  lemma PendingFileOn(s: Spool, h: Spool, t: Spool, c: Candidate, rest: seq<Candidate>, x: Id,
                      trusted: set<Id>, runnable: set<Id>)
    requires s.running.Keys == s.procs && PendingFirst([c] + rest) && x in s.pending
    requires Settled(s, h, [c], trusted, runnable) && Settled(h, t, rest, trusted, runnable)
    ensures if Candidate(FromPending, x) in [c] + rest then PendingSettled(s, t, x, trusted, runnable)
            else x in t.pending
  {
    HeadIsApart(c, rest, Candidate(FromPending, x));
    if c == Candidate(FromPending, x) {
      PendingStaysSettled(s, h, t, c, rest, x, trusted, runnable);
    } else if Candidate(FromPending, x) in rest {
      LaterPendingSettled(s, h, t, c, x, trusted, runnable);
    }
  }

  lemma QueuedFileOn(s: Spool, h: Spool, t: Spool, c: Candidate, rest: seq<Candidate>, x: Id,
                     trusted: set<Id>, runnable: set<Id>)
    requires s.running.Keys == s.procs && PendingFirst([c] + rest) && x in s.queue
    requires Settled(s, h, [c], trusted, runnable) && Settled(h, t, rest, trusted, runnable)
    ensures if Candidate(FromQueue, x) in [c] + rest then QueuedSettled(s, t, x, runnable) else x in t.queue
  {
    HeadIsApart(c, rest, Candidate(FromQueue, x));
    if Candidate(FromQueue, x) in [c] + rest {
      QueuedStaysSettled(s, h, t, x, runnable);
    }
  }

  lemma SettledOn(s: Spool, h: Spool, t: Spool, c: Candidate, rest: seq<Candidate>, trusted: set<Id>, runnable: set<Id>)
    requires s.running.Keys == s.procs && PendingFirst([c] + rest)
    requires Settled(s, h, [c], trusted, runnable) && Settled(h, t, rest, trusted, runnable)
    ensures Settled(s, t, [c] + rest, trusted, runnable)
  {
    AdvancedOn(s, h, t);
    FilesSettledOn(s, h, t, c, rest, trusted, runnable);
    EntitledOn(s, h, t, c, rest, trusted, runnable);
  }

  lemma NothingSettled(s: Spool, t: Spool, trusted: set<Id>, runnable: set<Id>)
    requires s.running.Keys == s.procs && t == s.(phase := t.phase)
    ensures Settled(s, t, [], trusted, runnable)
  {
  }

  lemma PendingFirstTail(cands: seq<Candidate>, n: nat)
    requires PendingFirst(cands) && 1 <= n <= |cands|
    ensures PendingFirst(cands[1..]) && PendingFirst(cands[..n])
    ensures cands[..n] == [cands[0]] + cands[1..][..n - 1]
  {
  }

  /**
   * What becomes of every file in a tick: a pending one the tick comes to is started if
   * it is trusted, runnable and not running, dropped if it cannot run, else deleted; a
   * queued one is started or dropped unless its id runs; the others stay.
   */
  lemma {:induction false} TickSettles(s: Spool, trusted: set<Id>, runnable: set<Id>) returns (n: nat)
    requires s.phase.Scanning? && s.running.Keys == s.procs && PendingFirst(s.phase.cands)
    ensures TickOutcome(s, TickAll(s, trusted, runnable), s.phase.cands, n, trusted, runnable)
    ensures |s.procs| >= 3 ==> n == 0
    decreases |s.phase.cands|
  {
    var cands := s.phase.cands;
    if cands == [] || |s.procs| >= MAX_CONCURRENT_JOBS {
      n := 0;
      NothingSettled(s, TickAll(s, trusted, runnable), trusted, runnable);
    } else {
      var h := TickHead(s, trusted, runnable);
      HeadSettles(s, trusted, runnable);
      PendingFirstTail(cands, 1);
      var m := TickSettles(h, trusted, runnable);
      n := m + 1;
      OutcomeOn(s, h, TickAll(h, trusted, runnable), cands, m, trusted, runnable);
    }
  }

  lemma OutcomeOn(s: Spool, h: Spool, t: Spool, cands: seq<Candidate>, m: nat, trusted: set<Id>, runnable: set<Id>)
    requires cands != [] && PendingFirst(cands) && s.running.Keys == s.procs && |s.procs| < MAX_CONCURRENT_JOBS
    requires Settled(s, h, [cands[0]], trusted, runnable) && TickOutcome(h, t, cands[1..], m, trusted, runnable)
    ensures TickOutcome(s, t, cands, m + 1, trusted, runnable)
  {
    var c, rest := cands[0], cands[1..];
    PendingFirstTail(cands, m + 1);
    SettledOn(s, h, t, c, rest[..m], trusted, runnable);
    if |t.procs| >= MAX_CONCURRENT_JOBS {
      LastPlace(s, h, t, c, rest, m, trusted, runnable);
      assert ([c] + rest)[m] == cands[m];
    }
  }

  lemma NothingEntitles(s: Spool, t: Spool, x: Id, trusted: set<Id>, runnable: set<Id>)
    requires x in t.running
    ensures !Entitled(s, t, [], x, trusted, runnable)
  {
  }

  /** Only the last candidate the tick came to can have taken the last place. */
  lemma LastPlace(s: Spool, h: Spool, t: Spool, c: Candidate, rest: seq<Candidate>, m: nat,
                  trusted: set<Id>, runnable: set<Id>)
    requires Settled(s, h, [c], trusted, runnable) && TickOutcome(h, t, rest, m, trusted, runnable)
    requires |s.procs| < MAX_CONCURRENT_JOBS <= |t.procs|
    ensures ([c] + rest)[m].id in t.procs && ([c] + rest)[m].id !in s.procs
  {
    if m > 0 {
      assert ([c] + rest)[m] == rest[m - 1];
    } else {
      assert rest[..0] == [];
      forall x | x in t.procs ensures x in h.procs {
        NothingEntitles(h, t, x, trusted, runnable);
      }
      assert t.procs == h.procs && h.procs != s.procs;
      var x :| x in h.procs && x !in s.procs;
      assert Entitled(s, h, [c], x, trusted, runnable);
    }
  }

  lemma ListedPendingFirst(pendingFiles: seq<Id>, queueFiles: seq<Id>, p: set<Id>, q: set<Id>)
    requires Lists(pendingFiles, p) && Lists(queueFiles, q)
    ensures PendingFirst(CandidatesOf(pendingFiles, queueFiles))
  {
    var cands, n := CandidatesOf(pendingFiles, queueFiles), |pendingFiles|;
    forall i, j | 0 <= i < j < |cands|
      ensures cands[i] != cands[j] && (cands[j].source.FromPending? ==> cands[i].source.FromPending?)
    {
      if j < n {
        assert pendingFiles[i] != pendingFiles[j];
      } else if i >= n {
        assert queueFiles[i - n] != queueFiles[j - n];
      }
    }
  }

  // ------------------------------------------------------------------ the code

  /** The daemon: the spool's directories, the process counter, and the history the theorems speak of. */
  class Daemon {
    var pending: map<Id, JobSpec>
    var queue: map<Id, JobSpec>
    var running: map<Id, JobSpec>
    var failed: map<Id, JobSpec>
    var status: set<Id>
    var procs: set<Id>
    var runningJobs: nat
    ghost var submitted: seq<Submission>
    ghost var starts: seq<JobSpec>
    ghost var refusals: seq<Id>
    ghost var closed: set<nat>
    ghost var overwritten: set<nat>
    ghost var phase: Phase

    ghost function State(): Spool
      reads this
    {
      Spool(pending, queue, running, failed, status, procs, submitted, starts, refusals, closed, overwritten, phase)
    }

    method RecoverOrphanedJobs(files: seq<Id>)
      requires phase == Recovering(files)
      modifies this
      ensures State() == RecoverAll(old(State()))
      ensures runningJobs == old(runningJobs)
    {
      var i := 0;
      while i < |files|
        invariant 0 <= i <= |files| && phase == Recovering(files[i..])
        invariant RecoverAll(State()) == RecoverAll(old(State()))
        invariant runningJobs == old(runningJobs)
      {
        RecoverOrphan(files[i]);
        i := i + 1;
      }
      phase := Idle;
    }

    /** One round of the recovery loop. */
    method RecoverOrphan(file: Id)
      requires phase.Recovering? && phase.todo != [] && phase.todo[0] == file
      modifies this
      ensures State() == RecoverHead(old(State()))
      ensures runningJobs == old(runningJobs)
    {
      if file in running {
        var spec := running[file];
        var attempts := spec.attempts + 1;
        if attempts > MAX_JOB_RECOVERY_ATTEMPTS {
          failed := failed[file := spec];
          status := status + {file};
          running := Without(running, file);
          closed := closed + {spec.sub};
        } else {
          overwritten := overwritten + Displaced(State(), file);
          queue := queue[file := spec.(attempts := attempts)];
          running := Without(running, file);
        }
      }
      phase := Recovering(phase.todo[1..]);
    }

    /** `claimPending`: refuse and delete, or move the spec into the running set. */
    method ClaimPending(file: Id, trusted: set<Id>) returns (claimed: bool)
      modifies this
      ensures claimed <==> file in old(pending) && file in trusted && file !in old(running)
      ensures claimed ==> running == old(running)[file := old(pending)[file]]
      ensures !claimed ==> running == old(running)
      ensures pending.Keys == old(pending).Keys - {file} && queue == old(queue)
      ensures claimed ==> State() == Claim(old(State()), Candidate(FromPending, file))
      ensures !claimed ==> State() == PassOver(old(State()), Candidate(FromPending, file))
      ensures runningJobs == old(runningJobs)
    {
      claimed := false;
      if file in pending {
        if file !in trusted || file in running {
          closed := closed + {pending[file].sub};
          pending := Without(pending, file);
        } else {
          claimed := true;
          running := running[file := pending[file]];
          pending := Without(pending, file);
        }
      }
    }

    /** `claimQueued`: move the spec into the running set, or leave it queued. */
    method ClaimQueued(file: Id) returns (claimed: bool)
      modifies this
      ensures claimed <==> file in old(queue) && file !in old(running)
      ensures claimed ==> running == old(running)[file := old(queue)[file]] && queue.Keys == old(queue).Keys - {file}
      ensures !claimed ==> running == old(running) && queue == old(queue)
      ensures claimed ==> State() == Claim(old(State()), Candidate(FromQueue, file))
      ensures !claimed ==> State() == PassOver(old(State()), Candidate(FromQueue, file))
      ensures runningJobs == old(runningJobs)
    {
      claimed := file in queue && file !in running;
      if claimed {
        running := running[file := queue[file]];
        queue := Without(queue, file);
      }
    }

    /** A candidate's claim, whichever queue it came from. */
    method RunClaim(c: Candidate, trusted: set<Id>) returns (claimed: bool)
      modifies this
      ensures claimed <==> Claimable(old(State()), c, trusted)
      ensures State() == if claimed then Claim(old(State()), c) else PassOver(old(State()), c)
      ensures runningJobs == old(runningJobs)
    {
      match c
      case Candidate(FromPending, file) => claimed := ClaimPending(file, trusted);
      case Candidate(FromQueue, file) => claimed := ClaimQueued(file);
    }

    /** `startJob`: drop a job that cannot run, else start its process and count it. */
    method StartJob(file: Id, runnable: set<Id>)
      requires file in running && file !in procs && runningJobs == |procs|
      modifies this
      ensures State() == StartOrRefuse(old(State()), file, runnable)
      ensures runningJobs == |procs| <= old(runningJobs) + 1
    {
      if file in runnable {
        runningJobs := runningJobs + 1;
        procs := procs + {file};
        starts := starts + [running[file]];
      } else {
        closed := closed + {running[file].sub};
        refusals := refusals + [file];
        running := Without(running, file);
      }
    }

    /** `runPendingJobs`, from its directory listings on. */
    method RunPendingJobs(pendingFiles: seq<Id>, queueFiles: seq<Id>, trusted: set<Id>, runnable: set<Id>)
      requires phase == Idle && running.Keys == procs && runningJobs == |procs| <= 3
      requires Lists(pendingFiles, pending.Keys) && Lists(queueFiles, queue.Keys)
      modifies this
      ensures State() == TickAll(Apply(old(State()), Scan(pendingFiles, queueFiles)), trusted, runnable)
      ensures var cands := CandidatesOf(pendingFiles, queueFiles);
              exists n :: TickOutcome(old(State()).(phase := Scanning(cands)), State(), cands, n, trusted, runnable)
      ensures runningJobs == |procs| <= 3
    {
      var cands := CandidatesOf(pendingFiles, queueFiles);
      ListedPendingFirst(pendingFiles, queueFiles, pending.Keys, queue.Keys);
      phase := Scanning(cands);
      ghost var n := TickSettles(State(), trusted, runnable);
      ClaimAll(cands, trusted, runnable);
    }

    /** The claiming loop: until the candidates or the free places run out. */
    method ClaimAll(cands: seq<Candidate>, trusted: set<Id>, runnable: set<Id>)
      requires phase == Scanning(cands) && running.Keys == procs && runningJobs == |procs| <= 3
      modifies this
      ensures State() == TickAll(old(State()), trusted, runnable)
      ensures runningJobs == |procs| <= 3
    {
      ghost var goal := TickAll(State(), trusted, runnable);
      var i := 0;
      while i < |cands| && runningJobs < MAX_CONCURRENT_JOBS
        invariant 0 <= i <= |cands| && phase == Scanning(cands[i..])
        invariant running.Keys == procs && runningJobs == |procs| <= 3
        invariant TickAll(State(), trusted, runnable) == goal
      {
        TickAllGoesOn(State(), trusted, runnable);
        ClaimNext(cands[i], trusted, runnable);
        i := i + 1;
      }
      TickAllStops(State(), trusted, runnable);
      phase := Idle;
    }

    /** One round, after which the running set still holds exactly the watched jobs. */
    method ClaimNext(c: Candidate, trusted: set<Id>, runnable: set<Id>)
      requires phase.Scanning? && phase.cands != [] && phase.cands[0] == c
      requires running.Keys == procs && runningJobs == |procs|
      modifies this
      ensures State() == TickHead(old(State()), trusted, runnable)
      ensures runningJobs == |procs| <= old(runningJobs) + 1 && running.Keys == procs
    {
      RunningIsWatched(State(), trusted, runnable);
      ClaimAndStart(c, trusted, runnable);
    }

    /** The claim and the start. */
    method ClaimAndStart(c: Candidate, trusted: set<Id>, runnable: set<Id>)
      requires phase.Scanning? && phase.cands != [] && phase.cands[0] == c
      requires running.Keys == procs && runningJobs == |procs|
      modifies this
      ensures State() == TickHead(old(State()), trusted, runnable)
      ensures runningJobs == |procs| <= old(runningJobs) + 1
    {
      var claimed := RunClaim(c, trusted);
      if claimed {
        StartJob(c.id, runnable);
      }
      phase := Scanning(phase.cands[1..]);
    }

    /** The process's close handler (its writes taken as one step). */
    method OnClose(file: Id)
      requires phase == Idle && file in procs && running.Keys == procs && runningJobs == |procs|
      modifies this
      ensures Enabled(old(State()), Exit(file)) && State() == Apply(old(State()), Exit(file))
      ensures runningJobs == |procs|
    {
      ghost var s := State();
      assert Enabled(s, Exit(file));
      runningJobs := runningJobs - 1;
      closed := closed + {running[file].sub};
      procs := procs - {file};
      running := Without(running, file);
      status := status + {file};
      assert State() == s.(procs := procs, running := running, status := status, closed := closed);
    }
  }
}
