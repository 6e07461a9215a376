/**
 * Agents' schedule files and the documents the daemon keeps for them
 * (schedule-ingest.ts): one tick brings the collection in line with the files,
 * with the operator's cancels and the scheduler's deliveries coming between its
 * reads and writes.
 */
module ScheduleSync {
  import Seqs

  datatype Status = Pending | Delivering | Delivered | Failed | Cancelled

  datatype Label = Label(name: string)

  /** A valid file: the hash of what the platform acts on, and the next occurrence when it was read. */
  datatype Spec = Spec(hash: string, deliverAt: nat)

  /** `byOperator` is the operator's cancel mark; `pendingFire` a fire not taken up yet. */
  datatype Doc = Doc(status: Status, hash: string, deliverAt: nat, byOperator: bool, pendingFire: bool)

  type Docs = map<Label, Doc>
  type Files = map<Label, Spec>

  function Armed(f: Spec): Doc {
    Doc(Pending, f.hash, f.deliverAt, false, false)
  }

  /** An existing document is armed anew when its file changed, or after it ended. */
  predicate Rearms(d: Doc, f: Spec) {
    !d.byOperator && (d.hash != f.hash || d.status == Cancelled || d.status == Failed || d.status == Delivered)
  }

  /** `upsertSchedule`. */
  function Upserted(docs: Docs, l: Label, f: Spec): Docs {
    if l !in docs then docs[l := Armed(f)]
    else if Rearms(docs[l], f) then docs[l := Armed(f)]
    else docs
  }

  /** A document whose file is gone: no longer pending, and free of the operator's mark. */
  function Gone(d: Doc): Doc {
    Doc(if d.status == Pending then Cancelled else d.status, d.hash, d.deliverAt, false, d.pendingFire)
  }

  /** What one tick makes of one label. */
  function TickedDoc(docs: Docs, files: Files, l: Label): Doc
    requires l in docs || l in files
  {
    if l !in files then Gone(docs[l])
    else if l !in docs || Rearms(docs[l], files[l]) then Armed(files[l])
    else docs[l]
  }

  /** One tick of `ingestSchedules`. */
  function Ticked(docs: Docs, files: Files): Docs {
    map l | l in docs.Keys + files.Keys :: TickedDoc(docs, files, l)
  }

  // ------------------------------------------------------------------ convergence

  /** The document is as the file has it: pending at its next occurrence, with nothing left of what was before. */
  predicate AsTheFileSays(d: Doc, f: Spec) {
    d.status == Pending && d.hash == f.hash && d.deliverAt == f.deliverAt && !d.byOperator && !d.pendingFire
  }

  /**
   * What a tick leaves under a label: what the file says, if there was no document
   * or one without the mark that has ended or stems from another file; what was
   * there, if its file is the same or it carries the mark; and without a file what
   * was there, no longer pending and free of the mark.
   */
  lemma ATickSettlesEveryLabel(docs: Docs, files: Files, l: Label)
    ensures l in Ticked(docs, files) <==> l in docs || l in files
    ensures l in files && l !in docs ==> AsTheFileSays(Ticked(docs, files)[l], files[l])
    ensures l in files && l in docs ==>
              if !docs[l].byOperator
                 && (docs[l].hash != files[l].hash || (docs[l].status != Pending && docs[l].status != Delivering))
              then AsTheFileSays(Ticked(docs, files)[l], files[l])
              else Ticked(docs, files)[l] == docs[l]
    ensures l !in files && l in docs ==>
              var d := Ticked(docs, files)[l];
              && !d.byOperator && d.status == (if docs[l].status == Pending then Cancelled else docs[l].status)
              && d.hash == docs[l].hash && d.deliverAt == docs[l].deliverAt && d.pendingFire == docs[l].pendingFire
  {
    assert l in docs || l in files ==> Ticked(docs, files)[l] == TickedDoc(docs, files, l);
  }

  /**
   * After a tick the pending labels are those of the valid files, but for the
   * ones carrying the operator's mark and not pending before, and the ones being
   * delivered from an unchanged file. What is armed is what the file says.
   */
  lemma TickConverges(docs: Docs, files: Files, l: Label)
    ensures var after := Ticked(docs, files);
            && (l in after && after[l].status == Pending <==>
                && l in files
                && !(l in docs && docs[l].byOperator && docs[l].status != Pending)
                && !(l in docs && docs[l].status == Delivering && docs[l].hash == files[l].hash))
            && (l in after && after[l].status == Pending && !after[l].byOperator ==> after[l].hash == files[l].hash)
            && (l in files ==> l in after)
            && (l in after && l !in files ==> !after[l].byOperator && after[l].status != Pending)
  {
  }

  /**
   * Where the mark is on cancelled documents only and nothing is being delivered:
   * pending are exactly the labels with a valid file the operator did not cancel.
   */
  lemma TickConvergesAtRest(docs: Docs, files: Files)
    requires forall l :: l in docs ==>
               docs[l].status != Delivering && (docs[l].byOperator ==> docs[l].status == Cancelled)
    ensures forall l :: (l in Ticked(docs, files) && Ticked(docs, files)[l].status == Pending) <==>
              (l in files && !(l in docs && docs[l].byOperator))
  {
    forall l
      ensures (l in Ticked(docs, files) && Ticked(docs, files)[l].status == Pending) <==>
                (l in files && !(l in docs && docs[l].byOperator))
    {
      TickConverges(docs, files, l);
    }
  }

  /** A second tick with the same files, whenever it runs, changes nothing. */
  lemma SecondTickChangesNothing(docs: Docs, files: Files, later: Files)
    requires files.Keys == later.Keys && forall l :: l in files ==> files[l].hash == later[l].hash
    ensures Ticked(Ticked(docs, files), later) == Ticked(docs, files)
  {
    var once := Ticked(docs, files);
    var twice := Ticked(once, later);
    assert twice.Keys == once.Keys;
    forall l | l in once ensures twice[l] == once[l] {
      assert once[l] == TickedDoc(docs, files, l);
    }
  }

  // ------------------------------------------------------------------ the tick, read by read and write by write

  /** What an upsert's read of the document has decided to write. */
  datatype Held = Insert | Rearm

  /** A tick: the labels listed and not read yet, and those whose valid file was seen. */
  datatype Tick =
    | Reading(left: set<Label>, seen: set<Label>)
    | Writing(left: set<Label>, seen: set<Label>, l: Label, f: Spec, held: Held)
    /** What is gone is cancelled, and the marks are not cleared yet. */
    | Clearing(seen: set<Label>)
    | Over

  /** The documents, the labels the scheduler is delivering right now, and the ticks, which may overlap. */
  datatype State = State(docs: Docs, inFlight: set<Label>, ticks: seq<Tick>)

  datatype Event =
    | BeginTick(listing: set<Label>)
    /** The file of a listed label is valid, and its document is looked up. */
    | Find(p: nat, l: Label, f: Spec)
    | Reject(p: nat, l: Label)
    | WriteHeld(p: nat)
    | CancelGone(p: nat)
    | ClearMarks(p: nat)
    | TickFails(p: nat)
    /** A cancel in the cockpit, whatever the document's status. */
    | CockpitCancels(l: Label)
    /** A cancel by the control plane's copilot, of a pending document only. */
    | CopilotCancels(l: Label)
    | Claim(l: Label)
    /** The delivery ends: the scheduler writes what comes next without looking at the document again. */
    | Finish(l: Label, status: Status, deliverAt: nat, pendingFire: bool)
    | LeaseExpires(l: Label)
    | SchedulerDies

  function CancelledBy(d: Doc): Doc {
    d.(status := Cancelled, byOperator := true, pendingFire := false)
  }

  /** After the read: the write held, or on to the next file. */
  function Found(docs: Docs, left: set<Label>, seen: set<Label>, l: Label, f: Spec): Tick {
    if l !in docs then Writing(left - {l}, seen + {l}, l, f, Insert)
    else if Rearms(docs[l], f) then Writing(left - {l}, seen + {l}, l, f, Rearm)
    else Reading(left - {l}, seen + {l})
  }

  /** The write lands on the document as it is by then: an insert on none only, an update without a look at the mark. */
  function Written(docs: Docs, l: Label, f: Spec, held: Held): Docs {
    match held
    case Insert => if l in docs then docs else docs[l := Armed(f)]
    case Rearm => if l in docs then docs[l := Armed(f).(byOperator := docs[l].byOperator)] else docs
  }

  function CancelledUnseen(docs: Docs, seen: set<Label>): (r: Docs)
    ensures r.Keys == docs.Keys
  {
    map l | l in docs ::
      if l !in seen && docs[l].status == Pending then docs[l].(status := Cancelled) else docs[l]
  }

  function UnmarkedUnseen(docs: Docs, seen: set<Label>): (r: Docs)
    ensures r.Keys == docs.Keys
  {
    map l | l in docs :: if l !in seen then docs[l].(byOperator := false) else docs[l]
  }

  predicate Enabled(s: State, e: Event) {
    match e
    case BeginTick(_) => true
    case Find(p, l, _) => p < |s.ticks| && s.ticks[p].Reading? && l in s.ticks[p].left
    case Reject(p, l) => p < |s.ticks| && s.ticks[p].Reading? && l in s.ticks[p].left
    case WriteHeld(p) => p < |s.ticks| && s.ticks[p].Writing?
    case CancelGone(p) => p < |s.ticks| && s.ticks[p].Reading? && s.ticks[p].left == {}
    case ClearMarks(p) => p < |s.ticks| && s.ticks[p].Clearing?
    case TickFails(p) => p < |s.ticks|
    case CockpitCancels(l) => l in s.docs
    case CopilotCancels(l) => l in s.docs && s.docs[l].status == Pending
    case Claim(l) => l in s.docs && s.docs[l].status == Pending
    case Finish(l, status, _, _) =>
      l in s.docs && l in s.inFlight && (status == Pending || status == Delivered || status == Failed)
    case LeaseExpires(l) => l in s.docs && s.docs[l].status == Delivering
    case SchedulerDies => true
  }

  function After(s: State, e: Event): State
    requires Enabled(s, e)
  {
    match e
    case BeginTick(listing) => s.(ticks := s.ticks + [Reading(listing, {})])
    case Find(p, l, f) =>
      s.(ticks := s.ticks[p := Found(s.docs, s.ticks[p].left, s.ticks[p].seen, l, f)])
    case Reject(p, l) => s.(ticks := s.ticks[p := Reading(s.ticks[p].left - {l}, s.ticks[p].seen)])
    case WriteHeld(p) =>
      var t := s.ticks[p];
      s.(docs := Written(s.docs, t.l, t.f, t.held), ticks := s.ticks[p := Reading(t.left, t.seen)])
    case CancelGone(p) =>
      var seen := s.ticks[p].seen;
      s.(docs := CancelledUnseen(s.docs, seen), ticks := s.ticks[p := Clearing(seen)])
    case ClearMarks(p) => s.(docs := UnmarkedUnseen(s.docs, s.ticks[p].seen), ticks := s.ticks[p := Over])
    case TickFails(p) => s.(ticks := s.ticks[p := Over])
    case CockpitCancels(l) => s.(docs := s.docs[l := CancelledBy(s.docs[l])])
    case CopilotCancels(l) => s.(docs := s.docs[l := CancelledBy(s.docs[l])])
    case Claim(l) => s.(docs := s.docs[l := s.docs[l].(status := Delivering)], inFlight := s.inFlight + {l})
    case Finish(l, status, deliverAt, pendingFire) =>
      s.(docs := s.docs[l := s.docs[l].(status := status, deliverAt := deliverAt, pendingFire := pendingFire)],
         inFlight := s.inFlight - {l})
    case LeaseExpires(l) => s.(docs := s.docs[l := s.docs[l].(status := Pending)])
    case SchedulerDies => s.(inFlight := {})
  }

  ghost predicate Legal(s: State, es: seq<Event>)
    decreases |es|
  {
    es != [] ==> Enabled(s, es[0]) && Legal(After(s, es[0]), es[1..])
  }

  ghost function AfterAll(s: State, es: seq<Event>): State
    requires Legal(s, es)
    decreases |es|
  {
    if es == [] then s else AfterAll(After(s, es[0]), es[1..])
  }

  lemma {:induction false} RunsCompose(s: State, first: seq<Event>, second: seq<Event>)
    requires Legal(s, first) && Legal(AfterAll(s, first), second)
    ensures Legal(s, first + second) && AfterAll(s, first + second) == AfterAll(AfterAll(s, first), second)
    decreases |first|
  {
    if first == [] {
      Seqs.NothingBefore(second);
    } else {
      Seqs.TailOfConcat(first, second);
      RunsCompose(After(s, first[0]), first[1..], second);
    }
  }

  lemma OneEvent(s: State, e: Event)
    requires Enabled(s, e)
    ensures Legal(s, [e]) && AfterAll(s, [e]) == After(s, e)
  {
    assert [e][1..] == [] && Legal(After(s, e), []);
  }

  /**
   * The write that goes by an earlier read: an insert only where there is still no
   * document; an update arms what is there by then, and keeps the mark that came
   * in between. No other document is touched.
   */
  lemma AWriteGoesByItsRead(s: State, p: nat)
    requires Enabled(s, WriteHeld(p))
    ensures var t, docs := s.ticks[p], After(s, WriteHeld(p)).docs;
            && (forall k :: k != t.l ==> (k in docs <==> k in s.docs) && (k in docs ==> docs[k] == s.docs[k]))
            && (t.held == Insert && t.l in s.docs ==> docs == s.docs)
            && (t.held == Insert && t.l !in s.docs ==> t.l in docs && AsTheFileSays(docs[t.l], t.f))
            && (t.held == Rearm && t.l in s.docs ==>
                  && AsTheFileSays(docs[t.l].(byOperator := false), t.f)
                  && docs[t.l].byOperator == s.docs[t.l].byOperator)
            && (t.held == Rearm && t.l !in s.docs ==> docs == s.docs)
  {
    var t := s.ticks[p];
    if t.held == Insert && t.l !in s.docs {
      assert After(s, WriteHeld(p)).docs[t.l] == Armed(t.f);
    }
  }

  // ------------------------------------------------------------------ where documents come from

  /** Some lookup of this label had that file in hand. */
  ghost predicate WasFound(es: seq<Event>, l: Label, f: Spec) {
    exists i :: 0 <= i < |es| && es[i].Find? && es[i].l == l && es[i].f == f
  }

  /** The scheduler has put the document at that time. */
  ghost predicate WasPut(es: seq<Event>, l: Label, at: nat) {
    exists i :: 0 <= i < |es| && es[i].Finish? && es[i].l == l && es[i].deliverAt == at
  }

  /** The hash is that of a file of the label, and the time that file's or the scheduler's. */
  ghost predicate Stems(es: seq<Event>, l: Label, hash: string, at: nat) {
    exists f :: WasFound(es, l, f) && hash == f.hash && (at == f.deliverAt || WasPut(es, l, at))
  }

  ghost predicate AllStem(s: State, es: seq<Event>) {
    && (forall l :: l in s.docs ==> Stems(es, l, s.docs[l].hash, s.docs[l].deliverAt))
    && (forall p :: 0 <= p < |s.ticks| && s.ticks[p].Writing? ==> WasFound(es, s.ticks[p].l, s.ticks[p].f))
  }

  lemma FoundThen(es: seq<Event>, e: Event, l: Label, f: Spec)
    ensures WasFound(es, l, f) ==> WasFound(es + [e], l, f)
    ensures e.Find? && e.l == l && e.f == f ==> WasFound(es + [e], l, f)
  {
    assert (es + [e])[|es|] == e;
    if i :| 0 <= i < |es| && es[i].Find? && es[i].l == l && es[i].f == f {
      assert (es + [e])[i] == es[i];
    }
  }

  lemma PutThen(es: seq<Event>, e: Event, l: Label, at: nat)
    ensures WasPut(es, l, at) ==> WasPut(es + [e], l, at)
    ensures e.Finish? && e.l == l && e.deliverAt == at ==> WasPut(es + [e], l, at)
  {
    assert (es + [e])[|es|] == e;
    if i :| 0 <= i < |es| && es[i].Finish? && es[i].l == l && es[i].deliverAt == at {
      assert (es + [e])[i] == es[i];
    }
  }

  lemma StemsThen(es: seq<Event>, e: Event, l: Label, hash: string, at: nat)
    requires Stems(es, l, hash, at)
    ensures Stems(es + [e], l, hash, at)
    ensures e.Finish? && e.l == l ==> Stems(es + [e], l, hash, e.deliverAt)
  {
    var f :| WasFound(es, l, f) && hash == f.hash && (at == f.deliverAt || WasPut(es, l, at));
    FoundThen(es, e, l, f);
    PutThen(es, e, l, at);
    if e.Finish? && e.l == l {
      PutThen(es, e, l, e.deliverAt);
    }
  }

  /** Which document an event leaves as what: only a write by a tick and the end of a delivery change its times. */
  lemma AnEventStems(s: State, done: seq<Event>, e: Event, l: Label)
    requires AllStem(s, done) && Enabled(s, e) && l in After(s, e).docs
    ensures Stems(done + [e], l, After(s, e).docs[l].hash, After(s, e).docs[l].deliverAt)
  {
    var d := After(s, e).docs[l];
    if l in s.docs {
      StemsThen(done, e, l, s.docs[l].hash, s.docs[l].deliverAt);
    }
    if e.WriteHeld? {
      FoundThen(done, e, s.ticks[e.p].l, s.ticks[e.p].f);
    }
  }

  lemma TicksStem(s: State, done: seq<Event>, e: Event, p: nat)
    requires AllStem(s, done) && Enabled(s, e)
    requires p < |After(s, e).ticks| && After(s, e).ticks[p].Writing?
    ensures WasFound(done + [e], After(s, e).ticks[p].l, After(s, e).ticks[p].f)
  {
    var t := After(s, e).ticks[p];
    FoundThen(done, e, t.l, t.f);
    if p < |s.ticks| && s.ticks[p].Writing? {
      FoundThen(done, e, s.ticks[p].l, s.ticks[p].f);
    }
  }

  lemma {:induction false} TheyGoOnStemming(s: State, done: seq<Event>, es: seq<Event>)
    requires AllStem(s, done) && Legal(s, es)
    ensures AllStem(AfterAll(s, es), done + es)
    decreases |es|
  {
    if es == [] {
      assert done + es == done;
    } else {
      forall l | l in After(s, es[0]).docs
        ensures Stems(done + [es[0]], l, After(s, es[0]).docs[l].hash, After(s, es[0]).docs[l].deliverAt)
      {
        AnEventStems(s, done, es[0], l);
      }
      forall p | 0 <= p < |After(s, es[0]).ticks| && After(s, es[0]).ticks[p].Writing?
        ensures WasFound(done + [es[0]], After(s, es[0]).ticks[p].l, After(s, es[0]).ticks[p].f)
      {
        TicksStem(s, done, es[0], p);
      }
      TheyGoOnStemming(After(s, es[0]), done + [es[0]], es[1..]);
      assert done + [es[0]] + es[1..] == done + es;
    }
  }

  /**
   * In every run from an empty collection a document's hash is that of a file of its
   * own label some tick has found, and its time is that file's, or one the scheduler
   * has put it at.
   */
  lemma DocumentsStemFromFiles(es: seq<Event>)
    requires Legal(State(map[], {}, []), es)
    ensures AllStem(AfterAll(State(map[], {}, []), es), es)
  {
    TheyGoOnStemming(State(map[], {}, []), [], es);
    assert [] + es == es;
  }

  // ------------------------------------------------------------------ the operator's cancel

  /** From here on the file of this label is there: every new tick lists it, and none finds it invalid. */
  predicate FileStays(es: seq<Event>, l: Label) {
    && (forall i :: 0 <= i < |es| && es[i].BeginTick? ==> l in es[i].listing)
    && (forall i :: 0 <= i < |es| && es[i].Reject? ==> es[i].l != l)
  }

  /** Nothing but removing the file makes this document anything but cancelled, or lets it fire. */
  ghost predicate StaysCancelled(s: State, l: Label) {
    forall es :: Legal(s, es) && FileStays(es, l) ==>
      var t := AfterAll(s, es);
      l in t.docs && t.docs[l].status == Cancelled && !t.docs[l].pendingFire
  }

  /** A tick that has read the document before and will write it armed now. */
  predicate HoldsRearm(t: Tick, l: Label) {
    t.Writing? && t.l == l && t.held == Rearm
  }

  /** A tick on its way to clear the mark, because its listing was without the file or the file was rejected. */
  predicate Misses(t: Tick, l: Label) {
    match t
    case Reading(left, seen) => l !in left + seen
    case Writing(left, seen, _, _, _) => l !in left + seen
    case Clearing(seen) => l !in seen
    case Over => false
  }

  predicate Spares(ticks: seq<Tick>, l: Label) {
    forall p :: 0 <= p < |ticks| ==> !HoldsRearm(ticks[p], l) && !Misses(ticks[p], l)
  }

  /** Cancelled under the mark, with nothing under way that could undo it. */
  predicate Settled(s: State, l: Label) {
    && l in s.docs && s.docs[l].byOperator && s.docs[l].status == Cancelled && !s.docs[l].pendingFire
    && l !in s.inFlight && Spares(s.ticks, l)
  }

  lemma StaysSettled(s: State, e: Event, l: Label)
    requires Settled(s, l) && Enabled(s, e) && FileStays([e], l)
    ensures Settled(After(s, e), l)
  {
    assert [e][0] == e;
  }

  /** A settled cancel outlasts every edit, tick and delivery, for as long as the file stays valid. */
  lemma {:induction false} OperatorCancelHolds(s: State, es: seq<Event>, l: Label)
    requires Settled(s, l) && Legal(s, es) && FileStays(es, l)
    ensures Settled(AfterAll(s, es), l)
    decreases |es|
  {
    if es != [] {
      assert FileStays([es[0]], l);
      StaysSettled(s, es[0], l);
      assert forall i :: 0 <= i < |es[1..]| ==> es[1..][i] == es[i + 1];
      OperatorCancelHolds(After(s, es[0]), es[1..], l);
    }
  }

  /** The tick rejects the files it has not read yet, and clears the marks of what it has not seen. */
  lemma {:induction false} TickEnds(s: State, p: nat, l: Label) returns (es: seq<Event>)
    requires p < |s.ticks| && s.ticks[p].Reading? && l !in s.ticks[p].left
    ensures Legal(s, es) && FileStays(es, l)
    ensures var t := AfterAll(s, es);
            && t.ticks == s.ticks[p := Over]
            && t.docs == UnmarkedUnseen(CancelledUnseen(s.docs, s.ticks[p].seen), s.ticks[p].seen)
    decreases s.ticks[p].left
  {
    var left := s.ticks[p].left;
    if left == {} {
      OneEvent(s, CancelGone(p));
      OneEvent(After(s, CancelGone(p)), ClearMarks(p));
      RunsCompose(s, [CancelGone(p)], [ClearMarks(p)]);
      es := [CancelGone(p)] + [ClearMarks(p)];
    } else {
      var k :| k in left;
      var u := After(s, Reject(p, k));
      assert u.ticks[p].left < left;
      var rest := TickEnds(u, p, l);
      OneEvent(s, Reject(p, k));
      RunsCompose(s, [Reject(p, k)], rest);
      es := [Reject(p, k)] + rest;
    }
  }

  /** A label without the mark, cancelled, is armed by the next tick that finds its file. */
  lemma NextTickArms(s: State, l: Label, f: Spec) returns (es: seq<Event>)
    requires l in s.docs && !s.docs[l].byOperator && s.docs[l].status == Cancelled
    ensures Legal(s, es) && FileStays(es, l)
    ensures l in AfterAll(s, es).docs && AfterAll(s, es).docs[l] == Armed(f)
  {
    var p := |s.ticks|;
    var s1 := After(s, BeginTick({l}));
    var s2 := After(s1, Find(p, l, f));
    OneEvent(s, BeginTick({l}));
    OneEvent(s1, Find(p, l, f));
    OneEvent(s2, WriteHeld(p));
    RunsCompose(s1, [Find(p, l, f)], [WriteHeld(p)]);
    RunsCompose(s, [BeginTick({l})], [Find(p, l, f)] + [WriteHeld(p)]);
    es := [BeginTick({l})] + ([Find(p, l, f)] + [WriteHeld(p)]);
  }

  /** The tick that misses the file comes to its end, and the next one arms the label. */
  lemma AMissUndoes(s: State, p: nat, l: Label, f: Spec) returns (es: seq<Event>)
    requires l in s.docs && s.docs[l].status == Cancelled
    requires p < |s.ticks| && Misses(s.ticks[p], l)
    ensures Legal(s, es) && FileStays(es, l)
    ensures l in AfterAll(s, es).docs && AfterAll(s, es).docs[l] == Armed(f)
  {
    var first := MissEnds(s, p, l);
    var rest := NextTickArms(AfterAll(s, first), l, f);
    RunsCompose(s, first, rest);
    es := first + rest;
  }

  lemma MissEnds(s: State, p: nat, l: Label) returns (es: seq<Event>)
    requires l in s.docs && s.docs[l].status == Cancelled
    requires p < |s.ticks| && Misses(s.ticks[p], l)
    ensures Legal(s, es) && FileStays(es, l)
    ensures var t := AfterAll(s, es); l in t.docs && !t.docs[l].byOperator && t.docs[l].status == Cancelled
  {
    match s.ticks[p] {
      case Reading(_, _) => es := TickEnds(s, p, l);
      case Writing(_, _, k, _, _) =>
        var u := After(s, WriteHeld(p));
        assert k != l ==> u.docs[l] == s.docs[l];
        OneEvent(s, WriteHeld(p));
        var rest := TickEnds(u, p, l);
        RunsCompose(s, [WriteHeld(p)], rest);
        es := [WriteHeld(p)] + rest;
      case Clearing(_) =>
        OneEvent(s, ClearMarks(p));
        es := [ClearMarks(p)];
      case Over =>
    }
  }

  /**
   * A cancel, of either kind, holds for good if and only if at that moment the
   * schedule is not being delivered, no tick has read the document before and is
   * about to arm it, and no tick is on its way to clear the marks without having
   * listed the file.
   */
  lemma CancelHoldsExactly(s: State, e: Event, l: Label)
    requires (e == CockpitCancels(l) || e == CopilotCancels(l)) && Enabled(s, e)
    ensures StaysCancelled(After(s, e), l) <==> l !in s.inFlight && Spares(s.ticks, l)
  {
    var c := After(s, e);
    if l in s.inFlight {
      OneEvent(c, Finish(l, Pending, 0, false));
      assert FileStays([Finish(l, Pending, 0, false)], l);
    } else if Spares(s.ticks, l) {
      forall es | Legal(c, es) && FileStays(es, l)
        ensures Settled(AfterAll(c, es), l)
      {
        OperatorCancelHolds(c, es, l);
      }
    } else {
      var p :| 0 <= p < |s.ticks| && (HoldsRearm(s.ticks[p], l) || Misses(s.ticks[p], l));
      if HoldsRearm(s.ticks[p], l) {
        OneEvent(c, WriteHeld(p));
        assert FileStays([WriteHeld(p)], l);
      } else {
        var es := AMissUndoes(c, p, l, Spec("", 0));
      }
    }
  }

  /** What a tick does; the rest is the operator's and the scheduler's. */
  predicate OfTick(e: Event) {
    e.BeginTick? || e.Find? || e.Reject? || e.WriteHeld? || e.CancelGone? || e.ClearMarks? || e.TickFails?
  }

  /** A document under the mark, whatever its status, is left as it is by every tick that finds its file. */
  lemma {:induction false} MarkedIsLeftAlone(s: State, es: seq<Event>, l: Label)
    requires l in s.docs && s.docs[l].byOperator && Spares(s.ticks, l)
    requires Legal(s, es) && FileStays(es, l) && forall i :: 0 <= i < |es| ==> OfTick(es[i])
    ensures l in AfterAll(s, es).docs && AfterAll(s, es).docs[l] == s.docs[l]
    decreases |es|
  {
    if es != [] {
      var u := After(s, es[0]);
      assert u.docs[l] == s.docs[l] && Spares(u.ticks, l);
      assert forall i :: 0 <= i < |es[1..]| ==> es[1..][i] == es[i + 1];
      MarkedIsLeftAlone(u, es[1..], l);
    }
  }

  /** Hence a delivery that ends after the cancel arms the schedule under the mark, and no tick takes that back. */
  lemma ADeliveryUndoesTheCancelForGood(s: State, l: Label, at: nat, es: seq<Event>)
    requires l in s.docs && l in s.inFlight && Spares(s.ticks, l)
    requires var t := After(After(s, CockpitCancels(l)), Finish(l, Pending, at, false));
             Legal(t, es) && FileStays(es, l) && forall i :: 0 <= i < |es| ==> OfTick(es[i])
    ensures var t := AfterAll(After(After(s, CockpitCancels(l)), Finish(l, Pending, at, false)), es);
            l in t.docs && t.docs[l].status == Pending && t.docs[l].byOperator
  {
    MarkedIsLeftAlone(After(After(s, CockpitCancels(l)), Finish(l, Pending, at, false)), es, l);
  }

  /** A tick without the file lifts a cancel: the label is armed again as soon as a file is back. */
  lemma RemovingTheFileLiftsTheCancel(docs: Docs, without: Files, files: Files, l: Label)
    requires l in docs && docs[l].byOperator && docs[l].status == Cancelled
    requires l !in without && l in files
    ensures var after := Ticked(Ticked(docs, without), files);
            l in after && after[l] == Armed(files[l])
  {
    assert Ticked(docs, without)[l] == Gone(docs[l]);
  }

  // ------------------------------------------------------------------ the loop

  /** What others do while a tick waits: other ticks, the operator and the scheduler. */
  predicate Foreign(e: Event, own: nat) {
    match e
    case Find(p, _, _) => p != own
    case Reject(p, _) => p != own
    case WriteHeld(p) => p != own
    case CancelGone(p) => p != own
    case ClearMarks(p) => p != own
    case TickFails(p) => p != own
    case _ => true
  }

  ghost predicate Reaches(start: State, s: State) {
    exists es :: Legal(start, es) && AfterAll(start, es) == s
  }

  lemma ReachesOneMore(start: State, s: State, e: Event)
    requires Reaches(start, s) && Enabled(s, e)
    ensures Reaches(start, After(s, e))
  {
    var es :| Legal(start, es) && AfterAll(start, es) == s;
    OneEvent(s, e);
    RunsCompose(start, es, [e]);
  }

  /** The environment: what others do at the k-th await. */
  datatype World = World(others: nat -> seq<Event>)

  ghost predicate Quiet(world: World) {
    forall k :: world.others(k) == []
  }

  /** The documents once the files of the labels seen so far are upserted. */
  function Part(docs: Docs, files: Files, seen: set<Label>): Docs
    requires seen <= files.Keys
  {
    map l | l in docs.Keys + seen :: if l in seen then TickedDoc(docs, files, l) else docs[l]
  }

  lemma PartGrows(docs: Docs, files: Files, seen: set<Label>, l: Label)
    requires seen <= files.Keys && l in files && l !in seen
    ensures Upserted(Part(docs, files, seen), l, files[l]) == Part(docs, files, seen + {l})
  {
    var a, b := Upserted(Part(docs, files, seen), l, files[l]), Part(docs, files, seen + {l});
    assert a.Keys == b.Keys;
  }

  lemma PartCleared(docs: Docs, files: Files)
    ensures UnmarkedUnseen(CancelledUnseen(Part(docs, files, files.Keys), files.Keys), files.Keys) ==
              Ticked(docs, files)
  {
  }

  class Ingestor {
    const world: World
    ghost const start: State
    var docs: Docs
    /** Who else is at work, and where this tick stands; its documents are not used. */
    var record: State
    var awaits: nat

    function State(): State
      reads this
    {
      record.(docs := docs)
    }

    /** The fields are a state that some events lead to from the start. */
    ghost predicate Valid()
      reads this
    {
      Reaches(start, State())
    }

    /** This tick stands at that point. */
    ghost predicate At(own: nat, t: Tick)
      reads this
    {
      Valid() && own < |record.ticks| && record.ticks[own] == t
    }

    constructor (world: World, start: State)
      ensures Valid() && State() == start && this.world == world && this.start == start
    {
      this.world, this.start, docs, record, awaits := world, start, start.docs, start, 0;
      new;
      assert Legal(start, []) && AfterAll(start, []) == start;
    }

    /** The event just taken is one of the protocol's. */
    ghost method Took(before: State, e: Event)
      requires Reaches(start, before) && Enabled(before, e) && State() == After(before, e)
      ensures Valid()
    {
      ReachesOneMore(start, before, e);
    }

    /** Others go ahead; this tick stays where it is. */
    method Await(own: nat)
      requires Valid() && own < |record.ticks|
      modifies this
      ensures At(own, old(record.ticks[own])) && old(docs).Keys <= docs.Keys
      ensures Quiet(world) ==> docs == old(docs)
    {
      var others := world.others(awaits);
      for k := 0 to |others|
        invariant At(own, old(record.ticks[own])) && old(docs).Keys <= docs.Keys
        invariant others == [] ==> docs == old(docs)
      {
        if Foreign(others[k], own) && Enabled(State(), others[k]) {
          var before := State();
          record := After(before, others[k]);
          docs := record.docs;
          Took(before, others[k]);
        }
      }
      awaits := awaits + 1;
    }

    method MoveTo(own: nat, t: Tick)
      requires own < |record.ticks|
      modifies this`record
      ensures record == old(record).(ticks := old(record.ticks)[own := t])
    {
      record := record.(ticks := record.ticks[own := t]);
    }

    /** `upsertSchedule`: the document is looked up, and written as decided then. */
    method UpsertSchedule(own: nat, left: set<Label>, seen: set<Label>, l: Label, f: Spec)
      requires At(own, Reading(left, seen)) && l in left
      modifies this
      ensures At(own, Reading(left - {l}, seen + {l})) && old(docs).Keys + {l} <= docs.Keys
      ensures Quiet(world) ==> docs == Upserted(old(docs), l, f)
    {
      ghost var before := State();
      if l !in docs {
        MoveTo(own, Writing(left - {l}, seen + {l}, l, f, Insert));
        Took(before, Find(own, l, f));
        Await(own);
        ghost var at := State();
        if l !in docs {
          docs := docs[l := Doc(Pending, f.hash, f.deliverAt, false, false)];
        }
        MoveTo(own, Reading(left - {l}, seen + {l}));
        Took(at, WriteHeld(own));
        Await(own);
        return;
      }
      var existing := docs[l];
      if !existing.byOperator
         && (existing.hash != f.hash || existing.status == Cancelled
             || existing.status == Failed || existing.status == Delivered) {
        MoveTo(own, Writing(left - {l}, seen + {l}, l, f, Rearm));
        Took(before, Find(own, l, f));
        Await(own);
        ghost var at := State();
        docs := docs[l := docs[l].(status := Pending, hash := f.hash, deliverAt := f.deliverAt, pendingFire := false)];
        MoveTo(own, Reading(left - {l}, seen + {l}));
        Took(at, WriteHeld(own));
        Await(own);
        return;
      }
      MoveTo(own, Reading(left - {l}, seen + {l}));
      Took(before, Find(own, l, f));
      Await(own);
    }

    /** One listed file: rejected, or upserted. */
    method IngestFile(own: nat, left: set<Label>, seen: set<Label>, l: Label, files: Files)
      requires At(own, Reading(left, seen)) && l in left
      modifies this
      ensures At(own, Reading(left - {l}, if l in files then seen + {l} else seen)) && old(docs).Keys <= docs.Keys
      ensures l in files ==> l in docs
      ensures Quiet(world) ==> docs == if l in files then Upserted(old(docs), l, files[l]) else old(docs)
    {
      if l in files {
        UpsertSchedule(own, left, seen, l, files[l]);
      } else {
        ghost var before := State();
        MoveTo(own, Reading(left - {l}, seen));
        Took(before, Reject(own, l));
      }
    }

    /** The updates of what was not seen. */
    method CloseTick(own: nat, seen: set<Label>)
      requires At(own, Reading({}, seen))
      modifies this
      ensures At(own, Over) && old(docs).Keys <= docs.Keys
      ensures Quiet(world) ==> docs == UnmarkedUnseen(CancelledUnseen(old(docs), seen), seen)
    {
      ghost var before := State();
      docs := CancelledUnseen(docs, seen);
      MoveTo(own, Clearing(seen));
      Took(before, CancelGone(own));
      Await(own);
      before := State();
      docs := UnmarkedUnseen(docs, seen);
      MoveTo(own, Over);
      Took(before, ClearMarks(own));
    }

    /** The files as listed, one after another. */
    method IngestFiles(own: nat, files: Files, listing: seq<Label>)
      requires At(own, Reading(set l | l in listing, {})) && files.Keys <= set l | l in listing
      requires forall i, j :: 0 <= i < j < |listing| ==> listing[i] != listing[j]
      modifies this
      ensures At(own, Reading({}, files.Keys)) && old(docs).Keys + files.Keys <= docs.Keys
      ensures Quiet(world) ==> docs == Part(old(docs), files, files.Keys)
    {
      ghost var before := docs;
      var left, seen := set l | l in listing, {};
      assert Part(before, files, {}) == before;
      for i := 0 to |listing|
        invariant At(own, Reading(left, seen)) && seen <= files.Keys
        invariant forall l :: l in left <==> l in listing[i..]
        invariant forall l :: l in seen <==> l in listing[..i] && l in files
        invariant before.Keys + seen <= docs.Keys
        invariant Quiet(world) ==> docs == Part(before, files, seen)
      {
        var l := listing[i];
        assert listing[i..] == [l] + listing[i + 1..] && listing[..i + 1] == listing[..i] + [l];
        IngestFile(own, left, seen, l, files);
        left := left - {l};
        if l in files {
          PartGrows(before, files, seen, l);
          seen := seen + {l};
        }
      }
      assert listing[..|listing|] == listing;
      assert left == {} && seen == files.Keys;
    }

    /**
     * `ingestSchedules`: the files as listed, the valid ones being those given, then
     * the two updates. With nobody else at work it is exactly the specified tick.
     */
    method IngestSchedules(files: Files, listing: seq<Label>)
      requires Valid() && files.Keys <= set l | l in listing
      requires forall i, j :: 0 <= i < j < |listing| ==> listing[i] != listing[j]
      modifies this
      ensures At(|old(record).ticks|, Over) && old(docs).Keys + files.Keys <= docs.Keys
      ensures Quiet(world) ==> docs == Ticked(old(docs), files)
    {
      ghost var before := State();
      var own := |record.ticks|;
      record := record.(ticks := record.ticks + [Reading(set l | l in listing, {})]);
      Took(before, BeginTick(set l | l in listing));
      IngestFiles(own, files, listing);
      PartCleared(before.docs, files);
      CloseTick(own, files.Keys);
    }
  }
}
