/**
 * Spend accounting of one agent (agent-stats.ts): a turn's cost is first in the
 * collector's memory, then in its running turn document, then in the lifetime
 * total. A turn whose daemon died is claimed by a later turn's reconciliation.
 * Calls come when they come: a tool that has timed out goes on metering before,
 * while and after its turn is written up, and between turns.
 */
module Spend {
  import Seqs

  datatype Status = Running | Ended

  /** A turn document; its index in the collection is its `_id`, and `begun` tells turns of one number apart. */
  datatype TurnDoc = TurnDoc(turn: nat, begun: nat, status: Status, cost: nat)

  /** A pass of `reconcileStaleTurns`: the stale documents it listed, and the claimed cost it has yet to add. */
  datatype Reconciler = Reconciler(stale: set<nat>, owed: nat)

  datatype Phase =
    | Idle
    /** `startTurn` has reset the accumulator and has not come to its own write of the turn document. */
    | Begun
    | InTurn
    /** `endTurn` has written the final status, and not yet read the cost for the lifetime total. */
    | Ending
    /** The increment is on its way with the cost read. */
    | Taken(taken: nat)
    /** The increment has been made, and the accumulator is still there. */
    | Added

  datatype State = State(
    lifetime: nat,
    docs: seq<TurnDoc>,
    /** One above the highest turn number of any conversation document. */
    nextTurn: nat,
    phase: Phase,
    /**
     * The accumulator: its turn, how many were begun up to it, its cost, and the calls
     * counted since it was written.
     */
    turn: nat,
    begun: nat,
    cost: nat,
    unsaved: seq<nat>,
    reconcilers: seq<Reconciler>,
    /** Everything `recordLlmCall` and `recordOutOfTurnCost` were told of. */
    told: nat,
    /** What crashes cut: unsaved calls, and amounts between a status write and its increment. */
    lost: nat,
    /** Calls told of when the increment had read the cost already. */
    late: nat,
    /** Calls told of when there was no accumulator. */
    dropped: nat,
    /** What running documents held that were overwritten by another turn of the same number. */
    hidden: nat,
    /** The turns whose cost was handed over to the lifetime total. */
    credited: multiset<nat>)

  datatype Action =
    | BeginTurn
    | ListStale
    | Claim(r: nat, id: nat)
    | AddClaimed(r: nat)
    | WriteFresh
    | StoreMessage(turn: nat)
    | RecordCall(c: nat)
    | Persist
    | WriteFinal
    | TakeCost
    | AddToLifetime
    | Drop
    | OutOfTurn(c: nat)
    | ReconcilerDies(r: nat)
    | Crash

  /** No turn under way, no document, nothing told of; the conversation may be old. */
  predicate Initial(s: State) {
    && s.phase == Idle && s.docs == [] && s.unsaved == [] && s.reconcilers == [] && s.credited == multiset{}
    && s.lifetime == s.told == s.lost == s.late == s.dropped == s.hidden == 0
  }

  function Sum(xs: seq<nat>): nat {
    if xs == [] then 0 else Sum(xs[..|xs| - 1]) + xs[|xs| - 1]
  }

  function RunningPart(d: TurnDoc): nat {
    if d.status == Running then d.cost else 0
  }

  function RunningCost(docs: seq<TurnDoc>): nat {
    if docs == [] then 0 else RunningCost(docs[..|docs| - 1]) + RunningPart(docs[|docs| - 1])
  }

  function Owed(rs: seq<Reconciler>): nat {
    if rs == [] then 0 else Owed(rs[..|rs| - 1]) + rs[|rs| - 1].owed
  }

  /** The turn's document, or the length for none. */
  function Find(docs: seq<TurnDoc>, turn: nat): (i: nat)
    ensures i <= |docs|
    ensures i < |docs| ==> docs[i].turn == turn
    ensures i == |docs| ==> forall k :: 0 <= k < |docs| ==> docs[k].turn != turn
  {
    if docs == [] then 0
    else
      var n := |docs| - 1;
      var i := Find(docs[..n], turn);
      if i < n then i else if docs[n].turn == turn then n else n + 1
  }

  function Upsert(docs: seq<TurnDoc>, d: TurnDoc): seq<TurnDoc> {
    var i := Find(docs, d.turn);
    if i < |docs| then docs[i := d] else docs + [d]
  }

  /** What a write of d takes out of the running cost of another turn of that number. */
  function Overwritten(docs: seq<TurnDoc>, d: TurnDoc): nat {
    var i := Find(docs, d.turn);
    if i < |docs| && docs[i].begun != d.begun then RunningPart(docs[i]) else 0
  }

  function StaleIds(docs: seq<TurnDoc>, current: nat): set<nat> {
    set i | 0 <= i < |docs| && docs[i].status == Running && docs[i].turn != current
  }

  /** The accumulator still takes the cost of a call to the lifetime total. */
  predicate Counts(p: Phase) {
    p.Begun? || p.InTurn? || p.Ending?
  }

  /** The accumulator's turn is not over. */
  predicate InFlight(p: Phase) {
    p.Begun? || p.InTurn?
  }

  /** What stands between a final status write and its increment. */
  function Between(s: State): nat {
    match s.phase
    case Ending => s.cost
    case Taken(taken) => taken
    case _ => 0
  }

  /** The accumulator as `persist` writes it. */
  function OwnDoc(s: State): TurnDoc {
    TurnDoc(s.turn, s.begun, if InFlight(s.phase) then Running else Ended, s.cost)
  }

  function Persisted(s: State): State {
    s.(docs := Upsert(s.docs, OwnDoc(s)), unsaved := [], hidden := s.hidden + Overwritten(s.docs, OwnDoc(s)))
  }

  predicate Enabled(s: State, a: Action) {
    match a
    case BeginTurn => s.phase.Idle?
    case ListStale => s.phase.Begun?
    case Claim(r, id) =>
      r < |s.reconcilers| && id in s.reconcilers[r].stale && s.reconcilers[r].owed == 0 && id < |s.docs|
    case AddClaimed(r) => r < |s.reconcilers|
    case WriteFresh => s.phase.Begun?
    case StoreMessage(turn) => turn + 1 >= s.nextTurn && !s.phase.Begun? && (s.phase.Idle? || turn >= s.turn)
    case RecordCall(_) => true
    case Persist => !s.phase.Idle?
    case WriteFinal => s.phase.InTurn?
    case TakeCost => s.phase.Ending?
    case AddToLifetime => s.phase.Taken?
    case Drop => s.phase.Added?
    case OutOfTurn(_) => true
    case ReconcilerDies(r) => r < |s.reconcilers|
    case Crash => true
  }

  /** `recordLlmCall` before it writes: without an accumulator it only returns. */
  function Recorded(s: State, c: nat): State {
    var t := s.(told := s.told + c);
    if s.phase.Idle? then t.(dropped := s.dropped + c)
    else if Counts(s.phase) then
      t.(cost := s.cost + c, unsaved := if InFlight(s.phase) then s.unsaved + [c] else s.unsaved)
    else t.(cost := s.cost + c, late := s.late + c)
  }

  function Claimed(s: State, r: nat, id: nat): State
    requires Enabled(s, Claim(r, id))
  {
    var p, d := s.reconcilers[r], s.docs[id];
    if d.status != Running then s.(reconcilers := s.reconcilers[r := p.(stale := p.stale - {id})])
    else
      s.(reconcilers := s.reconcilers[r := Reconciler(p.stale - {id}, d.cost)],
         docs := s.docs[id := d.(status := Ended)],
         credited := s.credited + multiset{d.begun})
  }

  function Apply(s: State, a: Action): State
    requires Enabled(s, a)
  {
    match a
    case BeginTurn => s.(phase := Begun, turn := s.nextTurn, begun := s.begun + 1, cost := 0, unsaved := [])
    case ListStale => s.(reconcilers := s.reconcilers + [Reconciler(StaleIds(s.docs, s.turn), 0)])
    case Claim(r, id) => Claimed(s, r, id)
    case AddClaimed(r) =>
      s.(lifetime := s.lifetime + s.reconcilers[r].owed,
         reconcilers := s.reconcilers[r := s.reconcilers[r].(owed := 0)])
    case WriteFresh => Persisted(s).(phase := InTurn)
    case StoreMessage(turn) => s.(nextTurn := turn + 1)
    case RecordCall(c) => Recorded(s, c)
    case Persist => Persisted(s)
    case WriteFinal => Persisted(s.(phase := Ending)).(credited := s.credited + multiset{s.begun})
    case TakeCost => s.(phase := Taken(s.cost))
    case AddToLifetime => s.(lifetime := s.lifetime + s.phase.taken, phase := Added)
    case Drop => s.(phase := Idle)
    case OutOfTurn(c) => s.(lifetime := s.lifetime + c, told := s.told + c)
    case ReconcilerDies(r) =>
      s.(reconcilers := s.reconcilers[r := Reconciler({}, 0)], lost := s.lost + s.reconcilers[r].owed)
    case Crash =>
      s.(phase := Idle, unsaved := [], reconcilers := [],
         lost := s.lost + Sum(s.unsaved) + Owed(s.reconcilers) + Between(s))
  }

  // ------------------------------------------------------------------ sums

  lemma {:induction false} RunningCostOfUpdate(docs: seq<TurnDoc>, i: nat, d: TurnDoc)
    requires i < |docs|
    ensures RunningCost(docs[i := d]) == RunningCost(docs) - RunningPart(docs[i]) + RunningPart(d)
    decreases |docs|
  {
    var n := |docs| - 1;
    var after := docs[i := d];
    if i == n {
      assert after[..n] == docs[..n];
    } else {
      RunningCostOfUpdate(docs[..n], i, d);
      assert after[..n] == docs[..n][i := d];
    }
  }

  lemma RunningCostOfAppend(docs: seq<TurnDoc>, d: TurnDoc)
    ensures RunningCost(docs + [d]) == RunningCost(docs) + RunningPart(d)
  {
    assert (docs + [d])[..|docs|] == docs;
  }

  lemma {:induction false} OwedOfUpdate(rs: seq<Reconciler>, i: nat, r: Reconciler)
    requires i < |rs|
    ensures Owed(rs[i := r]) == Owed(rs) - rs[i].owed + r.owed
    decreases |rs|
  {
    var n := |rs| - 1;
    var after := rs[i := r];
    if i == n {
      assert after[..n] == rs[..n];
    } else {
      OwedOfUpdate(rs[..n], i, r);
      assert after[..n] == rs[..n][i := r];
    }
  }

  lemma OwedOfAppend(rs: seq<Reconciler>, r: Reconciler)
    ensures Owed(rs + [r]) == Owed(rs) + r.owed
  {
    assert (rs + [r])[..|rs|] == rs;
  }

  lemma SumOfAppend(xs: seq<nat>, x: nat)
    ensures Sum(xs + [x]) == Sum(xs) + x
  {
    assert (xs + [x])[..|xs|] == xs;
  }

  lemma UpsertFacts(docs: seq<TurnDoc>, d: TurnDoc)
    ensures var i, after := Find(docs, d.turn), Upsert(docs, d);
            && |docs| <= |after| && i < |after| && after[i] == d
            && (forall k :: 0 <= k < |docs| && k != i ==> after[k] == docs[k])
            && |after| == (if i < |docs| then |docs| else |docs| + 1)
            && RunningCost(after) ==
                 RunningCost(docs) - (if i < |docs| then RunningPart(docs[i]) else 0) + RunningPart(d)
  {
    var i := Find(docs, d.turn);
    if i < |docs| {
      RunningCostOfUpdate(docs, i, d);
    } else {
      RunningCostOfAppend(docs, d);
    }
  }

  // ------------------------------------------------------------------ the invariant

  /** What no total will hold again. */
  function Missed(s: State): nat {
    s.lost + s.late + s.dropped + s.hidden
  }

  predicate Conserved(s: State) {
    s.told == s.lifetime + RunningCost(s.docs) + Sum(s.unsaved) + Owed(s.reconcilers) + Between(s) + Missed(s)
  }

  /** One document per turn number and one per turn begun, none for a number yet to come. */
  predicate DocsOk(s: State) {
    && (forall i :: 0 <= i < |s.docs| ==> s.docs[i].turn <= s.nextTurn && s.docs[i].begun <= s.begun)
    && (forall i, j :: 0 <= i < j < |s.docs| ==>
          s.docs[i].turn != s.docs[j].turn && s.docs[i].begun != s.docs[j].begun)
  }

  /** The turn has written its document. */
  predicate OwnWritten(s: State) {
    var i := Find(s.docs, s.turn);
    i < |s.docs| && s.docs[i].begun == s.begun
  }

  /** No document is above the accumulator's turn, and its own has the turn's number. */
  predicate NumbersOk(s: State) {
    && (!s.phase.Idle? ==>
          && s.turn <= s.nextTurn
          && (forall i :: 0 <= i < |s.docs| ==> s.docs[i].turn <= s.turn)
          && (forall i :: 0 <= i < |s.docs| && s.docs[i].begun == s.begun ==> s.docs[i].turn == s.turn))
    && (s.phase.Begun? ==> s.turn == s.nextTurn)
  }

  /** The turn's document holds its cost but for the unsaved calls; before its first write all calls are unsaved. */
  predicate CostOk(s: State) {
    && (s.phase.Idle? ==> s.unsaved == [])
    && (InFlight(s.phase) && !OwnWritten(s) ==> s.phase.Begun? && s.cost == Sum(s.unsaved))
    && (InFlight(s.phase) && OwnWritten(s) ==>
          var d := s.docs[Find(s.docs, s.turn)];
          d.status == Running && d.cost + Sum(s.unsaved) == s.cost)
    && (!s.phase.Idle? && !InFlight(s.phase) ==>
          && s.unsaved == [] && OwnWritten(s)
          && var d := s.docs[Find(s.docs, s.turn)]; d.status == Ended && d.cost <= s.cost)
  }

  predicate TurnOk(s: State) {
    NumbersOk(s) && CostOk(s)
  }

  /** The turn in flight, or the one a next turn would get at least. */
  function CurrentTurn(s: State): nat {
    if InFlight(s.phase) then s.turn else s.nextTurn
  }

  predicate Below(docs: seq<TurnDoc>, ids: set<nat>, turn: nat) {
    forall id :: id in ids ==> id < |docs| && docs[id].turn < turn
  }

  /** Nobody lists the turn in flight, nor one that could start later. */
  predicate ReconcilersOk(s: State) {
    forall r :: 0 <= r < |s.reconcilers| ==> Below(s.docs, s.reconcilers[r].stale, CurrentTurn(s))
  }

  /** A turn is credited once at most, and its document stays ended from then on. */
  predicate CreditsOk(s: State) {
    forall b :: b in s.credited ==>
      && s.credited[b] == 1
      && b <= s.begun
      && (InFlight(s.phase) ==> b < s.begun)
      && (forall i :: 0 <= i < |s.docs| && s.docs[i].begun == b ==> s.docs[i].status == Ended)
  }

  ghost predicate Inv(s: State) {
    Conserved(s) && DocsOk(s) && TurnOk(s) && ReconcilersOk(s) && CreditsOk(s)
  }

  predicate OwnWrite(a: Action) {
    a.WriteFresh? || a.Persist? || a.WriteFinal?
  }

  /** The accumulator as the write finds it. */
  function Writer(s: State, a: Action): State {
    if a.WriteFinal? then s.(phase := Ending) else s
  }

  lemma OwnWriteFacts(s: State, a: Action)
    requires Enabled(s, a) && OwnWrite(a)
    ensures var w, t := OwnDoc(Writer(s, a)), Apply(s, a);
            var i := Find(s.docs, s.turn);
            && w.turn == s.turn && w.begun == s.begun && w.cost == s.cost
            && t.docs == Upsert(s.docs, w) && t.unsaved == [] && t.cost == s.cost
            && |s.docs| <= |t.docs| && i < |t.docs| && t.docs[i] == w
            && |t.docs| == (if i < |s.docs| then |s.docs| else |s.docs| + 1)
            && (forall k :: 0 <= k < |s.docs| && k != i ==> t.docs[k] == s.docs[k])
            && RunningCost(t.docs) ==
                 RunningCost(s.docs) - (if i < |s.docs| then RunningPart(s.docs[i]) else 0) + RunningPart(w)
            && t.hidden == s.hidden + Overwritten(s.docs, w)
  {
    UpsertFacts(s.docs, OwnDoc(Writer(s, a)));
  }

  lemma FindIsUnique(docs: seq<TurnDoc>, turn: nat, i: nat)
    requires i < |docs| && docs[i].turn == turn
    requires forall i, j :: 0 <= i < j < |docs| ==> docs[i].turn != docs[j].turn
    ensures Find(docs, turn) == i
  {
    assert docs[i].turn == turn;
  }

  /** An update that keeps the turn numbers keeps where the turns are found. */
  lemma FindAfter(docs: seq<TurnDoc>, after: seq<TurnDoc>, turn: nat)
    requires |docs| == |after| && forall i :: 0 <= i < |docs| ==> after[i].turn == docs[i].turn
    requires forall i, j :: 0 <= i < j < |docs| ==> docs[i].turn != docs[j].turn
    ensures Find(after, turn) == Find(docs, turn)
  {
    if Find(docs, turn) < |docs| {
      FindIsUnique(after, turn, Find(docs, turn));
    }
  }

  lemma OwnWriteConserves(s: State, a: Action)
    requires Conserved(s) && TurnOk(s) && Enabled(s, a) && OwnWrite(a)
    ensures Conserved(Apply(s, a))
  {
    OwnWriteFacts(s, a);
  }

  lemma ClaimConserves(s: State, r: nat, id: nat)
    requires Conserved(s) && Enabled(s, Claim(r, id))
    ensures Conserved(Apply(s, Claim(r, id)))
  {
    var p, d := s.reconcilers[r], s.docs[id];
    if d.status == Running {
      OwedOfUpdate(s.reconcilers, r, Reconciler(p.stale - {id}, d.cost));
      RunningCostOfUpdate(s.docs, id, d.(status := Ended));
    } else {
      OwedOfUpdate(s.reconcilers, r, p.(stale := p.stale - {id}));
    }
  }

  lemma StepConserves(s: State, a: Action)
    requires Inv(s) && Enabled(s, a)
    ensures Conserved(Apply(s, a))
  {
    match a {
      case BeginTurn =>
      case ListStale => OwedOfAppend(s.reconcilers, Reconciler(StaleIds(s.docs, s.turn), 0));
      case Claim(r, id) => ClaimConserves(s, r, id);
      case AddClaimed(r) => OwedOfUpdate(s.reconcilers, r, s.reconcilers[r].(owed := 0));
      case StoreMessage(_) =>
      case RecordCall(c) => SumOfAppend(s.unsaved, c);
      case TakeCost =>
      case AddToLifetime =>
      case Drop =>
      case OutOfTurn(_) =>
      case ReconcilerDies(r) => OwedOfUpdate(s.reconcilers, r, Reconciler({}, 0));
      case Crash =>
      case _ => OwnWriteConserves(s, a);
    }
  }

  lemma OthersDiffer(s: State, k: nat)
    requires DocsOk(s) && TurnOk(s) && !s.phase.Idle? && k < |s.docs| && k != Find(s.docs, s.turn)
    ensures s.docs[k].turn != s.turn && s.docs[k].begun != s.begun
  {
    if s.docs[k].turn == s.turn {
      FindIsUnique(s.docs, s.turn, k);
    }
  }

  lemma OwnWriteKeepsPair(s: State, a: Action, i: nat, j: nat)
    requires DocsOk(s) && TurnOk(s) && Enabled(s, a) && OwnWrite(a) && i < j < |Apply(s, a).docs|
    ensures var docs := Apply(s, a).docs; docs[i].turn != docs[j].turn && docs[i].begun != docs[j].begun
  {
    var o := Find(s.docs, s.turn);
    OwnWriteFacts(s, a);
    if i != o {
      OthersDiffer(s, i);
    }
    if j != o {
      OthersDiffer(s, j);
    }
  }

  lemma OwnWriteKeepsDocs(s: State, a: Action)
    requires DocsOk(s) && TurnOk(s) && Enabled(s, a) && OwnWrite(a)
    ensures DocsOk(Apply(s, a))
  {
    var t := Apply(s, a);
    forall i, j | 0 <= i < j < |t.docs|
      ensures t.docs[i].turn != t.docs[j].turn && t.docs[i].begun != t.docs[j].begun
    {
      OwnWriteKeepsPair(s, a, i, j);
    }
    OwnWriteFacts(s, a);
  }

  lemma StepKeepsDocs(s: State, a: Action)
    requires Inv(s) && Enabled(s, a)
    ensures DocsOk(Apply(s, a))
  {
    if OwnWrite(a) {
      OwnWriteKeepsDocs(s, a);
    }
  }

  lemma OwnWriteIsFound(s: State, a: Action)
    requires DocsOk(s) && TurnOk(s) && Enabled(s, a) && OwnWrite(a)
    ensures var t := Apply(s, a);
            var i := Find(t.docs, t.turn);
            && i < |t.docs| && t.docs[i] == OwnDoc(Writer(s, a)) && t.unsaved == []
            && (forall k :: 0 <= k < |t.docs| && k != i ==> k < |s.docs| && t.docs[k] == s.docs[k])
            && (forall k :: 0 <= k < |t.docs| && k != i ==> s.docs[k].turn != s.turn)
  {
    OwnWriteFacts(s, a);
    OwnWriteKeepsDocs(s, a);
    FindIsUnique(Apply(s, a).docs, s.turn, Find(s.docs, s.turn));
  }

  lemma OwnWriteKeepsNumbers(s: State, a: Action)
    requires DocsOk(s) && TurnOk(s) && Enabled(s, a) && OwnWrite(a)
    ensures NumbersOk(Apply(s, a))
  {
    OwnWriteFacts(s, a);
  }

  lemma OwnWriteKeepsTurn(s: State, a: Action)
    requires DocsOk(s) && TurnOk(s) && Enabled(s, a) && OwnWrite(a)
    ensures TurnOk(Apply(s, a)) && OwnWritten(Apply(s, a))
  {
    OwnWriteKeepsNumbers(s, a);
    OwnWriteIsFound(s, a);
  }

  lemma ClaimKeepsTurn(s: State, a: Action)
    requires Inv(s) && Enabled(s, a) && a.Claim?
    ensures TurnOk(Apply(s, a))
  {
    assert Below(s.docs, s.reconcilers[a.r].stale, CurrentTurn(s));
    FindAfter(s.docs, Apply(s, a).docs, s.turn);
  }

  lemma RecordKeepsTurn(s: State, a: Action)
    requires TurnOk(s) && Enabled(s, a) && a.RecordCall?
    ensures TurnOk(Apply(s, a))
  {
    SumOfAppend(s.unsaved, a.c);
  }

  lemma StepKeepsTurn(s: State, a: Action)
    requires Inv(s) && Enabled(s, a)
    ensures TurnOk(Apply(s, a))
  {
    if OwnWrite(a) {
      OwnWriteKeepsTurn(s, a);
    } else if a.Claim? {
      ClaimKeepsTurn(s, a);
    } else if a.RecordCall? {
      RecordKeepsTurn(s, a);
    }
  }

  lemma OwnWriteKeepsReconcilers(s: State, a: Action)
    requires ReconcilersOk(s) && Enabled(s, a) && OwnWrite(a) && s.turn <= s.nextTurn
    ensures ReconcilersOk(Apply(s, a))
  {
    OwnWriteFacts(s, a);
    var t := Apply(s, a);
    forall r | 0 <= r < |t.reconcilers| ensures Below(t.docs, t.reconcilers[r].stale, CurrentTurn(t)) {
      assert Below(s.docs, s.reconcilers[r].stale, CurrentTurn(s));
    }
  }

  lemma StepKeepsReconcilers(s: State, a: Action)
    requires Inv(s) && Enabled(s, a)
    ensures ReconcilersOk(Apply(s, a))
  {
    if OwnWrite(a) {
      OwnWriteKeepsReconcilers(s, a);
    } else {
      var t := Apply(s, a);
      forall r | 0 <= r < |t.reconcilers| ensures Below(t.docs, t.reconcilers[r].stale, CurrentTurn(t)) {
        assert r < |s.reconcilers| ==> Below(s.docs, s.reconcilers[r].stale, CurrentTurn(s));
      }
    }
  }

  lemma ClaimKeepsCredits(s: State, a: Action)
    requires Inv(s) && Enabled(s, a) && a.Claim?
    ensures CreditsOk(Apply(s, a))
  {
    assert Below(s.docs, s.reconcilers[a.r].stale, CurrentTurn(s));
  }

  lemma OwnWriteKeepsCredits(s: State, a: Action)
    requires CreditsOk(s) && DocsOk(s) && TurnOk(s) && Enabled(s, a) && OwnWrite(a)
    ensures CreditsOk(Apply(s, a))
  {
    OwnWriteFacts(s, a);
  }

  lemma StepKeepsCredits(s: State, a: Action)
    requires Inv(s) && Enabled(s, a)
    ensures CreditsOk(Apply(s, a))
  {
    if OwnWrite(a) {
      OwnWriteKeepsCredits(s, a);
    } else if a.Claim? {
      ClaimKeepsCredits(s, a);
    }
  }

  lemma StepKeepsInv(s: State, a: Action)
    requires Inv(s) && Enabled(s, a)
    ensures Inv(Apply(s, a))
  {
    StepConserves(s, a);
    StepKeepsDocs(s, a);
    StepKeepsTurn(s, a);
    StepKeepsReconcilers(s, a);
    StepKeepsCredits(s, a);
  }

  // ------------------------------------------------------------------ runs

  ghost predicate Legal(s: State, run: seq<Action>)
    decreases |run|
  {
    run != [] ==> Enabled(s, run[0]) && Legal(Apply(s, run[0]), run[1..])
  }

  ghost function Run(s: State, run: seq<Action>): State
    requires Legal(s, run)
    decreases |run|
  {
    if run == [] then s else Run(Apply(s, run[0]), run[1..])
  }

  lemma {:induction false} RunsCompose(s: State, first: seq<Action>, second: seq<Action>)
    requires Legal(s, first) && Legal(Run(s, first), second)
    ensures Legal(s, first + second) && Run(s, first + second) == Run(Run(s, first), second)
    decreases |first|
  {
    if first == [] {
      Seqs.NothingBefore(second);
    } else {
      Seqs.TailOfConcat(first, second);
      RunsCompose(Apply(s, first[0]), first[1..], second);
    }
  }

  lemma {:induction false} RunKeepsInv(s: State, run: seq<Action>)
    requires Inv(s) && Legal(s, run)
    ensures Inv(Run(s, run))
    decreases |run|
  {
    if run != [] {
      StepKeepsInv(s, run[0]);
      RunKeepsInv(Apply(s, run[0]), run[1..]);
    }
  }

  ghost predicate Reachable(s: State) {
    exists init, run :: Initial(init) && Legal(init, run) && Run(init, run) == s
  }

  lemma InitialInv(s: State)
    requires Initial(s)
    ensures Inv(s)
  {
  }

  lemma ReachableKeepsInv(s: State)
    requires Reachable(s)
    ensures Inv(s)
  {
    var init, run :| Initial(init) && Legal(init, run) && Run(init, run) == s;
    InitialInv(init);
    RunKeepsInv(init, run);
  }

  ghost predicate CrashFree(run: seq<Action>) {
    forall a :: a in run ==> !a.Crash? && !a.ReconcilerDies?
  }

  ghost predicate CallFree(run: seq<Action>) {
    forall a :: a in run ==> !a.RecordCall?
  }

  /** Nothing is on its way: no turn, and no claimed cost yet to be added. */
  predicate AtRest(s: State) {
    s.phase.Idle? && Owed(s.reconcilers) == 0
  }

  // ------------------------------------------------------------------ what the totals say

  /** What the mission cap reads of this agent (`readMissionSnapshot`), read at one moment. */
  function Snapshot(s: State): nat {
    s.lifetime + RunningCost(s.docs)
  }

  /**
   * The snapshot never exceeds the spend told of, and falls short exactly by the
   * calls not yet written, the amounts between a status write and their increment,
   * and what is missed for good.
   */
  lemma SnapshotFallsShortExactly(s: State)
    requires Reachable(s)
    ensures s.told - Snapshot(s) == Sum(s.unsaved) + Owed(s.reconcilers) + Between(s) + Missed(s)
    ensures Snapshot(s) <= s.told
    ensures AtRest(s) ==> s.told - Snapshot(s) == Missed(s)
  {
    ReachableKeepsInv(s);
  }

  // ------------------------------------------------------------------ crashes and overwritten documents

  /**
   * The next turn to begin can overwrite a running document that holds cost: its
   * number is one no conversation document has reached. A crash can bring the
   * turn in flight into that position.
   */
  predicate Exposed(s: State) {
    || (exists i :: 0 <= i < |s.docs| && ExposedDoc(s, s.docs[i]))
    || (InFlight(s.phase) && s.turn == s.nextTurn && s.cost > 0)
  }

  predicate ExposedDoc(s: State, d: TurnDoc) {
    d.status == Running && d.cost > 0 && d.turn == s.nextTurn
  }

  lemma OwnWriteExposesNothing(s: State, a: Action)
    requires Inv(s) && Enabled(s, a) && OwnWrite(a) && Exposed(Apply(s, a))
    ensures Exposed(s)
  {
    OwnWriteFacts(s, a);
    var t := Apply(s, a);
    if i :| 0 <= i < |t.docs| && ExposedDoc(t, t.docs[i]) {
      if i != Find(s.docs, s.turn) {
        assert ExposedDoc(s, s.docs[i]);
      }
    }
  }

  /** What is exposed was exposed before, or a call has just exposed it. */
  lemma ExposedBefore(s: State, a: Action)
    requires Inv(s) && Enabled(s, a) && Exposed(Apply(s, a))
    ensures Exposed(s) || (a.RecordCall? && a.c > 0 && InFlight(s.phase) && s.turn == s.nextTurn)
  {
    var t := Apply(s, a);
    if OwnWrite(a) {
      OwnWriteExposesNothing(s, a);
    } else if s.nextTurn == t.nextTurn {
      if i :| 0 <= i < |t.docs| && ExposedDoc(t, t.docs[i]) {
        assert ExposedDoc(s, s.docs[i]);
      }
    }
  }

  lemma NothingHiddenHere(s: State, a: Action)
    requires Inv(s) && Enabled(s, a) && !Exposed(s)
    ensures Apply(s, a).hidden == s.hidden
  {
    if OwnWrite(a) {
      OwnWriteFacts(s, a);
      var i := Find(s.docs, s.turn);
      assert i < |s.docs| ==> !ExposedDoc(s, s.docs[i]);
    }
  }

  /** A call exposes its turn if and only if the turn has stored no message yet under a number of its own. */
  lemma ACallExposesExactlyBeforeTheFirstMessage(s: State, c: nat)
    requires Reachable(s) && !Exposed(s)
    ensures Exposed(Apply(s, RecordCall(c))) <==> c > 0 && InFlight(s.phase) && s.turn == s.nextTurn
  {
    ReachableKeepsInv(s);
    if Exposed(Apply(s, RecordCall(c))) {
      ExposedBefore(s, RecordCall(c));
    }
  }

  lemma {:induction false} UnexposedStaysUnhidden(s: State, run: seq<Action>)
    requires Inv(s) && !Exposed(s) && Legal(s, run) && CallFree(run)
    ensures Run(s, run).hidden == s.hidden && !Exposed(Run(s, run))
    decreases |run|
  {
    if run != [] {
      var a := run[0];
      assert a in run && !a.RecordCall?;
      NothingHiddenHere(s, a);
      if Exposed(Apply(s, a)) {
        ExposedBefore(s, a);
      }
      StepKeepsInv(s, a);
      assert CallFree(run[1..]);
      UnexposedStaysUnhidden(Apply(s, a), run[1..]);
    }
  }

  /** The daemon dies, and the next turn takes the number. */
  const NUMBER_TAKEN_AGAIN := [Crash, BeginTurn, WriteFresh]

  lemma AnExposedDocCanBeHidden(s: State, i: nat)
    requires Inv(s) && i < |s.docs| && ExposedDoc(s, s.docs[i])
    ensures Legal(s, NUMBER_TAKEN_AGAIN) && Run(s, NUMBER_TAKEN_AGAIN).hidden == s.hidden + s.docs[i].cost
  {
    var s1 := Apply(s, Crash);
    var s2 := Apply(s1, BeginTurn);
    FindIsUnique(s2.docs, s2.turn, i);
    var s3 := Apply(s2, WriteFresh);
    assert NUMBER_TAKEN_AGAIN[1..][1..] == [WriteFresh] && NUMBER_TAKEN_AGAIN[1..] == [BeginTurn, WriteFresh];
    assert [WriteFresh][1..] == [] && Legal(s3, []);
    assert Legal(s2, [WriteFresh]) && Run(s2, [WriteFresh]) == s3;
    assert Legal(s1, NUMBER_TAKEN_AGAIN[1..]) && Run(s1, NUMBER_TAKEN_AGAIN[1..]) == s3;
  }

  lemma ExposureCanHide(s: State) returns (run: seq<Action>)
    requires Inv(s) && Exposed(s)
    ensures Legal(s, run) && CallFree(run) && Run(s, run).hidden > s.hidden
  {
    assert CallFree(NUMBER_TAKEN_AGAIN);
    if i :| 0 <= i < |s.docs| && ExposedDoc(s, s.docs[i]) {
      AnExposedDocCanBeHidden(s, i);
      run := NUMBER_TAKEN_AGAIN;
    } else {
      OwnWriteFacts(s, Persist);
      StepKeepsInv(s, Persist);
      var t := Apply(s, Persist);
      AnExposedDocCanBeHidden(t, Find(s.docs, s.turn));
      run := [Persist] + NUMBER_TAKEN_AGAIN;
      assert run[1..] == NUMBER_TAKEN_AGAIN && run[0] == Persist;
      assert Run(s, run) == Run(t, NUMBER_TAKEN_AGAIN);
    }
  }

  /**
   * Stored cost can be hidden by some continuation without another call if and
   * only if the state is exposed.
   */
  lemma HiddenExactlyWhenExposed(s: State)
    requires Reachable(s)
    ensures (exists run :: Legal(s, run) && CallFree(run) && Run(s, run).hidden > s.hidden) <==> Exposed(s)
  {
    ReachableKeepsInv(s);
    if Exposed(s) {
      var run := ExposureCanHide(s);
    } else {
      forall run | Legal(s, run) && CallFree(run) ensures Run(s, run).hidden == s.hidden {
        UnexposedStaysUnhidden(s, run);
      }
    }
  }

  // ------------------------------------------------------------------ which calls are missed

  /** Without a crash nothing is lost, nothing is hidden, and no running document is left over. */
  ghost predicate Tidy(s: State) {
    && s.lost == 0 && s.hidden == 0
    && (forall i :: 0 <= i < |s.docs| && s.docs[i].status == Running ==>
          InFlight(s.phase) && s.docs[i].begun == s.begun)
  }

  lemma OwnWriteStaysTidy(s: State, a: Action)
    requires Tidy(s) && TurnOk(s) && DocsOk(s) && Enabled(s, a) && OwnWrite(a)
    ensures Tidy(Apply(s, a))
  {
    var t, o := Apply(s, a), Find(s.docs, s.turn);
    OwnWriteFacts(s, a);
    forall i | 0 <= i < |t.docs| && t.docs[i].status == Running
      ensures InFlight(t.phase) && t.docs[i].begun == t.begun
    {
      if i != o {
        OthersDiffer(s, i);
      }
    }
  }

  lemma StepStaysTidy(s: State, a: Action)
    requires Inv(s) && Tidy(s) && Enabled(s, a) && !a.Crash? && !a.ReconcilerDies?
    ensures Tidy(Apply(s, a))
  {
    if OwnWrite(a) {
      OwnWriteStaysTidy(s, a);
    }
  }

  lemma {:induction false} RunStaysTidy(s: State, run: seq<Action>)
    requires Inv(s) && Tidy(s) && Legal(s, run) && CrashFree(run)
    ensures Inv(Run(s, run)) && Tidy(Run(s, run))
    decreases |run|
  {
    if run != [] {
      assert run[0] in run;
      StepStaysTidy(s, run[0]);
      StepKeepsInv(s, run[0]);
      assert CrashFree(run[1..]);
      RunStaysTidy(Apply(s, run[0]), run[1..]);
    }
  }

  lemma InitialTidy(s: State)
    requires Initial(s)
    ensures Inv(s) && Tidy(s)
  {
    InitialInv(s);
  }

  /** Without crashes the only cost ever missed is that of late calls and of calls with no accumulator. */
  lemma WithoutCrashesOnlyLateCallsAreMissed(init: State, run: seq<Action>)
    requires Initial(init) && Legal(init, run) && CrashFree(run)
    ensures var s := Run(init, run);
            && Missed(s) == s.late + s.dropped
            && (AtRest(s) ==> s.told - Snapshot(s) == s.late + s.dropped)
  {
    InitialTidy(init);
    RunStaysTidy(init, run);
  }

  lemma {:induction false} NoCallNoneMissed(s: State, run: seq<Action>)
    requires Legal(s, run) && CallFree(run)
    ensures Run(s, run).late == s.late && Run(s, run).dropped == s.dropped
    decreases |run|
  {
    if run != [] {
      assert run[0] in run && CallFree(run[1..]);
      NoCallNoneMissed(Apply(s, run[0]), run[1..]);
    }
  }

  lemma {:induction false} RunsSplit(s: State, first: seq<Action>, second: seq<Action>)
    requires Legal(s, first + second)
    ensures Legal(s, first) && Legal(Run(s, first), second) && Run(s, first + second) == Run(Run(s, first), second)
    decreases |first|
  {
    if first == [] {
      Seqs.NothingBefore(second);
    } else {
      Seqs.TailOfConcat(first, second);
      RunsSplit(Apply(s, first[0]), first[1..], second);
    }
  }

  /**
   * A call is missed for good if and only if it comes when there is no accumulator
   * or when the increment has read the cost: whatever else happens without a crash,
   * and until everything is at rest after it, the snapshot is short by that call
   * exactly then.
   */
  lemma ACallIsMissedExactlyOutsideItsTurn(init: State, before: seq<Action>, c: nat, after: seq<Action>)
    requires Initial(init) && Legal(init, before + ([RecordCall(c)] + after))
    requires CrashFree(before) && CrashFree(after) && CallFree(after)
    requires AtRest(Run(init, before + ([RecordCall(c)] + after)))
    ensures Legal(init, before)
    ensures var s, t := Run(init, before), Run(init, before + ([RecordCall(c)] + after));
            t.told - Snapshot(t) == s.late + s.dropped + if Counts(s.phase) then 0 else c
  {
    var rest := [RecordCall(c)] + after;
    RunsSplit(init, before, rest);
    var s := Run(init, before);
    assert rest[0] == RecordCall(c) && rest[1..] == after;
    var u := Apply(s, RecordCall(c));
    assert Run(s, rest) == Run(u, after);
    NoCallNoneMissed(u, after);
    assert CrashFree(before + rest);
    WithoutCrashesOnlyLateCallsAreMissed(init, before + rest);
  }

  lemma OneStep(s: State, a: Action)
    requires Enabled(s, a)
    ensures Legal(s, [a]) && Run(s, [a]) == Apply(s, a)
    ensures Reachable(s) ==> Reachable(Apply(s, a))
  {
    assert [a][1..] == [] && Legal(Apply(s, a), []);
    if Reachable(s) {
      var init, run :| Initial(init) && Legal(init, run) && Run(init, run) == s;
      RunsCompose(init, run, [a]);
    }
  }

  lemma Extended(s: State, run: seq<Action>, a: Action)
    requires Legal(s, run) && CrashFree(run) && Enabled(Run(s, run), a) && !a.Crash? && !a.ReconcilerDies?
    ensures Legal(s, run + [a]) && CrashFree(run + [a]) && Run(s, run + [a]) == Apply(Run(s, run), a)
  {
    OneStep(Run(s, run), a);
    RunsCompose(s, run, [a]);
  }

  /** A first turn has begun, and its document is written. */
  lemma FirstTurnBegins(init: State)
    requires Initial(init)
    ensures Legal(init, [BeginTurn, WriteFresh])
    ensures Run(init, [BeginTurn, WriteFresh]) ==
              init.(docs := [TurnDoc(init.nextTurn, init.begun + 1, Running, 0)], phase := InTurn,
                    turn := init.nextTurn, begun := init.begun + 1, cost := 0)
  {
    OneStep(init, BeginTurn);
    OneStep(Apply(init, BeginTurn), WriteFresh);
    RunsCompose(init, [BeginTurn], [WriteFresh]);
    assert [BeginTurn] + [WriteFresh] == [BeginTurn, WriteFresh];
  }

  lemma FirstTurnEnds(init: State)
    requires Initial(init)
    ensures var run := [BeginTurn, WriteFresh] + [WriteFinal, TakeCost];
            && Legal(init, run) && CrashFree(run)
            && var t := Run(init, run);
            && t.phase == Taken(0) && t.reconcilers == [] && t.told == t.lifetime == t.late == t.dropped == 0
  {
    FirstTurnBegins(init);
    var s := Run(init, [BeginTurn, WriteFresh]);
    OneStep(s, WriteFinal);
    OneStep(Apply(s, WriteFinal), TakeCost);
    RunsCompose(s, [WriteFinal], [TakeCost]);
    assert [WriteFinal] + [TakeCost] == [WriteFinal, TakeCost];
    RunsCompose(init, [BeginTurn, WriteFresh], [WriteFinal, TakeCost]);
  }

  lemma Preceded(s: State, a: Action, rest: seq<Action>)
    requires Enabled(s, a) && Legal(Apply(s, a), rest)
    ensures Legal(s, [a] + rest) && Run(s, [a] + rest) == Run(Apply(s, a), rest)
  {
    assert ([a] + rest)[0] == a && ([a] + rest)[1..] == rest;
  }

  const COST_ADDED := [Persist] + ([AddToLifetime] + [Drop])

  lemma CostIsAdded(s: State)
    requires s.phase.Taken?
    ensures Legal(s, COST_ADDED)
    ensures Run(s, COST_ADDED) == Persisted(s).(lifetime := s.lifetime + s.phase.taken, phase := Idle)
  {
    var s1 := Apply(s, Persist);
    var s2 := Apply(s1, AddToLifetime);
    OneStep(s2, Drop);
    Preceded(s1, AddToLifetime, [Drop]);
    Preceded(s, Persist, [AddToLifetime] + [Drop]);
  }

  /** Once the increment has read the cost, a call still counts in the accumulator and its document, and in no total. */
  lemma AfterTheCostIsRead(s: State, c: nat)
    requires s.phase.Taken?
    ensures var run := [RecordCall(c)] + COST_ADDED;
            && Legal(s, run) && CrashFree(run)
            && var t := Run(s, run);
            && t.phase.Idle? && t.late == s.late + c && t.dropped == s.dropped && t.told == s.told + c
            && t.lifetime == s.lifetime + s.phase.taken && t.reconcilers == s.reconcilers
  {
    CostIsAdded(Apply(s, RecordCall(c)));
    Preceded(s, RecordCall(c), COST_ADDED);
  }

  /**
   * A call of any cost that comes between the reading of the turn's cost and the end
   * of `endTurn`, with no crash: neither the lifetime total nor a running document
   * holds it, then or later.
   */
  lemma ALateCallIsMissed(init: State, c: nat) returns (run: seq<Action>)
    requires Initial(init)
    ensures Legal(init, run) && CrashFree(run)
    ensures var t := Run(init, run); AtRest(t) && t.told == c && Snapshot(t) == 0
  {
    var first := [BeginTurn, WriteFresh] + [WriteFinal, TakeCost];
    FirstTurnEnds(init);
    var rest := [RecordCall(c)] + COST_ADDED;
    AfterTheCostIsRead(Run(init, first), c);
    RunsCompose(init, first, rest);
    run := first + rest;
    WithoutCrashesOnlyLateCallsAreMissed(init, run);
  }

  /** A call, and a crash once it is written. */
  function CalledThenTakenAgain(c: nat): seq<Action> {
    [RecordCall(c)] + ([Persist] + NUMBER_TAKEN_AGAIN)
  }

  lemma FirstCallIsHidden(s: State, c: nat)
    requires Inv(s) && s.phase.InTurn? && s.turn == s.nextTurn && s.cost == 0 && c > 0 && s.unsaved == []
    ensures Legal(s, CalledThenTakenAgain(c)) && Run(s, CalledThenTakenAgain(c)).hidden == s.hidden + c
  {
    var s1 := Apply(s, RecordCall(c));
    StepKeepsInv(s, RecordCall(c));
    StepKeepsInv(s1, Persist);
    OwnWriteFacts(s1, Persist);
    var s2 := Apply(s1, Persist);
    AnExposedDocCanBeHidden(s2, Find(s1.docs, s1.turn));
    OneStep(s, RecordCall(c));
    OneStep(s1, Persist);
    RunsCompose(s1, [Persist], NUMBER_TAKEN_AGAIN);
    RunsCompose(s, [RecordCall(c)], [Persist] + NUMBER_TAKEN_AGAIN);
  }

  lemma {:induction false} OneCallIsAllThatIsTold(s: State, run: seq<Action>)
    requires Legal(s, run) && CallFree(run) && forall a :: a in run ==> !a.OutOfTurn?
    ensures Run(s, run).told == s.told
    decreases |run|
  {
    if run != [] {
      assert run[0] in run;
      OneCallIsAllThatIsTold(Apply(s, run[0]), run[1..]);
    }
  }

  lemma OnlyThisCallIsTold(s: State, c: nat)
    requires Legal(s, CalledThenTakenAgain(c))
    ensures Run(s, CalledThenTakenAgain(c)).told == s.told + c
  {
    var rest := [Persist] + NUMBER_TAKEN_AGAIN;
    OneStep(s, RecordCall(c));
    RunsSplit(s, [RecordCall(c)], rest);
    OneCallIsAllThatIsTold(Apply(s, RecordCall(c)), rest);
  }

  /**
   * A call of any cost above zero that comes before the turn's first stored message,
   * then a crash: the next turn takes the number, its first write hides the cost,
   * and the snapshot shows nothing of all that was spent.
   */
  lemma ACallBeforeTheFirstMessageIsHidden(init: State, c: nat) returns (run: seq<Action>)
    requires Initial(init) && c > 0
    ensures run == [BeginTurn, WriteFresh] + CalledThenTakenAgain(c)
    ensures Legal(init, run)
    ensures var t := Run(init, run); t.told == c && t.hidden == c && Snapshot(t) == 0
  {
    FirstTurnBegins(init);
    var first := [BeginTurn, WriteFresh];
    var s := Run(init, first);
    InitialInv(init);
    RunKeepsInv(init, first);
    FirstCallIsHidden(s, c);
    RunsCompose(init, first, CalledThenTakenAgain(c));
    run := first + CalledThenTakenAgain(c);
    RunKeepsInv(init, run);
    OnlyThisCallIsTold(s, c);
  }

  // ------------------------------------------------------------------ reconciliation

  /** However many reconciliations race, and turns end, a turn's cost is handed to the lifetime total once at most. */
  lemma ATurnIsCreditedOnce(s: State, begun: nat)
    requires Reachable(s)
    ensures s.credited[begun] <= 1
  {
    ReachableKeepsInv(s);
    assert begun in s.credited ==> s.credited[begun] == 1;
  }

  /** The turn in flight is nobody's to claim. */
  lemma ReconciliationSparesTheTurnInFlight(s: State, r: nat, id: nat)
    requires Reachable(s) && InFlight(s.phase)
    requires Enabled(s, Claim(r, id))
    ensures s.docs[id].turn < s.turn
  {
    ReachableKeepsInv(s);
    assert Below(s.docs, s.reconcilers[r].stale, CurrentTurn(s));
  }

  /** As Legal, when each call is written before the next one is recorded, as the loop's hooks are awaited. */
  ghost predicate Serial(s: State, run: seq<Action>)
    requires Legal(s, run)
    decreases |run|
  {
    run != [] ==> (run[0].RecordCall? ==> s.unsaved == []) && Serial(Apply(s, run[0]), run[1..])
  }

  /** Then a crash costs one call at most, besides an amount cut before its increment. */
  lemma {:induction false} SerialCallsLeaveOneUnsaved(s: State, run: seq<Action>)
    requires |s.unsaved| <= 1 && Legal(s, run) && Serial(s, run)
    ensures |Run(s, run).unsaved| <= 1
    decreases |run|
  {
    if run != [] {
      SerialCallsLeaveOneUnsaved(Apply(s, run[0]), run[1..]);
    }
  }

  // ------------------------------------------------------------------ the two reads of a snapshot

  /** What a document may become: of a later turn, or grown; once ended it stays so. */
  predicate DocGrew(d: TurnDoc, e: TurnDoc) {
    && e.turn == d.turn && e.begun >= d.begun
    && (e.begun == d.begun ==> e.cost >= d.cost && (e.status == Running ==> d.status == Running))
  }

  predicate Grew(s: State, t: State) {
    && s.lifetime <= t.lifetime && |s.docs| <= |t.docs|
    && forall i :: 0 <= i < |s.docs| ==> DocGrew(s.docs[i], t.docs[i])
  }

  lemma StepGrows(s: State, a: Action)
    requires Inv(s) && Enabled(s, a)
    ensures Grew(s, Apply(s, a))
  {
    if OwnWrite(a) {
      OwnWriteFacts(s, a);
    }
  }

  /** No run makes a total smaller, nor the cost of a turn's document while it is that turn's. */
  lemma {:induction false} RunGrows(s: State, run: seq<Action>)
    requires Inv(s) && Legal(s, run)
    ensures Grew(s, Run(s, run))
    decreases |run|
  {
    if run != [] {
      var u := Apply(s, run[0]);
      StepGrows(s, run[0]);
      StepKeepsInv(s, run[0]);
      RunGrows(u, run[1..]);
      var t := Run(u, run[1..]);
      forall i | 0 <= i < |s.docs| ensures DocGrew(s.docs[i], t.docs[i]) {
        assert DocGrew(s.docs[i], u.docs[i]) && DocGrew(u.docs[i], t.docs[i]);
      }
    }
  }

  /** The cost of the documents that were running and are so no longer, or are another turn's. */
  function EndedCost(docs: seq<TurnDoc>, after: seq<TurnDoc>): nat
    requires |docs| <= |after|
    decreases |docs|
  {
    if docs == [] then 0
    else
      var n := |docs| - 1;
      EndedCost(docs[..n], after[..n])
      + if after[n].status == Running && after[n].begun == docs[n].begun then 0 else RunningPart(docs[n])
  }

  lemma {:induction false} RunningCostOfPrefix(docs: seq<TurnDoc>, n: nat)
    requires n <= |docs|
    ensures RunningCost(docs[..n]) <= RunningCost(docs)
    decreases |docs|
  {
    if n < |docs| {
      RunningCostOfPrefix(docs[..|docs| - 1], n);
      assert docs[..|docs| - 1][..n] == docs[..n];
    } else {
      assert docs[..n] == docs;
    }
  }

  lemma {:induction false} RunningStaysOrEnded(docs: seq<TurnDoc>, after: seq<TurnDoc>)
    requires |docs| <= |after| && forall i :: 0 <= i < |docs| ==> DocGrew(docs[i], after[i])
    ensures RunningCost(docs) <= RunningCost(after) + EndedCost(docs, after)
    decreases |docs|
  {
    if docs != [] {
      var n := |docs| - 1;
      RunningStaysOrEnded(docs[..n], after[..n]);
      RunningCostOfPrefix(after, n + 1);
      assert after[..n + 1][..n] == after[..n];
      assert DocGrew(docs[n], after[n]);
    }
  }

  /**
   * `readMissionSnapshot` reads the lifetime totals and the running documents
   * separately. When the totals are read first, the sum never exceeds the spend: it
   * lies between the snapshot then, less the cost of documents that ended in
   * between, and the snapshot at the second read.
   */
  lemma TotalsReadFirst(s: State, run: seq<Action>)
    requires Reachable(s) && Legal(s, run)
    ensures var t := Run(s, run);
            var read := s.lifetime + RunningCost(t.docs);
            && |s.docs| <= |t.docs|
            && Snapshot(s) - EndedCost(s.docs, t.docs) <= read <= Snapshot(t) <= t.told
            && Snapshot(t) - read == t.lifetime - s.lifetime
  {
    ReachableKeepsInv(s);
    RunKeepsInv(s, run);
    RunGrows(s, run);
    RunningStaysOrEnded(s.docs, Run(s, run).docs);
  }

  /**
   * When the running documents are read first, the sum is at least the snapshot
   * then, and exceeds the one at the second read, hence the spend, by no more than
   * the cost of the documents that ended in between.
   */
  lemma TurnsReadFirst(s: State, run: seq<Action>)
    requires Reachable(s) && Legal(s, run)
    ensures var t := Run(s, run);
            var read := t.lifetime + RunningCost(s.docs);
            && |s.docs| <= |t.docs|
            && Snapshot(s) <= read <= Snapshot(t) + EndedCost(s.docs, t.docs)
            && read <= t.told + EndedCost(s.docs, t.docs)
  {
    ReachableKeepsInv(s);
    RunKeepsInv(s, run);
    RunGrows(s, run);
    RunningStaysOrEnded(s.docs, Run(s, run).docs);
  }

  // ------------------------------------------------------------------ when turns read first are too much

  /**
   * The turn in flight will cost this whichever way: its unwritten calls, or the
   * document its first write overwrites.
   */
  function AtStake(s: State): nat {
    var unsaved, overwritten := Sum(s.unsaved), Overwritten(s.docs, OwnDoc(s));
    if !InFlight(s.phase) then 0 else if unsaved < overwritten then unsaved else overwritten
  }

  lemma StakesAreMissed(s: State, a: Action)
    requires Inv(s) && Enabled(s, a)
    ensures Missed(Apply(s, a)) + AtStake(Apply(s, a)) >= Missed(s) + AtStake(s)
  {
    if a.RecordCall? {
      SumOfAppend(s.unsaved, a.c);
    } else if a.Claim? {
      ClaimKeepsStake(s, a.r, a.id);
    }
  }

  lemma ClaimKeepsStake(s: State, r: nat, id: nat)
    requires Inv(s) && Enabled(s, Claim(r, id))
    ensures AtStake(Claimed(s, r, id)) == AtStake(s)
  {
    var t := Claimed(s, r, id);
    if InFlight(s.phase) {
      assert Below(s.docs, s.reconcilers[r].stale, CurrentTurn(s));
      FindAfter(s.docs, t.docs, s.turn);
    }
  }

  lemma {:induction false} RunMissesStakes(s: State, run: seq<Action>)
    requires Inv(s) && Legal(s, run)
    ensures Inv(Run(s, run)) && Missed(Run(s, run)) + AtStake(Run(s, run)) >= Missed(s) + AtStake(s)
    decreases |run|
  {
    if run != [] {
      StakesAreMissed(s, run[0]);
      StepKeepsInv(s, run[0]);
      RunMissesStakes(Apply(s, run[0]), run[1..]);
    }
  }

  lemma StakesAreUnadded(s: State)
    requires Conserved(s)
    ensures s.told >= s.lifetime + Missed(s) + AtStake(s)
  {
  }

  /** A run leads from one state to the other, with no call told of. */
  ghost predicate Reaches(s: State, t: State) {
    Inv(t) && t.told == s.told && exists run :: Legal(s, run) && Run(s, run) == t
  }

  lemma Stays(s: State)
    requires Inv(s)
    ensures Reaches(s, s)
  {
    assert Legal(s, []) && Run(s, []) == s;
  }

  lemma Then(s: State, t: State, a: Action)
    requires Reaches(s, t) && Enabled(t, a) && !a.RecordCall? && !a.OutOfTurn?
    ensures Reaches(s, Apply(t, a))
  {
    var run :| Legal(s, run) && Run(s, run) == t;
    StepKeepsInv(t, a);
    OneStep(t, a);
    RunsCompose(s, run, [a]);
  }

  lemma {:induction false} SomebodyOwes(rs: seq<Reconciler>) returns (r: nat)
    requires Owed(rs) > 0
    ensures r < |rs| && rs[r].owed > 0
  {
    var n := |rs| - 1;
    if rs[n].owed > 0 {
      r := n;
    } else {
      r := SomebodyOwes(rs[..n]);
    }
  }

  /** Everything claimed is added. */
  lemma {:induction false} AllAdded(s: State, t: State) returns (u: State)
    requires Reaches(s, t)
    ensures Reaches(s, u) && Owed(u.reconcilers) == 0
    ensures u == t.(lifetime := u.lifetime, reconcilers := u.reconcilers)
    decreases Owed(t.reconcilers)
  {
    if Owed(t.reconcilers) == 0 {
      u := t;
    } else {
      var r := SomebodyOwes(t.reconcilers);
      OwedOfUpdate(t.reconcilers, r, t.reconcilers[r].(owed := 0));
      Then(s, t, AddClaimed(r));
      u := AllAdded(s, Apply(t, AddClaimed(r)));
    }
  }

  /** A turn whose final status is written goes to the lifetime total. */
  lemma EndingEnds(s: State, t: State) returns (u: State)
    requires Reaches(s, t) && !InFlight(t.phase)
    ensures Reaches(s, u) && u.phase.Idle? && u == t.(lifetime := u.lifetime, phase := Idle)
  {
    u := t;
    if u.phase.Ending? {
      Then(s, u, TakeCost);
      u := Apply(u, TakeCost);
    }
    if u.phase.Taken? {
      Then(s, u, AddToLifetime);
      u := Apply(u, AddToLifetime);
    }
    if u.phase.Added? {
      Then(s, u, Drop);
      u := Apply(u, Drop);
    }
  }

  /** The turn in flight comes to its end, by a crash if that costs less. */
  lemma TurnIsOver(s: State, t: State) returns (u: State)
    requires Reaches(s, t) && Owed(t.reconcilers) == 0
    ensures Reaches(s, u) && u.phase.Idle? && Owed(u.reconcilers) == 0
    ensures Missed(u) == Missed(t) + AtStake(t)
  {
    if t.phase.Begun? && Sum(t.unsaved) < Overwritten(t.docs, OwnDoc(t)) {
      Then(s, t, Crash);
      u := Apply(t, Crash);
    } else {
      u := TurnIsWritten(s, t);
      u := EndingEnds(s, u);
    }
  }

  lemma TurnIsWritten(s: State, t: State) returns (u: State)
    requires Reaches(s, t)
    ensures Reaches(s, u) && !InFlight(u.phase) && u.reconcilers == t.reconcilers
    ensures Missed(u) == Missed(t) + if InFlight(t.phase) then Overwritten(t.docs, OwnDoc(t)) else 0
  {
    u := t;
    if u.phase.Begun? {
      Then(s, u, WriteFresh);
      u := Apply(u, WriteFresh);
    }
    if u.phase.InTurn? {
      Then(s, u, WriteFinal);
      OverwritesNothing(u);
      u := Apply(u, WriteFinal);
    }
  }

  lemma OverwritesNothing(s: State)
    requires TurnOk(s) && s.phase.InTurn?
    ensures Overwritten(s.docs, OwnDoc(s)) == 0
  {
  }

  lemma {:induction false} SomethingRuns(docs: seq<TurnDoc>) returns (i: nat)
    requires RunningCost(docs) > 0
    ensures i < |docs| && docs[i].status == Running && docs[i].cost > 0
  {
    var n := |docs| - 1;
    if RunningPart(docs[n]) > 0 {
      i := n;
    } else {
      i := SomethingRuns(docs[..n]);
    }
  }

  /** This reconciliation has listed every running document that is left, and owes nothing. */
  predicate ListsAll(t: State, r: nat) {
    && r < |t.reconcilers| && t.reconcilers[r].owed == 0
    && forall i :: 0 <= i < |t.docs| && t.docs[i].status == Running ==> i in t.reconcilers[r].stale
  }

  lemma {:induction false} AllClaimed(s: State, t: State, r: nat) returns (u: State)
    requires Reaches(s, t) && t.phase.Begun? && t.unsaved == [] && Owed(t.reconcilers) == 0 && ListsAll(t, r)
    ensures Reaches(s, u) && RunningCost(u.docs) == 0 && Owed(u.reconcilers) == 0
    ensures u.phase.Begun? && u.unsaved == [] && Missed(u) == Missed(t)
    decreases RunningCost(t.docs)
  {
    if RunningCost(t.docs) == 0 {
      u := t;
    } else {
      var i := SomethingRuns(t.docs);
      var c := Apply(t, Claim(r, i));
      Then(s, t, Claim(r, i));
      Then(s, c, AddClaimed(r));
      ClaimedAndAdded(t, r, i);
      u := AllClaimed(s, Apply(c, AddClaimed(r)), r);
    }
  }

  lemma ClaimedAndAdded(t: State, r: nat, i: nat)
    requires ListsAll(t, r) && Owed(t.reconcilers) == 0
    requires i < |t.docs| && t.docs[i].status == Running && t.docs[i].cost > 0
    ensures Enabled(t, Claim(r, i)) && Enabled(Apply(t, Claim(r, i)), AddClaimed(r))
    ensures var u := Apply(Apply(t, Claim(r, i)), AddClaimed(r));
            && ListsAll(u, r) && Owed(u.reconcilers) == 0 && RunningCost(u.docs) < RunningCost(t.docs)
            && Missed(u) == Missed(t) && u.phase == t.phase && u.unsaved == t.unsaved
  {
    var c := Apply(t, Claim(r, i));
    RunningCostOfUpdate(t.docs, i, t.docs[i].(status := Ended));
    OwedOfUpdate(t.reconcilers, r, c.reconcilers[r]);
    OwedOfUpdate(c.reconcilers, r, c.reconcilers[r].(owed := 0));
  }

  /** A later turn, under a number of its own, lists all that is left. */
  lemma LaterTurnLists(s: State, t: State) returns (u: State, r: nat)
    requires Reaches(s, t) && t.phase.Idle? && Owed(t.reconcilers) == 0
    ensures Reaches(s, u) && u.phase.Begun? && u.unsaved == [] && Owed(u.reconcilers) == 0 && ListsAll(u, r)
    ensures Missed(u) == Missed(t)
  {
    var u1 := Apply(t, StoreMessage(t.nextTurn));
    Then(s, t, StoreMessage(t.nextTurn));
    var u2 := Apply(u1, BeginTurn);
    Then(s, u1, BeginTurn);
    Then(s, u2, ListStale);
    u, r := Apply(u2, ListStale), |t.reconcilers|;
    ListedAll(u2);
  }

  lemma ListedAll(t: State)
    requires t.phase.Begun? && Owed(t.reconcilers) == 0
    requires forall i :: 0 <= i < |t.docs| ==> t.docs[i].turn < t.turn
    ensures Owed(Apply(t, ListStale).reconcilers) == 0 && ListsAll(Apply(t, ListStale), |t.reconcilers|)
  {
    var listed := Reconciler(StaleIds(t.docs, t.turn), 0);
    var u := Apply(t, ListStale);
    OwedOfAppend(t.reconcilers, listed);
    assert u.docs == t.docs && u.reconcilers[|t.reconcilers|] == listed;
    forall i | 0 <= i < |u.docs| && u.docs[i].status == Running ensures i in listed.stale {
      assert t.docs[i].turn != t.turn;
    }
  }

  /** From everywhere all that is stored can still come into the lifetime total, but for what is missed or at stake. */
  lemma AllIsAdded(s: State) returns (u: State)
    requires Inv(s)
    ensures Reaches(s, u) && u.told == u.lifetime + Missed(s) + AtStake(s) && RunningCost(u.docs) == 0
  {
    Stays(s);
    var t := AllAdded(s, s);
    t := TurnIsOver(s, t);
    var r;
    t, r := LaterTurnLists(s, t);
    u := AllClaimed(s, t, r);
  }

  /**
   * When the running documents are read first, the sum can come out above all that
   * was spent by then, in some continuation, if and only if those documents hold more
   * than was missed before and is at stake in the turn in flight.
   */
  lemma TurnsReadFirstExceedExactly(s: State)
    requires Reachable(s)
    ensures (exists run :: Legal(s, run) && Run(s, run).lifetime + RunningCost(s.docs) > Run(s, run).told) <==>
              RunningCost(s.docs) > Missed(s) + AtStake(s)
  {
    ReachableKeepsInv(s);
    if run :| Legal(s, run) && Run(s, run).lifetime + RunningCost(s.docs) > Run(s, run).told {
      RunMissesStakes(s, run);
      StakesAreUnadded(Run(s, run));
    }
    if RunningCost(s.docs) > Missed(s) + AtStake(s) {
      var u := AllIsAdded(s);
      var run :| Legal(s, run) && Run(s, run) == u;
    }
  }

  /** A turn that ends between the two reads is counted twice, whatever it cost. */
  lemma ATurnCanBeReadTwice(init: State, c: nat) returns (before: seq<Action>, between: seq<Action>)
    requires Initial(init)
    ensures Legal(init, before) && CrashFree(before)
    ensures Legal(Run(init, before), between) && CrashFree(between)
    ensures var s, t := Run(init, before), Run(Run(init, before), between);
            t.lifetime + RunningCost(s.docs) == 2 * c && t.told == c
  {
    before := [BeginTurn, WriteFresh];
    FirstTurnBegins(init);
    Extended(init, before, RecordCall(c));
    before := before + [RecordCall(c)];
    Extended(init, before, Persist);
    before := before + [Persist];
    var s := Run(init, before);
    assert s.docs == [TurnDoc(init.nextTurn, init.begun + 1, Running, c)];
    RunningCostOfAppend([], s.docs[0]);
    assert [] + [s.docs[0]] == s.docs;
    between := TurnEnds(s);
  }

  /** The turn's cost goes to the lifetime total. */
  lemma TurnEnds(s: State) returns (run: seq<Action>)
    requires s.phase.InTurn?
    ensures Legal(s, run) && CrashFree(run)
    ensures Run(s, run).lifetime == s.lifetime + s.cost && Run(s, run).told == s.told
  {
    var s1 := Apply(s, WriteFinal);
    var s2 := Apply(s1, TakeCost);
    OneStep(s2, AddToLifetime);
    Preceded(s1, TakeCost, [AddToLifetime]);
    Preceded(s, WriteFinal, [TakeCost] + [AddToLifetime]);
    run := [WriteFinal] + ([TakeCost] + [AddToLifetime]);
  }
}
