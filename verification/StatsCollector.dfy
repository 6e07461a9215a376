/**
 * The collector's own code (agent-stats.ts): `startTurn` with its reconciliation,
 * `recordLlmCall` and `endTurn` as methods on its fields, every await letting
 * others do anything, shown to take steps of the accounting in `Spend`.
 */
module Collector {
  import opened Spend

  /** What others do while the collector waits, its own reconciliation excepted. */
  predicate Foreign(a: Action, own: nat) {
    match a
    case RecordCall(_) => true
    case Persist => true
    case OutOfTurn(_) => true
    case StoreMessage(_) => true
    case Claim(r, _) => r != own
    case AddClaimed(r) => r != own
    case ReconcilerDies(r) => r != own
    case _ => false
  }

  /** What others leave as it is. */
  ghost predicate LeftAlone(s: State, t: State, own: nat) {
    && t.phase == s.phase && t.turn == s.turn && t.begun == s.begun && t.cost >= s.cost && Grew(s, t)
    && |t.reconcilers| == |s.reconcilers|
    && (own < |s.reconcilers| ==> t.reconcilers[own] == s.reconcilers[own])
    && (forall i :: 0 <= i < |t.docs| && t.docs[i].turn != t.turn && t.docs[i].status == Running ==>
          i < |s.docs| && s.docs[i].status == Running)
  }

  lemma ForeignLeavesAlone(s: State, a: Action, own: nat)
    requires Inv(s) && Foreign(a, own) && Enabled(s, a)
    ensures LeftAlone(s, Apply(s, a), own)
  {
    StepGrows(s, a);
    if a.Persist? {
      OwnWriteFacts(s, a);
    }
  }

  lemma LeftAloneTwice(s: State, t: State, u: State, own: nat)
    requires LeftAlone(s, t, own) && LeftAlone(t, u, own)
    ensures LeftAlone(s, u, own)
  {
    forall i | 0 <= i < |s.docs| ensures DocGrew(s.docs[i], u.docs[i]) {
      assert DocGrew(s.docs[i], t.docs[i]) && DocGrew(t.docs[i], u.docs[i]);
    }
    forall i | 0 <= i < |u.docs| && u.docs[i].turn != u.turn && u.docs[i].status == Running
      ensures i < |s.docs| && s.docs[i].status == Running
    {
      assert i < |t.docs| && t.docs[i].status == Running && DocGrew(t.docs[i], u.docs[i]);
    }
  }

  /** The environment: what others do at the k-th await. */
  datatype World = World(others: nat -> seq<Action>)

  ghost predicate Quiet(world: World) {
    forall k :: world.others(k) == []
  }

  /** The documents that ran under another number than the turn's, and no longer do. */
  predicate OthersEnded(docs: seq<TurnDoc>, turn: nat) {
    forall i :: 0 <= i < |docs| && docs[i].status == Running ==> docs[i].turn == turn
  }

  class StatsCollector {
    const world: World
    /** The two collections, and the accumulator. */
    var lifetime: nat
    var docs: seq<TurnDoc>
    var hasTurn: bool
    var turn: nat
    var cost: nat
    /**
     * Where the code stands, who else reconciles, and what only records what happened; its
     * other parts are not used.
     */
    var record: State
    var awaits: nat

    function State(): State
      reads this
    {
      record.(lifetime := lifetime, docs := docs, turn := turn, cost := cost)
    }

    function Total(): nat
      reads this
    {
      Snapshot(State())
    }

    /** The fields are a state some run of the accounting reaches. */
    ghost predicate Valid()
      reads this
    {
      Reachable(State()) && hasTurn == !record.phase.Idle?
    }

    /** A daemon starts over what earlier ones left. */
    constructor (world: World, left: State)
      requires Reachable(left) && left.phase.Idle?
      ensures Valid() && State() == left && this.world == world && !hasTurn
    {
      this.world, record, awaits := world, left, 0;
      lifetime, docs, hasTurn, turn, cost := left.lifetime, left.docs, false, left.turn, left.cost;
    }

    /** The step just taken is one of the accounting's. */
    ghost method Took(before: State, a: Action)
      requires Reachable(before) && hasTurn == !record.phase.Idle?
      requires Enabled(before, a) && State() == Apply(before, a)
      ensures Valid()
    {
      OneStep(before, a);
    }

    method Foreigner(a: Action, ghost own: nat)
      requires Valid() && Foreign(a, own) && Enabled(State(), a)
      modifies this
      ensures Valid() && LeftAlone(old(State()), State(), own) && awaits == old(awaits)
    {
      ghost var before := State();
      ReachableKeepsInv(before);
      ForeignLeavesAlone(before, a, own);
      record := Apply(State(), a);
      lifetime, docs, turn, cost := record.lifetime, record.docs, record.turn, record.cost;
      Took(before, a);
    }

    /** Others go ahead; the reconciliation under way is nobody else's. */
    method Await(own: nat)
      requires Valid()
      modifies this
      ensures Valid() && LeftAlone(old(State()), State(), own)
      ensures Quiet(world) ==> State() == old(State())
    {
      var others := world.others(awaits);
      for k := 0 to |others|
        invariant Valid() && LeftAlone(old(State()), State(), own)
        invariant others == [] ==> State() == old(State())
      {
        if Foreign(others[k], own) && Enabled(State(), others[k]) {
          ghost var before := State();
          Foreigner(others[k], own);
          LeftAloneTwice(old(State()), before, State(), own);
        }
      }
      awaits := awaits + 1;
    }

    /** `persist`: the accumulator over its turn's document. */
    method UpsertTurn()
      modifies this`docs, this`record
      ensures State() == Persisted(old(State()))
    {
      var d := OwnDoc(State());
      record := record.(unsaved := [], hidden := record.hidden + Overwritten(docs, d));
      docs := Upsert(docs, d);
    }

    /**
     * `recordLlmCall`: the turn's document then holds the cost of its calls so far, however
     * late; within the turn the total the cap reads grows by the call's cost and by what
     * was not yet written.
     */
    method RecordLlmCall(c: nat)
      requires Valid()
      modifies this
      ensures Valid()
      ensures State() == if hasTurn then Persisted(Recorded(old(State()), c)) else Recorded(old(State()), c)
      ensures old(hasTurn) ==>
                && cost == old(cost) + c
                && TurnDoc(turn, record.begun, if InFlight(record.phase) then Running else Ended, cost) in docs
      ensures old(record.phase).InTurn? ==> Total() == old(Total() + Sum(record.unsaved)) + c
      ensures !old(hasTurn) ==> Total() == old(Total())
    {
      ghost var before := State();
      record := record.(told := record.told + c);
      if !hasTurn {
        record := record.(dropped := record.dropped + c);
        Took(before, RecordCall(c));
        return;
      }
      cost := cost + c;
      record := if InFlight(record.phase) then record.(unsaved := record.unsaved + [c])
                else if record.phase.Ending? then record else record.(late := record.late + c);
      Took(before, RecordCall(c));
      ghost var called := State();
      UpsertTurn();
      UpsertFacts(called.docs, OwnDoc(called));
      Took(called, Persist);
      if before.phase.InTurn? {
        ReachableKeepsInv(before);
        CallShows(before, c);
      }
    }

    /** A reconciliation stands before its next claim. */
    ghost predicate Reconciling(own: nat, left: set<nat>)
      reads this
    {
      && Valid() && record.phase.Begun? && Listed(State(), left)
      && own < |record.reconcilers| && record.reconcilers[own] == Reconciler(left, 0)
    }

    /** One document is claimed, if it still runs; nothing is added yet. */
    method ClaimOne(own: nat, left: set<nat>, id: nat) returns (claimed: nat)
      requires Reconciling(own, left) && id in left
      modifies this
      ensures Valid() && record.phase.Begun? && turn == old(turn) && record.begun == old(record.begun)
      ensures own < |record.reconcilers| && record.reconcilers[own] == Reconciler(left - {id}, claimed)
      ensures Listed(State(), left - {id}) && Grew(old(State()), State()) && cost == old(cost)
      ensures Total() + claimed == old(Total()) && record.hidden == old(record.hidden)
    {
      ghost var before := State();
      ReachableKeepsInv(before);
      assert Below(docs, record.reconcilers[own].stale, CurrentTurn(before));
      claimed := 0;
      if docs[id].status == Running {
        claimed := docs[id].cost;
        record := record.(credited := record.credited + multiset{docs[id].begun});
        docs := docs[id := docs[id].(status := Ended)];
      }
      record := record.(reconcilers := record.reconcilers[own := Reconciler(left - {id}, claimed)]);
      Took(before, Claim(own, id));
      ClaimShows(before, own, id);
    }

    /** The claimed cost is added to the lifetime total. */
    method AddLifetimeCost(own: nat, left: set<nat>, claimed: nat)
      requires Valid() && own < |record.reconcilers| && record.reconcilers[own] == Reconciler(left, claimed)
      modifies this
      ensures State() == Apply(old(State()), AddClaimed(own)) && Valid()
    {
      ghost var before := State();
      lifetime := lifetime + claimed;
      record := record.(reconcilers := record.reconcilers[own := Reconciler(left, 0)]);
      Took(before, AddClaimed(own));
    }

    method Reconcile(own: nat, left: set<nat>, id: nat)
      requires Reconciling(own, left) && id in left
      modifies this
      ensures Reconciling(own, left - {id})
      ensures turn == old(turn) && record.begun == old(record.begun) && Grew(old(State()), State())
      ensures Quiet(world) ==> Total() == old(Total()) && record.hidden == old(record.hidden) && cost == old(cost)
    {
      ghost var before := State();
      var claimed := ClaimOne(own, left, id);
      ghost var at := State();
      Await(own);
      GrewTwice(before, at, State());
      ListedAfter(at, State(), own, left - {id});
      if claimed > 0 {
        at := State();
        AddLifetimeCost(own, left - {id}, claimed);
        GrewTwice(before, at, State());
        at := State();
        Await(own);
        GrewTwice(before, at, State());
        ListedAfter(at, State(), own, left - {id});
      }
    }

    /**
     * `reconcileStaleTurns`: each running document of another turn is claimed on its own,
     * and then its cost is added.
     */
    method ReconcileStaleTurns()
      requires Valid() && record.phase.Begun?
      modifies this
      ensures Valid() && record.phase.Begun? && turn == old(turn) && record.begun == old(record.begun)
      ensures OthersEnded(docs, turn) && Grew(old(State()), State())
      ensures Quiet(world) ==> Total() == old(Total()) && record.hidden == old(record.hidden) && cost == old(cost)
    {
      ghost var before := State();
      var own, left := |record.reconcilers|, StaleIds(docs, turn);
      record := record.(reconcilers := record.reconcilers + [Reconciler(left, 0)]);
      Took(before, ListStale);
      ghost var at := State();
      Await(own);
      ListedAfter(at, State(), own, left);
      while left != {}
        invariant Reconciling(own, left) && turn == old(turn) && record.begun == old(record.begun)
        invariant Grew(before, State())
        invariant Quiet(world) ==> Total() == old(Total()) && record.hidden == old(record.hidden) && cost == old(cost)
        decreases left
      {
        var id :| id in left;
        at := State();
        Reconcile(own, left, id);
        GrewTwice(before, at, State());
        left := left - {id};
      }
    }

    /**
     * `startTurn`: no document of another turn is left running, the new turn's holds
     * what calls have come meanwhile, and with nobody else at work the total is what
     * it was, but for a document overwritten.
     */
    method StartTurn(newTurn: nat)
      requires Valid() && !hasTurn && newTurn == record.nextTurn
      modifies this
      ensures Valid() && record.phase.InTurn? && turn == newTurn && record.begun == old(record.begun) + 1
      ensures OthersEnded(docs, turn) && Grew(old(State()), State())
      ensures TurnDoc(turn, record.begun, Running, cost) in docs
      ensures Quiet(world) ==> Total() + record.hidden == old(Total() + record.hidden) && cost == 0
    {
      ghost var before := State();
      hasTurn, turn, cost := true, newTurn, 0;
      record := record.(phase := Begun, begun := record.begun + 1, unsaved := []);
      Took(before, BeginTurn);
      ghost var at := State();
      ReconcileStaleTurns();
      GrewTwice(before, at, State());
      at := State();
      ReachableKeepsInv(at);
      UpsertTurn();
      record := record.(phase := InTurn);
      Took(at, WriteFresh);
      FreshShows(at);
      GrewTwice(before, at, State());
    }

    /** `endTurn`, up to the status write. */
    method WriteStatus()
      requires Valid() && record.phase.InTurn?
      modifies this
      ensures Valid() && State() == Apply(old(State()), WriteFinal) && Grew(old(State()), State())
      ensures Total() + cost == old(Total() + Sum(record.unsaved)) && cost == old(cost)
    {
      ghost var before := State();
      ReachableKeepsInv(before);
      record := record.(phase := Ending, credited := record.credited + multiset{record.begun});
      UpsertTurn();
      Took(before, WriteFinal);
      FinalShows(before);
    }

    /** `endTurn`, from the reading of the cost to the increment. */
    method IncrementMission()
      requires Valid() && record.phase.Ending?
      modifies this
      ensures Valid() && record.phase.Added? && turn == old(turn) && record.begun == old(record.begun)
      ensures Grew(old(State()), State()) && lifetime >= old(lifetime + cost)
      ensures Quiet(world) ==> lifetime == old(lifetime + cost) && docs == old(docs)
    {
      ghost var before := State();
      var taken := cost;
      record := record.(phase := Taken(taken));
      Took(before, TakeCost);
      ghost var at := State();
      Await(|record.reconcilers|);
      GrewTwice(before, at, State());
      at := State();
      lifetime := lifetime + taken;
      record := record.(phase := Added);
      Took(at, AddToLifetime);
      GrewTwice(before, at, State());
    }

    /** `endTurn`, its last step: the turn's document is there, and has ended. */
    method DropTurn()
      requires Valid() && record.phase.Added?
      modifies this
      ensures Valid() && !hasTurn && State() == old(State()).(phase := Idle)
      ensures exists d :: d in docs && d.turn == old(turn) && d.begun == old(record.begun) && d.status == Ended
    {
      ghost var before := State();
      ReachableKeepsInv(before);
      assert docs[Find(docs, turn)] in docs;
      hasTurn := false;
      record := record.(phase := Idle);
      Took(before, Drop);
    }

    /**
     * `endTurn`: the turn's document ends, and the cost it had when the increment was
     * issued is added to the lifetime total; with nobody else at work that is the
     * turn's cost, and the total shows the calls not yet written as well.
     */
    method EndTurn()
      requires Valid() && (hasTurn ==> record.phase.InTurn?)
      modifies this
      ensures Valid() && !hasTurn && Grew(old(State()), State())
      ensures !old(hasTurn) ==> State() == old(State())
      ensures old(hasTurn) ==>
                && lifetime >= old(lifetime + cost)
                && exists d :: d in docs && d.turn == old(turn) && d.begun == old(record.begun) && d.status == Ended
      ensures old(hasTurn) && Quiet(world) ==>
                lifetime == old(lifetime + cost) && Total() == old(Total() + Sum(record.unsaved))
    {
      if !hasTurn {
        return;
      }
      ghost var before := State();
      WriteStatus();
      ghost var at := State();
      Await(|record.reconcilers|);
      GrewTwice(before, at, State());
      at := State();
      IncrementMission();
      GrewTwice(before, at, State());
      at := State();
      Await(|record.reconcilers|);
      GrewTwice(before, at, State());
      DropTurn();
    }

    /** `recordOutOfTurnCost`: the total grows by the cost at once. */
    method RecordOutOfTurnCost(c: nat)
      requires Valid()
      modifies this
      ensures Valid() && Total() == old(Total()) + c && lifetime == old(lifetime) + c && docs == old(docs)
    {
      ghost var before := State();
      lifetime := lifetime + c;
      record := record.(told := record.told + c);
      Took(before, OutOfTurn(c));
    }
  }

  lemma FreshIsThere(s: State)
    requires Inv(s) && s.phase.Begun?
    ensures var t := Apply(s, WriteFresh);
            && TurnDoc(s.turn, s.begun, Running, s.cost) in t.docs
            && (OthersEnded(s.docs, s.turn) ==> OthersEnded(t.docs, t.turn))
  {
    OwnWriteFacts(s, WriteFresh);
    assert Apply(s, WriteFresh).docs[Find(s.docs, s.turn)] == TurnDoc(s.turn, s.begun, Running, s.cost);
  }

  lemma FreshTotals(s: State)
    requires TurnOk(s) && s.phase.Begun? && s.cost == 0
    ensures var t := Apply(s, WriteFresh); Snapshot(t) + t.hidden == Snapshot(s) + s.hidden
  {
    OwnWriteFacts(s, WriteFresh);
  }

  lemma FreshShows(s: State)
    requires Inv(s) && s.phase.Begun?
    ensures var t := Apply(s, WriteFresh);
            && TurnDoc(s.turn, s.begun, Running, s.cost) in t.docs && Grew(s, t)
            && (OthersEnded(s.docs, s.turn) ==> OthersEnded(t.docs, t.turn))
            && (s.cost == 0 ==> Snapshot(t) + t.hidden == Snapshot(s) + s.hidden)
  {
    StepGrows(s, WriteFresh);
    FreshIsThere(s);
    if s.cost == 0 {
      FreshTotals(s);
    }
  }

  lemma FinalShows(s: State)
    requires Inv(s) && s.phase.InTurn?
    ensures var t := Apply(s, WriteFinal);
            Grew(s, t) && Snapshot(t) + s.cost == Snapshot(s) + Sum(s.unsaved)
  {
    OwnWriteFacts(s, WriteFinal);
    StepGrows(s, WriteFinal);
  }

  /** Whatever runs of other turns is still to be claimed. */
  predicate Listed(s: State, left: set<nat>) {
    forall i :: 0 <= i < |s.docs| && s.docs[i].status == Running && s.docs[i].turn != s.turn ==> i in left
  }

  lemma ListedAfter(s: State, t: State, own: nat, left: set<nat>)
    requires Listed(s, left) && LeftAlone(s, t, own)
    ensures Listed(t, left)
  {
    forall i | 0 <= i < |t.docs| && t.docs[i].status == Running && t.docs[i].turn != t.turn ensures i in left {
      assert i < |s.docs| && DocGrew(s.docs[i], t.docs[i]);
    }
  }

  lemma GrewTwice(s: State, t: State, u: State)
    requires Grew(s, t) && Grew(t, u)
    ensures Grew(s, u)
  {
    forall i | 0 <= i < |s.docs| ensures DocGrew(s.docs[i], u.docs[i]) {
      assert DocGrew(s.docs[i], t.docs[i]) && DocGrew(t.docs[i], u.docs[i]);
    }
  }

  lemma ClaimShows(s: State, r: nat, id: nat)
    requires Inv(s) && Enabled(s, Claim(r, id))
    ensures var t := Apply(s, Claim(r, id));
            && Grew(s, t) && Snapshot(t) + t.reconcilers[r].owed == Snapshot(s)
  {
    StepGrows(s, Claim(r, id));
    RunningCostOfUpdate(s.docs, id, s.docs[id].(status := Ended));
  }

  lemma CallShows(s: State, c: nat)
    requires Inv(s) && s.phase.InTurn?
    ensures Snapshot(Persisted(Recorded(s, c))) == Snapshot(s) + Sum(s.unsaved) + c
  {
    StepKeepsInv(s, RecordCall(c));
    StepKeepsInv(Recorded(s, c), Persist);
    OwnWriteFacts(Recorded(s, c), Persist);
  }
}
