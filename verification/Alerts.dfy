/**
 * When a resource reading alerts (resource-alert-state.ts): de-duplication by key,
 * with a hysteresis below each threshold and a repeat after a day, in a store that
 * may throw and then in the memory of the process.
 */
module Alerts {
  import opened Options

  datatype Level = Soft | Hard

  /** A threshold, or one no reading reaches. */
  datatype Bound = At(ratio: real) | Unreachable

  datatype Thresholds = Thresholds(soft: real, hard: Bound)

  datatype AlertState = AlertState(level: Level, lastAlertAt: int)

  const CLEAR_HYSTERESIS := 0.05

  const REPEAT_AFTER_MS := 24 * 3_600_000

  function Rank(l: Level): int {
    if l == Hard then 2 else 1
  }

  predicate Reaches(ratio: real, b: Bound) {
    b.At? && ratio >= b.ratio
  }

  /** Clearly below a bound, by the hysteresis. */
  predicate ClearOf(ratio: real, b: Bound) {
    b.Unreachable? || ratio < b.ratio - CLEAR_HYSTERESIS
  }

  function LevelFor(ratio: real, t: Thresholds): Option<Level> {
    if Reaches(ratio, t.hard) then Some(Hard) else if ratio >= t.soft then Some(Soft) else None
  }

  /** The reading is at this level: the highest whose threshold it reaches. */
  predicate IsAt(ratio: real, t: Thresholds, l: Level) {
    match l
    case Hard => t.hard.At? && ratio >= t.hard.ratio
    case Soft => ratio >= t.soft && !(t.hard.At? && ratio >= t.hard.ratio)
  }

  predicate IsBelow(ratio: real, t: Thresholds) {
    ratio < t.soft && !(t.hard.At? && ratio >= t.hard.ratio)
  }

  lemma LevelIs(ratio: real, t: Thresholds)
    ensures LevelFor(ratio, t).None? <==> IsBelow(ratio, t)
    ensures forall l :: LevelFor(ratio, t) == Some(l) <==> IsAt(ratio, t, l)
  {
  }

  datatype Decision = Decision(state: Option<AlertState>, alert: Option<Level>)

  /** `decide`. */
  function Decide(state: Option<AlertState>, ratio: real, t: Thresholds, now: int): Decision {
    var level := LevelFor(ratio, t);
    if level.None? then
      Decision(if state.Some? && ClearOf(ratio, At(t.soft)) then None else state, None)
    else if state.None? || Rank(level.value) > Rank(state.value.level) then
      Decision(Some(AlertState(level.value, now)), level)
    else
      var current := if Rank(level.value) < Rank(state.value.level) && ClearOf(ratio, t.hard)
        then state.value.(level := level.value) else state.value;
      if now - current.lastAlertAt >= REPEAT_AFTER_MS then Decision(Some(AlertState(level.value, now)), level)
      else Decision(Some(current), None)
  }

  // ------------------------------------------------------------------ a series of readings

  datatype Reading = Reading(ratio: real, at: int)

  /** The state after these readings. */
  function StateAfter(rs: seq<Reading>, t: Thresholds): Option<AlertState> {
    if rs == [] then None
    else
      var r := rs[|rs| - 1];
      Decide(StateAfter(rs[..|rs| - 1], t), r.ratio, t, r.at).state
  }

  /** What the i-th reading alerts. */
  function AlertAt(rs: seq<Reading>, t: Thresholds, i: nat): Option<Level>
    requires i < |rs|
  {
    Decide(StateAfter(rs[..i], t), rs[i].ratio, t, rs[i].at).alert
  }

  ghost predicate QuietBetween(rs: seq<Reading>, t: Thresholds, i: nat, j: nat) {
    forall k :: i < k < j && k < |rs| ==> AlertAt(rs, t, k) == None
  }

  /** A reading in between was below every threshold, and more than 0.05 below the soft one. */
  ghost predicate Cleared(rs: seq<Reading>, t: Thresholds, i: nat, j: nat) {
    exists k :: i < k < j && k < |rs| && IsBelow(rs[k].ratio, t) && rs[k].ratio < t.soft - 0.05
  }

  /** A reading in between was at the soft level, and more than 0.05 below the hard threshold. */
  ghost predicate LeftTheHardBand(rs: seq<Reading>, t: Thresholds, i: nat, j: nat) {
    exists k :: i < k < j && k < |rs| && IsAt(rs[k].ratio, t, Soft)
                && (t.hard.Unreachable? || rs[k].ratio < t.hard.ratio - 0.05)
  }

  lemma OneMore(rs: seq<Reading>, t: Thresholds, j: nat)
    requires j < |rs|
    ensures StateAfter(rs[..j + 1], t) == Decide(StateAfter(rs[..j], t), rs[j].ratio, t, rs[j].at).state
  {
    assert rs[..j + 1][..j] == rs[..j];
  }

  lemma ClearedGrows(rs: seq<Reading>, t: Thresholds, i: nat, j: nat)
    requires i + 1 < j <= |rs|
    ensures Cleared(rs, t, i, j) <==>
              Cleared(rs, t, i, j - 1) || (IsBelow(rs[j - 1].ratio, t) && rs[j - 1].ratio < t.soft - 0.05)
  {
  }

  lemma LeavingGrows(rs: seq<Reading>, t: Thresholds, i: nat, j: nat)
    requires i + 1 < j <= |rs|
    ensures LeftTheHardBand(rs, t, i, j) <==>
              || LeftTheHardBand(rs, t, i, j - 1)
              || (IsAt(rs[j - 1].ratio, t, Soft) && (t.hard.Unreachable? || rs[j - 1].ratio < t.hard.ratio - 0.05))
  {
  }

  /**
   * While no further alert is sent, the state is that of the last alert, at the soft
   * level since a reading left the hard band, and gone since one cleared it.
   */
  lemma {:induction false} StateSinceAlert(rs: seq<Reading>, t: Thresholds, i: nat, j: nat)
    requires i < j <= |rs| && AlertAt(rs, t, i).Some? && QuietBetween(rs, t, i, j)
    ensures StateAfter(rs[..j], t) ==
              if Cleared(rs, t, i, j) then None
              else Some(AlertState(if LeftTheHardBand(rs, t, i, j) then Soft else AlertAt(rs, t, i).value, rs[i].at))
    decreases j
  {
    OneMore(rs, t, j - 1);
    LevelIs(rs[j - 1].ratio, t);
    if j > i + 1 {
      StateSinceAlert(rs, t, i, j - 1);
      assert AlertAt(rs, t, j - 1) == None;
      ClearedGrows(rs, t, i, j);
      LeavingGrows(rs, t, i, j);
    }
  }

  /**
   * When an alert follows an alert: exactly if the reading reaches a threshold, and a
   * day has passed, or the level was cleared in between, or the reading is at the hard
   * level and the alert before was not, or the hard band was left in between.
   */
  lemma AnAlertIsSentExactly(rs: seq<Reading>, t: Thresholds, i: nat, j: nat)
    requires i < j < |rs| && AlertAt(rs, t, i).Some? && QuietBetween(rs, t, i, j)
    ensures AlertAt(rs, t, j).Some? <==>
              && !IsBelow(rs[j].ratio, t)
              && (|| rs[j].at - rs[i].at >= 86_400_000
                  || Cleared(rs, t, i, j)
                  || (IsAt(rs[j].ratio, t, Hard)
                      && (AlertAt(rs, t, i) == Some(Soft) || LeftTheHardBand(rs, t, i, j))))
    ensures AlertAt(rs, t, j).Some? ==> IsAt(rs[j].ratio, t, AlertAt(rs, t, j).value)
  {
    StateSinceAlert(rs, t, i, j);
    LevelIs(rs[j].ratio, t);
  }

  /** The first alert is of the first reading that reaches a threshold. */
  lemma {:induction false} TheFirstAlert(rs: seq<Reading>, t: Thresholds, j: nat)
    requires j < |rs| && forall k :: 0 <= k < j ==> AlertAt(rs, t, k).None?
    ensures AlertAt(rs, t, j).Some? <==> !IsBelow(rs[j].ratio, t)
    ensures AlertAt(rs, t, j).Some? ==> IsAt(rs[j].ratio, t, AlertAt(rs, t, j).value)
    ensures StateAfter(rs[..j], t).None?
    decreases j
  {
    LevelIs(rs[j].ratio, t);
    if j > 0 {
      OneMore(rs, t, j - 1);
      TheFirstAlert(rs, t, j - 1);
    }
  }

  /**
   * Hence two consecutive alerts of one key are a day apart, or the second is of a
   * higher level, or the level was cleared in between, or the second is hard and the
   * hard band was left in between.
   */
  lemma AlertsAreSpaced(rs: seq<Reading>, t: Thresholds, i: nat, j: nat)
    requires i < j < |rs| && AlertAt(rs, t, i).Some? && AlertAt(rs, t, j).Some? && QuietBetween(rs, t, i, j)
    ensures var first, second := AlertAt(rs, t, i).value, AlertAt(rs, t, j).value;
            || rs[j].at - rs[i].at >= 86_400_000
            || (second == Hard && first == Soft)
            || Cleared(rs, t, i, j)
            || (second == Hard && LeftTheHardBand(rs, t, i, j))
  {
    AnAlertIsSentExactly(rs, t, i, j);
    LevelIs(rs[j].ratio, t);
  }

  /** The state's alert was sent by an earlier reading, of the remembered level at least. */
  lemma {:induction false} StateComesFromAnAlert(rs: seq<Reading>, t: Thresholds, j: nat) returns (i: nat)
    requires j <= |rs| && StateAfter(rs[..j], t).Some?
    ensures i < j && AlertAt(rs, t, i).Some?
    ensures var s := StateAfter(rs[..j], t).value;
            s.lastAlertAt == rs[i].at && Rank(AlertAt(rs, t, i).value) >= Rank(s.level)
    decreases j
  {
    OneMore(rs, t, j - 1);
    if AlertAt(rs, t, j - 1).Some? {
      i := j - 1;
    } else {
      i := StateComesFromAnAlert(rs, t, j - 1);
    }
  }

  /**
   * Nothing goes unreported: a reading above a threshold alerts, or an alert of
   * that level or a higher one was sent less than a day before, by a reading that
   * was itself at the level alerted.
   */
  lemma NoReadingGoesUnreported(rs: seq<Reading>, t: Thresholds, j: nat) returns (i: nat)
    requires j < |rs| && !IsBelow(rs[j].ratio, t)
    ensures i <= j && AlertAt(rs, t, i).Some?
    ensures IsAt(rs[i].ratio, t, AlertAt(rs, t, i).value)
    ensures IsAt(rs[j].ratio, t, Hard) ==> AlertAt(rs, t, i) == Some(Hard)
    ensures rs[j].at - rs[i].at < 86_400_000
  {
    LevelIs(rs[j].ratio, t);
    if AlertAt(rs, t, j).Some? {
      i := j;
    } else {
      i := StateComesFromAnAlert(rs, t, j);
    }
    LevelIs(rs[i].ratio, t);
  }

  // ------------------------------------------------------------------ a store that fails

  /** A reading, and where the state store throws: never, on the read, or once so many writes have landed. */
  datatype Event = Tick(reading: Reading, throwsAfter: Option<nat>) | Restart

  /** One key's state in the store, and in the memory of the process, which a restart forgets. */
  datatype Stores = Stores(kept: Option<AlertState>, memory: Option<AlertState>)

  /** What `decide` writes, one after another; none stands for a clear. */
  function Writes(state: Option<AlertState>, r: Reading, t: Thresholds): (ws: seq<Option<AlertState>>)
    ensures Decided(state, r, t).state == if ws == [] then state else ws[|ws| - 1]
  {
    var level := LevelFor(r.ratio, t);
    if level.None? then
      if state.Some? && ClearOf(r.ratio, At(t.soft)) then [None] else []
    else if state.None? || Rank(level.value) > Rank(state.value.level) then [Some(AlertState(level.value, r.at))]
    else
      var lowers := Rank(level.value) < Rank(state.value.level) && ClearOf(r.ratio, t.hard);
      (if lowers then [Some(state.value.(level := level.value))] else [])
      + if r.at - state.value.lastAlertAt >= REPEAT_AFTER_MS then [Some(AlertState(level.value, r.at))] else []
  }

  function Decided(state: Option<AlertState>, r: Reading, t: Thresholds): Decision {
    Decide(state, r.ratio, t, r.at)
  }

  predicate Throws(state: Option<AlertState>, r: Reading, t: Thresholds, after: Option<nat>) {
    after.Some? && after.value <= |Writes(state, r, t)|
  }

  /** What the store holds once `decide` has returned or thrown. */
  function Landed(state: Option<AlertState>, r: Reading, t: Thresholds, after: Option<nat>): Option<AlertState> {
    if !Throws(state, r, t, after) then Decided(state, r, t).state
    else if after.value == 0 then state
    else Writes(state, r, t)[after.value - 1]
  }

  datatype Evaluation = Evaluation(stores: Stores, alert: Option<Level>)

  /** `evaluateAlert`: when the store throws the same rules run on the memory. */
  function Evaluated(s: Stores, e: Event, t: Thresholds): Evaluation {
    match e
    case Restart => Evaluation(s.(memory := None), None)
    case Tick(r, after) =>
      var kept := Landed(s.kept, r, t, after);
      if Throws(s.kept, r, t, after) then
        var d := Decided(s.memory, r, t);
        Evaluation(Stores(kept, d.state), d.alert)
      else Evaluation(s.(kept := kept), Decided(s.kept, r, t).alert)
  }

  function StoresAfter(es: seq<Event>, t: Thresholds): Stores {
    if es == [] then Stores(None, None)
    else Evaluated(StoresAfter(es[..|es| - 1], t), es[|es| - 1], t).stores
  }

  /** What the i-th event alerts. */
  function Alerted(es: seq<Event>, t: Thresholds, i: nat): Option<Level>
    requires i < |es|
  {
    Evaluated(StoresAfter(es[..i], t), es[i], t).alert
  }

  /**
   * The store has taken down an alert that nobody was sent: the call threw behind that
   * write, and the memory kept quiet.
   */
  predicate Swallowed(es: seq<Event>, t: Thresholds, i: nat)
    requires i < |es|
  {
    && es[i].Tick? && Alerted(es, t, i).None?
    && var kept := StoresAfter(es[..i], t).kept;
       Decided(kept, es[i].reading, t).alert.Some?
       && es[i].throwsAfter == Some(|Writes(kept, es[i].reading, t)|)
  }

  ghost predicate NoneSwallowed(es: seq<Event>, t: Thresholds, n: nat)
    requires n <= |es|
  {
    forall k :: 0 <= k < n ==> !Swallowed(es, t, k)
  }

  /** This event alerted at least that level. */
  predicate AlertedAtLeast(es: seq<Event>, t: Thresholds, i: nat, level: Level) {
    i < |es| && es[i].Tick? && Alerted(es, t, i).Some? && Rank(Alerted(es, t, i).value) >= Rank(level)
  }

  lemma StoresStep(es: seq<Event>, t: Thresholds, j: nat)
    requires j < |es|
    ensures StoresAfter(es[..j + 1], t) == Evaluated(StoresAfter(es[..j], t), es[j], t).stores
  {
    assert es[..j + 1][..j] == es[..j];
  }

  /** What the memory remembers was sent. */
  lemma {:induction false} MemoryComesFromAnAlert(es: seq<Event>, t: Thresholds, j: nat) returns (i: nat)
    requires j <= |es| && StoresAfter(es[..j], t).memory.Some?
    ensures var m := StoresAfter(es[..j], t).memory.value;
            i < j && AlertedAtLeast(es, t, i, m.level) && es[i].reading.at == m.lastAlertAt
    decreases j
  {
    StoresStep(es, t, j - 1);
    var kept, e := StoresAfter(es[..j - 1], t).kept, es[j - 1];
    if Alerted(es, t, j - 1).Some? && Throws(kept, e.reading, t, e.throwsAfter) {
      i := j - 1;
    } else {
      i := MemoryComesFromAnAlert(es, t, j - 1);
    }
  }

  /** The store takes down an alert: the call returns it, or throws behind that write. */
  predicate TakesDownAnAlert(state: Option<AlertState>, r: Reading, t: Thresholds, after: Option<nat>) {
    && Decided(state, r, t).alert.Some?
    && (Throws(state, r, t, after) ==> after == Some(|Writes(state, r, t)|))
  }

  /** What one call leaves in the store: the alert it decided on, or what was there, perhaps at a lower level. */
  lemma WhatLands(state: Option<AlertState>, r: Reading, t: Thresholds, after: Option<nat>)
    requires Landed(state, r, t, after).Some?
    ensures var s := Landed(state, r, t, after).value;
            if TakesDownAnAlert(state, r, t, after) then
              LevelFor(r.ratio, t).Some? && s == AlertState(LevelFor(r.ratio, t).value, r.at)
            else
              state.Some? && s.lastAlertAt == state.value.lastAlertAt && Rank(s.level) <= Rank(state.value.level)
  {
  }

  /** The memory keeps quiet only about what it has alerted less than a day ago. */
  lemma QuietMemory(state: Option<AlertState>, r: Reading, t: Thresholds)
    requires LevelFor(r.ratio, t).Some? && Decided(state, r, t).alert.None?
    ensures state.Some? && Rank(state.value.level) >= Rank(LevelFor(r.ratio, t).value)
    ensures r.at - state.value.lastAlertAt < REPEAT_AFTER_MS
  {
  }

  /**
   * What the store remembers was sent less than a day before the time it remembers,
   * and at that very time unless an alert was swallowed.
   */
  lemma {:induction false} KeptComesFromAnAlert(es: seq<Event>, t: Thresholds, j: nat) returns (i: nat)
    requires j <= |es| && StoresAfter(es[..j], t).kept.Some?
    ensures var s := StoresAfter(es[..j], t).kept.value;
            && i < j && AlertedAtLeast(es, t, i, s.level) && s.lastAlertAt - es[i].reading.at < REPEAT_AFTER_MS
            && (NoneSwallowed(es, t, j) ==> es[i].reading.at == s.lastAlertAt)
    decreases j
  {
    StoresStep(es, t, j - 1);
    var before, e := StoresAfter(es[..j - 1], t), es[j - 1];
    if e.Restart? {
      i := KeptComesFromAnAlert(es, t, j - 1);
    } else {
      WhatLands(before.kept, e.reading, t, e.throwsAfter);
      if TakesDownAnAlert(before.kept, e.reading, t, e.throwsAfter) {
        i := TakenDownComesFromAnAlert(es, t, j - 1);
      } else {
        i := KeptComesFromAnAlert(es, t, j - 1);
      }
    }
  }

  lemma TakenDownComesFromAnAlert(es: seq<Event>, t: Thresholds, j: nat) returns (i: nat)
    requires j < |es| && es[j].Tick?
    requires TakesDownAnAlert(StoresAfter(es[..j], t).kept, es[j].reading, t, es[j].throwsAfter)
    ensures var r := es[j].reading;
            && LevelFor(r.ratio, t).Some? && i <= j && AlertedAtLeast(es, t, i, LevelFor(r.ratio, t).value)
            && r.at - es[i].reading.at < REPEAT_AFTER_MS
            && (NoneSwallowed(es, t, j + 1) ==> es[i].reading.at == r.at)
  {
    var before, r := StoresAfter(es[..j], t), es[j].reading;
    if Alerted(es, t, j).Some? {
      i := j;
    } else {
      QuietMemory(before.memory, r, t);
      i := MemoryComesFromAnAlert(es, t, j);
      assert Swallowed(es, t, j);
    }
  }

  /**
   * However the store fails and the daemon restarts: a reading above a threshold
   * alerts, or an alert of that level or a higher one was sent less than two days
   * before, and less than one if no alert was swallowed until then.
   */
  lemma NothingGoesUnreportedInAnOutage(es: seq<Event>, t: Thresholds, j: nat) returns (i: nat)
    requires j < |es| && es[j].Tick? && !IsBelow(es[j].reading.ratio, t)
    ensures i <= j && es[i].Tick? && Alerted(es, t, i).Some?
    ensures IsAt(es[j].reading.ratio, t, Hard) ==> Alerted(es, t, i) == Some(Hard)
    ensures es[j].reading.at - es[i].reading.at < 172_800_000
    ensures NoneSwallowed(es, t, j) ==> es[j].reading.at - es[i].reading.at < 86_400_000
  {
    LevelIs(es[j].reading.ratio, t);
    var s, r := StoresAfter(es[..j], t), es[j].reading;
    if Alerted(es, t, j).Some? {
      i := j;
    } else if Throws(s.kept, r, t, es[j].throwsAfter) {
      QuietMemory(s.memory, r, t);
      i := MemoryComesFromAnAlert(es, t, j);
    } else {
      QuietMemory(s.kept, r, t);
      i := KeptComesFromAnAlert(es, t, j);
    }
  }

  /** The same reading some time later, with the store answering. */
  function Again(es: seq<Event>, later: nat): seq<Event>
    requires es != [] && es[|es| - 1].Tick?
  {
    var r := es[|es| - 1].reading;
    es + [Tick(r.(at := r.at + later), None)]
  }

  lemma AfterASwallowedAlert(es: seq<Event>, t: Thresholds, later: nat)
    requires es != [] && Swallowed(es, t, |es| - 1) && later < REPEAT_AFTER_MS
    ensures Alerted(Again(es, later), t, |es|) == None
  {
    var n, r := |es| - 1, es[|es| - 1].reading;
    assert es[..n + 1] == es && Again(es, later)[..|es|] == es;
    StoresStep(es, t, n);
    WhatLands(StoresAfter(es[..n], t).kept, r, t, es[n].throwsAfter);
    assert StoresAfter(es, t).kept == Some(AlertState(LevelFor(r.ratio, t).value, r.at));
  }

  /**
   * A swallowed alert lets the same reading stay silent a day or longer after the
   * last alert that was sent, if and only if that one was sent before it.
   */
  lemma ASwallowedAlertSilencesExactly(es: seq<Event>, t: Thresholds)
    requires es != [] && Swallowed(es, t, |es| - 1)
    ensures StoresAfter(es[..|es| - 1], t).memory.Some?
    ensures var last, at := StoresAfter(es[..|es| - 1], t).memory.value.lastAlertAt, es[|es| - 1].reading.at;
            (exists later: nat :: later < 86_400_000 && at + later - last >= 86_400_000
                                  && Alerted(Again(es, later), t, |es|) == None) <==> last < at
  {
    var before, r := StoresAfter(es[..|es| - 1], t), es[|es| - 1].reading;
    QuietMemory(before.memory, r, t);
    AfterASwallowedAlert(es, t, REPEAT_AFTER_MS - 1);
  }

  /** Three readings alike: the store throws on the first, and behind its write on the second. */
  function SwallowedOnce(ratio: real, at: int, d1: nat, d2: nat): seq<Event> {
    [Tick(Reading(ratio, at), Some(0)),
     Tick(Reading(ratio, at + d1), Some(1)),
     Tick(Reading(ratio, at + d1 + d2), None)]
  }

  /**
   * The two days are met: for every reading above a threshold, and any two stretches
   * of less than a day, an alert, then one swallowed, then silence.
   */
  lemma ASwallowedAlertDoublesTheSilence(ratio: real, t: Thresholds, at: int, d1: nat, d2: nat)
    requires !IsBelow(ratio, t) && d1 < 86_400_000 && d2 < 86_400_000
    ensures var es := SwallowedOnce(ratio, at, d1, d2);
            && Alerted(es, t, 0).Some? && IsAt(ratio, t, Alerted(es, t, 0).value) && Swallowed(es, t, 1)
            && Alerted(es, t, 1) == None && Alerted(es, t, 2) == None
  {
    var es := SwallowedOnce(ratio, at, d1, d2);
    LevelIs(ratio, t);
    var level := LevelFor(ratio, t).value;
    assert es[..0] == [];
    StoresStep(es, t, 0);
    assert StoresAfter(es[..1], t) == Stores(None, Some(AlertState(level, at)));
    StoresStep(es, t, 1);
    assert StoresAfter(es[..2], t).kept == Some(AlertState(level, at + d1));
  }

  /** The readings since the last restart on which the store threw. */
  function Outage(es: seq<Event>, t: Thresholds): seq<Reading> {
    if es == [] then []
    else
      var front, e := es[..|es| - 1], es[|es| - 1];
      if e.Restart? then []
      else
        var thrown := Throws(StoresAfter(front, t).kept, e.reading, t, e.throwsAfter);
        Outage(front, t) + if thrown then [e.reading] else []
  }

  lemma {:induction false} MemoryFollowsTheOutage(es: seq<Event>, t: Thresholds)
    ensures StoresAfter(es, t).memory == StateAfter(Outage(es, t), t)
    decreases |es|
  {
    if es != [] {
      var front, e := es[..|es| - 1], es[|es| - 1];
      MemoryFollowsTheOutage(front, t);
      if e.Tick? {
        assert Outage(front, t) + [] == Outage(front, t);
        assert (Outage(front, t) + [e.reading])[..|Outage(front, t)|] == Outage(front, t);
      }
    }
  }

  /**
   * While the store throws, what is alerted is what the readings of the outage alert
   * by themselves, so those alerts are spaced as `AlertsAreSpaced` says.
   */
  lemma AnOutageAlertsAsASeries(es: seq<Event>, t: Thresholds, j: nat)
    requires j < |es| && es[j].Tick?
    requires Throws(StoresAfter(es[..j], t).kept, es[j].reading, t, es[j].throwsAfter)
    ensures var rs := Outage(es[..j + 1], t);
            rs == Outage(es[..j], t) + [es[j].reading] && Alerted(es, t, j) == AlertAt(rs, t, |rs| - 1)
  {
    var before := Outage(es[..j], t);
    assert es[..j + 1][..j] == es[..j];
    MemoryFollowsTheOutage(es[..j], t);
    assert (before + [es[j].reading])[..|before|] == before;
  }

  // ------------------------------------------------------------------ the stores

  datatype Tried = Done(alert: Option<Level>) | Threw

  class AlertStateStore {
    var states: map<string, AlertState>
    /** How many more writes land before a call throws, if it does. */
    var throwsAfter: Option<nat>

    function Get(key: string): Option<AlertState>
      reads this
    {
      if key in states then Some(states[key]) else None
    }

    /** A put, or a clear. */
    method Write(key: string, state: Option<AlertState>) returns (throws: bool)
      requires throwsAfter != Some(0)
      modifies this
      ensures Get(key) == state && forall k :: k != key ==> Get(k) == old(Get(k))
      ensures throws <==> old(throwsAfter) == Some(1)
      ensures throwsAfter == if old(throwsAfter).Some? then Some(old(throwsAfter).value - 1) else None
    {
      states := if state.Some? then states[key := state.value] else states - {key};
      if throwsAfter.Some? {
        throwsAfter := Some(throwsAfter.value - 1);
      }
      throws := throwsAfter == Some(0);
    }

    /** `decide`: it returns or throws with exactly the writes landed that come before. */
    method DecideOn(key: string, r: Reading, t: Thresholds) returns (tried: Tried)
      modifies this
      ensures tried == if Throws(old(Get(key)), r, t, old(throwsAfter)) then Threw
                       else Done(Decided(old(Get(key)), r, t).alert)
      ensures Get(key) == Landed(old(Get(key)), r, t, old(throwsAfter))
      ensures forall k :: k != key ==> Get(k) == old(Get(k))
      ensures old(throwsAfter).None? ==> throwsAfter.None?
    {
      if throwsAfter == Some(0) {
        return Threw;
      }
      var level := LevelFor(r.ratio, t);
      var state := Get(key);
      var throws := false;
      if level.None? {
        if state.Some? && r.ratio < t.soft - CLEAR_HYSTERESIS {
          throws := Write(key, None);
        }
        return if throws then Threw else Done(None);
      }
      if state.None? || Rank(level.value) > Rank(state.value.level) {
        throws := Write(key, Some(AlertState(level.value, r.at)));
        return if throws then Threw else Done(level);
      }
      var current := state.value;
      if Rank(level.value) < Rank(current.level) && ClearOf(r.ratio, t.hard) {
        current := current.(level := level.value);
        throws := Write(key, Some(current));
        if throws {
          return Threw;
        }
      }
      if r.at - current.lastAlertAt >= REPEAT_AFTER_MS {
        throws := Write(key, Some(AlertState(level.value, r.at)));
        return if throws then Threw else Done(level);
      }
      return Done(None);
    }
  }

  /** What the two stores hold of a key. */
  function StoresOf(store: AlertStateStore, fallbackStore: AlertStateStore, key: string): Stores
    reads store, fallbackStore
  {
    Stores(store.Get(key), fallbackStore.Get(key))
  }

  /** `evaluateAlert`: the key's stores and the alert are as the model says, other keys are untouched. */
  method EvaluateAlert(store: AlertStateStore, fallbackStore: AlertStateStore, key: string, r: Reading, t: Thresholds)
    returns (alert: Option<Level>)
    requires store != fallbackStore && fallbackStore.throwsAfter.None?
    modifies store, fallbackStore
    ensures Evaluation(StoresOf(store, fallbackStore, key), alert) ==
              Evaluated(old(StoresOf(store, fallbackStore, key)), Tick(r, old(store.throwsAfter)), t)
    ensures forall k :: k != key ==> StoresOf(store, fallbackStore, k) == old(StoresOf(store, fallbackStore, k))
    ensures fallbackStore.throwsAfter.None?
  {
    var tried := store.DecideOn(key, r, t);
    if tried.Threw? {
      tried := fallbackStore.DecideOn(key, r, t);
    }
    alert := tried.alert;
  }
}
