/**
 * The soft-anomaly digest (anomaly-digest.ts): anomalies are buffered by kind and
 * sent as one message per period.
 */
module AnomalyDigest {
  datatype Key = Key(name: string)

  datatype Group = Group(count: nat, firstAt: int, lastAt: int, latest: string)

  datatype Digest = Digest(at: int, groups: map<Key, Group>)

  datatype Timer = Off | Due(at: int)

  datatype Addition = Addition(key: Key, message: string, at: int)

  /** `added` and `sent` record what was added and flushed. */
  datatype State = State(
    groups: map<Key, Group>,
    timer: Timer,
    lastSentAt: int,
    now: int,
    added: seq<Addition>,
    sent: seq<Digest>)

  datatype Action =
    | Add(key: Key, message: string)
    /** The timer fires, not before it is due. */
    | Fire
    | Tick(ms: nat)

  function Max(a: int, b: int): int {
    if a > b then a else b
  }

  function Grouped(groups: map<Key, Group>, key: Key, message: string, t: int): map<Key, Group> {
    if key in groups then
      groups[key := groups[key].(count := groups[key].count + 1, lastAt := t, latest := message)]
    else groups[key := Group(1, t, t, message)]
  }

  predicate Enabled(s: State, a: Action) {
    a.Fire? ==> s.timer.Due? && s.now >= s.timer.at
  }

  function Apply(s: State, a: Action, period: nat): State
    requires Enabled(s, a)
  {
    match a
    case Add(key, message) =>
      s.(groups := Grouped(s.groups, key, message, s.now),
         timer := if s.timer.Due? then s.timer else Due(s.now + Max(0, s.lastSentAt + period - s.now)),
         added := s.added + [Addition(key, message, s.now)])
    case Fire =>
      var t := s.(timer := Off, lastSentAt := s.now);
      if s.groups == map[] then t else t.(groups := map[], sent := s.sent + [Digest(s.now, s.groups)])
    case Tick(ms) => s.(now := s.now + ms)
  }

  function Initial(now: int): State {
    State(map[], Off, now, now, [], [])
  }

  ghost predicate Reachable(s: State, actions: seq<Action>, period: nat, start: int)
    decreases |actions|
  {
    if actions == [] then s == Initial(start)
    else
      var a := actions[|actions| - 1];
      exists r :: Reachable(r, actions[..|actions| - 1], period, start) && Enabled(r, a) && s == Apply(r, a, period)
  }

  // ------------------------------------------------------------------ counts

  function Occurrences(keys: seq<Key>, key: Key): nat {
    if keys == [] then 0 else Occurrences(keys[..|keys| - 1], key) + if keys[|keys| - 1] == key then 1 else 0
  }

  function AddedOf(added: seq<Addition>, key: Key): nat {
    if added == [] then 0 else AddedOf(added[..|added| - 1], key) + if added[|added| - 1].key == key then 1 else 0
  }

  function CountIn(groups: map<Key, Group>, key: Key): nat {
    if key in groups then groups[key].count else 0
  }

  function Flushed(sent: seq<Digest>, key: Key): nat {
    if sent == [] then 0 else Flushed(sent[..|sent| - 1], key) + CountIn(sent[|sent| - 1].groups, key)
  }

  ghost predicate Conserved(s: State) {
    forall key :: AddedOf(s.added, key) == Flushed(s.sent, key) + CountIn(s.groups, key)
  }

  /**
   * The timer is armed while something is buffered: for a period after the last digest,
   * or for at once if that had passed when the first of it came.
   */
  ghost predicate TimerOk(s: State, period: nat) {
    && (s.groups != map[] <==> s.timer.Due?)
    && (s.timer.Due? ==>
          || s.timer.at == s.lastSentAt + period
          || (s.timer.at > s.lastSentAt + period
              && exists key :: key in s.groups && s.groups[key].firstAt == s.timer.at))
    && s.lastSentAt <= s.now
  }

  /**
   * A group is the additions of its kind from one of them on: how many, when the first
   * and the last of them came, and the last one's message.
   */
  ghost predicate Tells(added: seq<Addition>, key: Key, g: Group, first: nat, last: nat) {
    && first <= last < |added| && added[first].key == key && added[first].at == g.firstAt
    && added[last] == Addition(key, g.latest, g.lastAt)
    && AddedOf(added[first..], key) == g.count && AddedOf(added[last..], key) == 1
  }

  ghost predicate TellsOf(added: seq<Addition>, key: Key, g: Group) {
    exists first, last :: Tells(added, key, g, first, last)
  }

  ghost predicate AllTell(added: seq<Addition>, groups: map<Key, Group>) {
    forall key :: key in groups ==> TellsOf(added, key, groups[key])
  }

  /** The digest tells of what had been added when it was sent. */
  ghost predicate DigestTells(added: seq<Addition>, d: Digest) {
    exists n :: 0 <= n <= |added| && AllTell(added[..n], d.groups)
  }

  ghost predicate GroupsOk(s: State) {
    AllTell(s.added, s.groups) && forall i :: 0 <= i < |s.sent| ==> DigestTells(s.added, s.sent[i])
  }

  lemma TellsThen(added: seq<Addition>, key: Key, g: Group, x: Addition)
    requires TellsOf(added, key, g)
    ensures TellsOf(added + [x], key, if x.key == key then Group(g.count + 1, g.firstAt, x.at, x.message) else g)
  {
    var first, last :| Tells(added, key, g, first, last);
    var more := added + [x];
    CountSuffix(added, first, x, key);
    CountSuffix(added, last, x, key);
    CountSuffix(added, |added|, x, key);
    if x.key == key {
      assert Tells(more, key, Group(g.count + 1, g.firstAt, x.at, x.message), first, |added|);
    } else {
      assert Tells(more, key, g, first, last);
    }
  }

  lemma CountSuffix(added: seq<Addition>, i: nat, x: Addition, key: Key)
    requires i <= |added|
    ensures AddedOf((added + [x])[i..], key) == AddedOf(added[i..], key) + if x.key == key then 1 else 0
  {
    assert (added + [x])[i..] == added[i..] + [x];
    assert (added[i..] + [x])[..|added| - i] == added[i..];
  }

  lemma NewTells(added: seq<Addition>, x: Addition)
    ensures TellsOf(added + [x], x.key, Group(1, x.at, x.at, x.message))
  {
    CountSuffix(added, |added|, x, x.key);
    assert Tells(added + [x], x.key, Group(1, x.at, x.at, x.message), |added|, |added|);
  }

  lemma DigestTellsThen(added: seq<Addition>, d: Digest, x: Addition)
    requires DigestTells(added, d)
    ensures DigestTells(added + [x], d)
  {
    var n :| 0 <= n <= |added| && AllTell(added[..n], d.groups);
    assert (added + [x])[..n] == added[..n];
  }

  lemma AddKeepsGroup(groups: map<Key, Group>, added: seq<Addition>, x: Addition, key: Key)
    requires AllTell(added, groups) && key in Grouped(groups, x.key, x.message, x.at)
    ensures TellsOf(added + [x], key, Grouped(groups, x.key, x.message, x.at)[key])
  {
    if key in groups {
      TellsThen(added, key, groups[key], x);
    } else {
      NewTells(added, x);
    }
  }

  lemma AddKeepsGroups(s: State, a: Action, period: nat)
    requires GroupsOk(s) && a.Add?
    ensures GroupsOk(Apply(s, a, period))
  {
    var t, x := Apply(s, a, period), Addition(a.key, a.message, s.now);
    forall key | key in t.groups ensures TellsOf(t.added, key, t.groups[key]) {
      AddKeepsGroup(s.groups, s.added, x, key);
    }
    forall i | 0 <= i < |t.sent| ensures DigestTells(t.added, t.sent[i]) {
      DigestTellsThen(s.added, s.sent[i], x);
    }
  }

  lemma FireKeepsGroups(s: State, period: nat)
    requires GroupsOk(s) && Enabled(s, Fire)
    ensures GroupsOk(Apply(s, Fire, period))
  {
    assert s.added[..|s.added|] == s.added;
    assert DigestTells(s.added, Digest(s.now, s.groups));
  }

  /** Digests are not empty and a period apart, the first a period after the start. */
  ghost predicate SentOk(s: State, period: nat, start: int) {
    && (forall i :: 0 <= i < |s.sent| ==> s.sent[i].groups != map[])
    && (forall i :: 0 < i < |s.sent| ==> s.sent[i].at - s.sent[i - 1].at >= period)
    && (s.sent != [] ==> s.sent[0].at >= start + period && s.lastSentAt == s.sent[|s.sent| - 1].at)
    && (s.sent == [] ==> s.lastSentAt == start)
  }

  lemma AddConserves(s: State, a: Action, period: nat, key: Key)
    requires Conserved(s) && a.Add?
    ensures var t := Apply(s, a, period);
            AddedOf(t.added, key) == Flushed(t.sent, key) + CountIn(t.groups, key)
  {
    var added := s.added + [Addition(a.key, a.message, s.now)];
    assert added[..|added| - 1] == s.added;
    assert AddedOf(s.added, key) == Flushed(s.sent, key) + CountIn(s.groups, key);
  }

  lemma FireConserves(s: State, period: nat, key: Key)
    requires Conserved(s) && Enabled(s, Fire)
    ensures var t := Apply(s, Fire, period);
            AddedOf(t.added, key) == Flushed(t.sent, key) + CountIn(t.groups, key)
  {
    assert AddedOf(s.added, key) == Flushed(s.sent, key) + CountIn(s.groups, key);
    if s.groups != map[] {
      var sent := s.sent + [Digest(s.now, s.groups)];
      assert sent[..|sent| - 1] == s.sent;
    }
  }

  lemma AddKeepsTimer(s: State, a: Action, period: nat)
    requires TimerOk(s, period) && a.Add?
    ensures TimerOk(Apply(s, a, period), period)
  {
    var t := Apply(s, a, period);
    assert a.key in t.groups;
    if s.timer.Due? && s.timer.at != s.lastSentAt + period {
      var key :| key in s.groups && s.groups[key].firstAt == s.timer.at;
      assert key in t.groups && t.groups[key].firstAt == t.timer.at;
    }
  }

  lemma StepKeepsAll(s: State, a: Action, period: nat, start: int)
    requires Enabled(s, a) && Conserved(s) && TimerOk(s, period) && SentOk(s, period, start)
    ensures Conserved(Apply(s, a, period)) && TimerOk(Apply(s, a, period), period)
    ensures SentOk(Apply(s, a, period), period, start)
  {
    var t := Apply(s, a, period);
    match a {
      case Add(key, _) =>
        assert key in t.groups;
        AddKeepsTimer(s, a, period);
        forall k ensures AddedOf(t.added, k) == Flushed(t.sent, k) + CountIn(t.groups, k) {
          AddConserves(s, a, period, k);
        }
      case Fire =>
        forall k ensures AddedOf(t.added, k) == Flushed(t.sent, k) + CountIn(t.groups, k) {
          FireConserves(s, period, k);
        }
      case Tick(_) =>
    }
  }

  lemma StepKeepsGroups(s: State, a: Action, period: nat)
    requires GroupsOk(s) && Enabled(s, a)
    ensures GroupsOk(Apply(s, a, period))
  {
    match a {
      case Add(_, _) => AddKeepsGroups(s, a, period);
      case Fire => FireKeepsGroups(s, period);
      case Tick(_) =>
    }
  }

  lemma {:induction false} ReachableIsSound(s: State, actions: seq<Action>, period: nat, start: int)
    requires Reachable(s, actions, period, start)
    ensures Conserved(s) && TimerOk(s, period) && SentOk(s, period, start) && GroupsOk(s)
    decreases |actions|
  {
    if actions != [] {
      var a := actions[|actions| - 1];
      var r :| Reachable(r, actions[..|actions| - 1], period, start) && Enabled(r, a) && s == Apply(r, a, period);
      ReachableIsSound(r, actions[..|actions| - 1], period, start);
      StepKeepsAll(r, a, period, start);
      StepKeepsGroups(r, a, period);
    }
  }

  /**
   * Every anomaly added, of every kind, is counted in one flushed digest or is still
   * buffered, and then a timer is armed.
   */
  lemma EveryAnomalyIsCountedOnce(s: State, actions: seq<Action>, period: nat, start: int, key: Key)
    requires Reachable(s, actions, period, start)
    ensures AddedOf(s.added, key) == Flushed(s.sent, key) + CountIn(s.groups, key)
    ensures s.groups != map[] <==> s.timer.Due?
  {
    ReachableIsSound(s, actions, period, start);
  }

  /**
   * Every group that is buffered or was sent tells of a run of additions of its kind,
   * up to the last: how many, when the first and the last came, and the last message.
   * A digest is due a period after the last one, or when the first addition came
   * later than that.
   */
  lemma GroupsTellWhatWasAdded(s: State, actions: seq<Action>, period: nat, start: int)
    requires Reachable(s, actions, period, start)
    ensures AllTell(s.added, s.groups) && forall i :: 0 <= i < |s.sent| ==> DigestTells(s.added, s.sent[i])
    ensures s.timer.Due? && s.timer.at != s.lastSentAt + period ==>
              && s.timer.at > s.lastSentAt + period
              && exists key :: key in s.groups && s.groups[key].firstAt == s.timer.at
  {
    ReachableIsSound(s, actions, period, start);
  }

  /** A digest goes out exactly when something is buffered and it is due. */
  lemma ADigestIsSentExactly(s: State, actions: seq<Action>, period: nat, start: int)
    requires Reachable(s, actions, period, start)
    ensures Enabled(s, Fire) <==> s.groups != map[] && s.timer.Due? && s.now >= s.timer.at
    ensures Enabled(s, Fire) ==> Apply(s, Fire, period).sent == s.sent + [Digest(s.now, s.groups)]
  {
    EveryAnomalyIsCountedOnce(s, actions, period, start, Key(""));
  }

  lemma {:induction false} Apart(s: State, period: nat, start: int, i: nat, j: nat)
    requires SentOk(s, period, start) && i < j < |s.sent|
    ensures s.sent[j].at - s.sent[i].at >= period
    decreases j
  {
    if i < j - 1 {
      Apart(s, period, start, i, j - 1);
    }
  }

  /** Digests are never empty, and at least one period apart. */
  lemma DigestsArePeriodsApart(s: State, actions: seq<Action>, period: nat, start: int, i: nat, j: nat)
    requires Reachable(s, actions, period, start) && i < j < |s.sent|
    ensures s.sent[j].at - s.sent[i].at >= period
    ensures s.sent[i].at >= start + period && s.sent[i].groups != map[]
  {
    ReachableIsSound(s, actions, period, start);
    Apart(s, period, start, i, j);
    if i > 0 {
      Apart(s, period, start, 0, i);
    }
  }

  // ------------------------------------------------------------------ the buffer

  class SoftAnomalyDigest {
    const period: nat
    var groups: map<Key, Group>
    var timer: Timer
    var lastSentAt: int
    ghost var added: seq<Addition>
    ghost var sent: seq<Digest>

    ghost function At(now: int): State
      reads this
    {
      State(groups, timer, lastSentAt, now, added, sent)
    }

    constructor (period: nat, now: int)
      ensures At(now) == Initial(now) && this.period == period
    {
      this.period, groups, timer, lastSentAt, added, sent := period, map[], Off, now, [], [];
    }

    method Add(key: Key, message: string, t: int)
      modifies this
      ensures At(t) == Apply(old(At(t)), Action.Add(key, message), period)
    {
      added := added + [Addition(key, message, t)];
      if key in groups {
        var g := groups[key];
        groups := groups[key := Group(g.count + 1, g.firstAt, t, message)];
      } else {
        groups := groups[key := Group(1, t, t, message)];
      }
      if timer.Due? {
        return;
      }
      timer := Due(t + Max(0, lastSentAt + period - t));
    }

    method Flush(t: int)
      requires Enabled(At(t), Fire)
      modifies this
      ensures At(t) == Apply(old(At(t)), Fire, period)
    {
      timer, lastSentAt := Off, t;
      if groups == map[] {
        return;
      }
      sent := sent + [Digest(t, groups)];
      groups := map[];
    }
  }
}

/**
 * The anomaly recorder (anomaly.ts): every anomaly is stored, its notification is
 * suppressed while a window for the same kind is open, and the suppressed ones
 * are reported when the window closes.
 */
module AnomalyRecorder {
  import D = AnomalyDigest

  /** An open window. */
  datatype Entry = Entry(suppressed: nat, firstAt: int, closesAt: int)

  /** A notification: the anomaly itself, or a closing window's count. */
  datatype Notice = Immediate(key: D.Key, at: int) | Suppressed(key: D.Key, count: nat)

  datatype Anomaly = Anomaly(key: D.Key, soft: bool, aboutCopilot: bool, message: string)

  /** What is shown of one kind of anomaly. */
  function ImmediateOf(ns: seq<Notice>, key: D.Key): nat {
    if ns == [] then 0
    else
      var n := ns[|ns| - 1];
      ImmediateOf(ns[..|ns| - 1], key) + if n.Immediate? && n.key == key then 1 else 0
  }

  function ReportedOf(ns: seq<Notice>, key: D.Key): nat {
    if ns == [] then 0
    else
      var n := ns[|ns| - 1];
      ReportedOf(ns[..|ns| - 1], key) + if n.Suppressed? && n.key == key then n.count else 0
  }

  function OpenOf(recent: map<D.Key, Entry>, key: D.Key): nat {
    if key in recent then recent[key].suppressed else 0
  }

  function RecordsOf(rs: seq<D.Key>, key: D.Key): nat {
    D.Occurrences(rs, key)
  }

  /** The windows, the notices sent, and the de-duplicated records; a record of the digest's kind is in none. */
  datatype State = State(recent: map<D.Key, Entry>, notices: seq<Notice>, records: seq<D.Key>, now: int)

  datatype Action =
    | Record(key: D.Key)
    | CloseWindow(key: D.Key)
    | Tick(ms: nat)

  predicate Enabled(s: State, a: Action) {
    a.CloseWindow? ==> a.key in s.recent && s.now >= s.recent[a.key].closesAt
  }

  function Apply(s: State, a: Action, window: nat): State
    requires Enabled(s, a)
  {
    match a
    case Record(key) =>
      var r := s.(records := s.records + [key]);
      if key in s.recent then
        r.(recent := s.recent[key := s.recent[key].(suppressed := s.recent[key].suppressed + 1)])
      else
        r.(recent := s.recent[key := Entry(0, s.now, s.now + window)], notices := s.notices + [Immediate(key, s.now)])
    case CloseWindow(key) =>
      var n := s.recent[key].suppressed;
      s.(recent := s.recent - {key}, notices := if n > 0 then s.notices + [Suppressed(key, n)] else s.notices)
    case Tick(ms) => s.(now := s.now + ms)
  }

  ghost predicate Reachable(s: State, actions: seq<Action>, window: nat, start: int)
    decreases |actions|
  {
    if actions == [] then s == State(map[], [], [], start)
    else
      var a := actions[|actions| - 1];
      exists r :: Reachable(r, actions[..|actions| - 1], window, start) && Enabled(r, a) && s == Apply(r, a, window)
  }

  predicate Conserved(s: State, key: D.Key) {
    RecordsOf(s.records, key) == ImmediateOf(s.notices, key) + ReportedOf(s.notices, key) + OpenOf(s.recent, key)
  }

  predicate SameKind(a: Notice, b: Notice) {
    a.Immediate? && b.Immediate? && a.key == b.key
  }

  /** An open window began with an immediate notice of its kind and is as long as a window is. */
  ghost predicate WindowsOk(s: State, window: nat) {
    forall key :: key in s.recent ==>
      && Immediate(key, s.recent[key].firstAt) in s.notices
      && s.recent[key].closesAt == s.recent[key].firstAt + window
  }

  /** An immediate notice of a kind is followed by an open window of it, or a window's length has passed. */
  ghost predicate Spaced(s: State, window: nat) {
    && (forall i :: 0 <= i < |s.notices| && s.notices[i].Immediate? ==>
          s.now >= s.notices[i].at + window
          || (s.notices[i].key in s.recent && s.recent[s.notices[i].key].closesAt >= s.notices[i].at + window))
    && (forall i, j :: 0 <= i < j < |s.notices| && SameKind(s.notices[i], s.notices[j]) ==>
          s.notices[j].at - s.notices[i].at >= window)
  }

  lemma OneMoreNotice(ns: seq<Notice>, n: Notice, key: D.Key)
    ensures ImmediateOf(ns + [n], key) == ImmediateOf(ns, key) + if n.Immediate? && n.key == key then 1 else 0
    ensures ReportedOf(ns + [n], key) == ReportedOf(ns, key) + if n.Suppressed? && n.key == key then n.count else 0
  {
    assert (ns + [n])[..|ns|] == ns;
  }

  lemma OneMoreRecord(rs: seq<D.Key>, r: D.Key, key: D.Key)
    ensures RecordsOf(rs + [r], key) == RecordsOf(rs, key) + if r == key then 1 else 0
  {
    assert (rs + [r])[..|rs|] == rs;
  }

  lemma RecordConserves(s: State, k: D.Key, window: nat, key: D.Key)
    requires Conserved(s, key)
    ensures Conserved(Apply(s, Record(k), window), key)
  {
    OneMoreRecord(s.records, k, key);
    if k !in s.recent {
      OneMoreNotice(s.notices, Immediate(k, s.now), key);
    }
  }

  lemma CloseConserves(s: State, k: D.Key, window: nat, key: D.Key)
    requires Enabled(s, CloseWindow(k)) && Conserved(s, key)
    ensures Conserved(Apply(s, CloseWindow(k), window), key)
  {
    OneMoreNotice(s.notices, Suppressed(k, s.recent[k].suppressed), key);
  }

  lemma StepConserves(s: State, a: Action, window: nat, key: D.Key)
    requires Enabled(s, a) && Conserved(s, key)
    ensures Conserved(Apply(s, a, window), key)
  {
    match a
    case Record(k) => RecordConserves(s, k, window, key);
    case CloseWindow(k) => CloseConserves(s, k, window, key);
    case Tick(_) =>
  }

  lemma StepKeepsSpaced(s: State, a: Action, window: nat)
    requires Enabled(s, a) && Spaced(s, window)
    ensures Spaced(Apply(s, a, window), window)
  {
  }

  lemma StepKeepsWindows(s: State, a: Action, window: nat)
    requires Enabled(s, a) && WindowsOk(s, window)
    ensures WindowsOk(Apply(s, a, window), window)
  {
    var t := Apply(s, a, window);
    assert s.notices <= t.notices;
    forall key | key in t.recent
      ensures Immediate(key, t.recent[key].firstAt) in t.notices
              && t.recent[key].closesAt == t.recent[key].firstAt + window
    {
      if key in s.recent {
        assert Immediate(key, s.recent[key].firstAt) in s.notices;
      } else {
        assert t.notices[|s.notices|] == Immediate(key, s.now);
      }
    }
  }

  /**
   * Of every kind: the records are the immediate notices, the suppressed ones
   * reported, and the suppressed ones of the window still open.
   */
  lemma {:induction false} RecordsAreAccountedFor(s: State, actions: seq<Action>, window: nat, start: int, key: D.Key)
    requires Reachable(s, actions, window, start)
    ensures RecordsOf(s.records, key) ==
              ImmediateOf(s.notices, key) + ReportedOf(s.notices, key) + OpenOf(s.recent, key)
    decreases |actions|
  {
    if actions != [] {
      var a := actions[|actions| - 1];
      var r :| Reachable(r, actions[..|actions| - 1], window, start) && Enabled(r, a) && s == Apply(r, a, window);
      RecordsAreAccountedFor(r, actions[..|actions| - 1], window, start, key);
      StepConserves(r, a, window, key);
    }
  }

  /** Two immediate notices of one kind are at least a window apart. */
  lemma {:induction false} ImmediateNoticesAreSpaced(s: State, actions: seq<Action>, window: nat, start: int)
    requires Reachable(s, actions, window, start)
    ensures Spaced(s, window)
    decreases |actions|
  {
    if actions != [] {
      var a := actions[|actions| - 1];
      var r :| Reachable(r, actions[..|actions| - 1], window, start) && Enabled(r, a) && s == Apply(r, a, window);
      ImmediateNoticesAreSpaced(r, actions[..|actions| - 1], window, start);
      StepKeepsSpaced(r, a, window);
    }
  }

  lemma {:induction false} WindowsAreSound(s: State, actions: seq<Action>, window: nat, start: int)
    requires Reachable(s, actions, window, start)
    ensures WindowsOk(s, window)
    decreases |actions|
  {
    if actions != [] {
      var a := actions[|actions| - 1];
      var r :| Reachable(r, actions[..|actions| - 1], window, start) && Enabled(r, a) && s == Apply(r, a, window);
      WindowsAreSound(r, actions[..|actions| - 1], window, start);
      StepKeepsWindows(r, a, window);
    }
  }

  /**
   * A record is announced at once, with its kind and time, unless a window of its
   * kind is open; one stays open for its length after the notice it began with.
   */
  lemma ARecordIsAnnouncedExactly(s: State, actions: seq<Action>, window: nat, start: int, key: D.Key)
    requires Reachable(s, actions, window, start)
    ensures var t := Apply(s, Record(key), window);
            && (key !in s.recent ==> t.notices == s.notices + [Immediate(key, s.now)])
            && (key in s.recent ==> t.notices == s.notices)
    ensures key in s.recent ==>
              && Immediate(key, s.recent[key].firstAt) in s.notices
              && (Enabled(s, CloseWindow(key)) <==> s.now >= s.recent[key].firstAt + window)
    ensures Enabled(s, CloseWindow(key)) ==>
              var t, n := Apply(s, CloseWindow(key), window), s.recent[key].suppressed;
              && t.notices == (if n == 0 then s.notices else s.notices + [Suppressed(key, n)])
              && t.recent == s.recent - {key}
  {
    WindowsAreSound(s, actions, window, start);
  }

  // ------------------------------------------------------------------ the recorder

  class Recorder {
    const window: nat
    /** Soft anomalies are digested; without a mission copilot there is nobody to send the digest to. */
    const digesting: bool
    const digest: D.SoftAnomalyDigest?
    var recent: map<D.Key, Entry>
    var notices: seq<Notice>
    var persisted: seq<Anomaly>
    ghost var deduplicated: seq<D.Key>

    ghost function At(now: int): State
      reads this
    {
      State(recent, notices, deduplicated, now)
    }

    constructor (window: nat, digesting: bool, digest: D.SoftAnomalyDigest?, now: int)
      ensures At(now) == State(map[], [], [], now) && persisted == []
      ensures this.window == window && this.digesting == digesting && this.digest == digest
    {
      this.window, this.digesting, this.digest := window, digesting, digest;
      recent, notices, persisted, deduplicated := map[], [], [], [];
    }

    /**
     * `record`: every anomaly is stored; a soft one goes to the digest when soft
     * ones are digested, unless it is about the copilot itself; any other goes
     * through the windows.
     */
    method Record(a: Anomaly, now: int)
      modifies this, digest
      ensures persisted == old(persisted) + [a]
      ensures At(now) == if a.soft && digesting then old(At(now)) else Apply(old(At(now)), Action.Record(a.key), window)
      ensures digest != null && a.soft && digesting && !a.aboutCopilot ==>
                digest.At(now) == D.Apply(old(digest.At(now)), D.Add(a.key, a.message), digest.period)
      ensures digest != null && !(a.soft && digesting && !a.aboutCopilot) ==> digest.At(now) == old(digest.At(now))
    {
      persisted := persisted + [a];
      if a.soft && digesting {
        if !a.aboutCopilot && digest != null {
          digest.Add(a.key, a.message, now);
        }
        return;
      }
      deduplicated := deduplicated + [a.key];
      if a.key in recent {
        recent := recent[a.key := recent[a.key].(suppressed := recent[a.key].suppressed + 1)];
        return;
      }
      recent := recent[a.key := Entry(0, now, now + window)];
      notices := notices + [Immediate(a.key, now)];
    }

    /** The timer of an open window. */
    method CloseWindow(key: D.Key, now: int)
      requires Enabled(At(now), Action.CloseWindow(key))
      modifies this
      ensures At(now) == Apply(old(At(now)), Action.CloseWindow(key), window)
    {
      var n := recent[key].suppressed;
      recent := recent - {key};
      if n > 0 {
        notices := notices + [Suppressed(key, n)];
      }
    }
  }
}
