/**
 * Limits on a turn (limits.ts, agent-runner-phases.ts): the rules of an agent's
 * configuration, and the check that alerts on soft breaches and throws on hard ones.
 */
module Limits {
  import opened Options

  datatype Metric = LlmCallCount | Cost | PeakContextTokens | ToolErrors | LifetimeCost | ZeroOutputTurns

  datatype Severity = Hard | Soft

  /** The id of a rule names the configured limit, whatever its threshold is at the moment. */
  datatype Id =
    | HardMaxLlmCallsPerTurn
    | HardMaxCostPerTurn
    | HardMaxLifetimeCost
    | SoftWarnLlmCallsPerTurn
    | SoftWarnPeakContextTokens
    | SoftWarnToolErrorsPerTurn
    | SoftWarnZeroOutputTurns

  datatype Rule = Rule(id: Id, metric: Metric, threshold: nat, severity: Severity)

  datatype Breach = Breach(rule: Rule, value: nat)

  /** Amounts are in micro-dollars. */
  datatype Config = Config(
    maxLlmCallsPerTurn: Option<int>,
    maxCostPerTurn: Option<int>,
    maxLifetimeCost: Option<int>,
    warnLlmCallsPerTurn: Option<int>,
    warnPeakContextTokens: Option<int>,
    warnToolErrorsPerTurn: Option<int>,
    warnZeroOutputTurns: Option<int>)

  datatype Turn = Turn(llmCalls: nat, cost: nat, peakContextTokens: nat, toolErrors: nat)

  datatype Lifetime = Lifetime(cost: nat, zeroOutputTurns: nat)

  const DEFAULT_WARN_LLM_CALLS := 40
  const DEFAULT_WARN_CONTEXT_TOKENS := 100_000
  const DEFAULT_WARN_TOOL_ERRORS := 8
  const DEFAULT_WARN_ZERO_OUTPUT_TURNS := 3

  /** One rule, unless its threshold is missing or not positive. */
  function RuleFor(threshold: Option<int>, id: Id, metric: Metric, severity: Severity): seq<Rule> {
    if threshold.Some? && threshold.value > 0 then [Rule(id, metric, threshold.value, severity)] else []
  }

  function OrDefault(threshold: Option<int>, default: int): Option<int> {
    if threshold.Some? then threshold else Some(default)
  }

  function BuildRules(c: Config): seq<Rule> {
    RuleFor(c.maxLlmCallsPerTurn, HardMaxLlmCallsPerTurn, LlmCallCount, Hard)
    + RuleFor(c.maxCostPerTurn, HardMaxCostPerTurn, Cost, Hard)
    + RuleFor(c.maxLifetimeCost, HardMaxLifetimeCost, LifetimeCost, Hard)
    + RuleFor(OrDefault(c.warnLlmCallsPerTurn, DEFAULT_WARN_LLM_CALLS), SoftWarnLlmCallsPerTurn, LlmCallCount, Soft)
    + RuleFor(OrDefault(c.warnPeakContextTokens, DEFAULT_WARN_CONTEXT_TOKENS),
              SoftWarnPeakContextTokens, PeakContextTokens, Soft)
    + RuleFor(OrDefault(c.warnToolErrorsPerTurn, DEFAULT_WARN_TOOL_ERRORS), SoftWarnToolErrorsPerTurn, ToolErrors, Soft)
    + RuleFor(OrDefault(c.warnZeroOutputTurns, DEFAULT_WARN_ZERO_OUTPUT_TURNS),
              SoftWarnZeroOutputTurns, ZeroOutputTurns, Soft)
  }

  function MetricValue(m: Metric, turn: Turn, lifetime: Option<Lifetime>): nat {
    match m
    case LlmCallCount => turn.llmCalls
    case Cost => turn.cost
    case PeakContextTokens => turn.peakContextTokens
    case ToolErrors => turn.toolErrors
    case LifetimeCost => (if lifetime.Some? then lifetime.value.cost else 0) + turn.cost
    case ZeroOutputTurns => if lifetime.Some? then lifetime.value.zeroOutputTurns else 0
  }

  predicate Breached(r: Rule, turn: Turn, lifetime: Option<Lifetime>) {
    MetricValue(r.metric, turn, lifetime) > r.threshold
  }

  /** `evaluateLimits`: the breaches are the breached rules, in order, with their values. */
  method EvaluateLimits(turn: Turn, lifetime: Option<Lifetime>, rules: seq<Rule>) returns (breaches: seq<Breach>)
    ensures forall b :: b in breaches <==>
              && b.rule in rules && Breached(b.rule, turn, lifetime)
              && b.value == MetricValue(b.rule.metric, turn, lifetime)
    ensures |breaches| <= |rules|
  {
    breaches := [];
    for i := 0 to |rules|
      invariant |breaches| <= i
      invariant forall b :: b in breaches <==>
                  b.rule in rules[..i] && Breached(b.rule, turn, lifetime)
                  && b.value == MetricValue(b.rule.metric, turn, lifetime)
    {
      assert rules[..i + 1] == rules[..i] + [rules[i]];
      var value := MetricValue(rules[i].metric, turn, lifetime);
      if value > rules[i].threshold {
        breaches := breaches + [Breach(rules[i], value)];
      }
    }
    assert rules[..|rules|] == rules;
  }

  predicate Over(limit: Option<int>, value: nat) {
    limit.Some? && limit.value > 0 && value > limit.value
  }

  /** What a hard limit means, said over the configuration. */
  predicate HardLimitExceeded(c: Config, turn: Turn, lifetime: Option<Lifetime>) {
    || Over(c.maxLlmCallsPerTurn, turn.llmCalls)
    || Over(c.maxCostPerTurn, turn.cost)
    || Over(c.maxLifetimeCost, (if lifetime.Some? then lifetime.value.cost else 0) + turn.cost)
  }

  /**
   * What every limit means, said over the configuration: which number is compared with
   * which field, or with the default if the field is missing.
   */
  predicate Exceeded(c: Config, id: Id, turn: Turn, lifetime: Option<Lifetime>, value: nat, threshold: nat) {
    && value > threshold > 0
    && match id
       case HardMaxLlmCallsPerTurn => c.maxLlmCallsPerTurn == Some(threshold) && value == turn.llmCalls
       case HardMaxCostPerTurn => c.maxCostPerTurn == Some(threshold) && value == turn.cost
       case HardMaxLifetimeCost =>
         && c.maxLifetimeCost == Some(threshold)
         && value == turn.cost + if lifetime.Some? then lifetime.value.cost else 0
       case SoftWarnLlmCallsPerTurn =>
         value == turn.llmCalls && threshold == if c.warnLlmCallsPerTurn.Some? then c.warnLlmCallsPerTurn.value else 40
       case SoftWarnPeakContextTokens =>
         && value == turn.peakContextTokens
         && threshold == if c.warnPeakContextTokens.Some? then c.warnPeakContextTokens.value else 100_000
       case SoftWarnToolErrorsPerTurn =>
         && value == turn.toolErrors
         && threshold == if c.warnToolErrorsPerTurn.Some? then c.warnToolErrorsPerTurn.value else 8
       case SoftWarnZeroOutputTurns =>
         && lifetime.Some? && value == lifetime.value.zeroOutputTurns
         && threshold == if c.warnZeroOutputTurns.Some? then c.warnZeroOutputTurns.value else 3
  }

  predicate IsHard(id: Id) {
    id.HardMaxLlmCallsPerTurn? || id.HardMaxCostPerTurn? || id.HardMaxLifetimeCost?
  }

  lemma InRuleFor(threshold: Option<int>, id: Id, metric: Metric, severity: Severity, r: Rule)
    ensures r in RuleFor(threshold, id, metric, severity) <==>
              threshold == Some(r.threshold) && r.threshold > 0 && r == Rule(id, metric, r.threshold, severity)
  {
  }

  lemma InEither(a: seq<Rule>, b: seq<Rule>, r: Rule)
    ensures r in a + b <==> r in a || r in b
  {
  }

  /** A rule is built exactly when it stands for a limit that is configured, or a default. */
  lemma InRules(c: Config, r: Rule)
    ensures r in BuildRules(c) <==> BuiltFor(c, r)
  {
    var r1 := RuleFor(c.maxLlmCallsPerTurn, HardMaxLlmCallsPerTurn, LlmCallCount, Hard);
    var r2 := RuleFor(c.maxCostPerTurn, HardMaxCostPerTurn, Cost, Hard);
    var r3 := RuleFor(c.maxLifetimeCost, HardMaxLifetimeCost, LifetimeCost, Hard);
    var w1 := OrDefault(c.warnLlmCallsPerTurn, DEFAULT_WARN_LLM_CALLS);
    var w2 := OrDefault(c.warnPeakContextTokens, DEFAULT_WARN_CONTEXT_TOKENS);
    var w3 := OrDefault(c.warnToolErrorsPerTurn, DEFAULT_WARN_TOOL_ERRORS);
    var w4 := OrDefault(c.warnZeroOutputTurns, DEFAULT_WARN_ZERO_OUTPUT_TURNS);
    var s1 := RuleFor(w1, SoftWarnLlmCallsPerTurn, LlmCallCount, Soft);
    var s2 := RuleFor(w2, SoftWarnPeakContextTokens, PeakContextTokens, Soft);
    var s3 := RuleFor(w3, SoftWarnToolErrorsPerTurn, ToolErrors, Soft);
    var s4 := RuleFor(w4, SoftWarnZeroOutputTurns, ZeroOutputTurns, Soft);
    InEither(r1, r2, r);
    InEither(r1 + r2, r3, r);
    InEither(r1 + r2 + r3, s1, r);
    InEither(r1 + r2 + r3 + s1, s2, r);
    InEither(r1 + r2 + r3 + s1 + s2, s3, r);
    InEither(r1 + r2 + r3 + s1 + s2 + s3, s4, r);
    InRuleFor(c.maxLlmCallsPerTurn, HardMaxLlmCallsPerTurn, LlmCallCount, Hard, r);
    InRuleFor(c.maxCostPerTurn, HardMaxCostPerTurn, Cost, Hard, r);
    InRuleFor(c.maxLifetimeCost, HardMaxLifetimeCost, LifetimeCost, Hard, r);
    InRuleFor(w1, SoftWarnLlmCallsPerTurn, LlmCallCount, Soft, r);
    InRuleFor(w2, SoftWarnPeakContextTokens, PeakContextTokens, Soft, r);
    InRuleFor(w3, SoftWarnToolErrorsPerTurn, ToolErrors, Soft, r);
    InRuleFor(w4, SoftWarnZeroOutputTurns, ZeroOutputTurns, Soft, r);
  }

  predicate BuiltFor(c: Config, r: Rule) {
    && r.threshold > 0
    && match r.id
       case HardMaxLlmCallsPerTurn =>
         c.maxLlmCallsPerTurn == Some(r.threshold) && r.metric == LlmCallCount && r.severity == Hard
       case HardMaxCostPerTurn => c.maxCostPerTurn == Some(r.threshold) && r.metric == Cost && r.severity == Hard
       case HardMaxLifetimeCost =>
         c.maxLifetimeCost == Some(r.threshold) && r.metric == LifetimeCost && r.severity == Hard
       case SoftWarnLlmCallsPerTurn =>
         && OrDefault(c.warnLlmCallsPerTurn, DEFAULT_WARN_LLM_CALLS) == Some(r.threshold)
         && r.metric == LlmCallCount && r.severity == Soft
       case SoftWarnPeakContextTokens =>
         && OrDefault(c.warnPeakContextTokens, DEFAULT_WARN_CONTEXT_TOKENS) == Some(r.threshold)
         && r.metric == PeakContextTokens && r.severity == Soft
       case SoftWarnToolErrorsPerTurn =>
         && OrDefault(c.warnToolErrorsPerTurn, DEFAULT_WARN_TOOL_ERRORS) == Some(r.threshold)
         && r.metric == ToolErrors && r.severity == Soft
       case SoftWarnZeroOutputTurns =>
         && OrDefault(c.warnZeroOutputTurns, DEFAULT_WARN_ZERO_OUTPUT_TURNS) == Some(r.threshold)
         && r.metric == ZeroOutputTurns && r.severity == Soft
  }

  /** A rule that is built is breached exactly when the limit it stands for is exceeded. */
  lemma ABreachIsExceeding(c: Config, r: Rule, turn: Turn, lifetime: Option<Lifetime>)
    requires r in BuildRules(c)
    ensures (r.severity == Hard) == IsHard(r.id)
    ensures Breached(r, turn, lifetime) <==>
              Exceeded(c, r.id, turn, lifetime, MetricValue(r.metric, turn, lifetime), r.threshold)
  {
    InRules(c, r);
  }

  /** What the configuration calls exceeded is a breach of one of the rules built. */
  lemma ExceedingIsABreach(c: Config, id: Id, turn: Turn, lifetime: Option<Lifetime>, value: nat, threshold: nat)
    returns (r: Rule)
    requires Exceeded(c, id, turn, lifetime, value, threshold)
    ensures r in BuildRules(c) && Breached(r, turn, lifetime) && value == MetricValue(r.metric, turn, lifetime)
    ensures r.id == id && r.threshold == threshold && (r.severity == Hard) == IsHard(id)
  {
    var metric := match id
      case HardMaxLlmCallsPerTurn => LlmCallCount
      case HardMaxCostPerTurn => Cost
      case HardMaxLifetimeCost => LifetimeCost
      case SoftWarnLlmCallsPerTurn => LlmCallCount
      case SoftWarnPeakContextTokens => PeakContextTokens
      case SoftWarnToolErrorsPerTurn => ToolErrors
      case SoftWarnZeroOutputTurns => ZeroOutputTurns;
    r := Rule(id, metric, threshold, if IsHard(id) then Hard else Soft);
    InRules(c, r);
  }

  ghost predicate HardBreach(rules: seq<Rule>, turn: Turn, lifetime: Option<Lifetime>) {
    exists r :: r in rules && r.severity == Hard && Breached(r, turn, lifetime)
  }

  /** The built rules are breached hard exactly when a configured hard limit is exceeded. */
  lemma RulesMeanTheConfiguration(c: Config, turn: Turn, lifetime: Option<Lifetime>)
    ensures HardBreach(BuildRules(c), turn, lifetime) <==> HardLimitExceeded(c, turn, lifetime)
  {
    if r :| r in BuildRules(c) && r.severity == Hard && Breached(r, turn, lifetime) {
      ABreachIsExceeding(c, r, turn, lifetime);
    }
    if Over(c.maxLlmCallsPerTurn, turn.llmCalls) {
      var r := ExceedingIsABreach(c, HardMaxLlmCallsPerTurn, turn, lifetime, turn.llmCalls, c.maxLlmCallsPerTurn.value);
    }
    if Over(c.maxCostPerTurn, turn.cost) {
      var r := ExceedingIsABreach(c, HardMaxCostPerTurn, turn, lifetime, turn.cost, c.maxCostPerTurn.value);
    }
    var cost := turn.cost + if lifetime.Some? then lifetime.value.cost else 0;
    if Over(c.maxLifetimeCost, cost) {
      var r := ExceedingIsABreach(c, HardMaxLifetimeCost, turn, lifetime, cost, c.maxLifetimeCost.value);
    }
  }

  datatype Check = Passed | LimitExceeded(breach: Breach)

  /** Some alert is of this limit. */
  predicate Alerted(alerts: seq<Breach>, id: Id) {
    exists i :: 0 <= i < |alerts| && alerts[i].rule.id == id
  }

  /** The alert is of a limit that is exceeded, with the value and the threshold it has. */
  predicate Genuine(c: Config, turn: Turn, lifetime: Option<Lifetime>, b: Breach) {
    && (b.rule.severity == Hard) == IsHard(b.rule.id)
    && Exceeded(c, b.rule.id, turn, lifetime, b.value, b.rule.threshold)
  }

  /** One turn's enforcer: the soft rules that have alerted, and every alert sent. */
  class LimitEnforcer {
    const bootTimeLimits: Config
    var firedSoftLimits: set<Id>
    var alerts: seq<Breach>

    constructor (limits: Config)
      ensures Valid() && bootTimeLimits == limits && firedSoftLimits == {} && alerts == []
    {
      bootTimeLimits, firedSoftLimits, alerts := limits, {}, [];
    }

    /**
     * No soft limit has alerted twice, though its threshold were edited; those that
     * fired are those that have alerted.
     */
    ghost predicate Valid()
      reads this
    {
      && (forall i, j :: 0 <= i < j < |alerts| && alerts[i].rule.id == alerts[j].rule.id ==> IsHard(alerts[i].rule.id))
      && (forall id :: id in firedSoftLimits <==> !IsHard(id) && Alerted(alerts, id))
    }

    /**
     * One check. `live` and `lifetime` are what could be read just now; a limits
     * read that failed falls back to the boot-time configuration. It throws
     * exactly when a hard limit is exceeded, whatever was caught before. Every soft
     * limit that is exceeded has alerted by now, and what alerts now is exceeded.
     */
    method Enforce(turn: Option<Turn>, live: Option<Config>, lifetime: Option<Lifetime>) returns (check: Check)
      requires Valid()
      modifies this
      ensures Valid() && old(alerts) <= alerts
      ensures turn.None? ==> check == Passed && alerts == old(alerts)
      ensures var c := if live.Some? then live.value else bootTimeLimits;
              check.LimitExceeded? <==> turn.Some? && HardLimitExceeded(c, turn.value, lifetime)
      ensures check.LimitExceeded? ==>
                |alerts| > |old(alerts)| && alerts[|alerts| - 1] == check.breach && IsHard(check.breach.rule.id)
      ensures !check.LimitExceeded? ==> forall i :: |old(alerts)| <= i < |alerts| ==> !IsHard(alerts[i].rule.id)
      ensures var c := if live.Some? then live.value else bootTimeLimits;
              turn.Some? ==>
                && (forall i :: |old(alerts)| <= i < |alerts| ==> Genuine(c, turn.value, lifetime, alerts[i]))
                && (forall id, v, t :: !IsHard(id) && Exceeded(c, id, turn.value, lifetime, v, t) ==>
                      Alerted(alerts, id))
    {
      if turn.None? {
        return Passed;
      }
      var c := if live.Some? then live.value else bootTimeLimits;
      var breaches := EvaluateLimits(turn.value, lifetime, BuildRules(c));
      BreachesAreExact(c, turn.value, lifetime, breaches);
      AlertSoft(c, turn.value, lifetime, breaches);
      check := FirstHard(breaches);
      if check.LimitExceeded? {
        AlertHard(check.breach);
      }
    }

    method AlertHard(b: Breach)
      requires Valid() && IsHard(b.rule.id)
      modifies this`alerts
      ensures Valid() && alerts == old(alerts) + [b]
      ensures forall id :: Alerted(old(alerts), id) ==> Alerted(alerts, id)
    {
      ghost var before := alerts;
      alerts := alerts + [b];
      AlertedThen(before, b);
    }

    /** The soft breaches, each unless its limit has alerted in this turn. */
    method AlertSoft(c: Config, turn: Turn, lifetime: Option<Lifetime>, breaches: seq<Breach>)
      requires Valid() && forall b :: b in breaches ==> Genuine(c, turn, lifetime, b)
      modifies this
      ensures Valid() && old(alerts) <= alerts
      ensures forall b :: b in breaches && b.rule.severity == Soft ==> Alerted(alerts, b.rule.id)
      ensures forall i :: |old(alerts)| <= i < |alerts| ==>
                !IsHard(alerts[i].rule.id) && Genuine(c, turn, lifetime, alerts[i])
    {
      for i := 0 to |breaches|
        invariant Valid() && old(alerts) <= alerts
        invariant forall k :: 0 <= k < i && breaches[k].rule.severity == Soft ==> Alerted(alerts, breaches[k].rule.id)
        invariant forall k :: |old(alerts)| <= k < |alerts| ==>
                    !IsHard(alerts[k].rule.id) && Genuine(c, turn, lifetime, alerts[k])
      {
        assert breaches[i] in breaches;
        if breaches[i].rule.severity == Soft {
          AlertOnce(breaches[i]);
        }
      }
    }

    method AlertOnce(b: Breach)
      requires Valid() && !IsHard(b.rule.id)
      modifies this
      ensures Valid() && Alerted(alerts, b.rule.id)
      ensures alerts == old(alerts) || alerts == old(alerts) + [b]
      ensures forall id :: Alerted(old(alerts), id) ==> Alerted(alerts, id)
    {
      if b.rule.id !in firedSoftLimits {
        ghost var before := alerts;
        firedSoftLimits := firedSoftLimits + {b.rule.id};
        alerts := alerts + [b];
        AlertedThen(before, b);
      }
    }
  }

  lemma AlertedThen(alerts: seq<Breach>, b: Breach)
    ensures forall id :: Alerted(alerts + [b], id) <==> Alerted(alerts, id) || id == b.rule.id
  {
    var all := alerts + [b];
    assert all[|alerts|] == b && forall i :: 0 <= i < |alerts| ==> all[i] == alerts[i];
  }

  /** The breaches are what the configuration calls exceeded, hard and soft. */
  lemma BreachesAreExact(c: Config, turn: Turn, lifetime: Option<Lifetime>, breaches: seq<Breach>)
    requires forall b :: b in breaches <==>
               && b.rule in BuildRules(c) && Breached(b.rule, turn, lifetime)
               && b.value == MetricValue(b.rule.metric, turn, lifetime)
    ensures forall b :: b in breaches ==> Genuine(c, turn, lifetime, b)
    ensures forall id, v, t :: !IsHard(id) && Exceeded(c, id, turn, lifetime, v, t) ==>
              exists b :: b in breaches && b.rule.id == id && b.rule.severity == Soft
    ensures (exists b :: b in breaches && b.rule.severity == Hard) <==> HardLimitExceeded(c, turn, lifetime)
  {
    forall b | b in breaches ensures Genuine(c, turn, lifetime, b) {
      ABreachIsExceeding(c, b.rule, turn, lifetime);
    }
    forall id, v, t | !IsHard(id) && Exceeded(c, id, turn, lifetime, v, t)
      ensures exists b :: b in breaches && b.rule.id == id && b.rule.severity == Soft
    {
      var r := ExceedingIsABreach(c, id, turn, lifetime, v, t);
      assert Breach(r, v) in breaches;
    }
    RulesMeanTheConfiguration(c, turn, lifetime);
    if r :| r in BuildRules(c) && r.severity == Hard && Breached(r, turn, lifetime) {
      assert Breach(r, MetricValue(r.metric, turn, lifetime)) in breaches;
    }
  }

  method FirstHard(breaches: seq<Breach>) returns (check: Check)
    ensures check.LimitExceeded? <==> exists b :: b in breaches && b.rule.severity == Hard
    ensures check.LimitExceeded? ==> check.breach in breaches && check.breach.rule.severity == Hard
  {
    for i := 0 to |breaches|
      invariant forall k :: 0 <= k < i ==> breaches[k].rule.severity != Hard
    {
      if breaches[i].rule.severity == Hard {
        return LimitExceeded(breaches[i]);
      }
    }
    return Passed;
  }
}

/**
 * A turn under a hard limit on LLM calls (loop.ts, llm-meter.ts, agent-runner-turn.ts):
 * the check runs after every recorded call and every tool result; what it throws
 * inside a tool or a meter is swallowed, what it throws in the loop's own hooks is not.
 */
module LimitedTurn {
  import opened Limits
  import opened Options

  /** A configured limit; zero and below stand for none. */
  type Limit = n: int | n > 0 witness 1

  datatype Phase =
    /** The loop is about to call the model. */
    | Ready
    | Calling
    /** The reply passed the hook's check. */
    | Replied
    /** Tool calls of the reply still to execute. */
    | Tools(left: nat)
    | ToolRunning(left: nat)
    | Stopped

  datatype State = State(
    phase: Phase,
    /** The turn's recorded calls: what the limit counts. */
    counted: nat,
    mainCalls: nat,
    recovered: bool,
    /** Main-loop calls and tool calls started while the count was above the limit. */
    startsOver: nat,
    /** What the last check found, and the calls timed-out tools have made since. */
    checked: nat,
    strays: nat)

  datatype Action =
    | StartCall
    /** The provider throws, or the run is aborted before the call. */
    | CallFails
    /** The reply arrives; the log may fail before the call is recorded, and throws through. */
    | Reply(logged: bool)
    /** Another hook (an append, another hard limit) throws. */
    | HookThrows
    | Execute(toolCalls: nat)
    | Finish
    /** A structure error on the first call: the history is compacted and the loop run once more. */
    | Recover
    | StartTool
    /** A call made by the running tool; the meter swallows what the check throws. */
    | ToolSideCall(logged: bool)
    /** The same by a tool that has timed out and not stopped yet. */
    | StrayCall
    | EndTool

  predicate Enabled(s: State, a: Action) {
    match a
    case StartCall => s.phase.Ready?
    case CallFails => s.phase.Ready? || s.phase.Calling?
    case Reply(_) => s.phase.Calling?
    case HookThrows => !s.phase.Stopped?
    case Execute(n) => s.phase.Replied? && n > 0
    case Finish => s.phase.Replied?
    case Recover => s.phase.Replied? && !s.recovered && s.mainCalls == 1
    case StartTool => s.phase.Tools? && s.phase.left > 0
    case ToolSideCall(_) => s.phase.ToolRunning?
    case StrayCall => true
    case EndTool => s.phase.ToolRunning?
  }

  function Checked(s: State, limit: Limit, next: Phase): State {
    s.(phase := if s.counted > limit then Stopped else next, checked := s.counted, strays := 0)
  }

  function Started(s: State, limit: Limit, next: Phase): State {
    s.(phase := next, startsOver := s.startsOver + if s.counted > limit then 1 else 0)
  }

  function Apply(s: State, a: Action, limit: Limit): State
    requires Enabled(s, a)
  {
    match a
    case StartCall => Started(s, limit, Calling).(mainCalls := s.mainCalls + 1)
    case CallFails => s.(phase := Stopped)
    case Reply(logged) =>
      if logged then Checked(s.(counted := s.counted + 1), limit, Replied) else s.(phase := Stopped)
    case HookThrows => s.(phase := Stopped)
    case Execute(n) => s.(phase := Tools(n))
    case Finish => s.(phase := Stopped)
    case Recover => s.(phase := Ready, recovered := true)
    case StartTool => Started(s, limit, ToolRunning(s.phase.left - 1))
    case ToolSideCall(logged) => s.(counted := s.counted + if logged then 1 else 0)
    case StrayCall => s.(counted := s.counted + 1, strays := s.strays + 1)
    case EndTool => Checked(s, limit, if s.phase.left == 0 then Ready else Tools(s.phase.left))
  }

  const INIT := State(Ready, 0, 0, false, 0, 0, 0)

  ghost predicate Reachable(s: State, actions: seq<Action>, limit: Limit)
    decreases |actions|
  {
    if actions == [] then s == INIT
    else
      var a := actions[|actions| - 1];
      exists r :: Reachable(r, actions[..|actions| - 1], limit) && Enabled(r, a) && s == Apply(r, a, limit)
  }

  /** How many calls a run recorded, whoever made them. */
  function Recorded(actions: seq<Action>): nat {
    if actions == [] then 0
    else
      var n := |actions| - 1;
      var a := actions[n];
      var counts := a.StrayCall? || ((a.Reply? || a.ToolSideCall?) && a.logged);
      Recorded(actions[..n]) + if counts then 1 else 0
  }

  function MainCalls(actions: seq<Action>): nat {
    if actions == [] then 0
    else MainCalls(actions[..|actions| - 1]) + if actions[|actions| - 1].StartCall? then 1 else 0
  }

  /** How many main-loop calls and tool calls began when more calls were recorded than the limit allows. */
  function StartsOver(actions: seq<Action>, limit: Limit): nat {
    if actions == [] then 0
    else
      var before, a := actions[..|actions| - 1], actions[|actions| - 1];
      StartsOver(before, limit) + if (a.StartCall? || a.StartTool?) && Recorded(before) > limit then 1 else 0
  }

  /** What the state says is what the run has done, and while tools are to come one can be started. */
  lemma {:induction false} TheStateTellsOfTheRun(s: State, actions: seq<Action>, limit: Limit)
    requires Reachable(s, actions, limit)
    ensures s.counted == Recorded(actions) && s.mainCalls == MainCalls(actions)
    ensures s.startsOver == StartsOver(actions, limit)
    ensures s.phase.Tools? ==> s.phase.left > 0
    decreases |actions|
  {
    if actions != [] {
      var before, a := actions[..|actions| - 1], actions[|actions| - 1];
      var r :| Reachable(r, before, limit) && Enabled(r, a) && s == Apply(r, a, limit);
      TheStateTellsOfTheRun(r, before, limit);
    }
  }

  function Recoveries(actions: seq<Action>): nat {
    if actions == [] then 0
    else Recoveries(actions[..|actions| - 1]) + if actions[|actions| - 1].Recover? then 1 else 0
  }

  /** Each recovery comes when one main-loop call has been made. */
  predicate RecoversBehindTheFirstCall(actions: seq<Action>) {
    actions != [] ==>
      var before, a := actions[..|actions| - 1], actions[|actions| - 1];
      (a.Recover? ==> MainCalls(before) == 1) && RecoversBehindTheFirstCall(before)
  }

  /** The loop is run once more at most, behind its first call. */
  lemma {:induction false} TheLoopIsRunTwiceAtMost(s: State, actions: seq<Action>, limit: Limit)
    requires Reachable(s, actions, limit)
    ensures Recoveries(actions) == (if s.recovered then 1 else 0) && RecoversBehindTheFirstCall(actions)
    decreases |actions|
  {
    if actions != [] {
      var before, a := actions[..|actions| - 1], actions[|actions| - 1];
      var r :| Reachable(r, before, limit) && Enabled(r, a) && s == Apply(r, a, limit);
      TheLoopIsRunTwiceAtMost(r, before, limit);
      TheStateTellsOfTheRun(r, before, limit);
    }
  }

  /** Every completed main call was counted and checked. */
  predicate CallsInv(s: State, limit: Limit) {
    && s.mainCalls <= limit + 1
    && (s.phase.Calling? ==> s.mainCalls <= s.counted + 1)
    && (!s.phase.Calling? && !s.phase.Stopped? ==> s.mainCalls <= s.counted && s.mainCalls <= limit)
  }

  lemma {:induction false} AtMostOneCallOver(s: State, actions: seq<Action>, limit: Limit)
    requires Reachable(s, actions, limit)
    ensures CallsInv(s, limit)
    decreases |actions|
  {
    if actions != [] {
      var a := actions[|actions| - 1];
      var r :| Reachable(r, actions[..|actions| - 1], limit) && Enabled(r, a) && s == Apply(r, a, limit);
      AtMostOneCallOver(r, actions[..|actions| - 1], limit);
    }
  }

  /** A turn with a limit of N calls makes at most N + 1 main-loop calls, its recovery included. */
  lemma MainCallsAreBounded(s: State, actions: seq<Action>, limit: Limit)
    requires Reachable(s, actions, limit)
    ensures MainCalls(actions) <= limit + 1
  {
    AtMostOneCallOver(s, actions, limit);
    TheStateTellsOfTheRun(s, actions, limit);
  }

  /** Where the next step may be a start. */
  predicate MayStart(p: Phase) {
    p.Ready? || p.Replied? || p.Tools?
  }

  /**
   * Until the next start the count is what the last check found and the strays since;
   * what started over stops at its check.
   */
  predicate CountInv(s: State, limit: Limit) {
    && (MayStart(s.phase) ==> s.counted == s.checked + s.strays && s.checked <= limit && s.startsOver == 0)
    && (s.phase.Calling? || s.phase.ToolRunning? ==> s.startsOver == 0 || (s.startsOver == 1 && s.counted > limit))
    && s.startsOver <= 1
  }

  lemma {:induction false} CountsAreChecked(s: State, actions: seq<Action>, limit: Limit)
    requires Reachable(s, actions, limit)
    ensures CountInv(s, limit)
    decreases |actions|
  {
    if actions != [] {
      var a := actions[|actions| - 1];
      var r :| Reachable(r, actions[..|actions| - 1], limit) && Enabled(r, a) && s == Apply(r, a, limit);
      CountsAreChecked(r, actions[..|actions| - 1], limit);
    }
  }

  /**
   * Whatever tools and meters swallow, and whatever timed-out tools go on calling:
   * above the limit one main-loop call or tool call starts at most, for the next
   * check in the loop's own hooks ends the turn.
   */
  lemma AtMostOneStartsOver(s: State, actions: seq<Action>, limit: Limit)
    requires Reachable(s, actions, limit)
    ensures StartsOver(actions, limit) <= 1
    ensures StartsOver(actions, limit) == 1 ==> !MayStart(s.phase)
  {
    CountsAreChecked(s, actions, limit);
    TheStateTellsOfTheRun(s, actions, limit);
  }

  /**
   * A start is over the limit if and only if the calls timed-out tools have made
   * since the last check exceed what that check left of the limit.
   */
  lemma AStartIsOverExactlyByStrays(s: State, actions: seq<Action>, a: Action, limit: Limit)
    requires Reachable(s, actions, limit) && Enabled(s, a) && (a.StartCall? || a.StartTool?)
    ensures s.checked <= limit
    ensures Apply(s, a, limit).startsOver == 1 <==> s.strays > limit - s.checked
  {
    CountsAreChecked(s, actions, limit);
  }

  lemma {:induction false} StraysOnly(s: State, actions: seq<Action>, limit: Limit)
    requires Reachable(s, actions, limit) && StrayCall !in actions
    ensures s.strays == 0
    decreases |actions|
  {
    if actions != [] {
      var a := actions[|actions| - 1];
      var r :| Reachable(r, actions[..|actions| - 1], limit) && Enabled(r, a) && s == Apply(r, a, limit);
      assert a in actions;
      StraysOnly(r, actions[..|actions| - 1], limit);
    }
  }

  /** Hence without such calls nothing starts above the limit. */
  lemma {:induction false} NothingStartsOverTheLimit(s: State, actions: seq<Action>, limit: Limit)
    requires Reachable(s, actions, limit) && StrayCall !in actions
    ensures StartsOver(actions, limit) == 0
    decreases |actions|
  {
    if actions != [] {
      var a := actions[|actions| - 1];
      var before := actions[..|actions| - 1];
      var r :| Reachable(r, before, limit) && Enabled(r, a) && s == Apply(r, a, limit);
      assert a in actions;
      NothingStartsOverTheLimit(r, before, limit);
      StraysOnly(r, before, limit);
      CountsAreChecked(r, before, limit);
      TheStateTellsOfTheRun(r, before, limit);
    }
  }

  lemma OneMore(s: State, actions: seq<Action>, a: Action, limit: Limit)
    requires Reachable(s, actions, limit) && Enabled(s, a)
    ensures Reachable(Apply(s, a, limit), actions + [a], limit)
  {
    var longer := actions + [a];
    assert longer[..|longer| - 1] == actions && longer[|longer| - 1] == a;
  }

  lemma Extended(s: State, actions: seq<Action>, a: Action, limit: Limit) returns (t: State, longer: seq<Action>)
    requires Reachable(s, actions, limit) && Enabled(s, a)
    ensures t == Apply(s, a, limit) && longer == actions + [a] && Reachable(t, longer, limit)
  {
    OneMore(s, actions, a, limit);
    t, longer := Apply(s, a, limit), actions + [a];
  }

  lemma {:induction false} Strays(s: State, actions: seq<Action>, n: nat, limit: Limit) returns (longer: seq<Action>)
    requires Reachable(s, actions, limit)
    ensures Reachable(s.(counted := s.counted + n, strays := s.strays + n), longer, limit) && actions <= longer
  {
    if n == 0 {
      longer := actions;
    } else {
      var before := Strays(s, actions, n - 1, limit);
      var t;
      t, longer := Extended(s.(counted := s.counted + n - 1, strays := s.strays + n - 1), before, StrayCall, limit);
    }
  }

  /**
   * Any start, in any turn under any limit, can be let over it by as many stray calls as
   * the last check left and one.
   */
  lemma StrayCallsLetAnyStartOver(s: State, actions: seq<Action>, a: Action, limit: Limit)
    returns (t: State, longer: seq<Action>)
    requires Reachable(s, actions, limit) && Enabled(s, a) && (a.StartCall? || a.StartTool?)
    ensures Reachable(t, longer, limit) && actions <= longer && StartsOver(longer, limit) == 1
  {
    CountsAreChecked(s, actions, limit);
    var n := if s.counted > limit then 0 else limit + 1 - s.counted;
    var between := Strays(s, actions, n, limit);
    t, longer := Extended(s.(counted := s.counted + n, strays := s.strays + n), between, a, limit);
    TheStateTellsOfTheRun(t, longer, limit);
  }

  /** The first tool of a turn's first reply, for one; with it started, the turn ends at the next check. */
  lemma AStrayCallLetsOneStartOver(limit: Limit) returns (s: State, actions: seq<Action>)
    ensures Reachable(s, actions, limit) && s.phase.ToolRunning?
    ensures MainCalls(actions) == 1 && StartsOver(actions, limit) == 1
    ensures Apply(s, EndTool, limit).phase.Stopped?
  {
    s, actions := INIT, [];
    s, actions := Extended(s, actions, StartCall, limit);
    s, actions := Extended(s, actions, Reply(true), limit);
    s, actions := Extended(s, actions, Execute(1), limit);
    var between := Strays(s, actions, limit, limit);
    s, actions := Extended(s.(counted := s.counted + limit, strays := s.strays + limit), between, StartTool, limit);
    TheStateTellsOfTheRun(s, actions, limit);
  }

  // ------------------------------------------------------------------ the enforcer as the loop's check

  /** What the limits in force are at a check. */
  function InForce(bootTimeLimits: Config, live: Option<Config>): Config {
    if live.Some? then live.value else bootTimeLimits
  }

  /** A hook that throws leaves the loop; any other check than the one on calls makes it one more step. */
  lemma HookTakesSteps(s: State, actions: seq<Action>, a: Action, throws: bool, limit: Limit)
    returns (t: State, longer: seq<Action>)
    requires Reachable(s, actions, limit) && Enabled(s, a) && (a == Reply(true) || a.EndTool?)
    requires Apply(s, a, limit).phase.Stopped? ==> throws
    ensures Reachable(t, longer, limit) && actions + [a] <= longer
    ensures t == if throws then Apply(s, a, limit).(phase := Stopped) else Apply(s, a, limit)
  {
    t, longer := Extended(s, actions, a, limit);
    if throws && !t.phase.Stopped? {
      t, longer := Extended(t, longer, HookThrows, limit);
    }
  }

  /**
   * The loop's hook after a reply or a tool result, with the limit on calls among
   * those in force: the turn goes where the enforcer's verdict sends it, and that
   * is where the protocol goes.
   */
  method Hook(enforcer: LimitEnforcer, s: State, a: Action, ghost actions: seq<Action>, limit: Limit,
              turn: Turn, live: Option<Config>, lifetime: Option<Lifetime>)
    returns (t: State, ghost longer: seq<Action>)
    requires enforcer.Valid()
    requires InForce(enforcer.bootTimeLimits, live).maxLlmCallsPerTurn == Some(limit)
    requires Reachable(s, actions, limit) && Enabled(s, a) && (a == Reply(true) || a.EndTool?)
    requires turn.llmCalls == Apply(s, a, limit).counted
    modifies enforcer
    ensures enforcer.Valid() && old(enforcer.alerts) <= enforcer.alerts
    ensures Reachable(t, longer, limit) && actions + [a] <= longer && t.counted == turn.llmCalls
    ensures t.phase.Stopped? <==> HardLimitExceeded(InForce(enforcer.bootTimeLimits, live), turn, lifetime)
  {
    var check := enforcer.Enforce(Some(turn), live, lifetime);
    t := Apply(s, a, limit);
    if check.LimitExceeded? {
      t := t.(phase := Stopped);
    }
    ghost var reached;
    reached, longer := HookTakesSteps(s, actions, a, check.LimitExceeded?, limit);
  }
}
